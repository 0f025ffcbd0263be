/** CoRwLock: a read-write lock that its writing chain may enter again for reading and
    writing.  As with the mutex, the class is the code and `RwShared` is the code cut at
    every access to the inner lock and to holder_. */
module CoRwLocks {
  import opened PoolQueries
  import opened LockOwners

  datatype Mode = Read | Write

  datatype Rw = Rw(readers: nat, writing: bool, holder: Owner, writeDepth: u32, readDepth: u32)

  /** The guards behind which ReadLock and WriteLock wait. */
  predicate MayReadLock(m: Rw, cur: Owner) { Same(cur, m.holder) || !m.writing }

  predicate MayWriteLock(m: Rw, cur: Owner) { Same(cur, m.holder) || (!m.writing && m.readers == 0) }

  function ReadLocked(m: Rw, cur: Owner): Rw {
    if Same(cur, m.holder) then m.(readDepth := Up(m.readDepth)) else m.(readers := m.readers + 1)
  }

  function WriteLocked(m: Rw, cur: Owner): Rw {
    if Same(cur, m.holder) then m.(writeDepth := Up(m.writeDepth)) else m.(writing := true, holder := cur, writeDepth := 1)
  }

  /** What the inner lock asks of its callers: to release reads that were taken. */
  predicate CanReadUnlock(m: Rw, cur: Owner) { (Same(cur, m.holder) && m.readDepth > 0) || m.readers > 0 }

  function ReadUnlocked(m: Rw, cur: Owner): Rw
    requires CanReadUnlock(m, cur)
  {
    if Same(cur, m.holder) && m.readDepth > 0 then m.(readDepth := m.readDepth - 1) else m.(readers := m.readers - 1)
  }

  function WriteUnlocked(m: Rw): Rw {
    var w := Down(m.writeDepth);
    if w == 0 && m.readDepth == 0 then m.(writeDepth := 0, holder := NOBODY, writing := false) else m.(writeDepth := w)
  }

  class CoRwLock {
    var readers: nat      // the inner lock
    var writing: bool
    var holder: Owner
    var writeDepth: u32       // write_depth_
    var readDepth: u32        // read_depth_

    function Value(): Rw
      reads this
    {
      Rw(readers, writing, holder, writeDepth, readDepth)
    }

    constructor ()
      ensures Value() == Rw(0, false, NOBODY, 0, 0)
    {
      readers, writing, holder, writeDepth, readDepth := 0, false, NOBODY, 0, 0;
    }

    method ReadLock(cur: Owner)
      requires MayReadLock(Value(), cur)
      modifies this
      ensures Value() == ReadLocked(old(Value()), cur)
    {
      if Same(cur, holder) {
        readDepth := Up(readDepth);
        return;
      }
      readers := readers + 1;
    }

    method ReadUnlock(cur: Owner)
      requires CanReadUnlock(Value(), cur)
      modifies this
      ensures Value() == ReadUnlocked(old(Value()), cur)
    {
      if Same(cur, holder) && readDepth > 0 {
        readDepth := readDepth - 1;
        return;
      }
      readers := readers - 1;
    }

    method WriteLock(cur: Owner)
      requires MayWriteLock(Value(), cur)
      modifies this
      ensures Value() == WriteLocked(old(Value()), cur)
    {
      if Same(cur, holder) {
        writeDepth := Up(writeDepth);
        return;
      }
      writing := true;
      holder := cur;
      writeDepth := 1;
    }

    method WriteUnlock()
      modifies this
      ensures Value() == WriteUnlocked(old(Value()))
    {
      writeDepth := Down(writeDepth);
      if writeDepth == 0 && readDepth == 0 {
        holder := NOBODY;
        writing := false;
      }
    }
  }

  // ----- interleaved -----

  datatype Pc = Idle | WantRead | WantWrite | Got | Clearing | Freeing

  /** `nest` are the chain's acquisitions not yet released, oldest first. */
  datatype Chain = Chain(pc: Pc, nest: seq<Mode>)

  const Outside := Chain(Idle, [])

  /** The inner lock is held for reading by `readers` and for writing by `writer`. */
  datatype RwShared = RwShared(
    readers: multiset<Owner>,
    writer: Option<Owner>,
    holder: Owner,
    writeDepth: u32,
    readDepth: u32,
    chains: map<Owner, Chain>)

  const Unused := RwShared(multiset{}, None, NOBODY, 0, 0, map[])

  datatype Step =
    | EnterRead(o: Owner)
    | TakeRead(o: Owner)
    | EnterWrite(o: Owner)
    | TakeWrite(o: Owner)
    | Install(o: Owner)
    | LeaveRead(o: Owner)
    | LeaveWrite(o: Owner)
    | Clear(o: Owner)
    | Free(o: Owner)

  function C(s: RwShared, o: Owner): Chain { if o in s.chains then s.chains[o] else Outside }

  predicate Innermost(nest: seq<Mode>, m: Mode) { nest != [] && nest[|nest| - 1] == m }

  /** Releases are nested: a chain gives back what it acquired last. */
  predicate Can(s: RwShared, a: Step) {
    && a.o != NOBODY
    && match a
       case EnterRead(o) => C(s, o).pc.Idle? && |C(s, o).nest| < U32 - 1
       case TakeRead(o) => C(s, o).pc.WantRead? && s.writer.None?
       case EnterWrite(o) => C(s, o).pc.Idle? && |C(s, o).nest| < U32 - 1
       case TakeWrite(o) => C(s, o).pc.WantWrite? && s.writer.None? && s.readers == multiset{}
       case Install(o) => C(s, o).pc.Got?
       case LeaveRead(o) => C(s, o).pc.Idle? && Innermost(C(s, o).nest, Read)
       case LeaveWrite(o) => C(s, o).pc.Idle? && Innermost(C(s, o).nest, Write)
       case Clear(o) => C(s, o).pc.Clearing?
       case Free(o) => C(s, o).pc.Freeing?
  }

  function Put(s: RwShared, o: Owner, pc: Pc, nest: seq<Mode>): RwShared { s.(chains := s.chains[o := Chain(pc, nest)]) }

  function Do(s: RwShared, a: Step): RwShared
    requires Can(s, a)
  {
    var n := C(s, a.o).nest;
    match a
    case EnterRead(o) =>
      if Same(o, s.holder) then Put(s, o, Idle, n + [Read]).(readDepth := Up(s.readDepth)) else Put(s, o, WantRead, n)
    case TakeRead(o) => Put(s, o, Idle, n + [Read]).(readers := s.readers + multiset{o})
    case EnterWrite(o) =>
      if Same(o, s.holder) then Put(s, o, Idle, n + [Write]).(writeDepth := Up(s.writeDepth)) else Put(s, o, WantWrite, n)
    case TakeWrite(o) => Put(s, o, Got, n).(writer := Some(o))
    case Install(o) => Put(s, o, Idle, n + [Write]).(holder := o, writeDepth := 1)
    case LeaveRead(o) =>
      var t := Put(s, o, Idle, n[..|n| - 1]);
      if Same(o, s.holder) && s.readDepth > 0 then t.(readDepth := s.readDepth - 1) else t.(readers := s.readers - multiset{o})
    case LeaveWrite(o) =>
      var w := Down(s.writeDepth);
      Put(s, o, if w == 0 && s.readDepth == 0 then Clearing else Idle, n[..|n| - 1]).(writeDepth := w)
    case Clear(o) => Put(s, o, Freeing, n).(holder := NOBODY)
    case Free(o) => Put(s, o, Idle, n).(writer := None)
  }

  function Count(nest: seq<Mode>, m: Mode): nat {
    if nest == [] then 0
    else Count(nest[..|nest| - 1], m) + if nest[|nest| - 1] == m then 1 else 0
  }

  lemma {:induction false} CountsAddUp(nest: seq<Mode>)
    ensures Count(nest, Read) + Count(nest, Write) == |nest|
    ensures nest != [] && nest[0] == Write ==> Count(nest, Write) > 0
  {
    if nest != [] {
      CountsAddUp(nest[..|nest| - 1]);
    }
  }

  lemma CountPush(nest: seq<Mode>, x: Mode, m: Mode)
    ensures Count(nest + [x], m) == Count(nest, m) + if x == m then 1 else 0
  {
    assert (nest + [x])[..|nest|] == nest;
  }

  predicate OnlyReads(nest: seq<Mode>) { forall i :: 0 <= i < |nest| ==> nest[i] == Read }

  /** A chain that does not have the inner lock for writing. */
  predicate ReaderOk(s: RwShared, o: Owner) {
    var c := C(s, o);
    (c.pc.Idle? || c.pc.WantRead? || c.pc.WantWrite?) && OnlyReads(c.nest) && s.readers[o] == |c.nest|
  }

  predicate WriterOk(s: RwShared, u: Owner) {
    var c := C(s, u);
    && u != NOBODY && s.readDepth == Count(c.nest, Read) && s.writeDepth == Count(c.nest, Write)
    && match c.pc
       case Idle => s.holder == u && c.nest != [] && c.nest[0] == Write && |c.nest| < U32
       case Got => s.holder == NOBODY && c.nest == []
       case Clearing => s.holder == u && c.nest == []
       case Freeing => s.holder == NOBODY && c.nest == []
       case _ => false
  }

  ghost predicate RwInv(s: RwShared) {
    && (forall o {:trigger ReaderOk(s, o)} :: s.writer != Some(o) ==> ReaderOk(s, o))
    && (s.writer.None? ==> s.holder == NOBODY && s.writeDepth == 0 && s.readDepth == 0)
    && (s.writer.Some? ==> s.readers == multiset{} && WriterOk(s, s.writer.value))
  }

  ghost predicate IsRun(s: RwShared, run: seq<Step>)
    decreases |run|
  {
    run == [] || (Can(s, run[0]) && IsRun(Do(s, run[0]), run[1..]))
  }

  ghost function After(s: RwShared, run: seq<Step>): RwShared
    requires IsRun(s, run)
    decreases |run|
  {
    if run == [] then s else After(Do(s, run[0]), run[1..])
  }

  /** The others notice nothing. */
  lemma OthersOk(s: RwShared, t: RwShared, o: Owner)
    requires RwInv(s)
    requires forall p :: p != o ==> C(t, p) == C(s, p) && t.readers[p] == s.readers[p]
    requires s.writer == t.writer || s.writer == Some(o) || (s.writer.None? && t.writer == Some(o))
    requires t.writer != Some(o) ==> ReaderOk(t, o)
    ensures forall p {:trigger ReaderOk(t, p)} :: t.writer != Some(p) ==> ReaderOk(t, p)
  {
    forall p | t.writer != Some(p) ensures ReaderOk(t, p) {
      if p != o { assert ReaderOk(s, p); }
    }
  }

  lemma EnterWriter(s: RwShared, a: Step)
    requires Can(s, a) && s.writer == Some(a.o) && WriterOk(s, a.o) && (a.EnterRead? || a.EnterWrite?)
    ensures WriterOk(Do(s, a), a.o)
  {
    var n := C(s, a.o).nest;
    var m := if a.EnterRead? then Read else Write;
    CountsAddUp(n);
    CountPush(n, m, Read);
    CountPush(n, m, Write);
  }

  lemma LeaveWriter(s: RwShared, a: Step)
    requires Can(s, a) && s.writer == Some(a.o) && WriterOk(s, a.o) && (a.LeaveRead? || a.LeaveWrite?)
    ensures WriterOk(Do(s, a), a.o) && Do(s, a).readers == s.readers
  {
    var n := C(s, a.o).nest;
    var rest := n[..|n| - 1];
    CountsAddUp(n);
    CountsAddUp(rest);
    assert rest != [] ==> rest[0] == n[0];
  }

  lemma WriterKeeps(s: RwShared, a: Step)
    requires Can(s, a) && s.writer == Some(a.o) && WriterOk(s, a.o) && s.readers == multiset{}
    ensures var t := Do(s, a);
            && t.readers == multiset{}
            && if a.Free? then t.writer.None? && t.holder == NOBODY && t.writeDepth == 0 && t.readDepth == 0 && ReaderOk(t, a.o)
               else t.writer == Some(a.o) && WriterOk(t, a.o)
  {
    if a.EnterRead? || a.EnterWrite? {
      EnterWriter(s, a);
    } else if a.LeaveRead? || a.LeaveWrite? {
      LeaveWriter(s, a);
    } else if a.Install? {
      CountPush([], Write, Read);
      CountPush([], Write, Write);
    }
  }

  lemma OnlyOwnChain(s: RwShared, a: Step, p: Owner)
    requires Can(s, a) && p != a.o
    ensures C(Do(s, a), p) == C(s, p) && Do(s, a).readers[p] == s.readers[p]
  {
    if a.EnterRead? || a.EnterWrite? || a.LeaveWrite? || a.TakeWrite? {
    } else if a.TakeRead? || a.LeaveRead? {
      ReadsOwnChain(s, a, p);
    }
  }

  lemma ReadsOwnChain(s: RwShared, a: Step, p: Owner)
    requires Can(s, a) && p != a.o && (a.TakeRead? || a.LeaveRead?)
    ensures C(Do(s, a), p) == C(s, p) && Do(s, a).readers[p] == s.readers[p]
  {}

  lemma WriterStep(s: RwShared, a: Step)
    requires RwInv(s) && Can(s, a) && s.writer == Some(a.o)
    ensures RwInv(Do(s, a))
  {
    hide WriterOk, ReaderOk, Do, Can;
    var t := Do(s, a);
    WriterKeeps(s, a);
    forall p | p != a.o ensures C(t, p) == C(s, p) && t.readers[p] == s.readers[p] { OnlyOwnChain(s, a, p); }
    OthersOk(s, t, a.o);
  }

  lemma ReaderKeeps(s: RwShared, a: Step)
    requires Can(s, a) && s.writer != Some(a.o) && ReaderOk(s, a.o) && !Same(a.o, s.holder)
    requires s.writer.None? ==> s.holder == NOBODY && s.writeDepth == 0 && s.readDepth == 0
    requires s.writer.Some? ==> s.readers == multiset{}
    ensures var t := Do(s, a);
            && t.holder == s.holder && t.writeDepth == s.writeDepth && t.readDepth == s.readDepth
            && (s.writer.Some? ==> t.readers == s.readers)
            && if a.TakeWrite? then s.writer.None? && t.writer == Some(a.o) && t.readers == multiset{} && WriterOk(t, a.o)
               else t.writer == s.writer && ReaderOk(t, a.o)
  {
    var n := C(s, a.o).nest;
    assert Write !in n;
    if n != [] { assert n[|n| - 1] == Read; }
  }

  lemma ReaderStep(s: RwShared, a: Step)
    requires RwInv(s) && Can(s, a) && s.writer != Some(a.o)
    ensures RwInv(Do(s, a))
  {
    hide ReaderOk, Do, Can;
    var t := Do(s, a);
    assert ReaderOk(s, a.o);
    ReaderKeeps(s, a);
    forall p | p != a.o ensures C(t, p) == C(s, p) && t.readers[p] == s.readers[p] { OnlyOwnChain(s, a, p); }
    OthersOk(s, t, a.o);
  }

  lemma {:induction false} RwRun(s: RwShared, run: seq<Step>)
    requires RwInv(s) && IsRun(s, run)
    ensures RwInv(After(s, run))
    decreases |run|
  {
    hide RwInv, Can, Do;
    if run != [] {
      if s.writer == Some(run[0].o) {
        WriterStep(s, run[0]);
      } else {
        ReaderStep(s, run[0]);
      }
      RwRun(Do(s, run[0]), run[1..]);
    }
  }

  /** In every interleaving of nested use: while a chain has the lock for writing no other
      chain has it at all; the depths are that chain's outstanding reads and writes; and
      a chain that only reads takes the inner lock once for each read. */
  lemma WritersExclude(run: seq<Step>, o: Owner, p: Owner)
    requires IsRun(Unused, run)
    ensures var s := After(Unused, run);
            && (Write in C(s, o).nest && C(s, p).nest != [] ==> o == p)
            && (Write in C(s, o).nest ==>
                  s.holder == o && s.writeDepth == Count(C(s, o).nest, Write) && s.readDepth == Count(C(s, o).nest, Read))
            && (Write !in C(s, o).nest ==> s.readers[o] == |C(s, o).nest|)
  {
    RwRun(Unused, run);
    var s := After(Unused, run);
    assert s.writer != Some(o) ==> ReaderOk(s, o);
    assert s.writer != Some(p) ==> ReaderOk(s, p);
    if Write !in C(s, o).nest && s.writer == Some(o) {
      assert C(s, o).nest == [];
    }
  }

  /** ... and the inner lock is given back exactly by the outermost release. */
  lemma OutermostReleases(run: seq<Step>, o: Owner)
    requires IsRun(Unused, run) && Can(After(Unused, run), LeaveWrite(o))
    ensures var s := After(Unused, run);
            C(Do(s, LeaveWrite(o)), o).pc.Clearing? <==> |C(s, o).nest| == 1
  {
    hide RwInv, Can, IsRun, After, Do;
    UnusedInv();
    RwRun(Unused, run);
    Outermost(After(Unused, run), o);
  }

  /** When every chain has given back what it took, the lock is as new. */
  lemma GivenBackIsFree(run: seq<Step>)
    requires IsRun(Unused, run) && forall o :: C(After(Unused, run), o) == Outside
    ensures var s := After(Unused, run);
            s.readers == multiset{} && s.writer.None? && s.holder == NOBODY && s.writeDepth == 0 && s.readDepth == 0
  {
    RwRun(Unused, run);
    var s := After(Unused, run);
    forall o ensures s.writer != Some(o) && s.readers[o] == 0 {
      assert C(s, o) == Outside;
      assert ReaderOk(s, o);
    }
  }

  lemma UnusedInv()
    ensures RwInv(Unused)
  {}

  lemma Outermost(s: RwShared, o: Owner)
    requires RwInv(s) && Can(s, LeaveWrite(o))
    ensures C(Do(s, LeaveWrite(o)), o).pc.Clearing? <==> |C(s, o).nest| == 1
  {
    var n := C(s, o).nest;
    assert s.writer != Some(o) ==> ReaderOk(s, o);
    CountsAddUp(n);
    CountsAddUp(n[..|n| - 1]);
  }

  // ----- the class and the interleaved code -----

  function RwOf(s: RwShared): Rw { Rw(|s.readers|, s.writer.Some?, s.holder, s.writeDepth, s.readDepth) }

  /** Run without interruption from any reachable state, the steps that take the lock are
      ReadLock and WriteLock of the class ... */
  lemma LockStepsAreMethods(run: seq<Step>, o: Owner)
    requires IsRun(Unused, run)
    ensures var s := After(Unused, run);
            && (Can(s, EnterRead(o)) && MayReadLock(RwOf(s), o) ==>
                  var steps := if Same(o, s.holder) then [EnterRead(o)] else [EnterRead(o), TakeRead(o)];
                  IsRun(s, steps) && RwOf(After(s, steps)) == ReadLocked(RwOf(s), o))
            && (Can(s, EnterWrite(o)) && MayWriteLock(RwOf(s), o) ==>
                  var steps := if Same(o, s.holder) then [EnterWrite(o)] else [EnterWrite(o), TakeWrite(o), Install(o)];
                  IsRun(s, steps) && RwOf(After(s, steps)) == WriteLocked(RwOf(s), o))
  {
    var s := After(Unused, run);
    if Can(s, EnterRead(o)) && MayReadLock(RwOf(s), o) {
      if Same(o, s.holder) {
        OneStep(s, EnterRead(o));
      } else {
        TwoSteps(s, EnterRead(o), TakeRead(o));
      }
    }
    if Can(s, EnterWrite(o)) && MayWriteLock(RwOf(s), o) {
      if Same(o, s.holder) {
        OneStep(s, EnterWrite(o));
      } else {
        ThreeSteps(s, EnterWrite(o), TakeWrite(o), Install(o));
      }
    }
  }

  /** ... and those that release it are ReadUnlock, whose caller has always read, and
      WriteUnlock. */
  lemma UnlockStepsAreMethods(run: seq<Step>, o: Owner)
    requires IsRun(Unused, run)
    ensures var s := After(Unused, run);
            && (Can(s, LeaveRead(o)) ==>
                  && IsRun(s, [LeaveRead(o)]) && CanReadUnlock(RwOf(s), o)
                  && RwOf(After(s, [LeaveRead(o)])) == ReadUnlocked(RwOf(s), o))
            && (Can(s, LeaveWrite(o)) ==>
                  var last := Down(s.writeDepth) == 0 && s.readDepth == 0;
                  var steps := if last then [LeaveWrite(o), Clear(o), Free(o)] else [LeaveWrite(o)];
                  IsRun(s, steps) && RwOf(After(s, steps)) == WriteUnlocked(RwOf(s)))
  {
    var s := After(Unused, run);
    if Can(s, LeaveRead(o)) {
      RwRun(Unused, run);
      ReaderHasRead(s, o);
      OneStep(s, LeaveRead(o));
    }
    if Can(s, LeaveWrite(o)) {
      if Down(s.writeDepth) == 0 && s.readDepth == 0 {
        ThreeSteps(s, LeaveWrite(o), Clear(o), Free(o));
      } else {
        OneStep(s, LeaveWrite(o));
      }
    }
  }

  lemma ReaderHasRead(s: RwShared, o: Owner)
    requires RwInv(s) && Can(s, LeaveRead(o))
    ensures (Same(o, s.holder) && s.readDepth > 0) || s.readers[o] > 0
  {
    var n := C(s, o).nest;
    assert s.writer != Some(o) ==> ReaderOk(s, o);
    CountsAddUp(n);
    CountsAddUp(n[..|n| - 1]);
  }

  lemma OneStep(s: RwShared, a: Step)
    requires Can(s, a)
    ensures IsRun(s, [a]) && After(s, [a]) == Do(s, a)
  {
    assert [a][1..] == [];
  }

  lemma TwoSteps(s: RwShared, a: Step, b: Step)
    requires Can(s, a) && Can(Do(s, a), b)
    ensures IsRun(s, [a, b]) && After(s, [a, b]) == Do(Do(s, a), b)
  {
    assert [a, b][1..] == [b];
    OneStep(Do(s, a), b);
  }

  lemma ThreeSteps(s: RwShared, a: Step, b: Step, c: Step)
    requires Can(s, a) && Can(Do(s, a), b) && Can(Do(Do(s, a), b), c)
    ensures IsRun(s, [a, b, c]) && After(s, [a, b, c]) == Do(Do(Do(s, a), b), c)
  {
    assert [a, b, c][1..] == [b, c];
    TwoSteps(Do(s, a), b, c);
  }

  // ----- releases out of order -----

  /** The chain `cur` releases its reads and writes in the given order. */
  ghost predicate CanRelease(m: Rw, cur: Owner, releases: seq<Mode>)
    decreases |releases|
  {
    releases == [] ||
    if releases[0] == Read then CanReadUnlock(m, cur) && CanRelease(ReadUnlocked(m, cur), cur, releases[1..])
    else CanRelease(WriteUnlocked(m), cur, releases[1..])
  }

  ghost function ReleaseAll(m: Rw, cur: Owner, releases: seq<Mode>): Rw
    requires CanRelease(m, cur, releases)
    decreases |releases|
  {
    if releases == [] then m
    else if releases[0] == Read then ReleaseAll(ReadUnlocked(m, cur), cur, releases[1..])
    else ReleaseAll(WriteUnlocked(m), cur, releases[1..])
  }

  lemma {:induction false} CountTail(s: seq<Mode>, m: Mode)
    requires s != []
    ensures Count(s, m) == Count(s[1..], m) + if s[0] == m then 1 else 0
  {
    if |s| > 1 {
      var front := s[..|s| - 1];
      assert s[1..][..|s| - 2] == front[1..];
      CountTail(front, m);
    }
  }

  /** A chain that wrote, and releases everything it holds in any order, frees the lock
      exactly when its last release is a write release. */
  lemma {:induction false} LastReleaseDecides(m: Rw, cur: Owner, releases: seq<Mode>)
    requires Same(cur, m.holder) && m.writing && releases != []
    requires m.writeDepth == Count(releases, Write) && m.readDepth == Count(releases, Read)
    ensures CanRelease(m, cur, releases)
    ensures ReleaseAll(m, cur, releases).writing <==> releases[|releases| - 1] == Read
    decreases |releases|
  {
    CountTail(releases, Read);
    CountTail(releases, Write);
    var rest := releases[1..];
    var next := if releases[0] == Read then ReadUnlocked(m, cur) else WriteUnlocked(m);
    CountsAddUp(rest);
    if rest != [] {
      LastReleaseDecides(next, cur, rest);
    } else {
      assert Count(rest, Read) == 0 && Count(rest, Write) == 0;
    }
  }

  /** In every order that ends in a read the chain has released all it held, and the lock
      is lost to everybody else: holder_ stays, both depths are zero, and no other chain
      may take it, for reading or for writing, until the same chain writes once more. */
  lemma {:induction false} LostLock(m: Rw, cur: Owner, releases: seq<Mode>)
    requires Same(cur, m.holder) && m.writing && releases != [] && releases[|releases| - 1] == Read
    requires m.writeDepth == Count(releases, Write) && m.readDepth == Count(releases, Read)
    ensures CanRelease(m, cur, releases)
    ensures var r := ReleaseAll(m, cur, releases);
            && r.writing && r.holder == cur && r.writeDepth == 0 && r.readDepth == 0 && r.readers == m.readers
            && (forall other :: other != cur ==> !MayReadLock(r, other) && !MayWriteLock(r, other))
            && MayWriteLock(r, cur) && !WriteUnlocked(WriteLocked(r, cur)).writing
    decreases |releases|
  {
    CountTail(releases, Read);
    CountTail(releases, Write);
    var rest := releases[1..];
    var next := if releases[0] == Read then ReadUnlocked(m, cur) else WriteUnlocked(m);
    CountsAddUp(rest);
    if rest != [] {
      LostLock(next, cur, rest);
    } else {
      assert Count(rest, Read) == 0 && Count(rest, Write) == 0;
    }
  }
}
