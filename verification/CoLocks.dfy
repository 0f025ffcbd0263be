/** The reentrant coroutine locks: CoMutex and CoRwLock over a plain inner lock.

    The classes are the code.  `Mutex` and `RwLock` below them are the same code cut at
    every access to the inner lock and to holder_, so that a sequence of steps is one
    interleaving of all workers.  A chain of tasks is one owner: its steps happen on one
    worker, one at a time. */
module CoLocks {
  import opened PoolQueries
  import opened LockOwners

  // ----- CoMutex -----

  datatype Mutex = Mutex(locked: bool, holder: Owner, depth: u32)

  /** Whether Lock returns without waiting. */
  predicate Passes(m: Mutex, cur: Owner) { Same(cur, m.holder) || !m.locked }

  function Locked(m: Mutex, cur: Owner): Mutex {
    if Same(cur, m.holder) then m.(depth := Up(m.depth)) else Mutex(true, cur, 1)
  }

  function Unlocked(m: Mutex): Mutex {
    var d := Down(m.depth);
    if d == 0 then Mutex(false, NOBODY, 0) else m.(depth := d)
  }

  class CoMutex {
    var locked: bool      // the inner lock
    var holder: Owner
    var depth: u32

    function Value(): Mutex
      reads this
    {
      Mutex(locked, holder, depth)
    }

    constructor ()
      ensures Value() == Mutex(false, NOBODY, 0)
    {
      locked, holder, depth := false, NOBODY, 0;
    }

    method Lock(cur: Owner)
      requires Passes(Value(), cur)
      modifies this
      ensures Value() == Locked(old(Value()), cur)
    {
      if Same(cur, holder) {
        depth := Up(depth);
        return;
      }
      locked := true;
      holder := cur;
      depth := 1;
    }

    /** `granted` is what the inner TryLock answers; it may refuse even a free lock. */
    method TryLock(cur: Owner, granted: bool) returns (ok: bool)
      requires granted ==> !locked
      modifies this
      ensures ok == (Same(cur, old(holder)) || granted)
      ensures Value() == if ok then Locked(old(Value()), cur) else old(Value())
    {
      if Same(cur, holder) {
        depth := Up(depth);
        return true;
      }
      if !granted {
        return false;
      }
      locked := true;
      holder := cur;
      depth := 1;
      ok := true;
    }

    method Unlock()
      modifies this
      ensures Value() == Unlocked(old(Value()))
    {
      depth := Down(depth);
      if depth == 0 {
        holder := NOBODY;
        locked := false;
      }
    }
  }

  // ----- CoMutex, interleaved -----

  datatype Pc = Idle | Wanting | Got | Clearing | Freeing

  /** One chain: where it is, and how many of its Locks it has not unlocked. */
  datatype Chain = Chain(pc: Pc, count: nat)

  const Outside := Chain(Idle, 0)

  /** `inner` says who took the inner lock. */
  datatype Shared = Shared(inner: Option<Owner>, holder: Owner, depth: u32, chains: map<Owner, Chain>)

  const Unused := Shared(None, NOBODY, 0, map[])

  datatype Step =
    | Enter(o: Owner)     // Lock or TryLock: compare with holder_
    | Take(o: Owner)      // the inner lock is free: take it
    | Fail(o: Owner)      // the inner TryLock refuses
    | Install(o: Owner)   // holder_ = cur, depth_ = 1
    | Leave(o: Owner)     // Unlock: --depth_
    | Clear(o: Owner)     // holder_.Clear()
    | Free(o: Owner)      // inner unlock

  function C(s: Shared, o: Owner): Chain { if o in s.chains then s.chains[o] else Outside }

  predicate Can(s: Shared, a: Step) {
    a.o != NOBODY &&
    match a
    case Enter(o) => C(s, o).pc.Idle? && C(s, o).count < U32 - 1
    case Take(o) => C(s, o).pc.Wanting? && s.inner.None?
    case Fail(o) => C(s, o).pc.Wanting?
    case Install(o) => C(s, o).pc.Got?
    case Leave(o) => C(s, o).pc.Idle? && C(s, o).count > 0
    case Clear(o) => C(s, o).pc.Clearing?
    case Free(o) => C(s, o).pc.Freeing?
  }

  function Put(s: Shared, o: Owner, pc: Pc, count: nat): Shared { s.(chains := s.chains[o := Chain(pc, count)]) }

  function Do(s: Shared, a: Step): Shared
    requires Can(s, a)
  {
    var n := C(s, a.o).count;
    match a
    case Enter(o) =>
      if Same(o, s.holder) then Put(s, o, Idle, n + 1).(depth := Up(s.depth)) else Put(s, o, Wanting, n)
    case Take(o) => Put(s, o, Got, n).(inner := Some(o))
    case Fail(o) => Put(s, o, Idle, n)
    case Install(o) => Put(s, o, Idle, n + 1).(holder := o, depth := 1)
    case Leave(o) =>
      var d := Down(s.depth);
      Put(s, o, if d == 0 then Clearing else Idle, n - 1).(depth := d)
    case Clear(o) => Put(s, o, Freeing, n).(holder := NOBODY)
    case Free(o) => Put(s, o, Idle, n).(inner := None)
  }

  ghost predicate MutexInv(s: Shared) {
    && (forall o :: s.inner != Some(o) ==> C(s, o).count == 0 && (C(s, o).pc.Idle? || C(s, o).pc.Wanting?))
    && (s.inner.None? ==> s.holder == NOBODY && s.depth == 0)
    && (s.inner.Some? ==>
          var u := s.inner.value;
          var c := C(s, u);
          && u != NOBODY && c.count == s.depth
          && match c.pc
             case Idle => s.holder == u && c.count >= 1
             case Wanting => false
             case Got => s.holder == NOBODY && c.count == 0
             case Clearing => s.holder == u && c.count == 0
             case Freeing => s.holder == NOBODY && c.count == 0)
  }

  ghost predicate IsRun(s: Shared, run: seq<Step>)
    decreases |run|
  {
    run == [] || (Can(s, run[0]) && IsRun(Do(s, run[0]), run[1..]))
  }

  ghost function After(s: Shared, run: seq<Step>): Shared
    requires IsRun(s, run)
    decreases |run|
  {
    if run == [] then s else After(Do(s, run[0]), run[1..])
  }

  lemma MutexStep(s: Shared, a: Step)
    requires MutexInv(s) && Can(s, a)
    ensures MutexInv(Do(s, a))
  {
    var t := Do(s, a);
    assert forall o :: o != a.o ==> C(t, o) == C(s, o);
  }

  lemma {:induction false} MutexRun(s: Shared, run: seq<Step>)
    requires MutexInv(s) && IsRun(s, run)
    ensures MutexInv(After(s, run))
    decreases |run|
  {
    if run != [] {
      MutexStep(s, run[0]);
      MutexRun(Do(s, run[0]), run[1..]);
    }
  }

  /** In every interleaving: two chains never both hold the mutex, depth_ is the number of
      Locks the holding chain has not unlocked, and the inner lock is free exactly when
      no chain holds the mutex or is just taking or releasing it. */
  lemma MutexExcludes(run: seq<Step>, o: Owner, p: Owner)
    requires IsRun(Unused, run)
    ensures var s := After(Unused, run);
            && (C(s, o).count > 0 && C(s, p).count > 0 ==> o == p)
            && (C(s, o).count > 0 ==> s.holder == o && s.depth == C(s, o).count)
            && (s.inner == Some(o) <==> C(s, o).count > 0 || C(s, o).pc.Got? || C(s, o).pc.Clearing? || C(s, o).pc.Freeing?)
  {
    MutexRun(Unused, run);
  }

  /** A chain that holds the mutex re-enters without waiting, and only its last Unlock
      starts the release. */
  lemma MutexReenters(run: seq<Step>, o: Owner)
    requires IsRun(Unused, run)
    requires C(After(Unused, run), o).count > 0
    ensures var s := After(Unused, run);
            && (Can(s, Enter(o)) ==> C(Do(s, Enter(o)), o) == Chain(Idle, C(s, o).count + 1))
            && (Can(s, Leave(o)) ==> (C(Do(s, Leave(o)), o).pc.Clearing? <==> C(s, o).count == 1))
  {
    MutexRun(Unused, run);
  }

  function MutexOf(s: Shared): Mutex { Mutex(s.inner.Some?, s.holder, s.depth) }

  /** Run without interruption, the steps are the methods of the class. */
  lemma StepsAreMethods(s: Shared, o: Owner)
    requires o != NOBODY
    ensures Can(s, Enter(o)) && Passes(MutexOf(s), o) ==>
            var run := if Same(o, s.holder) then [Enter(o)] else [Enter(o), Take(o), Install(o)];
            IsRun(s, run) && MutexOf(After(s, run)) == Locked(MutexOf(s), o)
    ensures Can(s, Leave(o)) ==>
            var run := if Down(s.depth) == 0 then [Leave(o), Clear(o), Free(o)] else [Leave(o)];
            IsRun(s, run) && MutexOf(After(s, run)) == Unlocked(MutexOf(s))
  {
    if Can(s, Enter(o)) && Passes(MutexOf(s), o) {
      if Same(o, s.holder) {
        OneStep(s, Enter(o));
      } else {
        ThreeSteps(s, Enter(o), Take(o), Install(o));
      }
    }
    if Can(s, Leave(o)) {
      if Down(s.depth) == 0 {
        ThreeSteps(s, Leave(o), Clear(o), Free(o));
      } else {
        OneStep(s, Leave(o));
      }
    }
  }

  lemma OneStep(s: Shared, a: Step)
    requires Can(s, a)
    ensures IsRun(s, [a]) && After(s, [a]) == Do(s, a)
  {
    assert [a][1..] == [];
  }

  lemma ThreeSteps(s: Shared, a: Step, b: Step, c: Step)
    requires Can(s, a) && Can(Do(s, a), b) && Can(Do(Do(s, a), b), c)
    ensures IsRun(s, [a, b, c]) && After(s, [a, b, c]) == Do(Do(Do(s, a), b), c)
  {
    assert [a, b, c][1..] == [b, c] && [b, c][1..] == [c];
    OneStep(Do(Do(s, a), b), c);
    assert After(Do(s, a), [b, c]) == After(Do(Do(s, a), b), [c]);
  }
}
