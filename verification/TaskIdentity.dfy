/** Task ids and the lock owner ids drawn from them: a subtask copies its parent's id, so
    that a whole spawn chain is one owner on each worker. */
module TaskIdentity {
  import opened PoolQueries
  import opened LockOwners
  import CoLocks

  datatype TaskId = TaskId(pid: u32, tid: u32, major: u32, replica: u32, unique: u32, node: nat, netKey: nat)

  /** One life of a thread: its counter is thread-local, so when the system gives the ids of
      a finished thread to another, that one counts from zero again. */
  datatype Thread = Thread(pid: u32, tid: u32, node: nat, life: nat)

  /** What a task id tells of the thread that made it. */
  function Named(t: Thread): (u32, u32, nat) { (t.pid, t.tid, t.node) }

  /** A task's id from the next counter value of the creating thread and the task that
      thread is running, if any. */
  function NextId(n: u32, thread: Thread, current: Option<TaskId>): TaskId {
    match current
    case Some(id) => id.(unique := n)
    case None => TaskId(thread.pid, thread.tid, n, 0, n, thread.node, 0)
  }

  class TaskCounter {
    var counter: u32

    constructor ()
      ensures counter == 0
    {
      counter := 0;
    }

    method GetNext() returns (n: u32)
      modifies this
      ensures n == counter == Up(old(counter))
    {
      counter := (counter + 1) % U32;
      n := counter;
    }
  }

  method CreateTaskId(counter: TaskCounter, thread: Thread, isRuntime: bool, current: Option<TaskId>) returns (id: TaskId)
    modifies counter
    ensures counter.counter == Up(old(counter.counter))
    ensures id == NextId(counter.counter, thread, if isRuntime then current else None)
  {
    if isRuntime && current.Some? {
      id := current.value;
      var unique := counter.GetNext();
      id := id.(unique := unique);
      return;
    }
    var major := counter.GetNext();
    id := TaskId(thread.pid, thread.tid, major, 0, major, thread.node, 0);
  }

  /** GetCurrentLockOwnerId: null off the workers. */
  function LockOwner(worker: Option<u32>, current: Option<TaskId>): Owner {
    if worker.None? || current.None? then NOBODY
    else
      var id := current.value;
      Owner(worker.value, id.pid, id.tid, id.major, id.node)
  }

  /** Off the workers, and between tasks, nobody is an owner: a lock held by such a caller is
      not re-entered, not even by itself. */
  lemma OffWorkersNobodyOwns(worker: Option<u32>, current: Option<TaskId>, other: Owner)
    requires worker.None? || current.None?
    ensures !Same(LockOwner(worker, current), other) && !Same(other, LockOwner(worker, current))
  {}

  // ----- creations of a whole system -----

  /** Task `i` was created by `thread` while running task `parent`. */
  datatype Creation = Creation(thread: Thread, parent: Option<nat>)

  datatype System = System(ids: seq<TaskId>, roots: seq<nat>, counters: map<Thread, u32>)

  predicate Possible(cs: seq<Creation>) {
    forall i :: 0 <= i < |cs| ==> cs[i].thread.pid > 0 && (cs[i].parent.Some? ==> cs[i].parent.value < i)
  }

  function Run(cs: seq<Creation>): (s: System)
    requires Possible(cs)
    ensures |s.ids| == |s.roots| == |cs|
    decreases |cs|
  {
    if cs == [] then System([], [], map[])
    else
      var k := |cs| - 1;
      var s := Run(cs[..k]);
      var thread, parent := cs[k].thread, cs[k].parent;
      var n := Up(if thread in s.counters then s.counters[thread] else 0);
      System(
        s.ids + [NextId(n, thread, if parent.Some? then Some(s.ids[parent.value]) else None)],
        s.roots + [if parent.Some? then s.roots[parent.value] else k],
        s.counters[thread := n])
  }

  /** Ids drawn by `thread` among the first `i` creations. */
  function Drawn(cs: seq<Creation>, i: nat, thread: Thread): nat
    requires i <= |cs|
  {
    if i == 0 then 0 else Drawn(cs, i - 1, thread) + if cs[i - 1].thread == thread then 1 else 0
  }

  function Identity(id: TaskId): (u32, u32, u32, nat) { (id.pid, id.tid, id.major, id.node) }

  /** The identity a root task created as number `r` has. */
  function RootIdentity(cs: seq<Creation>, r: nat): (u32, u32, u32, nat)
    requires r < |cs|
  {
    var t := cs[r].thread;
    (t.pid, t.tid, Drawn(cs, r + 1, t) % U32, t.node)
  }

  predicate ChainOk(cs: seq<Creation>, s: System, i: nat)
    requires i < |cs| == |s.ids| == |s.roots|
  {
    && s.roots[i] <= i && cs[s.roots[i]].parent.None?
    && Identity(s.ids[i]) == RootIdentity(cs, s.roots[i])
  }

  lemma {:induction false} DrawnPrefix(cs: seq<Creation>, k: nat, i: nat, thread: Thread)
    requires i <= k <= |cs|
    ensures Drawn(cs[..k], i, thread) == Drawn(cs, i, thread)
  {
    if i > 0 {
      DrawnPrefix(cs, k, i - 1, thread);
    }
  }

  lemma {:induction false} CountersCount(cs: seq<Creation>, t: Thread)
    requires Possible(cs)
    ensures (if t in Run(cs).counters then Run(cs).counters[t] else 0) == Drawn(cs, |cs|, t) % U32
    decreases |cs|
  {
    if cs != [] {
      hide Run, Up;
      var k := |cs| - 1;
      CountersCount(cs[..k], t);
      DrawnPrefix(cs, k, k, t);
      LastDraw(cs, t);
      UpRemainder(Drawn(cs, k, t));
    }
  }

  /** What the last creation does to the counter of `t`. */
  lemma LastDraw(cs: seq<Creation>, t: Thread)
    requires Possible(cs) && cs != []
    ensures var before, after := Run(cs[..|cs| - 1]).counters, Run(cs).counters;
            var n := if t in before then before[t] else 0;
            (if t in after then after[t] else 0) == if cs[|cs| - 1].thread == t then Up(n) else n
  {}

  lemma UpRemainder(a: nat)
    ensures Up(a % U32) == (a + 1) % U32
  {}

  /** Every task carries the identity of the root of its spawn chain. */
  lemma {:induction false} ChainsShareIdentity(cs: seq<Creation>)
    requires Possible(cs)
    ensures forall i :: 0 <= i < |cs| ==> ChainOk(cs, Run(cs), i)
    decreases |cs|
  {
    if cs != [] {
      var k := |cs| - 1;
      ChainsShareIdentity(cs[..k]);
      CountersCount(cs, cs[k].thread);
      forall i | 0 <= i < |cs| ensures ChainOk(cs, Run(cs), i) {
        var j := if i < k then i else if cs[k].parent.Some? then cs[k].parent.value else k;
        if j < k {
          assert ChainOk(cs[..k], Run(cs[..k]), j);
          DrawnPrefix(cs, k, Run(cs[..k]).roots[j] + 1, cs[Run(cs[..k]).roots[j]].thread);
        }
      }
    }
  }

  lemma {:induction false} DrawnGrows(cs: seq<Creation>, i: nat, j: nat, thread: Thread)
    requires i <= j <= |cs|
    ensures Drawn(cs, i, thread) <= Drawn(cs, j, thread)
    ensures i < j && cs[j - 1].thread == thread ==> Drawn(cs, i, thread) < Drawn(cs, j, thread)
    decreases j
  {
    if i < j {
      DrawnGrows(cs, i, j - 1, thread);
    }
  }

  /** The ids of two root tasks cannot be told apart: the same thread, or another life under
      the same ids, had drawn the same number of ids, up to whole rounds of the 32-bit
      counter. */
  predicate Collide(cs: seq<Creation>, r: nat, q: nat)
    requires r < |cs| && q < |cs|
  {
    && Named(cs[r].thread) == Named(cs[q].thread)
    && (Drawn(cs, q + 1, cs[q].thread) - Drawn(cs, r + 1, cs[r].thread)) % U32 == 0
  }

  lemma RootIdentitiesIff(cs: seq<Creation>, r: nat, q: nat)
    requires r < |cs| && q < |cs|
    ensures RootIdentity(cs, r) == RootIdentity(cs, q) <==> Collide(cs, r, q)
  {
    SameRemainder(Drawn(cs, q + 1, cs[q].thread), Drawn(cs, r + 1, cs[r].thread));
  }

  /** Two root tasks look alike exactly when they collide like that. */
  lemma {:induction false} RootsCollideIff(cs: seq<Creation>, r: nat, q: nat)
    requires Possible(cs) && r < q < |cs| && cs[r].parent.None? && cs[q].parent.None?
    ensures Identity(Run(cs).ids[r]) == Identity(Run(cs).ids[q]) <==> Collide(cs, r, q)
  {
    ChainsShareIdentity(cs);
    RootOfRoot(cs, r);
    RootOfRoot(cs, q);
    assert ChainOk(cs, Run(cs), r) && ChainOk(cs, Run(cs), q);
    RootIdentitiesIff(cs, r, q);
  }

  lemma SameRemainder(a: nat, b: nat)
    ensures a % U32 == b % U32 <==> (a - b) % U32 == 0
  {
    var x, y := a / U32, b / U32;
    assert a - b == U32 * (x - y) + (a % U32 - b % U32);
  }

  lemma {:induction false} RootOfRoot(cs: seq<Creation>, r: nat)
    requires Possible(cs) && r < |cs| && cs[r].parent.None?
    ensures Run(cs).roots[r] == r
    decreases |cs|
  {
    if r < |cs| - 1 {
      RootOfRoot(cs[..|cs| - 1], r);
    }
  }

  /** Two tasks are one lock owner exactly when they are on one worker and the roots of their
      spawn chains cannot be told apart. */
  lemma {:induction false} OwnersIff(cs: seq<Creation>, i: nat, j: nat, w: u32, v: u32)
    requires Possible(cs) && i < |cs| && j < |cs|
    ensures Run(cs).roots[i] < |cs| && Run(cs).roots[j] < |cs|
    ensures Same(LockOwner(Some(w), Some(Run(cs).ids[i])), LockOwner(Some(v), Some(Run(cs).ids[j])))
            <==> w == v && Collide(cs, Run(cs).roots[i], Run(cs).roots[j])
  {
    ChainsShareIdentity(cs);
    var s := Run(cs);
    assert ChainOk(cs, s, i) && ChainOk(cs, s, j);
    RootIdentitiesIff(cs, s.roots[i], s.roots[j]);
  }

  /** The rest of a task's id: the counter value drawn for it, and what a root starts with. */
  lemma {:induction false} DrawnForIt(cs: seq<Creation>, i: nat)
    requires Possible(cs) && i < |cs|
    ensures var id := Run(cs).ids[i];
            id.unique == Drawn(cs, i + 1, cs[i].thread) % U32 && id.replica == 0 && id.netKey == 0
    decreases |cs|
  {
    var k := |cs| - 1;
    if i < k {
      DrawnForIt(cs[..k], i);
      DrawnPrefix(cs, k, i + 1, cs[i].thread);
    } else {
      CountersCount(cs[..k], cs[k].thread);
      DrawnPrefix(cs, k, k, cs[k].thread);
      UpRemainder(Drawn(cs, k, cs[k].thread));
      if cs[k].parent.Some? { DrawnForIt(cs[..k], cs[k].parent.value); }
    }
  }

  /** Ids are not unique: two tasks have the same one exactly when their roots look alike and
      the threads that made them had made equally many, up to whole rounds of the counter. */
  lemma {:induction false} SameIdIff(cs: seq<Creation>, i: nat, j: nat)
    requires Possible(cs) && i < |cs| && j < |cs|
    ensures Run(cs).roots[i] < |cs| && Run(cs).roots[j] < |cs|
    ensures Run(cs).ids[i] == Run(cs).ids[j] <==>
            && Collide(cs, Run(cs).roots[i], Run(cs).roots[j])
            && (Drawn(cs, j + 1, cs[j].thread) - Drawn(cs, i + 1, cs[i].thread)) % U32 == 0
  {
    ChainsShareIdentity(cs);
    var s := Run(cs);
    assert ChainOk(cs, s, i) && ChainOk(cs, s, j);
    RootIdentitiesIff(cs, s.roots[i], s.roots[j]);
    DrawnForIt(cs, i);
    DrawnForIt(cs, j);
    SameRemainder(Drawn(cs, j + 1, cs[j].thread), Drawn(cs, i + 1, cs[i].thread));
  }

  /** No thread draws 2^32 ids. */
  ghost predicate NoWrap(cs: seq<Creation>) { forall t: Thread :: Drawn(cs, |cs|, t) < U32 }

  /** No two threads that create tasks have the same ids one after the other. */
  ghost predicate NoReuse(cs: seq<Creation>) {
    forall i, j :: 0 <= i < |cs| && 0 <= j < |cs| && Named(cs[i].thread) == Named(cs[j].thread) ==> cs[i].thread == cs[j].thread
  }

  lemma {:induction false} RootsDiffer(cs: seq<Creation>, r: nat, q: nat)
    requires NoWrap(cs) && NoReuse(cs) && r < q < |cs|
    ensures RootIdentity(cs, r) != RootIdentity(cs, q)
  {
    var t := cs[q].thread;
    DrawnGrows(cs, r + 1, q + 1, t);
    DrawnGrows(cs, q + 1, |cs|, t);
    DrawnGrows(cs, r + 1, |cs|, cs[r].thread);
    assert Named(cs[r].thread) == Named(t) ==> cs[r].thread == t;
  }

  /** So as long as no counter wraps and no thread ids are given out again, they are one
      owner exactly when they are on one worker and descend from one root. */
  lemma {:induction false} OwnersAreChains(cs: seq<Creation>, i: nat, j: nat, w: u32, v: u32)
    requires Possible(cs) && NoWrap(cs) && NoReuse(cs) && i < |cs| && j < |cs|
    ensures Same(LockOwner(Some(w), Some(Run(cs).ids[i])), LockOwner(Some(v), Some(Run(cs).ids[j])))
            <==> w == v && Run(cs).roots[i] == Run(cs).roots[j]
  {
    ChainsShareIdentity(cs);
    var s := Run(cs);
    assert ChainOk(cs, s, i) && ChainOk(cs, s, j);
    var r, q := s.roots[i], s.roots[j];
    if r < q {
      RootsDiffer(cs, r, q);
    } else if q < r {
      RootsDiffer(cs, q, r);
    }
  }

  /** With both premises the tasks of one thread differ; but two threads that spawn for one
      chain, each as its first task, give both subtasks the same id. */
  lemma {:induction false} OneThreadDiffers(cs: seq<Creation>, i: nat, j: nat)
    requires Possible(cs) && NoWrap(cs) && i < j < |cs| && cs[i].thread == cs[j].thread
    ensures Run(cs).ids[i] != Run(cs).ids[j]
  {
    var t := cs[i].thread;
    DrawnForIt(cs, i);
    DrawnForIt(cs, j);
    DrawnGrows(cs, i + 1, j + 1, t);
    DrawnGrows(cs, j + 1, |cs|, t);
  }

  lemma {:induction false} TwoThreadsAgree(t: Thread, u: Thread, v: Thread)
    requires t.pid > 0 && u.pid > 0 && v.pid > 0 && t != u && u != v && t != v
    ensures var cs := [Creation(t, None), Creation(u, Some(0)), Creation(v, Some(0))];
            Possible(cs) && NoWrap(cs) && Run(cs).ids[1] == Run(cs).ids[2]
  {
    var cs := [Creation(t, None), Creation(u, Some(0)), Creation(v, Some(0))];
    forall x: Thread ensures Drawn(cs, 3, x) <= 3 {
      assert Drawn(cs, 1, x) <= Drawn(cs, 0, x) + 1 == 1;
      assert Drawn(cs, 2, x) <= Drawn(cs, 1, x) + 1;
    }
    assert cs[0].thread == t && cs[1].thread == u && cs[2].thread == v;
    assert Drawn(cs, 1, u) == Drawn(cs, 0, u) == 0;
    assert Drawn(cs, 2, u) == Drawn(cs, 1, u) + 1;
    assert Drawn(cs, 1, v) == Drawn(cs, 0, v) == 0;
    assert Drawn(cs, 2, v) == Drawn(cs, 1, v);
    assert Drawn(cs, 3, v) == Drawn(cs, 2, v) + 1;
    SameRoots(cs);
    SameIdIff(cs, 1, 2);
  }

  lemma SameRoots(cs: seq<Creation>)
    requires Possible(cs) && |cs| == 3 && cs[0].parent == None && cs[1].parent == Some(0) && cs[2].parent == Some(0)
    ensures Run(cs).roots == [0, 0, 0]
  {
    assert cs[..2][..1] == cs[..1] && cs[..1][..0] == [];
    assert Run(cs[..1]).roots == [0];
    assert Run(cs[..2]).roots == [0, 0];
  }

  /** Without the second premise it fails at once: the first tasks of two threads that have
      had the same ids are one owner, although neither descends from the other. */
  lemma ReusedThreadCollides(t: Thread, life: nat, w: u32)
    requires t.pid > 0 && life != t.life
    ensures var cs := [Creation(t, None), Creation(t.(life := life), None)];
            && Possible(cs) && NoWrap(cs) && Run(cs).roots[0] != Run(cs).roots[1]
            && Same(LockOwner(Some(w), Some(Run(cs).ids[0])), LockOwner(Some(w), Some(Run(cs).ids[1])))
  {
    var u := t.(life := life);
    var cs := [Creation(t, None), Creation(u, None)];
    RootOfRoot(cs, 0);
    RootOfRoot(cs, 1);
    forall x: Thread ensures Drawn(cs, 2, x) <= 2 {
      assert Drawn(cs, 1, x) == Drawn(cs, 0, x) + if cs[0].thread == x then 1 else 0;
    }
    assert Drawn(cs, 1, t) == 1;
    assert Drawn(cs, 1, u) == 0 && Drawn(cs, 2, u) == 1;
    OwnersIff(cs, 0, 1, w, w);
  }

  /** In every interleaving of a CoMutex, two tasks that hold it at once are on one worker and
      the roots of their chains cannot be told apart. */
  lemma {:induction false} HoldersCollide(cs: seq<Creation>, i: nat, j: nat, w: u32, v: u32, run: seq<CoLocks.Step>)
    requires Possible(cs) && i < |cs| && j < |cs| && CoLocks.IsRun(CoLocks.Unused, run)
    requires var s := CoLocks.After(CoLocks.Unused, run);
             && CoLocks.C(s, LockOwner(Some(w), Some(Run(cs).ids[i]))).count > 0
             && CoLocks.C(s, LockOwner(Some(v), Some(Run(cs).ids[j]))).count > 0
    ensures Run(cs).roots[i] < |cs| && Run(cs).roots[j] < |cs|
    ensures w == v && Collide(cs, Run(cs).roots[i], Run(cs).roots[j])
  {
    ChainsShareIdentity(cs);
    assert ChainOk(cs, Run(cs), i);
    CoLocks.MutexExcludes(run, LockOwner(Some(w), Some(Run(cs).ids[i])), LockOwner(Some(v), Some(Run(cs).ids[j])));
    OwnersIff(cs, i, j, w, v);
  }

  /** So with both premises a CoMutex keeps unrelated chains apart: two tasks that hold
      it at once are on one worker and descend from one root. */
  lemma {:induction false} UnrelatedChainsExclude(cs: seq<Creation>, i: nat, j: nat, w: u32, v: u32, run: seq<CoLocks.Step>)
    requires Possible(cs) && NoWrap(cs) && NoReuse(cs) && i < |cs| && j < |cs|
    requires CoLocks.IsRun(CoLocks.Unused, run)
    requires var s := CoLocks.After(CoLocks.Unused, run);
             && CoLocks.C(s, LockOwner(Some(w), Some(Run(cs).ids[i]))).count > 0
             && CoLocks.C(s, LockOwner(Some(v), Some(Run(cs).ids[j]))).count > 0
    ensures w == v && Run(cs).roots[i] == Run(cs).roots[j]
  {
    ChainsShareIdentity(cs);
    assert ChainOk(cs, Run(cs), i);
    CoLocks.MutexExcludes(run, LockOwner(Some(w), Some(Run(cs).ids[i])), LockOwner(Some(v), Some(Run(cs).ids[j])));
    OwnersAreChains(cs, i, j, w, v);
  }
}
