/** Who waits for whom: parents are older than their subtasks, so that the subtasks awaited
    one after another form a finite chain, whose last member can move. */
module Lineage {
  import opened Sums
  import opened Scheduler
  import opened Conservation
  import opened Completion
  import opened CompletionRuns
  import opened Driving
  import opened PathFrames

  /** `age` numbers the tasks below `n` so that parents come before their subtasks; and no
      task has the address of its parent. */
  ghost predicate Aged(s: State, age: map<Tid, nat>, n: nat) {
    && (forall t :: t in s.tasks ==> t in age && age[t] < n && Older(s, s.tasks[t].parent, age, age[t]))
    && (forall t :: t in s.tasks ==> s.tasks[t].parentAddr != Some(s.tasks[t].addr))
  }

  predicate Older(s: State, parent: Option<Tid>, age: map<Tid, nat>, limit: nat) {
    parent.Some? ==> parent.value in s.tasks && parent.value in age && age[parent.value] < limit
  }

  /** Parents never change, and a new task's parent is known. */
  ghost predicate KeepsParents(s: State, r: State) {
    && (forall t :: t in s.tasks ==> t in r.tasks && SameStatic(s.tasks[t], r.tasks[t]))
    && (forall t :: t in r.tasks && t !in s.tasks ==> r.tasks[t].parent.Some? ==> r.tasks[t].parent.value in s.tasks)
  }

  lemma StepParents(s: State, a: Action)
    requires Enabled(s, a)
    ensures KeepsParents(s, Next(s, a))
    ensures forall t :: t in Next(s, a).tasks && t !in s.tasks ==> (a.Submit? || a.Spawn?) && t == a.t
  {
    hide Enabled, Next;
    if Handles(a) {
      ActorMoves(s, a);
    } else if a.PopEvent? {
      EventRuns(s, a.w, a.found);
      PopParents(s, a.w, a.found);
    } else if a.Submit? || a.Spawn? {
      NewParents(s, a);
    } else {
      OtherParents(s, a);
    }
  }

  lemma NewParents(s: State, a: Action)
    requires Enabled(s, a) && (a.Submit? || a.Spawn?)
    ensures KeepsParents(s, Next(s, a)) && Next(s, a).tasks.Keys == s.tasks.Keys + {a.t}
  {
    if a.Spawn? { assert Held(s, a.w) in s.tasks; }
  }

  lemma OtherParents(s: State, a: Action)
    requires Enabled(s, a) && (a.Await? || a.Free? || a.Plug?)
    ensures KeepsParents(s, Next(s, a)) && Next(s, a).tasks.Keys == s.tasks.Keys
  {
    hide KeepsParents;
    match a
    case Await(w, c) =>
      var t := if s.tasks[c].complete then c else Held(s, w);
      OneRecord(s, Next(s, a), t);
    case Free(t) => OneRecord(s, Next(s, a), t);
    case Plug(_) => SameRecords(s, Next(s, a));
  }

  lemma OneRecord(s: State, r: State, t: Tid)
    requires t in s.tasks && t in r.tasks && r.tasks == s.tasks[t := r.tasks[t]] && SameStatic(s.tasks[t], r.tasks[t])
    ensures KeepsParents(s, r) && r.tasks.Keys == s.tasks.Keys
  {}

  lemma SameRecords(s: State, r: State)
    requires r.tasks == s.tasks
    ensures KeepsParents(s, r)
  {}

  lemma PopParents(s: State, w: Wid, found: Option<Cid>)
    requires CanPop(s, w)
    ensures var r := DoPopEvent(s, w, found); r.tasks.Keys == s.tasks.Keys && KeepsParents(s, r)
  {
    hide DoPopEvent;
    if g :| PointsTo(s, E(s, w)[0], g) && Resumable(s, g, found) {
      PopResumes(s, w, g, found);
    } else {
      PopNothing(s, w, found);
    }
  }

  /** After every run the tasks can be numbered like that. */
  lemma {:induction false} RunAges(s: State, run: seq<Action>, age: map<Tid, nat>, n: nat) returns (age': map<Tid, nat>, n': nat)
    requires Inv(s) && IsRun(s, run) && Aged(s, age, n)
    ensures Aged(After(s, run), age', n')
    decreases |run|
  {
    hide Aged, Inv, Enabled, Disciplined, Next;
    if run == [] {
      age', n' := age, n;
    } else {
      StepInv(s, run[0]);
      age', n' := StepAges(s, run[0], age, n);
      age', n' := RunAges(Next(s, run[0]), run[1..], age', n');
    }
  }

  lemma InitAged()
    ensures Aged(Init, map[], 0)
  {}

  lemma StepAges(s: State, a: Action, age: map<Tid, nat>, n: nat) returns (age': map<Tid, nat>, n': nat)
    requires Inv(s) && Enabled(s, a) && Aged(s, age, n)
    ensures Aged(Next(s, a), age', n')
  {
    hide Enabled, Next, Inv;
    StepParents(s, a);
    if a.Submit? || a.Spawn? {
      NewTid(s, a);
      NewAddress(s, a);
      age', n' := age[a.t := n], n + 1;
    } else {
      age', n' := age, n;
    }
  }

  lemma NewTid(s: State, a: Action)
    requires Enabled(s, a) && (a.Submit? || a.Spawn?)
    ensures a.t !in s.tasks
  {}

  lemma NewAddress(s: State, a: Action)
    requires Inv(s) && Enabled(s, a) && (a.Submit? || a.Spawn?)
    ensures var r := Next(s, a); a.t in r.tasks && r.tasks[a.t].parentAddr != Some(r.tasks[a.t].addr)
  {
    if a.Spawn? {
      assert Held(s, a.w) in s.tasks && RecordOk(s.tasks[Held(s, a.w)]);
    }
  }

  // ----- chains in a reachable state -----

  /** Each task of `xs` waits for the next; the last waits for nothing. */
  ghost predicate WaitsAlong(s: State, xs: seq<Tid>) {
    && |xs| >= 1 && (forall i :: 0 <= i < |xs| ==> xs[i] in s.tasks)
    && (forall i :: 0 <= i < |xs| - 1 ==> s.tasks[xs[i]].phase == Waiting(xs[i + 1]))
    && !s.tasks[xs[|xs| - 1]].phase.Waiting?
  }

  ghost predicate Rising(xs: seq<Tid>, age: map<Tid, nat>) {
    && (forall i :: 0 <= i < |xs| ==> xs[i] in age)
    && (forall i, j :: 0 <= i < j < |xs| ==> age[xs[i]] < age[xs[j]])
  }

  lemma {:induction false} FollowWaits(s: State, age: map<Tid, nat>, n: nat, t: Tid) returns (xs: seq<Tid>)
    requires AwaitOk(s) && Aged(s, age, n) && t in s.tasks
    ensures WaitsAlong(s, xs) && Rising(xs, age) && xs[0] == t
    decreases n - age[t]
  {
    if !s.tasks[t].phase.Waiting? {
      xs := [t];
    } else {
      var c := s.tasks[t].phase.child;
      assert Outstanding(s, t, c);
      var rest := FollowWaits(s, age, n, c);
      xs := [t] + rest;
      forall i | 0 <= i < |xs| - 1 ensures s.tasks[xs[i]].phase == Waiting(xs[i + 1]) {
        if i > 0 { assert xs[i] == rest[i - 1] && xs[i + 1] == rest[i]; }
      }
      forall i, j | 0 <= i < j < |xs| ensures age[xs[i]] < age[xs[j]] {
        assert age[rest[0]] <= age[rest[j - 1]];
      }
    }
  }

  /** A suspended task of a reachable state is nowhere else, and lives at its address. */
  lemma WaitingSleeps(s: State, t: Tid)
    requires Inv(s) && t in s.tasks && s.tasks[t].phase.Waiting?
    ensures Asleep(s, t) && t in s.tasks && s.tasks[t].addr in s.heap && s.heap[s.tasks[t].addr] == t
    ensures Outstanding(s, t, s.tasks[t].phase.child)
  {
    SuspendedIsNowhere(s, t);
    assert RecordOk(s.tasks[t]);
  }

  /** An outstanding subtask will tell its parent, which is alive. */
  lemma OutstandingTells(s: State, p: Tid, c: Tid)
    requires Inv(s) && Outstanding(s, p, c) && p != c
    ensures Tells(s, c, p)
  {
    assert RecordOk(s.tasks[c]) && RecordOk(s.tasks[p]);
  }

  /** An unfinished task that is not suspended is one entry of one queue. */
  lemma QueuedSomewhere(s: State, t: Tid) returns (q: Queue, k: nat)
    requires Inv(s) && Unfinished(s, t) && !Suspended(s, t)
    ensures OnlyAt(s, t, q, k) && EntryOk(s, q, t)
  {
    hide RecordsOk, HeapOk, LineageOk, AwaitOk, EventsOk;
    OnePlace(s, t);
    var p :| Occupies(s, t, p) && forall p' :: Occupies(s, t, p') ==> p' == p;
    q, k := p.q, p.index;
    forall r, i | 0 <= i < |Q(s, r)| && Q(s, r)[i] == t ensures r == q && i == k {
      assert Occupies(s, t, InQueue(r, i));
    }
    assert t in Q(s, q);
  }

  /** An outstanding subtask that does not itself wait can be brought to its end, or its
      event is waiting. */
  lemma OutstandingMoves(s: State, p: Tid, c: Tid)
    requires Inv(s) && Outstanding(s, p, c) && !s.tasks[c].phase.Waiting?
    ensures p in s.tasks && Movable(s, c, p)
  {
    hide HeapOk, LineageOk;
    assert RecordOk(s.tasks[c]);
    if s.tasks[c].phase.Ended? {
      assert Pending(s, c);
      var v := QueueOf(s.events, c);
      assert c in E(s, v);
    } else {
      var q, k := QueuedSomewhere(s, c);
      assert Startable(s, c, q);
    }
  }

  /** The chain that hangs from a suspended task is intact, and its last member can move. */
  lemma ChainOf(s: State, age: map<Tid, nat>, n: nat, t: Tid) returns (xs: seq<Tid>)
    requires Inv(s) && Aged(s, age, n) && t in s.tasks
    ensures WaitsAlong(s, xs) && Rising(xs, age) && xs[0] == t && Chain(s, xs)
    ensures |xs| >= 2 ==> Movable(s, xs[|xs| - 1], xs[|xs| - 2])
  {
    hide Conserved, RecordsOk, HeapOk, LineageOk, EventsOk, QueuesOk, Movable, Asleep;
    xs := FollowWaits(s, age, n, t);
    forall i | 0 <= i < |xs| - 1 ensures Asleep(s, xs[i]) && Outstanding(s, xs[i], xs[i + 1]) {
      assert s.tasks[xs[i]].phase == Waiting(xs[i + 1]);
      WaitingSleeps(s, xs[i]);
    }
    forall i | 0 < i < |xs| ensures Tells(s, xs[i], xs[i - 1]) {
      assert Outstanding(s, xs[i - 1], xs[i - 1 + 1]);
      OutstandingTells(s, xs[i - 1], xs[i]);
    }
    if |xs| >= 2 {
      assert Outstanding(s, xs[|xs| - 2], xs[|xs| - 2 + 1]);
      OutstandingMoves(s, xs[|xs| - 2], xs[|xs| - 1]);
    }
  }

  /** After any run, some way of going on resumes a suspended task, on its own container,
      past the subtask it waits for.  On the way other tasks may be lost: see Waking. */
  lemma SleepersCanWake(run: seq<Action>, t: Tid) returns (path: seq<Action>)
    requires IsRun(Init, run) && t in After(Init, run).tasks && After(Init, run).tasks[t].phase.Waiting?
    ensures IsPath(After(Init, run), path) && Roused(After(Init, run), t, Along(After(Init, run), path))
  {
    hide Inv, IsRun, After, Aged, Workable, Chain, Movable, Roused, IsPath, Along;
    var s := After(Init, run);
    InitInv();
    RunInv(Init, run);
    InitAged();
    var age, n := RunAges(Init, run, map[], 0);
    InvWorks(s);
    var xs := ChainOf(s, age, n, t);
    var r := Rouse(s, xs, None);
    path :| Via(s, path, r);
  }
}
