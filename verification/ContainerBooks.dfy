/** What the books say about one container: which steps keep every container's own work
    counter right, and that a plugged container no unfinished task holds stays quiet. */
module ContainerBooks {
  import opened Sums
  import opened Scheduler
  import opened Conservation
  import opened Completion
  import opened CompletionRuns
  import opened Accounting

  /** A task's part of container `c`'s work counter. */
  function WorkAt(x: Task, c: Cid): int { if x.container == Some(c) then WorkOf(x) else 0 }

  function WorksAt(s: State, c: Cid): map<Tid, int> { map t | t in s.tasks :: WorkAt(s.tasks[t], c) }

  /** Container `c`'s counter is the sum of its own tasks' parts. */
  ghost predicate BooksAt(s: State, c: Cid) { Get(s.work, c, 0) == Sum(WorksAt(s, c), Ints) }

  lemma OneUpdateAt(s: State, r: State, t: Tid, y: Task, c: Cid)
    requires t in s.tasks && r.tasks == s.tasks[t := y]
    ensures Sum(WorksAt(r, c), Ints) == Sum(WorksAt(s, c), Ints) - WorkAt(s.tasks[t], c) + WorkAt(y, c)
  {
    assert WorksAt(r, c) == WorksAt(s, c)[t := WorkAt(y, c)];
    IntUpdate(WorksAt(s, c), t, WorkAt(y, c));
  }

  /** Ending one takes it off the counter of the container it ends on. */
  lemma EndKeepsBooks(s: State, w: Wid, again: Queue, c: Cid)
    requires Inv(s) && Enabled(s, Return(w, again)) && BooksAt(s, c)
    ensures BooksAt(Next(s, Return(w, again)), c)
  {
    hide Sum, WorksAt, Conserved, HeapOk, LineageOk, AwaitOk, EventsOk, QueuesOk, ExitOf, EndRecord;
    var t := Held(s, w);
    var x := s.tasks[t];
    assert RecordOk(x);
    var s1 := LetGo(s, w, x);
    var e := ExitOf(s1, x);
    OnlyPeriodicReschedule(s1, x);
    EndRecordFacts(x, e);
    var r := Next(s, Return(w, again));
    assert s1.tasks == s.tasks;
    assert r.tasks == s.tasks[t := EndRecord(x, e, false)];
    OneUpdateAt(s, r, t, EndRecord(x, e, false), c);
  }

  /** Resuming a started task looks its container up again.  The books of all containers
      survive exactly when the look-up finds nothing or the container the task was on. */
  lemma ResumeKeepsBooksIff(s: State, w: Wid, found: Option<Cid>, pred: real)
    requires Enabled(s, Exec(w, found, pred)) && s.tasks[Held(s, w)].started && !s.tasks[Held(s, w)].periodic
    requires forall c :: BooksAt(s, c)
    ensures (forall c :: BooksAt(Next(s, Exec(w, found, pred)), c))
            <==> found.None? || found == s.tasks[Held(s, w)].container
  {
    hide Sum, WorksAt;
    var t := Held(s, w);
    var r := Next(s, Exec(w, found, pred));
    var y := Entered(s.tasks[t], found, pred, true);
    EnterRecord(s, w, t, found, pred, true);
    forall c ensures BooksAt(r, c) <==> WorkAt(y, c) == WorkAt(s.tasks[t], c) {
      assert BooksAt(s, c);
      OneUpdateAt(s, r, t, y, c);
    }
    if found.Some? && found != s.tasks[t].container {
      assert WorkAt(y, found.value) == 1 && WorkAt(s.tasks[t], found.value) == 0;
      assert !BooksAt(r, found.value);
    }
  }

  // ----- the books of all containers over a run -----

  ghost predicate AllBooks(s: State) { forall c :: BooksAt(s, c) }

  /** From `x` to `y` a task's parts change by `delta` at `at` and nowhere else. */
  ghost predicate Fits(x: Task, y: Task, at: Option<Cid>, delta: int) {
    forall c: Cid :: WorkAt(y, c) - WorkAt(x, c) == if at == Some(c) then delta else 0
  }

  function Booked(work: map<Cid, int>, at: Option<Cid>, delta: int): map<Cid, int> {
    if at.Some? then work[at.value := Get(work, at.value, 0) + delta] else work
  }

  lemma BooksIff(s: State, r: State, t: Tid, y: Task, at: Option<Cid>, delta: int)
    requires AllBooks(s) && t in s.tasks && r.tasks == s.tasks[t := y] && r.work == Booked(s.work, at, delta)
    ensures AllBooks(r) <==> Fits(s.tasks[t], y, at, delta)
  {
    hide Sum, WorksAt, WorkAt;
    forall c: Cid ensures BooksAt(r, c) <==> WorkAt(y, c) - WorkAt(s.tasks[t], c) == if at == Some(c) then delta else 0 {
      assert BooksAt(s, c);
      OneUpdateAt(s, r, t, y, c);
    }
  }

  lemma BooksSame(s: State, r: State)
    requires AllBooks(s) && r.tasks == s.tasks && r.work == s.work
    ensures AllBooks(r)
  {
    hide Sum;
    forall c ensures BooksAt(r, c) {
      assert BooksAt(s, c);
      assert WorksAt(r, c) == WorksAt(s, c);
    }
  }

  lemma BooksNew(s: State, r: State, t: Tid, y: Task)
    requires AllBooks(s) && t !in s.tasks && r.tasks == s.tasks[t := y] && r.work == s.work && y.container.None?
    ensures AllBooks(r)
  {
    hide Sum;
    forall c ensures BooksAt(r, c) {
      assert BooksAt(s, c);
      assert WorksAt(r, c) == WorksAt(s, c)[t := 0];
      IntUpdate(WorksAt(s, c), t, 0);
    }
  }

  /** `x`'s work is booked on a container other than `c`. */
  predicate BookedElsewhere(x: Task, c: Cid) { Live(x) && !x.periodic && x.container != Some(c) }

  /** The steps after which a container's counter is not the number of its own tasks: a
      live task is bound to another container, or is started once more. */
  predicate Drifts(s: State, a: Action)
    requires Enabled(s, a)
  {
    match a
    case RouteLocal(w, c, _) => BookedElsewhere(s.tasks[Held(s, w)], c)
    case Exec(w, found, _) => found.Some? && BookedElsewhere(s.tasks[Held(s, w)], found.value)
    case PopBlocked(w, l, found, _) => found.Some? && BookedElsewhere(s.tasks[Q(s, Blocked(w, l))[0]], found.value)
    case RunRetry(w, _, _, _) => Live(s.tasks[Q(s, Retry(w))[0]]) && !s.tasks[Q(s, Retry(w))[0]].periodic
    case PopEvent(w, found) =>
      var pa := s.tasks[E(s, w)[0]].parentAddr;
      found.Some? && pa.Some? && pa.value in s.heap && s.heap[pa.value] in s.tasks
      && BookedElsewhere(s.tasks[s.heap[pa.value]], found.value)
    case NetReturn(k, _, c, _) => BookedElsewhere(s.tasks[Q(s, NetOut)[k]], c)
    case _ => false
  }

  lemma KeptFits(x: Task, y: Task)
    requires y.container == x.container && WorkOf(y) == WorkOf(x)
    ensures Fits(x, y, None, 0)
  {}

  lemma BoundFits(x: Task, y: Task, c: Cid)
    requires y.container == Some(c) && WorkOf(y) == WorkOf(x) && (WorkOf(x) == 1 <==> Live(x) && !x.periodic)
    requires WorkOf(x) == 0 || WorkOf(x) == 1
    ensures Fits(x, y, None, 0) <==> !BookedElsewhere(x, c)
  {
    if BookedElsewhere(x, c) {
      assert WorkAt(y, c) - WorkAt(x, c) == 1;
    }
  }

  lemma StartFits(x: Task, y: Task, d: Cid)
    requires x.phase.Ready? && !x.periodic && !y.periodic && y.container == Some(d) && Live(y) && (x.started ==> x.container.Some?)
    ensures Fits(x, y, Some(d), 1) <==> !Live(x)
  {
    if Live(x) && x.container == Some(d) {
      assert WorkAt(y, d) - WorkAt(x, d) == 0;
    } else if Live(x) {
      assert WorkAt(y, x.container.value) - WorkAt(x, x.container.value) == -1;
    }
  }

  /** A record that keeps its container and what it is worth keeps all books. */
  lemma KeptBooks(s: State, r: State, t: Tid, y: Task)
    requires AllBooks(s) && t in s.tasks && r.tasks == s.tasks[t := y] && r.work == s.work
    requires y.container == s.tasks[t].container && WorkOf(y) == WorkOf(s.tasks[t])
    ensures AllBooks(r)
  {
    hide AllBooks, Fits, WorkOf;
    KeptFits(s.tasks[t], y);
    BooksIff(s, r, t, y, None, 0);
  }

  /** A record bound to `c` keeps them exactly when its work was not booked elsewhere. */
  lemma BoundBooksIff(s: State, r: State, t: Tid, y: Task, c: Cid)
    requires AllBooks(s) && t in s.tasks && r.tasks == s.tasks[t := y] && r.work == s.work
    requires y.container == Some(c) && y.periodic == s.tasks[t].periodic && y.started == s.tasks[t].started
    requires Active(s.tasks[t]) && Active(y)
    ensures AllBooks(r) <==> !BookedElsewhere(s.tasks[t], c)
  {
    hide AllBooks, Fits;
    BoundFits(s.tasks[t], y, c);
    BooksIff(s, r, t, y, None, 0);
  }

  predicate Active(x: Task) { x.phase.Ready? || x.phase.Running? || x.phase.Waiting? }

  lemma HandBooksIff(s: State, a: Action)
    requires Inv(s) && AllBooks(s) && Enabled(s, a)
    requires a.Reject? || a.RouteRetry? || a.RouteLocal? || a.RouteGlobal? || a.YieldTimed?
    ensures AllBooks(Next(s, a)) <==> !Drifts(s, a)
  {
    hide Inv, AllBooks, WorkOf, BookedElsewhere;
    var t := Held(s, a.w);
    var x := s.tasks[t];
    RejectWorth(x);
    match a
    case Reject(_) => KeptBooks(s, Next(s, a), t, x.(phase := Rejected, complete := true));
    case RouteRetry(_) => KeptBooks(s, Next(s, a), t, x.(routed := true));
    case RouteGlobal(_) => KeptBooks(s, Next(s, a), t, x.(routed := true));
    case YieldTimed(_, _) => KeptBooks(s, Next(s, a), t, x.(phase := Ready));
    case RouteLocal(_, c, _) => BoundBooksIff(s, Next(s, a), t, x.(routed := true, container := Some(c)), c);
  }

  /** Flags and the way between active phases do not change what a task is worth. */
  lemma RejectWorth(x: Task)
    ensures WorkOf(x.(routed := true)) == WorkOf(x)
    ensures Active(x) && !x.started ==> WorkOf(x.(phase := Rejected, complete := true)) == WorkOf(x)
    ensures Active(x) ==> WorkOf(x.(phase := Ready)) == WorkOf(x)
  {}

  lemma QueueBooks(s: State, a: Action)
    requires Inv(s) && AllBooks(s) && Enabled(s, a)
    requires a.PopLane? || a.KeepPeriodic? || a.PopPeriodic? || a.KeepRetry? || a.RetryGlobal? || a.Plug?
    ensures AllBooks(Next(s, a))
  {
    hide Inv, AllBooks;
    if a.PopLane? {
      var t := Q(s, Lane(a.w))[0];
      KeptBooks(s, Next(s, a), t, s.tasks[t].(worker := a.w));
    } else if a.PopPeriodic? {
      var t := Q(s, Periodic(a.w, a.level))[0];
      KeptBooks(s, Next(s, a), t, s.tasks[t].(routed := false));
    } else {
      BooksSame(s, Next(s, a));
    }
  }

  lemma NewBooks(s: State, a: Action)
    requires AllBooks(s) && Enabled(s, a)
    requires a.Submit? || a.Spawn?
    ensures AllBooks(Next(s, a))
  {
    hide AllBooks;
    match a
    case Submit(t, ad, w, periodic, faf, reply) => BooksNew(s, Next(s, a), t, NewTask(None, None, ad, w, periodic, faf, reply));
    case Spawn(w, t, ad, dest, faf) =>
      var p := Held(s, w);
      BooksNew(s, Next(s, a), t, NewTask(Some(p), Some(s.tasks[p].addr), ad, dest, false, faf, ToFuture));
  }

  lemma OtherBooks(s: State, a: Action)
    requires Inv(s) && AllBooks(s) && Enabled(s, a)
    requires a.Await? || a.NetDone? || a.Free?
    ensures AllBooks(Next(s, a))
  {
    hide Conserved, RecordsOk, HeapOk, LineageOk, AwaitOk, EventsOk, QueuesOk, AllConsumed, AllBooks;
    match a
    case Await(w, c) =>
      var p := Held(s, w);
      AwaitSuspends(s, p, c);
      KeptBooks(s, Next(s, a), p, s.tasks[p].(phase := Waiting(c)));
    case NetDone(k) =>
      var t := Q(s, NetReply)[k];
      NetReplyFacts(s, t);
      KeptBooks(s, Next(s, a), t, s.tasks[t].(phase := Ended, freed := true));
    case Free(t) => KeptBooks(s, Next(s, a), t, s.tasks[t].(freed := true));
  }

  /** ExecTask on a record `x` that stands for task `t` of `s`. */
  lemma EnterBooksIff(s: State, r: State, t: Tid, x: Task, found: Option<Cid>, pred: real, resume: bool)
    requires AllBooks(s) && t in s.tasks && x == s.tasks[t].(container := x.container) && ExecContainer(x, found).Some?
    requires x.phase == Ready && (x.started ==> s.tasks[t].container.Some?)
    requires r.tasks == s.tasks[t := Entered(x, found, pred, resume)]
    requires r.work == if resume || x.periodic then s.work else Booked(s.work, ExecContainer(x, found), 1)
    ensures resume ==> (AllBooks(r) <==> !BookedElsewhere(s.tasks[t], ExecContainer(x, found).value))
    ensures !resume ==> (AllBooks(r) <==> x.periodic || !x.started)
  {
    hide AllBooks, Fits;
    var y := Entered(x, found, pred, resume);
    var d := ExecContainer(x, found).value;
    if resume {
      BoundBooksIff(s, r, t, y, d);
    } else if x.periodic {
      PeriodicFits(s.tasks[t], y);
      BooksIff(s, r, t, y, None, 0);
    } else {
      StartFits(s.tasks[t], y, d);
      BooksIff(s, r, t, y, Some(d), 1);
    }
  }

  lemma PeriodicFits(x: Task, y: Task)
    requires x.periodic && y.periodic
    ensures Fits(x, y, None, 0)
  {}

  lemma EnterWork(s: State, w: Wid, t: Tid, found: Option<Cid>, pred: real, resume: bool)
    requires t in s.tasks && ExecContainer(s.tasks[t], found).Some?
    ensures Enter(s, w, t, found, pred, resume).work
            == if resume || s.tasks[t].periodic then s.work else Booked(s.work, ExecContainer(s.tasks[t], found), 1)
  {}

  lemma ExecBooksIff(s: State, a: Action)
    requires Inv(s) && AllBooks(s) && Enabled(s, a)
    requires a.Exec? || a.PopBlocked? || a.RunRetry?
    ensures AllBooks(Next(s, a)) <==> !Drifts(s, a)
  {
    hide Conserved, RecordsOk, HeapOk, LineageOk, AwaitOk, EventsOk, QueuesOk, AllConsumed, AllBooks, Enter, Booked;
    match a
    case Exec(w, found, pred) =>
      var t := Held(s, w);
      EntryFacts(s, Hand(w), t);
      EnterRecord(s, w, t, found, pred, s.tasks[t].started);
      EnterWork(s, w, t, found, pred, s.tasks[t].started);
      EnterBooksIff(s, Next(s, a), t, s.tasks[t], found, pred, s.tasks[t].started);
    case PopBlocked(w, l, found, pred) =>
      var t := Q(s, Blocked(w, l))[0];
      EntryFacts(s, Blocked(w, l), t);
      var s1 := Take(s, w, Blocked(w, l), s.tasks[t]);
      EnterRecord(s1, w, t, found, pred, s.tasks[t].started);
      EnterWork(s1, w, t, found, pred, s.tasks[t].started);
      EnterBooksIff(s, Next(s, a), t, s.tasks[t], found, pred, s.tasks[t].started);
    case RunRetry(w, c, found, pred) =>
      var t := Q(s, Retry(w))[0];
      EntryFacts(s, Retry(w), t);
      var x := s.tasks[t].(container := Some(c));
      var s1 := Take(s, w, Retry(w), x);
      EnterRecord(s1, w, t, found, pred, false);
      EnterWork(s1, w, t, found, pred, false);
      EnterBooksIff(s, Next(s, a), t, x, found, pred, false);
  }

  lemma EndFits(x: Task, y: Task, c: Cid)
    requires x.phase.Ready? && !x.periodic && !y.periodic && y.container == Some(c) && y.started == x.started
    requires (y.phase.Ended? || y.phase.Replying?) && (x.started ==> x.container.Some?)
    ensures Fits(x, y, Some(c), -1) <==> !BookedElsewhere(x, c)
  {
    if BookedElsewhere(x, c) {
      assert WorkAt(y, c) - WorkAt(x, c) == 0;
    }
  }

  lemma EndWork(s: State, w: Wid, t: Tid, again: Queue)
    requires t in s.tasks && s.tasks[t].container.Some?
    ensures var r := End(s, w, t, again, false);
            && r.tasks == s.tasks[t := EndRecord(s.tasks[t], ExitOf(s, s.tasks[t]), false)]
            && r.work == if s.tasks[t].periodic then s.work else Booked(s.work, s.tasks[t].container, -1)
  {}

  lemma NetReturnBooksIff(s: State, k: nat, w: Wid, c: Cid, again: Queue)
    requires Inv(s) && AllBooks(s) && Enabled(s, NetReturn(k, w, c, again))
    ensures AllBooks(Next(s, NetReturn(k, w, c, again))) <==> !Drifts(s, NetReturn(k, w, c, again))
  {
    hide Conserved, RecordsOk, HeapOk, LineageOk, AwaitOk, EventsOk, QueuesOk, AllConsumed, AllBooks, End, EndRecord, ExitOf, Booked, Fits;
    var t := Q(s, NetOut)[k];
    EntryFacts(s, NetOut, t);
    var x := s.tasks[t].(container := Some(c));
    var s1 := Drop(Put(s, t, x), NetOut, k);
    var r := Next(s, NetReturn(k, w, c, again));
    EndWork(s1, w, t, again);
    OnlyPeriodicReschedule(s1, x);
    var y := EndRecord(x, ExitOf(s1, x), false);
    EndRecordFacts(x, ExitOf(s1, x));
    assert r.tasks == s.tasks[t := y];
    if x.periodic {
      PeriodicFits(s.tasks[t], y);
      NothingBooked(s.work, r.work);
      BooksIff(s, r, t, y, None, 0);
    } else {
      EndFits(s.tasks[t], y, c);
      BooksIff(s, r, t, y, Some(c), -1);
    }
  }

  lemma NothingBooked(work: map<Cid, int>, r: map<Cid, int>)
    requires r == work
    ensures r == Booked(work, None, 0)
  {}

  lemma ReturnBooks(s: State, w: Wid, again: Queue)
    requires Inv(s) && AllBooks(s) && Enabled(s, Return(w, again))
    ensures AllBooks(Next(s, Return(w, again)))
  {
    hide Inv, Enabled, Next, BooksAt;
    forall c ensures BooksAt(Next(s, Return(w, again)), c) {
      EndKeepsBooks(s, w, again, c);
    }
  }

  lemma PopEventBooksIff(s: State, w: Wid, found: Option<Cid>)
    requires Inv(s) && AllBooks(s) && Enabled(s, PopEvent(w, found))
    ensures AllBooks(Next(s, PopEvent(w, found))) <==> !Drifts(s, PopEvent(w, found))
  {
    hide Conserved, RecordsOk, HeapOk, LineageOk, AwaitOk, EventsOk, QueuesOk, AllConsumed, DoPopEvent, AllBooks, BookedElsewhere;
    EventsAreLive(s, w);
    PopEventEffect(s, w, found);
    var f := E(s, w)[0];
    var p := s.heap[s.tasks[f].parentAddr.value];
    var r := Next(s, PopEvent(w, found));
    var fy := s.tasks[f].(complete := true, consumed := true);
    var s1 := Put(s, f, fy);
    KeptBooks(s, s1, f, fy);
    var c := ExecContainer(s.tasks[p], found).value;
    BoundBooksIff(s1, r, p, s.tasks[p].(phase := Running, container := Some(c)), c);
    if found.None? { OwnBooking(s.tasks[p]); }
  }

  lemma OwnBooking(x: Task)
    requires x.container.Some?
    ensures !BookedElsewhere(x, x.container.value)
  {}

  /** In any reachable state in which every container's counter is right, a step keeps them
      all right exactly when it is not one of those that drift. */
  lemma StepKeepsBooksIff(s: State, a: Action)
    requires Inv(s) && AllBooks(s) && Enabled(s, a) && Disciplined(s, a)
    ensures AllBooks(Next(s, a)) <==> !Drifts(s, a)
  {
    NothingIsLost(s, a);
    hide Inv, AllBooks, Enabled, Next, Disciplined, BookedElsewhere;
    if a.Reject? || a.RouteRetry? || a.RouteLocal? || a.RouteGlobal? || a.YieldTimed? {
      HandBooksIff(s, a);
    } else if a.Exec? || a.PopBlocked? || a.RunRetry? {
      ExecBooksIff(s, a);
    } else if a.Submit? || a.Spawn? {
      NewBooks(s, a);
    } else if a.Return? {
      ReturnBooks(s, a.w, a.again);
    } else if a.NetReturn? {
      NetReturnBooksIff(s, a.k, a.w, a.c, a.again);
    } else if a.Await? || a.NetDone? || a.Free? {
      OtherBooks(s, a);
    } else if a.PopEvent? {
      PopEventBooksIff(s, a.w, a.found);
    } else {
      QueueBooks(s, a);
    }
  }

  ghost predicate NeverDrifts(s: State, run: seq<Action>)
    requires IsRun(s, run)
    decreases |run|
  {
    run == [] || (!Drifts(s, run[0]) && NeverDrifts(Next(s, run[0]), run[1..]))
  }

  /** So on every run without such a step each container's counter is, all the time, the
      sum over its own tasks. */
  lemma {:induction false} RunKeepsBooks(s: State, run: seq<Action>)
    requires Inv(s) && AllBooks(s) && IsRun(s, run) && NeverDrifts(s, run)
    ensures AllBooks(After(s, run))
    decreases |run|
  {
    hide Inv, AllBooks, Drifts;
    if run != [] {
      StepInv(s, run[0]);
      StepKeepsBooksIff(s, run[0]);
      RunKeepsBooks(Next(s, run[0]), run[1..]);
    }
  }

  lemma InitBooks()
    ensures AllBooks(Init)
  {
    forall c ensures BooksAt(Init, c) { assert WorksAt(Init, c) == map[]; }
  }

  /** What that sum is: the container's live tasks that are not periodic, less those that
      ended on it without having started. */
  lemma OwnTasks(run: seq<Action>, c: Cid)
    requires IsRun(Init, run) && NeverDrifts(Init, run)
    ensures var s := After(Init, run);
            Get(s.work, c, 0) == |LiveTasksOn(s, c)| - |EndedUnstartedOn(s, c)|
  {
    hide Inv, NeverDrifts, IsRun, After, WorkAt;
    InitInv();
    InitBooks();
    RunKeepsBooks(Init, run);
    assert BooksAt(After(Init, run), c);
    CountWorksAt(After(Init, run), c);
  }

  function LiveTasksOn(s: State, c: Cid): set<Tid> { set t | t in LiveTasks(s) && s.tasks[t].container == Some(c) }

  function EndedUnstartedOn(s: State, c: Cid): set<Tid> { set t | t in EndedUnstarted(s) && s.tasks[t].container == Some(c) }

  lemma CountWorksAt(s: State, c: Cid)
    ensures Sum(WorksAt(s, c), Ints) == |LiveTasksOn(s, c)| - |EndedUnstartedOn(s, c)|
  {
    SumCounts(WorksAt(s, c));
    assert LiveTasksOn(s, c) == Holding(WorksAt(s, c), 1);
    assert EndedUnstartedOn(s, c) == Holding(WorksAt(s, c), -1);
  }

  // ----- plugging -----

  /** Once no unfinished task holds a plugged container, no run has a task running there,
      but for periodic tasks that come back from the network onto it. */
  lemma PluggedAndEmptyIsQuiet(s: State, run: seq<Action>, c: Cid, t: Tid)
    requires Inv(s) && IsRun(s, run) && c in s.plugged && Admitted(s, c) == {}
    ensures var r := After(s, run);
            t in r.tasks && r.tasks[t].phase == Running && r.tasks[t].container == Some(c) ==> t in Returned(s, run, c)
  {
    PlugIsFinal(s, run, c);
    assert t in After(s, run).tasks && t !in Returned(s, run, c) ==> t !in Admitted(After(s, run), c);
  }
}
