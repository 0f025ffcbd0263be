/** The books the scheduler keeps: predicted load per worker, work per container, and
    which tasks a plugged container still has to finish. */
module Accounting {
  import opened Sums
  import opened Scheduler
  import opened Conservation
  import opened Completion
  import opened CompletionRuns

  /** Started by this scheduler and not yet through EndTask. */
  predicate Live(x: Task) { x.started && (x.phase.Ready? || x.phase.Running? || x.phase.Waiting?) }

  function LoadOf(x: Task): real { if Live(x) then x.predicted else 0.0 }

  /** What a task adds to the work counters: one while it is live, and minus one for
      ever if EndTask was called for it although it never started here. */
  function WorkOf(x: Task): int {
    if x.periodic then 0
    else if Live(x) then 1
    else if !x.started && (x.phase.Ended? || x.phase.Replying?) then -1
    else 0
  }

  function Loads(s: State): map<Tid, real> { map t | t in s.tasks :: LoadOf(s.tasks[t]) }

  function Works(s: State): map<Tid, int> { map t | t in s.tasks :: WorkOf(s.tasks[t]) }

  /** What the books hold too much: predictions and work booked for coroutines that were
      started again from the retry queue and so will be ended only once. */
  datatype Surplus = Surplus(load: real, work: int)

  const NoSurplus := Surplus(0.0, 0)

  function Plus(a: Surplus, b: Surplus): Surplus { Surplus(a.load + b.load, a.work + b.work) }

  /** Starting `x` once more leaves its first booking behind. */
  function LeftBehind(x: Task): Surplus {
    if x.started then Surplus(x.predicted, if x.periodic then 0 else 1) else NoSurplus
  }

  ghost predicate Balanced(s: State, b: Surplus) {
    && Sum(s.load, Reals) == Sum(Loads(s), Reals) + b.load
    && Sum(s.work, Ints) == Sum(Works(s), Ints) + b.work
    && (forall t :: t in s.tasks && !s.tasks[t].started ==> s.tasks[t].predicted == 0.0)
  }

  lemma OneUpdate(s: State, r: State, t: Tid, y: Task)
    requires r.tasks == s.tasks[t := y]
    ensures Sum(Loads(r), Reals) == Sum(Loads(s), Reals) - (if t in s.tasks then LoadOf(s.tasks[t]) else 0.0) + LoadOf(y)
    ensures Sum(Works(r), Ints) == Sum(Works(s), Ints) - (if t in s.tasks then WorkOf(s.tasks[t]) else 0) + WorkOf(y)
  {
    assert Loads(r) == Loads(s)[t := LoadOf(y)];
    assert Works(r) == Works(s)[t := WorkOf(y)];
    RealUpdate(Loads(s), t, LoadOf(y));
    IntUpdate(Works(s), t, WorkOf(y));
  }

  /** An action that rewrites one record without changing what it is worth. */
  lemma Neutral(s: State, r: State, t: Tid, y: Task, b: Surplus)
    requires Balanced(s, b) && r.tasks == s.tasks[t := y] && r.load == s.load && r.work == s.work
    requires LoadOf(y) == (if t in s.tasks then LoadOf(s.tasks[t]) else 0.0)
    requires WorkOf(y) == (if t in s.tasks then WorkOf(s.tasks[t]) else 0)
    requires !y.started ==> y.predicted == 0.0
    ensures Balanced(r, b)
  {
    hide Sum, Loads, Works;
    OneUpdate(s, r, t, y);
  }

  /** Starting a coroutine books its prediction ... */
  lemma StartLoads(s: State, r: State, w: Wid, t: Tid, y: Task)
    requires t in s.tasks && s.tasks[t].phase == Ready && r.tasks == s.tasks[t := y] && Live(y)
    requires !s.tasks[t].started ==> s.tasks[t].predicted == 0.0
    requires r.load == s.load[w := Get(s.load, w, 0.0) + y.predicted]
    ensures Sum(r.load, Reals) - Sum(Loads(r), Reals)
            == Sum(s.load, Reals) - Sum(Loads(s), Reals) + LeftBehind(s.tasks[t]).load
  {
    hide Sum, Loads, Works, Get, WorkOf;
    OneUpdate(s, r, t, y);
    RealUpdate(s.load, w, Get(s.load, w, 0.0) + y.predicted);
  }

  /** ... and one unit of work. */
  lemma StartWorks(s: State, r: State, t: Tid, c: Cid, y: Task)
    requires t in s.tasks && s.tasks[t].phase == Ready && r.tasks == s.tasks[t := y] && Live(y) && y.periodic == s.tasks[t].periodic
    requires r.work == if y.periodic then s.work else s.work[c := Get(s.work, c, 0) + 1]
    ensures Sum(r.work, Ints) - Sum(Works(r), Ints) == Sum(s.work, Ints) - Sum(Works(s), Ints) + LeftBehind(s.tasks[t]).work
  {
    hide Sum, Loads, Works, Get, LoadOf;
    OneUpdate(s, r, t, y);
    IntUpdate(s.work, c, Get(s.work, c, 0) + 1);
  }

  lemma StartBalances(s: State, r: State, w: Wid, t: Tid, c: Cid, y: Task, b: Surplus)
    requires Balanced(s, b) && t in s.tasks && s.tasks[t].phase == Ready
    requires r.tasks == s.tasks[t := y] && Live(y) && y.periodic == s.tasks[t].periodic
    requires r.load == s.load[w := Get(s.load, w, 0.0) + y.predicted]
    requires r.work == if y.periodic then s.work else s.work[c := Get(s.work, c, 0) + 1]
    ensures Balanced(r, Plus(b, LeftBehind(s.tasks[t])))
  {
    hide Sum, Loads, Works, Get, LoadOf, WorkOf, LeftBehind;
    StartLoads(s, r, w, t, y);
    StartWorks(s, r, t, c, y);
  }

  lemma EnterBalances(s: State, w: Wid, t: Tid, found: Option<Cid>, pred: real, resume: bool, b: Surplus)
    requires Balanced(s, b) && t in s.tasks && ExecContainer(s.tasks[t], found).Some?
    requires s.tasks[t].phase == Ready && (resume ==> s.tasks[t].started)
    ensures Balanced(Enter(s, w, t, found, pred, resume), if resume then b else Plus(b, LeftBehind(s.tasks[t])))
  {
    hide Balanced;
    var x := s.tasks[t];
    var r := Enter(s, w, t, found, pred, resume);
    var y := Entered(x, found, pred, resume);
    if resume {
      Neutral(s, r, t, y, b);
    } else {
      StartBalances(s, r, w, t, ExecContainer(x, found).value, y, b);
    }
  }

  /** EndTask takes the prediction and, for a non-periodic task, one unit of work back. */
  lemma StopBalances(s: State, r: State, w: Wid, t: Tid, c: Cid, y: Task, b: Surplus)
    requires Balanced(s, b) && t in s.tasks && (s.tasks[t].phase == Ready || s.tasks[t].phase == Running)
    requires r.tasks == s.tasks[t := y] && y.periodic == s.tasks[t].periodic
    requires if y.periodic then !y.started && y.predicted == 0.0
             else y.started == s.tasks[t].started && y.predicted == s.tasks[t].predicted && (y.phase.Ended? || y.phase.Replying?)
    requires r.load == s.load[w := Get(s.load, w, 0.0) - s.tasks[t].predicted]
    requires r.work == if y.periodic then s.work else s.work[c := Get(s.work, c, 0) - 1]
    ensures Balanced(r, b)
  {
    hide Sum, Loads, Works;
    OneUpdate(s, r, t, y);
    RealUpdate(s.load, w, Get(s.load, w, 0.0) - s.tasks[t].predicted);
    IntUpdate(s.work, c, Get(s.work, c, 0) - 1);
  }

  lemma OnlyPeriodicReschedule(s: State, x: Task)
    ensures ExitOf(s, x).Reschedule? <==> x.periodic
  {}

  lemma EndRecordFacts(x: Task, e: Exit)
    requires e.Reschedule? <==> x.periodic
    ensures var y := EndRecord(x, e, false);
            && y.periodic == x.periodic && y.container == x.container
            && (if y.periodic then !y.started && y.predicted == 0.0 && y.phase == Ready
                else y.started == x.started && y.predicted == x.predicted && (y.phase.Ended? || y.phase.Replying?))
  {}

  lemma EndBalances(s: State, w: Wid, t: Tid, again: Queue, b: Surplus)
    requires Balanced(s, b) && t in s.tasks && s.tasks[t].container.Some?
    requires s.tasks[t].phase == Ready || s.tasks[t].phase == Running
    ensures Balanced(End(s, w, t, again, false), b)
  {
    hide Balanced, EndRecord, ExitOf;
    var x := s.tasks[t];
    OnlyPeriodicReschedule(s, x);
    EndRecordFacts(x, ExitOf(s, x));
    StopBalances(s, End(s, w, t, again, false), w, t, x.container.value, EndRecord(x, ExitOf(s, x), false), b);
  }

  /** `r` differs from `s` in the record of `t` at most. */
  lemma TakeBalances(s: State, w: Wid, q: Queue, y: Task, b: Surplus)
    requires Balanced(s, b) && Q(s, q) != [] && Q(s, q)[0] in s.tasks
    requires LoadOf(y) == LoadOf(s.tasks[Q(s, q)[0]]) && WorkOf(y) == WorkOf(s.tasks[Q(s, q)[0]])
    requires !y.started ==> y.predicted == 0.0
    ensures Balanced(Take(s, w, q, y), b)
  {
    Neutral(s, Take(s, w, q, y), Q(s, q)[0], y, b);
  }

  lemma HandBalances(s: State, a: Action, b: Surplus)
    requires Inv(s) && Balanced(s, b) && Enabled(s, a) && Disciplined(s, a)
    requires a.Reject? || a.RouteRetry? || a.RouteLocal? || a.RouteGlobal? || a.YieldTimed?
    ensures Balanced(Next(s, a), b)
  {
    hide Conserved, RecordsOk, HeapOk, LineageOk, AwaitOk, EventsOk, QueuesOk, AllConsumed, Balanced;
    var t := Held(s, a.w);
    RecordFacts(s, t, b);
    var x := s.tasks[t];
    match a
    case Reject(_) => Neutral(s, Next(s, a), t, x.(phase := Rejected, complete := true), b);
    case RouteRetry(_) => Neutral(s, Next(s, a), t, x.(routed := true), b);
    case RouteLocal(_, c, _) => Neutral(s, Next(s, a), t, x.(routed := true, container := Some(c)), b);
    case RouteGlobal(_) => Neutral(s, Next(s, a), t, x.(routed := true), b);
    case YieldTimed(_, _) => Neutral(s, Next(s, a), t, x.(phase := Ready), b);
  }

  lemma RecordFacts(s: State, t: Tid, b: Surplus)
    requires Inv(s) && Balanced(s, b) && t in s.tasks
    ensures RecordOk(s.tasks[t]) && (!s.tasks[t].started ==> s.tasks[t].predicted == 0.0)
  {}

  lemma EntryRecord(s: State, q: Queue, b: Surplus)
    requires Inv(s) && Balanced(s, b) && Q(s, q) != []
    ensures var t := Q(s, q)[0]; t in s.tasks && (!s.tasks[t].started ==> s.tasks[t].predicted == 0.0)
  {
    EntryFacts(s, q, Q(s, q)[0]);
  }

  lemma SameTasks(s: State, r: State, b: Surplus)
    requires Balanced(s, b) && r.tasks == s.tasks && r.load == s.load && r.work == s.work
    ensures Balanced(r, b)
  {
    assert Loads(r) == Loads(s) && Works(r) == Works(s);
  }

  lemma QueueBalances(s: State, a: Action, b: Surplus)
    requires Inv(s) && Balanced(s, b) && Enabled(s, a)
    requires a.PopLane? || a.KeepPeriodic? || a.PopPeriodic? || a.KeepRetry? || a.RetryGlobal? || a.Plug?
    ensures Balanced(Next(s, a), b)
  {
    hide Inv, Balanced;
    if a.PopLane? {
      EntryRecord(s, Lane(a.w), b);
      TakeBalances(s, a.w, Lane(a.w), s.tasks[Q(s, Lane(a.w))[0]].(worker := a.w), b);
    } else if a.PopPeriodic? {
      var q := Periodic(a.w, a.level);
      EntryRecord(s, q, b);
      TakeBalances(s, a.w, q, s.tasks[Q(s, q)[0]].(routed := false), b);
    } else {
      SameTasks(s, Next(s, a), b);
    }
  }

  /** What an action books too much: only a restart does. */
  function Overbooked(s: State, a: Action): Surplus
    requires Enabled(s, a)
  {
    if a.RunRetry? then LeftBehind(s.tasks[Q(s, Retry(a.w))[0]]) else NoSurplus
  }

  lemma PlusNone(b: Surplus)
    ensures Plus(b, NoSurplus) == b
  {}

  lemma PlusAssociates(a: Surplus, b: Surplus, c: Surplus)
    ensures Plus(Plus(a, b), c) == Plus(a, Plus(b, c))
  {}

  lemma ExecBalances(s: State, a: Action, b: Surplus)
    requires Inv(s) && Balanced(s, b) && Enabled(s, a)
    requires a.Exec? || a.PopBlocked? || a.RunRetry?
    ensures Balanced(Next(s, a), Plus(b, Overbooked(s, a)))
  {
    hide Conserved, RecordsOk, HeapOk, LineageOk, AwaitOk, EventsOk, QueuesOk, AllConsumed, Balanced, Enter;
    match a
    case Exec(w, found, pred) =>
      var t := Held(s, w);
      EnterBalances(s, w, t, found, pred, s.tasks[t].started, b);
      PlusNone(b);
    case PopBlocked(w, l, found, pred) =>
      var t := Q(s, Blocked(w, l))[0];
      EntryFacts(s, Blocked(w, l), t);
      RecordFacts(s, t, b);
      TakeBalances(s, w, Blocked(w, l), s.tasks[t], b);
      EnterBalances(Take(s, w, Blocked(w, l), s.tasks[t]), w, t, found, pred, s.tasks[t].started, b);
      PlusNone(b);
    case RunRetry(w, c, found, pred) =>
      var t := Q(s, Retry(w))[0];
      var x := s.tasks[t].(container := Some(c));
      EntryFacts(s, Retry(w), t);
      RecordFacts(s, t, b);
      TakeBalances(s, w, Retry(w), x, b);
      EnterBalances(Take(s, w, Retry(w), x), w, t, found, pred, false, b);
  }

  lemma NewBalances(s: State, a: Action, b: Surplus)
    requires Balanced(s, b) && Enabled(s, a)
    requires a.Submit? || a.Spawn?
    ensures Balanced(Next(s, a), b)
  {
    match a
    case Submit(t, ad, w, periodic, faf, reply) => Neutral(s, Next(s, a), t, NewTask(None, None, ad, w, periodic, faf, reply), b);
    case Spawn(w, t, ad, dest, faf) =>
      var p := Held(s, w);
      Neutral(s, Next(s, a), t, NewTask(Some(p), Some(s.tasks[p].addr), ad, dest, false, faf, ToFuture), b);
  }

  lemma EndingBalances(s: State, a: Action, b: Surplus)
    requires Inv(s) && Balanced(s, b) && Enabled(s, a)
    requires a.Return? || a.NetReturn?
    ensures Balanced(Next(s, a), b)
  {
    hide Conserved, RecordsOk, HeapOk, LineageOk, AwaitOk, EventsOk, QueuesOk, AllConsumed, Balanced, End;
    match a
    case Return(w, again) =>
      var t := Held(s, w);
      RecordFacts(s, t, b);
      var s1 := LetGo(s, w, s.tasks[t]);
      Neutral(s, s1, t, s.tasks[t], b);
      EndBalances(s1, w, t, again, b);
    case NetReturn(k, w, c, again) =>
      var t := Q(s, NetOut)[k];
      EntryFacts(s, NetOut, t);
      RecordFacts(s, t, b);
      var y := s.tasks[t].(container := Some(c));
      var s1 := Drop(Put(s, t, y), NetOut, k);
      Neutral(s, s1, t, y, b);
      EndBalances(s1, w, t, again, b);
  }

  lemma OtherBalances(s: State, a: Action, b: Surplus)
    requires Inv(s) && Balanced(s, b) && Enabled(s, a)
    requires a.Await? || a.NetDone? || a.Free?
    ensures Balanced(Next(s, a), b)
  {
    hide Conserved, RecordsOk, HeapOk, LineageOk, AwaitOk, EventsOk, QueuesOk, AllConsumed, Balanced;
    match a
    case Await(w, c) =>
      var p := Held(s, w);
      RecordFacts(s, p, b);
      AwaitSuspends(s, p, c);
      Neutral(s, Next(s, a), p, s.tasks[p].(phase := Waiting(c)), b);
    case NetDone(k) =>
      var t := Q(s, NetReply)[k];
      NetReplyFacts(s, t);
      RecordFacts(s, t, b);
      Neutral(s, Next(s, a), t, s.tasks[t].(phase := Ended, freed := true), b);
    case Free(t) =>
      RecordFacts(s, t, b);
      Neutral(s, Next(s, a), t, s.tasks[t].(freed := true), b);
  }

  lemma PopEventBalances(s: State, w: Wid, found: Option<Cid>, b: Surplus)
    requires Inv(s) && Balanced(s, b) && Enabled(s, PopEvent(w, found))
    ensures Balanced(Next(s, PopEvent(w, found)), b)
  {
    hide Conserved, RecordsOk, HeapOk, LineageOk, AwaitOk, EventsOk, QueuesOk, AllConsumed, Balanced, DoPopEvent;
    EventsAreLive(s, w);
    PopEventEffect(s, w, found);
    var f := E(s, w)[0];
    var p := s.heap[s.tasks[f].parentAddr.value];
    RecordFacts(s, f, b);
    RecordFacts(s, p, b);
    var fy := s.tasks[f].(complete := true, consumed := true);
    var s1 := Put(s, f, fy);
    Neutral(s, s1, f, fy, b);
    Neutral(s1, Next(s, PopEvent(w, found)), p, s.tasks[p].(phase := Running, container := ExecContainer(s.tasks[p], found)), b);
  }

  lemma StepBalances(s: State, a: Action, b: Surplus)
    requires Inv(s) && Balanced(s, b) && Enabled(s, a) && Disciplined(s, a)
    ensures Balanced(Next(s, a), Plus(b, Overbooked(s, a)))
  {
    hide Inv, Balanced, Enabled, Next, Disciplined;
    PlusNone(b);
    NothingIsLost(s, a);
    if a.Reject? || a.RouteRetry? || a.RouteLocal? || a.RouteGlobal? || a.YieldTimed? {
      HandBalances(s, a, b);
    } else if a.Exec? || a.PopBlocked? || a.RunRetry? {
      ExecBalances(s, a, b);
    } else if a.Submit? || a.Spawn? {
      NewBalances(s, a, b);
    } else if a.Return? || a.NetReturn? {
      EndingBalances(s, a, b);
    } else if a.Await? || a.NetDone? || a.Free? {
      OtherBalances(s, a, b);
    } else if a.PopEvent? {
      PopEventBalances(s, a.w, a.found, b);
    } else {
      QueueBalances(s, a, b);
    }
  }

  /** The bookings left behind over a run. */
  ghost function Restarted(s: State, run: seq<Action>): Surplus
    requires IsRun(s, run)
    decreases |run|
  {
    if run == [] then NoSurplus else Plus(Overbooked(s, run[0]), Restarted(Next(s, run[0]), run[1..]))
  }

  lemma {:induction false} RunBalances(s: State, run: seq<Action>, b: Surplus)
    requires Inv(s) && Balanced(s, b) && IsRun(s, run)
    ensures Balanced(After(s, run), Plus(b, Restarted(s, run)))
    decreases |run|
  {
    hide Inv, Balanced, Plus, Overbooked, Enabled, Disciplined, Next;
    if run != [] {
      StepInv(s, run[0]);
      StepBalances(s, run[0], b);
      RunBalances(Next(s, run[0]), run[1..], Plus(b, Overbooked(s, run[0])));
      PlusAssociates(b, Overbooked(s, run[0]), Restarted(Next(s, run[0]), run[1..]));
    } else {
      PlusNone(b);
    }
  }

  function LiveTasks(s: State): set<Tid> { set t | t in s.tasks && Live(s.tasks[t]) && !s.tasks[t].periodic }

  /** Ended here without ever having started here: routed to another node and completed
      by its reply. */
  function EndedUnstarted(s: State): set<Tid> {
    set t | t in s.tasks && !s.tasks[t].periodic && !s.tasks[t].started && (s.tasks[t].phase.Ended? || s.tasks[t].phase.Replying?)
  }

  function Keep(m: map<Tid, real>, keep: set<Tid>): map<Tid, real> { map t | t in m && t in keep :: m[t] }

  function LivePredictions(s: State): map<Tid, real> { map t | t in s.tasks && Live(s.tasks[t]) :: s.tasks[t].predicted }

  /** The loads of all workers add up to the predictions of the live tasks.  The work
      counters of all containers add up to the number of live non-periodic tasks, less
      one for every task whose EndTask was not preceded by a start.  Both are too high by
      exactly the bookings that restarts from the retry queue left behind. */
  lemma AccountsBalance(run: seq<Action>)
    requires IsRun(Init, run)
    ensures var s := After(Init, run);
            && Sum(s.load, Reals) == Sum(LivePredictions(s), Reals) + Restarted(Init, run).load
            && Sum(s.work, Ints) == |LiveTasks(s)| - |EndedUnstarted(s)| + Restarted(Init, run).work
  {
    hide Inv, Sum, Loads, Works, LivePredictions, LiveTasks, EndedUnstarted, Restarted, IsRun, After, Live;
    InitInv();
    InitBalances();
    RunBalances(Init, run, NoSurplus);
    CountWorks(After(Init, run));
    CountLoads(After(Init, run));
  }

  lemma InitBalances()
    ensures Balanced(Init, NoSurplus)
  {
    assert Loads(Init) == map[] && Works(Init) == map[];
  }

  lemma CountWorks(s: State)
    ensures Sum(Works(s), Ints) == |LiveTasks(s)| - |EndedUnstarted(s)|
  {
    SumCounts(Works(s));
    assert LiveTasks(s) == Holding(Works(s), 1);
    assert EndedUnstarted(s) == Holding(Works(s), -1);
  }

  lemma CountLoads(s: State)
    ensures Sum(Loads(s), Reals) == Sum(LivePredictions(s), Reals)
  {
    var live := set t | t in s.tasks && Live(s.tasks[t]);
    SkipZeros(Loads(s), live);
    assert Keep(Loads(s), live) == LivePredictions(s);
  }

  lemma {:induction false} SkipZeros(m: map<Tid, real>, keep: set<Tid>)
    requires forall t :: t in m && t !in keep ==> m[t] == 0.0
    ensures Sum(m, Reals) == Sum(Keep(m, keep), Reals)
    decreases |m|
  {
    if m == map[] {
      assert Keep(m, keep) == map[];
    } else {
      var k :| k in m;
      RealUpdate(m - {k}, k, m[k]);
      assert (m - {k})[k := m[k]] == m;
      SkipZeros(m - {k}, keep);
      if k in keep {
        RealUpdate(Keep(m - {k}, keep), k, m[k]);
        assert Keep(m, keep) == Keep(m - {k}, keep)[k := m[k]];
      } else {
        assert Keep(m, keep) == Keep(m - {k}, keep);
      }
    }
  }

  /** The counters equal the number of live tasks exactly when restarts and ends without a
      start cancel out, so in particular on every run with neither; the loads equal the
      predictions exactly when no prediction was left behind. */
  lemma BooksAreExactIff(run: seq<Action>)
    requires IsRun(Init, run)
    ensures var s := After(Init, run);
            && (Sum(s.work, Ints) == |LiveTasks(s)| <==> Restarted(Init, run).work == |EndedUnstarted(s)|)
            && (Sum(s.load, Reals) == Sum(LivePredictions(s), Reals) <==> Restarted(Init, run).load == 0.0)
            && Restarted(Init, run).work >= 0
  {
    AccountsBalance(run);
    RestartsCount(Init, run);
  }

  predicate RestartsStarted(s: State, a: Action)
    requires Enabled(s, a)
  {
    a.RunRetry? && s.tasks[Q(s, Retry(a.w))[0]].started
  }

  /** Restarts of tasks that are not periodic. */
  ghost function Restarts(s: State, run: seq<Action>): nat
    requires IsRun(s, run)
    decreases |run|
  {
    if run == [] then 0
    else
      (if RestartsStarted(s, run[0]) && !s.tasks[Q(s, Retry(run[0].w))[0]].periodic then 1 else 0)
      + Restarts(Next(s, run[0]), run[1..])
  }

  /** The work left behind is their number. */
  lemma {:induction false} RestartsCount(s: State, run: seq<Action>)
    requires IsRun(s, run)
    ensures Restarted(s, run).work == Restarts(s, run)
    decreases |run|
  {
    if run != [] {
      RestartsCount(Next(s, run[0]), run[1..]);
    }
  }

  // ----- plugging -----

  /** Unfinished tasks that hold container `c`: those a plug check has let through. */
  function Admitted(s: State, c: Cid): set<Tid> {
    set t | t in s.tasks && s.tasks[t].container == Some(c)
            && (s.tasks[t].phase.Ready? || s.tasks[t].phase.Running? || s.tasks[t].phase.Waiting?)
  }

  lemma EnterAdmits(s: State, w: Wid, t: Tid, found: Option<Cid>, pred: real, resume: bool, c: Cid)
    requires t in s.tasks && ExecContainer(s.tasks[t], found).Some? && Unplugged(s, found) && c in s.plugged
    requires s.tasks[t].phase.Ready? || s.tasks[t].phase.Waiting?
    ensures Admitted(Enter(s, w, t, found, pred, resume), c) <= Admitted(s, c)
  {}

  lemma EndAdmits(s: State, w: Wid, t: Tid, again: Queue, c: Cid)
    requires t in s.tasks && s.tasks[t].container.Some?
    requires s.tasks[t].phase.Ready? || s.tasks[t].phase.Running?
    ensures Admitted(End(s, w, t, again, false), c) <= Admitted(s, c) - if s.tasks[t].periodic then {} else {t}
  {
    hide EndRecord, ExitOf;
    OnlyPeriodicReschedule(s, s.tasks[t]);
    EndRecordFacts(s.tasks[t], ExitOf(s, s.tasks[t]));
    assert End(s, w, t, again, false).tasks == s.tasks[t := EndRecord(s.tasks[t], ExitOf(s, s.tasks[t]), false)];
  }

  lemma RoutesAdmitNone(s: State, a: Action, c: Cid)
    requires Enabled(s, a) && c in s.plugged
    requires a.RouteRetry? || a.RouteLocal? || a.RouteGlobal?
    ensures Admitted(Next(s, a), c) <= Admitted(s, c)
  {}

  lemma HandsAdmitNone(s: State, a: Action, c: Cid)
    requires Enabled(s, a) && c in s.plugged
    requires a.PopLane? || a.Reject? || a.YieldTimed?
    ensures Admitted(Next(s, a), c) <= Admitted(s, c)
  {}

  lemma NewAdmitNone(s: State, a: Action, c: Cid)
    requires Enabled(s, a) && c in s.plugged
    requires a.Submit? || a.Spawn?
    ensures Admitted(Next(s, a), c) <= Admitted(s, c)
  {}

  lemma AwaitAdmitsNone(s: State, w: Wid, d: Tid, c: Cid)
    requires Enabled(s, Await(w, d)) && c in s.plugged
    ensures Admitted(Next(s, Await(w, d)), c) <= Admitted(s, c)
  {}

  lemma DiscardsAdmitNone(s: State, a: Action, c: Cid)
    requires Enabled(s, a) && c in s.plugged
    requires a.NetDone? || a.Free?
    ensures Admitted(Next(s, a), c) <= Admitted(s, c)
  {}

  lemma QueuesAdmitNone(s: State, a: Action, c: Cid)
    requires Enabled(s, a) && c in s.plugged
    requires a.KeepPeriodic? || a.PopPeriodic? || a.KeepRetry? || a.RetryGlobal? || a.Plug?
    ensures Admitted(Next(s, a), c) <= Admitted(s, c)
  {}

  lemma RunsAdmitNone(s: State, a: Action, c: Cid)
    requires Inv(s) && Enabled(s, a) && c in s.plugged
    requires a.Exec? || a.PopBlocked? || a.RunRetry?
    ensures Admitted(Next(s, a), c) <= Admitted(s, c)
  {
    hide Conserved, RecordsOk, HeapOk, LineageOk, AwaitOk, EventsOk, QueuesOk, AllConsumed, Enter;
    match a
    case Exec(w, found, pred) => EnterAdmits(s, w, Held(s, w), found, pred, s.tasks[Held(s, w)].started, c);
    case PopBlocked(w, l, found, pred) =>
      var t := Q(s, Blocked(w, l))[0];
      EntryFacts(s, Blocked(w, l), t);
      EnterAdmits(Take(s, w, Blocked(w, l), s.tasks[t]), w, t, found, pred, s.tasks[t].started, c);
    case RunRetry(w, d, found, pred) =>
      var t := Q(s, Retry(w))[0];
      EntryFacts(s, Retry(w), t);
      EnterAdmits(Take(s, w, Retry(w), s.tasks[t].(container := Some(d))), w, t, found, pred, false, c);
  }

  /** A periodic task that comes back from the network is bound to a container without a
      plug check. */
  function ReturnedOnto(s: State, a: Action, c: Cid): set<Tid>
    requires Enabled(s, a)
  {
    if a.NetReturn? && a.c == c && s.tasks[Q(s, NetOut)[a.k]].periodic then {Q(s, NetOut)[a.k]} else {}
  }

  lemma EndsAdmit(s: State, a: Action, c: Cid)
    requires Inv(s) && Enabled(s, a)
    requires a.Return? || a.NetReturn?
    ensures Admitted(Next(s, a), c) <= Admitted(s, c) + ReturnedOnto(s, a, c)
  {
    hide Conserved, RecordsOk, HeapOk, LineageOk, AwaitOk, EventsOk, QueuesOk, AllConsumed, End;
    match a
    case Return(w, again) => EndAdmits(LetGo(s, w, s.tasks[Held(s, w)]), w, Held(s, w), again, c);
    case NetReturn(k, w, d, again) =>
      var t := Q(s, NetOut)[k];
      EntryFacts(s, NetOut, t);
      NetEndAdmits(s, k, w, d, again, c);
  }

  lemma NetEndAdmits(s: State, k: nat, w: Wid, d: Cid, again: Queue, c: Cid)
    requires k < |Q(s, NetOut)| && Q(s, NetOut)[k] in s.tasks && s.tasks[Q(s, NetOut)[k]].phase.Ready?
    ensures var t := Q(s, NetOut)[k];
            var r := End(Drop(Put(s, t, s.tasks[t].(container := Some(d))), NetOut, k), w, t, again, false);
            && Admitted(r, c) <= Admitted(s, c) + (if d == c && s.tasks[t].periodic then {t} else {})
            && (d == c && s.tasks[t].periodic ==> t in Admitted(r, c))
  {
    hide End, EndRecord, ExitOf;
    var t := Q(s, NetOut)[k];
    var s1 := Drop(Put(s, t, s.tasks[t].(container := Some(d))), NetOut, k);
    EndAdmits(s1, w, t, again, c);
    assert Admitted(s1, c) <= Admitted(s, c) + if d == c then {t} else {};
    EndedRecord(s1, w, t, again);
  }

  lemma EndedRecord(s: State, w: Wid, t: Tid, again: Queue)
    requires t in s.tasks && s.tasks[t].container.Some?
    ensures var r := End(s, w, t, again, false);
            t in r.tasks && r.tasks[t].container == s.tasks[t].container && (s.tasks[t].periodic ==> r.tasks[t].phase == Ready)
  {
    OnlyPeriodicReschedule(s, s.tasks[t]);
    EndRecordFacts(s.tasks[t], ExitOf(s, s.tasks[t]));
  }

  /** A return from the network adds to the tasks admitted to `c` exactly when the task is
      periodic, is returned onto `c`, and was not on `c` before. */
  lemma NetReturnAdmitsIff(s: State, k: nat, w: Wid, d: Cid, again: Queue, c: Cid)
    requires Inv(s) && Enabled(s, NetReturn(k, w, d, again))
    ensures var t := Q(s, NetOut)[k];
            !(Admitted(Next(s, NetReturn(k, w, d, again)), c) <= Admitted(s, c))
            <==> s.tasks[t].periodic && d == c && s.tasks[t].container != Some(c)
  {
    hide Conserved, RecordsOk, HeapOk, LineageOk, AwaitOk, EventsOk, QueuesOk, AllConsumed, End;
    var t := Q(s, NetOut)[k];
    EntryFacts(s, NetOut, t);
    NetEndAdmits(s, k, w, d, again, c);
    assert t in Admitted(s, c) <==> s.tasks[t].container == Some(c);
  }

  lemma EventAdmitsNone(s: State, w: Wid, found: Option<Cid>, c: Cid)
    requires Inv(s) && Enabled(s, PopEvent(w, found)) && c in s.plugged
    ensures Admitted(Next(s, PopEvent(w, found)), c) <= Admitted(s, c)
  {
    hide Conserved, RecordsOk, HeapOk, LineageOk, AwaitOk, EventsOk, QueuesOk, AllConsumed, DoPopEvent;
    EventsAreLive(s, w);
    PopEventEffect(s, w, found);
  }

  lemma StepAdmits(s: State, a: Action, c: Cid)
    requires Inv(s) && Enabled(s, a) && Disciplined(s, a) && c in s.plugged
    ensures Admitted(Next(s, a), c) <= Admitted(s, c) + ReturnedOnto(s, a, c) && c in Next(s, a).plugged
  {
    hide Inv, Enabled, Disciplined, Next, Admitted;
    if a.Exec? || a.PopBlocked? || a.RunRetry? {
      RunsAdmitNone(s, a, c);
    } else if a.Return? || a.NetReturn? {
      EndsAdmit(s, a, c);
    } else if a.PopEvent? {
      EventAdmitsNone(s, a.w, a.found, c);
    } else if a.RouteRetry? || a.RouteLocal? || a.RouteGlobal? {
      RoutesAdmitNone(s, a, c);
    } else if a.PopLane? || a.Reject? || a.YieldTimed? {
      HandsAdmitNone(s, a, c);
    } else if a.Submit? || a.Spawn? {
      NewAdmitNone(s, a, c);
    } else if a.Await? {
      AwaitAdmitsNone(s, a.w, a.child, c);
    } else if a.NetDone? || a.Free? {
      DiscardsAdmitNone(s, a, c);
    } else {
      NothingIsLost(s, a);
      QueuesAdmitNone(s, a, c);
    }
    StaysPlugged(s, a, c);
  }

  lemma StaysPlugged(s: State, a: Action, c: Cid)
    requires Enabled(s, a) && c in s.plugged
    ensures c in Next(s, a).plugged
  {
    if Enters(a) {
      EntersStayPlugged(s, a, c);
    }
  }

  predicate Enters(a: Action) {
    a.Exec? || a.PopBlocked? || a.RunRetry? || a.PopEvent? || a.Return? || a.NetReturn?
  }

  lemma EntersStayPlugged(s: State, a: Action, c: Cid)
    requires Enabled(s, a) && c in s.plugged && Enters(a)
    ensures c in Next(s, a).plugged
  {}

  /** The periodic tasks that a run returns from the network onto `c`. */
  ghost function Returned(s: State, run: seq<Action>, c: Cid): set<Tid>
    requires IsRun(s, run)
    decreases |run|
  {
    if run == [] then {} else ReturnedOnto(s, run[0], c) + Returned(Next(s, run[0]), run[1..], c)
  }

  /** From the moment a container is plugged its admitted tasks only become fewer, but for
      periodic tasks that come back from the network onto it. */
  lemma {:induction false} PlugIsFinal(s: State, run: seq<Action>, c: Cid)
    requires Inv(s) && IsRun(s, run) && c in s.plugged
    ensures Admitted(After(s, run), c) <= Admitted(s, c) + Returned(s, run, c) && c in After(s, run).plugged
    decreases |run|
  {
    hide Inv, Admitted, ReturnedOnto;
    if run != [] {
      StepInv(s, run[0]);
      StepAdmits(s, run[0], c);
      PlugIsFinal(Next(s, run[0]), run[1..], c);
    }
  }

  /** In particular a coroutine that runs on a plugged container belongs to a task that
      was admitted when the plug was set, or to a periodic task returned onto it since. */
  lemma RunsOnPluggedWereAdmitted(before: seq<Action>, c: Cid, after: seq<Action>, t: Tid)
    requires IsRun(Init, before + [Plug(c)]) && IsRun(After(Init, before + [Plug(c)]), after)
    requires var s := After(After(Init, before + [Plug(c)]), after);
             t in s.tasks && s.tasks[t].phase == Running && s.tasks[t].container == Some(c)
    ensures var s := After(Init, before + [Plug(c)]); t in Admitted(s, c) || t in Returned(s, after, c)
  {
    InitInv();
    RunInv(Init, before + [Plug(c)]);
    AfterLast(Init, before, Plug(c));
    PlugIsFinal(After(Init, before + [Plug(c)]), after, c);
  }

  lemma {:induction false} AfterLast(s: State, run: seq<Action>, a: Action)
    requires IsRun(s, run + [a])
    ensures IsRun(s, run) && Enabled(After(s, run), a) && Disciplined(After(s, run), a)
    ensures After(s, run + [a]) == Next(After(s, run), a)
    decreases |run|
  {
    var all := run + [a];
    if run == [] {
      assert all[1..] == [];
    } else {
      assert all[0] == run[0] && all[1..] == run[1..] + [a];
      AfterLast(Next(s, run[0]), run[1..], a);
    }
  }
}
