/** The load of each single worker: it is the predictions of the worker's own live tasks, and
    what tasks that changed workers or were started again have left on it. */
module WorkerBooks {
  import opened Sums
  import opened Scheduler
  import opened Conservation
  import opened Completion
  import opened CompletionRuns
  import opened Accounting

  /** A task's part of worker `v`'s load: its prediction while it is live and with `v`. */
  function LoadAt(x: Task, v: Wid): real { if x.worker == v then LoadOf(x) else 0.0 }

  function LoadsAt(s: State, v: Wid): map<Tid, real> { map t | t in s.tasks :: LoadAt(s.tasks[t], v) }

  /** Worker `v`'s load is `d` more than the predictions of its own live tasks. */
  ghost predicate Exceeds(s: State, v: Wid, d: real) { Get(s.load, v, 0.0) == Sum(LoadsAt(s, v), Reals) + d }

  function PartOf(s: State, t: Tid, v: Wid): real { if t in s.tasks then LoadAt(s.tasks[t], v) else 0.0 }

  lemma OneRecord(s: State, r: State, t: Tid, y: Task, v: Wid, d: real, e: real)
    requires Exceeds(s, v, d) && r.tasks == s.tasks[t := y]
    requires Get(r.load, v, 0.0) - Get(s.load, v, 0.0) == LoadAt(y, v) - PartOf(s, t, v) + e
    ensures Exceeds(r, v, d + e)
  {
    assert LoadsAt(r, v) == LoadsAt(s, v)[t := LoadAt(y, v)];
    RealUpdate(LoadsAt(s, v), t, LoadAt(y, v));
  }

  lemma NoRecord(s: State, r: State, v: Wid, d: real)
    requires Exceeds(s, v, d) && r.tasks == s.tasks && r.load == s.load
    ensures Exceeds(r, v, d)
  {
    assert LoadsAt(r, v) == LoadsAt(s, v);
  }

  /** A prediction booked on worker `from` for a task that is with worker `to` now. */
  function Astray(x: Task, from: Wid, to: Wid, v: Wid): real {
    (if v == from then LoadOf(x) else 0.0) - (if v == to then LoadOf(x) else 0.0)
  }

  /** What a step leaves on worker `v`'s load that is not its own, or takes off it: a live
      task is taken over from another worker's lane, is started once more, or is ended by
      another worker when it comes back from the network. */
  function Drift(s: State, a: Action, v: Wid): real
    requires Enabled(s, a)
  {
    match a
    case PopLane(w) => Astray(s.tasks[Q(s, Lane(w))[0]], s.tasks[Q(s, Lane(w))[0]].worker, w, v)
    case RunRetry(w, _, _, _) => if v == w then LoadOf(s.tasks[Q(s, Retry(w))[0]]) else 0.0
    case NetReturn(k, w, _, _) => Astray(s.tasks[Q(s, NetOut)[k]], s.tasks[Q(s, NetOut)[k]].worker, w, v)
    case _ => 0.0
  }

  lemma HandDrifts(s: State, a: Action, v: Wid, d: real, b: Surplus)
    requires Inv(s) && Balanced(s, b) && Enabled(s, a) && Disciplined(s, a) && Exceeds(s, v, d)
    requires a.Reject? || a.RouteRetry? || a.RouteLocal? || a.RouteGlobal? || a.YieldTimed?
    ensures Exceeds(Next(s, a), v, d)
  {
    hide Conserved, RecordsOk, HeapOk, LineageOk, AwaitOk, EventsOk, QueuesOk, AllConsumed, Balanced, Exceeds;
    var t := Held(s, a.w);
    RecordFacts(s, t, b);
    var x := s.tasks[t];
    match a
    case Reject(_) => OneRecord(s, Next(s, a), t, x.(phase := Rejected, complete := true), v, d, 0.0);
    case RouteRetry(_) => OneRecord(s, Next(s, a), t, x.(routed := true), v, d, 0.0);
    case RouteLocal(_, c, _) => OneRecord(s, Next(s, a), t, x.(routed := true, container := Some(c)), v, d, 0.0);
    case RouteGlobal(_) => OneRecord(s, Next(s, a), t, x.(routed := true), v, d, 0.0);
    case YieldTimed(_, _) => OneRecord(s, Next(s, a), t, x.(phase := Ready), v, d, 0.0);
  }

  lemma QueueDrifts(s: State, a: Action, v: Wid, d: real)
    requires Inv(s) && Enabled(s, a) && Exceeds(s, v, d)
    requires a.PopLane? || a.KeepPeriodic? || a.PopPeriodic? || a.KeepRetry? || a.RetryGlobal? || a.Plug?
    ensures Exceeds(Next(s, a), v, d + Drift(s, a, v))
  {
    hide Inv, Exceeds;
    if a.PopLane? {
      var t := Q(s, Lane(a.w))[0];
      OneRecord(s, Next(s, a), t, s.tasks[t].(worker := a.w), v, d, Drift(s, a, v));
    } else if a.PopPeriodic? {
      var t := Q(s, Periodic(a.w, a.level))[0];
      OneRecord(s, Next(s, a), t, s.tasks[t].(routed := false), v, d, 0.0);
    } else {
      NoRecord(s, Next(s, a), v, d);
    }
  }

  lemma EnterDrifts(s: State, w: Wid, t: Tid, found: Option<Cid>, pred: real, resume: bool, v: Wid, d: real)
    requires Exceeds(s, v, d) && t in s.tasks && ExecContainer(s.tasks[t], found).Some?
    requires s.tasks[t].phase == Ready && s.tasks[t].worker == w && (resume ==> s.tasks[t].started)
    ensures Exceeds(Enter(s, w, t, found, pred, resume), v, d + if !resume && v == w then LoadOf(s.tasks[t]) else 0.0)
  {
    hide Exceeds, Enter;
    var r, y := Enter(s, w, t, found, pred, resume), Entered(s.tasks[t], found, pred, resume);
    EnterRecord(s, w, t, found, pred, resume);
    if resume {
      OneRecord(s, r, t, y, v, d, 0.0);
    } else {
      EnterLoad(s, w, t, found, pred);
      OneRecord(s, r, t, y, v, d, if v == w then LoadOf(s.tasks[t]) else 0.0);
    }
  }

  lemma EnterLoad(s: State, w: Wid, t: Tid, found: Option<Cid>, pred: real)
    requires t in s.tasks && ExecContainer(s.tasks[t], found).Some?
    ensures Enter(s, w, t, found, pred, false).load == s.load[w := Get(s.load, w, 0.0) + pred]
  {}

  lemma ExecDrifts(s: State, a: Action, v: Wid, d: real)
    requires Inv(s) && Enabled(s, a) && Exceeds(s, v, d)
    requires a.Exec? || a.PopBlocked? || a.RunRetry?
    ensures Exceeds(Next(s, a), v, d + Drift(s, a, v))
  {
    hide Conserved, RecordsOk, HeapOk, LineageOk, AwaitOk, EventsOk, QueuesOk, AllConsumed, Exceeds, Enter;
    match a
    case Exec(w, found, pred) =>
      var t := Held(s, w);
      EntryFacts(s, Hand(w), t);
      EnterDrifts(s, w, t, found, pred, s.tasks[t].started, v, d);
    case PopBlocked(w, l, found, pred) =>
      var t := Q(s, Blocked(w, l))[0];
      EntryFacts(s, Blocked(w, l), t);
      var s1 := Take(s, w, Blocked(w, l), s.tasks[t]);
      OneRecord(s, s1, t, s.tasks[t], v, d, 0.0);
      EnterDrifts(s1, w, t, found, pred, s.tasks[t].started, v, d);
    case RunRetry(w, c, found, pred) =>
      var t := Q(s, Retry(w))[0];
      var x := s.tasks[t].(container := Some(c));
      EntryFacts(s, Retry(w), t);
      var s1 := Take(s, w, Retry(w), x);
      OneRecord(s, s1, t, x, v, d, 0.0);
      EnterDrifts(s1, w, t, found, pred, false, v, d);
  }

  lemma NewDrifts(s: State, a: Action, v: Wid, d: real)
    requires Exceeds(s, v, d) && Enabled(s, a) && (a.Submit? || a.Spawn?)
    ensures Exceeds(Next(s, a), v, d)
  {
    hide Exceeds;
    match a
    case Submit(t, ad, w, periodic, faf, reply) => OneRecord(s, Next(s, a), t, NewTask(None, None, ad, w, periodic, faf, reply), v, d, 0.0);
    case Spawn(w, t, ad, dest, faf) =>
      var p := Held(s, w);
      OneRecord(s, Next(s, a), t, NewTask(Some(p), Some(s.tasks[p].addr), ad, dest, false, faf, ToFuture), v, d, 0.0);
  }

  /** EndTask on worker `w` takes the prediction off `w`'s load. */
  lemma EndDrifts(s: State, w: Wid, t: Tid, again: Queue, v: Wid, d: real)
    requires Exceeds(s, v, d) && t in s.tasks && s.tasks[t].container.Some?
    requires s.tasks[t].phase == Ready || s.tasks[t].phase == Running
    requires !s.tasks[t].started ==> s.tasks[t].predicted == 0.0
    ensures Exceeds(End(s, w, t, again, false), v, d + Astray(s.tasks[t], s.tasks[t].worker, w, v))
  {
    hide Exceeds, EndRecord, ExitOf;
    var x := s.tasks[t];
    OnlyPeriodicReschedule(s, x);
    EndRecordFacts(x, ExitOf(s, x));
    OneRecord(s, End(s, w, t, again, false), t, EndRecord(x, ExitOf(s, x), false), v, d, Astray(x, x.worker, w, v));
  }

  lemma EndingDrifts(s: State, a: Action, v: Wid, d: real, b: Surplus)
    requires Inv(s) && Balanced(s, b) && Enabled(s, a) && Exceeds(s, v, d)
    requires a.Return? || a.NetReturn?
    ensures Exceeds(Next(s, a), v, d + Drift(s, a, v))
  {
    hide Conserved, RecordsOk, HeapOk, LineageOk, AwaitOk, EventsOk, QueuesOk, AllConsumed, Balanced, End, Exceeds;
    match a
    case Return(w, again) =>
      var t := Held(s, w);
      RecordFacts(s, t, b);
      EntryFacts(s, Hand(w), t);
      var s1 := LetGo(s, w, s.tasks[t]);
      OneRecord(s, s1, t, s.tasks[t], v, d, 0.0);
      EndDrifts(s1, w, t, again, v, d);
    case NetReturn(k, w, c, again) =>
      var t := Q(s, NetOut)[k];
      EntryFacts(s, NetOut, t);
      RecordFacts(s, t, b);
      var y := s.tasks[t].(container := Some(c));
      var s1 := Drop(Put(s, t, y), NetOut, k);
      OneRecord(s, s1, t, y, v, d, 0.0);
      EndDrifts(s1, w, t, again, v, d);
  }

  lemma OtherDrifts(s: State, a: Action, v: Wid, d: real, b: Surplus)
    requires Inv(s) && Balanced(s, b) && Enabled(s, a) && Exceeds(s, v, d)
    requires a.Await? || a.NetDone? || a.Free?
    ensures Exceeds(Next(s, a), v, d)
  {
    hide Conserved, RecordsOk, HeapOk, LineageOk, AwaitOk, EventsOk, QueuesOk, AllConsumed, Balanced, Exceeds;
    match a
    case Await(w, c) =>
      var p := Held(s, w);
      RecordFacts(s, p, b);
      AwaitSuspends(s, p, c);
      OneRecord(s, Next(s, a), p, s.tasks[p].(phase := Waiting(c)), v, d, 0.0);
    case NetDone(k) =>
      var t := Q(s, NetReply)[k];
      NetReplyFacts(s, t);
      OneRecord(s, Next(s, a), t, s.tasks[t].(phase := Ended, freed := true), v, d, 0.0);
    case Free(t) =>
      OneRecord(s, Next(s, a), t, s.tasks[t].(freed := true), v, d, 0.0);
  }

  lemma EventDrifts(s: State, w: Wid, found: Option<Cid>, v: Wid, d: real, b: Surplus)
    requires Inv(s) && Balanced(s, b) && Enabled(s, PopEvent(w, found)) && Exceeds(s, v, d)
    ensures Exceeds(Next(s, PopEvent(w, found)), v, d)
  {
    hide Conserved, RecordsOk, HeapOk, LineageOk, AwaitOk, EventsOk, QueuesOk, AllConsumed, Balanced, DoPopEvent, Exceeds;
    EventsAreLive(s, w);
    PopEventEffect(s, w, found);
    var f := E(s, w)[0];
    var p := s.heap[s.tasks[f].parentAddr.value];
    var fy := s.tasks[f].(complete := true, consumed := true);
    var s1 := Put(s, f, fy);
    OneRecord(s, s1, f, fy, v, d, 0.0);
    RecordFacts(s, p, b);
    OneRecord(s1, Next(s, PopEvent(w, found)), p, s.tasks[p].(phase := Running, container := ExecContainer(s.tasks[p], found)), v, d, 0.0);
  }

  lemma StepDrifts(s: State, a: Action, v: Wid, d: real, b: Surplus)
    requires Inv(s) && Balanced(s, b) && Enabled(s, a) && Disciplined(s, a) && Exceeds(s, v, d)
    ensures Exceeds(Next(s, a), v, d + Drift(s, a, v))
  {
    hide Inv, Balanced, Enabled, Next, Disciplined, Exceeds;
    NothingIsLost(s, a);
    if a.Reject? || a.RouteRetry? || a.RouteLocal? || a.RouteGlobal? || a.YieldTimed? {
      HandDrifts(s, a, v, d, b);
    } else if a.Exec? || a.PopBlocked? || a.RunRetry? {
      ExecDrifts(s, a, v, d);
    } else if a.Submit? || a.Spawn? {
      NewDrifts(s, a, v, d);
    } else if a.Return? || a.NetReturn? {
      EndingDrifts(s, a, v, d, b);
    } else if a.Await? || a.NetDone? || a.Free? {
      OtherDrifts(s, a, v, d, b);
    } else if a.PopEvent? {
      EventDrifts(s, a.w, a.found, v, d, b);
    } else {
      QueueDrifts(s, a, v, d);
    }
  }

  ghost function TotalDrift(s: State, run: seq<Action>, v: Wid): real
    requires IsRun(s, run)
    decreases |run|
  {
    if run == [] then 0.0 else Drift(s, run[0], v) + TotalDrift(Next(s, run[0]), run[1..], v)
  }

  lemma {:induction false} RunDrifts(s: State, run: seq<Action>, v: Wid, d: real, b: Surplus)
    requires Inv(s) && Balanced(s, b) && IsRun(s, run) && Exceeds(s, v, d)
    ensures Exceeds(After(s, run), v, d + TotalDrift(s, run, v))
    decreases |run|
  {
    hide Inv, Balanced, Exceeds, Plus, Overbooked, Drift, Enabled, Disciplined, Next;
    if run != [] {
      StepInv(s, run[0]);
      StepBalances(s, run[0], b);
      StepDrifts(s, run[0], v, d, b);
      RunDrifts(Next(s, run[0]), run[1..], v, d + Drift(s, run[0], v), Plus(b, Overbooked(s, run[0])));
    }
  }

  /** On every disciplined run each worker's load is the predictions of its own live tasks plus
      what has drifted onto it. */
  lemma WorkerLoads(run: seq<Action>, v: Wid)
    requires IsRun(Init, run)
    ensures var s := After(Init, run);
            Get(s.load, v, 0.0) == Sum(LoadsAt(s, v), Reals) + TotalDrift(Init, run, v)
  {
    hide Inv, Balanced, Sum, IsRun, After, TotalDrift;
    InitInv();
    InitBalances();
    assert Exceeds(Init, v, 0.0) by { InitExceeds(v); }
    RunDrifts(Init, run, v, 0.0, NoSurplus);
  }

  lemma InitExceeds(v: Wid)
    ensures Exceeds(Init, v, 0.0)
  {
    assert LoadsAt(Init, v) == map[];
  }

  /** From a reachable state in which every load is right a step leaves them right exactly when
      it takes no live task over from another worker, starts none again, and ends none for
      another worker, unless its prediction is zero. */
  lemma StepKeepsLoadsIff(run: seq<Action>, a: Action)
    requires IsRun(Init, run) && Enabled(After(Init, run), a) && Disciplined(After(Init, run), a)
    requires forall v :: Exceeds(After(Init, run), v, 0.0)
    ensures var s := After(Init, run);
            (forall v :: Exceeds(Next(s, a), v, 0.0)) <==> !LeavesDrift(s, a)
  {
    hide Inv, Balanced, IsRun, After, Enabled, Disciplined, Next, Exceeds, LeavesDrift;
    InitInv();
    InitBalances();
    RunInv(Init, run);
    RunBalances(Init, run, NoSurplus);
    KeepsLoadsIff(After(Init, run), a, Plus(NoSurplus, Restarted(Init, run)));
  }

  lemma KeepsLoadsIff(s: State, a: Action, b: Surplus)
    requires Inv(s) && Balanced(s, b) && Enabled(s, a) && Disciplined(s, a) && forall v :: Exceeds(s, v, 0.0)
    ensures (forall v :: Exceeds(Next(s, a), v, 0.0)) <==> !LeavesDrift(s, a)
  {
    hide Inv, Balanced, Enabled, Disciplined, Next, Exceeds, LeavesDrift, Drift;
    forall v ensures Exceeds(Next(s, a), v, 0.0) <==> Drift(s, a, v) == 0.0 {
      StepDrifts(s, a, v, 0.0, b);
      ExceedsOnce(Next(s, a), v, Drift(s, a, v));
    }
    DriftIff(s, a);
  }

  lemma ExceedsOnce(s: State, v: Wid, d: real)
    requires Exceeds(s, v, 0.0 + d)
    ensures Exceeds(s, v, 0.0) <==> d == 0.0
  {}

  predicate LeavesDrift(s: State, a: Action)
    requires Enabled(s, a)
  {
    match a
    case PopLane(w) => var x := s.tasks[Q(s, Lane(w))[0]]; Live(x) && x.predicted != 0.0 && x.worker != w
    case RunRetry(w, _, _, _) => var x := s.tasks[Q(s, Retry(w))[0]]; Live(x) && x.predicted != 0.0
    case NetReturn(k, w, _, _) => var x := s.tasks[Q(s, NetOut)[k]]; Live(x) && x.predicted != 0.0 && x.worker != w
    case _ => false
  }

  lemma DriftIff(s: State, a: Action)
    requires Enabled(s, a)
    ensures (forall v :: Drift(s, a, v) == 0.0) <==> !LeavesDrift(s, a)
  {
    match a
    case PopLane(w) =>
      var x := s.tasks[Q(s, Lane(w))[0]];
      assert forall v :: Drift(s, a, v) == Astray(x, x.worker, w, v);
      AstrayIff(x, w);
    case NetReturn(k, w, _, _) =>
      var x := s.tasks[Q(s, NetOut)[k]];
      assert forall v :: Drift(s, a, v) == Astray(x, x.worker, w, v);
      AstrayIff(x, w);
    case RunRetry(w, _, _, _) => assert Drift(s, a, w) == LoadOf(s.tasks[Q(s, Retry(w))[0]]);
    case _ =>
  }

  lemma AstrayIff(x: Task, w: Wid)
    ensures (forall v :: Astray(x, x.worker, w, v) == 0.0) <==> x.worker == w || LoadOf(x) == 0.0
  {
    assert Astray(x, x.worker, w, w) == if x.worker == w then 0.0 else -LoadOf(x);
  }
}
