/** Where each step of the scheduler takes the task it handles, and what a task has behind it
    when it runs. */
module Itinerary {
  import opened Sums
  import opened Scheduler
  import opened Conservation
  import opened Completion
  import opened CompletionRuns
  import opened PathFrames
  import opened Lineage
  import opened Waking
  import PlugLimits

  // ----- one step -----

  /** Entry `k` of queue `from`, task `t`, goes to the back of `to`, if to any queue, and
      nothing else moves. */
  ghost predicate Moved(s: State, r: State, t: Tid, from: Queue, k: nat, to: Option<Queue>) {
    && k < |Q(s, from)| && Q(s, from)[k] == t && r.events == s.events
    && forall q :: Q(r, q) == (if q == from then Q(s, q)[..k] + Q(s, q)[k + 1..] else Q(s, q)) + if to == Some(q) then [t] else []
  }

  /** The steps but EndTask, for which see Answers: taken from a queue, the task is in the
      worker's hand; routed, it is in the hand still or in the lane of the worker chosen, in
      the retry queue or on its way to other nodes; yielding, it sleeps in the queue chosen. */
  ghost predicate Goes(s: State, r: State, a: Action)
    requires Enabled(s, a) && Handles(a)
  {
    var t := Actor(s, a);
    match a
    case PopLane(w) => Moved(s, r, t, Lane(w), 0, Some(Hand(w)))
    case PopPeriodic(w, l) => Moved(s, r, t, Periodic(w, l), 0, Some(Hand(w)))
    case PopBlocked(w, l, _, _) => Moved(s, r, t, Blocked(w, l), 0, Some(Hand(w)))
    case RunRetry(w, _, _, _) => Moved(s, r, t, Retry(w), 0, Some(Hand(w)))
    case Exec(w, _, _) => Moved(s, r, t, Hand(w), 0, Some(Hand(w)))
    case RouteLocal(w, c, dest) =>
      && Moved(s, r, t, Hand(w), 0, Some(if dest == w then Hand(w) else Lane(dest)))
      && t in r.tasks && r.tasks[t].container == Some(c)
    case RouteRetry(w) => Moved(s, r, t, Hand(w), 0, Some(Retry(w)))
    case RouteGlobal(w) => Moved(s, r, t, Hand(w), 0, Some(NetOut))
    case RetryGlobal(w) => Moved(s, r, t, Retry(w), 0, Some(NetOut))
    case KeepRetry(w) => Moved(s, r, t, Retry(w), 0, Some(Retry(w)))
    case KeepPeriodic(w, l) => Moved(s, r, t, Periodic(w, l), 0, Some(Periodic(w, l)))
    case YieldTimed(w, l) => Moved(s, r, t, Hand(w), 0, Some(Periodic(w, l)))
    case Reject(w) => Moved(s, r, t, Hand(w), 0, None)
    case DropUnresolved(w) => Moved(s, r, t, Hand(w), 0, None)
    case YieldZero(w) => Moved(s, r, t, Hand(w), 0, None)
    case NetDone(k) => Moved(s, r, t, NetReply, k, None)
    case _ => true
  }

  lemma PushMoved(s: State, q: Queue, k: nat, to: Queue, r: State)
    requires k < |Q(s, q)| && r.queues == Push(Drop(s, q, k), to, Q(s, q)[k]).queues && r.events == s.events
    ensures Moved(s, r, Q(s, q)[k], q, k, Some(to))
  {}

  lemma DropMoved(s: State, q: Queue, k: nat, r: State)
    requires k < |Q(s, q)| && r.queues == Drop(s, q, k).queues && r.events == s.events
    ensures Moved(s, r, Q(s, q)[k], q, k, None)
  {}

  lemma StayMoved(s: State, w: Wid, r: State)
    requires |Q(s, Hand(w))| == 1 && r.queues == s.queues && r.events == s.events
    ensures Moved(s, r, Q(s, Hand(w))[0], Hand(w), 0, Some(Hand(w)))
  {
    assert forall q :: Q(r, q) == Q(s, q);
  }

  lemma StepGoes(s: State, a: Action)
    requires Enabled(s, a) && Handles(a)
    ensures Goes(s, Next(s, a), a)
  {
    hide Enabled, Next, Goes;
    if a.PopBlocked? || a.RunRetry? || a.Exec? {
      RunGoes(s, a);
    } else if a.RouteLocal? {
      LocalGoes(s, a.w, a.c, a.dest);
    } else if a.PopLane? || a.PopPeriodic? || a.KeepPeriodic? || a.KeepRetry? || a.RetryGlobal? {
      QueueGoes(s, a);
    } else if a.Return? || a.NetReturn? {
      EndGoes(s, a);
    } else {
      HandGoes(s, a);
    }
  }

  lemma EndGoes(s: State, a: Action)
    requires Enabled(s, a) && (a.Return? || a.NetReturn?)
    ensures Goes(s, Next(s, a), a)
  {}

  lemma QueueGoes(s: State, a: Action)
    requires Enabled(s, a) && (a.PopLane? || a.PopPeriodic? || a.KeepPeriodic? || a.KeepRetry? || a.RetryGlobal?)
    ensures Goes(s, Next(s, a), a)
  {
    hide Moved;
    var r := Next(s, a);
    match a
    case PopLane(w) => PushMoved(s, Lane(w), 0, Hand(w), r);
    case PopPeriodic(w, l) => PushMoved(s, Periodic(w, l), 0, Hand(w), r);
    case RetryGlobal(w) => PushMoved(s, Retry(w), 0, NetOut, r);
    case KeepRetry(w) => PushMoved(s, Retry(w), 0, Retry(w), r);
    case KeepPeriodic(w, l) => PushMoved(s, Periodic(w, l), 0, Periodic(w, l), r);
  }

  lemma HandGoes(s: State, a: Action)
    requires Enabled(s, a)
    requires a.RouteRetry? || a.RouteGlobal? || a.YieldTimed? || a.Reject? || a.DropUnresolved? || a.YieldZero? || a.NetDone?
    ensures Goes(s, Next(s, a), a)
  {
    hide Moved, Give, LetGo;
    var r := Next(s, a);
    match a
    case RouteRetry(w) => GivesAway(s, w, s.tasks[Held(s, w)].(routed := true), Retry(w));
    case RouteGlobal(w) => GivesAway(s, w, s.tasks[Held(s, w)].(routed := true), NetOut);
    case YieldTimed(w, l) => GivesAway(s, w, s.tasks[Held(s, w)].(phase := Ready), Periodic(w, l));
    case Reject(w) => LetsGo(s, w, s.tasks[Held(s, w)].(phase := Rejected, complete := true));
    case DropUnresolved(w) => LetsGo(s, w, s.tasks[Held(s, w)]);
    case YieldZero(w) => LetsGo(s, w, s.tasks[Held(s, w)].(phase := Ready));
    case NetDone(k) => DropMoved(s, NetReply, k, r);
  }

  lemma RunGoes(s: State, a: Action)
    requires Enabled(s, a) && (a.PopBlocked? || a.RunRetry? || a.Exec?)
    ensures Goes(s, Next(s, a), a)
  {
    hide Moved, Enter;
    match a
    case PopBlocked(w, l, found, pred) =>
      var q := Blocked(w, l);
      var t := Q(s, q)[0];
      EnterRecord(Take(s, w, q, s.tasks[t]), w, t, found, pred, s.tasks[t].started);
      PutsNothing(s, t, s.tasks[t], q, w);
      PushMoved(s, q, 0, Hand(w), Next(s, a));
    case RunRetry(w, c, found, pred) =>
      var q := Retry(w);
      var t := Q(s, q)[0];
      var y := s.tasks[t].(container := Some(c));
      EnterRecord(Take(s, w, q, y), w, t, found, pred, false);
      PutsNothing(s, t, y, q, w);
      PushMoved(s, q, 0, Hand(w), Next(s, a));
    case Exec(w, found, pred) =>
      EnterRecord(s, w, Held(s, w), found, pred, s.tasks[Held(s, w)].started);
      StayMoved(s, w, Next(s, a));
  }

  lemma PutsNothing(s: State, t: Tid, y: Task, q: Queue, w: Wid)
    requires Q(s, q) != [] && Q(s, q)[0] == t
    ensures var m := Take(s, w, q, y); m.queues == Push(Drop(s, q, 0), Hand(w), t).queues && m.events == s.events
  {}

  lemma LocalGoes(s: State, w: Wid, c: Cid, dest: Wid)
    requires Enabled(s, RouteLocal(w, c, dest))
    ensures Goes(s, Next(s, RouteLocal(w, c, dest)), RouteLocal(w, c, dest))
  {
    hide Moved, Push, Drop;
    var x := s.tasks[Held(s, w)].(routed := true, container := Some(c));
    var r := Next(s, RouteLocal(w, c, dest));
    PlugLimits.RecordGiven(s, w, x, Lane(dest));
    if dest == w {
      StayMoved(s, w, r);
    } else {
      GivesAway(s, w, x, Lane(dest));
    }
  }

  lemma GivesAway(s: State, w: Wid, x: Task, to: Queue)
    requires |Q(s, Hand(w))| == 1
    ensures Moved(s, Give(s, w, x, to), Held(s, w), Hand(w), 0, Some(to))
  {
    hide Moved;
    PushMoved(s, Hand(w), 0, to, Give(s, w, x, to));
  }

  lemma LetsGo(s: State, w: Wid, x: Task)
    requires |Q(s, Hand(w))| == 1
    ensures Moved(s, LetGo(s, w, x), Held(s, w), Hand(w), 0, None)
  {
    hide Moved;
    DropMoved(s, Hand(w), 0, LetGo(s, w, x));
  }

  /** A new task is the last of the lane chosen for it, at its address, with the kind and the
      way of answering asked for; a subtask knows its parent, and is answered through it. */
  lemma NewTasksGo(s: State, a: Action)
    requires Enabled(s, a) && (a.Submit? || a.Spawn?)
    ensures var r := Next(s, a);
            var lane := Lane(if a.Submit? then a.w else a.dest);
            && (forall q :: Q(r, q) == Q(s, q) + if q == lane then [a.t] else [])
            && a.t in r.tasks && r.tasks[a.t].addr == a.a && r.heap == s.heap[a.a := a.t]
            && r.tasks[a.t].fireAndForget == a.faf && r.tasks[a.t].phase == Ready && !r.tasks[a.t].routed
            && (a.Submit? ==> r.tasks[a.t].reply == a.reply && r.tasks[a.t].periodic == a.periodic && r.tasks[a.t].parent == None)
            && (a.Spawn? ==> r.tasks[a.t].reply == ToFuture && !r.tasks[a.t].periodic
                             && r.tasks[a.t].parent == Some(Held(s, a.w)) && r.tasks[a.t].parentAddr == Some(s.tasks[Held(s, a.w)].addr))
  {
    forall q ensures Q(Next(s, a), q) == Q(s, q) + if q == Lane(if a.Submit? then a.w else a.dest) then [a.t] else [] {}
  }

  // ----- routed before it runs -----

  /** Queues a task enters only after it has been routed. */
  predicate PastRouting(q: Queue) { q.Retry? || q.NetOut? || q.Blocked? }

  predicate InCoroutine(x: Task) { x.phase.Running? || x.phase.Waiting? }

  ghost predicate AllRouted(s: State) {
    && (forall t :: t in s.tasks && InCoroutine(s.tasks[t]) ==> s.tasks[t].routed)
    && (forall q, t :: t in Q(s, q) && t in s.tasks && PastRouting(q) ==> s.tasks[t].routed)
  }

  /** The flag after an action that handles a task. */
  predicate FlagAfter(a: Action, x: Task, y: Task) {
    y.routed == (if a.RouteRetry? || a.RouteLocal? || a.RouteGlobal? then true else if a.PopPeriodic? then false else x.routed)
  }

  lemma RoutedAfter(s: State, a: Action)
    requires Enabled(s, a) && Handles(a)
    ensures var t, r := Actor(s, a), Next(s, a); t in r.tasks && FlagAfter(a, s.tasks[t], r.tasks[t])
  {
    hide Enabled, Next, FlagAfter;
    if a.Exec? || a.PopBlocked? || a.RunRetry? {
      RoutedByRun(s, a);
    } else if a.Return? || a.NetReturn? {
      RoutedByEnd(s, a);
    } else if a.RouteLocal? {
      RoutedByLocal(s, a.w, a.c, a.dest);
    } else if a.PopLane? || a.PopPeriodic? || a.KeepPeriodic? || a.KeepRetry? || a.RetryGlobal? || a.NetDone? {
      RoutedByQueue(s, a);
    } else {
      RoutedByHand(s, a);
    }
  }

  lemma RoutedByRun(s: State, a: Action)
    requires Enabled(s, a) && (a.Exec? || a.PopBlocked? || a.RunRetry?)
    ensures var t, r := Actor(s, a), Next(s, a); t in r.tasks && FlagAfter(a, s.tasks[t], r.tasks[t])
  {
    hide Enter;
    match a
    case Exec(w, found, pred) => EnterRecord(s, w, Held(s, w), found, pred, s.tasks[Held(s, w)].started);
    case PopBlocked(w, l, found, pred) =>
      var t := Q(s, Blocked(w, l))[0];
      EnterRecord(Take(s, w, Blocked(w, l), s.tasks[t]), w, t, found, pred, s.tasks[t].started);
    case RunRetry(w, d, found, pred) =>
      var t := Q(s, Retry(w))[0];
      EnterRecord(Take(s, w, Retry(w), s.tasks[t].(container := Some(d))), w, t, found, pred, false);
  }

  lemma RoutedByEnd(s: State, a: Action)
    requires Enabled(s, a) && (a.Return? || a.NetReturn?)
    ensures var t, r := Actor(s, a), Next(s, a); t in r.tasks && FlagAfter(a, s.tasks[t], r.tasks[t])
  {
    hide ExitOf, EndQueues;
    var t := Actor(s, a);
    var s1 := if a.Return? then LetGo(s, a.w, s.tasks[t]) else Drop(Put(s, t, s.tasks[t].(container := Some(a.c))), NetOut, a.k);
    EndFlag(s1.tasks[t], ExitOf(s1, s1.tasks[t]));
  }

  lemma EndFlag(x: Task, e: Exit)
    ensures EndRecord(x, e, false).routed == x.routed
  {
    match e
    case Reschedule =>
    case Discard =>
    case SendReply =>
    case TransferShm =>
    case NotifyParent(_) =>
    case CompleteHere =>
  }

  lemma RoutedByLocal(s: State, w: Wid, c: Cid, dest: Wid)
    requires Enabled(s, RouteLocal(w, c, dest))
    ensures var a := RouteLocal(w, c, dest);
            var t, r := Actor(s, a), Next(s, a); t in r.tasks && FlagAfter(a, s.tasks[t], r.tasks[t])
  {
    hide Give, Put;
    PlugLimits.RecordGiven(s, w, s.tasks[Held(s, w)].(routed := true, container := Some(c)), Lane(dest));
  }

  lemma RoutedByQueue(s: State, a: Action)
    requires Enabled(s, a)
    requires a.PopLane? || a.PopPeriodic? || a.KeepPeriodic? || a.KeepRetry? || a.RetryGlobal? || a.NetDone?
    ensures var t, r := Actor(s, a), Next(s, a); t in r.tasks && FlagAfter(a, s.tasks[t], r.tasks[t])
  {}

  lemma RoutedByHand(s: State, a: Action)
    requires Enabled(s, a)
    requires a.Reject? || a.RouteRetry? || a.RouteGlobal? || a.DropUnresolved? || a.YieldTimed? || a.YieldZero?
    ensures var t, r := Actor(s, a), Next(s, a); t in r.tasks && FlagAfter(a, s.tasks[t], r.tasks[t])
  {}

  /** The actions that may handle a task and leave it unrouted. */
  predicate MayLeaveUnrouted(a: Action) {
    a.PopLane? || a.PopPeriodic? || a.KeepPeriodic? || a.Reject? || a.DropUnresolved? || a.NetDone?
  }

  lemma OnlyTheseLeave(s: State, a: Action)
    requires Inv(s) && AllRouted(s) && Enabled(s, a) && Handles(a)
    requires Actor(s, a) in Next(s, a).tasks && !Next(s, a).tasks[Actor(s, a)].routed
    ensures MayLeaveUnrouted(a) && Actor(s, a) in Q(s, From(a))
    ensures a.PopPeriodic? || !s.tasks[Actor(s, a)].routed
  {
    hide Inv, Next;
    var t := Actor(s, a);
    assert t in Q(s, From(a)) by { FromHolds(s, a); }
    RoutedAfter(s, a);
  }

  lemma LeftUnrouted(s: State, a: Action)
    requires Inv(s) && Enabled(s, a) && MayLeaveUnrouted(a)
    ensures var t, r := Actor(s, a), Next(s, a); t in r.tasks && !InCoroutine(r.tasks[t])
  {
    hide Inv, Enabled, Next;
    if a.NetDone? {
      DoneEnds(s, a.k);
    } else {
      KeepsPhase(s, a);
      ReadyThen(s, a);
    }
  }

  lemma ReadyThen(s: State, a: Action)
    requires Inv(s) && Enabled(s, a) && MayLeaveUnrouted(a) && !a.NetDone?
    ensures s.tasks[Actor(s, a)].phase == Ready
  {
    hide Inv;
    var t := Actor(s, a);
    assert t in Q(s, From(a)) by { FromHolds(s, a); }
    EntryFacts(s, From(a), t);
  }

  lemma DoneEnds(s: State, k: nat)
    requires Enabled(s, NetDone(k))
    ensures var t, r := Q(s, NetReply)[k], Next(s, NetDone(k)); t in r.tasks && r.tasks[t].phase == Ended
  {}

  lemma KeepsPhase(s: State, a: Action)
    requires Enabled(s, a) && (a.PopLane? || a.PopPeriodic? || a.KeepPeriodic? || a.Reject? || a.DropUnresolved?)
    ensures var t, r := Actor(s, a), Next(s, a);
            t in r.tasks && (r.tasks[t].phase == s.tasks[t].phase || r.tasks[t].phase == Rejected)
  {}

  lemma GoesNoFurther(s: State, a: Action, r: State, q: Queue)
    requires Enabled(s, a) && MayLeaveUnrouted(a) && Goes(s, r, a) && PastRouting(q) && Actor(s, a) !in Q(s, q)
    ensures Actor(s, a) !in Q(r, q)
  {
    hide Enabled, Moved, Actor;
    var t := Actor(s, a);
    match a
    case PopLane(w) => Elsewhere(s, r, t, Lane(w), 0, Some(Hand(w)), q);
    case PopPeriodic(w, l) => Elsewhere(s, r, t, Periodic(w, l), 0, Some(Hand(w)), q);
    case KeepPeriodic(w, l) => Elsewhere(s, r, t, Periodic(w, l), 0, Some(Periodic(w, l)), q);
    case Reject(w) => Elsewhere(s, r, t, Hand(w), 0, None, q);
    case DropUnresolved(w) => Elsewhere(s, r, t, Hand(w), 0, None, q);
    case NetDone(k) => Elsewhere(s, r, t, NetReply, k, None, q);
  }

  lemma Elsewhere(s: State, r: State, t: Tid, from: Queue, k: nat, to: Option<Queue>, q: Queue)
    requires Moved(s, r, t, from, k, to) && q != from && to != Some(q)
    ensures Q(r, q) == Q(s, q)
  {
    assert Q(r, q) == Q(s, q) + [];
  }

  lemma UnroutedStays(s: State, a: Action)
    requires Inv(s) && AllRouted(s) && Enabled(s, a) && Handles(a)
    requires Actor(s, a) in Next(s, a).tasks && !Next(s, a).tasks[Actor(s, a)].routed
    ensures !InCoroutine(Next(s, a).tasks[Actor(s, a)])
    ensures forall q :: PastRouting(q) ==> Actor(s, a) !in Q(Next(s, a), q)
  {
    hide Inv, Enabled, Next, Goes, InCoroutine;
    var t := Actor(s, a);
    OnlyTheseLeave(s, a);
    LeftUnrouted(s, a);
    StepGoes(s, a);
    forall q | PastRouting(q) ensures t !in Q(Next(s, a), q) {
      if t in Q(s, q) { NotInBoth(s, From(a), q, t); }
      GoesNoFurther(s, a, Next(s, a), q);
    }
  }

  lemma NotInBoth(s: State, p: Queue, q: Queue, t: Tid)
    requires Inv(s) && t in Q(s, p) && t in Q(s, q)
    ensures p == q
  {
    if p != q { OneQueue(s, p, q, t); }
  }

  lemma StepRouted(s: State, a: Action)
    requires Inv(s) && Enabled(s, a) && Disciplined(s, a) && AllRouted(s)
    ensures AllRouted(Next(s, a))
  {
    hide Inv, Enabled, Disciplined, Next, AllRouted;
    if Handles(a) {
      ActorMoves(s, a);
      if !Next(s, a).tasks[Actor(s, a)].routed { UnroutedStays(s, a); }
      OneRouted(s, Next(s, a), Actor(s, a));
    } else if a.PopEvent? {
      EventRouted(s, a.w, a.found);
    } else if a.Submit? || a.Spawn? {
      NewRouted(s, a);
    } else {
      OtherRouted(s, a);
    }
  }

  lemma OneRouted(s: State, r: State, t: Tid)
    requires AllRouted(s) && Moves(s, r, t)
    requires r.tasks[t].routed || (!InCoroutine(r.tasks[t]) && forall q :: PastRouting(q) ==> t !in Q(r, q))
    ensures AllRouted(r)
  {
    forall q, u | u in Q(r, q) && u in r.tasks && PastRouting(q) ensures r.tasks[u].routed {
      if u != t { assert u in Q(s, q); }
    }
  }

  lemma EventRouted(s: State, w: Wid, found: Option<Cid>)
    requires Inv(s) && Enabled(s, PopEvent(w, found)) && AllRouted(s)
    ensures AllRouted(Next(s, PopEvent(w, found)))
  {
    hide Inv, DoPopEvent;
    EventsAreLive(s, w);
    PopEventEffect(s, w, found);
    var r := DoPopEvent(s, w, found);
    forall q, u | u in Q(r, q) && u in r.tasks && PastRouting(q) ensures r.tasks[u].routed {
      assert Q(r, q) == Q(s, q);
    }
  }

  lemma NewRouted(s: State, a: Action)
    requires Inv(s) && Enabled(s, a) && (a.Submit? || a.Spawn?) && AllRouted(s)
    ensures AllRouted(Next(s, a))
  {
    NotQueued(s, a.t);
    hide Inv, AllRouted, Allocate;
    var x := if a.Submit? then NewTask(None, None, a.a, a.w, a.periodic, a.faf, a.reply)
             else NewTask(Some(Held(s, a.w)), Some(s.tasks[Held(s, a.w)].addr), a.a, a.dest, false, a.faf, ToFuture);
    AllocateRouted(s, a.t, x, if a.Submit? then a.w else a.dest);
  }

  lemma NotQueued(s: State, t: Tid)
    requires Inv(s) && t !in s.tasks
    ensures forall q :: t !in Q(s, q)
  {
    forall q ensures t !in Q(s, q) {
      assert t in Q(s, q) ==> EntryOk(s, q, t);
    }
  }

  lemma AllocateRouted(s: State, t: Tid, x: Task, dest: Wid)
    requires AllRouted(s) && t !in s.tasks && (forall q :: t !in Q(s, q)) && x.phase == Ready
    ensures AllRouted(Allocate(s, t, x, dest))
  {
    var r := Allocate(s, t, x, dest);
    forall q, u | u in Q(r, q) && u in r.tasks && PastRouting(q) ensures r.tasks[u].routed {
      assert Q(r, q) == Q(s, q);
    }
  }

  lemma OtherRouted(s: State, a: Action)
    requires Enabled(s, a) && (a.Await? || a.Free? || a.Plug?) && AllRouted(s)
    ensures AllRouted(Next(s, a))
  {
    hide AllRouted;
    var r := Next(s, a);
    if a.Await? && !s.tasks[a.child].complete {
      hide Outstanding;
      AwaitRouted(s, a.w, a.child);
    } else {
      SameRouted(s, r);
    }
  }

  lemma AwaitRouted(s: State, w: Wid, c: Tid)
    requires HasInHand(s, w, Running) && AllRouted(s)
    ensures AllRouted(LetGo(s, w, s.tasks[Held(s, w)].(phase := Waiting(c))))
  {
    var r := LetGo(s, w, s.tasks[Held(s, w)].(phase := Waiting(c)));
    forall q, u | u in Q(r, q) && u in r.tasks && PastRouting(q) ensures r.tasks[u].routed {
      assert u in Q(s, q) && u in s.tasks;
    }
  }

  lemma SameRouted(s: State, r: State)
    requires AllRouted(s) && r.queues == s.queues && r.tasks.Keys == s.tasks.Keys
    requires forall t :: t in s.tasks ==> r.tasks[t].routed == s.tasks[t].routed && r.tasks[t].phase == s.tasks[t].phase
    ensures AllRouted(r)
  {
    assert forall q :: Q(r, q) == Q(s, q);
  }

  lemma {:induction false} RunRouted(s: State, run: seq<Action>)
    requires Inv(s) && IsRun(s, run) && AllRouted(s)
    ensures Inv(After(s, run)) && AllRouted(After(s, run))
    decreases |run|
  {
    hide Inv, AllRouted, Enabled, Disciplined, Next;
    if run != [] {
      StepInv(s, run[0]);
      StepRouted(s, run[0]);
      RunRouted(Next(s, run[0]), run[1..]);
    }
  }

  lemma InitRouted()
    ensures AllRouted(Init)
  {}

  /** On every disciplined run a task that runs or is suspended has been routed since it was
      last taken from a periodic queue, and so has one that waits in a blocked queue, in a
      retry queue, or for other nodes. */
  lemma RunnersAreRouted(run: seq<Action>, t: Tid)
    requires IsRun(Init, run) && t in After(Init, run).tasks
    ensures var s := After(Init, run);
            && ((s.tasks[t].phase.Running? || s.tasks[t].phase.Waiting?) ==> s.tasks[t].routed)
            && (forall q :: t in Q(s, q) && (q.Retry? || q.NetOut? || q.Blocked?) ==> s.tasks[t].routed)
  {
    hide IsRun, After, Inv, AllRouted;
    InitInv();
    InitRouted();
    RunRouted(Init, run);
    RoutedTask(After(Init, run), t);
  }

  lemma RoutedTask(s: State, t: Tid)
    requires AllRouted(s) && t in s.tasks
    ensures (s.tasks[t].phase.Running? || s.tasks[t].phase.Waiting?) ==> s.tasks[t].routed
    ensures forall q :: t in Q(s, q) && (q.Retry? || q.NetOut? || q.Blocked?) ==> s.tasks[t].routed
  {}

  // ----- routed again after a sleep -----

  /** Worker `w` has the task in hand and has not routed it. */
  predicate ToBeRouted(s: State, w: Wid, t: Tid) {
    Q(s, Hand(w)) == [t] && t in s.tasks && s.tasks[t].phase == Ready && !s.tasks[t].routed
  }

  predicate RoutesOn(a: Action, w: Wid) {
    (a.RouteLocal? || a.RouteRetry? || a.RouteGlobal? || a.Reject?) && a.w == w
  }

  lemma StepWaits(s: State, a: Action, w: Wid, t: Tid)
    requires Inv(s) && Enabled(s, a) && Disciplined(s, a) && ToBeRouted(s, w, t) && !RoutesOn(a, w)
    ensures ToBeRouted(Next(s, a), w, t)
  {
    hide Inv, Enabled, Disciplined, Next;
    StepInv(s, a);
    if Handles(a) {
      ActorIsOther(s, a, w, t);
      ActorMoves(s, a);
    } else if a.PopEvent? {
      EventElsewhere(s, a.w, a.found, t);
    } else {
      OtherWaits(s, a, w, t);
    }
    StillInHand(s, Next(s, a), w, t);
  }

  lemma StillInHand(s: State, r: State, w: Wid, t: Tid)
    requires Inv(s) && Inv(r) && ToBeRouted(s, w, t) && t in r.tasks && r.tasks[t] == s.tasks[t]
    requires forall q :: t in Q(r, q) ==> t in Q(s, q)
    ensures ToBeRouted(r, w, t)
  {
    hide Inv;
    var p := Place(r, t);
    NotInBoth(s, p, Hand(w), t);
  }

  /** The queue that holds an unfinished task that is not suspended. */
  lemma Place(s: State, t: Tid) returns (q: Queue)
    requires Inv(s) && t in s.tasks && s.tasks[t].phase == Ready
    ensures t in Q(s, q) && forall w :: |Q(s, Hand(w))| <= 1
  {
    hide RecordsOk, HeapOk, LineageOk, AwaitOk, EventsOk;
    var k;
    q, k := QueuedSomewhere(s, t);
    assert Q(s, q)[k] == t;
  }

  lemma ActorIsOther(s: State, a: Action, w: Wid, t: Tid)
    requires Inv(s) && Enabled(s, a) && Disciplined(s, a) && Handles(a) && ToBeRouted(s, w, t) && !RoutesOn(a, w)
    ensures Actor(s, a) != t
  {
    hide Inv;
    assert Actor(s, a) in Q(s, From(a)) by { FromHolds(s, a); }
    if Actor(s, a) == t { NotInBoth(s, From(a), Hand(w), t); }
  }

  lemma EventElsewhere(s: State, w: Wid, found: Option<Cid>, t: Tid)
    requires Inv(s) && Enabled(s, PopEvent(w, found)) && t in s.tasks && s.tasks[t].phase == Ready
    ensures var r := Next(s, PopEvent(w, found));
            t in r.tasks && r.tasks[t] == s.tasks[t] && forall q :: t in Q(r, q) ==> t in Q(s, q)
  {
    hide Inv, DoPopEvent;
    EventsAreLive(s, w);
    PopEventEffect(s, w, found);
  }

  lemma OtherWaits(s: State, a: Action, w: Wid, t: Tid)
    requires Inv(s) && Enabled(s, a) && Disciplined(s, a) && ToBeRouted(s, w, t)
    requires a.Submit? || a.Spawn? || a.Await? || a.Free? || a.Plug?
    ensures var r := Next(s, a);
            t in r.tasks && r.tasks[t] == s.tasks[t] && forall q :: t in Q(r, q) ==> t in Q(s, q)
  {
    hide Inv;
    if a.Submit? || a.Spawn? {
      hide ToBeRouted, Disciplined;
      NewWaits(s, a, t);
    } else if a.Await? {
      AwaitSuspends(s, Held(s, a.w), a.child);
    } else if a.Free? {
      ReadyIsNotFreed(s, t);
    }
  }

  lemma NewWaits(s: State, a: Action, t: Tid)
    requires Enabled(s, a) && (a.Submit? || a.Spawn?) && t in s.tasks
    ensures var r := Next(s, a);
            t in r.tasks && r.tasks[t] == s.tasks[t] && forall q :: t in Q(r, q) ==> t in Q(s, q)
  {}

  lemma ReadyIsNotFreed(s: State, t: Tid)
    requires Inv(s) && t in s.tasks && s.tasks[t].phase == Ready
    ensures !s.tasks[t].complete && !s.tasks[t].consumed
  {
    assert RecordOk(s.tasks[t]);
  }

  lemma {:induction false} RunWaits(s: State, run: seq<Action>, w: Wid, t: Tid)
    requires Inv(s) && IsRun(s, run) && ToBeRouted(s, w, t) && forall i :: 0 <= i < |run| ==> !RoutesOn(run[i], w)
    ensures ToBeRouted(After(s, run), w, t)
    decreases |run|
  {
    hide Inv, Enabled, Disciplined, Next, ToBeRouted;
    if run != [] {
      StepInv(s, run[0]);
      StepWaits(s, run[0], w, t);
      RunWaits(Next(s, run[0]), run[1..], w, t);
    }
  }

  /** A task that has slept its period is routed again before it runs: from the moment its
      worker takes it, it stays in hand, neither running nor routed, until that worker routes
      or refuses it. */
  lemma SleepersAreRoutedAgain(run: seq<Action>, w: Wid, l: nat, later: seq<Action>)
    requires IsRun(Init, run) && Enabled(After(Init, run), PopPeriodic(w, l))
    requires var s1 := Next(After(Init, run), PopPeriodic(w, l));
             IsRun(s1, later) && forall i :: 0 <= i < |later| ==> !RoutesOn(later[i], w)
    ensures var s := After(Init, run);
            var t := Q(s, Periodic(w, l))[0];
            var r := After(Next(s, PopPeriodic(w, l)), later);
            Q(r, Hand(w)) == [t] && t in r.tasks && r.tasks[t].phase == Ready && !r.tasks[t].routed
  {
    hide IsRun, After, Inv, Disciplined, Next;
    InitInv();
    RunInv(Init, run);
    var s := After(Init, run);
    var t := Q(s, Periodic(w, l))[0];
    hide Enabled;
    Awakes(s, w, l);
    StepInv(s, PopPeriodic(w, l));
    RunWaits(Next(s, PopPeriodic(w, l)), later, w, t);
  }

  lemma Awakes(s: State, w: Wid, l: nat)
    requires Inv(s) && Enabled(s, PopPeriodic(w, l))
    ensures Disciplined(s, PopPeriodic(w, l)) && ToBeRouted(Next(s, PopPeriodic(w, l)), w, Q(s, Periodic(w, l))[0])
  {
    EntryFacts(s, Periodic(w, l), Q(s, Periodic(w, l))[0]);
    hide Inv;
  }
}
