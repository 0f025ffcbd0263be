/** What becomes of a task when it ends: which of the ways out of EndTask its flags and its
    origin lead to, and that on every run each finished task has been answered for. */
module Answers {
  import opened Sums
  import opened Scheduler
  import opened Conservation
  import opened Completion
  import opened CompletionRuns
  import opened PathFrames
  import opened Lineage
  import PlugLimits

  // ----- one task -----

  /** The outputs go over the network, to the node that sent the task or to a client. */
  predicate OwesNet(x: Task) { Owed(x) && (x.reply.ToRemote? || x.reply.ToClientNet?) }

  /** Somebody waits for the task to end. */
  predicate Owed(x: Task) { !x.periodic && !x.fireAndForget }

  /** The task the pointer in the future leads to. */
  ghost predicate LiveParent(s: State, t: Tid, p: Tid) {
    t in s.tasks && s.tasks[t].parentAddr.Some? && s.tasks[t].parentAddr.value in s.heap
    && s.heap[s.tasks[t].parentAddr.value] == p && p in s.tasks
  }

  /** `t` goes to the back of `to`, if to any queue; those in `but` are not looked at. */
  ghost predicate Arrives(s: State, r: State, t: Tid, to: Option<Queue>, but: set<Queue>) {
    forall q :: q !in but ==> Q(r, q) == Q(s, q) + if to == Some(q) then [t] else []
  }

  /** `t`'s event goes to the back of worker `to`'s event queue, if to any. */
  ghost predicate Tells(s: State, r: State, t: Tid, to: Option<Wid>) {
    forall v: Wid :: E(r, v) == E(s, v) + if to == Some(v) then [t] else []
  }

  /** Task `t` leaves for queue `to` and its event for worker `told`, if for any; it is
      deleted or not; and nothing else changes. */
  ghost predicate Leaves(s: State, r: State, t: Tid, to: Option<Queue>, told: Option<Wid>, deleted: bool, but: set<Queue>) {
    && t in s.tasks && r.tasks.Keys == s.tasks.Keys
    && (forall u :: u in s.tasks && u != t ==> r.tasks[u] == s.tasks[u])
    && SameStatic(s.tasks[t], r.tasks[t]) && r.tasks[t].consumed == s.tasks[t].consumed
    && r.tasks[t].freed == (s.tasks[t].freed || deleted)
    && r.heap == (if deleted then s.heap - {s.tasks[t].addr} else s.heap)
    && Arrives(s, r, t, to, but) && Tells(s, r, t, told)
  }

  /** What ending task `t` gives its creator: a periodic task sleeps until it starts again;
      nobody waits for a fire-and-forget task; outputs for another node or a network client
      are left to the network worker, and the task lives on until then; a shared-memory
      client may read them at once; a live parent's worker is told, and will set the flag;
      whoever else polls the future sees it set. */
  ghost predicate Answered(s: State, r: State, t: Tid, again: Queue, but: set<Queue>) {
    && t in s.tasks && t in r.tasks
    && var x, y := s.tasks[t], r.tasks[t];
    && (x.periodic ==> Leaves(s, r, t, Some(again), None, false, but) && y.phase == Ready && !y.started && y.complete == x.complete)
    && (!x.periodic && x.fireAndForget ==> Leaves(s, r, t, None, None, true, but) && y.phase == Ended && y.complete == x.complete)
    && (OwesNet(x) ==> Leaves(s, r, t, Some(NetReply), None, false, but) && y.phase == Replying && y.complete == x.complete)
    && (Owed(x) && x.reply.ToClientShm? ==> Leaves(s, r, t, None, None, true, but) && y.phase == Ended && y.complete)
    && (forall p :: Owed(x) && x.reply.ToFuture? && LiveParent(s, t, p) ==>
          Leaves(s, r, t, None, Some(s.tasks[p].worker), false, but) && y.phase == Ended && y.complete == x.complete)
    && (Owed(x) && x.reply.ToFuture? && (forall p :: !LiveParent(s, t, p)) ==>
          Leaves(s, r, t, None, None, false, but) && y.phase == Ended && y.complete)
  }

  function To(e: Exit, again: Queue): Option<Queue> {
    if e.Reschedule? then Some(again) else if e.SendReply? then Some(NetReply) else None
  }

  lemma EndLeaves(s: State, w: Wid, t: Tid, again: Queue)
    requires t in s.tasks && s.tasks[t].container.Some?
    ensures var e := ExitOf(s, s.tasks[t]);
            var r := End(s, w, t, again, false);
            && t in r.tasks && r.tasks[t] == EndRecord(s.tasks[t], e, false)
            && Leaves(s, r, t, To(e, again), if e.NotifyParent? then Some(e.pw) else None, e.Discard? || e.TransferShm?, {})
  {
    hide ExitOf, EndRecord, EndQueues, Arrives, Tells;
    var e := ExitOf(s, s.tasks[t]);
    var r := End(s, w, t, again, false);
    EndRecordStatic(s.tasks[t], e);
    EndRecordFacts(s.tasks[t], e);
    QueuesArrive(s, r, t, e, again);
    EventsTell(s, r, t, e);
  }

  lemma EndRecordFacts(x: Task, e: Exit)
    ensures var y := EndRecord(x, e, false);
            && y.freed == (x.freed || e.Discard? || e.TransferShm?)
            && y.complete == (x.complete || e.TransferShm? || e.CompleteHere?)
            && y.phase == (if e.Reschedule? then Ready else if e.SendReply? then Replying else Ended)
            && (e.Reschedule? ==> !y.started)
  {
    match e
    case Reschedule =>
    case Discard =>
    case SendReply =>
    case TransferShm =>
    case NotifyParent(_) =>
    case CompleteHere =>
  }

  lemma QueuesArrive(s: State, r: State, t: Tid, e: Exit, again: Queue)
    requires r.queues == EndQueues(s, t, e, again)
    ensures Arrives(s, r, t, To(e, again), {})
  {
    forall q ensures Q(r, q) == Q(s, q) + if To(e, again) == Some(q) then [t] else [] {}
  }

  lemma EventsTell(s: State, r: State, t: Tid, e: Exit)
    requires r.events == if e.NotifyParent? then s.events[e.pw := E(s, e.pw) + [t]] else s.events
    ensures Tells(s, r, t, if e.NotifyParent? then Some(e.pw) else None)
  {}

  lemma ExitFollows(s: State, t: Tid)
    requires t in s.tasks
    ensures var x, e := s.tasks[t], ExitOf(s, s.tasks[t]);
            && (x.periodic ==> e == Reschedule)
            && (!x.periodic && x.fireAndForget ==> e == Discard)
            && (OwesNet(x) ==> e == SendReply)
            && (Owed(x) && x.reply.ToClientShm? ==> e == TransferShm)
            && (forall p :: Owed(x) && x.reply.ToFuture? && LiveParent(s, t, p) ==> e == NotifyParent(s.tasks[p].worker))
            && (Owed(x) && x.reply.ToFuture? && (forall p :: !LiveParent(s, t, p)) ==> e == CompleteHere)
  {
    var x := s.tasks[t];
    if x.parentAddr.Some? && x.parentAddr.value in s.heap && s.heap[x.parentAddr.value] in s.tasks {
      assert LiveParent(s, t, s.heap[x.parentAddr.value]);
    }
  }

  lemma EndAnswers(s: State, w: Wid, t: Tid, again: Queue)
    requires t in s.tasks && s.tasks[t].container.Some?
    ensures Answered(s, End(s, w, t, again, false), t, again, {})
  {
    hide End, Leaves, ExitOf, LiveParent, EndRecord, OwesNet;
    EndLeaves(s, w, t, again);
    ExitFollows(s, t);
    EndRecordFacts(s.tasks[t], ExitOf(s, s.tasks[t]));
  }

  /** The same seen from before the task was taken out of queue `from`. */
  lemma AnsweredFrom(s: State, s1: State, r: State, t: Tid, again: Queue, from: Queue)
    requires t in s.tasks && t in s1.tasks && s1.tasks == s.tasks[t := s1.tasks[t]]
    requires s1.tasks[t] == s.tasks[t].(container := s1.tasks[t].container)
    requires s1.heap == s.heap && s1.events == s.events && forall q :: q != from ==> Q(s1, q) == Q(s, q)
    requires Answered(s1, r, t, again, {})
    ensures Answered(s, r, t, again, {from})
  {
    hide Leaves, LiveParent, Q, E;
    forall to, told, deleted | Leaves(s1, r, t, to, told, deleted, {}) ensures Leaves(s, r, t, to, told, deleted, {from}) {
      LeavesFrom(s, s1, r, t, from, to, told, deleted);
    }
    SameParents(s, s1, t);
  }

  lemma SameParents(s: State, s1: State, t: Tid)
    requires t in s.tasks && t in s1.tasks && s1.tasks == s.tasks[t := s1.tasks[t]] && s1.heap == s.heap
    requires s1.tasks[t] == s.tasks[t].(container := s1.tasks[t].container)
    ensures forall p :: LiveParent(s1, t, p) <==> LiveParent(s, t, p)
    ensures forall p :: LiveParent(s, t, p) ==> p in s.tasks && p in s1.tasks && s1.tasks[p].worker == s.tasks[p].worker
  {}

  lemma LeavesFrom(s: State, s1: State, r: State, t: Tid, from: Queue, to: Option<Queue>, told: Option<Wid>, deleted: bool)
    requires t in s.tasks && t in s1.tasks && s1.tasks == s.tasks[t := s1.tasks[t]]
    requires s1.tasks[t] == s.tasks[t].(container := s1.tasks[t].container)
    requires s1.heap == s.heap && s1.events == s.events && forall q :: q != from ==> Q(s1, q) == Q(s, q)
    requires Leaves(s1, r, t, to, told, deleted, {})
    ensures Leaves(s, r, t, to, told, deleted, {from})
  {
    assert forall v :: E(s1, v) == E(s, v);
  }

  /** So when its coroutine returns on a worker ... */
  lemma ReturnAnswers(s: State, w: Wid, again: Queue)
    requires Enabled(s, Return(w, again))
    ensures var r := Next(s, Return(w, again)); Answered(s, r, Held(s, w), again, {Hand(w)})
  {
    hide End, Answered;
    var t := Held(s, w);
    var s1 := LetGo(s, w, s.tasks[t]);
    EndAnswers(s1, w, t, again);
    AnsweredFrom(s, s1, Next(s, Return(w, again)), t, again, Hand(w));
  }

  /** ... and when its outputs come back from another node. */
  lemma NetReturnAnswers(s: State, k: nat, w: Wid, c: Cid, again: Queue)
    requires Enabled(s, NetReturn(k, w, c, again))
    ensures var r := Next(s, NetReturn(k, w, c, again)); Answered(s, r, Q(s, NetOut)[k], again, {NetOut})
  {
    hide End, Answered;
    var t := Q(s, NetOut)[k];
    var s1 := Drop(Put(s, t, s.tasks[t].(container := Some(c))), NetOut, k);
    EndAnswers(s1, w, t, again);
    AnsweredFrom(s, s1, Next(s, NetReturn(k, w, c, again)), t, again, NetOut);
  }

  // ----- over runs -----

  /** What a finished task's record shows: nothing periodic ever finishes; a fire-and-forget
      task is deleted; a shared-memory client has its outputs; a task nobody spawned is
      complete.  Only what owes the network an answer waits for it. */
  predicate Settled(x: Task) {
    && (x.phase.Replying? ==> OwesNet(x))
    && (x.phase.Ended? ==>
          && !x.periodic
          && (x.fireAndForget ==> x.freed)
          && (Owed(x) && x.reply.ToClientShm? ==> x.complete && x.freed)
          && (Owed(x) && x.reply.ToFuture? && x.parent.None? ==> x.complete))
  }

  ghost predicate AllSettled(s: State) { forall t :: t in s.tasks ==> Settled(s.tasks[t]) }

  lemma StepSettles(s: State, a: Action)
    requires Inv(s) && Enabled(s, a) && Disciplined(s, a) && AllSettled(s)
    ensures AllSettled(Next(s, a))
  {
    hide Inv, Enabled, Disciplined, Next, Settled;
    if Handles(a) {
      ActorMoves(s, a);
      ActorSettles(s, a);
      OneSettles(s, Next(s, a), Actor(s, a));
    } else if a.PopEvent? {
      EventSettles(s, a.w, a.found);
    } else {
      OtherSettles(s, a);
    }
  }

  lemma OneSettles(s: State, r: State, t: Tid)
    requires AllSettled(s) && MovesRecord(s, r, t) && Settled(r.tasks[t])
    ensures AllSettled(r)
  {}

  lemma OtherSettles(s: State, a: Action)
    requires Enabled(s, a) && AllSettled(s) && (a.Submit? || a.Spawn? || a.Await? || a.Free? || a.Plug?)
    ensures AllSettled(Next(s, a))
  {
    if a.Submit? || a.Spawn? {
      hide Settled, Allocate;
      NewSettles(s, a);
    } else if a.Await? {
      hide Push;
    }
  }

  lemma NewSettles(s: State, a: Action)
    requires Enabled(s, a) && (a.Submit? || a.Spawn?)
    ensures var r := Next(s, a); a.t in r.tasks && r.tasks == s.tasks[a.t := r.tasks[a.t]] && Settled(r.tasks[a.t])
  {}

  lemma EventSettles(s: State, w: Wid, found: Option<Cid>)
    requires Inv(s) && Enabled(s, PopEvent(w, found)) && AllSettled(s)
    ensures AllSettled(Next(s, PopEvent(w, found)))
  {
    hide Inv, DoPopEvent;
    EventsAreLive(s, w);
    PopEventEffect(s, w, found);
  }

  /** The task an action handles finishes only by EndTask or when its reply has been sent. */
  lemma ActorSettles(s: State, a: Action)
    requires Inv(s) && Enabled(s, a) && Disciplined(s, a) && Handles(a) && AllSettled(s)
    ensures Actor(s, a) in Next(s, a).tasks && Settled(Next(s, a).tasks[Actor(s, a)])
  {
    hide Inv, Enabled, Disciplined, Next, AllSettled, Settled, Answered, End;
    var t := Actor(s, a);
    assert t in Q(s, From(a)) by { FromHolds(s, a); }
    EntryFacts(s, From(a), t);
    if a.Return? {
      HeldReturns(s, a);
      ReturnAnswers(s, a.w, a.again);
      AnsweredSettles(s, Next(s, a), t, a.again, {Hand(a.w)});
    } else if a.NetReturn? {
      NetReturnAnswers(s, a.k, a.w, a.c, a.again);
      AnsweredSettles(s, Next(s, a), t, a.again, {NetOut});
    } else if a.NetDone? {
      ReplySettles(s, a.k);
    } else {
      UnfinishedSettles(s, a);
    }
  }

  lemma AnsweredSettles(s: State, r: State, t: Tid, again: Queue, but: set<Queue>)
    requires Answered(s, r, t, again, but) && RecordOk(s.tasks[t])
    ensures t in r.tasks && Settled(r.tasks[t])
  {
    hide Arrives, Tells;
    if Owed(s.tasks[t]) && s.tasks[t].reply.ToFuture? && s.tasks[t].parent.None? {
      assert forall p :: !LiveParent(s, t, p);
    }
  }

  lemma ReplySettles(s: State, k: nat)
    requires Inv(s) && Enabled(s, NetDone(k)) && AllSettled(s)
    ensures var t, r := Q(s, NetReply)[k], Next(s, NetDone(k)); t in r.tasks && Settled(r.tasks[t])
  {
    hide Inv, Drop;
    NetReplyFacts(s, Q(s, NetReply)[k]);
    TasksDropped(s, NetReply, k);
  }

  lemma TasksDropped(s: State, q: Queue, k: nat)
    requires k < |Q(s, q)|
    ensures Drop(s, q, k).tasks == s.tasks
  {}

  lemma UnfinishedSettles(s: State, a: Action)
    requires Inv(s) && Enabled(s, a) && Handles(a) && !a.Return? && !a.NetReturn? && !a.NetDone?
    ensures Actor(s, a) in Next(s, a).tasks && Settled(Next(s, a).tasks[Actor(s, a)])
  {
    hide Inv, Enabled, Next;
    var t := Actor(s, a);
    assert t in Q(s, From(a)) by { FromHolds(s, a); }
    EntryFacts(s, From(a), t);
    PhaseAfter(s, a);
  }

  predicate SamePhaseOr(x: Task, y: Task) { y.phase == x.phase || y.phase == Ready || y.phase == Running || y.phase == Rejected }

  lemma PhaseAfter(s: State, a: Action)
    requires Enabled(s, a) && Handles(a) && !a.Return? && !a.NetReturn? && !a.NetDone?
    ensures var t, r := Actor(s, a), Next(s, a); t in r.tasks && SamePhaseOr(s.tasks[t], r.tasks[t])
  {
    hide Enabled, Next, SamePhaseOr;
    if a.Exec? || a.PopBlocked? || a.RunRetry? {
      PhaseOfRun(s, a);
    } else if a.PopLane? || a.PopPeriodic? || a.KeepPeriodic? || a.KeepRetry? || a.RetryGlobal? {
      PhaseOfQueued(s, a);
    } else if a.RouteLocal? {
      PhaseOfLocal(s, a.w, a.c, a.dest);
    } else {
      PhaseOfHeld(s, a);
    }
  }

  lemma PhaseOfRun(s: State, a: Action)
    requires Enabled(s, a) && (a.Exec? || a.PopBlocked? || a.RunRetry?)
    ensures var t, r := Actor(s, a), Next(s, a); t in r.tasks && SamePhaseOr(s.tasks[t], r.tasks[t])
  {
    hide Enter;
    match a
    case Exec(w, found, pred) => EnterRecord(s, w, Held(s, w), found, pred, s.tasks[Held(s, w)].started);
    case PopBlocked(w, l, found, pred) =>
      var t := Q(s, Blocked(w, l))[0];
      EnterRecord(Take(s, w, Blocked(w, l), s.tasks[t]), w, t, found, pred, s.tasks[t].started);
    case RunRetry(w, d, found, pred) =>
      var t := Q(s, Retry(w))[0];
      EnterRecord(Take(s, w, Retry(w), s.tasks[t].(container := Some(d))), w, t, found, pred, false);
  }

  lemma PhaseOfQueued(s: State, a: Action)
    requires Enabled(s, a) && (a.PopLane? || a.PopPeriodic? || a.KeepPeriodic? || a.KeepRetry? || a.RetryGlobal?)
    ensures var t, r := Actor(s, a), Next(s, a); t in r.tasks && SamePhaseOr(s.tasks[t], r.tasks[t])
  {}

  lemma PhaseOfLocal(s: State, w: Wid, c: Cid, dest: Wid)
    requires Enabled(s, RouteLocal(w, c, dest))
    ensures var t, r := Actor(s, RouteLocal(w, c, dest)), Next(s, RouteLocal(w, c, dest));
            t in r.tasks && SamePhaseOr(s.tasks[t], r.tasks[t])
  {
    hide Give, Put;
    PlugLimits.RecordGiven(s, w, s.tasks[Held(s, w)].(routed := true, container := Some(c)), Lane(dest));
  }

  lemma PhaseOfHeld(s: State, a: Action)
    requires Enabled(s, a)
    requires a.Reject? || a.RouteRetry? || a.RouteGlobal? || a.DropUnresolved? || a.YieldTimed? || a.YieldZero?
    ensures var t, r := Actor(s, a), Next(s, a); t in r.tasks && SamePhaseOr(s.tasks[t], r.tasks[t])
  {}

  lemma {:induction false} RunSettles(s: State, run: seq<Action>)
    requires Inv(s) && IsRun(s, run) && AllSettled(s)
    ensures Inv(After(s, run)) && AllSettled(After(s, run))
    decreases |run|
  {
    hide Inv, AllSettled, Enabled, Disciplined, Next;
    if run != [] {
      StepInv(s, run[0]);
      StepSettles(s, run[0]);
      RunSettles(Next(s, run[0]), run[1..]);
    }
  }

  /** The task waits for the network worker after some part of the run. */
  ghost predicate WasReplying(s: State, run: seq<Action>, t: Tid)
    requires IsRun(s, run)
    decreases |run|
  {
    t in Q(s, NetReply) || (run != [] && WasReplying(Next(s, run[0]), run[1..], t))
  }

  /** A step that finishes a task which owes the network an answer sends that answer. */
  lemma FinishesByReply(s: State, a: Action, t: Tid)
    requires Inv(s) && Enabled(s, a) && Disciplined(s, a) && AllSettled(s)
    requires t in Next(s, a).tasks && Next(s, a).tasks[t].phase.Ended? && OwesNet(Next(s, a).tasks[t])
    requires t in s.tasks ==> !s.tasks[t].phase.Ended?
    ensures t in Q(s, NetReply)
  {
    hide Inv, Enabled, Disciplined, Next, AllSettled, Answered, OwesNet;
    if Handles(a) {
      ActorMoves(s, a);
      if t == Actor(s, a) {
        ActorFinishes(s, a);
      }
    } else if a.PopEvent? {
      StepParents(s, a);
      EventFinishesNone(s, a.w, a.found, t);
    } else {
      OthersFinishNone(s, a, t);
    }
  }

  lemma ActorFinishes(s: State, a: Action)
    requires Inv(s) && Enabled(s, a) && Disciplined(s, a) && Handles(a) && AllSettled(s)
    requires var t, r := Actor(s, a), Next(s, a);
             t in r.tasks && r.tasks[t].phase.Ended? && OwesNet(r.tasks[t]) && !s.tasks[t].phase.Ended?
    ensures Actor(s, a) in Q(s, NetReply)
  {
    hide Inv, AllSettled, Enabled, Disciplined, Next;
    var t := Actor(s, a);
    assert t in Q(s, From(a)) by { FromHolds(s, a); }
    EntryFacts(s, From(a), t);
    if a.Return? {
      HeldReturns(s, a);
      ReturnAnswers(s, a.w, a.again);
    } else if a.NetReturn? {
      NetReturnAnswers(s, a.k, a.w, a.c, a.again);
    } else if !a.NetDone? {
      PhaseAfter(s, a);
    }
  }

  lemma HeldReturns(s: State, a: Action)
    requires Enabled(s, a) && a.Return?
    ensures |Q(s, Hand(a.w))| == 1 && Held(s, a.w) == Actor(s, a)
  {}

  lemma EventFinishesNone(s: State, w: Wid, found: Option<Cid>, t: Tid)
    requires Inv(s) && Enabled(s, PopEvent(w, found)) && t in s.tasks && !s.tasks[t].phase.Ended?
    ensures t in Next(s, PopEvent(w, found)).tasks && !Next(s, PopEvent(w, found)).tasks[t].phase.Ended?
  {
    hide Inv, DoPopEvent;
    EventsAreLive(s, w);
    PopEventEffect(s, w, found);
  }

  lemma OthersFinishNone(s: State, a: Action, t: Tid)
    requires Enabled(s, a) && (a.Submit? || a.Spawn? || a.Await? || a.Free? || a.Plug?)
    requires t in Next(s, a).tasks && (t in s.tasks ==> !s.tasks[t].phase.Ended?)
    ensures !Next(s, a).tasks[t].phase.Ended?
  {}

  lemma {:induction false} StaticOn(s: State, run: seq<Action>, t: Tid)
    requires IsRun(s, run) && t in s.tasks
    ensures t in After(s, run).tasks && SameStatic(s.tasks[t], After(s, run).tasks[t])
    decreases |run|
  {
    hide Enabled, Disciplined, Next;
    if run != [] {
      StepParents(s, run[0]);
      StaticOn(Next(s, run[0]), run[1..], t);
    }
  }

  lemma {:induction false} FinishedReplied(s: State, run: seq<Action>, t: Tid)
    requires Inv(s) && IsRun(s, run) && AllSettled(s)
    requires t in After(s, run).tasks && After(s, run).tasks[t].phase.Ended? && OwesNet(After(s, run).tasks[t])
    requires t in s.tasks ==> !s.tasks[t].phase.Ended?
    ensures WasReplying(s, run, t)
    decreases |run|
  {
    hide Inv, AllSettled, Enabled, Disciplined, Next;
    if run != [] {
      var r := Next(s, run[0]);
      StepInv(s, run[0]);
      StepSettles(s, run[0]);
      if t in r.tasks && r.tasks[t].phase.Ended? {
        StaticOn(r, run[1..], t);
        FinishesByReply(s, run[0], t);
      } else {
        FinishedReplied(r, run[1..], t);
      }
    }
  }

  /** On every disciplined run each task that has finished has been answered for: its outputs
      went through the network worker if another node or a network client is owed them, are
      in the client's memory if they go there, and are told to its parent's worker, whose
      event is waiting if the parent has not seen it.  Nothing else waits for the network
      worker. */
  lemma EveryTaskIsAnswered(run: seq<Action>, t: Tid)
    requires IsRun(Init, run) && t in After(Init, run).tasks
    ensures var s := After(Init, run);
            var x := s.tasks[t];
            && (t in Q(s, NetReply) ==> OwesNet(x) && !x.complete && !x.freed)
            && (x.phase.Ended? ==> !x.periodic)
            && (x.phase.Ended? && x.fireAndForget ==> x.freed)
            && (x.phase.Ended? && OwesNet(x) ==> WasReplying(Init, run, t))
            && (x.phase.Ended? && Owed(x) && x.reply.ToClientShm? ==> x.complete && x.freed)
            && (x.phase.Ended? && Owed(x) && x.reply.ToFuture? && x.parent.None? ==> x.complete)
            && (x.phase.Ended? && Owed(x) && x.reply.ToFuture? && x.parent.Some? && !x.complete ==>
                  x.parent.value in s.tasks && t in E(s, s.tasks[x.parent.value].worker))
  {
    hide IsRun, After, AllSettled, WasReplying;
    InitInv();
    assert AllSettled(Init) by { InitSettled(); }
    RunSettles(Init, run);
    var s := After(Init, run);
    var x := s.tasks[t];
    assert Settled(x) by { ItSettled(s, t); }
    if t in Q(s, NetReply) { NetReplyFacts(s, t); }
    if x.phase.Ended? && OwesNet(x) { FinishedReplied(Init, run, t); }
    if Pending(s, t) { EventWaits(s, t); }
  }

  lemma InitSettled()
    ensures AllSettled(Init)
  {}

  lemma ItSettled(s: State, t: Tid)
    requires AllSettled(s) && t in s.tasks
    ensures Settled(s.tasks[t])
  {}

  lemma EventWaits(s: State, t: Tid)
    requires Inv(s) && Pending(s, t)
    ensures var p := s.tasks[t].parent.value; p in s.tasks && t in E(s, s.tasks[p].worker)
  {
    var v := QueueOf(s.events, t);
    assert t in E(s, v);
  }
}
