/** What a plugged container can still be made to run.

    PlugContainer waits for the work counter to be zero.  The counter does not see a task
    that was routed to the container and has not started, so the wait can end while such a
    task is still to come.  Here: a run in which it does, and exactly when no task can run
    on a plugged container any more.
 */
module PlugLimits {
  import opened Sums
  import opened Scheduler
  import opened Conservation
  import opened Completion
  import opened CompletionRuns
  import opened Driving
  import opened PathFrames
  import opened Lineage
  import opened AwaitLimits
  import opened Accounting
  import SchedulerLimits

  // ----- entries never multiply -----

  lemma ShiftTotals(s: State, from: Queue, k: nat, to: Queue, queues: map<Queue, seq<Tid>>)
    requires k < |Q(s, from)| && queues == Push(Drop(s, from, k), to, Q(s, from)[k]).queues
    ensures forall u :: Total(queues, u) == Total(s.queues, u)
  {
    hide Total;
    DropTotals(s, from, k);
    PushTotals(Drop(s, from, k), to, Q(s, from)[k]);
  }

  lemma DropLessens(s: State, from: Queue, k: nat, queues: map<Queue, seq<Tid>>)
    requires k < |Q(s, from)| && queues == Drop(s, from, k).queues
    ensures forall u :: Total(queues, u) <= Total(s.queues, u)
  {
    hide Total;
    DropTotals(s, from, k);
  }

  lemma HandTotals(s: State, a: Action)
    requires Enabled(s, a)
    requires a.Reject? || a.RouteRetry? || a.RouteLocal? || a.RouteGlobal? || a.DropUnresolved? || a.YieldTimed? || a.YieldZero? || a.Exec?
    ensures forall u :: Total(Next(s, a).queues, u) <= Total(s.queues, u)
  {
    hide Total;
    var queues := Next(s, a).queues;
    match a
    case Reject(w) => DropLessens(s, Hand(w), 0, queues);
    case DropUnresolved(w) => DropLessens(s, Hand(w), 0, queues);
    case YieldZero(w) => DropLessens(s, Hand(w), 0, queues);
    case RouteRetry(w) => ShiftTotals(s, Hand(w), 0, Retry(w), queues);
    case RouteGlobal(w) => ShiftTotals(s, Hand(w), 0, NetOut, queues);
    case YieldTimed(w, l) => ShiftTotals(s, Hand(w), 0, Periodic(w, l), queues);
    case Exec(w, _, _) => assert queues == s.queues;
    case RouteLocal(w, c, dest) => LocalTotals(s, w, c, dest);
  }

  lemma LocalTotals(s: State, w: Wid, c: Cid, dest: Wid)
    requires Enabled(s, RouteLocal(w, c, dest))
    ensures forall u :: Total(Next(s, RouteLocal(w, c, dest)).queues, u) <= Total(s.queues, u)
  {
    hide Total;
    var queues := Next(s, RouteLocal(w, c, dest)).queues;
    if dest == w {
      assert queues == s.queues;
    } else {
      ShiftTotals(s, Hand(w), 0, Lane(dest), queues);
    }
  }

  lemma TakeTotals(s: State, a: Action)
    requires Enabled(s, a)
    requires a.PopLane? || a.PopBlocked? || a.PopPeriodic? || a.RunRetry?
    ensures forall u :: Total(Next(s, a).queues, u) <= Total(s.queues, u)
  {
    hide Total;
    ShiftTotals(s, From(a), 0, Hand(a.w), Next(s, a).queues);
  }

  lemma KeepTotals(s: State, a: Action)
    requires Enabled(s, a)
    requires a.KeepPeriodic? || a.KeepRetry? || a.RetryGlobal?
    ensures forall u :: Total(Next(s, a).queues, u) <= Total(s.queues, u)
  {
    hide Total;
    ShiftTotals(s, From(a), 0, if a.RetryGlobal? then NetOut else From(a), Next(s, a).queues);
  }

  lemma EndTotals(s: State, a: Action)
    requires Enabled(s, a)
    requires a.Return? || a.NetReturn? || a.NetDone?
    ensures forall u :: Total(Next(s, a).queues, u) <= Total(s.queues, u)
  {
    hide Total, ExitOf, EndRecord;
    var queues := Next(s, a).queues;
    if a.NetDone? {
      DropLessens(s, NetReply, a.k, queues);
    } else {
      var from, k := From(a), Index(a);
      var t := Actor(s, a);
      var y := if a.Return? then s.tasks[t] else s.tasks[t].(container := Some(a.c));
      var s1 := Drop(Put(s, t, y), from, k);
      assert Next(s, a) == End(s1, a.w, t, a.again, false);
      var e := ExitOf(s1, y);
      if e.Reschedule? {
        ShiftTotals(s, from, k, a.again, queues);
      } else if e.SendReply? {
        ShiftTotals(s, from, k, NetReply, queues);
      } else {
        DropLessens(s, from, k, queues);
      }
    }
  }

  lemma ActorTotals(s: State, a: Action)
    requires Enabled(s, a) && Handles(a)
    ensures forall u :: Total(Next(s, a).queues, u) <= Total(s.queues, u)
  {
    hide Total, Enabled, Next;
    if a.Return? || a.NetReturn? || a.NetDone? {
      EndTotals(s, a);
    } else if a.PopLane? || a.PopBlocked? || a.PopPeriodic? || a.RunRetry? {
      TakeTotals(s, a);
    } else if a.KeepPeriodic? || a.KeepRetry? || a.RetryGlobal? {
      KeepTotals(s, a);
    } else {
      HandTotals(s, a);
    }
  }

  /** A task counted once is in one queue. */
  lemma InOneQueue(s: State, q: Queue, r: Queue, t: Tid)
    requires Total(s.queues, t) <= 1 && t in Q(s, q) && q != r
    ensures t !in Q(s, r)
  {
    var rest := s.queues[q := []];
    TotalUpdate(s.queues, q, [], t);
    TotalAtLeast(rest, r, t);
    assert Get(rest, r, []) == Q(s, r);
  }

  // ----- tasks that must pass a plug check again -----

  /** Bound to `c` and able to run there without another plug check: it runs or waits, or
      it is blocked, or it is routed and in a lane or in hand. */
  ghost predicate MayRunOn(s: State, t: Tid, c: Cid) {
    && t in s.tasks && s.tasks[t].container == Some(c)
    && (s.tasks[t].phase.Running? || s.tasks[t].phase.Waiting? || (s.tasks[t].phase.Ready? && Uncheckable(s, t)))
  }

  /** Where a task is executed without a look at the plug. */
  ghost predicate Uncheckable(s: State, t: Tid)
    requires t in s.tasks
  {
    exists q :: t in Q(s, q) && (q.Blocked? || (s.tasks[t].routed && (q.Lane? || q.Hand?)))
  }

  /** No event leads to `t`, and none will. */
  ghost predicate Unaddressed(s: State, t: Tid)
    requires t in s.tasks
  {
    && (forall a :: a in s.heap && s.heap[a] == t ==> a == s.tasks[t].addr)
    && s.tasks[t].parentAddr != Some(s.tasks[t].addr)
    && (Lives(s, t) ==> AloneThere(s, t) && Hushed(s, t, t))
  }

  ghost predicate BarredTask(s: State, t: Tid)
    requires t in s.tasks
  {
    && !s.tasks[t].phase.Running? && !s.tasks[t].phase.Waiting? && Total(s.queues, t) <= 1
    && (forall w, l :: t !in Q(s, Blocked(w, l)))
    && (s.tasks[t].phase.Ready? ==> Unaddressed(s, t))
    && (s.tasks[t].phase.Ready? && s.tasks[t].routed ==> forall w :: t !in Q(s, Lane(w)) && t !in Q(s, Hand(w)))
  }

  /** `c` is plugged, and whoever is bound to it must pass a plug check before it runs. */
  ghost predicate Barred(s: State, c: Cid) {
    c in s.plugged && forall t :: t in s.tasks && s.tasks[t].container == Some(c) ==> BarredTask(s, t)
  }

  // ----- a barred container stays barred -----

  lemma UnaddressedStays(s: State, r: State, t: Tid)
    requires t in s.tasks && t in r.tasks && s.tasks[t].phase != Running && Unaddressed(s, t)
    requires Beside(s, r, t) && EventsBeside(s, r, t, t)
    ensures Unaddressed(r, t)
  {
    hide AloneThere, Hushed;
    if Lives(r, t) {
      BesideAlone(s, r, t);
      HushedStays(s, r, t, t);
    }
  }

  /** Whoever is not handled by a step stays barred. */
  lemma BarredAside(s: State, r: State, t: Tid)
    requires t in s.tasks && t in r.tasks && BarredTask(s, t) && r.tasks[t].phase == s.tasks[t].phase && r.tasks[t].routed == s.tasks[t].routed
    requires Total(r.queues, t) <= Total(s.queues, t) && forall q :: t in Q(r, q) ==> t in Q(s, q)
    requires Unaddressed(s, t) ==> Unaddressed(r, t)
    ensures BarredTask(r, t)
  {
    hide Unaddressed, Total;
  }

  /** No step but a return from the network binds a task to a plugged container. */
  lemma NoNewBinding(s: State, a: Action, c: Cid)
    requires Enabled(s, a) && Handles(a) && c in s.plugged && (a.NetReturn? ==> a.c != c)
    requires s.tasks[Actor(s, a)].container != Some(c)
    ensures Actor(s, a) in Next(s, a).tasks && Next(s, a).tasks[Actor(s, a)].container != Some(c)
  {
    hide Enabled, Next;
    if a.Return? || a.NetReturn? {
      EndBinding(s, a, c);
    } else if a.Exec? || a.PopBlocked? || a.RunRetry? {
      RunBinding(s, a, c);
    } else {
      RouteBinding(s, a, c);
    }
  }

  lemma EndContainer(s: State, w: Wid, t: Tid, again: Queue)
    requires t in s.tasks && s.tasks[t].container.Some?
    ensures var r := End(s, w, t, again, false); t in r.tasks && r.tasks[t].container == s.tasks[t].container
  {}

  lemma EndBinding(s: State, a: Action, c: Cid)
    requires Enabled(s, a) && (a.Return? || a.NetReturn?) && (a.NetReturn? ==> a.c != c)
    requires a.Return? ==> s.tasks[Actor(s, a)].container != Some(c)
    ensures Actor(s, a) in Next(s, a).tasks && Next(s, a).tasks[Actor(s, a)].container != Some(c)
  {
    hide End;
    var t := Actor(s, a);
    var y := if a.Return? then s.tasks[t] else s.tasks[t].(container := Some(a.c));
    EndContainer(Drop(Put(s, t, y), From(a), Index(a)), a.w, t, a.again);
  }

  lemma RunBinding(s: State, a: Action, c: Cid)
    requires Enabled(s, a) && c in s.plugged && (a.Exec? || a.PopBlocked? || a.RunRetry?)
    requires !a.RunRetry? ==> s.tasks[Actor(s, a)].container != Some(c)
    ensures Actor(s, a) in Next(s, a).tasks && Next(s, a).tasks[Actor(s, a)].container != Some(c)
  {
    hide Enter;
    match a
    case Exec(w, found, pred) => EnterRecord(s, w, Held(s, w), found, pred, s.tasks[Held(s, w)].started);
    case PopBlocked(w, l, found, pred) =>
      var t := Q(s, Blocked(w, l))[0];
      EnterRecord(Take(s, w, Blocked(w, l), s.tasks[t]), w, t, found, pred, s.tasks[t].started);
    case RunRetry(w, d, found, pred) =>
      var t := Q(s, Retry(w))[0];
      EnterRecord(Take(s, w, Retry(w), s.tasks[t].(container := Some(d))), w, t, found, pred, false);
  }

  lemma RouteBinding(s: State, a: Action, c: Cid)
    requires Enabled(s, a) && Handles(a) && c in s.plugged
    requires !a.Exec? && !a.PopBlocked? && !a.RunRetry? && !a.Return? && !a.NetReturn?
    requires !a.RouteLocal? ==> s.tasks[Actor(s, a)].container != Some(c)
    ensures Actor(s, a) in Next(s, a).tasks && Next(s, a).tasks[Actor(s, a)].container != Some(c)
  {
    hide Enabled, Next;
    if a.RouteLocal? {
      LocalBinding(s, a.w, a.c, a.dest, c);
    } else if a.PopLane? || a.PopPeriodic? || a.KeepPeriodic? || a.KeepRetry? || a.RetryGlobal? || a.NetDone? {
      QueueBinding(s, a);
    } else {
      HandBinding(s, a);
    }
  }

  lemma LocalBinding(s: State, w: Wid, d: Cid, dest: Wid, c: Cid)
    requires Enabled(s, RouteLocal(w, d, dest)) && c in s.plugged
    ensures var r := Next(s, RouteLocal(w, d, dest)); Held(s, w) in r.tasks && r.tasks[Held(s, w)].container != Some(c)
    ensures Actor(s, RouteLocal(w, d, dest)) == Held(s, w)
  {
    hide Give, Put;
    var x := s.tasks[Held(s, w)].(routed := true, container := Some(d));
    RecordGiven(s, w, x, Lane(dest));
  }

  lemma RecordGiven(s: State, w: Wid, x: Task, q: Queue)
    requires |Q(s, Hand(w))| == 1
    ensures Give(s, w, x, q).tasks == s.tasks[Held(s, w) := x] == Put(s, Held(s, w), x).tasks
  {}

  lemma QueueBinding(s: State, a: Action)
    requires Enabled(s, a)
    requires a.PopLane? || a.PopPeriodic? || a.KeepPeriodic? || a.KeepRetry? || a.RetryGlobal? || a.NetDone?
    ensures Actor(s, a) in Next(s, a).tasks && Next(s, a).tasks[Actor(s, a)].container == s.tasks[Actor(s, a)].container
  {}

  lemma HandBinding(s: State, a: Action)
    requires Enabled(s, a)
    requires a.Reject? || a.RouteRetry? || a.RouteGlobal? || a.DropUnresolved? || a.YieldTimed? || a.YieldZero?
    ensures Actor(s, a) in Next(s, a).tasks && Next(s, a).tasks[Actor(s, a)].container == s.tasks[Actor(s, a)].container
  {}

  /** The steps that can handle a barred task and leave it bound. */
  predicate LeavesBound(a: Action) {
    a.PopLane? || a.Reject? || a.RouteRetry? || a.RouteGlobal? || a.DropUnresolved?
    || a.KeepPeriodic? || a.PopPeriodic? || a.KeepRetry? || a.RetryGlobal? || a.NetDone?
  }

  lemma OnlyTheseLeaveBound(s: State, a: Action, c: Cid)
    requires Enabled(s, a) && Handles(a) && c in s.plugged && (a.NetReturn? ==> a.c != c)
    requires BarredTask(s, Actor(s, a)) && s.tasks[Actor(s, a)].container == Some(c)
    requires Actor(s, a) in Next(s, a).tasks && Next(s, a).tasks[Actor(s, a)].container == Some(c)
    ensures LeavesBound(a)
  {
    hide Next;
    if a.RouteLocal? {
      RouteBinding(s, a, c);
    } else if a.RunRetry? {
      RunBinding(s, a, c);
    } else if a.NetReturn? {
      EndBinding(s, a, c);
    }
  }

  /** The sleeping, retry or network queue to which such a step sends the task. */
  function SendsTo(a: Action): Option<Queue> {
    match a
    case RouteRetry(w) => Some(Retry(w))
    case RouteGlobal(_) => Some(NetOut)
    case KeepPeriodic(w, l) => Some(Periodic(w, l))
    case KeepRetry(w) => Some(Retry(w))
    case RetryGlobal(_) => Some(NetOut)
    case _ => None
  }

  lemma PushedIn(s: State, q: Queue, t: Tid)
    ensures t in Q(Push(s, q, t), q)
  {
    assert Q(Push(s, q, t), q)[|Q(s, q)|] == t;
  }

  lemma Sent(s: State, a: Action)
    requires Enabled(s, a) && Handles(a) && SendsTo(a).Some?
    ensures var r := Next(s, a);
            var q := SendsTo(a).value;
            (q.Retry? || q.NetOut? || q.Periodic?) && Actor(s, a) in Q(r, q) && Actor(s, a) in r.tasks && r.tasks[Actor(s, a)].phase == s.tasks[Actor(s, a)].phase
  {
    hide Push;
    var q := SendsTo(a).value;
    var t := Actor(s, a);
    if a.RouteRetry? || a.RouteGlobal? {
      PushedIn(Drop(Put(s, t, s.tasks[t].(routed := true)), Hand(a.w), 0), q, t);
      GiveStays(s, a.w, s.tasks[t].(routed := true), q);
    } else {
      PushedIn(Drop(s, From(a), 0), q, t);
      ShiftSame(s, From(a), q);
    }
  }

  lemma GiveStays(s: State, w: Wid, y: Task, q: Queue)
    requires |Q(s, Hand(w))| == 1
    ensures Give(s, w, y, q).tasks == s.tasks[Held(s, w) := y]
  {}

  lemma ShiftSame(s: State, q: Queue, r: Queue)
    requires Q(s, q) != []
    ensures Shift(s, q, r).tasks == s.tasks
  {}

  lemma TakenUp(s: State, a: Action)
    requires Enabled(s, a) && (a.PopLane? || a.PopPeriodic?)
    ensures var t := Actor(s, a);
            var r := Next(s, a);
            && t in r.tasks && t in Q(r, Hand(a.w)) && r.tasks[t].phase == s.tasks[t].phase
            && (r.tasks[t].routed ==> a.PopLane? && s.tasks[t].routed)
  {
    hide Push;
    var t := Actor(s, a);
    var y := if a.PopLane? then s.tasks[t].(worker := a.w) else s.tasks[t].(routed := false);
    PushedIn(Drop(Put(s, t, y), From(a), 0), Hand(a.w), t);
    TakeRecord(s, a.w, From(a), y);
  }

  lemma TakeRecord(s: State, w: Wid, q: Queue, y: Task)
    requires Q(s, q) != []
    ensures Take(s, w, q, y).tasks == s.tasks[Q(s, q)[0] := y]
  {}

  lemma LetGoes(s: State, a: Action)
    requires Enabled(s, a) && (a.Reject? || a.DropUnresolved? || a.NetDone?)
    ensures var r := Next(s, a);
            && Actor(s, a) in r.tasks && (a.DropUnresolved? ==> r.tasks == s.tasks)
            && (!a.DropUnresolved? ==> Done(r.tasks[Actor(s, a)]))
            && (forall q, u :: u in Q(r, q) ==> u in Q(s, q))
  {}

  /** Once in one of those queues, a task that is counted once is in no other. */
  lemma SentIsBarred(s: State, r: State, t: Tid, to: Queue)
    requires t in s.tasks && t in r.tasks && BarredTask(s, t) && r.tasks[t].phase == s.tasks[t].phase
    requires t in Q(r, to) && (to.Retry? || to.NetOut? || to.Periodic? || (to.Hand? && !r.tasks[t].routed))
    requires Total(r.queues, t) <= Total(s.queues, t)
    requires Unaddressed(s, t) ==> Unaddressed(r, t)
    ensures BarredTask(r, t)
  {
    hide Unaddressed, Total;
    forall q | q != to ensures t !in Q(r, q) {
      InOneQueue(r, to, q, t);
    }
  }

  lemma ActorBarred(s: State, a: Action, c: Cid)
    requires Enabled(s, a) && Handles(a) && c in s.plugged && (a.NetReturn? ==> a.c != c)
    requires BarredTask(s, Actor(s, a)) && s.tasks[Actor(s, a)].container == Some(c)
    requires Actor(s, a) in Next(s, a).tasks && Next(s, a).tasks[Actor(s, a)].container == Some(c)
    requires Unaddressed(s, Actor(s, a)) ==> Unaddressed(Next(s, a), Actor(s, a))
    ensures BarredTask(Next(s, a), Actor(s, a))
  {
    hide Enabled, Next, Total, Unaddressed, BarredTask, Actor;
    OnlyTheseLeaveBound(s, a, c);
    ActorTotals(s, a);
    var r := Next(s, a);
    var t := Actor(s, a);
    if SendsTo(a).Some? {
      Sent(s, a);
      SentIsBarred(s, r, t, SendsTo(a).value);
    } else if a.PopLane? || a.PopPeriodic? {
      TakenUp(s, a);
      FrontNotRouted(s, a);
      if !r.tasks[t].routed { SentIsBarred(s, r, t, Hand(a.w)); } else { RoutedNotReady(s, r, t, Hand(a.w)); }
    } else {
      LetGoes(s, a);
      LeftIsBarred(s, r, t);
    }
  }

  lemma LeftIsBarred(s: State, r: State, t: Tid)
    requires t in s.tasks && t in r.tasks && BarredTask(s, t) && (r.tasks == s.tasks || Done(r.tasks[t]))
    requires Total(r.queues, t) <= Total(s.queues, t) && forall q :: t in Q(r, q) ==> t in Q(s, q)
    requires Unaddressed(s, t) ==> Unaddressed(r, t)
    ensures BarredTask(r, t)
  {
    hide Unaddressed, Total;
  }

  lemma FrontNotRouted(s: State, a: Action)
    requires Enabled(s, a) && (a.PopLane? || a.PopPeriodic?) && BarredTask(s, Actor(s, a))
    ensures a.PopLane? && s.tasks[Actor(s, a)].phase.Ready? ==> !s.tasks[Actor(s, a)].routed
  {
    assert Actor(s, a) in Q(s, From(a));
  }

  lemma RoutedNotReady(s: State, r: State, t: Tid, to: Queue)
    requires t in s.tasks && t in r.tasks && BarredTask(s, t) && r.tasks[t].phase == s.tasks[t].phase && !r.tasks[t].phase.Ready?
    requires t in Q(r, to) && !to.Blocked? && Total(r.queues, t) <= Total(s.queues, t)
    ensures BarredTask(r, t)
  {
    hide Unaddressed, Total;
    forall q | q != to ensures t !in Q(r, q) {
      InOneQueue(r, to, q, t);
    }
  }

  lemma HandlingKeepsBarred(s: State, a: Action, c: Cid)
    requires Barred(s, c) && Enabled(s, a) && Handles(a) && (a.NetReturn? ==> a.c != c)
    ensures Barred(Next(s, a), c)
  {
    hide Enabled, Next, BarredTask, Unaddressed, Total, Moves, Beside, EventsBeside;
    var r := Next(s, a);
    var u := Actor(s, a);
    ActorMoves(s, a);
    ActorTotals(s, a);
    HandlingPlugs(s, a);
    forall t | t in r.tasks && r.tasks[t].container == Some(c) ensures BarredTask(r, t) {
      MovesKeys(s, r, u);
      if t == u && s.tasks[u].container != Some(c) {
        NoNewBinding(s, a, c);
      } else {
        MovesIsBeside(s, r, u, t);
        MovesEvents(s, r, u, t, t);
        BarredUnaddressed(s, r, t);
        if t == u {
          ActorBarred(s, a, c);
        } else {
          MovesEntries(s, r, u, t);
          BarredAside(s, r, t);
        }
      }
    }
  }

  lemma MovesKeys(s: State, r: State, u: Tid)
    requires Moves(s, r, u)
    ensures r.tasks.Keys == s.tasks.Keys && forall t :: t in s.tasks && t != u ==> r.tasks[t] == s.tasks[t]
  {}

  lemma MovesEntries(s: State, r: State, u: Tid, t: Tid)
    requires Moves(s, r, u) && t != u
    ensures forall q :: t in Q(r, q) ==> t in Q(s, q)
  {}

  lemma BarredUnaddressed(s: State, r: State, t: Tid)
    requires t in s.tasks && t in r.tasks && BarredTask(s, t) && Beside(s, r, t) && EventsBeside(s, r, t, t)
    ensures Unaddressed(s, t) ==> Unaddressed(r, t)
  {
    hide Unaddressed, Total;
    if Unaddressed(s, t) { UnaddressedStays(s, r, t); }
  }

  lemma HandlingPlugs(s: State, a: Action)
    requires Enabled(s, a) && Handles(a)
    ensures Next(s, a).plugged == s.plugged
  {
    if a.Exec? || a.PopBlocked? || a.RunRetry? || a.Return? || a.NetReturn? {
      RunsPlug(s, a);
    }
  }

  lemma RunsPlug(s: State, a: Action)
    requires Enabled(s, a) && (a.Exec? || a.PopBlocked? || a.RunRetry? || a.Return? || a.NetReturn?)
    ensures Next(s, a).plugged == s.plugged
  {}

  lemma UnaddressedPops(s: State, r: State, w: Wid, t: Tid)
    requires t in s.tasks && t in r.tasks && CanPop(s, w) && Popped(s, w, r) && Unaddressed(s, t) && Beside(s, r, t)
    ensures Unaddressed(r, t)
  {
    hide AloneThere, Hushed;
    PoppedEvents(s, w, r);
    if Lives(r, t) {
      BesideAlone(s, r, t);
      HushedPops(s, r, w, t, t);
    }
  }

  /** No event leads to a barred task. */
  lemma NotWoken(s: State, w: Wid, g: Tid)
    requires CanPop(s, w) && PointsTo(s, E(s, w)[0], g) && BarredTask(s, g)
    ensures !s.tasks[g].phase.Ready? && !s.tasks[g].phase.Waiting?
  {
    hide Unaddressed, Total;
    assert E(s, w)[0] in E(s, w);
    if Unaddressed(s, g) { NotAddressed(s, w, E(s, w)[0], g); }
  }

  lemma NotAddressed(s: State, w: Wid, f: Tid, g: Tid)
    requires f in E(s, w) && g in s.tasks && Unaddressed(s, g)
    ensures !PointsTo(s, f, g)
  {
    hide AloneThere;
    if f in s.tasks {
      assert Remembers(s, f, g) <==> s.tasks[f].parentAddr == Some(s.tasks[g].addr);
    }
  }

  lemma PoppedAside(s: State, r: State, w: Wid, t: Tid)
    requires t in s.tasks && BarredTask(s, t) && CanPop(s, w) && Popped(s, w, r) && Beside(s, r, t)
    requires Still(s.tasks[t], r.tasks[t]) && Total(r.queues, t) <= Total(s.queues, t) && forall q :: t in Q(r, q) ==> t in Q(s, q)
    ensures BarredTask(r, t)
  {
    hide Unaddressed, Total, Beside, CanPop, Popped;
    PoppedKeys(s, w, r);
    if Unaddressed(s, t) { UnaddressedPops(s, r, w, t); }
    BarredAside(s, r, t);
  }

  lemma PoppedKeys(s: State, w: Wid, r: State)
    requires CanPop(s, w) && Popped(s, w, r)
    ensures r.tasks.Keys == s.tasks.Keys && r.plugged == s.plugged
  {}

  lemma NothingBarred(s: State, w: Wid, found: Option<Cid>, c: Cid)
    requires Barred(s, c) && CanPop(s, w) && forall g :: PointsTo(s, E(s, w)[0], g) ==> !Resumable(s, g, found)
    ensures Barred(DoPopEvent(s, w, found), c)
  {
    hide DoPopEvent, BarredTask, Popped, Resumable;
    var r := DoPopEvent(s, w, found);
    PopNothing(s, w, found);
    PoppedKeys(s, w, r);
    assert forall q :: Q(r, q) == Q(s, q);
    forall t | t in r.tasks && r.tasks[t].container == Some(c) ensures BarredTask(r, t) {
      PoppedBeside(s, r, w, t);
      PoppedAside(s, r, w, t);
    }
  }

  lemma ResumesBarred(s: State, w: Wid, g: Tid, found: Option<Cid>, c: Cid)
    requires Barred(s, c) && CanPop(s, w) && Unplugged(s, found) && PointsTo(s, E(s, w)[0], g) && Resumable(s, g, found)
    ensures Barred(DoPopEvent(s, w, found), c)
  {
    hide DoPopEvent, BarredTask, Popped, Total;
    var r := DoPopEvent(s, w, found);
    PopResumes(s, w, g, found);
    PoppedKeys(s, w, r);
    PushTotals(s, Hand(w), g);
    if s.tasks[g].container == Some(c) { NotWoken(s, w, g); }
    assert forall q, u :: u in Q(r, q) ==> u in Q(s, q) || u == g;
    forall t | t in r.tasks && r.tasks[t].container == Some(c) ensures BarredTask(r, t) {
      PoppedBeside(s, r, w, t);
      PoppedAside(s, r, w, t);
    }
  }

  lemma EventKeepsBarred(s: State, w: Wid, found: Option<Cid>, c: Cid)
    requires Barred(s, c) && Enabled(s, PopEvent(w, found))
    ensures Barred(Next(s, PopEvent(w, found)), c)
  {
    hide DoPopEvent, Barred, Resumable;
    EventRuns(s, w, found);
    if g :| PointsTo(s, E(s, w)[0], g) && Resumable(s, g, found) {
      ResumesBarred(s, w, g, found, c);
    } else {
      NothingBarred(s, w, found, c);
    }
  }

  lemma AllocationKeepsBarred(s: State, u: Tid, x: Task, dest: Wid, c: Cid)
    requires Barred(s, c) && Allocates(s, u, x, dest) && x.container.None?
    ensures Barred(Allocate(s, u, x, dest), c)
  {
    hide BarredTask, Unaddressed, Allocates, Beside, Total;
    var r := Allocate(s, u, x, dest);
    PushTotals(s, Lane(dest), u);
    forall t | t in r.tasks && r.tasks[t].container == Some(c) ensures BarredTask(r, t) {
      AllocatedBeside(s, u, x, dest, t);
      BarredUnaddressed(s, r, t);
      BarredAside(s, r, t);
    }
  }

  lemma NewKeepsBarred(s: State, a: Action, c: Cid)
    requires Barred(s, c) && Enabled(s, a) && (a.Submit? || a.Spawn?)
    ensures Barred(Next(s, a), c)
  {
    hide Barred, Allocate;
    match a
    case Submit(t, ad, w, periodic, faf, reply) => AllocationKeepsBarred(s, t, NewTask(None, None, ad, w, periodic, faf, reply), w, c);
    case Spawn(w, t, ad, dest, faf) =>
      var q := Held(s, w);
      assert q in Q(s, Hand(w));
      AllocationKeepsBarred(s, t, NewTask(Some(q), Some(s.tasks[q].addr), ad, dest, false, faf, ToFuture), dest, c);
  }

  lemma FlagsKeepBarred(s: State, r: State, c: Cid)
    requires Barred(s, c) && r.tasks.Keys == s.tasks.Keys && r.queues == s.queues && r.events == s.events && s.plugged <= r.plugged
    requires forall a :: a in r.heap ==> a in s.heap && r.heap[a] == s.heap[a]
    requires forall t :: t in s.tasks ==> SameStatic(s.tasks[t], r.tasks[t]) && Still(s.tasks[t], r.tasks[t])
    ensures Barred(r, c)
  {
    hide BarredTask, Unaddressed, Total;
    assert forall q :: Q(r, q) == Q(s, q);
    assert forall v :: E(r, v) == E(s, v);
    forall t | t in r.tasks && r.tasks[t].container == Some(c) ensures BarredTask(r, t) {
      assert Beside(s, r, t);
      BarredUnaddressed(s, r, t);
      BarredAside(s, r, t);
    }
  }

  lemma SuspendKeepsBarred(s: State, w: Wid, d: Tid, c: Cid)
    requires Barred(s, c) && HasInHand(s, w, Running)
    ensures Barred(LetGo(s, w, s.tasks[Held(s, w)].(phase := Waiting(d))), c)
  {
    hide BarredTask, Unaddressed, Beside, Total;
    var h := Held(s, w);
    var r := LetGo(s, w, s.tasks[h].(phase := Waiting(d)));
    DropLessens(s, Hand(w), 0, r.queues);
    RunningNotBarred(s, h);
    forall t | t in r.tasks && r.tasks[t].container == Some(c) ensures BarredTask(r, t) {
      SuspendIsBeside(s, w, d, t);
      BarredUnaddressed(s, r, t);
      BarredAside(s, r, t);
    }
  }

  lemma RunningNotBarred(s: State, t: Tid)
    requires t in s.tasks && s.tasks[t].phase == Running
    ensures !BarredTask(s, t)
  {}

  lemma OutsideKeepsBarred(s: State, a: Action, c: Cid)
    requires Barred(s, c) && Enabled(s, a) && (a.Await? || a.Free? || a.Plug?)
    ensures Barred(Next(s, a), c)
  {
    hide Barred;
    match a
    case Await(w, d) =>
      if s.tasks[d].complete {
        FlagsKeepBarred(s, Next(s, a), c);
      } else {
        SuspendKeepsBarred(s, w, d, c);
      }
    case Free(t) => FlagsKeepBarred(s, Next(s, a), c);
    case Plug(_) => FlagsKeepBarred(s, Next(s, a), c);
  }

  lemma StepKeepsBarred(s: State, a: Action, c: Cid)
    requires Barred(s, c) && Enabled(s, a) && (a.NetReturn? ==> a.c != c)
    ensures Barred(Next(s, a), c)
  {
    hide Barred, Enabled, Next;
    if Handles(a) {
      HandlingKeepsBarred(s, a, c);
    } else if a.Submit? || a.Spawn? {
      NewKeepsBarred(s, a, c);
    } else if a.PopEvent? {
      EventKeepsBarred(s, a.w, a.found, c);
    } else {
      OutsideKeepsBarred(s, a, c);
    }
  }

  lemma {:induction false} PathKeepsBarred(s: State, path: seq<Action>, c: Cid)
    requires Barred(s, c) && IsPath(s, path) && Avoids(path, {c})
    ensures Barred(Along(s, path), c)
    decreases |path|
  {
    hide Barred;
    if path != [] {
      StepKeepsBarred(s, path[0], c);
      PathKeepsBarred(Next(s, path[0]), path[1..], c);
    }
  }

  // ----- exactly when it is quiet -----

  predicate RunsOn(s: State, t: Tid, c: Cid) { t in s.tasks && s.tasks[t].phase == Running && s.tasks[t].container == Some(c) }

  /** However the scheduler goes on, nothing runs on `c`, unless a task comes back from the
      network onto it. */
  ghost predicate NeverRunsOn(s: State, c: Cid) {
    forall path: seq<Action>, t: Tid :: IsPath(s, path) && Avoids(path, {c}) ==> !RunsOn(Along(s, path), t, c)
  }

  lemma UnaddressedAtStart(s: State, age: map<Tid, nat>, n: nat, t: Tid)
    requires Inv(s) && Aged(s, age, n) && t in s.tasks && s.tasks[t].phase == Ready
    ensures Unaddressed(s, t)
  {
    AloneAtStart(s, t);
    ReadyHasNoneOutstanding(s, t);
    forall x | Remembers(s, x, t) ensures Mute(s, x) && forall v :: x !in E(s, v) {
      RemembersParent(s, t, x);
    }
    hide AloneThere, Mute;
  }

  lemma BarredAtStart(s: State, age: map<Tid, nat>, n: nat, c: Cid)
    requires Inv(s) && Aged(s, age, n) && c in s.plugged && forall t :: !MayRunOn(s, t, c)
    ensures Barred(s, c)
  {
    hide Unaddressed, Aged, HeapOk, LineageOk, AwaitOk, EventsOk;
    forall t | t in s.tasks && s.tasks[t].container == Some(c) ensures BarredTask(s, t) {
      assert !MayRunOn(s, t, c);
      assert Places(s, t) <= 1;
      forall q | t in Q(s, q) ensures !q.Blocked? && (s.tasks[t].routed ==> !q.Lane? && (s.tasks[t].phase.Ready? ==> !q.Hand?)) {
        EntryFacts(s, q, t);
      }
      if s.tasks[t].phase == Ready { UnaddressedAtStart(s, age, n, t); }
    }
  }

  lemma ExecOwn(s: State, w: Wid, t: Tid) returns (r: State)
    requires HasInHand(s, w, Ready) && Held(s, w) == t && s.tasks[t].routed && s.tasks[t].container.Some?
    ensures Reaches(s, r) && RunsOn(r, t, s.tasks[t].container.value)
  {
    hide Reaches, Enter;
    ReachesSelf(s);
    var a := Exec(w, None, 0.0);
    EnterRecord(s, w, t, None, 0.0, s.tasks[t].started);
    r := Next(s, a);
    ReachesNext(s, s, a);
  }

  /** A routed task in a lane, or a blocked one, can be made to run where it is bound. */
  lemma RunQueued(s: State, w: Wid, q: Queue, t: Tid, k: nat) returns (r: State)
    requires Workable(s) && OnlyAt(s, t, q, k) && (q.Lane? || q.Blocked?) && q.w == w
    requires t in s.tasks && s.tasks[t].phase == Ready && s.tasks[t].container.Some? && (q.Lane? ==> s.tasks[t].routed)
    ensures Reaches(s, r) && RunsOn(r, t, s.tasks[t].container.value)
  {
    hide Reaches, Workable, Calm;
    var keep := Keep({}, None);
    var s1 := Release(s, w, keep);
    StillOnly(s, w, q, t, k, s1);
    var s2 := ToFront(s1, w, q, t, k, keep);
    ReachesOn(s, s1, s2);
    var s3: State;
    if q.Lane? {
      s3 := PopOwn(s2, w, t);
      ReachesOn(s, s2, s3);
      r := ExecOwn(s3, w, t);
    } else {
      s3 := s2;
      r := TakeBlocked(s2, w, q.level, None);
    }
    ReachesOn(s, s3, r);
  }

  lemma PopOwn(s: State, w: Wid, t: Tid) returns (r: State)
    requires CanTake(s, w, Lane(w)) && Q(s, Lane(w))[0] == t && s.tasks[t].phase == Ready
    ensures Reaches(s, r) && HasInHand(r, w, Ready) && Held(r, w) == t
    ensures r.tasks[t].routed == s.tasks[t].routed && r.tasks[t].container == s.tasks[t].container
  {
    hide Reaches;
    ReachesSelf(s);
    r := Next(s, PopLane(w));
    ReachesNext(s, s, PopLane(w));
  }

  lemma CanRun(s: State, age: map<Tid, nat>, n: nat, t: Tid, c: Cid) returns (r: State)
    requires Inv(s) && Aged(s, age, n) && MayRunOn(s, t, c)
    ensures Reaches(s, r) && RunsOn(r, t, c)
  {
    InvWorks(s);
    hide Conserved, RecordsOk, HeapOk, LineageOk, AwaitOk, EventsOk, QueuesOk, Aged, Reaches, Workable, OnlyAt, Chain, Movable;
    if s.tasks[t].phase.Running? {
      r := s;
      ReachesSelf(s);
    } else if s.tasks[t].phase.Waiting? {
      var xs := ChainOf(s, age, n, t);
      r := Rouse(s, xs, None);
    } else {
      r := RunReady(s, t, c);
    }
  }

  lemma RunReady(s: State, t: Tid, c: Cid) returns (r: State)
    requires Inv(s) && Workable(s) && t in s.tasks && s.tasks[t].container == Some(c) && s.tasks[t].phase.Ready? && Uncheckable(s, t)
    ensures Reaches(s, r) && RunsOn(r, t, c)
  {
    hide RecordsOk, HeapOk, LineageOk, AwaitOk, EventsOk, QueuesOk, Reaches, Workable, Conserved;
    var q :| t in Q(s, q) && (q.Blocked? || (s.tasks[t].routed && (q.Lane? || q.Hand?)));
    var p, k := QueuedSomewhere(s, t);
    assert p == q by { var i :| 0 <= i < |Q(s, q)| && Q(s, q)[i] == t; }
    if q.Hand? {
      HandFirst(s, q.w, t, k);
      assert |Q(s, q)| == 1 by { HoldsOne(s, q.w); }
      r := ExecOwn(s, q.w, t);
    } else {
      r := RunQueued(s, q.w, q, t, k);
    }
  }

  /** After any run, for a plugged container: however the scheduler goes on, as long as no
      task comes back from the network onto it, nothing will run there, if and only if
      every unfinished task bound to it, so every one of those admitted, has to pass a plug
      check first. */
  lemma PluggedIsQuietIff(run: seq<Action>, c: Cid)
    requires IsRun(Init, run) && c in After(Init, run).plugged
    ensures var s := After(Init, run);
            && (NeverRunsOn(s, c) <==> forall t :: !MayRunOn(s, t, c))
            && (forall t :: MayRunOn(s, t, c) ==> t in Admitted(s, c))
  {
    hide Inv, IsRun, After, MayRunOn, Aged;
    var s := After(Init, run);
    InitInv();
    RunInv(Init, run);
    InitAged();
    forall t | MayRunOn(s, t, c) ensures t in Admitted(s, c) { MayRunIsAdmitted(s, t, c); }
    var age, n := RunAges(Init, run, map[], 0);
    if t :| MayRunOn(s, t, c) {
      var r := CanRun(s, age, n, t, c);
      var path :| Via(s, path, r);
      assert IsPath(s, path) && Avoids(path, {c}) && RunsOn(Along(s, path), t, c);
    } else {
      BarredAtStart(s, age, n, c);
      StaysQuiet(s, c);
    }
  }

  lemma StaysQuiet(s: State, c: Cid)
    requires Barred(s, c)
    ensures NeverRunsOn(s, c)
  {
    forall path, t | IsPath(s, path) && Avoids(path, {c}) ensures !RunsOn(Along(s, path), t, c) {
      PathKeepsBarred(s, path, c);
      BarredRunsNothing(Along(s, path), t, c);
    }
  }

  lemma BarredRunsNothing(s: State, t: Tid, c: Cid)
    requires Barred(s, c)
    ensures !RunsOn(s, t, c)
  {}

  /** The tasks admitted are more: sleeping ones and those that wait to be routed again must
      pass a plug check. */
  lemma MayRunIsAdmitted(s: State, t: Tid, c: Cid)
    requires MayRunOn(s, t, c)
    ensures t in Admitted(s, c)
  {}

  // ----- the wait misses one -----

  function R3(): State {
    State(map[0 := SchedulerLimits.Root().(routed := true, container := Some(7))],
          map[Lane(0) := [], Hand(0) := [], Lane(1) := [0]],
          map[], map[100 := 0], map[], map[], {})
  }

  function R4(): State { R3().(plugged := {7}) }

  function R5(): State {
    State(map[0 := SchedulerLimits.Root().(routed := true, container := Some(7), worker := 1)],
          map[Lane(0) := [], Hand(0) := [], Lane(1) := [], Hand(1) := [0]],
          map[], map[100 := 0], map[], map[], {7})
  }

  function R6(): State {
    State(map[0 := SchedulerLimits.RunningRoot().(worker := 1)],
          map[Lane(0) := [], Hand(0) := [], Lane(1) := [], Hand(1) := [0]],
          map[], map[100 := 0], map[1 := 1.0], map[7 := 1], {7})
  }

  lemma Step3()
    ensures SchedulerLimits.Leads(SchedulerLimits.S2(), RouteLocal(0, 7, 1), R3(), false, true)
  {
    SchedulerLimits.SmallQueues();
    var r := Next(SchedulerLimits.S2(), RouteLocal(0, 7, 1));
    assert r.queues == R3().queues && r.tasks == R3().tasks;
  }

  lemma Step4()
    ensures SchedulerLimits.Leads(R3(), Plug(7), R4(), false, true)
  {}

  lemma Step5()
    ensures SchedulerLimits.Leads(R4(), PopLane(1), R5(), false, true)
  {
    SchedulerLimits.SmallQueues();
    var r := Next(R4(), PopLane(1));
    assert r.queues == R5().queues && r.tasks == R5().tasks;
  }

  lemma Step6()
    ensures SchedulerLimits.Leads(R5(), Exec(1, None, 1.0), R6(), false, true)
  {
    var r := Next(R5(), Exec(1, None, 1.0));
    assert r.tasks == R6().tasks && r.load == R6().load && r.work == R6().work;
  }

  /** Task 0 is routed to container 7 on another worker's lane; the container is plugged
      and its counter is zero, so the wait is over; then task 0 starts there. */
  lemma PlugWaitMissesAdmitted() returns (states: seq<State>, run: seq<Action>)
    ensures SchedulerLimits.IsTrace(states, run, false, true) && |run| == 6 && run[3] == Plug(7)
    ensures 7 in states[4].plugged && Get(states[4].work, 7, 0) == 0
    ensures 7 in states[6].plugged && RunsOn(states[6], 0, 7)
  {
    hide SchedulerLimits.Leads, Init, SchedulerLimits.S1, SchedulerLimits.S2, R3, R4, R5, R6;
    states := [Init, SchedulerLimits.S1(), SchedulerLimits.S2(), R3(), R4(), R5(), R6()];
    run := [Submit(0, 100, 0, false, false, ToFuture), PopLane(0), RouteLocal(0, 7, 1), Plug(7), PopLane(1), Exec(1, None, 1.0)];
    SchedulerLimits.Step1(false, true);
    SchedulerLimits.Step2(false, true);
    Step3();
    Step4();
    Step5();
    Step6();
    WaitOver();
  }

  lemma WaitOver()
    ensures 7 in R4().plugged && Get(R4().work, 7, 0) == 0 && 7 in R6().plugged && RunsOn(R6(), 0, 7)
  {}
}
