/** What any enabled step leaves alone, disciplined or not: the tasks in no queue, the
    events that are not taken, and the addresses in use. */
module PathFrames {
  import opened Sums
  import opened Scheduler
  import opened Conservation
  import opened Completion
  import opened CompletionRuns
  import opened Driving

  /** The actions that handle one queued task. */
  predicate Handles(a: Action) {
    !a.Submit? && !a.Spawn? && !a.Await? && !a.PopEvent? && !a.Free? && !a.Plug?
  }

  /** The queue from which such an action takes its task. */
  function From(a: Action): Queue
    requires Handles(a)
  {
    if a.PopLane? then Lane(a.w)
    else if a.PopBlocked? then Blocked(a.w, a.level)
    else if a.KeepPeriodic? || a.PopPeriodic? then Periodic(a.w, a.level)
    else if a.KeepRetry? || a.RunRetry? || a.RetryGlobal? then Retry(a.w)
    else if a.NetReturn? then NetOut
    else if a.NetDone? then NetReply
    else Hand(a.w)
  }

  function Index(a: Action): nat { if a.NetReturn? || a.NetDone? then a.k else 0 }

  lemma FromHolds(s: State, a: Action)
    requires Enabled(s, a) && Handles(a)
    ensures Index(a) < |Q(s, From(a))| && Q(s, From(a))[Index(a)] in s.tasks
  {}

  function Actor(s: State, a: Action): (t: Tid)
    requires Enabled(s, a) && Handles(a)
    ensures t in s.tasks
  {
    FromHolds(s, a);
    Q(s, From(a))[Index(a)]
  }

  /** EndTask of `t` sends its event to worker `v`. */
  predicate Notifies(s: State, t: Tid, v: Wid) {
    && t in s.tasks && !s.tasks[t].periodic && !s.tasks[t].fireAndForget
    && s.tasks[t].parentAddr.Some? && s.tasks[t].parentAddr.value in s.heap && s.heap[s.tasks[t].parentAddr.value] in s.tasks
    && s.tasks[s.heap[s.tasks[t].parentAddr.value]].worker == v
  }

  ghost predicate MovesRecord(s: State, r: State, t: Tid) {
    && t in s.tasks && t in r.tasks && r.tasks == s.tasks[t := r.tasks[t]] && SameStatic(s.tasks[t], r.tasks[t])
    && (s.tasks[t].complete ==> r.tasks[t].complete) && r.tasks[t].consumed == s.tasks[t].consumed
    && (r.tasks[t].phase.Waiting? ==> r.tasks[t].phase == s.tasks[t].phase)
  }

  /** Only `t` is moved, from where it was queued, and only its event may be sent. */
  ghost predicate Moves(s: State, r: State, t: Tid) {
    && MovesRecord(s, r, t) && Queued(s, t)
    && (forall q, u :: u in Q(r, q) && u != t ==> u in Q(s, q))
    && (r.heap == s.heap || r.heap == s.heap - {s.tasks[t].addr})
    && (r.events == s.events || exists v :: Notifies(s, t, v) && r.events == s.events[v := E(s, v) + [t]])
  }

  lemma GiveMoves(s: State, w: Wid, y: Task, to: Queue)
    requires |Q(s, Hand(w))| == 1 && Held(s, w) in s.tasks && SameStatic(s.tasks[Held(s, w)], y) && !y.phase.Waiting?
    requires y.complete == s.tasks[Held(s, w)].complete && y.consumed == s.tasks[Held(s, w)].consumed
    ensures var r := Give(s, w, y, to);
            && MovesRecord(s, r, Held(s, w)) && r.heap == s.heap && r.events == s.events
            && (forall q, u :: u in Q(r, q) && u != Held(s, w) ==> u in Q(s, q))
  {}

  lemma PutMoves(s: State, t: Tid, y: Task)
    requires t in s.tasks && SameStatic(s.tasks[t], y) && !y.phase.Waiting?
    requires y.complete == s.tasks[t].complete && y.consumed == s.tasks[t].consumed
    ensures var r := Put(s, t, y); MovesRecord(s, r, t) && (forall q, u :: u in Q(r, q) ==> u in Q(s, q))
  {}

  lemma TakeEntries(s: State, w: Wid, from: Queue, y: Task)
    requires Q(s, from) != []
    ensures forall q, u :: u in Q(Take(s, w, from, y), q) && u != Q(s, from)[0] ==> u in Q(s, q)
  {}

  lemma MovesRouting(s: State, a: Action)
    requires Enabled(s, a)
    requires a.RouteRetry? || a.RouteLocal? || a.RouteGlobal?
    ensures var r := Next(s, a);
            && MovesRecord(s, r, Actor(s, a)) && r.heap == s.heap && r.events == s.events
            && (forall q, u :: u in Q(r, q) && u != Actor(s, a) ==> u in Q(s, q))
  {
    hide MovesRecord, Give;
    var x := s.tasks[Held(s, a.w)].(routed := true);
    match a
    case RouteRetry(w) => GiveMoves(s, w, x, Retry(w));
    case RouteGlobal(w) => GiveMoves(s, w, x, NetOut);
    case RouteLocal(w, c, dest) => MovesRouteLocal(s, w, c, dest);
  }

  lemma MovesRouteLocal(s: State, w: Wid, c: Cid, dest: Wid)
    requires Enabled(s, RouteLocal(w, c, dest))
    ensures var r := Next(s, RouteLocal(w, c, dest));
            && MovesRecord(s, r, Held(s, w)) && r.heap == s.heap && r.events == s.events
            && (forall q, u :: u in Q(r, q) && u != Held(s, w) ==> u in Q(s, q))
  {
    hide MovesRecord, Give;
    var y := s.tasks[Held(s, w)].(routed := true, container := Some(c));
    if dest == w {
      PutMoves(s, Held(s, w), y);
    } else {
      GiveMoves(s, w, y, Lane(dest));
    }
  }

  lemma MovesLetGo(s: State, a: Action)
    requires Enabled(s, a)
    requires a.Reject? || a.DropUnresolved? || a.YieldTimed? || a.YieldZero?
    ensures var r := Next(s, a);
            && MovesRecord(s, r, Actor(s, a)) && r.heap == s.heap && r.events == s.events
            && (forall q, u :: u in Q(r, q) && u != Actor(s, a) ==> u in Q(s, q))
  {}

  lemma MovesQueues(s: State, a: Action)
    requires Enabled(s, a)
    requires a.PopLane? || a.KeepPeriodic? || a.PopPeriodic? || a.KeepRetry? || a.RetryGlobal?
    ensures var r := Next(s, a);
            && MovesRecord(s, r, Actor(s, a)) && r.heap == s.heap && r.events == s.events
            && (forall q, u :: u in Q(r, q) && u != Actor(s, a) ==> u in Q(s, q))
  {
    assert s.tasks[Actor(s, a) := s.tasks[Actor(s, a)]] == s.tasks;
  }

  lemma MovesExec(s: State, a: Action)
    requires Enabled(s, a)
    requires a.Exec? || a.PopBlocked? || a.RunRetry?
    ensures var r := Next(s, a);
            && MovesRecord(s, r, Actor(s, a)) && r.heap == s.heap && r.events == s.events
            && (forall q, u :: u in Q(r, q) && u != Actor(s, a) ==> u in Q(s, q))
  {
    hide Enter, Unplugged;
    match a
    case Exec(w, found, pred) => EnterRecord(s, w, Held(s, w), found, pred, s.tasks[Held(s, w)].started);
    case PopBlocked(w, l, found, pred) =>
      var t := Q(s, Blocked(w, l))[0];
      TakeEntries(s, w, Blocked(w, l), s.tasks[t]);
      EnterRecord(Take(s, w, Blocked(w, l), s.tasks[t]), w, t, found, pred, s.tasks[t].started);
    case RunRetry(w, c, found, pred) =>
      var t := Q(s, Retry(w))[0];
      TakeEntries(s, w, Retry(w), s.tasks[t].(container := Some(c)));
      EnterRecord(Take(s, w, Retry(w), s.tasks[t].(container := Some(c))), w, t, found, pred, false);
  }

  lemma EndMoves(s: State, w: Wid, t: Tid, again: Queue)
    requires t in s.tasks && s.tasks[t].container.Some?
    ensures var r := End(s, w, t, again, false);
            && MovesRecord(s, r, t)
            && (forall q, u :: u in Q(r, q) && u != t ==> u in Q(s, q))
            && (r.heap == s.heap || r.heap == s.heap - {s.tasks[t].addr})
            && (r.events == s.events || exists v :: Notifies(s, t, v) && r.events == s.events[v := E(s, v) + [t]])
  {
    EndFrame(s, w, t, again);
    EndEntries(s, w, t, again);
  }

  lemma EndFrame(s: State, w: Wid, t: Tid, again: Queue)
    requires t in s.tasks && s.tasks[t].container.Some?
    ensures var r := End(s, w, t, again, false);
            && MovesRecord(s, r, t)
            && (r.heap == s.heap || r.heap == s.heap - {s.tasks[t].addr})
            && (r.events == s.events || exists v :: Notifies(s, t, v) && r.events == s.events[v := E(s, v) + [t]])
  {
    hide EndRecord, EndQueues, ExitOf;
    var e := ExitOf(s, s.tasks[t]);
    EndRecordStatic(s.tasks[t], e);
    ExitNotifies(s, t);
    if e.NotifyParent? { assert Notifies(s, t, e.pw); }
  }

  lemma EndRecordStatic(x: Task, e: Exit)
    ensures var y := EndRecord(x, e, false);
            SameStatic(x, y) && (x.complete ==> y.complete) && y.consumed == x.consumed && (y.phase.Waiting? ==> y.phase == x.phase)
  {}

  lemma ExitNotifies(s: State, t: Tid)
    requires t in s.tasks
    ensures var e := ExitOf(s, s.tasks[t]); e.NotifyParent? ==> Notifies(s, t, e.pw)
  {}

  lemma EndEntries(s: State, w: Wid, t: Tid, again: Queue)
    requires t in s.tasks && s.tasks[t].container.Some?
    ensures forall q, u :: u in Q(End(s, w, t, again, false), q) && u != t ==> u in Q(s, q)
  {}

  lemma MovesEnd(s: State, a: Action)
    requires Enabled(s, a)
    requires a.Return? || a.NetReturn?
    ensures MovesRecord(s, Next(s, a), Actor(s, a)) && Moves(s, Next(s, a), Actor(s, a))
  {
    hide End;
    var t := Actor(s, a);
    var y := if a.Return? then s.tasks[t] else s.tasks[t].(container := Some(a.c));
    var s1 := Drop(Put(s, t, y), From(a), Index(a));
    var again := a.again;
    assert Next(s, a) == End(s1, a.w, t, again, false);
    EndMoves(s1, a.w, t, again);
    assert t in Q(s, From(a));
    assert forall q, u :: u in Q(s1, q) ==> u in Q(s, q);
    assert forall v :: E(s1, v) == E(s, v);
    if v :| Notifies(s1, t, v) && Next(s, a).events == s1.events[v := E(s1, v) + [t]] {
      assert Notifies(s, t, v);
    }
  }

  lemma MovesDone(s: State, k: nat)
    requires Enabled(s, NetDone(k))
    ensures Moves(s, Next(s, NetDone(k)), Q(s, NetReply)[k])
  {
    assert Q(s, NetReply)[k] in Q(s, NetReply);
  }

  lemma ActorMoves(s: State, a: Action)
    requires Enabled(s, a) && Handles(a)
    ensures Moves(s, Next(s, a), Actor(s, a))
  {
    assert Actor(s, a) in Q(s, From(a));
    if a.NetDone? {
      MovesDone(s, a.k);
    } else if a.Return? || a.NetReturn? {
      MovesEnd(s, a);
    } else {
      SimpleMoves(s, a);
    }
  }

  lemma SimpleMoves(s: State, a: Action)
    requires Enabled(s, a) && Handles(a) && !a.NetDone? && !a.Return? && !a.NetReturn?
    ensures var r := Next(s, a);
            && MovesRecord(s, r, Actor(s, a)) && r.heap == s.heap && r.events == s.events
            && (forall q, u :: u in Q(r, q) && u != Actor(s, a) ==> u in Q(s, q))
  {
    hide Enabled, Next, MovesRecord, Actor;
    if a.Exec? || a.PopBlocked? || a.RunRetry? {
      MovesExec(s, a);
    } else if a.PopLane? || a.KeepPeriodic? || a.PopPeriodic? || a.KeepRetry? || a.RetryGlobal? {
      MovesQueues(s, a);
    } else if a.RouteRetry? || a.RouteLocal? || a.RouteGlobal? {
      MovesRouting(s, a);
    } else {
      MovesLetGo(s, a);
    }
  }
}
