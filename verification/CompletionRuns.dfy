/** Every action keeps the completion invariant; hence every run does. */
module CompletionRuns {
  import opened Sums
  import opened Scheduler
  import opened Conservation
  import opened Completion

  ghost predicate KinInv(s: State) {
    RecordsOk(s) && HeapOk(s) && LineageOk(s) && AwaitOk(s) && EventsOk(s)
  }

  lemma ReadyHasNoneOutstanding(s: State, t: Tid)
    requires AwaitOk(s) && t in s.tasks && !s.tasks[t].phase.Running? && !s.tasks[t].phase.Waiting?
    ensures AllConsumed(s, t)
  {
    forall c ensures !Outstanding(s, t, c) {}
  }

  /** What the invariant says of one queue entry. */
  lemma EntryFacts(s: State, q: Queue, t: Tid)
    requires Inv(s) && t in Q(s, q)
    ensures EntryOk(s, q, t) && RecordOk(s.tasks[t])
    ensures s.tasks[t].phase == Ready ==> AllConsumed(s, t)
  {
    if s.tasks[t].phase == Ready { ReadyHasNoneOutstanding(s, t); }
  }

  /** An action that rewrites one task's record, frees nothing and sends no event. */
  lemma KinStep(s: State, r: State, t: Tid, y: Task)
    requires Inv(s)
    requires t in s.tasks && r.tasks == s.tasks[t := y] && SameStatic(s.tasks[t], y) && RecordOk(y)
    requires r.heap == s.heap && r.events == s.events && s.tasks[t].freed == y.freed
    requires !y.phase.Waiting? && (AllConsumed(s, t) || (y.phase == Running && y.worker == s.tasks[t].worker))
    requires y.consumed == s.tasks[t].consumed
    requires y.parent.Some? && !y.fireAndForget ==> y.complete == s.tasks[t].complete && (y.phase.Ended? <==> s.tasks[t].phase.Ended?)
    ensures KinInv(r)
  {
    KinKeeps(s, r, t, y);
    HeapKeeps(s, r, t, y);
    EventsKeep(s, r, t, y);
  }

  ghost predicate StaticKept(s: State, r: State) {
    && r.tasks.Keys == s.tasks.Keys && r.heap == s.heap
    && forall t :: t in s.tasks ==> SameStatic(s.tasks[t], r.tasks[t]) && s.tasks[t].freed == r.tasks[t].freed
  }

  lemma StaticKeeps(s: State, r: State)
    requires LineageOk(s) && HeapOk(s) && StaticKept(s, r)
    ensures LineageOk(r) && HeapOk(r)
  {}

  lemma KinUnchanged(s: State, r: State)
    requires Inv(s) && r.tasks == s.tasks && r.heap == s.heap && r.events == s.events
    ensures KinInv(r)
  {
    assert forall p, c :: Outstanding(r, p, c) <==> Outstanding(s, p, c);
    assert forall f :: Pending(r, f) <==> Pending(s, f);
    assert forall w :: E(r, w) == E(s, w);
  }

  // ----- taking, giving and keeping queue entries -----

  lemma TakeStep(s: State, w: Wid, q: Queue, y: Task)
    requires Inv(s) && CanTake(s, w, q) && !q.Hand? && !q.NetReply?
    requires var x := s.tasks[Q(s, q)[0]];
             SameStatic(x, y) && y.phase == Ready && y.worker == w && y.complete == x.complete && y.consumed == x.consumed
             && y.freed == x.freed && y.started == x.started && y.container == x.container && (y.routed ==> y.container.Some?)
    ensures KinInv(Take(s, w, q, y)) && QueuesOk(Take(s, w, q, y))
  {
    hide Conserved, RecordsOk, HeapOk, LineageOk, AwaitOk, EventsOk, QueuesOk, AllConsumed;
    var t := Q(s, q)[0];
    EntryFacts(s, q, t);
    var r := Take(s, w, q, y);
    KinStep(s, r, t, y);
    QueuesMove(s, q, 0, Hand(w), r);
  }

  lemma GiveStep(s: State, w: Wid, y: Task, q: Queue)
    requires Inv(s) && |Q(s, Hand(w))| == 1 && Held(s, w) in s.tasks && !q.Hand?
    requires var x := s.tasks[Held(s, w)];
             SameStatic(x, y) && RecordOk(y) && y.phase == Ready && y.complete == x.complete && y.consumed == x.consumed && y.freed == x.freed
             && y.worker == x.worker
    requires AllConsumed(s, Held(s, w)) && EntryOk(Give(s, w, y, q), q, Held(s, w))
    ensures KinInv(Give(s, w, y, q)) && QueuesOk(Give(s, w, y, q))
  {
    hide Conserved, RecordsOk, HeapOk, LineageOk, AwaitOk, EventsOk, QueuesOk, AllConsumed;
    var t := Held(s, w);
    EntryFacts(s, Hand(w), t);
    var r := Give(s, w, y, q);
    KinStep(s, r, t, y);
    QueuesMove(s, Hand(w), 0, q, r);
  }

  lemma ShiftStep(s: State, q: Queue, q': Queue)
    requires Inv(s) && Q(s, q) != [] && !q'.Hand? && EntryOk(s, q', Q(s, q)[0])
    ensures KinInv(Shift(s, q, q')) && QueuesOk(Shift(s, q, q'))
  {
    hide Conserved, RecordsOk, HeapOk, LineageOk, AwaitOk, EventsOk, QueuesOk, AllConsumed;
    var r := Shift(s, q, q');
    EntryFacts(s, q, Q(s, q)[0]);
    KinUnchanged(s, r);
    QueuesMove(s, q, 0, q', r);
  }

  lemma RouteAwayStep(s: State, a: Action)
    requires Inv(s) && Enabled(s, a) && Disciplined(s, a)
    requires a.RouteRetry? || a.RouteGlobal?
    ensures KinInv(Next(s, a)) && QueuesOk(Next(s, a))
  {
    hide Conserved, RecordsOk, HeapOk, LineageOk, AwaitOk, EventsOk, QueuesOk, AllConsumed;
    EntryFacts(s, Hand(a.w), Held(s, a.w));
    var y := s.tasks[Held(s, a.w)].(routed := true);
    if a.RouteRetry? { GiveStep(s, a.w, y, Retry(a.w)); } else { GiveStep(s, a.w, y, NetOut); }
  }

  lemma RouteLocalStep(s: State, w: Wid, c: Cid, dest: Wid)
    requires Inv(s) && Enabled(s, RouteLocal(w, c, dest))
    ensures KinInv(Next(s, RouteLocal(w, c, dest))) && QueuesOk(Next(s, RouteLocal(w, c, dest)))
  {
    hide Conserved, RecordsOk, HeapOk, LineageOk, AwaitOk, EventsOk, QueuesOk, AllConsumed;
    var t := Held(s, w);
    EntryFacts(s, Hand(w), t);
    var y := s.tasks[t].(routed := true, container := Some(c));
    if dest == w {
      var r := Put(s, t, y);
      KinStep(s, r, t, y);
      QueuesStay(s, Hand(w), t, r);
    } else {
      GiveStep(s, w, y, Lane(dest));
    }
  }

  lemma QueueStep(s: State, a: Action)
    requires Inv(s) && Enabled(s, a)
    requires a.PopLane? || a.KeepPeriodic? || a.PopPeriodic? || a.KeepRetry? || a.RetryGlobal?
    ensures KinInv(Next(s, a)) && QueuesOk(Next(s, a))
  {
    hide Conserved, RecordsOk, HeapOk, LineageOk, AwaitOk, EventsOk, QueuesOk, AllConsumed;
    match a
    case PopLane(w) =>
      EntryFacts(s, Lane(w), Q(s, Lane(w))[0]);
      TakeStep(s, w, Lane(w), s.tasks[Q(s, Lane(w))[0]].(worker := w));
    case KeepPeriodic(w, l) =>
      EntryFacts(s, Periodic(w, l), Q(s, Periodic(w, l))[0]);
      ShiftStep(s, Periodic(w, l), Periodic(w, l));
    case PopPeriodic(w, l) =>
      EntryFacts(s, Periodic(w, l), Q(s, Periodic(w, l))[0]);
      TakeStep(s, w, Periodic(w, l), s.tasks[Q(s, Periodic(w, l))[0]].(routed := false));
    case KeepRetry(w) =>
      EntryFacts(s, Retry(w), Q(s, Retry(w))[0]);
      ShiftStep(s, Retry(w), Retry(w));
    case RetryGlobal(w) =>
      EntryFacts(s, Retry(w), Q(s, Retry(w))[0]);
      ShiftStep(s, Retry(w), NetOut);
  }

  // ----- ExecTask -----

  /** The record ExecTask leaves. */
  function Entered(x: Task, found: Option<Cid>, pred: real, resume: bool): Task
    requires ExecContainer(x, found).Some?
  {
    var y := x.(container := ExecContainer(x, found), phase := Running);
    if resume then y else y.(started := true, predicted := pred)
  }

  lemma EnterRecord(s: State, w: Wid, t: Tid, found: Option<Cid>, pred: real, resume: bool)
    requires t in s.tasks && ExecContainer(s.tasks[t], found).Some?
    ensures var r := Enter(s, w, t, found, pred, resume);
            && r.tasks == s.tasks[t := Entered(s.tasks[t], found, pred, resume)]
            && r.heap == s.heap && r.events == s.events && r.queues == s.queues && r.plugged == s.plugged
            && (resume ==> r.load == s.load && r.work == s.work)
  {}

  lemma ExecStep(s: State, w: Wid, found: Option<Cid>, pred: real)
    requires Inv(s) && Enabled(s, Exec(w, found, pred))
    ensures KinInv(Next(s, Exec(w, found, pred))) && QueuesOk(Next(s, Exec(w, found, pred)))
  {
    hide Conserved, RecordsOk, HeapOk, LineageOk, AwaitOk, EventsOk, QueuesOk, AllConsumed;
    hide Enter;
    var t := Held(s, w);
    var x := s.tasks[t];
    EntryFacts(s, Hand(w), t);
    EnterRecord(s, w, t, found, pred, x.started);
    var r := Next(s, Exec(w, found, pred));
    KinStep(s, r, t, Entered(x, found, pred, x.started));
    QueuesStay(s, Hand(w), t, r);
  }

  lemma TakeEnterStep(s: State, w: Wid, q: Queue, x': Task, found: Option<Cid>, pred: real, resume: bool)
    requires Inv(s) && CanTake(s, w, q) && (q.Blocked? || q.Retry?) && q.w == w
    requires var x := s.tasks[Q(s, q)[0]]; x' == x.(container := x'.container) && (x.container.Some? ==> x'.container.Some?)
    requires ExecContainer(x', found).Some? && (resume ==> x'.started)
    ensures var r := Enter(Take(s, w, q, x'), w, Q(s, q)[0], found, pred, resume); KinInv(r) && QueuesOk(r)
  {
    hide Conserved, RecordsOk, HeapOk, LineageOk, AwaitOk, EventsOk, QueuesOk, AllConsumed;
    hide Enter;
    var t := Q(s, q)[0];
    EntryFacts(s, q, t);
    EnterRecord(Take(s, w, q, x'), w, t, found, pred, resume);
    var r := Enter(Take(s, w, q, x'), w, t, found, pred, resume);
    TakenKin(s, r, t, Entered(x', found, pred, resume));
    TakenQueues(s, r, q, w, Entered(x', found, pred, resume));
  }

  lemma TakenKin(s: State, r: State, t: Tid, y: Task)
    requires Inv(s) && t in s.tasks && r.tasks == s.tasks[t := y] && r.heap == s.heap && r.events == s.events
    requires AllConsumed(s, t) && RecordOk(s.tasks[t]) && s.tasks[t].phase == Ready && y.started && y.container.Some?
    requires y == s.tasks[t].(container := y.container, phase := Running, started := y.started, predicted := y.predicted)
    ensures KinInv(r)
  {
    hide Conserved, RecordsOk, HeapOk, LineageOk, AwaitOk, EventsOk, QueuesOk, AllConsumed;
    KinStep(s, r, t, y);
  }

  lemma TakenQueues(s: State, r: State, q: Queue, w: Wid, y: Task)
    requires Inv(s) && Q(s, q) != [] && Q(s, Hand(w)) == [] && Q(s, q)[0] in s.tasks && r.tasks == s.tasks[Q(s, q)[0] := y]
    requires r.queues == Push(Drop(s, q, 0), Hand(w), Q(s, q)[0]).queues
    requires y.phase == Running && y.worker == w && y.container.Some?
    ensures QueuesOk(r)
  {
    hide Conserved, RecordsOk, HeapOk, LineageOk, AwaitOk, EventsOk, QueuesOk, AllConsumed;
    QueuesMove(s, q, 0, Hand(w), r);
  }

  lemma ResumeStep(s: State, a: Action)
    requires Inv(s) && Enabled(s, a)
    requires a.PopBlocked? || a.RunRetry?
    ensures KinInv(Next(s, a)) && QueuesOk(Next(s, a))
  {
    match a
    case PopBlocked(w, l, found, pred) =>
      var x := s.tasks[Q(s, Blocked(w, l))[0]];
      TakeEnterStep(s, w, Blocked(w, l), x, found, pred, x.started);
    case RunRetry(w, c, found, pred) =>
      TakeEnterStep(s, w, Retry(w), s.tasks[Q(s, Retry(w))[0]].(container := Some(c)), found, pred, false);
  }

  // ----- new tasks -----

  predicate IsNew(s: State, t: Tid, x: Task) {
    && t !in s.tasks && x.addr !in s.heap && RecordOk(x) && x.phase == Ready && !x.freed && !x.complete && !x.consumed && !x.routed
    && (x.parent.Some? ==> x.parent.value in s.tasks && s.tasks[x.parent.value].phase == Running
                           && x.parentAddr == Some(s.tasks[x.parent.value].addr))
  }

  lemma AllocateRecords(s: State, t: Tid, x: Task, dest: Wid)
    requires RecordsOk(s) && LineageOk(s) && HeapOk(s) && IsNew(s, t, x)
    ensures var r := Allocate(s, t, x, dest); RecordsOk(r) && LineageOk(r) && HeapOk(r)
  {}

  lemma AllocateAwait(s: State, t: Tid, x: Task, dest: Wid)
    requires AwaitOk(s) && IsNew(s, t, x)
    ensures AwaitOk(Allocate(s, t, x, dest))
  {
    var r := Allocate(s, t, x, dest);
    assert forall p, c :: c != t ==> (Outstanding(r, p, c) <==> Outstanding(s, p, c));
    assert forall p: Tid :: Outstanding(r, p, t) ==> x.parent == Some(p);
  }

  lemma AllocateEvents(s: State, t: Tid, x: Task, dest: Wid)
    requires EventsOk(s) && t !in s.tasks && x.phase == Ready
    ensures EventsOk(Allocate(s, t, x, dest))
  {
    var r := Allocate(s, t, x, dest);
    assert forall f :: Pending(r, f) <==> Pending(s, f);
    assert forall w :: E(r, w) == E(s, w);
  }

  lemma NewIsNowhere(s: State, t: Tid)
    requires Conserved(s) && t !in s.tasks
    ensures forall q :: t !in Q(s, q)
  {
    forall q ensures t !in Q(s, q) { TotalAtLeast(s.queues, q, t); assert Places(s, t) == 0; }
  }

  lemma AllocateStep(s: State, t: Tid, x: Task, dest: Wid)
    requires Inv(s) && IsNew(s, t, x)
    ensures KinInv(Allocate(s, t, x, dest)) && QueuesOk(Allocate(s, t, x, dest))
  {
    hide Conserved, RecordsOk, HeapOk, LineageOk, AwaitOk, EventsOk, QueuesOk, AllConsumed;
    AllocateRecords(s, t, x, dest);
    AllocateAwait(s, t, x, dest);
    AllocateEvents(s, t, x, dest);
    NewIsNowhere(s, t);
    QueuesArrive(s, t, Lane(dest), Allocate(s, t, x, dest));
  }

  lemma NewStep(s: State, a: Action)
    requires Inv(s) && Enabled(s, a)
    requires a.Submit? || a.Spawn?
    ensures KinInv(Next(s, a)) && QueuesOk(Next(s, a))
  {
    match a
    case Submit(t, ad, w, periodic, faf, reply) => AllocateStep(s, t, NewTask(None, None, ad, w, periodic, faf, reply), w);
    case Spawn(w, t, ad, dest, faf) =>
      var p := Held(s, w);
      AllocateStep(s, t, NewTask(Some(p), Some(s.tasks[p].addr), ad, dest, false, faf, ToFuture), dest);
  }

  // ----- co_await -----

  /** A subtask is complete exactly when its parent has consumed it, so co_await of an
      unconsumed one always suspends. */
  lemma AwaitSuspends(s: State, p: Tid, c: Tid)
    requires Inv(s) && Outstanding(s, p, c)
    ensures !s.tasks[c].complete
  {
    assert RecordOk(s.tasks[c]);
  }

  lemma AwaitRecords(s: State, r: State, p: Tid, c: Tid)
    requires RecordsOk(s) && p in s.tasks && s.tasks[p].phase == Running
    requires r.tasks == s.tasks[p := s.tasks[p].(phase := Waiting(c))]
    ensures RecordsOk(r)
  {
    assert RecordOk(s.tasks[p]);
  }

  lemma AwaitWaits(s: State, r: State, p: Tid, c: Tid)
    requires AwaitOk(s)
    requires p in s.tasks && s.tasks[p].phase == Running && Outstanding(s, p, c) && !s.tasks[c].complete && ConsumedExcept(s, p, c)
    requires r.tasks == s.tasks[p := s.tasks[p].(phase := Waiting(c))]
    ensures AwaitOk(r)
  {
    assert forall q, d :: Outstanding(r, q, d) <==> Outstanding(s, q, d);
  }

  lemma AwaitStep(s: State, w: Wid, c: Tid)
    requires Inv(s) && Enabled(s, Await(w, c)) && Disciplined(s, Await(w, c))
    ensures KinInv(Next(s, Await(w, c))) && QueuesOk(Next(s, Await(w, c)))
  {
    hide Conserved, RecordsOk, HeapOk, LineageOk, AwaitOk, EventsOk, QueuesOk, AllConsumed;
    hide ConsumedExcept;
    var p := Held(s, w);
    AwaitSuspends(s, p, c);
    EntryFacts(s, Hand(w), p);
    var y := s.tasks[p].(phase := Waiting(c));
    var r := LetGo(s, w, y);
    AwaitRecords(s, r, p, c);
    AwaitWaits(s, r, p, c);
    StaticKeeps(s, r);
    EventsKeep(s, r, p, y);
    QueuesLeave(s, Hand(w), 0, r);
  }

  lemma YieldStep(s: State, w: Wid, l: nat)
    requires Inv(s) && Enabled(s, YieldTimed(w, l)) && Disciplined(s, YieldTimed(w, l))
    ensures KinInv(Next(s, YieldTimed(w, l))) && QueuesOk(Next(s, YieldTimed(w, l)))
  {
    hide Conserved, RecordsOk, HeapOk, LineageOk, AwaitOk, EventsOk, QueuesOk, AllConsumed;
    EntryFacts(s, Hand(w), Held(s, w));
    GiveStep(s, w, s.tasks[Held(s, w)].(phase := Ready), Periodic(w, l));
  }

  lemma RejectStep(s: State, w: Wid)
    requires Inv(s) && Enabled(s, Reject(w)) && Disciplined(s, Reject(w))
    ensures KinInv(Next(s, Reject(w))) && QueuesOk(Next(s, Reject(w)))
  {
    hide Conserved, RecordsOk, HeapOk, LineageOk, AwaitOk, EventsOk, QueuesOk, AllConsumed;
    var t := Held(s, w);
    EntryFacts(s, Hand(w), t);
    var y := s.tasks[t].(phase := Rejected, complete := true);
    var r := LetGo(s, w, y);
    KinStep(s, r, t, y);
    QueuesLeave(s, Hand(w), 0, r);
  }

  // ----- EndTask -----

  /** EndTask notifies the parent of every subtask but the fire-and-forget ones: the
      parent is alive because it has not consumed this subtask. */
  lemma ExitFacts(s: State, t: Tid)
    requires Inv(s) && t in s.tasks && (s.tasks[t].phase == Ready || s.tasks[t].phase == Running)
    ensures var x := s.tasks[t];
            && (x.parent.Some? && !x.fireAndForget ==>
                  && x.parent.value in s.tasks && ExitOf(s, x) == NotifyParent(s.tasks[x.parent.value].worker))
            && (ExitOf(s, x).NotifyParent? ==> x.parent.Some? && !x.fireAndForget)
            && RecordOk(x) && !x.freed && !x.complete && !x.consumed
  {
    var x := s.tasks[t];
    assert RecordOk(x);
    if x.parent.Some? && !x.fireAndForget {
      assert Outstanding(s, x.parent.value, t);
      assert RecordOk(s.tasks[x.parent.value]);
    }
  }

  /** `t` ends in `s`: what `End` does to the tables other than the queues. */
  lemma EndKin(s: State, r: State, t: Tid, e: Exit, y: Task)
    requires Inv(s) && t in s.tasks && AllConsumed(s, t) && RecordOk(s.tasks[t]) && !s.tasks[t].freed && !s.tasks[t].complete
    requires SameStatic(s.tasks[t], y) && RecordOk(y) && r.tasks == s.tasks[t := y]
    requires !y.phase.Running? && !y.phase.Waiting? && !y.consumed && !s.tasks[t].consumed
    requires r.heap == if y.freed then s.heap - {y.addr} else s.heap
    requires y.parent.Some? ==> !y.complete
    ensures RecordsOk(r) && HeapOk(r) && LineageOk(r) && AwaitOk(r)
  {
    hide Conserved, RecordsOk, HeapOk, LineageOk, AwaitOk, EventsOk, QueuesOk, AllConsumed;
    KinKeeps(s, r, t, y);
    if y.freed { HeapFrees(s, r, t, y); } else { HeapKeeps(s, r, t, y); }
  }

  lemma EndNotifies(s: State, r: State, t: Tid, y: Task)
    requires EventsOk(s) && t in s.tasks && r.tasks == s.tasks[t := y] && SameStatic(s.tasks[t], y) && y.worker == s.tasks[t].worker
    requires y.parent.Some? && y.parent.value in s.tasks && y.parent.value != t && !y.fireAndForget
    requires !Pending(s, t) && Pending(r, t)
    requires var pw := s.tasks[y.parent.value].worker; r.events == s.events[pw := E(s, pw) + [t]]
    ensures EventsOk(r)
  {
    var pw := s.tasks[y.parent.value].worker;
    TotalAppend(s.events, pw, t);
    forall f ensures Total(r.events, f) == if Pending(r, f) then 1 else 0 {
      assert f != t ==> (Pending(r, f) <==> Pending(s, f));
    }
    forall w, f | f in E(r, w)
      ensures f in r.tasks && r.tasks[f].parent.Some? && r.tasks[f].parent.value in r.tasks
              && r.tasks[r.tasks[f].parent.value].worker == w
    {
      assert f in E(s, w) || (w == pw && f == t);
    }
  }

  /** `s1` is `s` with `t` taken out of its queue for EndTask on behalf of container `c`. */
  ghost predicate ReadyToEnd(s: State, s1: State, from: Queue, k: nat) {
    && k < |Q(s, from)| && Q(s, from)[k] in s.tasks
    && var t := Q(s, from)[k];
    && (s.tasks[t].phase == Ready || s.tasks[t].phase == Running) && AllConsumed(s, t)
    && t in s1.tasks && s1.tasks == s.tasks[t := s1.tasks[t]] && s1.tasks[t] == s.tasks[t].(container := s1.tasks[t].container)
    && s1.tasks[t].container.Some?
    && s1.heap == s.heap && s1.events == s.events && s1.queues == Drop(s, from, k).queues
  }

  lemma EndEvents(s: State, s1: State, from: Queue, k: nat, w: Wid, again: Queue)
    requires Inv(s) && ReadyToEnd(s, s1, from, k)
    ensures EventsOk(End(s1, w, Q(s, from)[k], again, false))
  {
    hide Conserved, RecordsOk, HeapOk, LineageOk, AwaitOk, EventsOk, QueuesOk, AllConsumed;
    var t := Q(s, from)[k];
    var r := End(s1, w, t, again, false);
    ExitFacts(s, t);
    SameExit(s, s1, t);
    var e := ExitOf(s1, s1.tasks[t]);
    var y := EndRecord(s1.tasks[t], e, false);
    assert r.tasks == s.tasks[t := y];
    if e.NotifyParent? {
      OwnParent(s, t);
      EndNotifies(s, r, t, y);
    } else {
      EventsKeep(s, r, t, y);
    }
  }

  lemma EndKinStep(s: State, s1: State, from: Queue, k: nat, w: Wid, again: Queue)
    requires Inv(s) && ReadyToEnd(s, s1, from, k)
    ensures KinInv(End(s1, w, Q(s, from)[k], again, false))
  {
    hide Conserved, RecordsOk, HeapOk, LineageOk, AwaitOk, EventsOk, QueuesOk, AllConsumed;
    var t := Q(s, from)[k];
    ExitFacts(s, t);
    SameExit(s, s1, t);
    var e := ExitOf(s1, s1.tasks[t]);
    EndEvents(s, s1, from, k, w, again);
    EndKin(s, End(s1, w, t, again, false), t, e, EndRecord(s1.tasks[t], e, false));
  }

  /** A rescheduled or replying task is queued again. */
  lemma EndRequeues(s: State, s1: State, from: Queue, k: nat, w: Wid, again: Queue, to: Queue)
    requires Inv(s) && ReadyToEnd(s, s1, from, k)
    requires var e := ExitOf(s1, s1.tasks[Q(s, from)[k]]); (e.Reschedule? && to == again) || (e.SendReply? && to == NetReply)
    requires OwnSleepQueue(again, w) && (s.tasks[Q(s, from)[k]].periodic ==> s.tasks[Q(s, from)[k]].worker == w)
    ensures QueuesOk(End(s1, w, Q(s, from)[k], again, false))
  {
    hide Conserved, RecordsOk, HeapOk, LineageOk, AwaitOk, EventsOk, QueuesOk, AllConsumed;
    var t := Q(s, from)[k];
    var r := End(s1, w, t, again, false);
    assert r.tasks == s.tasks[t := EndRecord(s1.tasks[t], ExitOf(s1, s1.tasks[t]), false)];
    assert r.queues == Push(Drop(s, from, k), to, t).queues;
    QueuesMove(s, from, k, to, r);
  }

  lemma EndLeaves(s: State, s1: State, from: Queue, k: nat, w: Wid, again: Queue)
    requires Inv(s) && ReadyToEnd(s, s1, from, k)
    requires var e := ExitOf(s1, s1.tasks[Q(s, from)[k]]); !e.Reschedule? && !e.SendReply?
    ensures QueuesOk(End(s1, w, Q(s, from)[k], again, false))
  {
    hide Conserved, RecordsOk, HeapOk, LineageOk, AwaitOk, EventsOk, QueuesOk, AllConsumed;
    var t := Q(s, from)[k];
    var r := End(s1, w, t, again, false);
    assert r.tasks == s.tasks[t := EndRecord(s1.tasks[t], ExitOf(s1, s1.tasks[t]), false)];
    QueuesLeave(s, from, k, r);
  }

  lemma EndQueuesStep(s: State, s1: State, from: Queue, k: nat, w: Wid, again: Queue)
    requires Inv(s) && ReadyToEnd(s, s1, from, k)
    requires OwnSleepQueue(again, w) && (s.tasks[Q(s, from)[k]].periodic ==> s.tasks[Q(s, from)[k]].worker == w)
    ensures QueuesOk(End(s1, w, Q(s, from)[k], again, false))
  {
    hide Conserved, RecordsOk, HeapOk, LineageOk, AwaitOk, EventsOk, QueuesOk, AllConsumed, End;
    var t := Q(s, from)[k];
    var e := ExitOf(s1, s1.tasks[t]);
    if e.Reschedule? {
      EndRequeues(s, s1, from, k, w, again, again);
    } else if e.SendReply? {
      EndRequeues(s, s1, from, k, w, again, NetReply);
    } else {
      EndLeaves(s, s1, from, k, w, again);
    }
  }

  lemma ReturnStep(s: State, w: Wid, again: Queue)
    requires Inv(s) && Enabled(s, Return(w, again)) && Disciplined(s, Return(w, again))
    ensures KinInv(Next(s, Return(w, again))) && QueuesOk(Next(s, Return(w, again)))
  {
    hide Conserved, RecordsOk, HeapOk, LineageOk, AwaitOk, EventsOk, QueuesOk, AllConsumed;
    hide End;
    var t := Held(s, w);
    var s1 := LetGo(s, w, s.tasks[t]);
    EntryFacts(s, Hand(w), t);
    EndKinStep(s, s1, Hand(w), 0, w, again);
    EndQueuesStep(s, s1, Hand(w), 0, w, again);
  }

  lemma NetReturnStep(s: State, a: Action)
    requires Inv(s) && a.NetReturn? && Enabled(s, a) && Disciplined(s, a)
    ensures KinInv(Next(s, a)) && QueuesOk(Next(s, a))
  {
    hide Conserved, RecordsOk, HeapOk, LineageOk, AwaitOk, EventsOk, QueuesOk, AllConsumed;
    hide End;
    var t := Q(s, NetOut)[a.k];
    var s1 := Drop(Put(s, t, s.tasks[t].(container := Some(a.c))), NetOut, a.k);
    EntryFacts(s, NetOut, t);
    EndKinStep(s, s1, NetOut, a.k, a.w, a.again);
    EndQueuesStep(s, s1, NetOut, a.k, a.w, a.again);
  }

  lemma SameExit(s: State, s1: State, t: Tid)
    requires t in s.tasks && s1.tasks.Keys == s.tasks.Keys && s1.heap == s.heap
    requires s1.tasks[t] == s.tasks[t].(container := s1.tasks[t].container)
    requires forall u :: u in s.tasks && u != t ==> s1.tasks[u] == s.tasks[u]
    ensures ExitOf(s1, s1.tasks[t]) == ExitOf(s, s.tasks[t])
  {}

  /** Nobody is its own parent while it is unfinished. */
  lemma OwnParent(s: State, t: Tid)
    requires Inv(s) && t in s.tasks && (s.tasks[t].phase == Ready || s.tasks[t].phase == Running) && AllConsumed(s, t)
    requires s.tasks[t].parent.Some? && !s.tasks[t].fireAndForget
    ensures s.tasks[t].parent.value != t
  {
    assert RecordOk(s.tasks[t]);
    assert !Outstanding(s, t, t);
  }

  // ----- ProcessEventQueue -----

  /** `f` becomes complete and consumed, and its parent `p` runs again. */
  predicate Wakes(s: State, r: State, f: Tid, p: Tid, y: Task) {
    && f in s.tasks && p in s.tasks && f != p && s.tasks[p].phase == Waiting(f) && s.tasks[f].phase.Ended?
    && y == s.tasks[p].(phase := Running, container := y.container) && y.container.Some?
    && r.tasks == s.tasks[f := s.tasks[f].(complete := true, consumed := true)][p := y] && r.heap == s.heap
  }

  lemma WakeRecords(s: State, r: State, f: Tid, p: Tid, y: Task)
    requires RecordsOk(s) && Wakes(s, r, f, p, y)
    ensures RecordsOk(r)
  {
    assert RecordOk(s.tasks[p]) && RecordOk(s.tasks[f]);
  }

  lemma WakeStatic(s: State, r: State, f: Tid, p: Tid, y: Task)
    requires Wakes(s, r, f, p, y)
    ensures StaticKept(s, r)
  {}

  lemma WakeAwait(s: State, r: State, f: Tid, p: Tid, y: Task)
    requires AwaitOk(s) && Wakes(s, r, f, p, y)
    ensures AwaitOk(r)
  {
    assert forall q, d :: Outstanding(r, q, d) <==> Outstanding(s, q, d) && d != f;
  }

  lemma WakeTotals(s: State, r: State, w: Wid, p: Tid, y: Task)
    requires EventsOk(s) && E(s, w) != [] && E(s, w)[0] in s.tasks && p in s.tasks && E(s, w)[0] != p
    requires var f := E(s, w)[0]; r.tasks == s.tasks[f := s.tasks[f].(complete := true, consumed := true)][p := y]
    requires y == s.tasks[p].(phase := Running, container := y.container) && s.tasks[p].phase.Waiting?
    requires r.events == s.events[w := E(s, w)[1..]]
    ensures forall g :: Total(r.events, g) == if Pending(r, g) then 1 else 0
  {
    hide Total;
    var f := E(s, w)[0];
    TotalRemove(s.events, w, 0);
    TotalAtLeast(s.events, w, f);
    assert E(s, w)[..0] + E(s, w)[0 + 1..] == E(s, w)[1..];
    forall g ensures Total(r.events, g) == if Pending(r, g) then 1 else 0 {
      assert g != f ==> (Pending(r, g) <==> Pending(s, g));
    }
  }

  lemma WakeEvents(s: State, r: State, w: Wid, p: Tid, y: Task)
    requires EventsOk(s) && E(s, w) != [] && E(s, w)[0] in s.tasks && p in s.tasks && E(s, w)[0] != p
    requires var f := E(s, w)[0]; r.tasks == s.tasks[f := s.tasks[f].(complete := true, consumed := true)][p := y]
    requires y == s.tasks[p].(phase := Running, container := y.container) && s.tasks[p].phase.Waiting?
    requires r.events == s.events[w := E(s, w)[1..]]
    ensures EventsOk(r)
  {
    hide Total;
    WakeTotals(s, r, w, p, y);
    forall v, g | g in E(r, v)
      ensures g in r.tasks && r.tasks[g].parent.Some? && r.tasks[g].parent.value in r.tasks
              && r.tasks[r.tasks[g].parent.value].worker == v
    {
      assert g in E(s, v);
    }
  }

  lemma SuspendedIsNowhere(s: State, t: Tid)
    requires Conserved(s) && Suspended(s, t)
    ensures forall q :: t !in Q(s, q)
  {
    forall q ensures t !in Q(s, q) { TotalAtLeast(s.queues, q, t); assert Places(s, t) == 1; }
  }

  /** What one event does when its parent waits for it. */
  lemma PopEventEffect(s: State, w: Wid, found: Option<Cid>)
    requires E(s, w) != [] && EventIsLive(s, w)
    ensures var f := E(s, w)[0];
            var p := s.heap[s.tasks[f].parentAddr.value];
            var r := DoPopEvent(s, w, found);
            && f != p && ExecContainer(s.tasks[p], found).Some?
            && r.tasks == s.tasks[f := s.tasks[f].(complete := true, consumed := true)]
                                 [p := s.tasks[p].(phase := Running, container := ExecContainer(s.tasks[p], found))]
            && r.heap == s.heap && r.events == s.events[w := E(s, w)[1..]]
            && r.queues == Push(s, Hand(w), p).queues
            && r.load == s.load && r.work == s.work && r.plugged == s.plugged
  {
    hide Enter, DoPopEvent;
    PopEventShape(s, w, found);
    var f := E(s, w)[0];
    var p := s.heap[s.tasks[f].parentAddr.value];
    EnterRecord(Consumed(s, w), w, p, found, 0.0, true);
  }

  /** The first future of the queue, completed and seen by its awaiter. */
  function Consumed(s: State, w: Wid): State
    requires E(s, w) != [] && E(s, w)[0] in s.tasks
  {
    var f := E(s, w)[0];
    s.(tasks := s.tasks[f := s.tasks[f].(complete := true, consumed := true)], events := s.events[w := E(s, w)[1..]])
  }

  lemma PopEventShape(s: State, w: Wid, found: Option<Cid>)
    requires E(s, w) != [] && EventIsLive(s, w)
    ensures var f := E(s, w)[0];
            var p := s.heap[s.tasks[f].parentAddr.value];
            && f != p && ExecContainer(s.tasks[p], found).Some? && Consumed(s, w).tasks[p] == s.tasks[p]
            && DoPopEvent(s, w, found) == Push(Enter(Consumed(s, w), w, p, found, 0.0, true), Hand(w), p)
  {
    hide Enter, Push, E;
    var f := E(s, w)[0];
    var s1 := Put(s, f, s.tasks[f].(complete := true)).(events := s.events[w := E(s, w)[1..]]);
    assert Put(s1, f, s1.tasks[f].(consumed := true)) == Consumed(s, w);
  }

  lemma PopEventStep(s: State, w: Wid, found: Option<Cid>)
    requires Inv(s) && Enabled(s, PopEvent(w, found))
    ensures KinInv(Next(s, PopEvent(w, found))) && QueuesOk(Next(s, PopEvent(w, found)))
  {
    hide Inv, Enabled, KinInv, DoPopEvent;
    EventRuns(s, w, found);
    PopEventKin(s, w, found);
    PopEventQueues(s, w, found);
  }

  lemma EventRuns(s: State, w: Wid, found: Option<Cid>)
    requires Enabled(s, PopEvent(w, found))
    ensures Q(s, Hand(w)) == [] && E(s, w) != [] && E(s, w)[0] in s.tasks && Next(s, PopEvent(w, found)) == DoPopEvent(s, w, found)
  {}

  lemma PopEventKin(s: State, w: Wid, found: Option<Cid>)
    requires Inv(s) && Q(s, Hand(w)) == [] && E(s, w) != [] && E(s, w)[0] in s.tasks
    ensures KinInv(DoPopEvent(s, w, found))
  {
    hide Conserved, RecordsOk, HeapOk, LineageOk, AwaitOk, EventsOk, QueuesOk, AllConsumed;
    hide DoPopEvent;
    EventsAreLive(s, w);
    PopEventEffect(s, w, found);
    var f := E(s, w)[0];
    var p := s.heap[s.tasks[f].parentAddr.value];
    var y := s.tasks[p].(phase := Running, container := ExecContainer(s.tasks[p], found));
    var r := DoPopEvent(s, w, found);
    WakeRecords(s, r, f, p, y);
    WakeStatic(s, r, f, p, y);
    StaticKeeps(s, r);
    WakeAwait(s, r, f, p, y);
    WakeEvents(s, r, w, p, y);
  }

  lemma PopEventQueues(s: State, w: Wid, found: Option<Cid>)
    requires Inv(s) && Q(s, Hand(w)) == [] && E(s, w) != [] && E(s, w)[0] in s.tasks
    ensures QueuesOk(DoPopEvent(s, w, found))
  {
    hide Conserved, RecordsOk, HeapOk, LineageOk, AwaitOk, EventsOk, QueuesOk, AllConsumed;
    hide DoPopEvent;
    EventsAreLive(s, w);
    PopEventEffect(s, w, found);
    var p := s.heap[s.tasks[E(s, w)[0]].parentAddr.value];
    var r := DoPopEvent(s, w, found);
    SuspendedIsNowhere(s, p);
    ParentWorker(s, w);
    QueuesArrive(s, p, Hand(w), r);
  }

  lemma ParentWorker(s: State, w: Wid)
    requires Inv(s) && Q(s, Hand(w)) == [] && E(s, w) != []
    ensures EventIsLive(s, w)
    ensures s.tasks[s.heap[s.tasks[E(s, w)[0]].parentAddr.value]].worker == w
  {
    EventsAreLive(s, w);
    assert E(s, w)[0] in E(s, w);
  }

  // ----- the rest -----

  lemma FreeFacts(s: State, t: Tid)
    requires Inv(s) && t in s.tasks && (s.tasks[t].complete || s.tasks[t].consumed)
    ensures Done(s.tasks[t]) && AllConsumed(s, t) && RecordOk(s.tasks[t])
  {
    assert RecordOk(s.tasks[t]);
    ReadyHasNoneOutstanding(s, t);
  }

  lemma FreeStep(s: State, t: Tid)
    requires Inv(s) && Enabled(s, Free(t))
    ensures KinInv(Next(s, Free(t))) && QueuesOk(Next(s, Free(t)))
  {
    hide Conserved, RecordsOk, HeapOk, LineageOk, AwaitOk, EventsOk, QueuesOk, AllConsumed;
    FreeFacts(s, t);
    var y := s.tasks[t].(freed := true);
    var r := Next(s, Free(t));
    FreeKin(s, r, t, y);
    FreeQueues(s, r, t, y);
  }

  lemma FreeKin(s: State, r: State, t: Tid, y: Task)
    requires Inv(s) && t in s.tasks && AllConsumed(s, t) && !s.tasks[t].freed && RecordOk(y)
    requires SameStatic(s.tasks[t], y) && Done(y) && y.freed && y.consumed == s.tasks[t].consumed && y.worker == s.tasks[t].worker
    requires y.parent.Some? ==> y.complete == s.tasks[t].complete && y.phase == s.tasks[t].phase
    requires r.tasks == s.tasks[t := y] && r.heap == s.heap - {y.addr} && r.events == s.events
    ensures KinInv(r)
  {
    hide Conserved, RecordsOk, HeapOk, LineageOk, AwaitOk, EventsOk, QueuesOk, AllConsumed;
    KinKeeps(s, r, t, y);
    HeapFrees(s, r, t, y);
    EventsKeep(s, r, t, y);
  }

  lemma FreeQueues(s: State, r: State, t: Tid, y: Task)
    requires QueuesOk(s) && t in s.tasks && y == s.tasks[t].(freed := true) && r.tasks == s.tasks[t := y] && r.queues == s.queues
    ensures QueuesOk(r)
  {
    assert forall q, u :: EntryOk(s, q, u) ==> EntryOk(r, q, u);
    assert forall q :: Q(r, q) == Q(s, q);
  }

  lemma NetDoneStep(s: State, k: nat)
    requires Inv(s) && Enabled(s, NetDone(k))
    ensures KinInv(Next(s, NetDone(k))) && QueuesOk(Next(s, NetDone(k)))
  {
    hide Conserved, RecordsOk, HeapOk, LineageOk, AwaitOk, EventsOk, QueuesOk, AllConsumed;
    var t := Q(s, NetReply)[k];
    NetReplyFacts(s, t);
    var y := s.tasks[t].(phase := Ended, freed := true);
    var r := Next(s, NetDone(k));
    FreeKin(s, r, t, y);
    QueuesLeave(s, NetReply, k, r);
  }

  lemma NetReplyFacts(s: State, t: Tid)
    requires Inv(s) && t in Q(s, NetReply)
    ensures t in s.tasks && s.tasks[t].phase == Replying && RecordOk(s.tasks[t]) && AllConsumed(s, t)
  {
    assert EntryOk(s, NetReply, t);
    ReadyHasNoneOutstanding(s, t);
  }

  lemma PlugStep(s: State, c: Cid)
    requires Inv(s)
    ensures KinInv(Next(s, Plug(c))) && QueuesOk(Next(s, Plug(c)))
  {
    hide Conserved, RecordsOk, HeapOk, LineageOk, AwaitOk, EventsOk, QueuesOk, AllConsumed;
    var r := Next(s, Plug(c));
    KinUnchanged(s, r);
    PlugQueues(s, r);
  }

  lemma PlugQueues(s: State, r: State)
    requires QueuesOk(s) && r.tasks == s.tasks && r.queues == s.queues
    ensures QueuesOk(r)
  {
    assert forall q, u :: EntryOk(s, q, u) ==> EntryOk(r, q, u);
    assert forall q :: Q(r, q) == Q(s, q);
  }

  // ----- runs -----

  lemma StepInv(s: State, a: Action)
    requires Inv(s) && Enabled(s, a) && Disciplined(s, a)
    ensures Inv(Next(s, a))
  {
    hide Conserved, RecordsOk, HeapOk, LineageOk, AwaitOk, EventsOk, QueuesOk, AllConsumed;
    hide Enabled, Disciplined, Next;
    if a.PopEvent? { PopEventLive(s, a.w, a.found); }
    NothingIsLost(s, a);
    StepConserves(s, a, false);
    match a
    case Submit(_, _, _, _, _, _) => NewStep(s, a);
    case PopLane(_) => QueueStep(s, a);
    case Reject(w) => RejectStep(s, w);
    case RouteRetry(_) => RouteAwayStep(s, a);
    case RouteLocal(w, c, dest) => RouteLocalStep(s, w, c, dest);
    case RouteGlobal(_) => RouteAwayStep(s, a);
    case DropUnresolved(_) =>
    case Exec(w, found, pred) => ExecStep(s, w, found, pred);
    case Spawn(_, _, _, _, _) => NewStep(s, a);
    case Await(w, c) => AwaitStep(s, w, c);
    case YieldTimed(w, l) => YieldStep(s, w, l);
    case YieldZero(_) =>
    case Return(w, again) => ReturnStep(s, w, again);
    case PopBlocked(_, _, _, _) => ResumeStep(s, a);
    case KeepPeriodic(_, _) => QueueStep(s, a);
    case PopPeriodic(_, _) => QueueStep(s, a);
    case KeepRetry(_) => QueueStep(s, a);
    case RunRetry(_, _, _, _) => ResumeStep(s, a);
    case RetryGlobal(_) => QueueStep(s, a);
    case PopEvent(w, found) => PopEventStep(s, w, found);
    case NetReturn(_, _, _, _) => NetReturnStep(s, a);
    case NetDone(k) => NetDoneStep(s, k);
    case Free(t) => FreeStep(s, t);
    case Plug(c) => PlugStep(s, c);
  }

  lemma NothingIsLost(s: State, a: Action)
    requires Enabled(s, a) && Disciplined(s, a)
    ensures !Loses(a)
  {}

  lemma PopEventLive(s: State, w: Wid, found: Option<Cid>)
    requires Inv(s) && Enabled(s, PopEvent(w, found))
    ensures E(s, w) != [] && EventIsLive(s, w)
  {
    EventsAreLive(s, w);
  }

  lemma InitInv()
    ensures Inv(Init)
  {
    assert forall t :: Occurrences(Init.queues, t) == map[];
    assert forall t :: Occurrences(Init.events, t) == map[];
  }

  lemma {:induction false} RunInv(s: State, run: seq<Action>)
    requires Inv(s) && IsRun(s, run)
    ensures Inv(After(s, run))
    decreases |run|
  {
    hide Inv;
    if run != [] {
      StepInv(s, run[0]);
      RunInv(Next(s, run[0]), run[1..]);
    }
  }

  /** Safety of the completion protocol.  Whatever the workers have done, the future that
      an idle worker is about to take from its event queue is not complete, the pointer
      in it still leads to the task that spawned it (not to one that reuses the
      address), and that task is suspended on exactly this future. */
  lemma CompletionSafety(run: seq<Action>, w: Wid)
    requires IsRun(Init, run)
    requires var s := After(Init, run); Q(s, Hand(w)) == [] && E(s, w) != []
    ensures var s := After(Init, run);
            var f := E(s, w)[0];
            && f in s.tasks && !s.tasks[f].complete
            && s.tasks[f].parentAddr.Some? && s.tasks[f].parentAddr.value in s.heap
            && s.tasks[f].parent == Some(s.heap[s.tasks[f].parentAddr.value])
            && var p := s.tasks[f].parent.value;
            && p in s.tasks && !s.tasks[p].freed && s.tasks[p].phase == Waiting(f)
  {
    InitInv();
    RunInv(Init, run);
    EventsAreLive(After(Init, run), w);
  }

  /** Where a task can be. */
  datatype Place = InQueue(q: Queue, index: nat) | OnSubtask(child: Tid)

  predicate Occupies(s: State, t: Tid, p: Place) {
    match p
    case InQueue(q, i) => i < |Q(s, q)| && Q(s, q)[i] == t
    case OnSubtask(c) => t in s.tasks && s.tasks[t].phase == Waiting(c)
  }

  /** Task conservation.  After any run every unfinished task is in exactly one place,
      and a finished one is in none. */
  lemma TasksConserved(run: seq<Action>, t: Tid)
    requires IsRun(Init, run)
    ensures var s := After(Init, run);
            if Unfinished(s, t) then exists p :: Occupies(s, t, p) && forall p' :: Occupies(s, t, p') ==> p' == p
            else forall p :: !Occupies(s, t, p)
  {
    InitInv();
    RunInv(Init, run);
    OnePlace(After(Init, run), t);
  }

  lemma OnePlace(s: State, t: Tid)
    requires Conserved(s)
    ensures if Unfinished(s, t) then exists p :: Occupies(s, t, p) && forall p' :: Occupies(s, t, p') ==> p' == p
            else forall p :: !Occupies(s, t, p)
  {
    forall p | Occupies(s, t, p) && p.InQueue? ensures Unfinished(s, t) && !Suspended(s, t) { QueuedOnce(s, p.q, t); }
    if Suspended(s, t) {
      var c := s.tasks[t].phase.child;
      assert Occupies(s, t, OnSubtask(c));
    } else if Unfinished(s, t) {
      assert Places(s, t) == 1;
      var q := QueueOf(s.queues, t);
      var i :| 0 <= i < |Q(s, q)| && Q(s, q)[i] == t;
      assert Occupies(s, t, InQueue(q, i));
      forall p' | Occupies(s, t, p') ensures p' == InQueue(q, i) {
        QueuedOnce(s, q, t);
        if p'.q != q { OneQueue(s, q, p'.q, t); }
        if i <= p'.index { OneIndex(Q(s, q), i, p'.index); } else { OneIndex(Q(s, q), p'.index, i); }
      }
    }
  }

  lemma OneIndex(xs: seq<Tid>, i: nat, j: nat)
    requires i <= j < |xs| && xs[i] == xs[j]
    ensures multiset(xs)[xs[i]] == 1 ==> i == j
  {
    if i < j {
      assert xs == xs[..i] + [xs[i]] + xs[i + 1..j] + [xs[j]] + xs[j + 1..];
    }
  }

  lemma EmptyTotal<K>(t: Tid)
    ensures Total<K>(map[], t) == 0
  {
    assert Occurrences<K>(map[], t) == map[];
  }

  /** A task that is counted is in some queue. */
  lemma {:induction false} QueueOf<K>(m: map<K, seq<Tid>>, t: Tid) returns (q: K)
    requires Total(m, t) >= 1
    ensures t in Get(m, q, [])
    decreases |m|
  {
    EmptyTotal<K>(t);
    var k :| k in m;
    if t in m[k] {
      q := k;
    } else {
      TotalUpdate(m - {k}, k, m[k], t);
      assert (m - {k})[k := m[k]] == m;
      q := QueueOf(m - {k}, t);
    }
  }
}
