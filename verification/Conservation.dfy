/** Task conservation: every unfinished task is in exactly one place. */
module Conservation {
  import opened Sums
  import opened Scheduler

  // ----- counting entries over all queues -----

  ghost function Occurrences<K>(m: map<K, seq<Tid>>, t: Tid): map<K, int> {
    map k | k in m :: multiset(m[k])[t]
  }

  /** How often `t` is queued, over all queues of `m`. */
  ghost function Total<K>(m: map<K, seq<Tid>>, t: Tid): int { Sum(Occurrences(m, t), Ints) }

  lemma TotalUpdate<K>(m: map<K, seq<Tid>>, k: K, v: seq<Tid>, t: Tid)
    ensures Total(m[k := v], t) == Total(m, t) - multiset(Get(m, k, []))[t] + multiset(v)[t]
  {
    assert Occurrences(m[k := v], t) == Occurrences(m, t)[k := multiset(v)[t]];
    IntUpdate(Occurrences(m, t), k, multiset(v)[t]);
  }

  lemma TotalAppend<K>(m: map<K, seq<Tid>>, k: K, t: Tid)
    ensures forall u :: Total(m[k := Get(m, k, []) + [t]], u) == Total(m, u) + if u == t then 1 else 0
  {
    forall u ensures Total(m[k := Get(m, k, []) + [t]], u) == Total(m, u) + if u == t then 1 else 0 {
      TotalUpdate(m, k, Get(m, k, []) + [t], u);
    }
  }

  lemma TotalRemove<K>(m: map<K, seq<Tid>>, k: K, i: nat)
    requires i < |Get(m, k, [])|
    ensures var q := Get(m, k, []);
            forall u :: Total(m[k := q[..i] + q[i + 1..]], u) == Total(m, u) - if u == q[i] then 1 else 0
  {
    var q := Get(m, k, []);
    assert q == q[..i] + [q[i]] + q[i + 1..];
    forall u ensures Total(m[k := q[..i] + q[i + 1..]], u) == Total(m, u) - if u == q[i] then 1 else 0 {
      TotalUpdate(m, k, q[..i] + q[i + 1..], u);
    }
  }

  /** Totals are natural, and a member of a queue is counted. */
  lemma TotalAtLeast<K>(m: map<K, seq<Tid>>, k: K, t: Tid)
    ensures Total(m, t) >= multiset(Get(m, k, []))[t]
  {
    var o := Occurrences(m, t);
    SumNonNegative(o - {k});
    SumUpdate(o, Ints, k, 0);
  }

  lemma PushTotals(s: State, q: Queue, t: Tid)
    ensures forall u :: Total(Push(s, q, t).queues, u) == Total(s.queues, u) + if u == t then 1 else 0
  {
    TotalAppend(s.queues, q, t);
  }

  lemma DropTotals(s: State, q: Queue, k: nat)
    requires k < |Q(s, q)|
    ensures forall u :: Total(Drop(s, q, k).queues, u) == Total(s.queues, u) - if u == Q(s, q)[k] then 1 else 0
  {
    TotalRemove(s.queues, q, k);
  }

  // ----- the law -----

  predicate Unfinished(s: State, t: Tid) {
    t in s.tasks && !s.tasks[t].phase.Ended? && !s.tasks[t].phase.Rejected?
  }

  predicate Suspended(s: State, t: Tid) { t in s.tasks && s.tasks[t].phase.Waiting? }

  /** Entries in all queues (a worker's hand included) plus one for a suspended task. */
  ghost function Places(s: State, t: Tid): int {
    Total(s.queues, t) + if Suspended(s, t) then 1 else 0
  }

  ghost predicate Conserved(s: State) {
    forall t :: Places(s, t) == if Unfinished(s, t) then 1 else 0
  }

  /** A queued task is unfinished, is queued once and is not suspended. */
  lemma QueuedOnce(s: State, q: Queue, t: Tid)
    requires Conserved(s)
    requires t in Q(s, q)
    ensures t in s.tasks && Unfinished(s, t) && !Suspended(s, t) && multiset(Q(s, q))[t] == 1 && Total(s.queues, t) == 1
  {
    TotalAtLeast(s.queues, q, t);
    assert Places(s, t) >= 1;
  }

  /** ... and in no other queue. */
  lemma OneQueue(s: State, q: Queue, r: Queue, t: Tid)
    requires Conserved(s)
    requires t in Q(s, q) && q != r
    ensures t !in Q(s, r)
  {
    QueuedOnce(s, q, t);
    var rest := s.queues[q := []];
    TotalUpdate(s.queues, q, [], t);
    TotalAtLeast(rest, r, t);
    assert Get(rest, r, []) == Q(s, r);
  }

  /** Only `t` may have changed phase. */
  ghost predicate OnlyMoves(s: State, r: State, t: Tid) {
    forall u :: u != t ==> (u in r.tasks <==> u in s.tasks) && (u in s.tasks ==> r.tasks[u].phase == s.tasks[u].phase)
  }

  /** The law survives when it is re-established for the one task that moved. */
  lemma Reconserve(s: State, r: State, t: Tid)
    requires forall u :: u != t ==> Places(s, u) == if Unfinished(s, u) then 1 else 0
    requires OnlyMoves(s, r, t)
    requires forall u :: u != t ==> Total(r.queues, u) == Total(s.queues, u)
    requires Places(r, t) == if Unfinished(r, t) then 1 else 0
    ensures Conserved(r)
  {
    forall u ensures Places(r, u) == if Unfinished(r, u) then 1 else 0 {
      if u != t {
        assert Places(s, u) == if Unfinished(s, u) then 1 else 0;
      }
    }
  }

  /** Taking an entry from one queue and appending it to another changes no total, so a
      step that does just that and keeps the task unfinished conserves. */
  lemma MoveConserves(s: State, from: Queue, k: nat, to: Queue, r: State)
    requires Conserved(s) && k < |Q(s, from)|
    requires var t := Q(s, from)[k];
             && r.queues == Push(Drop(s, from, k), to, t).queues
             && OnlyMoves(s, r, t) && Unfinished(r, t) && !Suspended(r, t)
    ensures Conserved(r)
  {
    var t := Q(s, from)[k];
    QueuedOnce(s, from, t);
    DropTotals(s, from, k);
    PushTotals(Drop(s, from, k), to, t);
    Reconserve(s, r, t);
  }

  /** The same for an entry that leaves the queues: the task is suspended or finished. */
  lemma LeaveConserves(s: State, from: Queue, k: nat, r: State)
    requires Conserved(s) && k < |Q(s, from)|
    requires var t := Q(s, from)[k];
             && r.queues == Drop(s, from, k).queues
             && OnlyMoves(s, r, t) && (Unfinished(r, t) <==> Suspended(r, t))
    ensures Conserved(r)
  {
    var t := Q(s, from)[k];
    QueuedOnce(s, from, t);
    DropTotals(s, from, k);
    Reconserve(s, r, t);
  }

  /** ... and for one that enters: a new task, or one that was suspended. */
  lemma ArriveConserves(s: State, t: Tid, to: Queue, r: State)
    requires Conserved(s)
    requires t in s.tasks ==> Suspended(s, t)
    requires r.queues == Push(s, to, t).queues
    requires OnlyMoves(s, r, t) && Unfinished(r, t) && !Suspended(r, t)
    ensures Conserved(r)
  {
    assert Places(s, t) == if Unfinished(s, t) then 1 else 0;
    PushTotals(s, to, t);
    Reconserve(s, r, t);
  }

  /** ... and for one that stays where it is. */
  lemma StayConserves(s: State, t: Tid, r: State)
    requires Conserved(s)
    requires r.queues == s.queues && OnlyMoves(s, r, t)
    requires t in s.tasks && (Unfinished(r, t) <==> Unfinished(s, t)) && (Suspended(r, t) <==> Suspended(s, t))
    ensures Conserved(r)
  {
    assert Places(s, t) == if Unfinished(s, t) then 1 else 0;
    Reconserve(s, r, t);
  }

  /** `s1` is `s` with entry `k` of `from` taken out for EndTask. */
  ghost predicate TakenOut(s: State, from: Queue, k: nat, s1: State) {
    && k < |Q(s, from)| && s1.queues == Drop(s, from, k).queues && OnlyMoves(s, s1, Q(s, from)[k])
    && Q(s, from)[k] in s1.tasks && s1.tasks[Q(s, from)[k]].container.Some?
  }

  lemma RescheduleConserves(s: State, from: Queue, k: nat, s1: State, w: Wid, again: Queue, early: bool)
    requires Conserved(s) && TakenOut(s, from, k, s1)
    requires ExitOf(s1, s1.tasks[Q(s, from)[k]]).Reschedule?
    ensures Conserved(End(s1, w, Q(s, from)[k], again, early))
  {
    MoveConserves(s, from, k, again, End(s1, w, Q(s, from)[k], again, early));
  }

  lemma SendReplyConserves(s: State, from: Queue, k: nat, s1: State, w: Wid, again: Queue, early: bool)
    requires Conserved(s) && TakenOut(s, from, k, s1)
    requires ExitOf(s1, s1.tasks[Q(s, from)[k]]).SendReply?
    ensures Conserved(End(s1, w, Q(s, from)[k], again, early))
  {
    MoveConserves(s, from, k, NetReply, End(s1, w, Q(s, from)[k], again, early));
  }

  lemma FinishConserves(s: State, from: Queue, k: nat, s1: State, w: Wid, again: Queue, early: bool)
    requires Conserved(s) && TakenOut(s, from, k, s1)
    requires var e := ExitOf(s1, s1.tasks[Q(s, from)[k]]); !e.Reschedule? && !e.SendReply?
    ensures Conserved(End(s1, w, Q(s, from)[k], again, early))
  {
    LeaveConserves(s, from, k, End(s1, w, Q(s, from)[k], again, early));
  }

  /** EndTask finds a queue for a periodic or remotely awaited task and finishes any other. */
  lemma EndConserves(s: State, from: Queue, k: nat, s1: State, w: Wid, again: Queue, early: bool)
    requires Conserved(s) && TakenOut(s, from, k, s1)
    ensures Conserved(End(s1, w, Q(s, from)[k], again, early))
  {
    var e := ExitOf(s1, s1.tasks[Q(s, from)[k]]);
    if e.Reschedule? {
      RescheduleConserves(s, from, k, s1, w, again, early);
    } else if e.SendReply? {
      SendReplyConserves(s, from, k, s1, w, again, early);
    } else {
      FinishConserves(s, from, k, s1, w, again, early);
    }
  }

  /** The popped future's subtask has ended and its parent waits for exactly it: what
      `Completion` shows for every reachable state. */
  ghost predicate EventIsLive(s: State, w: Wid)
    requires E(s, w) != []
  {
    var f := E(s, w)[0];
    && f in s.tasks && s.tasks[f].phase.Ended? && s.tasks[f].parentAddr.Some?
    && var pa := s.tasks[f].parentAddr.value;
    && pa in s.heap && s.heap[pa] in s.tasks && s.tasks[s.heap[pa]].phase == Waiting(f)
    && s.tasks[s.heap[pa]].container.Some?
  }

  lemma PopEventConserves(s: State, w: Wid, found: Option<Cid>)
    requires Conserved(s)
    requires Enabled(s, PopEvent(w, found)) && EventIsLive(s, w)
    ensures Conserved(DoPopEvent(s, w, found))
  {
    var p := s.heap[s.tasks[E(s, w)[0]].parentAddr.value];
    ArriveConserves(s, p, Hand(w), DoPopEvent(s, w, found));
  }

  lemma TakeConserves(s: State, w: Wid, q: Queue, x: Task, r: State)
    requires Conserved(s) && Q(s, q) != []
    requires r.queues == Take(s, w, q, x).queues
    requires OnlyMoves(s, r, Q(s, q)[0]) && Unfinished(r, Q(s, q)[0]) && !Suspended(r, Q(s, q)[0])
    ensures Conserved(r)
  {
    MoveConserves(s, q, 0, Hand(w), r);
  }

  lemma GiveConserves(s: State, w: Wid, x: Task, q: Queue)
    requires Conserved(s) && |Q(s, Hand(w))| == 1
    requires !x.phase.Ended? && !x.phase.Rejected? && !x.phase.Waiting?
    ensures Conserved(Give(s, w, x, q))
  {
    MoveConserves(s, Hand(w), 0, q, Give(s, w, x, q));
  }

  lemma LetGoConserves(s: State, w: Wid, x: Task)
    requires Conserved(s) && |Q(s, Hand(w))| == 1
    requires x.phase.Ended? || x.phase.Rejected? || x.phase.Waiting?
    ensures Conserved(LetGo(s, w, x))
  {
    LeaveConserves(s, Hand(w), 0, LetGo(s, w, x));
  }

  lemma ShiftConserves(s: State, q: Queue, r: Queue)
    requires Conserved(s) && Q(s, q) != []
    ensures Conserved(Shift(s, q, r))
  {
    QueuedOnce(s, q, Q(s, q)[0]);
    MoveConserves(s, q, 0, r, Shift(s, q, r));
  }

  /** ProcessNewTask and RouteTask. */
  lemma RoutingConserves(s: State, a: Action)
    requires Conserved(s) && Enabled(s, a)
    requires a.PopLane? || a.Reject? || a.RouteRetry? || a.RouteLocal? || a.RouteGlobal?
    ensures Conserved(Next(s, a))
  {
    match a
    case PopLane(w) =>
      QueuedOnce(s, Lane(w), Q(s, Lane(w))[0]);
      TakeConserves(s, w, Lane(w), s.tasks[Q(s, Lane(w))[0]].(worker := w), Next(s, a));
    case Reject(w) => LetGoConserves(s, w, s.tasks[Held(s, w)].(phase := Rejected, complete := true));
    case RouteRetry(w) => GiveConserves(s, w, s.tasks[Held(s, w)].(routed := true), Retry(w));
    case RouteLocal(w, c, dest) =>
      if dest == w {
        StayConserves(s, Held(s, w), Next(s, a));
      } else {
        GiveConserves(s, w, s.tasks[Held(s, w)].(routed := true, container := Some(c)), Lane(dest));
      }
    case RouteGlobal(w) => GiveConserves(s, w, s.tasks[Held(s, w)].(routed := true), NetOut);
  }

  /** ExecTask moves nothing but the task it runs. */
  lemma EnterMoves(s: State, w: Wid, t: Tid, found: Option<Cid>, pred: real, resume: bool)
    requires t in s.tasks && ExecContainer(s.tasks[t], found).Some?
    ensures var r := Enter(s, w, t, found, pred, resume);
            r.queues == s.queues && OnlyMoves(s, r, t) && t in r.tasks && r.tasks[t].phase == Running
  {}

  lemma TakeEnterConserves(s: State, w: Wid, q: Queue, x: Task, found: Option<Cid>, pred: real, resume: bool)
    requires Conserved(s) && Q(s, q) != [] && ExecContainer(x, found).Some?
    ensures Conserved(Enter(Take(s, w, q, x), w, Q(s, q)[0], found, pred, resume))
  {
    var s1 := Take(s, w, q, x);
    var r := Enter(s1, w, Q(s, q)[0], found, pred, resume);
    EnterMoves(s1, w, Q(s, q)[0], found, pred, resume);
    assert OnlyMoves(s, r, Q(s, q)[0]);
    TakeConserves(s, w, q, x, r);
  }

  lemma ResumeConserves(s: State, a: Action)
    requires Conserved(s) && Enabled(s, a)
    requires a.Exec? || a.PopBlocked? || a.RunRetry?
    ensures Conserved(Next(s, a))
  {
    match a
    case Exec(w, found, pred) =>
      var t := Held(s, w);
      EnterMoves(s, w, t, found, pred, s.tasks[t].started);
      StayConserves(s, t, Next(s, a));
    case PopBlocked(w, l, found, pred) =>
      var x := s.tasks[Q(s, Blocked(w, l))[0]];
      TakeEnterConserves(s, w, Blocked(w, l), x, found, pred, x.started);
    case RunRetry(w, c, found, pred) =>
      TakeEnterConserves(s, w, Retry(w), s.tasks[Q(s, Retry(w))[0]].(container := Some(c)), found, pred, false);
  }

  lemma CoroutineConserves(s: State, a: Action)
    requires Conserved(s) && Enabled(s, a)
    requires a.Spawn? || a.Await? || a.YieldTimed?
    ensures Conserved(Next(s, a))
  {
    match a
    case Spawn(w, t, _, dest, _) => ArriveConserves(s, t, Lane(dest), Next(s, a));
    case Await(w, c) =>
      if s.tasks[c].complete {
        StayConserves(s, c, Next(s, a));
      } else {
        LetGoConserves(s, w, s.tasks[Held(s, w)].(phase := Waiting(c)));
      }
    case YieldTimed(w, l) => GiveConserves(s, w, s.tasks[Held(s, w)].(phase := Ready), Periodic(w, l));
  }

  /** The worker's sleeping and retry queues. */
  lemma QueueConserves(s: State, a: Action)
    requires Conserved(s) && Enabled(s, a)
    requires a.KeepPeriodic? || a.PopPeriodic? || a.KeepRetry? || a.RetryGlobal?
    ensures Conserved(Next(s, a))
  {
    match a
    case KeepPeriodic(w, l) => ShiftConserves(s, Periodic(w, l), Periodic(w, l));
    case PopPeriodic(w, l) =>
      QueuedOnce(s, Periodic(w, l), Q(s, Periodic(w, l))[0]);
      TakeConserves(s, w, Periodic(w, l), s.tasks[Q(s, Periodic(w, l))[0]].(routed := false), Next(s, a));
    case KeepRetry(w) => ShiftConserves(s, Retry(w), Retry(w));
    case RetryGlobal(w) => ShiftConserves(s, Retry(w), NetOut);
  }

  lemma EndingConserves(s: State, a: Action, early: bool)
    requires Conserved(s) && Enabled(s, a)
    requires a.Return? || a.NetReturn?
    ensures Conserved(Next(s, a, early))
  {
    match a
    case Return(w, again) => EndConserves(s, Hand(w), 0, LetGo(s, w, s.tasks[Held(s, w)]), w, again, early);
    case NetReturn(k, w, c, again) =>
      var t := Q(s, NetOut)[k];
      EndConserves(s, NetOut, k, Drop(Put(s, t, s.tasks[t].(container := Some(c))), NetOut, k), w, again, early);
  }

  lemma OutsideConserves(s: State, a: Action)
    requires Conserved(s) && Enabled(s, a)
    requires a.Submit? || a.NetDone? || a.Free? || a.Plug?
    ensures Conserved(Next(s, a))
  {
    var r := Next(s, a);
    match a
    case Submit(t, _, w, _, _, _) => ArriveConserves(s, t, Lane(w), r);
    case NetDone(k) => LeaveConserves(s, NetReply, k, r);
    case Free(t) => StayConserves(s, t, r);
    case Plug(_) =>
      forall u ensures Places(r, u) == if Unfinished(r, u) then 1 else 0 { assert Places(r, u) == Places(s, u); }
  }

  /** The two actions that let a task go without putting it anywhere. */
  predicate Loses(a: Action) { a.YieldZero? || a.DropUnresolved? }

  /** No other action loses a task, and none duplicates one. */
  lemma StepConserves(s: State, a: Action, early: bool)
    requires Conserved(s)
    requires Enabled(s, a) && !Loses(a)
    requires a.PopEvent? ==> EventIsLive(s, a.w)
    ensures Conserved(Next(s, a, early))
  {
    if a.PopLane? || a.Reject? || a.RouteRetry? || a.RouteLocal? || a.RouteGlobal? {
      RoutingConserves(s, a);
    } else if a.Exec? || a.PopBlocked? || a.RunRetry? {
      ResumeConserves(s, a);
    } else if a.Spawn? || a.Await? || a.YieldTimed? {
      CoroutineConserves(s, a);
    } else if a.Return? || a.NetReturn? {
      EndingConserves(s, a, early);
    } else if a.PopEvent? {
      PopEventConserves(s, a.w, a.found);
    } else if a.Submit? || a.NetDone? || a.Free? || a.Plug? {
      OutsideConserves(s, a);
    } else {
      QueueConserves(s, a);
    }
  }
}
