/** Waking a suspended task without leaving the discipline: no task is lost on the way and
    no subtask is stranded.  It is enough that no coroutine has two subtasks outstanding. */
module Waking {
  import opened Sums
  import opened Scheduler
  import opened Conservation
  import opened Completion
  import opened CompletionRuns
  import opened Driving
  import opened PathFrames
  import opened Lineage

  // ----- disciplined runs from a state -----

  ghost predicate Ends(s: State, run: seq<Action>, r: State) { IsRun(s, run) && After(s, run) == r }

  ghost predicate CanReach(s: State, r: State) { exists run {:trigger Ends(s, run, r)} :: Ends(s, run, r) }

  lemma ReachSelf(s: State)
    ensures CanReach(s, s)
  {
    assert Ends(s, [], s);
  }

  lemma {:induction false} JoinRuns(s: State, p: seq<Action>, q: seq<Action>)
    requires IsRun(s, p) && IsRun(After(s, p), q)
    ensures IsRun(s, p + q) && After(s, p + q) == After(After(s, p), q)
    decreases |p|
  {
    hide Enabled, Disciplined, Next;
    if p == [] {
      assert p + q == q;
    } else {
      assert (p + q)[0] == p[0] && (p + q)[1..] == p[1..] + q;
      JoinRuns(Next(s, p[0]), p[1..], q);
    }
  }

  lemma ReachOn(s: State, r: State, t: State)
    requires CanReach(s, r) && CanReach(r, t)
    ensures CanReach(s, t)
  {
    hide IsRun, After;
    var p :| Ends(s, p, r);
    var q :| Ends(r, q, t);
    JoinRuns(s, p, q);
    assert Ends(s, p + q, t);
  }

  lemma ReachNext(s: State, a: Action)
    requires Enabled(s, a) && Disciplined(s, a)
    ensures CanReach(s, Next(s, a))
  {
    hide Enabled, Disciplined, Next;
    var run := [a];
    assert run[0] == a && run[1..] == [];
    assert IsRun(Next(s, a), run[1..]);
    assert IsRun(s, run);
    assert After(s, run) == Next(s, a);
    assert Ends(s, run, Next(s, a));
  }

  // ----- what is kept on the way -----

  /** No task has two subtasks outstanding. */
  ghost predicate OneEach(s: State) {
    forall p, c, d {:trigger Outstanding(s, p, c), Outstanding(s, p, d)} :: Outstanding(s, p, c) && Outstanding(s, p, d) ==> c == d
  }

  /** A task sleeps on as long as the subtask it waits for has not been consumed. */
  ghost predicate SleepsOn(s: State, r: State, t: Tid)
    requires t in s.tasks && t in r.tasks
  {
    s.tasks[t].phase.Waiting? && s.tasks[t].phase.child in r.tasks && !r.tasks[s.tasks[t].phase.child].consumed ==>
      r.tasks[t].phase == s.tasks[t].phase && r.tasks[t].container == s.tasks[t].container
  }

  ghost predicate KeepsAll(s: State, r: State) {
    && r.tasks.Keys == s.tasks.Keys
    && (forall t :: t in s.tasks ==> SameStatic(s.tasks[t], r.tasks[t]) && (s.tasks[t].consumed ==> r.tasks[t].consumed))
    && (forall t :: t in s.tasks ==> SleepsOn(s, r, t))
  }

  ghost predicate Fine(s: State) { Inv(s) && OneEach(s) }

  ghost predicate Onward(s: State, r: State) { CanReach(s, r) && Fine(r) && KeepsAll(s, r) }

  lemma OnwardSelf(s: State)
    requires Fine(s)
    ensures Onward(s, s)
  {
    ReachSelf(s);
  }

  lemma OnwardOn(s: State, r: State, t: State)
    requires AwaitOk(s) && Onward(s, r) && Onward(r, t)
    ensures Onward(s, t)
  {
    hide CanReach, Fine;
    ReachOn(s, r, t);
    forall x | x in s.tasks ensures SleepsOn(s, t, x) {
      assert SleepsOn(s, r, x) && SleepsOn(r, t, x);
      if s.tasks[x].phase.Waiting? { assert s.tasks[x].phase.child in s.tasks; }
    }
  }

  lemma OneEachKept(s: State, r: State)
    requires OneEach(s) && KeepsAll(s, r)
    ensures OneEach(r)
  {
    forall p, c, d | Outstanding(r, p, c) && Outstanding(r, p, d) ensures c == d {
      assert Outstanding(s, p, c) && Outstanding(s, p, d);
    }
  }

  lemma AgedKept(s: State, r: State, age: map<Tid, nat>, n: nat)
    requires Aged(s, age, n) && KeepsAll(s, r)
    ensures Aged(r, age, n)
  {}

  /** One record changes, of a task that does not sleep; the rest stays. */
  lemma KeepsOne(s: State, r: State, t: Tid)
    requires t in s.tasks && t in r.tasks && r.tasks == s.tasks[t := r.tasks[t]] && SameStatic(s.tasks[t], r.tasks[t])
    requires r.tasks[t].consumed == s.tasks[t].consumed && !s.tasks[t].phase.Waiting?
    ensures KeepsAll(s, r)
  {}

  lemma QueuedIsAwake(s: State, t: Tid, q: Queue)
    requires Conserved(s) && t in Q(s, q)
    ensures t in s.tasks && !s.tasks[t].phase.Waiting?
  {
    QueuedOnce(s, q, t);
  }

  /** The actions used here: they handle one queued task, or suspend the one in hand, or
      process one event. */
  lemma OnwardStep(s: State, a: Action)
    requires Fine(s) && Enabled(s, a) && Disciplined(s, a) && (Handles(a) || a.Await? || a.PopEvent?)
    ensures Onward(s, Next(s, a))
  {
    hide Inv, Enabled, Disciplined, Next, CanReach, OneEach, KeepsAll;
    ReachNext(s, a);
    StepInv(s, a);
    if Handles(a) {
      HandlingKeepsAll(s, a);
    } else if a.Await? {
      AwaitKeepsAll(s, a.w, a.child);
    } else {
      EventKeepsAll(s, a.w, a.found);
    }
    OneEachKept(s, Next(s, a));
  }

  lemma HandlingKeepsAll(s: State, a: Action)
    requires Inv(s) && Enabled(s, a) && Handles(a)
    ensures KeepsAll(s, Next(s, a))
  {
    hide RecordsOk, HeapOk, LineageOk, AwaitOk, EventsOk, QueuesOk, Conserved, Enabled, Next;
    ActorMoves(s, a);
    var t := Actor(s, a);
    var q :| t in Q(s, q);
    QueuedIsAwake(s, t, q);
    KeepsOne(s, Next(s, a), t);
  }

  lemma AwaitKeepsAll(s: State, w: Wid, c: Tid)
    requires Inv(s) && Enabled(s, Await(w, c))
    ensures KeepsAll(s, Next(s, Await(w, c)))
  {
    hide RecordsOk, HeapOk, LineageOk, AwaitOk, EventsOk, QueuesOk, Conserved, KeepsAll;
    AwaitSuspends(s, Held(s, w), c);
    KeepsOne(s, Next(s, Await(w, c)), Held(s, w));
  }

  lemma EventKeepsAll(s: State, w: Wid, found: Option<Cid>)
    requires Inv(s) && Enabled(s, PopEvent(w, found))
    ensures KeepsAll(s, Next(s, PopEvent(w, found)))
  {
    hide RecordsOk, HeapOk, LineageOk, AwaitOk, EventsOk, QueuesOk, Conserved, DoPopEvent;
    EventsAreLive(s, w);
    PopEventEffect(s, w, found);
  }

  // ----- emptying a hand -----

  /** Worker `w`'s hand is empty; what it held, `g`, has gone elsewhere, at the end of a
      queue if in any, and nobody else has changed. */
  ghost predicate Emptied(s: State, w: Wid, r: State, g: Tid) {
    && Q(r, Hand(w)) == [] && r.events == s.events && r.tasks.Keys == s.tasks.Keys
    && (forall q :: q != Hand(w) ==> Q(r, q) == Q(s, q) || Q(r, q) == Q(s, q) + [g])
    && (forall t :: t in s.tasks && t != g ==> r.tasks[t] == s.tasks[t])
  }

  lemma GivenAway(s: State, w: Wid, y: Task, to: Queue)
    requires |Q(s, Hand(w))| == 1 && to != Hand(w) && Held(s, w) in s.tasks
    ensures Emptied(s, w, Give(s, w, y, to), Held(s, w))
  {}

  lemma LetLoose(s: State, w: Wid, y: Task)
    requires |Q(s, Hand(w))| == 1 && Held(s, w) in s.tasks
    ensures Emptied(s, w, LetGo(s, w, y), Held(s, w))
  {}

  /** A running coroutine awaits its subtask, or yields for a time if it has none. */
  lemma ClearRunning(s: State, w: Wid) returns (r: State)
    requires Fine(s) && HasInHand(s, w, Running)
    ensures Onward(s, r) && Emptied(s, w, r, Held(s, w))
  {
    hide Inv, Onward;
    var g := Held(s, w);
    if c :| Outstanding(s, g, c) {
      AwaitSuspends(s, g, c);
      OnwardStep(s, Await(w, c));
      LetLoose(s, w, s.tasks[g].(phase := Waiting(c)));
      r := Next(s, Await(w, c));
    } else {
      OnwardStep(s, YieldTimed(w, 0));
      GivenAway(s, w, s.tasks[g].(phase := Ready), Periodic(w, 0));
      r := Next(s, YieldTimed(w, 0));
    }
  }

  /** A routed task in hand starts or resumes on the container it is bound to. */
  lemma RunHeld(s: State, w: Wid) returns (r: State)
    requires Fine(s) && HasInHand(s, w, Ready) && s.tasks[Held(s, w)].routed
    ensures Onward(s, r) && HasInHand(r, w, Running) && Held(r, w) == Held(s, w)
    ensures r.queues == s.queues && r.events == s.events
    ensures forall t :: t in s.tasks && t != Held(s, w) ==> t in r.tasks && r.tasks[t] == s.tasks[t]
  {
    hide Inv, Onward, Enter;
    var t := Held(s, w);
    RoutedHasContainer(s, w);
    EnterRecord(s, w, t, None, 0.0, s.tasks[t].started);
    OnwardStep(s, Exec(w, None, 0.0));
    r := Next(s, Exec(w, None, 0.0));
  }

  lemma RoutedHasContainer(s: State, w: Wid)
    requires Inv(s) && HasInHand(s, w, Ready) && s.tasks[Held(s, w)].routed
    ensures s.tasks[Held(s, w)].container.Some?
  {
    EntryFacts(s, Hand(w), Held(s, w));
  }

  lemma HeldPhase(s: State, w: Wid)
    requires Inv(s) && Q(s, Hand(w)) != []
    ensures HasInHand(s, w, Ready) || HasInHand(s, w, Running)
  {
    EntryFacts(s, Hand(w), Q(s, Hand(w))[0]);
  }

  lemma EmptiedOn(s: State, w: Wid, s1: State, r: State)
    requires |Q(s, Hand(w))| == 1 && s1.queues == s.queues && s1.events == s.events && s1.tasks.Keys == s.tasks.Keys
    requires forall t :: t in s.tasks && t != Held(s, w) ==> s1.tasks[t] == s.tasks[t]
    requires Held(s1, w) == Held(s, w) && Emptied(s1, w, r, Held(s, w))
    ensures Emptied(s, w, r, Held(s, w))
  {
    assert forall q :: Q(s1, q) == Q(s, q);
  }

  lemma ClearHeld(s: State, w: Wid) returns (r: State)
    requires Fine(s) && Q(s, Hand(w)) != []
    ensures |Q(s, Hand(w))| == 1 && Onward(s, r) && Emptied(s, w, r, Held(s, w))
  {
    hide Inv, Onward, Emptied;
    HeldPhase(s, w);
    if s.tasks[Held(s, w)].phase == Running {
      r := ClearRunning(s, w);
    } else if !s.tasks[Held(s, w)].routed {
      OnwardStep(s, RouteGlobal(w));
      GivenAway(s, w, s.tasks[Held(s, w)].(routed := true), NetOut);
      r := Next(s, RouteGlobal(w));
    } else {
      var s1 := RunHeld(s, w);
      FineFacts(s, s1);
      r := ClearRunning(s1, w);
      OnwardOn(s, s1, r);
      EmptiedOn(s, w, s1, r);
    }
  }

  lemma FineFacts(s: State, r: State)
    requires Fine(s) && Onward(s, r)
    ensures Fine(r) && AwaitOk(s) && r.tasks.Keys == s.tasks.Keys
  {}

  /** ... and a hand that is empty already stays so. */
  lemma ClearHand(s: State, w: Wid, x: Tid) returns (r: State)
    requires Fine(s) && x in s.tasks && x !in Q(s, Hand(w))
    ensures Onward(s, r) && Q(r, Hand(w)) == [] && r.events == s.events
    ensures x in r.tasks && r.tasks[x] == s.tasks[x]
    ensures forall q, k :: OnlyAt(s, x, q, k) ==> OnlyAt(r, x, q, k)
  {
    hide Fine, Onward, Emptied, OnlyAt;
    if Q(s, Hand(w)) == [] {
      OnwardSelf(s);
      r := s;
    } else {
      r := ClearHeld(s, w);
      EmptiedFacts(s, w, r, Held(s, w), x);
      forall q, k | OnlyAt(s, x, q, k) ensures OnlyAt(r, x, q, k) {
        StillThere(s, w, r, Held(s, w), x, q, k);
      }
    }
  }

  lemma EmptiedFacts(s: State, w: Wid, r: State, g: Tid, x: Tid)
    requires Emptied(s, w, r, g) && x in s.tasks && x != g
    ensures Q(r, Hand(w)) == [] && r.events == s.events && x in r.tasks && r.tasks[x] == s.tasks[x]
  {}

  lemma StillThere(s: State, w: Wid, r: State, g: Tid, x: Tid, q: Queue, k: nat)
    requires Emptied(s, w, r, g) && x != g && x !in Q(s, Hand(w)) && OnlyAt(s, x, q, k)
    ensures OnlyAt(r, x, q, k)
  {
    assert q != Hand(w);
    forall p, i | 0 <= i < |Q(r, p)| && Q(r, p)[i] == x ensures p == q && i == k {
      assert i < |Q(s, p)|;
    }
  }

  // ----- bringing a queued task to the front -----

  /** Takes the front of one of worker `w`'s queues. */
  function Skipping(q: Queue, w: Wid, c: Cid): Action {
    match q
    case Blocked(_, l) => PopBlocked(w, l, Some(c), 0.0)
    case Periodic(_, l) => PopPeriodic(w, l)
    case Retry(_) => RetryGlobal(w)
    case _ => PopLane(w)
  }

  function Skipped(q: Queue, w: Wid): Queue { if q.Retry? then NetOut else Hand(w) }

  lemma CanSkip(s: State, w: Wid, q: Queue, c: Cid)
    requires Inv(s) && OfWorker(q, w) && Q(s, q) != [] && Q(s, Hand(w)) == [] && c !in s.plugged
    ensures Enabled(s, Skipping(q, w, c)) && Disciplined(s, Skipping(q, w, c))
  {
    EntryFacts(s, q, Q(s, q)[0]);
  }

  lemma SkipEffect(s: State, w: Wid, q: Queue, c: Cid)
    requires OfWorker(q, w) && Q(s, q) != [] && Enabled(s, Skipping(q, w, c)) && Q(s, q)[0] in s.tasks
    ensures var r := Next(s, Skipping(q, w, c));
            && r.queues == Push(Drop(s, q, 0), Skipped(q, w), Q(s, q)[0]).queues && r.events == s.events && r.plugged == s.plugged
            && r.tasks.Keys == s.tasks.Keys && (forall t :: t in s.tasks && t != Q(s, q)[0] ==> r.tasks[t] == s.tasks[t])
            && r.tasks[Q(s, q)[0]].phase == (if q.Blocked? then Running else s.tasks[Q(s, q)[0]].phase)
  {
    hide Enter;
    if q.Blocked? {
      var t := Q(s, q)[0];
      EnterRecord(Take(s, w, q, s.tasks[t]), w, t, Some(c), 0.0, s.tasks[t].started);
    }
  }

  lemma OneLess(s: State, r: State, q: Queue, to: Queue, x: Tid, k: nat)
    requires OnlyAt(s, x, q, k) && k > 0 && to != q && r.queues == Push(Drop(s, q, 0), to, Q(s, q)[0]).queues
    ensures OnlyAt(r, x, q, k - 1)
  {
    assert Q(s, q)[0] != x;
    assert Q(r, q) == Q(s, q)[1..];
    forall p, i | 0 <= i < |Q(r, p)| && (p != q || i != k - 1) ensures Q(r, p)[i] != x {
      if p == q {
        assert Q(s, q)[i + 1] == Q(r, p)[i];
      } else if i < |Q(s, p)| {
        assert Q(s, p)[i] == Q(r, p)[i];
      }
    }
  }

  lemma ComesLast(s: State, r: State, q: Queue, to: Queue, x: Tid)
    requires OnlyAt(s, x, q, 0) && to != q && r.queues == Push(Drop(s, q, 0), to, x).queues
    ensures OnlyAt(r, x, to, |Q(s, to)|)
  {
    assert Q(r, q) == Q(s, q)[1..];
    assert Q(r, to) == Q(s, to) + [x];
    forall p, i | 0 <= i < |Q(r, p)| && (p != to || i != |Q(s, to)|) ensures Q(r, p)[i] != x {
      if p == q {
        assert Q(s, q)[i + 1] == Q(r, p)[i];
      } else {
        assert i < |Q(s, p)| && Q(s, p)[i] == Q(r, p)[i];
      }
    }
  }

  lemma {:induction false} ToFront(s: State, w: Wid, q: Queue, x: Tid, k: nat) returns (r: State)
    requires Fine(s) && OfWorker(q, w) && OnlyAt(s, x, q, k) && Q(s, Hand(w)) == [] && x in s.tasks
    ensures Onward(s, r) && OnlyAt(r, x, q, 0) && Q(r, Hand(w)) == [] && x in r.tasks && r.tasks[x] == s.tasks[x]
    decreases k
  {
    hide Inv, OneEach, Onward, OnlyAt, Enabled, Next, Disciplined;
    if k == 0 {
      OnwardSelf(s);
      r := s;
    } else {
      var s1 := SkipFront(s, w, q, x, k);
      var s2 := ClearHand(s1, w, x);
      FineFacts(s1, s2);
      r := ToFront(s2, w, q, x, k - 1);
      FineFacts(s, s1);
      OnwardOn(s, s1, s2);
      OnwardOn(s, s2, r);
    }
  }

  /** The front of worker `w`'s queue `q` goes into its hand, or on to the network. */
  lemma Skip(s: State, w: Wid, q: Queue) returns (r: State)
    requires Fine(s) && OfWorker(q, w) && Q(s, q) != [] && Q(s, Hand(w)) == []
    ensures Onward(s, r) && r.queues == Push(Drop(s, q, 0), Skipped(q, w), Q(s, q)[0]).queues
    ensures Q(s, q)[0] in s.tasks && (forall t :: t in s.tasks && t != Q(s, q)[0] ==> t in r.tasks && r.tasks[t] == s.tasks[t])
    ensures r.tasks[Q(s, q)[0]].phase == (if q.Blocked? then Running else s.tasks[Q(s, q)[0]].phase)
  {
    var c := Unused(s.plugged);
    hide Inv, OneEach, Onward, Enabled, Next, Disciplined;
    FrontIsTask(s, q);
    CanSkip(s, w, q, c);
    SkipEffect(s, w, q, c);
    OnwardStep(s, Skipping(q, w, c));
    r := Next(s, Skipping(q, w, c));
  }

  lemma SkipFront(s: State, w: Wid, q: Queue, x: Tid, k: nat) returns (r: State)
    requires Fine(s) && OfWorker(q, w) && OnlyAt(s, x, q, k) && k > 0 && Q(s, Hand(w)) == [] && x in s.tasks
    ensures Onward(s, r) && Fine(r) && OnlyAt(r, x, q, k - 1) && x !in Q(r, Hand(w)) && x in r.tasks && r.tasks[x] == s.tasks[x]
  {
    hide Inv, OneEach, Onward, OnlyAt, Q;
    NotInFront(s, q, x, k);
    r := Skip(s, w, q);
    FineFacts(s, r);
    OneLess(s, r, q, Skipped(q, w), x, k);
    NotElsewhere(r, x, q, k - 1, Hand(w));
  }

  lemma NotInFront(s: State, q: Queue, x: Tid, k: nat)
    requires OnlyAt(s, x, q, k) && k > 0
    ensures Q(s, q) != [] && x != Q(s, q)[0]
  {}

  lemma NotElsewhere(s: State, x: Tid, q: Queue, k: nat, p: Queue)
    requires OnlyAt(s, x, q, k) && p != q
    ensures x !in Q(s, p)
  {}

  lemma FrontIsTask(s: State, q: Queue)
    requires Inv(s) && Q(s, q) != []
    ensures Q(s, q)[0] in s.tasks
  {
    EntryFacts(s, q, Q(s, q)[0]);
  }

  // ----- bringing one subtask to its end -----

  predicate Child(x: Task) { x.parent.Some? && !x.fireAndForget }

  /** `x` has ended and nobody has taken note of it yet. */
  ghost predicate Closed(s: State, r: State, x: Tid) {
    Onward(s, r) && x in r.tasks && r.tasks[x].phase.Ended? && !r.tasks[x].consumed
  }

  lemma ClosedOn(s: State, s1: State, r: State, x: Tid)
    requires AwaitOk(s) && Onward(s, s1) && Closed(s1, r, x)
    ensures Closed(s, r, x)
  {
    hide Onward;
    OnwardOn(s, s1, r);
  }

  lemma NoneKept(s: State, r: State, x: Tid)
    requires AllConsumed(s, x) && KeepsAll(s, r)
    ensures AllConsumed(r, x)
  {
    forall c ensures !Outstanding(r, x, c) {
      assert !Outstanding(s, x, c);
    }
  }

  lemma ChildEnds(s: State, w: Wid, x: Tid, again: Queue)
    requires x in s.tasks && s.tasks[x].container.Some? && Child(s.tasks[x]) && RecordOk(s.tasks[x])
    ensures var r := End(s, w, x, again, false); x in r.tasks && r.tasks[x].phase.Ended? && r.tasks[x].consumed == s.tasks[x].consumed
  {}

  lemma UnfinishedUnconsumed(s: State, x: Tid)
    requires Inv(s) && x in s.tasks && (s.tasks[x].phase == Ready || s.tasks[x].phase == Running || s.tasks[x].phase.Waiting?)
    ensures !s.tasks[x].consumed && RecordOk(s.tasks[x]) && (s.tasks[x].phase != Ready ==> s.tasks[x].container.Some?)
    ensures s.tasks[x].phase == Ready ==> AllConsumed(s, x)
  {
    assert RecordOk(s.tasks[x]);
    if s.tasks[x].phase == Ready { ReadyHasNoneOutstanding(s, x); }
  }

  lemma ReturnCloses(s: State, w: Wid) returns (r: State)
    requires Fine(s) && HasInHand(s, w, Running) && AllConsumed(s, Held(s, w)) && Child(s.tasks[Held(s, w)])
    ensures Closed(s, r, Held(s, w))
  {
    var a := Return(w, Periodic(w, 0));
    UnfinishedUnconsumed(s, Held(s, w));
    ReturnEnds(s, w);
    hide Inv, OneEach, Onward, AllConsumed, Enabled, Disciplined, Next;
    OnwardStep(s, a);
    r := Next(s, a);
  }

  lemma ReturnEnds(s: State, w: Wid)
    requires HasInHand(s, w, Running) && AllConsumed(s, Held(s, w)) && Child(s.tasks[Held(s, w)])
    requires RecordOk(s.tasks[Held(s, w)])
    ensures var x, a := Held(s, w), Return(w, Periodic(w, 0));
            && Enabled(s, a) && Disciplined(s, a)
            && x in Next(s, a).tasks && Next(s, a).tasks[x].phase.Ended? && Next(s, a).tasks[x].consumed == s.tasks[x].consumed
  {
    hide End, AllConsumed;
    ChildEnds(LetGo(s, w, s.tasks[Held(s, w)]), w, Held(s, w), Periodic(w, 0));
  }

  lemma NetCloses(s: State, x: Tid, k: nat) returns (r: State)
    requires Fine(s) && x in s.tasks && s.tasks[x].phase == Ready && Child(s.tasks[x]) && OnlyAt(s, x, NetOut, k)
    ensures Closed(s, r, x)
  {
    UnfinishedUnconsumed(s, x);
    var a := NetReturn(k, 0, 0, Periodic(0, 0));
    NetReturnEnds(s, x, k);
    hide Inv, OneEach, Onward, AllConsumed, Enabled, Disciplined, Next, OnlyAt;
    OnwardStep(s, a);
    r := Next(s, a);
  }

  lemma NetReturnEnds(s: State, x: Tid, k: nat)
    requires x in s.tasks && Child(s.tasks[x]) && RecordOk(s.tasks[x]) && OnlyAt(s, x, NetOut, k)
    ensures var a := NetReturn(k, 0, 0, Periodic(0, 0));
            && Enabled(s, a) && Disciplined(s, a)
            && x in Next(s, a).tasks && Next(s, a).tasks[x].phase.Ended? && Next(s, a).tasks[x].consumed == s.tasks[x].consumed
  {
    hide End, OnlyAt;
    assert k < |Q(s, NetOut)| && Q(s, NetOut)[k] == x by { At(s, x, NetOut, k); }
    ChildEnds(Drop(Put(s, x, s.tasks[x].(container := Some(0))), NetOut, k), 0, x, Periodic(0, 0));
  }

  lemma At(s: State, x: Tid, q: Queue, k: nat)
    requires OnlyAt(s, x, q, k)
    ensures k < |Q(s, q)| && Q(s, q)[k] == x
  {}

  /** A routed task in hand runs and returns. */
  lemma RoutedCloses(s: State, w: Wid, x: Tid) returns (r: State)
    requires Fine(s) && HasInHand(s, w, Ready) && Held(s, w) == x && s.tasks[x].routed && Child(s.tasks[x])
    ensures Closed(s, r, x)
  {
    UnfinishedUnconsumed(s, x);
    hide Inv, OneEach, CanReach, AllConsumed, Closed;
    var s1 := RunHeld(s, w);
    NoneKept(s, s1, x);
    assert SameStatic(s.tasks[x], s1.tasks[x]);
    r := ReturnCloses(s1, w);
    FineFacts(s, s1);
    ClosedOn(s, s1, r, x);
  }

  lemma HeldCloses(s: State, w: Wid, x: Tid) returns (r: State)
    requires Fine(s) && HasInHand(s, w, Ready) && Held(s, w) == x && Child(s.tasks[x])
    ensures Closed(s, r, x)
  {
    hide Inv, OneEach, Onward, Closed;
    if s.tasks[x].routed {
      r := RoutedCloses(s, w, x);
    } else {
      var c := Unused(s.plugged);
      var a := RouteLocal(w, c, w);
      OnwardStep(s, a);
      var s1 := Next(s, a);
      FineFacts(s, s1);
      r := RoutedCloses(s1, w, x);
      ClosedOn(s, s1, r, x);
    }
  }

  /** A ready task goes from the front of its queue into the hand, or on to the network. */
  lemma FrontMoves(s: State, w: Wid, q: Queue, x: Tid) returns (r: State)
    requires Fine(s) && x in s.tasks && s.tasks[x].phase == Ready && Child(s.tasks[x])
    requires OfWorker(q, w) && OnlyAt(s, x, q, 0) && Q(s, Hand(w)) == []
    ensures Onward(s, r) && Fine(r) && AwaitOk(s) && OnlyAt(r, x, Skipped(q, w), |Q(s, Skipped(q, w))|)
    ensures x in r.tasks && Child(r.tasks[x]) && r.tasks[x].phase == if q.Blocked? then Running else Ready
    ensures AllConsumed(r, x)
  {
    UnfinishedUnconsumed(s, x);
    hide Inv, OneEach, Onward, AllConsumed;
    r := Skip(s, w, q);
    FineFacts(s, r);
    ComesLast(s, r, q, Skipped(q, w), x);
    OnwardKin(s, r, x);
  }

  lemma OnwardKin(s: State, r: State, x: Tid)
    requires AllConsumed(s, x) && x in s.tasks && Onward(s, r)
    ensures AllConsumed(r, x) && x in r.tasks && SameStatic(s.tasks[x], r.tasks[x])
  {
    hide CanReach, Fine, AllConsumed;
    NoneKept(s, r, x);
  }

  /** A ready task at the front of one of its worker's queues. */
  lemma FrontCloses(s: State, w: Wid, q: Queue, x: Tid) returns (r: State)
    requires Fine(s) && x in s.tasks && s.tasks[x].phase == Ready && Child(s.tasks[x])
    requires OfWorker(q, w) && OnlyAt(s, x, q, 0) && Q(s, Hand(w)) == []
    ensures Closed(s, r, x)
  {
    hide Inv, OneEach, Onward, AllConsumed, Closed;
    var s1 := FrontMoves(s, w, q, x);
    if q.Retry? {
      r := NetCloses(s1, x, |Q(s, NetOut)|);
    } else {
      HandHolds(s1, w, x, 0);
      if q.Blocked? {
        r := ReturnCloses(s1, w);
      } else {
        r := HeldCloses(s1, w, x);
      }
    }
    ClosedOn(s, s1, r, x);
  }

  /** Wherever a ready subtask is queued, it can be brought to its end. */
  lemma ReadyCloses(s: State, x: Tid) returns (r: State)
    requires Fine(s) && x in s.tasks && s.tasks[x].phase == Ready && Child(s.tasks[x])
    ensures Closed(s, r, x)
  {
    hide Inv, OneEach, Onward, Closed, Enabled, Disciplined, Next;
    var q, k := QueuedSomewhere(s, x);
    if q.Hand? {
      assert k == 0 by { HandHolds(s, q.w, x, k); }
      HandHolds(s, q.w, x, k);
      r := HeldCloses(s, q.w, x);
    } else if q.NetOut? {
      r := NetCloses(s, x, k);
    } else {
      var s1 := ClearHand(s, q.w, x);
      hide OnlyAt;
      FineFacts(s, s1);
      var s2 := ToFront(s1, q.w, q, x, k);
      FineFacts(s1, s2);
      r := FrontCloses(s2, q.w, q, x);
      ClosedOn(s1, s2, r, x);
      ClosedOn(s, s1, r, x);
    }
  }

  lemma HandHolds(s: State, w: Wid, x: Tid, k: nat)
    requires Inv(s) && OnlyAt(s, x, Hand(w), k)
    ensures Q(s, Hand(w)) == [x] && k == 0
  {}

  // ----- events -----

  /** The events before that of `p`'s subtask resume others, whose hand is emptied again. */
  lemma {:induction false} EventWakes(s: State, p: Tid, c: Tid, m: nat) returns (r: State)
    requires Fine(s) && p in s.tasks && s.tasks[p].phase == Waiting(c)
    requires m < |E(s, s.tasks[p].worker)| && E(s, s.tasks[p].worker)[m] == c
    ensures Onward(s, r) && Roused(s, p, r)
    decreases m
  {
    hide Inv, OneEach, Onward, Enabled, Disciplined, Next, OnlyAt, Roused, DoPopEvent, EventIsLive;
    var w := s.tasks[p].worker;
    SleepingInNoHand(s, w, p);
    var s1 := ClearHand(s, w, p);
    FineFacts(s, s1);
    assert E(s1, w) == E(s, w);
    CanPopFront(s1, w, p, c, m);
    PopFront(s1, w, p, c, m);
    var s2 := DoPopEvent(s1, w, None);
    assert s2 == Next(s1, PopEvent(w, None)) by { PopIsNext(s1, w); }
    OnwardStep(s1, PopEvent(w, None));
    FineFacts(s1, s2);
    OnwardOn(s, s1, s2);
    if m == 0 {
      r := s2;
      RousedOn(s, s1, p, r);
    } else {
      r := EventWakes(s2, p, c, m - 1);
      OnwardOn(s, s2, r);
      RousedOn(s, s2, p, r);
    }
  }

  lemma PopIsNext(s: State, w: Wid)
    requires Enabled(s, PopEvent(w, None))
    ensures Next(s, PopEvent(w, None)) == DoPopEvent(s, w, None)
  {
    hide DoPopEvent;
  }

  lemma SleepingInNoHand(s: State, w: Wid, p: Tid)
    requires Inv(s) && p in s.tasks && s.tasks[p].phase.Waiting?
    ensures p !in Q(s, Hand(w))
  {
    SuspendedIsNowhere(s, p);
  }

  lemma CanPopFront(s: State, w: Wid, p: Tid, c: Tid, m: nat)
    requires Inv(s) && Q(s, Hand(w)) == [] && p in s.tasks && s.tasks[p].phase == Waiting(c)
    requires m < |E(s, w)| && E(s, w)[m] == c
    ensures Enabled(s, PopEvent(w, None)) && Disciplined(s, PopEvent(w, None)) && EventIsLive(s, w)
  {
    EventsAreLive(s, w);
  }

  lemma PopFront(s: State, w: Wid, p: Tid, c: Tid, m: nat)
    requires m < |E(s, w)| && E(s, w)[m] == c
    requires Inv(s) && EventIsLive(s, w) && p in s.tasks && s.tasks[p].phase == Waiting(c)
    ensures var r := DoPopEvent(s, w, None);
            && p in r.tasks && (if m == 0 then Roused(s, p, r) else r.tasks[p] == s.tasks[p])
            && (m > 0 ==> m - 1 < |E(r, w)| && E(r, w)[m - 1] == c)
  {
    hide DoPopEvent, Roused;
    FrontParent(s, w, p, c, m);
    hide Inv;
    if m == 0 {
      FirstWakes(s, w, p);
    } else {
      OthersStay(s, w, p);
    }
  }

  lemma FirstWakes(s: State, w: Wid, p: Tid)
    requires E(s, w) != [] && EventIsLive(s, w) && p in s.tasks && s.tasks[p].phase == Waiting(E(s, w)[0])
    requires p == s.heap[s.tasks[E(s, w)[0]].parentAddr.value]
    ensures p in DoPopEvent(s, w, None).tasks && Roused(s, p, DoPopEvent(s, w, None))
  {
    PopEventEffect(s, w, None);
    hide DoPopEvent;
  }

  lemma OthersStay(s: State, w: Wid, p: Tid)
    requires E(s, w) != [] && EventIsLive(s, w) && p in s.tasks && s.tasks[p].phase.Waiting?
    requires p != s.heap[s.tasks[E(s, w)[0]].parentAddr.value]
    ensures var r := DoPopEvent(s, w, None); p in r.tasks && r.tasks[p] == s.tasks[p] && E(r, w) == E(s, w)[1..]
  {
    PopEventEffect(s, w, None);
    hide DoPopEvent;
  }

  /** The first event's parent is `p` if it is the event of `p`'s subtask, and not else. */
  lemma FrontParent(s: State, w: Wid, p: Tid, c: Tid, m: nat)
    requires Inv(s) && p in s.tasks && s.tasks[p].phase == Waiting(c) && m < |E(s, w)| && E(s, w)[m] == c && EventIsLive(s, w)
    ensures var q := s.heap[s.tasks[E(s, w)[0]].parentAddr.value];
            (if m == 0 then q == p else q != p) && s.tasks[p].container.Some?
  {
    hide Conserved, RecordsOk, QueuesOk;
    var q := s.heap[s.tasks[E(s, w)[0]].parentAddr.value];
    assert s.tasks[q].phase == Waiting(E(s, w)[0]);
    if m == 0 {
      assert Outstanding(s, p, c) && Outstanding(s, q, c);
    } else {
      FirstIsOther(s, w, m);
    }
    WaitingSleeps(s, p);
  }

  lemma FirstIsOther(s: State, w: Wid, m: nat)
    requires EventsOk(s) && 0 < m < |E(s, w)|
    ensures E(s, w)[0] != E(s, w)[m]
  {
    var rest := E(s, w)[1..];
    assert E(s, w) == [E(s, w)[0]] + rest && rest[m - 1] == E(s, w)[m];
    TotalAtLeast(s.events, w, E(s, w)[m]);
    assert multiset(E(s, w)) == multiset{E(s, w)[0]} + multiset(rest);
    assert rest[m - 1] in multiset(rest);
  }

  lemma EndedWakes(s: State, p: Tid, c: Tid) returns (r: State)
    requires Fine(s) && p in s.tasks && s.tasks[p].phase == Waiting(c) && s.tasks[c].phase.Ended?
    ensures Onward(s, r) && Roused(s, p, r)
  {
    hide OneEach, Onward, Roused;
    var v := EndedTells(s, p, c);
    hide Inv;
    var m: nat :| m < |E(s, v)| && E(s, v)[m] == c;
    r := EventWakes(s, p, c, m);
  }

  lemma EndedTells(s: State, p: Tid, c: Tid) returns (v: Wid)
    requires Inv(s) && p in s.tasks && s.tasks[p].phase == Waiting(c) && s.tasks[c].phase.Ended?
    ensures c in E(s, v) && v == s.tasks[p].worker
  {
    assert Outstanding(s, p, c) && Pending(s, c);
    v := QueueOf(s.events, c);
    assert c in E(s, v);
  }

  // ----- bringing an awaited subtask to its end, whatever hangs from it -----

  /** What the invariant says of an awaited subtask. */
  lemma AwaitedIsChild(s: State, p: Tid, c: Tid)
    requires Inv(s) && p in s.tasks && s.tasks[p].phase == Waiting(c)
    ensures c in s.tasks && Child(s.tasks[c]) && s.tasks[c].parent == Some(p) && !s.tasks[c].consumed
    ensures !s.tasks[c].phase.Replying? && !s.tasks[c].phase.Rejected?
  {
    assert Outstanding(s, p, c) && RecordOk(s.tasks[c]);
  }

  lemma {:induction false} AwaitedCloses(s: State, p: Tid, c: Tid, age: map<Tid, nat>, n: nat) returns (r: State)
    requires Fine(s) && Aged(s, age, n) && p in s.tasks && s.tasks[p].phase == Waiting(c)
    ensures Closed(s, r, c)
    decreases n - (if c in age then age[c] else 0), 2
  {
    AwaitedIsChild(s, p, c);
    hide Inv, OneEach, Onward, Closed, Aged, AllConsumed;
    match s.tasks[c].phase
    case Ready => r := ReadyCloses(s, c);
    case Waiting(d) => r := WaitingCloses(s, c, d, age, n);
    case Running => r := RunningCloses(s, c, age, n);
    case Ended => r := s; SelfCloses(s, c);
  }

  lemma SelfCloses(s: State, c: Tid)
    requires Fine(s) && c in s.tasks && s.tasks[c].phase.Ended? && !s.tasks[c].consumed
    ensures Closed(s, s, c)
  {
    hide Inv, OneEach, Onward;
    OnwardSelf(s);
  }

  /** A running coroutine: it returns, or awaits its subtask first. */
  lemma {:induction false} RunningCloses(s: State, c: Tid, age: map<Tid, nat>, n: nat) returns (r: State)
    requires Fine(s) && Aged(s, age, n) && c in s.tasks && s.tasks[c].phase == Running && Child(s.tasks[c])
    ensures Closed(s, r, c)
    decreases n - (if c in age then age[c] else 0), 1
  {
    RunsInHand(s, c);
    var w := s.tasks[c].worker;
    hide Inv, OneEach, Onward, Closed, Aged;
    if d :| Outstanding(s, c, d) {
      var s1 := AwaitOnly(s, w, d);
      FineFacts(s, s1);
      AgesOn(s, s1, age, n);
      r := WaitingCloses(s1, c, d, age, n);
      ClosedOn(s, s1, r, c);
    } else {
      r := ReturnCloses(s, w);
    }
  }

  lemma RunsInHand(s: State, c: Tid)
    requires Inv(s) && c in s.tasks && s.tasks[c].phase == Running
    ensures HasInHand(s, s.tasks[c].worker, Running) && Held(s, s.tasks[c].worker) == c
  {
    assert c in Q(s, Hand(s.tasks[c].worker));
  }

  lemma AwaitOnly(s: State, w: Wid, d: Tid) returns (r: State)
    requires Fine(s) && HasInHand(s, w, Running) && Outstanding(s, Held(s, w), d)
    ensures var c := Held(s, w);
            Onward(s, r) && c in r.tasks && r.tasks[c].phase == Waiting(d) && SameStatic(s.tasks[c], r.tasks[c])
  {
    hide Inv, Onward;
    AwaitSuspends(s, Held(s, w), d);
    OnwardStep(s, Await(w, d));
    r := Next(s, Await(w, d));
  }

  lemma AgesOn(s: State, r: State, age: map<Tid, nat>, n: nat)
    requires Aged(s, age, n) && Onward(s, r)
    ensures Aged(r, age, n)
  {
    hide CanReach, Fine;
    AgedKept(s, r, age, n);
  }

  /** A suspended one: what it waits for is brought to its end, it wakes, and returns. */
  lemma {:induction false} WaitingCloses(s: State, c: Tid, d: Tid, age: map<Tid, nat>, n: nat) returns (r: State)
    requires Fine(s) && Aged(s, age, n) && c in s.tasks && s.tasks[c].phase == Waiting(d) && Child(s.tasks[c])
    ensures Closed(s, r, c)
    decreases n - (if c in age then age[c] else 0), 0
  {
    AwaitedIsChild(s, c, d);
    assert age[c] < age[d] < n;
    hide Inv, OneEach, Aged, Closed, Onward;
    var s1 := AwaitedCloses(s, c, d, age, n);
    StillAwaits(s, s1, c, d);
    var s2 := EndedWakes(s1, c, d);
    FineFacts(s1, s2);
    WokenHasNone(s1, s2, c, d);
    RunsInHand(s2, c);
    r := ReturnCloses(s2, s2.tasks[c].worker);
    ClosedOn(s1, s2, r, c);
    ClosedOn(s, s1, r, c);
  }

  lemma StillAwaits(s: State, r: State, c: Tid, d: Tid)
    requires Fine(s) && c in s.tasks && s.tasks[c].phase == Waiting(d) && Closed(s, r, d)
    ensures AwaitOk(s) && Fine(r) && Onward(s, r) && c in r.tasks && r.tasks[c].phase == Waiting(d) && r.tasks[d].phase.Ended?
    ensures SameStatic(s.tasks[c], r.tasks[c]) && r.tasks[c].container == s.tasks[c].container
  {
    hide CanReach;
    assert SleepsOn(s, r, c);
  }

  /** Having had one subtask outstanding, it has none when it is past that one. */
  lemma WokenHasNone(s: State, r: State, c: Tid, d: Tid)
    requires Fine(s) && Onward(s, r) && c in s.tasks && s.tasks[c].phase == Waiting(d) && Roused(s, c, r)
    ensures AllConsumed(r, c) && SameStatic(s.tasks[c], r.tasks[c])
  {
    assert Outstanding(s, c, d);
    forall e ensures !Outstanding(r, c, e) {
      if Outstanding(r, c, e) { assert Outstanding(s, c, e); }
    }
  }

  // ----- the result -----

  /** No running coroutine has two subtasks outstanding. */
  ghost predicate RunnersHaveOne(s: State) {
    forall p, c, d {:trigger Outstanding(s, p, c), Outstanding(s, p, d)} ::
      p in s.tasks && s.tasks[p].phase == Running && Outstanding(s, p, c) && Outstanding(s, p, d) ==> c == d
  }

  lemma RunnersSuffice(s: State)
    requires Inv(s) && RunnersHaveOne(s)
    ensures Fine(s)
  {
    assert OneEach(s);
  }

  lemma SleeperWakes(s: State, t: Tid, age: map<Tid, nat>, n: nat) returns (r: State)
    requires Fine(s) && Aged(s, age, n) && t in s.tasks && s.tasks[t].phase.Waiting?
    ensures Onward(s, r) && Roused(s, t, r)
  {
    hide Inv, OneEach, Aged, Closed, Onward;
    var c := s.tasks[t].phase.child;
    var s1 := AwaitedCloses(s, t, c, age, n);
    StillAwaits(s, s1, t, c);
    r := EndedWakes(s1, t, c);
    OnwardOn(s, s1, r);
    RousedOn(s, s1, t, r);
  }

  /** Every suspended task can be resumed, on its own container and past the subtask it waits
      for, by a run that respects the discipline throughout: on the way no task is lost, and
      no other one stays behind with a subtask it will never hear of. */
  lemma SleepersWakeInDiscipline(run: seq<Action>, t: Tid) returns (more: seq<Action>)
    requires IsRun(Init, run) && RunnersHaveOne(After(Init, run))
    requires t in After(Init, run).tasks && After(Init, run).tasks[t].phase.Waiting?
    ensures IsRun(After(Init, run), more) && IsRun(Init, run + more)
    ensures var r := After(After(Init, run), more); Roused(After(Init, run), t, r) && Conserved(r) && RunnersHaveOne(r)
  {
    hide Inv, IsRun, After, Aged, Roused, RunnersHaveOne, OneEach;
    var s := After(Init, run);
    InitInv();
    RunInv(Init, run);
    InitAged();
    var age, n := RunAges(Init, run, map[], 0);
    RunnersSuffice(s);
    var r := SleeperWakes(s, t, age, n);
    hide KeepsAll;
    more :| Ends(s, more, r);
    JoinRuns(Init, run, more);
    FineEnds(r);
  }

  lemma FineEnds(r: State)
    requires Fine(r)
    ensures Conserved(r) && RunnersHaveOne(r)
  {}

  // ----- why the premise is there -----

  /** `p` runs with the subtasks `c` and `d` outstanding. */
  predicate HasTwo(s: State, p: Tid, c: Tid, d: Tid) {
    c != d && p in s.tasks && s.tasks[p].phase == Running && Outstanding(s, p, c) && Outstanding(s, p, d)
  }

  /** Such a coroutine can neither await nor yield nor return: it keeps its worker for good,
      and whatever sleeps on it, or on an event of that worker, never wakes. */
  lemma {:induction false} TwoOutstandingStick(s: State, run: seq<Action>, p: Tid, c: Tid, d: Tid)
    requires Inv(s) && IsRun(s, run) && HasTwo(s, p, c, d)
    ensures HasTwo(After(s, run), p, c, d)
    decreases |run|
  {
    hide Inv, Enabled, Disciplined, Next, HasTwo;
    if run != [] {
      StepInv(s, run[0]);
      StepSticks(s, run[0], p, c, d);
      TwoOutstandingStick(Next(s, run[0]), run[1..], p, c, d);
    }
  }

  lemma StepSticks(s: State, a: Action, p: Tid, c: Tid, d: Tid)
    requires Inv(s) && Enabled(s, a) && Disciplined(s, a) && HasTwo(s, p, c, d)
    ensures HasTwo(Next(s, a), p, c, d)
  {
    hide Inv, Enabled, Disciplined, Next, HasTwo;
    if Handles(a) {
      HandlingSticks(s, a, p, c, d);
    } else if a.PopEvent? {
      EventSticks(s, a.w, a.found, p, c, d);
    } else if a.Await? {
      AwaitSticks(s, a.w, a.child, p, c, d);
    } else {
      OtherSticks(s, a, p, c, d);
    }
  }

  lemma HandlingSticks(s: State, a: Action, p: Tid, c: Tid, d: Tid)
    requires Inv(s) && Enabled(s, a) && Disciplined(s, a) && Handles(a) && HasTwo(s, p, c, d)
    ensures HasTwo(Next(s, a), p, c, d)
  {
    hide Inv, Enabled, Disciplined, Next, HasTwo;
    ActorMoves(s, a);
    NotTheActor(s, a, p, c, d);
    OneRecordSticks(s, Next(s, a), Actor(s, a), p, c, d);
  }

  lemma OneRecordSticks(s: State, r: State, t: Tid, p: Tid, c: Tid, d: Tid)
    requires HasTwo(s, p, c, d) && t in s.tasks && t in r.tasks && t != p && r.tasks == s.tasks[t := r.tasks[t]]
    requires SameStatic(s.tasks[t], r.tasks[t]) && r.tasks[t].consumed == s.tasks[t].consumed
    ensures HasTwo(r, p, c, d)
  {}

  lemma NotTheActor(s: State, a: Action, p: Tid, c: Tid, d: Tid)
    requires Inv(s) && Enabled(s, a) && Disciplined(s, a) && Handles(a) && HasTwo(s, p, c, d)
    ensures Actor(s, a) != p
  {
    hide Inv, Enabled, Disciplined;
    var t := Actor(s, a);
    assert t in Q(s, From(a)) by { FromHolds(s, a); }
    EntryFacts(s, From(a), t);
    if s.tasks[t].phase == Running { RunnerLeaves(s, a); }
  }

  /** A running task that is handled leaves the hand with nothing outstanding. */
  lemma RunnerLeaves(s: State, a: Action)
    requires Enabled(s, a) && Disciplined(s, a) && Handles(a)
    requires s.tasks[Actor(s, a)].phase == Running && EntryOk(s, From(a), Actor(s, a))
    ensures AllConsumed(s, Actor(s, a))
  {
    hide AllConsumed, CanEnter;
  }

  lemma AwaitSticks(s: State, w: Wid, e: Tid, p: Tid, c: Tid, d: Tid)
    requires Inv(s) && Enabled(s, Await(w, e)) && Disciplined(s, Await(w, e)) && HasTwo(s, p, c, d)
    ensures HasTwo(Next(s, Await(w, e)), p, c, d)
  {
    hide Inv, HasTwo;
    AwaitSuspends(s, Held(s, w), e);
    assert Held(s, w) != p by { OneAtAwait(s, Held(s, w), e, p, c, d); }
    OneRecordSticks(s, Next(s, Await(w, e)), Held(s, w), p, c, d);
  }

  lemma OneAtAwait(s: State, h: Tid, e: Tid, p: Tid, c: Tid, d: Tid)
    requires ConsumedExcept(s, h, e) && HasTwo(s, p, c, d)
    ensures h != p
  {}

  lemma EventSticks(s: State, w: Wid, found: Option<Cid>, p: Tid, c: Tid, d: Tid)
    requires Inv(s) && Enabled(s, PopEvent(w, found)) && HasTwo(s, p, c, d)
    ensures HasTwo(Next(s, PopEvent(w, found)), p, c, d)
  {
    hide Inv, HasTwo, DoPopEvent;
    EventsAreLive(s, w);
    var f := E(s, w)[0];
    FrontAwaited(s, s.heap[s.tasks[f].parentAddr.value], f);
    PopSticks(s, w, found, p, c, d);
  }

  lemma FrontAwaited(s: State, q: Tid, f: Tid)
    requires Inv(s) && q in s.tasks && s.tasks[q].phase == Waiting(f)
    ensures f in s.tasks && s.tasks[f].parent == Some(q)
  {
    assert Outstanding(s, q, f);
  }

  lemma PopSticks(s: State, w: Wid, found: Option<Cid>, p: Tid, c: Tid, d: Tid)
    requires E(s, w) != [] && EventIsLive(s, w) && HasTwo(s, p, c, d)
    requires var f := E(s, w)[0]; s.tasks[f].parent == Some(s.heap[s.tasks[f].parentAddr.value])
    ensures HasTwo(DoPopEvent(s, w, found), p, c, d)
  {
    PopEventEffect(s, w, found);
    hide DoPopEvent;
  }

  lemma OtherSticks(s: State, a: Action, p: Tid, c: Tid, d: Tid)
    requires Enabled(s, a) && HasTwo(s, p, c, d) && (a.Submit? || a.Spawn? || a.Free? || a.Plug?)
    ensures HasTwo(Next(s, a), p, c, d)
  {}
}
