/** What happens outside the discipline: runs and steps in which the scheduler's
    promises fail, each with the exact condition under which they hold. */
module SchedulerLimits {
  import opened Sums
  import opened Scheduler
  import opened Conservation
  import opened Completion
  import opened CompletionRuns
  import opened Accounting

  /** States of a run of the code (`early` false) or of the variant whose EndTask sets
      FUTURE_COMPLETE itself; `strict` asks for the discipline as well. */
  ghost predicate IsTrace(states: seq<State>, run: seq<Action>, early: bool, strict: bool) {
    && |states| == |run| + 1 && states[0] == Init
    && forall i :: 0 <= i < |run| ==> Leads(states[i], run[i], states[i + 1], early, strict)
  }

  ghost predicate Leads(s: State, a: Action, t: State, early: bool, strict: bool) {
    Enabled(s, a) && (strict ==> Disciplined(s, a)) && Next(s, a, early) == t
  }

  lemma Extend(states: seq<State>, run: seq<Action>, a: Action, s: State, early: bool, strict: bool)
    returns (states': seq<State>, run': seq<Action>)
    requires IsTrace(states, run, early, strict) && Leads(states[|run|], a, s, early, strict)
    ensures states' == states + [s] && run' == run + [a] && IsTrace(states', run', early, strict)
  {
    hide Leads;
    states', run' := states + [s], run + [a];
    forall i | 0 <= i < |run'| ensures Leads(states'[i], run'[i], states'[i + 1], early, strict) {
      assert i < |run| ==> states'[i] == states[i] && states'[i + 1] == states[i + 1] && run'[i] == run[i];
    }
  }

  function Root(): Task { NewTask(None, None, 100, 0, false, false, ToFuture) }

  function Child(): Task { NewTask(Some(0), Some(100), 101, 1, false, false, ToFuture) }

  function RunningRoot(): Task {
    Root().(routed := true, container := Some(7), started := true, predicted := 1.0, phase := Running)
  }

  function RunningChild(): Task {
    Child().(routed := true, container := Some(7), started := true, predicted := 1.0, phase := Running)
  }

  function S1(): State {
    State(map[0 := Root()],
          map[Lane(0) := [0]],
          map[], map[100 := 0], map[], map[], {})
  }

  function S2(): State {
    State(map[0 := Root()],
          map[Lane(0) := [], Hand(0) := [0]],
          map[], map[100 := 0], map[], map[], {})
  }

  function S3(): State {
    State(map[0 := Root().(routed := true, container := Some(7))],
          map[Lane(0) := [], Hand(0) := [0]],
          map[], map[100 := 0], map[], map[], {})
  }

  function S4(): State {
    State(map[0 := RunningRoot()],
          map[Lane(0) := [], Hand(0) := [0]],
          map[], map[100 := 0], map[0 := 1.0], map[7 := 1], {})
  }

  function S5(): State {
    State(map[0 := RunningRoot(), 1 := Child()],
          map[Lane(0) := [], Hand(0) := [0], Lane(1) := [1]],
          map[], map[100 := 0, 101 := 1], map[0 := 1.0], map[7 := 1], {})
  }

  function E6(): State {
    State(map[0 := RunningRoot(), 1 := Child()],
          map[Lane(0) := [], Hand(0) := [0], Lane(1) := [], Hand(1) := [1]],
          map[], map[100 := 0, 101 := 1], map[0 := 1.0], map[7 := 1], {})
  }

  function E7(): State {
    State(map[0 := RunningRoot(), 1 := Child().(routed := true, container := Some(7))],
          map[Lane(0) := [], Hand(0) := [0], Lane(1) := [], Hand(1) := [1]],
          map[], map[100 := 0, 101 := 1], map[0 := 1.0], map[7 := 1], {})
  }

  function E8(): State {
    State(map[0 := RunningRoot(), 1 := RunningChild()],
          map[Lane(0) := [], Hand(0) := [0], Lane(1) := [], Hand(1) := [1]],
          map[], map[100 := 0, 101 := 1], map[0 := 1.0, 1 := 1.0], map[7 := 2], {})
  }

  function E9(): State {
    State(map[0 := RunningRoot(), 1 := RunningChild().(phase := Ended, complete := true)],
          map[Lane(0) := [], Hand(0) := [0], Lane(1) := [], Hand(1) := []],
          map[0 := [1]], map[100 := 0, 101 := 1], map[0 := 1.0, 1 := 0.0], map[7 := 1], {})
  }

  function E10(): State {
    State(map[0 := RunningRoot(), 1 := RunningChild().(phase := Ended, complete := true, consumed := true)],
          map[Lane(0) := [], Hand(0) := [0], Lane(1) := [], Hand(1) := []],
          map[0 := [1]], map[100 := 0, 101 := 1], map[0 := 1.0, 1 := 0.0], map[7 := 1], {})
  }

  lemma SmallQueues()
    ensures forall t: Tid {:trigger [t]} :: [] + [t] == [t] && [t][..0] + [t][1..] == []
  {}

  lemma Step1(early: bool, strict: bool)
    ensures Leads(Init, Submit(0, 100, 0, false, false, ToFuture), S1(), early, strict)
  {
    SmallQueues();
    var r := Next(Init, Submit(0, 100, 0, false, false, ToFuture), early);
    assert r.queues == S1().queues;
    assert r.tasks == S1().tasks;
  }

  lemma Step2(early: bool, strict: bool)
    ensures Leads(S1(), PopLane(0), S2(), early, strict)
  {
    SmallQueues();
    var r := Next(S1(), PopLane(0), early);
    assert r.queues == S2().queues;
    assert r.tasks == S2().tasks;
  }

  lemma Step3(early: bool, strict: bool)
    ensures Leads(S2(), RouteLocal(0, 7, 0), S3(), early, strict)
  {
    var r := Next(S2(), RouteLocal(0, 7, 0), early);
    assert r.queues == S3().queues;
    assert r.tasks == S3().tasks;
  }

  lemma Step4(early: bool, strict: bool)
    ensures Leads(S3(), Exec(0, None, 1.0), S4(), early, strict)
  {
    var r := Next(S3(), Exec(0, None, 1.0), early);
    assert r.queues == S4().queues;
    assert r.tasks == S4().tasks;
  }

  lemma Step5(early: bool, strict: bool)
    ensures Leads(S4(), Spawn(0, 1, 101, 1, false), S5(), early, strict)
  {
    SmallQueues();
    var r := Next(S4(), Spawn(0, 1, 101, 1, false), early);
    assert r.queues == S5().queues;
    assert r.tasks == S5().tasks;
  }

  lemma EStep6()
    ensures Leads(S5(), PopLane(1), E6(), true, true)
  {
    SmallQueues();
    var r := Next(S5(), PopLane(1), true);
    assert r.queues == E6().queues;
    assert r.tasks == E6().tasks;
  }

  lemma EStep7()
    ensures Leads(E6(), RouteLocal(1, 7, 1), E7(), true, true)
  {
    var r := Next(E6(), RouteLocal(1, 7, 1), true);
    assert r.queues == E7().queues;
    assert r.tasks == E7().tasks;
  }

  lemma EStep8()
    ensures Leads(E7(), Exec(1, None, 1.0), E8(), true, true)
  {
    var r := Next(E7(), Exec(1, None, 1.0), true);
    assert r.queues == E8().queues;
    assert r.tasks == E8().tasks;
  }

  lemma EReady9()
    ensures Enabled(E8(), Return(1, Periodic(1, 0))) && Disciplined(E8(), Return(1, Periodic(1, 0)))
  {}

  lemma EStep9()
    ensures Leads(E8(), Return(1, Periodic(1, 0)), E9(), true, true)
  {
    hide Enabled, Disciplined;
    EReady9();
    SmallQueues();
    var s := LetGo(E8(), 1, E8().tasks[Held(E8(), 1)]);
    assert ExitOf(s, s.tasks[1]) == NotifyParent(0);
    var r := Next(E8(), Return(1, Periodic(1, 0)), true);
    assert r.queues == E9().queues;
    assert r.tasks == E9().tasks;
    assert r.events == E9().events;
    assert r.load == E9().load;
    assert r.work == E9().work;
  }

  lemma EStep10()
    ensures Leads(E9(), Await(0, 1), E10(), true, true)
  {
    SmallQueues();
    var r := Next(E9(), Await(0, 1), true);
    assert r.queues == E10().queues;
    assert r.tasks == E10().tasks;
  }

  lemma EReady11()
    ensures Enabled(E10(), Return(0, Periodic(0, 0))) && Disciplined(E10(), Return(0, Periodic(0, 0)))
  {}

  function E11(): State {
    EReady11();
    Next(E10(), Return(0, Periodic(0, 0)), true)
  }

  lemma EFacts11()
    ensures var s := E11();
            && s.tasks == E10().tasks[0 := E10().tasks[0].(phase := Ended, complete := true)]
            && s.heap == E10().heap && s.events == E10().events && Q(s, Hand(0)) == []
  {
    SmallQueues();
  }

  function E12(): State {
    EFacts11();
    Next(E11(), Free(0), true)
  }

  lemma EFacts12()
    ensures Enabled(E11(), Free(0)) && Disciplined(E11(), Free(0))
    ensures var s := E12();
            && s.tasks == E11().tasks[0 := E11().tasks[0].(freed := true)]
            && s.heap == E10().heap - {100} && s.events == E10().events && Q(s, Hand(0)) == []
  {
    hide E11;
    EFacts11();
  }

  function E13(): State {
    EFacts11();
    EFacts12();
    Next(E12(), Submit(2, 100, 0, false, false, ToFuture), true)
  }

  lemma EStep11()
    ensures Leads(E10(), Return(0, Periodic(0, 0)), E11(), true, true)
  {
    hide Enabled, Disciplined, Next, E10;
    EReady11();
  }

  lemma EStep12()
    ensures Leads(E11(), Free(0), E12(), true, true)
  {
    hide Enabled, Disciplined, Next, E11;
    EFacts12();
  }

  lemma EStep13()
    ensures Leads(E12(), Submit(2, 100, 0, false, false, ToFuture), E13(), true, true)
  {
    hide Enabled, Next, E12;
    EarlyOutcome();
  }

  /** The variant that sets FUTURE_COMPLETE in EndTask: task 0 sees subtask 1 complete,
      finishes and is freed; task 2 reuses its address; the event of subtask 1 is still
      queued, is already complete, and now points at task 2.  */
  lemma EarlyCompletionBreaks() returns (states: seq<State>, run: seq<Action>)
    ensures IsTrace(states, run, true, true)
    ensures var s := states[|run|];
            && Q(s, Hand(0)) == [] && E(s, 0) != []
            && var f := E(s, 0)[0];
            && f in s.tasks && s.tasks[f].complete
            && s.tasks[f].parent.Some? && s.tasks[f].parentAddr.Some? && s.tasks[f].parentAddr.value in s.heap
            && s.tasks[f].parent.value in s.tasks && s.tasks[s.tasks[f].parent.value].freed
            && s.heap[s.tasks[f].parentAddr.value] != s.tasks[f].parent.value
  {
    hide Leads, Init, S1, S2, S3, S4, S5, E6, E7, E8, E9, E10, E11, E12, E13;
    states, run := [Init], [];
    Step1(true, true);
    states, run := Extend(states, run, Submit(0, 100, 0, false, false, ToFuture), S1(), true, true);
    Step2(true, true);
    states, run := Extend(states, run, PopLane(0), S2(), true, true);
    Step3(true, true);
    states, run := Extend(states, run, RouteLocal(0, 7, 0), S3(), true, true);
    Step4(true, true);
    states, run := Extend(states, run, Exec(0, None, 1.0), S4(), true, true);
    Step5(true, true);
    states, run := Extend(states, run, Spawn(0, 1, 101, 1, false), S5(), true, true);
    EStep6();
    states, run := Extend(states, run, PopLane(1), E6(), true, true);
    EStep7();
    states, run := Extend(states, run, RouteLocal(1, 7, 1), E7(), true, true);
    EStep8();
    states, run := Extend(states, run, Exec(1, None, 1.0), E8(), true, true);
    EStep9();
    states, run := Extend(states, run, Return(1, Periodic(1, 0)), E9(), true, true);
    EStep10();
    states, run := Extend(states, run, Await(0, 1), E10(), true, true);
    EStep11();
    states, run := Extend(states, run, Return(0, Periodic(0, 0)), E11(), true, true);
    EStep12();
    states, run := Extend(states, run, Free(0), E12(), true, true);
    EStep13();
    states, run := Extend(states, run, Submit(2, 100, 0, false, false, ToFuture), E13(), true, true);
    EarlyOutcome();
  }

  lemma EarlyOutcome()
    ensures Enabled(E12(), Submit(2, 100, 0, false, false, ToFuture))
    ensures var s := E13();
            && Q(s, Hand(0)) == [] && E(s, 0) == [1]
            && 1 in s.tasks && s.tasks[1].complete && s.tasks[1].parent == Some(0) && s.tasks[1].parentAddr == Some(100)
            && 0 in s.tasks && s.tasks[0].freed && 100 in s.heap && s.heap[100] == 2
  {
    hide E11, E12;
    EFacts11();
    EFacts12();
  }

  function T6(): State {
    State(map[0 := RunningRoot(), 1 := Child(), 2 := Child().(addr := 102, worker := 2)],
          map[Lane(0) := [], Hand(0) := [0], Lane(1) := [1], Lane(2) := [2]],
          map[], map[100 := 0, 101 := 1, 102 := 2], map[0 := 1.0], map[7 := 1], {})
  }

  function T7(): State {
    State(map[0 := RunningRoot().(phase := Waiting(1)), 1 := Child(), 2 := Child().(addr := 102, worker := 2)],
          map[Lane(0) := [], Hand(0) := [], Lane(1) := [1], Lane(2) := [2]],
          map[], map[100 := 0, 101 := 1, 102 := 2], map[0 := 1.0], map[7 := 1], {})
  }

  function T8(): State {
    State(map[0 := RunningRoot().(phase := Waiting(1)), 1 := Child(), 2 := Child().(addr := 102, worker := 2)],
          map[Lane(0) := [], Hand(0) := [], Lane(1) := [1], Lane(2) := [], Hand(2) := [2]],
          map[], map[100 := 0, 101 := 1, 102 := 2], map[0 := 1.0], map[7 := 1], {})
  }

  function T9(): State {
    State(map[0 := RunningRoot().(phase := Waiting(1)), 1 := Child(), 2 := Child().(addr := 102, worker := 2).(routed := true, container := Some(7))],
          map[Lane(0) := [], Hand(0) := [], Lane(1) := [1], Lane(2) := [], Hand(2) := [2]],
          map[], map[100 := 0, 101 := 1, 102 := 2], map[0 := 1.0], map[7 := 1], {})
  }

  function T10(): State {
    State(map[0 := RunningRoot().(phase := Waiting(1)), 1 := Child(), 2 := RunningChild().(addr := 102, worker := 2)],
          map[Lane(0) := [], Hand(0) := [], Lane(1) := [1], Lane(2) := [], Hand(2) := [2]],
          map[], map[100 := 0, 101 := 1, 102 := 2], map[0 := 1.0, 2 := 1.0], map[7 := 2], {})
  }

  function T11(): State {
    State(map[0 := RunningRoot().(phase := Waiting(1)), 1 := Child(), 2 := RunningChild().(addr := 102, worker := 2).(phase := Ended)],
          map[Lane(0) := [], Hand(0) := [], Lane(1) := [1], Lane(2) := [], Hand(2) := []],
          map[0 := [2]], map[100 := 0, 101 := 1, 102 := 2], map[0 := 1.0, 2 := 0.0], map[7 := 1], {})
  }

  lemma TStep6()
    ensures Leads(S5(), Spawn(0, 2, 102, 2, false), T6(), false, false)
  {
    SmallQueues();
    var r := Next(S5(), Spawn(0, 2, 102, 2, false), false);
    assert r.queues == T6().queues;
    assert r.tasks == T6().tasks;
  }

  lemma TReady7()
    ensures Enabled(T6(), Await(0, 1)) && Held(T6(), 0) == 0
  {}

  lemma TStep7()
    ensures Leads(T6(), Await(0, 1), T7(), false, false)
  {
    hide Enabled, Disciplined;
    TReady7();
    SmallQueues();
    assert Next(T6(), Await(0, 1), false) == LetGo(T6(), 0, T6().tasks[0].(phase := Waiting(1)));
    var r := LetGo(T6(), 0, T6().tasks[0].(phase := Waiting(1)));
    assert r.queues == T7().queues;
    assert r.tasks == T7().tasks;
  }

  lemma TStep8()
    ensures Leads(T7(), PopLane(2), T8(), false, false)
  {
    SmallQueues();
    var r := Next(T7(), PopLane(2), false);
    assert r.queues == T8().queues;
    assert r.tasks == T8().tasks;
  }

  lemma TStep9()
    ensures Leads(T8(), RouteLocal(2, 7, 2), T9(), false, false)
  {
    var r := Next(T8(), RouteLocal(2, 7, 2), false);
    assert r.queues == T9().queues;
    assert r.tasks == T9().tasks;
  }

  lemma TStep10()
    ensures Leads(T9(), Exec(2, None, 1.0), T10(), false, false)
  {
    var r := Next(T9(), Exec(2, None, 1.0), false);
    assert r.queues == T10().queues;
    assert r.tasks == T10().tasks;
  }

  lemma TReady11()
    ensures Enabled(T10(), Return(2, Periodic(2, 0)))
  {}

  lemma TStep11()
    ensures Leads(T10(), Return(2, Periodic(2, 0)), T11(), false, false)
  {
    hide Enabled, Disciplined;
    TReady11();
    SmallQueues();
    var s := LetGo(T10(), 2, T10().tasks[Held(T10(), 2)]);
    assert ExitOf(s, s.tasks[2]) == NotifyParent(0);
    var r := Next(T10(), Return(2, Periodic(2, 0)), false);
    assert r.queues == T11().queues;
    assert r.tasks == T11().tasks;
    assert r.events == T11().events;
    assert r.load == T11().load;
    assert r.work == T11().work;
  }

  lemma TReady12()
    ensures Enabled(T11(), PopEvent(0, None))
  {}

  function T12(): State {
    TReady12();
    Next(T11(), PopEvent(0, None))
  }

  lemma TStep12()
    ensures Leads(T11(), PopEvent(0, None), T12(), false, false)
  {
    hide Enabled, Next, T11;
    TReady12();
  }

  /** The code itself, with two outstanding subtasks: task 0 awaits subtask 1, the event of
      subtask 2 arrives first and resumes it, and it passes await_resume of subtask 1,
      which has not even started.  */
  lemma TwoOutstandingBreak() returns (states: seq<State>, run: seq<Action>)
    ensures IsTrace(states, run, false, false)
    ensures var s := states[|run|];
            && Q(s, Hand(0)) == [0] && 0 in s.tasks && s.tasks[0].phase == Running
            && 1 in s.tasks && s.tasks[1].parent == Some(0)
            && s.tasks[1].consumed && !s.tasks[1].complete && s.tasks[1].phase == Ready
  {
    hide Leads, Init, S1, S2, S3, S4, S5, T6, T7, T8, T9, T10, T11, T12;
    states, run := [Init], [];
    Step1(false, false);
    states, run := Extend(states, run, Submit(0, 100, 0, false, false, ToFuture), S1(), false, false);
    Step2(false, false);
    states, run := Extend(states, run, PopLane(0), S2(), false, false);
    Step3(false, false);
    states, run := Extend(states, run, RouteLocal(0, 7, 0), S3(), false, false);
    Step4(false, false);
    states, run := Extend(states, run, Exec(0, None, 1.0), S4(), false, false);
    Step5(false, false);
    states, run := Extend(states, run, Spawn(0, 1, 101, 1, false), S5(), false, false);
    TStep6();
    states, run := Extend(states, run, Spawn(0, 2, 102, 2, false), T6(), false, false);
    TStep7();
    states, run := Extend(states, run, Await(0, 1), T7(), false, false);
    TStep8();
    states, run := Extend(states, run, PopLane(2), T8(), false, false);
    TStep9();
    states, run := Extend(states, run, RouteLocal(2, 7, 2), T9(), false, false);
    TStep10();
    states, run := Extend(states, run, Exec(2, None, 1.0), T10(), false, false);
    TStep11();
    states, run := Extend(states, run, Return(2, Periodic(2, 0)), T11(), false, false);
    TStep12();
    states, run := Extend(states, run, PopEvent(0, None), T12(), false, false);
    TwoOutcome();
  }

  lemma TwoOutcome()
    ensures var s := T12();
            && Q(s, Hand(0)) == [0] && 0 in s.tasks && s.tasks[0].phase == Running
            && 1 in s.tasks && s.tasks[1].parent == Some(0)
            && s.tasks[1].consumed && !s.tasks[1].complete && s.tasks[1].phase == Ready
  {
    hide Enter;
    TReady12();
    var s := T11();
    var s1 := Put(s, 2, s.tasks[2].(complete := true)).(events := s.events[0 := E(s, 0)[1..]]);
    var s2 := Put(s1, 1, s1.tasks[1].(consumed := true));
    EnterRecord(s2, 0, 0, None, 0.0, true);
    assert T12() == Push(Enter(s2, 0, 0, None, 0.0, true), Hand(0), 0);
    assert [] + [0] == [0];
  }

  /** In any conserving state: a coroutine that yields for zero microseconds without an
      outstanding subtask is unfinished and in no place at all. */
  lemma ZeroYieldLosesTask(s: State, w: Wid)
    requires Conserved(s) && Enabled(s, YieldZero(w))
    ensures var r := Next(s, YieldZero(w)); Unfinished(r, Held(s, w)) && forall p :: !Occupies(r, Held(s, w), p)
  {
    var t := Held(s, w);
    var r := Next(s, YieldZero(w));
    NowhereAfterDrop(s, Hand(w), 0);
    forall q ensures t !in Q(r, q) { assert Q(r, q) == Q(Drop(s, Hand(w), 0), q); }
  }

  /** In any balanced state: running a non-periodic task from the retry queue keeps the
      books as they are exactly when the task had not started yet. */
  lemma RetryBalancesIff(s: State, w: Wid, c: Cid, found: Option<Cid>, pred: real, b: Surplus)
    requires Balanced(s, b) && Enabled(s, RunRetry(w, c, found, pred))
    requires var x := s.tasks[Q(s, Retry(w))[0]]; x.phase == Ready && !x.periodic
    ensures Balanced(Next(s, RunRetry(w, c, found, pred)), b) <==> !s.tasks[Q(s, Retry(w))[0]].started
  {
    hide Sum, Loads, Works, Enter;
    var t := Q(s, Retry(w))[0];
    var x := s.tasks[t].(container := Some(c));
    TakeBalances(s, w, Retry(w), x, b);
    EnterBalances(Take(s, w, Retry(w), x), w, t, found, pred, false, b);
  }

  /** In any conserving state: a task whose query resolves to nothing is unfinished and in
      no place at all once RouteTask has given up on it. */
  lemma UnresolvedIsLost(s: State, w: Wid)
    requires Conserved(s) && Enabled(s, DropUnresolved(w))
    ensures var r := Next(s, DropUnresolved(w)); Unfinished(r, Held(s, w)) && forall p :: !Occupies(r, Held(s, w), p)
  {
    var t := Held(s, w);
    var r := Next(s, DropUnresolved(w));
    NowhereAfterDrop(s, Hand(w), 0);
    forall q ensures t !in Q(r, q) { assert Q(r, q) == Q(Drop(s, Hand(w), 0), q); }
  }

  /** In any reachable state: the return of a periodic task from the network keeps the
      invariant exactly when it is processed on the worker that sleeps the task. */
  lemma PeriodicReturnIff(s: State, k: nat, w: Wid, c: Cid, again: Queue)
    requires Inv(s) && Enabled(s, NetReturn(k, w, c, again)) && s.tasks[Q(s, NetOut)[k]].periodic
    ensures Inv(Next(s, NetReturn(k, w, c, again))) <==> s.tasks[Q(s, NetOut)[k]].worker == w
  {
    hide Inv;
    var t := Q(s, NetOut)[k];
    if s.tasks[t].worker == w {
      StepInv(s, NetReturn(k, w, c, again));
    } else {
      var r := Next(s, NetReturn(k, w, c, again));
      ReturnedAsleep(s, k, w, c, again);
      assert !EntryOk(r, again, t);
      Misplaced(r, again, t);
    }
  }

  lemma ReturnedAsleep(s: State, k: nat, w: Wid, c: Cid, again: Queue)
    requires Enabled(s, NetReturn(k, w, c, again)) && s.tasks[Q(s, NetOut)[k]].periodic
    ensures var t := Q(s, NetOut)[k];
            var r := Next(s, NetReturn(k, w, c, again));
            t in r.tasks && r.tasks[t].worker == s.tasks[t].worker && t in Q(r, again)
  {}

  lemma Misplaced(r: State, q: Queue, t: Tid)
    requires t in Q(r, q) && !EntryOk(r, q, t)
    ensures !Inv(r)
  {}

  /** In any state the scheduler can reach: rejecting a subtask its parent waits for
      completes it without an event, so no event will ever name it and the parent stays
      suspended on a complete subtask. */
  lemma RejectStrandsParent(s: State, w: Wid)
    requires Inv(s) && Enabled(s, Reject(w))
    requires s.tasks[Held(s, w)].parent.Some? && s.tasks[Held(s, w)].parent.value in s.tasks
    requires s.tasks[s.tasks[Held(s, w)].parent.value].phase == Waiting(Held(s, w))
    ensures var r := Next(s, Reject(w));
            var t := Held(s, w);
            && r.tasks[t].complete && r.tasks[s.tasks[t].parent.value].phase == Waiting(t)
            && forall v :: t !in E(r, v)
  {
    hide Conserved, LineageOk, AwaitOk, QueuesOk, HeapOk;
    var t := Held(s, w);
    var r := Next(s, Reject(w));
    assert s.tasks[t].phase == Ready && s.tasks[s.tasks[t].parent.value].phase == Waiting(t);
    assert r.events == s.events && r.tasks == s.tasks[t := s.tasks[t].(phase := Rejected, complete := true)];
    assert Total(s.events, t) == 0;
    forall v ensures t !in E(r, v) {
      TotalAtLeast(s.events, v, t);
      assert multiset(E(s, v))[t] == 0;
      assert E(r, v) == E(s, v);
    }
  }

  /** The discipline is exactly what the invariant needs: from any reachable state a step
      keeps it if and only if it is disciplined. */
  lemma DisciplineIsExact(s: State, a: Action)
    requires Inv(s) && Enabled(s, a)
    ensures Inv(Next(s, a)) <==> Disciplined(s, a)
  {
    hide Inv;
    if Disciplined(s, a) {
      StepInv(s, a);
    } else {
      match a
      case Reject(w) => RejectedChild(s, w);
      case DropUnresolved(w) =>
        LostBreaks(s, w, a);
      case YieldZero(w) =>
        LostBreaks(s, w, a);
      case Await(w, c) => AwaitBreaks(s, w, c);
      case YieldTimed(w, _) => LeavingBreaks(s, w, a);
      case Return(w, _) => LeavingBreaks(s, w, a);
      case NetReturn(k, w, c, again) => PeriodicReturnIff(s, k, w, c, again);
    }
  }

  lemma RejectedChild(s: State, w: Wid)
    requires Enabled(s, Reject(w)) && s.tasks[Held(s, w)].parent.Some?
    ensures !Inv(Next(s, Reject(w)))
  {
    hide Conserved, HeapOk, LineageOk, AwaitOk, EventsOk, QueuesOk;
    var r := Next(s, Reject(w));
    assert !RecordOk(r.tasks[Held(s, w)]);
  }

  lemma LostBreaks(s: State, w: Wid, a: Action)
    requires Inv(s) && Enabled(s, a) && (a == DropUnresolved(w) || a == YieldZero(w))
    ensures !Inv(Next(s, a))
  {
    hide RecordsOk, HeapOk, LineageOk, AwaitOk, EventsOk, QueuesOk;
    var t := Held(s, w);
    var r := Next(s, a);
    if a.YieldZero? { ZeroYieldLosesTask(s, w); } else { UnresolvedIsLost(s, w); }
    if Conserved(r) {
      OnePlace(r, t);
      assert false;
    }
  }

  /** With another subtask outstanding, its parent must run or wait for it. */
  lemma StraysOutstanding(r: State, p: Tid, d: Tid)
    requires Outstanding(r, p, d) && !(p in r.tasks && (r.tasks[p].phase == Running || r.tasks[p].phase == Waiting(d)))
    ensures !Inv(r)
  {}

  lemma AwaitBreaks(s: State, w: Wid, c: Tid)
    requires Inv(s) && Enabled(s, Await(w, c)) && !ConsumedExcept(s, Held(s, w), c)
    ensures !Inv(Next(s, Await(w, c)))
  {
    hide Inv;
    var p := Held(s, w);
    AwaitSuspends(s, p, c);
    var d :| Outstanding(s, p, d) && d != c;
    StraysOutstanding(Next(s, Await(w, c)), p, d);
  }

  lemma LeavingBreaks(s: State, w: Wid, a: Action)
    requires Inv(s) && Enabled(s, a) && (a.YieldTimed? || a.Return?) && a.w == w && !AllConsumed(s, Held(s, w))
    ensures !Inv(Next(s, a))
  {
    hide Inv, ExitOf;
    var p := Held(s, w);
    var d :| Outstanding(s, p, d);
    var r := Next(s, a);
    LeftPhase(s, w, a);
    assert Outstanding(r, p, d);
    StraysOutstanding(r, p, d);
  }

  lemma LeftPhase(s: State, w: Wid, a: Action)
    requires Enabled(s, a) && (a.YieldTimed? || a.Return?) && a.w == w
    ensures var p := Held(s, w);
            var r := Next(s, a);
            && p in r.tasks && r.tasks == s.tasks[p := r.tasks[p]] && !r.tasks[p].phase.Running? && !r.tasks[p].phase.Waiting?
            && SameStatic(s.tasks[p], r.tasks[p]) && r.tasks[p].consumed == s.tasks[p].consumed
  {
    hide ExitOf, EndRecord;
    var p := Held(s, w);
    var x := s.tasks[p];
    if a.Return? {
      var s1 := LetGo(s, w, x);
      var e := ExitOf(s1, x);
      LeftRecord(x, e);
      assert s1.tasks == s.tasks;
      assert Next(s, a).tasks == s.tasks[p := EndRecord(x, e, false)];
    } else {
      assert Next(s, a).tasks == s.tasks[p := x.(phase := Ready)];
    }
  }

  lemma LeftRecord(x: Task, e: Exit)
    ensures var y := EndRecord(x, e, false);
            !y.phase.Running? && !y.phase.Waiting? && SameStatic(x, y) && y.consumed == x.consumed
  {}
}
