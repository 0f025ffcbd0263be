/** A periodic task that comes back from the network on another worker.

    RecvOut ends the task on the worker that runs RecvOut, and ReschedulePeriodicTask
    puts it to sleep there, while the event queue recorded in its RunContext stays that
    of the worker it came from.  `PeriodicReturnIff` in SchedulerLimits says when that is
    harmless; here is a run in which it is not.
 */
module NetworkLimits {
  import opened Sums
  import opened Scheduler
  import opened SchedulerLimits

  /** States of a run of the code in which only returns from the network may leave the
      discipline. */
  ghost predicate IsStray(states: seq<State>, run: seq<Action>) {
    && |states| == |run| + 1 && states[0] == Init
    && forall i :: 0 <= i < |run| ==> Leads(states[i], run[i], states[i + 1], false, !run[i].NetReturn?)
  }

  function Sleeper(): Task { NewTask(None, None, 100, 0, true, false, ToFuture) }

  function RunningSleeper(): Task {
    Sleeper().(routed := true, container := Some(7), started := true, predicted := 1.0, phase := Running)
  }

  function Sub(): Task { NewTask(Some(0), Some(100), 101, 2, false, false, ToFuture) }

  function RunningSub(): Task {
    Sub().(routed := true, container := Some(7), started := true, predicted := 1.0, phase := Running)
  }

  function P1(): State {
    State(map[0 := Sleeper()], map[Lane(0) := [0]], map[], map[100 := 0], map[], map[], {})
  }

  function P2(): State {
    State(map[0 := Sleeper()], map[Lane(0) := [], Hand(0) := [0]], map[], map[100 := 0], map[], map[], {})
  }

  function P3(): State {
    State(map[0 := Sleeper().(routed := true)],
          map[Lane(0) := [], Hand(0) := [], NetOut := [0]],
          map[], map[100 := 0], map[], map[], {})
  }

  function P4(): State {
    State(map[0 := Sleeper().(routed := true, container := Some(7))],
          map[Lane(0) := [], Hand(0) := [], NetOut := [], Periodic(1, 0) := [0]],
          map[], map[100 := 0], map[1 := 0.0], map[], {})
  }

  function P5(): State {
    State(map[0 := Sleeper().(container := Some(7))],
          map[Lane(0) := [], Hand(0) := [], NetOut := [], Periodic(1, 0) := [], Hand(1) := [0]],
          map[], map[100 := 0], map[1 := 0.0], map[], {})
  }

  function P6(): State {
    State(map[0 := Sleeper().(routed := true, container := Some(7))],
          map[Lane(0) := [], Hand(0) := [], NetOut := [], Periodic(1, 0) := [], Hand(1) := [0]],
          map[], map[100 := 0], map[1 := 0.0], map[], {})
  }

  function P7(): State {
    State(map[0 := RunningSleeper()],
          map[Lane(0) := [], Hand(0) := [], NetOut := [], Periodic(1, 0) := [], Hand(1) := [0]],
          map[], map[100 := 0], map[1 := 1.0], map[], {})
  }

  function P8(): State {
    State(map[0 := RunningSleeper(), 1 := Sub()],
          map[Lane(0) := [], Hand(0) := [], NetOut := [], Periodic(1, 0) := [], Hand(1) := [0], Lane(2) := [1]],
          map[], map[100 := 0, 101 := 1], map[1 := 1.0], map[], {})
  }

  function P9(): State {
    State(map[0 := RunningSleeper(), 1 := Sub()],
          map[Lane(0) := [], Hand(0) := [], NetOut := [], Periodic(1, 0) := [], Hand(1) := [0], Lane(2) := [], Hand(2) := [1]],
          map[], map[100 := 0, 101 := 1], map[1 := 1.0], map[], {})
  }

  function P10(): State {
    State(map[0 := RunningSleeper(), 1 := Sub().(routed := true, container := Some(7))],
          map[Lane(0) := [], Hand(0) := [], NetOut := [], Periodic(1, 0) := [], Hand(1) := [0], Lane(2) := [], Hand(2) := [1]],
          map[], map[100 := 0, 101 := 1], map[1 := 1.0], map[], {})
  }

  function P11(): State {
    State(map[0 := RunningSleeper(), 1 := RunningSub()],
          map[Lane(0) := [], Hand(0) := [], NetOut := [], Periodic(1, 0) := [], Hand(1) := [0], Lane(2) := [], Hand(2) := [1]],
          map[], map[100 := 0, 101 := 1], map[1 := 1.0, 2 := 1.0], map[7 := 1], {})
  }

  function P12(): State {
    State(map[0 := RunningSleeper(), 1 := RunningSub().(phase := Ended)],
          map[Lane(0) := [], Hand(0) := [], NetOut := [], Periodic(1, 0) := [], Hand(1) := [0], Lane(2) := [], Hand(2) := []],
          map[0 := [1]], map[100 := 0, 101 := 1], map[1 := 1.0, 2 := 0.0], map[7 := 0], {})
  }

  lemma Step1()
    ensures Leads(Init, Submit(0, 100, 0, true, false, ToFuture), P1(), false, true)
  {
    SmallQueues();
    assert Next(Init, Submit(0, 100, 0, true, false, ToFuture)).queues == P1().queues;
  }

  lemma Step2()
    ensures Leads(P1(), PopLane(0), P2(), false, true)
  {
    SmallQueues();
    var r := Next(P1(), PopLane(0));
    assert r.queues == P2().queues && r.tasks == P2().tasks;
  }

  lemma Step3()
    ensures Leads(P2(), RouteGlobal(0), P3(), false, true)
  {
    SmallQueues();
    var r := Next(P2(), RouteGlobal(0));
    assert r.queues == P3().queues && r.tasks == P3().tasks;
  }

  lemma Step4()
    ensures Leads(P3(), NetReturn(0, 1, 7, Periodic(1, 0)), P4(), false, false)
  {
    SmallQueues();
    var r := Next(P3(), NetReturn(0, 1, 7, Periodic(1, 0)));
    assert r.queues == P4().queues;
    assert r.tasks == P4().tasks;
    assert r.load == P4().load;
  }

  lemma Step5()
    ensures Leads(P4(), PopPeriodic(1, 0), P5(), false, true)
  {
    SmallQueues();
    var r := Next(P4(), PopPeriodic(1, 0));
    assert r.queues == P5().queues && r.tasks == P5().tasks;
  }

  lemma Step6()
    ensures Leads(P5(), RouteLocal(1, 7, 1), P6(), false, true)
  {
    var r := Next(P5(), RouteLocal(1, 7, 1));
    assert r.tasks == P6().tasks;
  }

  lemma Step7()
    ensures Leads(P6(), Exec(1, None, 1.0), P7(), false, true)
  {
    var r := Next(P6(), Exec(1, None, 1.0));
    assert r.tasks == P7().tasks && r.load == P7().load;
  }

  lemma Step8()
    ensures Leads(P7(), Spawn(1, 1, 101, 2, false), P8(), false, true)
  {
    SmallQueues();
    var r := Next(P7(), Spawn(1, 1, 101, 2, false));
    assert r.queues == P8().queues && r.tasks == P8().tasks;
  }

  lemma Step9()
    ensures Leads(P8(), PopLane(2), P9(), false, true)
  {
    SmallQueues();
    var r := Next(P8(), PopLane(2));
    assert r.queues == P9().queues && r.tasks == P9().tasks;
  }

  lemma Step10()
    ensures Leads(P9(), RouteLocal(2, 7, 2), P10(), false, true)
  {
    var r := Next(P9(), RouteLocal(2, 7, 2));
    assert r.tasks == P10().tasks;
  }

  lemma Step11()
    ensures Leads(P10(), Exec(2, None, 1.0), P11(), false, true)
  {
    var r := Next(P10(), Exec(2, None, 1.0));
    assert r.tasks == P11().tasks && r.load == P11().load && r.work == P11().work;
  }

  lemma Ready12()
    ensures Enabled(P11(), Return(2, Periodic(2, 0))) && Disciplined(P11(), Return(2, Periodic(2, 0)))
  {}

  lemma Step12()
    ensures Leads(P11(), Return(2, Periodic(2, 0)), P12(), false, true)
  {
    hide Enabled, Disciplined;
    Ready12();
    SmallQueues();
    var s := LetGo(P11(), 2, P11().tasks[Held(P11(), 2)]);
    assert ExitOf(s, s.tasks[1]) == NotifyParent(0);
    var r := Next(P11(), Return(2, Periodic(2, 0)));
    assert r.queues == P12().queues;
    assert r.tasks == P12().tasks;
    assert r.events == P12().events && r.load == P12().load && r.work == P12().work;
  }

  /** Periodic task 0 of worker 0 returns from the network on worker 1 and sleeps, wakes
      and spawns there.  Its subtask's event goes to worker 0, which is idle, while task 0
      is running on worker 1. */
  lemma StrayReturnBreaks() returns (states: seq<State>, run: seq<Action>)
    ensures IsStray(states, run)
    ensures var s := states[|run|];
            && Q(s, Hand(0)) == [] && E(s, 0) == [1] && 1 in s.tasks && !s.tasks[1].complete && s.tasks[1].parent == Some(0)
            && Q(s, Hand(1)) == [0] && 0 in s.tasks && s.tasks[0].phase == Running
  {
    hide Leads, Init, P1, P2, P3, P4, P5, P6, P7, P8, P9, P10, P11, P12;
    states := [Init, P1(), P2(), P3(), P4(), P5(), P6(), P7(), P8(), P9(), P10(), P11(), P12()];
    run := [Submit(0, 100, 0, true, false, ToFuture), PopLane(0), RouteGlobal(0), NetReturn(0, 1, 7, Periodic(1, 0)),
            PopPeriodic(1, 0), RouteLocal(1, 7, 1), Exec(1, None, 1.0), Spawn(1, 1, 101, 2, false),
            PopLane(2), RouteLocal(2, 7, 2), Exec(2, None, 1.0), Return(2, Periodic(2, 0))];
    Step1();
    Step2();
    Step3();
    Step4();
    Step5();
    Step6();
    Step7();
    Step8();
    Step9();
    Step10();
    Step11();
    Step12();
    Outcome();
  }

  lemma Outcome()
    ensures var s := P12();
            && Q(s, Hand(0)) == [] && E(s, 0) == [1] && 1 in s.tasks && !s.tasks[1].complete && s.tasks[1].parent == Some(0)
            && Q(s, Hand(1)) == [0] && 0 in s.tasks && s.tasks[0].phase == Running
  {}
}
