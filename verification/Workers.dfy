/** The worker's operations on the shared state, updated in place as worker.cc and
    ipc_manager.cc do, each proved to be the corresponding step of the transition system. */
module Workers {
  import opened Sums
  import opened Scheduler
  import Answers

  /** What a container lookup answers. */
  datatype Lookup = Plugged | Found(c: Cid) | Away

  function EnteredRecord(x: Task, found: Option<Cid>): Task
    requires ExecContainer(x, found).Some?
  {
    x.(container := Some(ExecContainer(x, found).value), phase := Running)
  }

  lemma PeriodicExit(s: State, x: Task, t: Tid, again: Queue)
    ensures x.periodic <==> ExitOf(s, x) == Reschedule
    ensures EndRecord(x, Reschedule, false) == x.(started := false, predicted := 0.0, phase := Ready)
    ensures EndQueues(s, t, Reschedule, again) == Push(s, again, t).queues
  {}

  /** The way out does not depend on the accounts. */
  lemma SameExit(s: State, r: State, x: Task, t: Tid, again: Queue)
    requires !x.periodic && r.tasks == s.tasks && r.heap == s.heap && r.queues == s.queues && r.events == s.events
    ensures ExitOf(r, x) == ExitOf(s, x) && EndQueues(r, t, ExitOf(s, x), NetReply) == EndQueues(s, t, ExitOf(s, x), again)
  {}

  /** One entry of the retry queue. */
  function Retried(s: State, w: Wid, found: Lookup, again: Option<Cid>, pred: real): State
    requires CanTake(s, w, Retry(w))
  {
    var t := Q(s, Retry(w))[0];
    match found
    case Found(c) => Enter(Take(s, w, Retry(w), s.tasks[t].(container := Some(c))), w, t, again, pred, false)
    case Plugged => Shift(s, Retry(w), Retry(w))
    case Away => Shift(s, Retry(w), NetOut)
  }

  /** It is a step of the transition system. */
  lemma RetriedIsStep(s: State, w: Wid, found: Lookup, again: Option<Cid>, pred: real)
    requires CanTake(s, w, Retry(w)) && (found.Found? ==> found.c !in s.plugged) && Unplugged(s, again)
    ensures var a := match found
                     case Found(c) => RunRetry(w, c, again, pred)
                     case Plugged => KeepRetry(w)
                     case Away => RetryGlobal(w);
            Enabled(s, a) && Next(s, a) == Retried(s, w, found, again, pred)
  {}

  class Runtime {
    var tasks: map<Tid, Task>
    var queues: map<Queue, seq<Tid>>
    var events: map<Wid, seq<Tid>>
    var heap: map<Addr, Tid>
    var load: map<Wid, real>
    var work: map<Cid, int>
    var plugged: set<Cid>

    function Value(): State
      reads this
    {
      State(tasks, queues, events, heap, load, work, plugged)
    }

    constructor ()
      ensures Value() == Init
    {
      tasks, queues, events, heap, load, work, plugged := map[], map[], map[], map[], map[], map[], {};
    }

    method Enqueue(q: Queue, t: Tid)
      modifies this`queues
      ensures Value() == Push(old(Value()), q, t)
    {
      queues := queues[q := Get(queues, q, []) + [t]];
    }

    method PopFront(q: Queue) returns (t: Tid)
      requires Q(Value(), q) != []
      modifies this`queues
      ensures t == old(Q(Value(), q)[0]) && Value() == Drop(old(Value()), q, 0)
    {
      ghost var before := queues[q];
      t := queues[q][0];
      queues := queues[q := queues[q][1..]];
      assert before[..0] + before[1..] == before[1..];
    }

    method ResumeCoroutine(w: Wid, t: Tid, found: Option<Cid>)
      requires t in tasks && ExecContainer(tasks[t], found).Some?
      modifies this`tasks
      ensures Value() == Enter(old(Value()), w, t, found, 0.0, true)
    {
      tasks := tasks[t := EnteredRecord(tasks[t], found)];
    }

    method StartCoroutine(w: Wid, t: Tid, found: Option<Cid>, pred: real)
      requires t in tasks && ExecContainer(tasks[t], found).Some?
      modifies this`tasks, this`load, this`work
      ensures Value() == Enter(old(Value()), w, t, found, pred, false)
    {
      hide Get;
      ghost var after := Enter(Value(), w, t, found, pred, false);
      var x := EnteredRecord(tasks[t], found).(started := true, predicted := pred);
      assert after.tasks == tasks[t := x] && after.load == load[w := Get(load, w, 0.0) + pred];
      assert after.work == if x.periodic then work else work[x.container.value := Get(work, x.container.value, 0) + 1];
      tasks := tasks[t := x];
      load := load[w := Get(load, w, 0.0) + pred];
      if !x.periodic {
        work := work[x.container.value := Get(work, x.container.value, 0) + 1];
      }
    }

    /** ExecTask up to the moment the coroutine runs. */
    method ExecTask(w: Wid, t: Tid, found: Option<Cid>, pred: real, isStarted: bool)
      requires t in tasks && ExecContainer(tasks[t], found).Some?
      modifies this
      ensures Value() == Enter(old(Value()), w, t, found, pred, isStarted)
    {
      if isStarted {
        ResumeCoroutine(w, t, found);
      } else {
        StartCoroutine(w, t, found, pred);
      }
    }

    /** EndTask: the accounts, then one of the ways out; `again` is the sleeping queue a
        periodic task goes back to. */
    method EndTask(w: Wid, t: Tid, again: Queue)
      requires t in tasks && tasks[t].container.Some?
      modifies this
      ensures Value() == End(old(Value()), w, t, again, false)
      ensures Answers.Answered(old(Value()), Value(), t, again, {})
    {
      hide Get, ExitOf, EndRecord, EndQueues, Answers.Answered;
      ghost var s := Value();
      Answers.EndAnswers(s, w, t, again);
      var x := tasks[t];
      var c := x.container.value;
      PeriodicExit(s, x, t, again);
      load := load[w := Get(load, w, 0.0) - x.predicted];
      if x.periodic {
        tasks := tasks[t := x.(started := false, predicted := 0.0, phase := Ready)];
        Enqueue(again, t);
        return;
      }
      work := work[c := Get(work, c, 0) - 1];
      SameExit(s, Value(), x, t, again);
      Respond(t);
    }

    /** The ways out of EndTask for a task that is not periodic. */
    method Respond(t: Tid)
      requires t in tasks && !tasks[t].periodic
      modifies this`tasks, this`queues, this`events, this`heap
      ensures var s := old(Value());
              var e := ExitOf(s, s.tasks[t]);
              && tasks == s.tasks[t := EndRecord(s.tasks[t], e, false)]
              && queues == EndQueues(s, t, e, NetReply)
              && events == (if e.NotifyParent? then s.events[e.pw := E(s, e.pw) + [t]] else s.events)
              && heap == (if e.Discard? || e.TransferShm? then s.heap - {s.tasks[t].addr} else s.heap)
    {
      var x := tasks[t];
      if x.fireAndForget {
        heap := heap - {x.addr};
        tasks := tasks[t := x.(phase := Ended, freed := true)];
      } else if x.reply.ToRemote? || x.reply.ToClientNet? {
        tasks := tasks[t := x.(phase := Replying)];
        Enqueue(NetReply, t);
      } else if x.reply.ToClientShm? {
        heap := heap - {x.addr};
        tasks := tasks[t := x.(phase := Ended, complete := true, freed := true)];
      } else if x.parentAddr.Some? && x.parentAddr.value in heap && heap[x.parentAddr.value] in tasks {
        var pw := tasks[heap[x.parentAddr.value]].worker;
        events := events[pw := Get(events, pw, []) + [t]];
        tasks := tasks[t := x.(phase := Ended)];
      } else {
        tasks := tasks[t := x.(phase := Ended, complete := true)];
      }
    }

    /** ProcessEventQueue for one future. */
    method ProcessEvent(w: Wid, found: Option<Cid>)
      requires E(Value(), w) != [] && E(Value(), w)[0] in tasks
      modifies this
      ensures Value() == DoPopEvent(old(Value()), w, found)
    {
      var f := events[w][0];
      var parentAddr := tasks[f].parentAddr;
      events := events[w := events[w][1..]];
      tasks := tasks[f := tasks[f].(complete := true)];
      if parentAddr.None? || parentAddr.value !in heap || heap[parentAddr.value] !in tasks {
        return;
      }
      var p := heap[parentAddr.value];
      var x := tasks[p];
      if ExecContainer(x, found).None? {
        return;
      }
      if x.phase.Waiting? && x.phase.child in tasks {
        tasks := tasks[x.phase.child := tasks[x.phase.child].(consumed := true)];
        ExecTask(w, p, found, 0.0, true);
        Enqueue(Hand(w), p);
      } else if x.phase == Ready && x.started {
        ExecTask(w, p, found, 0.0, true);
        Enqueue(Hand(w), p);
      }
    }

    /** RouteLocal of the task worker `w` is routing. */
    method RouteHere(w: Wid, found: Lookup, dest: Wid)
      requires IsRouting(Value(), w) && (found.Found? ==> found.c !in plugged)
      modifies this
      ensures Value() == Next(old(Value()), if found.Found? then RouteLocal(w, found.c, dest) else RouteRetry(w))
    {
      ghost var before := Value();
      var t := queues[Hand(w)][0];
      if found.Found? {
        tasks := tasks[t := tasks[t].(routed := true, container := Some(found.c))];
        if dest != w {
          var u := PopFront(Hand(w));
          Enqueue(Lane(dest), t);
        }
      } else {
        tasks := tasks[t := tasks[t].(routed := true)];
        var u := PopFront(Hand(w));
        Enqueue(Retry(w), t);
      }
    }

    /** Take the front of the retry queue, now bound to container `c`. */
    method RunFromRetry(w: Wid, t: Tid, c: Cid)
      requires CanTake(Value(), w, Retry(w)) && t == Q(Value(), Retry(w))[0]
      modifies this`tasks, this`queues
      ensures Value() == Take(old(Value()), w, Retry(w), old(tasks[t]).(container := Some(c)))
    {
      tasks := tasks[t := tasks[t].(container := Some(c))];
      var u := PopFront(Retry(w));
      Enqueue(Hand(w), t);
    }

    /** ProcessRetryQueue for the task at the front; `again` is the lookup ExecTask repeats. */
    method ProcessRetry(w: Wid, found: Lookup, again: Option<Cid>, pred: real)
      requires CanTake(Value(), w, Retry(w)) && (found.Found? ==> found.c !in plugged) && Unplugged(Value(), again)
      modifies this
      ensures Value() == Retried(old(Value()), w, found, again, pred)
    {
      hide Enter;
      var t := queues[Retry(w)][0];
      if found.Found? {
        RunFromRetry(w, t, found.c);
        ExecTask(w, t, again, pred, false);
      } else if found.Plugged? {
        var u := PopFront(Retry(w));
        Enqueue(Retry(w), t);
      } else {
        var u := PopFront(Retry(w));
        Enqueue(NetOut, t);
      }
    }

    method PlugContainer(c: Cid)
      modifies this
      ensures Value() == Next(old(Value()), Plug(c))
    {
      plugged := plugged + {c};
    }
  }
}
