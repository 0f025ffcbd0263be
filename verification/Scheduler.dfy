/** The worker scheduler as a transition system.

    Workers run tasks written as coroutines.  A task sits in one of the runtime's
    queues, is held by a worker, is suspended on a subtask, or is finished.  Every
    shared effect of worker.cc and of the routing half of ipc_manager.cc is one
    `Action`; `Enabled` and `Next` say when the action can happen and what it does,
    so that a sequence of actions is one interleaving of all worker threads.  What
    a coroutine body does next (spawn, await, yield, return) is the action's choice,
    and so is everything a foreign part answers (which container a lookup finds,
    which worker the scheduler picks, when the network replies).
 */
module Scheduler {
  import opened Sums

  type Tid = nat    // a task, never reused
  type Wid = nat    // a worker
  type Cid = nat    // a container
  type Addr = nat   // where a task and its RunContext live; reused after a free

  datatype Option<+T> = None | Some(value: T)

  /** Where the outputs go: to a future in this process, through shared memory to a
      client, through the net queue to a client, or through it to the node that sent
      the task. */
  datatype Reply = ToFuture | ToClientShm | ToClientNet | ToRemote

  datatype Phase =
    | Ready                 // not on a worker: queued, or just taken from a queue
    | Running               // its coroutine is executing on a worker
    | Waiting(child: Tid)   // suspended in co_await of a subtask's future
    | Replying              // EndTask done, outputs still in the net queue
    | Ended                 // EndTask done
    | Rejected              // completed with an error before it could be routed

  /** A task with its RunContext and its future.  `parent` is history; the code only
      keeps `parentAddr`, the RunContext pointer stored in the future. */
  datatype Task = Task(
    parent: Option<Tid>,
    parentAddr: Option<Addr>,
    addr: Addr,
    periodic: bool,
    fireAndForget: bool,
    reply: Reply,
    started: bool,            // TASK_STARTED
    routed: bool,             // TASK_ROUTED
    container: Option<Cid>,   // run_ctx.container_
    predicted: real,          // run_ctx.predicted_load_
    phase: Phase,
    worker: Wid,              // whose event queue run_ctx.event_queue_ is
    complete: bool,           // FUTURE_COMPLETE
    consumed: bool,           // the awaiter has passed await_resume
    freed: bool)

  datatype Queue =
    | Lane(w: Wid)
    | Blocked(w: Wid, level: nat)
    | Periodic(w: Wid, level: nat)
    | Retry(w: Wid)
    | Hand(w: Wid)      // the task worker w is routing or running
    | NetOut            // sent or about to be sent to other nodes
    | NetReply          // outputs about to be sent

  datatype State = State(
    tasks: map<Tid, Task>,
    queues: map<Queue, seq<Tid>>,
    events: map<Wid, seq<Tid>>,   // futures of ended subtasks, per parent worker
    heap: map<Addr, Tid>,         // which task lives at an address
    load: map<Wid, real>,
    work: map<Cid, int>,
    plugged: set<Cid>)

  const Init: State := State(map[], map[], map[], map[], map[], map[], {})

  datatype Action =
    | Submit(t: Tid, a: Addr, w: Wid, periodic: bool, faf: bool, reply: Reply)
    | PopLane(w: Wid)
    | Reject(w: Wid)
    | RouteRetry(w: Wid)
    | RouteLocal(w: Wid, c: Cid, dest: Wid)
    | RouteGlobal(w: Wid)
    | DropUnresolved(w: Wid)   // its query resolves to nothing: RouteTask just returns false
    | Exec(w: Wid, found: Option<Cid>, pred: real)
    | Spawn(w: Wid, t: Tid, a: Addr, dest: Wid, faf: bool)
    | Await(w: Wid, child: Tid)
    | YieldTimed(w: Wid, level: nat)
    | YieldZero(w: Wid)
    | Return(w: Wid, again: Queue)
    | PopBlocked(w: Wid, level: nat, found: Option<Cid>, pred: real)
    | KeepPeriodic(w: Wid, level: nat)
    | PopPeriodic(w: Wid, level: nat)
    | KeepRetry(w: Wid)
    | RunRetry(w: Wid, c: Cid, found: Option<Cid>, pred: real)
    | RetryGlobal(w: Wid)
    | PopEvent(w: Wid, found: Option<Cid>)
    | NetReturn(k: nat, w: Wid, c: Cid, again: Queue)
    | NetDone(k: nat)
    | Free(t: Tid)
    | Plug(c: Cid)

  // ----- queues -----

  function Q(s: State, q: Queue): seq<Tid> { Get(s.queues, q, []) }

  function E(s: State, w: Wid): seq<Tid> { Get(s.events, w, []) }

  function Push(s: State, q: Queue, t: Tid): State {
    s.(queues := s.queues[q := Q(s, q) + [t]])
  }

  function Drop(s: State, q: Queue, k: nat): State
    requires k < |Q(s, q)|
  {
    s.(queues := s.queues[q := Q(s, q)[..k] + Q(s, q)[k + 1..]])
  }

  function Put(s: State, t: Tid, x: Task): State { s.(tasks := s.tasks[t := x]) }

  // ----- ExecTask and EndTask -----

  /** The container ExecTask runs on: the one a new lookup finds unplugged, else the
      one the task already carries. */
  function ExecContainer(x: Task, found: Option<Cid>): Option<Cid> {
    if found.Some? then found else x.container
  }

  /** ExecTask up to the moment the coroutine runs.  The prediction is booked here; the
      code books it when the first segment returns, and nobody reads it in between. */
  function Enter(s: State, w: Wid, t: Tid, found: Option<Cid>, pred: real, resume: bool): State
    requires t in s.tasks && ExecContainer(s.tasks[t], found).Some?
  {
    var x := s.tasks[t];
    var c := ExecContainer(x, found).value;
    if resume then
      Put(s, t, x.(container := Some(c), phase := Running))
    else
      Put(s, t, x.(container := Some(c), phase := Running, started := true, predicted := pred))
      .(load := s.load[w := Get(s.load, w, 0.0) + pred],
        work := if x.periodic then s.work else s.work[c := Get(s.work, c, 0) + 1])
  }

  function Erase(s: State, t: Tid, x: Task): State {
    Put(s, t, x.(freed := true)).(heap := s.heap - {x.addr})
  }

  /** The ways out of EndTask. */
  datatype Exit =
    | Reschedule               // periodic: back to a sleeping queue
    | Discard                  // fire-and-forget: deleted at once
    | SendReply                // outputs go to the net queue
    | TransferShm              // outputs copied to the client, then deleted
    | NotifyParent(pw: Wid)    // future put in the event queue of the parent's worker
    | CompleteHere             // no parent: FUTURE_COMPLETE set directly

  function ExitOf(s: State, x: Task): Exit {
    if x.periodic then Reschedule
    else if x.fireAndForget then Discard
    else if x.reply.ToRemote? || x.reply.ToClientNet? then SendReply
    else if x.reply.ToClientShm? then TransferShm
    else if x.parentAddr.Some? && x.parentAddr.value in s.heap && s.heap[x.parentAddr.value] in s.tasks then
      NotifyParent(s.tasks[s.heap[x.parentAddr.value]].worker)
    else CompleteHere
  }

  function EndRecord(x: Task, e: Exit, early: bool): Task {
    match e
    case Reschedule => x.(started := false, predicted := 0.0, phase := Ready)
    case Discard => x.(phase := Ended, freed := true)
    case SendReply => x.(phase := Replying)
    case TransferShm => x.(phase := Ended, complete := true, freed := true)
    case NotifyParent(_) => x.(phase := Ended, complete := x.complete || early)
    case CompleteHere => x.(phase := Ended, complete := true)
  }

  function EndQueues(s: State, t: Tid, e: Exit, again: Queue): map<Queue, seq<Tid>> {
    match e
    case Reschedule => Push(s, again, t).queues
    case SendReply => Push(s, NetReply, t).queues
    case _ => s.queues
  }

  /** EndTask on worker `w`.  `early` is the variant that sets FUTURE_COMPLETE here
      instead of leaving it to the parent's event queue. */
  function End(s: State, w: Wid, t: Tid, again: Queue, early: bool): State
    requires t in s.tasks && s.tasks[t].container.Some?
  {
    var x := s.tasks[t];
    var c := x.container.value;
    var e := ExitOf(s, x);
    State(
      s.tasks[t := EndRecord(x, e, early)],
      EndQueues(s, t, e, again),
      if e.NotifyParent? then s.events[e.pw := E(s, e.pw) + [t]] else s.events,
      if e.Discard? || e.TransferShm? then s.heap - {x.addr} else s.heap,
      s.load[w := Get(s.load, w, 0.0) - x.predicted],
      if e.Reschedule? then s.work else s.work[c := Get(s.work, c, 0) - 1],
      s.plugged)
  }

  // ----- when an action can happen -----

  /** Worker `w` has taken a task and it is in phase `phase`. */
  predicate HasInHand(s: State, w: Wid, phase: Phase) {
    |Q(s, Hand(w))| == 1 && Q(s, Hand(w))[0] in s.tasks && s.tasks[Q(s, Hand(w))[0]].phase == phase
  }

  function Held(s: State, w: Wid): Tid
    requires |Q(s, Hand(w))| == 1
  {
    Q(s, Hand(w))[0]
  }

  /** It still has to be routed: RouteTask does not return early. */
  predicate IsRouting(s: State, w: Wid) { HasInHand(s, w, Ready) && !s.tasks[Held(s, w)].routed }

  predicate CanTake(s: State, w: Wid, q: Queue) {
    Q(s, Hand(w)) == [] && Q(s, q) != [] && Q(s, q)[0] in s.tasks
  }

  predicate Unplugged(s: State, found: Option<Cid>) { found.Some? ==> found.value !in s.plugged }

  predicate CanEnter(s: State, t: Tid, found: Option<Cid>) {
    t in s.tasks && ExecContainer(s.tasks[t], found).Some? && Unplugged(s, found)
  }

  /** AddToBlockedQueue chooses among the worker's own sleeping queues. */
  predicate OwnSleepQueue(q: Queue, w: Wid) { (q.Blocked? || q.Periodic?) && q.w == w }

  predicate Enabled(s: State, a: Action) {
    match a
    case Submit(t, a, w, _, _, _) => t !in s.tasks && a !in s.heap
    case PopLane(w) => CanTake(s, w, Lane(w))
    case Reject(w) => IsRouting(s, w) && !s.tasks[Held(s, w)].started
    case RouteRetry(w) => IsRouting(s, w)
    case RouteLocal(w, c, _) => IsRouting(s, w) && c !in s.plugged
    case RouteGlobal(w) => IsRouting(s, w)
    case DropUnresolved(w) => IsRouting(s, w)
    case Exec(w, found, _) => HasInHand(s, w, Ready) && s.tasks[Held(s, w)].routed && CanEnter(s, Held(s, w), found)
    case Spawn(w, t, a, _, _) => HasInHand(s, w, Running) && t !in s.tasks && a !in s.heap
    case Await(w, c) => HasInHand(s, w, Running) && Outstanding(s, Held(s, w), c)
    case YieldTimed(w, _) => HasInHand(s, w, Running)
    case YieldZero(w) => HasInHand(s, w, Running)
    case Return(w, again) =>
      HasInHand(s, w, Running) && s.tasks[Held(s, w)].container.Some? && OwnSleepQueue(again, w)
    case PopBlocked(w, l, found, _) => CanTake(s, w, Blocked(w, l)) && CanEnter(s, Q(s, Blocked(w, l))[0], found)
    case KeepPeriodic(w, l) => CanTake(s, w, Periodic(w, l))
    case PopPeriodic(w, l) => CanTake(s, w, Periodic(w, l))
    case KeepRetry(w) => CanTake(s, w, Retry(w))
    case RunRetry(w, c, found, _) => CanTake(s, w, Retry(w)) && c !in s.plugged && Unplugged(s, found)
    case RetryGlobal(w) => CanTake(s, w, Retry(w))
    case PopEvent(w, found) => Q(s, Hand(w)) == [] && E(s, w) != [] && E(s, w)[0] in s.tasks && Unplugged(s, found)
    case NetReturn(k, w, _, again) => k < |Q(s, NetOut)| && Q(s, NetOut)[k] in s.tasks && OwnSleepQueue(again, w)
    case NetDone(k) => k < |Q(s, NetReply)| && Q(s, NetReply)[k] in s.tasks
    case Free(t) =>
      t in s.tasks && !s.tasks[t].freed && (s.tasks[t].consumed || (s.tasks[t].parent.None? && s.tasks[t].complete))
    case Plug(_) => true
  }

  // ----- what an action does -----

  function NewTask(parent: Option<Tid>, parentAddr: Option<Addr>, a: Addr, w: Wid, periodic: bool, faf: bool, reply: Reply): Task {
    Task(parent, parentAddr, a, periodic, faf, reply, false, false, None, 0.0, Ready, w, false, false, false)
  }

  function Allocate(s: State, t: Tid, x: Task, dest: Wid): State {
    Push(Put(s, t, x).(heap := s.heap[x.addr := t]), Lane(dest), t)
  }

  /** Take the front of `q` into worker `w`'s hand, its record replaced by `x`. */
  function Take(s: State, w: Wid, q: Queue, x: Task): State
    requires Q(s, q) != []
  {
    var t := Q(s, q)[0];
    Push(Drop(Put(s, t, x), q, 0), Hand(w), t)
  }

  /** Give the held task, its record replaced by `x`, to queue `q`. */
  function Give(s: State, w: Wid, x: Task, q: Queue): State
    requires |Q(s, Hand(w))| == 1
  {
    var t := Held(s, w);
    Push(Drop(Put(s, t, x), Hand(w), 0), q, t)
  }

  /** Let go of the held task without queueing it. */
  function LetGo(s: State, w: Wid, x: Task): State
    requires |Q(s, Hand(w))| == 1
  {
    Drop(Put(s, Held(s, w), x), Hand(w), 0)
  }

  /** The front of `q` goes to the back of `r`. */
  function Shift(s: State, q: Queue, r: Queue): State
    requires Q(s, q) != []
  {
    Push(Drop(s, q, 0), r, Q(s, q)[0])
  }

  /** ProcessEventQueue for one future: set FUTURE_COMPLETE, follow the parent pointer
      stored in the future, and resume whatever coroutine lives there.  The resumed
      coroutine passes await_resume of the future it awaits, whichever that is. */
  function DoPopEvent(s: State, w: Wid, found: Option<Cid>): State
    requires E(s, w) != [] && E(s, w)[0] in s.tasks
  {
    var f := E(s, w)[0];
    var s1 := Put(s, f, s.tasks[f].(complete := true)).(events := s.events[w := E(s, w)[1..]]);
    var pa := s.tasks[f].parentAddr;
    if pa.None? || pa.value !in s.heap || s.heap[pa.value] !in s.tasks then s1
    else
      var p := s.heap[pa.value];
      var x := s1.tasks[p];
      if ExecContainer(x, found).None? then s1
      else if x.phase.Waiting? && x.phase.child in s.tasks then
        var s2 := Put(s1, x.phase.child, s1.tasks[x.phase.child].(consumed := true));
        Push(Enter(s2, w, p, found, 0.0, true), Hand(w), p)
      else if x.phase == Ready && x.started then
        Push(Enter(s1, w, p, found, 0.0, true), Hand(w), p)
      else s1
  }

  function Next(s: State, a: Action, early: bool := false): State
    requires Enabled(s, a)
  {
    match a
    case Submit(t, a, w, periodic, faf, reply) =>
      Allocate(s, t, NewTask(None, None, a, w, periodic, faf, reply), w)
    case PopLane(w) => Take(s, w, Lane(w), s.tasks[Q(s, Lane(w))[0]].(worker := w))
    case Reject(w) => LetGo(s, w, s.tasks[Held(s, w)].(phase := Rejected, complete := true))
    case RouteRetry(w) => Give(s, w, s.tasks[Held(s, w)].(routed := true), Retry(w))
    case RouteLocal(w, c, dest) =>
      var x := s.tasks[Held(s, w)].(routed := true, container := Some(c));
      if dest == w then Put(s, Held(s, w), x) else Give(s, w, x, Lane(dest))
    case RouteGlobal(w) => Give(s, w, s.tasks[Held(s, w)].(routed := true), NetOut)
    case DropUnresolved(w) => LetGo(s, w, s.tasks[Held(s, w)])
    case Exec(w, found, pred) => Enter(s, w, Held(s, w), found, pred, s.tasks[Held(s, w)].started)
    case Spawn(w, t, a, dest, faf) =>
      var p := Held(s, w);
      Allocate(s, t, NewTask(Some(p), Some(s.tasks[p].addr), a, dest, false, faf, ToFuture), dest)
    case Await(w, c) =>
      if s.tasks[c].complete then Put(s, c, s.tasks[c].(consumed := true))
      else LetGo(s, w, s.tasks[Held(s, w)].(phase := Waiting(c)))
    case YieldTimed(w, l) => Give(s, w, s.tasks[Held(s, w)].(phase := Ready), Periodic(w, l))
    case YieldZero(w) => LetGo(s, w, s.tasks[Held(s, w)].(phase := Ready))
    case Return(w, again) => End(LetGo(s, w, s.tasks[Held(s, w)]), w, Held(s, w), again, early)
    case PopBlocked(w, l, found, pred) =>
      var t := Q(s, Blocked(w, l))[0];
      Enter(Take(s, w, Blocked(w, l), s.tasks[t]), w, t, found, pred, s.tasks[t].started)
    case KeepPeriodic(w, l) => Shift(s, Periodic(w, l), Periodic(w, l))
    case PopPeriodic(w, l) => Take(s, w, Periodic(w, l), s.tasks[Q(s, Periodic(w, l))[0]].(routed := false))
    case KeepRetry(w) => Shift(s, Retry(w), Retry(w))
    case RunRetry(w, c, found, pred) =>
      var t := Q(s, Retry(w))[0];
      Enter(Take(s, w, Retry(w), s.tasks[t].(container := Some(c))), w, t, found, pred, false)
    case RetryGlobal(w) => Shift(s, Retry(w), NetOut)
    case PopEvent(w, found) => DoPopEvent(s, w, found)
    case NetReturn(k, w, c, again) =>
      var t := Q(s, NetOut)[k];
      End(Drop(Put(s, t, s.tasks[t].(container := Some(c))), NetOut, k), w, t, again, early)
    case NetDone(k) =>
      var t := Q(s, NetReply)[k];
      Erase(Drop(s, NetReply, k), t, s.tasks[t].(phase := Ended))
    case Free(t) => Erase(s, t, s.tasks[t])
    case Plug(c) => s.(plugged := s.plugged + {c})
  }

  // ----- runs -----

  /** What coroutine bodies, queries and the network must respect for the scheduler to keep
      its promises; see the counterexample lemmas for what happens otherwise. */
  ghost predicate Disciplined(s: State, a: Action)
    requires Enabled(s, a)
  {
    match a
    case Reject(w) => s.tasks[Held(s, w)].parent.None?
    case DropUnresolved(w) => false
    case Await(w, c) => ConsumedExcept(s, Held(s, w), c)
    case YieldTimed(w, _) => AllConsumed(s, Held(s, w))
    case YieldZero(w) => false
    case Return(w, _) => AllConsumed(s, Held(s, w))
    case NetReturn(k, w, _, _) => s.tasks[Q(s, NetOut)[k]].periodic ==> s.tasks[Q(s, NetOut)[k]].worker == w
    case _ => true
  }

  predicate Outstanding(s: State, p: Tid, c: Tid) {
    c in s.tasks && s.tasks[c].parent == Some(p) && !s.tasks[c].fireAndForget && !s.tasks[c].consumed
  }

  ghost predicate AllConsumed(s: State, p: Tid) {
    forall c :: !Outstanding(s, p, c)
  }

  ghost predicate ConsumedExcept(s: State, p: Tid, c: Tid) {
    forall d :: Outstanding(s, p, d) ==> d == c
  }

  /** `run` can be performed from `s`, every action respecting the discipline. */
  ghost predicate IsRun(s: State, run: seq<Action>)
    decreases |run|
  {
    run == [] || (Enabled(s, run[0]) && Disciplined(s, run[0]) && IsRun(Next(s, run[0]), run[1..]))
  }

  ghost function After(s: State, run: seq<Action>): State
    requires IsRun(s, run)
    decreases |run|
  {
    if run == [] then s else After(Next(s, run[0]), run[1..])
  }
}
