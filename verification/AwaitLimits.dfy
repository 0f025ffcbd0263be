/** When it is safe to await.

    `await_suspend` records the coroutine and not the future it waits for, so a parent is
    resumed by the event of any of its subtasks.  Here: exactly when that can let it
    consume a subtask that is not complete.
 */
module AwaitLimits {
  import opened Sums
  import opened Scheduler
  import opened Conservation
  import opened Completion
  import opened CompletionRuns
  import opened Driving
  import opened PathFrames
  import opened Lineage

  // ----- while the parent sleeps -----

  /** Over, and in no queue: it will never do anything again. */
  ghost predicate Dead(s: State, x: Tid) { x in s.tasks && Done(s.tasks[x]) && !Queued(s, x) }

  predicate Remembers(s: State, x: Tid, p: Tid) {
    x in s.tasks && p in s.tasks && s.tasks[x].parentAddr == Some(s.tasks[p].addr)
  }

  /** EndTask of `x` will send no event. */
  ghost predicate Mute(s: State, x: Tid) {
    Dead(s, x) || (x in s.tasks && (s.tasks[x].fireAndForget || s.tasks[x].periodic))
  }

  /** No task but `p` that can still act has `p`'s address. */
  ghost predicate AloneThere(s: State, p: Tid)
    requires p in s.tasks
  {
    forall q :: q in s.tasks && q != p && s.tasks[q].addr == s.tasks[p].addr ==> Dead(s, q)
  }

  /** Nobody but `c` has an event, or will have one, that leads to `p`. */
  ghost predicate Hushed(s: State, p: Tid, c: Tid) {
    && (forall x :: x != c && Remembers(s, x, p) ==> Mute(s, x))
    && (forall v, x :: x in E(s, v) && x != c ==> !Remembers(s, x, p))
  }

  /** `c`'s event is queued for `p`'s worker, in front of all other events that lead to `p`. */
  ghost predicate AheadAt(s: State, p: Tid, c: Tid, i: nat)
    requires p in s.tasks
  {
    var w := s.tasks[p].worker;
    && i < |E(s, w)| && E(s, w)[i] == c
    && forall v, j :: 0 <= j < |E(s, v)| && E(s, v)[j] != c && Remembers(s, E(s, v)[j], p) ==> v == w && j > i
  }

  ghost predicate Sealed(s: State, p: Tid, c: Tid)
    requires p in s.tasks
  {
    AloneThere(s, p) && (Hushed(s, p, c) || exists i: nat :: AheadAt(s, p, c, i))
  }

  predicate Lives(s: State, p: Tid) { p in s.tasks && s.tasks[p].addr in s.heap && s.heap[s.tasks[p].addr] == p }

  /** `p` sleeps until `c` is over. */
  ghost predicate Window(s: State, p: Tid, c: Tid) {
    && p in s.tasks && s.tasks[p].phase == Waiting(c) && !Queued(s, p)
    && c in s.tasks && !s.tasks[c].consumed && s.tasks[c].parent == Some(p) && Remembers(s, c, p)
    && (forall q :: q in s.tasks && s.tasks[q].phase == Waiting(c) ==> q == p)
    && (forall a :: a in s.heap && s.heap[a] == p ==> a == s.tasks[p].addr)
    && (Lives(s, p) ==> Sealed(s, p, c))
  }

  ghost predicate Safe(s: State, p: Tid, c: Tid) { Window(s, p, c) || (c in s.tasks && s.tasks[c].complete) }

  // ----- the window survives every step -----

  /** A step on other tasks: `p` and what leads to it stay as they were. */
  ghost predicate Beside(s: State, r: State, p: Tid) {
    && (forall t :: t in s.tasks ==> t in r.tasks && SameStatic(s.tasks[t], r.tasks[t]))
    && (forall t :: t in s.tasks && !Queued(s, t) && (Done(s.tasks[t]) || t == p) ==> Still(s.tasks[t], r.tasks[t]) && !Queued(r, t))
    && (forall a :: a in r.heap && r.heap[a] == p ==> a in s.heap && s.heap[a] == p)
    && (forall t :: t in r.tasks && t !in s.tasks ==>
          && r.tasks[t].addr !in s.heap && !r.tasks[t].phase.Waiting?
          && (r.tasks[t].parentAddr.Some? ==>
                exists q :: q in s.tasks && Queued(s, q) && s.tasks[q].phase == Running && r.tasks[t].parentAddr.value == s.tasks[q].addr))
  }

  lemma BesideDead(s: State, r: State, p: Tid, x: Tid)
    requires Beside(s, r, p) && Dead(s, x)
    ensures Dead(r, x)
  {}

  lemma BesideAlone(s: State, r: State, p: Tid)
    requires Beside(s, r, p) && p in s.tasks && Lives(r, p) && AloneThere(s, p)
    ensures AloneThere(r, p)
  {
    hide Dead;
    assert Lives(s, p);
    forall q | q in s.tasks && q != p && r.tasks[q].addr == r.tasks[p].addr ensures Dead(r, q) {
      BesideDead(s, r, p, q);
    }
  }

  /** Nobody new remembers the address. */
  lemma BesideRemembers(s: State, r: State, p: Tid, x: Tid)
    requires Beside(s, r, p) && p in s.tasks && AloneThere(s, p) && s.tasks[p].phase != Running && Remembers(r, x, p)
    ensures Remembers(s, x, p)
  {}

  lemma BesideMute(s: State, r: State, p: Tid, x: Tid)
    requires Beside(s, r, p) && x in s.tasks && Mute(s, x)
    ensures Mute(r, x)
  {
    if Dead(s, x) { BesideDead(s, r, p, x); }
  }

  /** Events stay, or one that may be new joins at the end of `p`'s worker's queue. */
  ghost predicate EventsBeside(s: State, r: State, p: Tid, c: Tid) {
    forall v :: E(r, v) == E(s, v)
                || (exists t :: E(r, v) == E(s, v) + [t] && t in s.tasks
                                && (Lives(s, p) && t != c && Remembers(s, t, p) ==> v == s.tasks[p].worker && !Mute(s, t)))
  }

  lemma HushedStays(s: State, r: State, p: Tid, c: Tid)
    requires Beside(s, r, p) && EventsBeside(s, r, p, c) && p in s.tasks && s.tasks[p].phase != Running && Lives(r, p)
    requires AloneThere(s, p) && Hushed(s, p, c)
    ensures Hushed(r, p, c)
  {
    hide Mute, AloneThere, Queued;
    forall x | x != c && Remembers(r, x, p) ensures Mute(r, x) {
      BesideRemembers(s, r, p, x);
      BesideMute(s, r, p, x);
    }
    forall v, x | x in E(r, v) && x != c ensures !Remembers(r, x, p) {
      if Remembers(r, x, p) {
        BesideRemembers(s, r, p, x);
        assert false;
      }
    }
  }

  lemma AheadStays(s: State, r: State, p: Tid, c: Tid, i: nat)
    requires Beside(s, r, p) && EventsBeside(s, r, p, c) && p in s.tasks && !Queued(s, p) && s.tasks[p].phase.Waiting? && Lives(r, p)
    requires AloneThere(s, p) && AheadAt(s, p, c, i)
    ensures AheadAt(r, p, c, i)
  {
    hide Mute, AloneThere;
    assert Still(s.tasks[p], r.tasks[p]);
    var w := s.tasks[p].worker;
    forall v, j | 0 <= j < |E(r, v)| && E(r, v)[j] != c && Remembers(r, E(r, v)[j], p) ensures v == w && j > i {
      BesideRemembers(s, r, p, E(r, v)[j]);
      if j < |E(s, v)| { assert E(r, v)[j] == E(s, v)[j]; }
    }
  }

  lemma WindowBeside(s: State, r: State, p: Tid, c: Tid)
    requires Window(s, p, c) && Beside(s, r, p) && EventsBeside(s, r, p, c)
    requires r.tasks[c].consumed == s.tasks[c].consumed
    requires forall q :: q in s.tasks && q != p ==> q in r.tasks && r.tasks[q].phase != Waiting(c)
    ensures Window(r, p, c)
  {
    hide AloneThere, Hushed, AheadAt, Queued, EventsBeside;
    if Lives(r, p) {
      BesideAlone(s, r, p);
      if Hushed(s, p, c) {
        HushedStays(s, r, p, c);
      } else {
        var i: nat :| AheadAt(s, p, c, i);
        AheadStays(s, r, p, c, i);
      }
    }
  }

  /** A step that handles one queued task. */
  lemma MovesBeside(s: State, r: State, t: Tid, p: Tid, c: Tid)
    requires Window(s, p, c) && Moves(s, r, t)
    ensures Window(r, p, c)
  {
    hide AloneThere, Hushed, AheadAt, Mute, Notifies, Beside;
    MovesIsBeside(s, r, t, p);
    MovesEvents(s, r, t, p, c);
    WindowBeside(s, r, p, c);
  }

  lemma MovesIsBeside(s: State, r: State, t: Tid, p: Tid)
    requires Moves(s, r, t) && p in s.tasks
    ensures Beside(s, r, p)
    ensures forall u :: u in s.tasks && u != t ==> u in r.tasks && r.tasks[u] == s.tasks[u]
  {
    hide Notifies;
    forall u | u in s.tasks && !Queued(s, u) ensures !Queued(r, u) && r.tasks[u] == s.tasks[u] {
      assert u != t;
    }
  }

  lemma MovesEvents(s: State, r: State, t: Tid, p: Tid, c: Tid)
    requires Moves(s, r, t) && p in s.tasks
    ensures EventsBeside(s, r, p, c)
  {
    if r.events == s.events {
      assert forall v :: E(r, v) == E(s, v);
    } else {
      var pw :| Notifies(s, t, pw) && r.events == s.events[pw := E(s, pw) + [t]];
      assert E(r, pw) == E(s, pw) + [t];
      assert forall v :: v != pw ==> E(r, v) == E(s, v);
    }
  }

  ghost predicate Allocates(s: State, t: Tid, x: Task, dest: Wid) {
    && t !in s.tasks && x.addr !in s.heap && x.phase == Ready
    && (x.parentAddr.Some? ==> exists q :: q in s.tasks && Queued(s, q) && s.tasks[q].phase == Running && x.parentAddr.value == s.tasks[q].addr)
  }

  lemma AllocateBeside(s: State, t: Tid, x: Task, dest: Wid, p: Tid, c: Tid)
    requires Window(s, p, c) && Allocates(s, t, x, dest)
    ensures Window(Allocate(s, t, x, dest), p, c)
  {
    hide Queued, AloneThere, Hushed, AheadAt, Allocate, Allocates, Beside;
    var r := Allocate(s, t, x, dest);
    AllocatedBeside(s, t, x, dest, p);
    WindowBeside(s, r, p, c);
  }

  lemma AllocatedBeside(s: State, t: Tid, x: Task, dest: Wid, p: Tid)
    requires Allocates(s, t, x, dest) && p in s.tasks
    ensures var r := Allocate(s, t, x, dest);
            && Beside(s, r, p) && (forall u :: u in s.tasks ==> u in r.tasks && r.tasks[u] == s.tasks[u])
            && (forall v :: E(r, v) == E(s, v))
  {
    hide Queued, Done;
    AllocatedQueues(s, t, x, dest);
  }

  lemma AllocatedQueues(s: State, t: Tid, x: Task, dest: Wid)
    requires t !in s.tasks
    ensures forall u :: u in s.tasks && !Queued(s, u) ==> !Queued(Allocate(s, t, x, dest), u)
  {
    assert forall q, u :: u in Q(Allocate(s, t, x, dest), q) && u != t ==> u in Q(s, q);
  }

  lemma NewBeside(s: State, a: Action, p: Tid, c: Tid)
    requires Window(s, p, c) && Enabled(s, a)
    requires a.Submit? || a.Spawn?
    ensures Window(Next(s, a), p, c)
  {
    hide Window, Allocate;
    match a
    case Submit(t, ad, w, periodic, faf, reply) => AllocateBeside(s, t, NewTask(None, None, ad, w, periodic, faf, reply), w, p, c);
    case Spawn(w, t, ad, dest, faf) =>
      var q := Held(s, w);
      assert q in Q(s, Hand(w));
      AllocateBeside(s, t, NewTask(Some(q), Some(s.tasks[q].addr), ad, dest, false, faf, ToFuture), dest, p, c);
  }

  /** Queues, events and addresses stay, and no record changes but for its flags. */
  lemma FlagsBeside(s: State, r: State, p: Tid, c: Tid)
    requires Window(s, p, c) && r.tasks.Keys == s.tasks.Keys && r.queues == s.queues && r.events == s.events
    requires r.heap.Keys <= s.heap.Keys && forall a :: a in r.heap ==> r.heap[a] == s.heap[a]
    requires forall t :: t in s.tasks ==> SameStatic(s.tasks[t], r.tasks[t]) && Still(s.tasks[t], r.tasks[t])
    requires r.tasks[c].consumed == s.tasks[c].consumed
    ensures Window(r, p, c)
  {
    assert forall q :: Q(r, q) == Q(s, q);
    assert forall v :: E(r, v) == E(s, v);
    assert Beside(s, r, p);
    WindowBeside(s, r, p, c);
  }

  lemma AwaitBeside(s: State, w: Wid, d: Tid, p: Tid, c: Tid)
    requires Window(s, p, c) && Enabled(s, Await(w, d))
    ensures Window(Next(s, Await(w, d)), p, c)
  {
    var r := Next(s, Await(w, d));
    assert Held(s, w) in Q(s, Hand(w));
    assert Held(s, w) != p && d != c;
    if s.tasks[d].complete {
      FlagsBeside(s, r, p, c);
    } else {
      SuspendBeside(s, w, d, p, c);
    }
  }

  lemma SuspendBeside(s: State, w: Wid, d: Tid, p: Tid, c: Tid)
    requires Window(s, p, c) && HasInHand(s, w, Running) && d != c
    ensures Window(LetGo(s, w, s.tasks[Held(s, w)].(phase := Waiting(d))), p, c)
  {
    hide Beside, AloneThere, Hushed, AheadAt;
    var r := LetGo(s, w, s.tasks[Held(s, w)].(phase := Waiting(d)));
    SuspendIsBeside(s, w, d, p);
    WindowBeside(s, r, p, c);
  }

  lemma SuspendIsBeside(s: State, w: Wid, d: Tid, p: Tid)
    requires HasInHand(s, w, Running) && p in s.tasks
    ensures var r := LetGo(s, w, s.tasks[Held(s, w)].(phase := Waiting(d)));
            && Beside(s, r, p) && (forall v :: E(r, v) == E(s, v)) && forall q, u :: u in Q(r, q) ==> u in Q(s, q)
  {
    var r := LetGo(s, w, s.tasks[Held(s, w)].(phase := Waiting(d)));
    assert Held(s, w) in Q(s, Hand(w));
    assert forall q, u :: u in Q(r, q) ==> u in Q(s, q);
  }

  /** Without its first entry the queue of events still has `c` in front. */
  lemma AheadPops(s: State, r: State, w: Wid, p: Tid, c: Tid, i: nat)
    requires AheadAtStays(s, r, p) && AheadAt(s, p, c, i)
    requires E(s, w) != [] && E(s, w)[0] != c
    requires forall v :: E(r, v) == if v == w then E(s, w)[1..] else E(s, v)
    ensures exists k: nat :: AheadAt(r, p, c, k)
  {
    var pw := s.tasks[p].worker;
    var k: nat := if pw == w then i - 1 else i;
    forall v, j | 0 <= j < |E(r, v)| && E(r, v)[j] != c && Remembers(r, E(r, v)[j], p) ensures v == pw && j > k {
      var l := if v == w then j + 1 else j;
      assert E(r, v)[j] == E(s, v)[l];
      assert Remembers(s, E(s, v)[l], p);
    }
    assert AheadAt(r, p, c, k);
  }

  predicate AheadAtStays(s: State, r: State, p: Tid) {
    && p in s.tasks && p in r.tasks && r.tasks.Keys == s.tasks.Keys && r.tasks[p].worker == s.tasks[p].worker
    && forall t :: t in s.tasks ==> SameStatic(s.tasks[t], r.tasks[t])
  }

  /** An event that wakes neither `p` nor a dead task. */
  lemma PopBeside(s: State, r: State, w: Wid, p: Tid, c: Tid)
    requires Window(s, p, c) && CanPop(s, w) && E(s, w)[0] != c && Popped(s, w, r)
    requires r.tasks[c].consumed == s.tasks[c].consumed
    requires forall q, u :: u in Q(r, q) ==> u in Q(s, q) || (u in s.tasks && u != p && !Done(s.tasks[u]))
    requires forall t :: t in s.tasks ==> Still(s.tasks[t], r.tasks[t]) || (t != p && !Done(s.tasks[t]) && r.tasks[t].phase == Running)
    ensures Window(r, p, c)
  {
    hide Queued, AloneThere, Hushed, AheadAt;
    PoppedEvents(s, w, r);
    PoppedBeside(s, r, w, p);
    if Lives(r, p) {
      BesideAlone(s, r, p);
      if Hushed(s, p, c) {
        HushedPops(s, r, w, p, c);
      } else {
        var i: nat :| AheadAt(s, p, c, i);
        AheadPops(s, r, w, p, c, i);
      }
    }
  }

  lemma PoppedBeside(s: State, r: State, w: Wid, p: Tid)
    requires p in s.tasks && CanPop(s, w) && Popped(s, w, r)
    requires forall q, u :: u in Q(r, q) ==> u in Q(s, q) || (u in s.tasks && u != p && !Done(s.tasks[u]))
    requires forall t :: t in s.tasks ==> Still(s.tasks[t], r.tasks[t]) || (t != p && !Done(s.tasks[t]) && r.tasks[t].phase == Running)
    ensures Beside(s, r, p)
  {}

  lemma HushedPops(s: State, r: State, w: Wid, p: Tid, c: Tid)
    requires Beside(s, r, p) && r.tasks.Keys == s.tasks.Keys && p in s.tasks && Hushed(s, p, c) && E(s, w) != []
    requires forall v :: E(r, v) == if v == w then E(s, w)[1..] else E(s, v)
    ensures Hushed(r, p, c)
  {
    hide Mute;
    forall x | x != c && Remembers(r, x, p) ensures Mute(r, x) {
      assert Remembers(s, x, p);
      BesideMute(s, r, p, x);
    }
    forall v, x | x in E(r, v) && x != c ensures !Remembers(r, x, p) {
      assert x in E(s, v);
      assert !Remembers(s, x, p);
    }
  }

  /** While the window is open only `c`'s event can wake `p`. */
  lemma OnlyOwnEvent(s: State, w: Wid, p: Tid, c: Tid)
    requires Window(s, p, c) && CanPop(s, w) && PointsTo(s, E(s, w)[0], p)
    ensures E(s, w)[0] == c
  {
    var f := E(s, w)[0];
    assert Remembers(s, f, p) && f in E(s, w);
  }

  lemma PopKeeps(s: State, w: Wid, found: Option<Cid>, p: Tid, c: Tid)
    requires Window(s, p, c) && Enabled(s, PopEvent(w, found))
    ensures Safe(DoPopEvent(s, w, found), p, c)
  {
    hide DoPopEvent, Window, Queued;
    var r := DoPopEvent(s, w, found);
    var f := E(s, w)[0];
    assert CanPop(s, w);
    if g :| PointsTo(s, f, g) && Resumable(s, g, found) {
      PopResumes(s, w, g, found);
      WakesKeep(s, w, g, r, p, c);
    } else {
      PopNothing(s, w, found);
      InWindow(s, p, c);
      if f != c {
        assert forall q :: Q(r, q) == Q(s, q);
        PopBeside(s, r, w, p, c);
      }
    }
  }

  lemma InWindow(s: State, p: Tid, c: Tid)
    requires Window(s, p, c)
    ensures p in s.tasks && s.tasks[p].phase == Waiting(c) && c in s.tasks
    ensures forall q :: q in s.tasks && s.tasks[q].phase == Waiting(c) ==> q == p
  {}

  lemma WakesKeep(s: State, w: Wid, g: Tid, r: State, p: Tid, c: Tid)
    requires Window(s, p, c) && CanPop(s, w) && PointsTo(s, E(s, w)[0], g) && Popped(s, w, r)
    requires s.tasks[g].phase.Waiting? || s.tasks[g].phase == Ready
    requires r.queues == Push(s, Hand(w), g).queues && r.tasks[g].phase == Running
    requires forall t :: t in s.tasks && t != g ==> Still(s.tasks[t], r.tasks[t])
    requires forall t :: t in s.tasks && s.tasks[g].phase != Waiting(t) ==> r.tasks[t].consumed == s.tasks[t].consumed
    ensures Safe(r, p, c)
  {
    var f := E(s, w)[0];
    InWindow(s, p, c);
    if f != c {
      if g == p { OnlyOwnEvent(s, w, p, c); }
      assert forall q, u :: u in Q(r, q) ==> u in Q(s, q) || u == g;
      hide Window, Queued;
      PopBeside(s, r, w, p, c);
    }
  }

  lemma StepKeeps(s: State, a: Action, p: Tid, c: Tid)
    requires Safe(s, p, c) && Enabled(s, a)
    ensures Safe(Next(s, a), p, c)
  {
    hide Window, Enabled, Next, Moves;
    if !Window(s, p, c) {
      CompleteStays(s, a, c);
    } else if Handles(a) {
      ActorMoves(s, a);
      MovesBeside(s, Next(s, a), Actor(s, a), p, c);
    } else if a.Submit? || a.Spawn? {
      NewBeside(s, a, p, c);
    } else if a.Await? {
      AwaitBeside(s, a.w, a.child, p, c);
    } else if a.PopEvent? {
      EventRuns(s, a.w, a.found);
      PopKeeps(s, a.w, a.found, p, c);
    } else {
      OutsideBeside(s, a, p, c);
    }
  }

  lemma OutsideBeside(s: State, a: Action, p: Tid, c: Tid)
    requires Window(s, p, c) && Enabled(s, a)
    requires a.Free? || a.Plug?
    ensures Window(Next(s, a), p, c)
  {
    hide Window;
    InWindow(s, p, c);
    FlagsBeside(s, Next(s, a), p, c);
  }

  lemma CompleteStays(s: State, a: Action, c: Tid)
    requires Enabled(s, a) && c in s.tasks && s.tasks[c].complete
    ensures c in Next(s, a).tasks && Next(s, a).tasks[c].complete
  {
    if Handles(a) {
      hide Enabled, Next, Queued;
      ActorMoves(s, a);
    } else if a.PopEvent? {
      EventRuns(s, a.w, a.found);
      PopComplete(s, a.w, a.found, c);
    }
  }

  lemma PopComplete(s: State, w: Wid, found: Option<Cid>, c: Tid)
    requires CanPop(s, w) && c in s.tasks && s.tasks[c].complete
    ensures var r := DoPopEvent(s, w, found); c in r.tasks && r.tasks[c].complete
  {
    hide DoPopEvent;
    if g :| PointsTo(s, E(s, w)[0], g) && Resumable(s, g, found) {
      PopResumes(s, w, g, found);
    } else {
      PopNothing(s, w, found);
    }
  }

  lemma {:induction false} PathKeeps(s: State, path: seq<Action>, p: Tid, c: Tid)
    requires Safe(s, p, c) && IsPath(s, path)
    ensures Safe(Along(s, path), p, c)
    decreases |path|
  {
    hide Safe;
    if path != [] {
      StepKeeps(s, path[0], p, c);
      PathKeeps(Next(s, path[0]), path[1..], p, c);
    }
  }

  // ----- the window opens -----

  /** `c`'s event is waiting, and no event of another outstanding subtask is before it. */
  ghost predicate ComesFirst(s: State, w: Wid, p: Tid, c: Tid) {
    exists i: nat {:trigger E(s, w)[i]} :: i < |E(s, w)| && E(s, w)[i] == c && forall j :: 0 <= j < i ==> !Outstanding(s, p, E(s, w)[j])
  }

  function Suspend(s: State, w: Wid, c: Tid): State
    requires HasInHand(s, w, Running)
  {
    LetGo(s, w, s.tasks[Held(s, w)].(phase := Waiting(c)))
  }

  lemma AwaitIsSuspend(s: State, w: Wid, c: Tid)
    requires Inv(s) && Enabled(s, Await(w, c))
    ensures Next(s, Await(w, c)) == Suspend(s, w, c) && !s.tasks[c].complete
  {
    AwaitSuspends(s, Held(s, w), c);
  }

  /** Whoever remembers `p`'s address in a reachable state is `p`'s outstanding subtask,
      or will send no event and has sent none that is still queued. */
  lemma RemembersParent(s: State, p: Tid, x: Tid)
    requires Inv(s) && p in s.tasks && !Done(s.tasks[p]) && Remembers(s, x, p) && !Outstanding(s, p, x)
    ensures Mute(s, x) && forall v :: x !in E(s, v)
  {
    var q := s.tasks[x].parent.value;
    assert RecordOk(s.tasks[x]) && RecordOk(s.tasks[q]) && RecordOk(s.tasks[p]);
    if q != p { assert s.tasks[q].freed; }
    assert !Outstanding(s, q, x);
    forall v ensures x !in E(s, v) {
      TotalAtLeast(s.events, v, x);
    }
    if !s.tasks[x].fireAndForget {
      DoneIsDead(s, x);
    }
  }

  lemma DoneIsDead(s: State, x: Tid)
    requires Conserved(s) && x in s.tasks && Done(s.tasks[x])
    ensures Dead(s, x)
  {
    forall q ensures x !in Q(s, q) {
      if x in Q(s, q) { QueuedOnce(s, q, x); }
    }
  }

  lemma AloneAtStart(s: State, p: Tid)
    requires Inv(s) && p in s.tasks && !Done(s.tasks[p])
    ensures AloneThere(s, p)
  {
    assert RecordOk(s.tasks[p]);
    forall q | q in s.tasks && q != p && s.tasks[q].addr == s.tasks[p].addr ensures Dead(s, q) {
      assert RecordOk(s.tasks[q]);
      DoneIsDead(s, q);
    }
  }

  lemma SealedAtStart(s: State, w: Wid, p: Tid, c: Tid)
    requires Inv(s) && p in s.tasks && s.tasks[p].phase == Running && s.tasks[p].worker == w
    requires ConsumedExcept(s, p, c) || ComesFirst(s, w, p, c)
    ensures Sealed(s, p, c)
  {
    AloneAtStart(s, p);
    hide AloneThere, Mute;
    forall x | Remembers(s, x, p) && !Outstanding(s, p, x) ensures Mute(s, x) && forall v :: x !in E(s, v) {
      RemembersParent(s, p, x);
    }
    if ConsumedExcept(s, p, c) {
      assert Hushed(s, p, c);
    } else {
      var i: nat :| i < |E(s, w)| && E(s, w)[i] == c && forall j :: 0 <= j < i ==> !Outstanding(s, p, E(s, w)[j]);
      FirstAhead(s, w, p, c, i);
    }
  }

  lemma FirstAhead(s: State, w: Wid, p: Tid, c: Tid, i: nat)
    requires EventsOk(s) && p in s.tasks && s.tasks[p].worker == w
    requires i < |E(s, w)| && E(s, w)[i] == c && forall j :: 0 <= j < i ==> !Outstanding(s, p, E(s, w)[j])
    requires forall x :: Remembers(s, x, p) && !Outstanding(s, p, x) ==> forall v :: x !in E(s, v)
    ensures AheadAt(s, p, c, i)
  {
    forall v, j | 0 <= j < |E(s, v)| && E(s, v)[j] != c && Remembers(s, E(s, v)[j], p) ensures v == w && j > i {
      assert E(s, v)[j] in E(s, v);
      assert Outstanding(s, p, E(s, v)[j]);
    }
  }

  lemma SuspendFrame(s: State, w: Wid, c: Tid)
    requires Conserved(s) && HasInHand(s, w, Running)
    ensures var r := Suspend(s, w, c);
            var p := Held(s, w);
            && r.tasks == s.tasks[p := s.tasks[p].(phase := Waiting(c))] && r.heap == s.heap
            && r.plugged == s.plugged && Q(r, Hand(w)) == [] && !Queued(r, p)
            && (forall q :: q != Hand(w) ==> Q(r, q) == Q(s, q))
            && (forall v :: E(r, v) == E(s, v))
  {
    NowhereAfterDrop(s, Hand(w), 0);
    forall q ensures Held(s, w) !in Q(Suspend(s, w, c), q) {
      assert Q(Suspend(s, w, c), q) == Q(Drop(s, Hand(w), 0), q);
    }
  }

  lemma WindowOpens(s: State, w: Wid, c: Tid)
    requires Inv(s) && Enabled(s, Await(w, c))
    requires ConsumedExcept(s, Held(s, w), c) || ComesFirst(s, w, Held(s, w), c)
    ensures Window(Suspend(s, w, c), Held(s, w), c)
  {
    hide Sealed, AloneThere, ComesFirst, ConsumedExcept;
    var p := Held(s, w);
    var r := Suspend(s, w, c);
    assert p in Q(s, Hand(w));
    EntryFacts(s, Hand(w), p);
    SealedAtStart(s, w, p, c);
    SuspendFrame(s, w, c);
    SealedSuspends(s, w, c, p);
    assert s.tasks[c].parentAddr == Some(s.tasks[p].addr);
  }

  lemma SealedSuspends(s: State, w: Wid, c: Tid, p: Tid)
    requires Conserved(s) && HasInHand(s, w, Running) && p == Held(s, w) && Sealed(s, p, c)
    ensures Sealed(Suspend(s, w, c), p, c)
  {
    SuspendFrame(s, w, c);
    var r := Suspend(s, w, c);
    forall x | Dead(s, x) ensures Dead(r, x) {
      assert x != p;
      assert forall q :: x !in Q(r, q);
    }
    assert forall x :: Remembers(r, x, p) <==> Remembers(s, x, p);
    if !Hushed(s, p, c) {
      var i: nat :| AheadAt(s, p, c, i);
      assert AheadAt(r, p, c, i);
    } else {
      HushedSuspends(s, r, p, c);
    }
  }

  lemma HushedSuspends(s: State, r: State, p: Tid, c: Tid)
    requires Hushed(s, p, c) && forall x :: Dead(s, x) ==> Dead(r, x)
    requires forall x :: Remembers(r, x, p) <==> Remembers(s, x, p)
    requires r.tasks.Keys == s.tasks.Keys && forall t :: t in s.tasks ==> SameStatic(s.tasks[t], r.tasks[t])
    requires forall v :: E(r, v) == E(s, v)
    ensures Hushed(r, p, c)
  {
    hide Dead;
  }

  // ----- and when it does not -----

  /** `c` has been consumed although it is not complete. */
  predicate ConsumedEarly(s: State, c: Tid) { c in s.tasks && s.tasks[c].consumed && !s.tasks[c].complete }

  lemma SuspendSleeps(s: State, w: Wid, c: Tid)
    requires Inv(s) && Enabled(s, Await(w, c))
    ensures var r := Suspend(s, w, c);
            var p := Held(s, w);
            && Workable(r) && Asleep(r, p) && r.tasks[p].phase == Waiting(c) && r.tasks[p].worker == w
            && r.tasks[p].addr in r.heap && r.heap[r.tasks[p].addr] == p
  {
    hide LineageOk, EventsOk, Workable;
    var p := Held(s, w);
    assert p in Q(s, Hand(w));
    EntryFacts(s, Hand(w), p);
    SuspendFrame(s, w, c);
    InvWorks(s);
    SuspendWorks(s, w, c);
  }

  lemma SuspendWorks(s: State, w: Wid, c: Tid)
    requires Workable(s) && Conserved(s) && HasInHand(s, w, Running)
    ensures Workable(Suspend(s, w, c))
  {
    SuspendFrame(s, w, c);
    var r := Suspend(s, w, c);
    forall q, u | u in Q(r, q) ensures EntryFits(r, q, u) {
      assert u != Held(s, w);
      assert u in Q(s, q) && EntryFits(s, q, u);
    }
    assert forall v :: |Q(r, Hand(v))| <= 1;
  }

  /** Another subtask's event comes before `c`'s: it wakes `p`. */
  lemma EarlierEvent(s: State, age: map<Tid, nat>, n: nat, w: Wid, c: Tid, j: nat) returns (r: State)
    requires Inv(s) && Aged(s, age, n) && Enabled(s, Await(w, c)) && j < |E(s, w)| && Outstanding(s, Held(s, w), E(s, w)[j])
    requires c !in E(s, w)[..j + 1]
    ensures Reaches(Suspend(s, w, c), r) && ConsumedEarly(r, c)
  {
    hide Reaches, Workable, Inv, Asleep;
    var p := Held(s, w);
    var s1 := Suspend(s, w, c);
    AwaitIsSuspend(s, w, c);
    SuspendSleeps(s, w, c);
    SuspendFacts(s, w, c);
    var d := E(s, w)[j];
    TellsSuspended(s, age, n, w, c, d);
    var keep := Keep({p}, Some(c));
    assert E(s1, w)[..j + 1] == E(s, w)[..j + 1];
    var g: Tid;
    r, g := PopUntil(s1, w, j, p, keep);
  }

  lemma SuspendFacts(s: State, w: Wid, c: Tid)
    requires Inv(s) && HasInHand(s, w, Running)
    ensures var r := Suspend(s, w, c);
            Q(r, Hand(w)) == [] && (forall v :: E(r, v) == E(s, v)) && r.plugged == s.plugged
            && r.tasks == s.tasks[Held(s, w) := s.tasks[Held(s, w)].(phase := Waiting(c))]
  {
    SuspendFrame(s, w, c);
  }

  /** An outstanding subtask tells `p` after the await as before. */
  lemma TellsSuspended(s: State, age: map<Tid, nat>, n: nat, w: Wid, c: Tid, d: Tid)
    requires Inv(s) && Aged(s, age, n) && HasInHand(s, w, Running) && Outstanding(s, Held(s, w), d)
    ensures d != Held(s, w) && Tells(Suspend(s, w, c), d, Held(s, w)) && PointsTo(Suspend(s, w, c), d, Held(s, w))
  {
    var p := Held(s, w);
    assert Older(s, s.tasks[d].parent, age, age[d]);
    OutstandingTells(s, p, d);
  }

  /** The chain that hangs from another unfinished subtask, with `p` at its head. */
  lemma ChainThrough(s: State, age: map<Tid, nat>, n: nat, w: Wid, c: Tid, d: Tid) returns (xs: seq<Tid>)
    requires Inv(s) && Aged(s, age, n) && Enabled(s, Await(w, c)) && Outstanding(s, Held(s, w), d) && d != c
    ensures var r := Suspend(s, w, c);
            && Chain(r, xs) && |xs| >= 2 && xs[0] == Held(s, w) && c !in xs
            && xs[|xs| - 2] in r.tasks && Movable(r, xs[|xs| - 1], xs[|xs| - 2])
  {
    hide Conserved, RecordsOk, HeapOk, LineageOk, AwaitOk, EventsOk, QueuesOk, Movable, Asleep, Chain, Aged;
    var p := Held(s, w);
    var ys := ChainOf(s, age, n, d);
    xs := [p] + ys;
    LastMoves(s, p, d, ys);
    var r := Suspend(s, w, c);
    ChainLifts(s, age, n, w, c, d, ys);
    NotInChain(s, age, n, p, c, d, ys);
    MovableLifts(s, w, c, ys[|ys| - 1], if |ys| >= 2 then ys[|ys| - 2] else p);
  }

  lemma LastMoves(s: State, p: Tid, d: Tid, ys: seq<Tid>)
    requires Inv(s) && Outstanding(s, p, d) && WaitsAlong(s, ys) && ys[0] == d
    requires |ys| >= 2 ==> Movable(s, ys[|ys| - 1], ys[|ys| - 2])
    ensures |ys| == 1 ==> p in s.tasks && Movable(s, d, p)
  {
    if |ys| == 1 { OutstandingMoves(s, p, d); }
  }

  lemma NotInChain(s: State, age: map<Tid, nat>, n: nat, p: Tid, c: Tid, d: Tid, ys: seq<Tid>)
    requires AwaitOk(s) && Aged(s, age, n) && WaitsAlong(s, ys) && Rising(ys, age) && ys[0] == d && d != c
    requires Outstanding(s, p, c) && Outstanding(s, p, d)
    ensures c !in ys && p !in ys && c != p
  {
    assert Older(s, s.tasks[c].parent, age, age[c]);
    assert Older(s, s.tasks[d].parent, age, age[d]);
    forall i | 0 <= i < |ys| ensures ys[i] != p && ys[i] != c {
      assert age[ys[0]] <= age[ys[i]];
      if i > 0 {
        assert s.tasks[ys[i - 1]].phase == Waiting(ys[i - 1 + 1]);
        assert Outstanding(s, ys[i - 1], ys[i]);
        assert age[ys[0]] <= age[ys[i - 1]];
      }
    }
  }

  lemma ChainLifts(s: State, age: map<Tid, nat>, n: nat, w: Wid, c: Tid, d: Tid, ys: seq<Tid>)
    requires Inv(s) && Aged(s, age, n) && Enabled(s, Await(w, c)) && Outstanding(s, Held(s, w), d) && d != c
    requires WaitsAlong(s, ys) && Rising(ys, age) && ys[0] == d && Chain(s, ys)
    ensures Chain(Suspend(s, w, c), [Held(s, w)] + ys)
  {
    hide Conserved, RecordsOk, HeapOk, LineageOk, EventsOk, QueuesOk, Asleep, Aged;
    var p := Held(s, w);
    var r := Suspend(s, w, c);
    var xs := [p] + ys;
    NotInChain(s, age, n, p, c, d, ys);
    SuspendSleeps(s, w, c);
    SuspendFacts(s, w, c);
    TellsSuspended(s, age, n, w, c, d);
    forall i | 0 <= i < |xs| - 1 ensures Asleep(r, xs[i]) {
      if i > 0 {
        assert xs[i] == ys[i - 1];
        SleepLifts(s, w, c, xs[i]);
      }
    }
    forall i | 0 < i < |xs| ensures Tells(r, xs[i], xs[i - 1]) {
      if i > 1 {
        assert Tells(s, ys[i - 1], ys[i - 1 - 1]);
        assert r.heap == s.heap;
      }
    }
  }

  lemma SleepLifts(s: State, w: Wid, c: Tid, t: Tid)
    requires Inv(s) && HasInHand(s, w, Running) && Asleep(s, t) && t != Held(s, w)
    ensures Asleep(Suspend(s, w, c), t)
  {
    SuspendFrame(s, w, c);
    assert forall q :: t !in Q(Suspend(s, w, c), q);
  }

  lemma MovableLifts(s: State, w: Wid, c: Tid, x: Tid, h: Tid)
    requires Inv(s) && HasInHand(s, w, Running) && h in s.tasks && Movable(s, x, h) && x != Held(s, w)
    ensures var r := Suspend(s, w, c); h in r.tasks && Movable(r, x, h)
  {
    SuspendFrame(s, w, c);
    var r := Suspend(s, w, c);
    if PlacedToStart(s, x) {
      var q, k: nat :| OnlyAt(s, x, q, k) && Startable(s, x, q);
      assert |Q(s, Hand(w))| == 1;
      assert q != Hand(w);
      assert OnlyAt(r, x, q, k) && Startable(r, x, q);
    }
  }

  /** Another subtask is unfinished and no event of `c` is waiting: it can be made to wake `p`. */
  lemma OtherWakes(s: State, age: map<Tid, nat>, n: nat, w: Wid, c: Tid, d: Tid) returns (r: State)
    requires Inv(s) && Aged(s, age, n) && Enabled(s, Await(w, c)) && Outstanding(s, Held(s, w), d) && d != c
    requires forall v :: c !in E(s, v)
    ensures Reaches(Suspend(s, w, c), r) && ConsumedEarly(r, c)
  {
    hide Reaches, Inv, Aged, Chain, Movable, Asleep, Workable;
    AwaitIsSuspend(s, w, c);
    SuspendSleeps(s, w, c);
    SuspendFacts(s, w, c);
    var xs := ChainThrough(s, age, n, w, c, d);
    r := Rouse(Suspend(s, w, c), xs, Some(c));
  }

  lemma {:induction false} FirstIndex(xs: seq<Tid>, c: Tid) returns (i: nat)
    requires c in xs
    ensures i < |xs| && xs[i] == c && c !in xs[..i]
    decreases |xs|
  {
    if xs[0] == c {
      i := 0;
    } else {
      i := FirstIndex(xs[1..], c);
      assert xs[..i + 1] == [xs[0]] + xs[1..][..i];
      i := i + 1;
    }
  }

  lemma ItsWorker(s: State, w: Wid, c: Tid)
    requires Inv(s) && Enabled(s, Await(w, c)) && c !in E(s, w)
    ensures forall v :: c !in E(s, v)
  {
    assert Held(s, w) in Q(s, Hand(w));
    EntryFacts(s, Hand(w), Held(s, w));
  }

  lemma EarlyIsPossible(s: State, age: map<Tid, nat>, n: nat, w: Wid, c: Tid) returns (r: State)
    requires Inv(s) && Aged(s, age, n) && Enabled(s, Await(w, c))
    requires !ConsumedExcept(s, Held(s, w), c) && !ComesFirst(s, w, Held(s, w), c)
    ensures Reaches(Suspend(s, w, c), r) && ConsumedEarly(r, c)
  {
    hide Reaches, Inv, Aged;
    var p := Held(s, w);
    if c in E(s, w) {
      var i := FirstIndex(E(s, w), c);
      var j :| 0 <= j < i && Outstanding(s, p, E(s, w)[j]);
      assert E(s, w)[..j + 1] == E(s, w)[..i][..j + 1];
      r := EarlierEvent(s, age, n, w, c, j);
    } else {
      var d :| Outstanding(s, p, d) && d != c;
      ItsWorker(s, w, c);
      r := OtherWakes(s, age, n, w, c, d);
    }
  }

  /** After any run: however the scheduler goes on, a coroutine that awaits a subtask never
      consumes it before it is complete, if and only if it has no other outstanding
      subtask, or the awaited one has already ended and its event is before those of all
      others. */
  lemma AwaitIsSoundIff(run: seq<Action>, w: Wid, c: Tid)
    requires IsRun(Init, run) && Enabled(After(Init, run), Await(w, c))
    ensures var s := After(Init, run);
            var r := Next(s, Await(w, c));
            (forall path :: IsPath(r, path) ==> !ConsumedEarly(Along(r, path), c))
            <==> ConsumedExcept(s, Held(s, w), c) || ComesFirst(s, w, Held(s, w), c)
  {
    hide Inv, ConsumedExcept, ComesFirst, IsRun, After;
    var s := After(Init, run);
    var p := Held(s, w);
    InitInv();
    RunInv(Init, run);
    AwaitIsSuspend(s, w, c);
    var r := Suspend(s, w, c);
    if ConsumedExcept(s, p, c) || ComesFirst(s, w, p, c) {
      WindowOpens(s, w, c);
      NeverEarly(r, p, c);
    } else {
      var age, n := RunAges(Init, run, map[], 0);
      var t := EarlyIsPossible(s, age, n, w, c);
      var path :| Via(r, path, t);
      assert IsPath(r, path) && ConsumedEarly(Along(r, path), c);
    }
  }

  lemma NeverEarly(r: State, p: Tid, c: Tid)
    requires Window(r, p, c)
    ensures forall path :: IsPath(r, path) ==> !ConsumedEarly(Along(r, path), c)
  {
    forall path | IsPath(r, path) ensures !ConsumedEarly(Along(r, path), c) {
      PathKeeps(r, path, p, c);
    }
  }
}
