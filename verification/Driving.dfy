/** Paths the scheduler can take, whether or not coroutines respect the discipline, and
    how to steer one: every queued task can be brought to its end, and every sleeping
    parent whose chain of awaited subtasks is intact can be woken. */
module Driving {
  import opened Sums
  import opened Scheduler
  import opened Conservation
  import opened Completion
  import opened CompletionRuns

  // ----- paths -----

  /** `path` can be performed from `s`; no discipline is asked for. */
  ghost predicate IsPath(s: State, path: seq<Action>)
    decreases |path|
  {
    path == [] || (Enabled(s, path[0]) && IsPath(Next(s, path[0]), path[1..]))
  }

  ghost function Along(s: State, path: seq<Action>): State
    requires IsPath(s, path)
    decreases |path|
  {
    if path == [] then s else Along(Next(s, path[0]), path[1..])
  }

  /** No task comes back from the network onto a container of `bad`. */
  predicate Avoids(path: seq<Action>, bad: set<Cid>) {
    forall i :: 0 <= i < |path| && path[i].NetReturn? ==> path[i].c !in bad
  }

  ghost predicate Via(s: State, path: seq<Action>, r: State) {
    IsPath(s, path) && Along(s, path) == r && Avoids(path, s.plugged) && r.plugged == s.plugged
  }

  /** Some path leads from `s` to `r`, plugs nothing and returns nothing onto a plugged
      container. */
  ghost predicate Reaches(s: State, r: State) {
    exists path {:trigger Via(s, path, r)} :: Via(s, path, r)
  }

  lemma ReachesSelf(s: State)
    ensures Reaches(s, s)
  {
    assert Via(s, [], s);
  }

  lemma {:induction false} JoinPaths(s: State, p: seq<Action>, q: seq<Action>)
    requires IsPath(s, p) && IsPath(Along(s, p), q)
    ensures IsPath(s, p + q) && Along(s, p + q) == Along(Along(s, p), q)
    decreases |p|
  {
    if p == [] {
      assert p + q == q;
    } else {
      assert (p + q)[0] == p[0] && (p + q)[1..] == p[1..] + q;
      JoinPaths(Next(s, p[0]), p[1..], q);
    }
  }

  lemma ReachesOn(s: State, r: State, t: State)
    requires Reaches(s, r) && Reaches(r, t)
    ensures Reaches(s, t)
  {
    hide IsPath, Along;
    var p :| Via(s, p, r);
    var q :| Via(r, q, t);
    JoinPaths(s, p, q);
    assert Via(s, p + q, t);
  }

  predicate Harmless(s: State, a: Action) { !a.Plug? && (a.NetReturn? ==> a.c !in s.plugged) }

  lemma ReachesNext(s: State, r: State, a: Action)
    requires Reaches(s, r) && Enabled(r, a) && Harmless(s, a) && Next(r, a).plugged == r.plugged
    ensures Reaches(s, Next(r, a))
  {
    hide Enabled, Next;
    var p :| Via(s, p, r);
    var path := [a];
    assert path[1..] == [] && path[0] == a;
    assert IsPath(Next(r, a), path[1..]);
    assert IsPath(r, path);
    assert Along(r, path) == Next(r, a);
    assert Avoids(path, r.plugged);
    assert Via(r, path, Next(r, a));
    ReachesOn(s, r, Next(r, a));
  }

  /** A container that is not plugged. */
  lemma {:induction false} Unused(xs: set<Cid>) returns (c: Cid)
    ensures c !in xs
  {
    c := Above(xs);
  }

  lemma {:induction false} Above(xs: set<Cid>) returns (c: Cid)
    ensures forall x :: x in xs ==> x < c
    decreases |xs|
  {
    c := 0;
    if xs != {} {
      var x :| x in xs;
      var d := Above(xs - {x});
      c := if d <= x then x + 1 else d;
      assert forall y :: y in xs ==> y == x || y in xs - {x};
    }
  }

  // ----- what steering keeps -----

  predicate EntryFits(s: State, q: Queue, t: Tid) {
    t in s.tasks
    && match q
       case Hand(_) => s.tasks[t].phase == Ready || (s.tasks[t].phase == Running && s.tasks[t].container.Some?)
       case Lane(_) => s.tasks[t].phase == Ready
       case Periodic(_, _) => s.tasks[t].phase == Ready
       case _ => true
  }

  /** What it takes to empty a worker's hand and its queues. */
  ghost predicate Workable(s: State) {
    && (forall q, t :: t in Q(s, q) ==> EntryFits(s, q, t))
    && (forall w :: |Q(s, Hand(w))| <= 1)
    && (forall w, f :: f in E(s, w) ==> f in s.tasks)
  }

  lemma InvWorks(s: State)
    requires Inv(s)
    ensures Workable(s)
  {
    forall q, t | t in Q(s, q) ensures EntryFits(s, q, t) {
      EntryFacts(s, q, t);
    }
  }

  ghost predicate Queued(s: State, t: Tid) { exists q :: t in Q(s, q) }

  /** Suspended in co_await, and nowhere else. */
  ghost predicate Asleep(s: State, t: Tid) {
    && t in s.tasks && s.tasks[t].phase.Waiting? && s.tasks[t].phase.child in s.tasks && s.tasks[t].container.Some?
    && !Queued(s, t)
  }

  predicate Still(x: Task, y: Task) {
    y.phase == x.phase && y.worker == x.worker && y.container == x.container && y.routed == x.routed
  }

  /** Tasks that steering must leave alone: `sleepers` stay asleep, and `spared` does not
      become complete. */
  datatype Keep = Keep(sleepers: set<Tid>, spared: Option<Tid>)

  ghost predicate Calm(s: State, r: State, k: Keep) {
    && r.tasks.Keys == s.tasks.Keys && r.heap == s.heap
    && (forall t :: t in s.tasks ==> SameStatic(s.tasks[t], r.tasks[t]))
    && (k.spared.Some? && k.spared.value in s.tasks ==> r.tasks[k.spared.value].complete == s.tasks[k.spared.value].complete)
    && (forall t :: t in k.sleepers && Asleep(s, t) ==> Asleep(r, t) && Still(s.tasks[t], r.tasks[t]))
  }

  lemma CalmOn(s: State, r: State, t: State, k: Keep)
    requires Calm(s, r, k) && Calm(r, t, k)
    ensures Calm(s, t, k)
  {
    hide Asleep;
  }

  /** `r` holds the entries of `s` but for entry `k` of `from`. */
  ghost predicate Without(s: State, from: Queue, k: nat, r: State) {
    && k < |Q(s, from)|
    && forall q :: Q(r, q) == if q == from then Q(s, from)[..k] + Q(s, from)[k + 1..] else Q(s, q)
  }

  /** Task `x` is entry `k` of `q`, and no other entry. */
  ghost predicate OnlyAt(s: State, x: Tid, q: Queue, k: nat) {
    && k < |Q(s, q)| && Q(s, q)[k] == x
    && forall p, i :: 0 <= i < |Q(s, p)| && Q(s, p)[i] == x ==> p == q && i == k
  }

  /** An entry leaves the queues: its task is left ready, or in no queue. */
  lemma LeavesWorkable(s: State, from: Queue, k: nat, r: State, y: Task, keep: Keep)
    requires Workable(s) && Without(s, from, k, r) && Q(s, from)[k] in s.tasks
    requires var t := Q(s, from)[k];
             && r.tasks == s.tasks[t := y] && SameStatic(s.tasks[t], y) && y.complete == s.tasks[t].complete
             && (y.phase == Ready || OnlyAt(s, t, from, k))
    requires r.heap == s.heap && forall w, f :: f in E(r, w) ==> f in s.tasks
    ensures Workable(r) && Calm(s, r, keep)
  {
    var t := Q(s, from)[k];
    forall q, u | u in Q(r, q) ensures EntryFits(r, q, u) && u in Q(s, q) {
      assert u in Q(s, q);
      assert EntryFits(s, q, u);
      if y.phase != Ready { Gone(s, from, k, r, q); }
    }
    assert forall w :: |Q(r, Hand(w))| <= |Q(s, Hand(w))|;
    assert t in Q(s, from);
    forall u | u in keep.sleepers && Asleep(s, u) ensures Asleep(r, u) && Still(s.tasks[u], r.tasks[u]) {
      assert u != t;
      assert !Queued(r, u);
    }
  }

  lemma Gone(s: State, from: Queue, k: nat, r: State, q: Queue)
    requires Without(s, from, k, r) && OnlyAt(s, Q(s, from)[k], from, k)
    ensures Q(s, from)[k] !in Q(r, q)
  {
    var t := Q(s, from)[k];
    forall i | 0 <= i < |Q(r, q)| ensures Q(r, q)[i] != t {
      if q == from && i >= k { assert Q(r, q)[i] == Q(s, q)[i + 1]; }
    }
  }

  // ----- emptying a hand -----

  lemma HandLoses(s: State, w: Wid)
    requires |Q(s, Hand(w))| == 1
    ensures Without(s, Hand(w), 0, Drop(s, Hand(w), 0))
    ensures Q(Drop(s, Hand(w), 0), Hand(w)) == []
  {}

  /** Whatever worker `w` holds is dropped: it yields for nothing, or resolves to nothing. */
  lemma Release(s: State, w: Wid, keep: Keep) returns (r: State)
    requires Workable(s)
    ensures Reaches(s, r) && Workable(r) && Calm(s, r, keep)
    ensures Q(r, Hand(w)) == [] && r.events == s.events
    ensures forall q :: q != Hand(w) ==> Q(r, q) == Q(s, q)
    ensures forall t :: t in s.tasks && t !in Q(s, Hand(w)) ==> r.tasks[t] == s.tasks[t]
  {
    hide Calm, Asleep, Workable;
    if Q(s, Hand(w)) == [] {
      r := s;
      ReachesSelf(s);
      CalmSelf(s, keep);
    } else {
      HoldsOne(s, w);
      r := Released(s, w);
      HandLoses(s, w);
      SameEvents(s, r);
      LeavesWorkable(s, Hand(w), 0, r, r.tasks[Held(s, w)], keep);
    }
  }

  lemma SameEvents(s: State, r: State)
    requires Workable(s) && r.events == s.events
    ensures forall w, f :: f in E(r, w) ==> f in s.tasks
  {
    assert forall w :: E(r, w) == E(s, w);
  }

  lemma HoldsOne(s: State, w: Wid)
    requires Workable(s) && Q(s, Hand(w)) != []
    ensures |Q(s, Hand(w))| == 1 && EntryFits(s, Hand(w), Held(s, w))
  {}

  lemma CalmSelf(s: State, keep: Keep)
    ensures Calm(s, s, keep)
  {}

  lemma Released(s: State, w: Wid) returns (r: State)
    requires |Q(s, Hand(w))| == 1 && EntryFits(s, Hand(w), Held(s, w))
    ensures Reaches(s, r)
    ensures var t := Held(s, w);
            && t in r.tasks && r.tasks == s.tasks[t := r.tasks[t]] && SameStatic(s.tasks[t], r.tasks[t])
            && r.tasks[t].phase == Ready && r.tasks[t].complete == s.tasks[t].complete
    ensures r.heap == s.heap && r.events == s.events && r.queues == Drop(s, Hand(w), 0).queues
  {
    hide Enter, Reaches;
    if s.tasks[Held(s, w)].phase == Running {
      r := Dropped(s, w, YieldZero(w));
    } else if !s.tasks[Held(s, w)].routed {
      r := Dropped(s, w, DropUnresolved(w));
    } else {
      var s1 := RunsHere(s, w);
      r := Dropped(s1, w, YieldZero(w));
      ReachesOn(s, s1, r);
    }
  }

  lemma Dropped(s: State, w: Wid, a: Action) returns (r: State)
    requires (a == YieldZero(w) && HasInHand(s, w, Running)) || (a == DropUnresolved(w) && IsRouting(s, w))
    ensures Reaches(s, r)
    ensures var t := Held(s, w);
            && r.tasks == s.tasks[t := s.tasks[t].(phase := Ready)]
            && r.heap == s.heap && r.events == s.events && r.queues == Drop(s, Hand(w), 0).queues
  {
    hide Reaches;
    ReachesSelf(s);
    r := Next(s, a);
    ReachesNext(s, s, a);
  }

  /** A routed task in hand runs. */
  lemma RunsHere(s: State, w: Wid) returns (r: State)
    requires HasInHand(s, w, Ready) && s.tasks[Held(s, w)].routed
    ensures Reaches(s, r)
    ensures var t := Held(s, w);
            && t in r.tasks && r.tasks == s.tasks[t := r.tasks[t]] && SameStatic(s.tasks[t], r.tasks[t])
            && r.tasks[t].phase == Running && r.tasks[t].container.Some? && r.tasks[t].complete == s.tasks[t].complete
            && r.tasks[t].worker == s.tasks[t].worker
    ensures r.heap == s.heap && r.events == s.events && r.queues == s.queues
  {
    hide Enter, Reaches;
    var c := Unused(s.plugged);
    var a := Exec(w, Some(c), 0.0);
    EnterRecord(s, w, Held(s, w), Some(c), 0.0, s.tasks[Held(s, w)].started);
    ReachesSelf(s);
    ReachesNext(s, s, a);
    r := Next(s, a);
  }

  // ----- emptying the front of a queue -----

  predicate OfWorker(q: Queue, w: Wid) { (q.Lane? || q.Blocked? || q.Periodic? || q.Retry?) && q.w == w }

  /** Worker `w` has taken the front of `q`. */
  ghost predicate Taken(s: State, w: Wid, q: Queue, s1: State) {
    && Q(s, q) != [] && Q(s, q)[0] in s.tasks && Q(s, Hand(w)) == []
    && s1.queues == Push(Drop(s, q, 0), Hand(w), Q(s, q)[0]).queues && s1.heap == s.heap && s1.events == s.events
    && var t := Q(s, q)[0];
    && t in s1.tasks && s1.tasks == s.tasks[t := s1.tasks[t]] && SameStatic(s.tasks[t], s1.tasks[t])
    && s1.tasks[t].complete == s.tasks[t].complete
    && (s1.tasks[t].phase == Ready || (s1.tasks[t].phase == Running && s1.tasks[t].container.Some?))
  }

  lemma TakenQueue(s: State, w: Wid, q: Queue, s1: State)
    requires Taken(s, w, q, s1) && q != Hand(w)
    ensures Q(s1, Hand(w)) == [Q(s, q)[0]] && EntryFits(s1, Hand(w), Q(s, q)[0])
    ensures Q(s1, q) == Q(s, q)[1..]
    ensures forall p :: p != q && p != Hand(w) ==> Q(s1, p) == Q(s, p)
    ensures Without(s, q, 0, Drop(s1, Hand(w), 0))
  {}

  /** Taking the front of a queue of worker `w` that is neither Retry nor Blocked. */
  lemma TakeReady(s: State, w: Wid, q: Queue) returns (r: State)
    requires (q.Lane? || q.Periodic?) && q.w == w && CanTake(s, w, q) && s.tasks[Q(s, q)[0]].phase == Ready
    ensures Reaches(s, r) && Taken(s, w, q, r) && r.tasks[Q(s, q)[0]].phase == Ready
  {
    hide Reaches;
    ReachesSelf(s);
    var a := if q.Lane? then PopLane(w) else PopPeriodic(w, q.level);
    r := Next(s, a);
    ReachesNext(s, s, a);
  }

  lemma TakeBlocked(s: State, w: Wid, level: nat, found: Option<Cid>) returns (r: State)
    requires CanTake(s, w, Blocked(w, level)) && CanEnter(s, Q(s, Blocked(w, level))[0], found)
    ensures Reaches(s, r) && Taken(s, w, Blocked(w, level), r)
    ensures var t := Q(s, Blocked(w, level))[0]; r.tasks[t].phase == Running && r.tasks[t].container == ExecContainer(s.tasks[t], found)
  {
    hide Reaches, Enter;
    ReachesSelf(s);
    var q := Blocked(w, level);
    var t := Q(s, q)[0];
    EnterRecord(Take(s, w, q, s.tasks[t]), w, t, found, 0.0, s.tasks[t].started);
    var a := PopBlocked(w, level, found, 0.0);
    r := Next(s, a);
    ReachesNext(s, s, a);
  }

  /** The front of a queue goes away: out of all queues, or from the retry queue to the
      network. */
  lemma Skip(s: State, w: Wid, q: Queue, keep: Keep) returns (r: State)
    requires Workable(s) && OfWorker(q, w) && Q(s, Hand(w)) == [] && Q(s, q) != []
    ensures Reaches(s, r) && Workable(r) && Calm(s, r, keep) && r.events == s.events
    ensures Q(r, q) == Q(s, q)[1..]
    ensures forall p :: p != q && !p.NetOut? ==> Q(r, p) == Q(s, p)
    ensures Q(r, NetOut) == Q(s, NetOut) || Q(r, NetOut) == Q(s, NetOut) + [Q(s, q)[0]]
    ensures forall t :: t in s.tasks && t != Q(s, q)[0] ==> r.tasks[t] == s.tasks[t]
  {
    hide Calm, Asleep, Reaches;
    assert EntryFits(s, q, Q(s, q)[0]);
    hide Workable;
    if q.Retry? {
      r := SkipRetry(s, w, keep);
    } else {
      var s1: State;
      if q.Blocked? {
        var c := Unused(s.plugged);
        s1 := TakeBlocked(s, w, q.level, Some(c));
      } else {
        s1 := TakeReady(s, w, q);
      }
      r := SkipTaken(s, w, q, s1, keep);
    }
  }

  lemma SkipTaken(s: State, w: Wid, q: Queue, s1: State, keep: Keep) returns (r: State)
    requires Workable(s) && Taken(s, w, q, s1) && Reaches(s, s1) && q != Hand(w)
    ensures Reaches(s, r) && Workable(r) && Calm(s, r, keep) && r.events == s.events
    ensures Q(r, q) == Q(s, q)[1..]
    ensures forall p :: p != q ==> Q(r, p) == Q(s, p)
    ensures forall t :: t in s.tasks && t != Q(s, q)[0] ==> r.tasks[t] == s.tasks[t]
  {
    hide Calm, Asleep, Reaches, Workable;
    TakenQueue(s, w, q, s1);
    r := Released(s1, w);
    ReachesOn(s, s1, r);
    SameWithout(s, q, Drop(s1, Hand(w), 0), r);
    SameEvents(s, r);
    LeavesWorkable(s, q, 0, r, r.tasks[Q(s, q)[0]], keep);
  }

  lemma SameWithout(s: State, q: Queue, d: State, r: State)
    requires Without(s, q, 0, d) && r.queues == d.queues
    ensures Without(s, q, 0, r) && Q(r, q) == Q(s, q)[1..]
  {
    assert forall p :: Q(r, p) == Q(d, p);
  }

  lemma SkipRetry(s: State, w: Wid, keep: Keep) returns (r: State)
    requires Workable(s) && CanTake(s, w, Retry(w))
    ensures Reaches(s, r) && Workable(r) && Calm(s, r, keep) && r.events == s.events && r.tasks == s.tasks
    ensures Q(r, Retry(w)) == Q(s, Retry(w))[1..] && Q(r, NetOut) == Q(s, NetOut) + [Q(s, Retry(w))[0]]
    ensures forall p :: p != Retry(w) && p != NetOut ==> Q(r, p) == Q(s, p)
  {
    ReachesSelf(s);
    r := Next(s, RetryGlobal(w));
    ReachesNext(s, s, RetryGlobal(w));
    ToNetwork(s, w, r);
    MovesWorkable(s, r, Q(s, Retry(w))[0], keep);
  }

  lemma ToNetwork(s: State, w: Wid, r: State)
    requires Q(s, Retry(w)) != [] && r == Shift(s, Retry(w), NetOut)
    ensures Q(r, Retry(w)) == Q(s, Retry(w))[1..] && Q(r, NetOut) == Q(s, NetOut) + [Q(s, Retry(w))[0]]
    ensures forall p :: p != Retry(w) && p != NetOut ==> Q(r, p) == Q(s, p)
  {}

  /** Records, heap and events stay, and the network gets the only new entry. */
  lemma MovesWorkable(s: State, r: State, t: Tid, keep: Keep)
    requires Workable(s) && r.tasks == s.tasks && r.heap == s.heap && r.events == s.events && Queued(s, t)
    requires forall q, u :: u in Q(r, q) ==> u in Q(s, q) || (u == t && q == NetOut)
    requires forall w :: |Q(r, Hand(w))| <= |Q(s, Hand(w))|
    ensures Workable(r) && Calm(s, r, keep)
  {
    forall q, u | u in Q(r, q) ensures EntryFits(r, q, u) {
      if u in Q(s, q) {
        assert EntryFits(s, q, u);
      } else {
        var p :| t in Q(s, p);
        assert EntryFits(s, p, t);
      }
    }
    assert forall w :: E(r, w) == E(s, w);
    forall u | u in keep.sleepers && Asleep(s, u) ensures Asleep(r, u) {
      assert !Queued(r, u);
    }
  }

  // ----- one task -----

  lemma StaysOnly(s: State, q: Queue, x: Tid, k: nat, r: State)
    requires OnlyAt(s, x, q, k) && k > 0 && Q(r, q) == Q(s, q)[1..]
    requires forall p :: p != q && !p.NetOut? ==> Q(r, p) == Q(s, p)
    requires q != NetOut && (Q(r, NetOut) == Q(s, NetOut) || Q(r, NetOut) == Q(s, NetOut) + [Q(s, q)[0]])
    ensures OnlyAt(r, x, q, k - 1)
  {
    assert Q(s, q)[0] != x;
    forall p, i | 0 <= i < |Q(r, p)| && Q(r, p)[i] == x ensures p == q && i == k - 1 {
      if p == q {
        assert Q(s, q)[i + 1] == x;
      }
    }
  }

  /** Everything in front of task `x` goes away. */
  lemma {:induction false} ToFront(s: State, w: Wid, q: Queue, x: Tid, k: nat, keep: Keep) returns (r: State)
    requires Workable(s) && OfWorker(q, w) && OnlyAt(s, x, q, k) && Q(s, Hand(w)) == []
    ensures Reaches(s, r) && Workable(r) && Calm(s, r, keep) && r.events == s.events
    ensures OnlyAt(r, x, q, 0) && x in s.tasks && x in r.tasks && r.tasks[x] == s.tasks[x] && Q(r, Hand(w)) == []
    decreases k
  {
    hide Calm, Reaches;
    assert EntryFits(s, q, x);
    hide Workable;
    if k == 0 {
      r := s;
      ReachesSelf(s);
      CalmSelf(s, keep);
    } else {
      var s1 := Skip(s, w, q, keep);
      StaysOnly(s, q, x, k, s1);
      r := ToFront(s1, w, q, x, k - 1, keep);
      ReachesOn(s, s1, r);
      CalmOn(s, s1, r, keep);
    }
  }

  /** Task `x` will tell `h`, whose address is the one `x` remembers. */
  predicate Tells(s: State, x: Tid, h: Tid) {
    && x in s.tasks && h in s.tasks && x != h
    && !s.tasks[x].periodic && !s.tasks[x].fireAndForget && s.tasks[x].reply.ToFuture?
    && s.tasks[x].parentAddr == Some(s.tasks[h].addr)
    && s.tasks[h].addr in s.heap && s.heap[s.tasks[h].addr] == h
  }

  /** `x` has ended and its event is the last of `h`'s worker. */
  ghost predicate Told(s: State, x: Tid, h: Tid, r: State)
    requires h in s.tasks
  {
    forall v :: E(r, v) == if v == s.tasks[h].worker then E(s, v) + [x] else E(s, v)
  }

  lemma EndTells(s: State, w: Wid, x: Tid, again: Queue, h: Tid)
    requires Tells(s, x, h) && s.tasks[x].container.Some?
    ensures var r := End(s, w, x, again, false);
            && r.tasks == s.tasks[x := s.tasks[x].(phase := Ended)] && r.heap == s.heap && r.queues == s.queues
            && r.plugged == s.plugged && Told(s, x, h, r)
  {}

  /** `x` leaves entry `k` of `from` and ends. */
  lemma EndsWorkable(s: State, from: Queue, k: nat, r: State, x: Tid, h: Tid, keep: Keep)
    requires Workable(s) && OnlyAt(s, x, from, k) && Tells(s, x, h) && Told(s, x, h, r)
    requires r.queues == Drop(s, from, k).queues && r.heap == s.heap
    requires x in r.tasks && r.tasks == s.tasks[x := r.tasks[x]] && SameStatic(s.tasks[x], r.tasks[x])
    requires r.tasks[x].complete == s.tasks[x].complete
    ensures Workable(r) && Calm(s, r, keep)
  {
    assert forall q :: Q(r, q) == Q(Drop(s, from, k), q);
    forall v, f | f in E(r, v) ensures f in s.tasks {
      assert f == x || f in E(s, v);
    }
    LeavesWorkable(s, from, k, r, r.tasks[x], keep);
  }

  lemma FinishHeld(s: State, w: Wid, x: Tid, h: Tid, keep: Keep) returns (r: State)
    requires Workable(s) && OnlyAt(s, x, Hand(w), 0) && Tells(s, x, h) && s.tasks[x].phase == Running
    ensures Reaches(s, r) && Workable(r) && Calm(s, r, keep) && Told(s, x, h, r)
  {
    hide Calm, Reaches, End, Told;
    HoldsOne(s, w);
    hide Workable;
    var a := Return(w, Periodic(w, 0));
    var s1 := LetGo(s, w, s.tasks[x]);
    assert s1.tasks == s.tasks;
    EndTells(s1, w, x, Periodic(w, 0), h);
    ReachesSelf(s);
    ReachesNext(s, s, a);
    r := Next(s, a);
    SameTold(s, s1, x, h, r);
    EndsWorkable(s, Hand(w), 0, r, x, h, keep);
  }

  lemma SameTold(s: State, s1: State, x: Tid, h: Tid, r: State)
    requires h in s.tasks && h in s1.tasks && s1.tasks[h].worker == s.tasks[h].worker && s1.events == s.events && Told(s1, x, h, r)
    ensures Told(s, x, h, r)
  {
    assert forall v :: E(s1, v) == E(s, v);
  }

  lemma FinishSent(s: State, k: nat, x: Tid, h: Tid, keep: Keep) returns (r: State)
    requires Workable(s) && OnlyAt(s, x, NetOut, k) && Tells(s, x, h)
    ensures Reaches(s, r) && Workable(r) && Calm(s, r, keep) && Told(s, x, h, r)
  {
    hide Calm, Reaches, End, Told;
    hide Workable;
    var c := Unused(s.plugged);
    var a := NetReturn(k, 0, c, Periodic(0, 0));
    var s1 := Drop(Put(s, x, s.tasks[x].(container := Some(c))), NetOut, k);
    assert s1.tasks == s.tasks[x := s.tasks[x].(container := Some(c))];
    EndTells(s1, 0, x, Periodic(0, 0), h);
    ReachesSelf(s);
    ReachesNext(s, s, a);
    r := Next(s, a);
    SameTold(s, s1, x, h, r);
    EndsWorkable(s, NetOut, k, r, x, h, keep);
  }

  /** A task that is in hand and nowhere else may change its record. */
  lemma StaysWorkable(s: State, w: Wid, x: Tid, r: State, keep: Keep)
    requires Workable(s) && OnlyAt(s, x, Hand(w), 0) && r.queues == s.queues && r.heap == s.heap && r.events == s.events
    requires x in s.tasks && x in r.tasks && r.tasks == s.tasks[x := r.tasks[x]] && SameStatic(s.tasks[x], r.tasks[x])
    requires r.tasks[x].complete == s.tasks[x].complete
    requires r.tasks[x].phase == Ready || (r.tasks[x].phase == Running && r.tasks[x].container.Some?)
    ensures Workable(r) && Calm(s, r, keep) && OnlyAt(r, x, Hand(w), 0)
  {
    assert forall q :: Q(r, q) == Q(s, q);
    assert forall v :: E(r, v) == E(s, v);
    forall q, u | u in Q(r, q) ensures EntryFits(r, q, u) { assert EntryFits(s, q, u); }
    assert x in Q(s, Hand(w));
    forall u | u in keep.sleepers && Asleep(s, u) ensures Asleep(r, u) && Still(s.tasks[u], r.tasks[u]) {
      assert u != x;
      assert !Queued(r, u);
    }
  }

  lemma TakenWorkable(s: State, w: Wid, q: Queue, x: Tid, r: State, keep: Keep)
    requires Workable(s) && OnlyAt(s, x, q, 0) && q != Hand(w) && Taken(s, w, q, r)
    ensures Workable(r) && Calm(s, r, keep) && OnlyAt(r, x, Hand(w), 0)
  {
    TakenQueue(s, w, q, r);
    assert forall v :: E(r, v) == E(s, v);
    assert Q(s, q)[1..] == Q(s, q)[0 + 1..];
    forall p, i | 0 <= i < |Q(r, p)| && (p != Hand(w) || i != 0) ensures Q(r, p)[i] != x {
      if p == q { assert Q(r, p)[i] == Q(s, q)[i + 1]; }
    }
    forall p, u | u in Q(r, p) ensures EntryFits(r, p, u) && (u != x ==> u in Q(s, p)) {
      if u != x { assert u in Q(s, p) && EntryFits(s, p, u); }
    }
    assert x in Q(s, q);
    forall u | u in keep.sleepers && Asleep(s, u) ensures Asleep(r, u) && Still(s.tasks[u], r.tasks[u]) {
      assert u != x;
      assert !Queued(r, u);
    }
  }

  /** A task in hand that is not running yet runs and ends. */
  lemma FinishReady(s: State, w: Wid, x: Tid, h: Tid, keep: Keep) returns (r: State)
    requires Workable(s) && OnlyAt(s, x, Hand(w), 0) && Tells(s, x, h) && s.tasks[x].phase == Ready
    ensures Reaches(s, r) && Workable(r) && Calm(s, r, keep) && Told(s, x, h, r)
  {
    hide Reaches, Told, Calm, Asleep;
    HoldsOne(s, w);
    hide Workable;
    var s1 := Routed(s, w);
    StaysWorkable(s, w, x, s1, keep);
    var s2 := RunsHere(s1, w);
    ReachesOn(s, s1, s2);
    StaysWorkable(s1, w, x, s2, keep);
    CalmOn(s, s1, s2, keep);
    r := FinishHeld(s2, w, x, h, keep);
    ReachesOn(s, s2, r);
    CalmOn(s, s2, r, keep);
    SameTold(s, s2, x, h, r);
  }

  lemma Routed(s: State, w: Wid) returns (r: State)
    requires HasInHand(s, w, Ready)
    ensures Reaches(s, r) && HasInHand(r, w, Ready)
    ensures var t := Held(s, w);
            && t in r.tasks && r.tasks == s.tasks[t := r.tasks[t]] && SameStatic(s.tasks[t], r.tasks[t])
            && r.tasks[t].routed && r.tasks[t].complete == s.tasks[t].complete && r.tasks[t].worker == s.tasks[t].worker
    ensures r.heap == s.heap && r.events == s.events && r.queues == s.queues
  {
    hide Reaches;
    ReachesSelf(s);
    if s.tasks[Held(s, w)].routed {
      r := s;
    } else {
      var c := Unused(s.plugged);
      r := Next(s, RouteLocal(w, c, w));
      ReachesNext(s, s, RouteLocal(w, c, w));
    }
  }

  /** Where a task must be, to be started or ended from there. */
  predicate Startable(s: State, x: Tid, q: Queue) {
    x in s.tasks && (if s.tasks[x].phase == Running then q.Hand? else s.tasks[x].phase == Ready && !q.NetReply?)
  }

  /** Any queued task can be brought to its end, its event queued for its parent. */
  lemma Finish(s: State, x: Tid, q: Queue, k: nat, h: Tid, keep: Keep) returns (r: State)
    requires Workable(s) && OnlyAt(s, x, q, k) && Startable(s, x, q) && Tells(s, x, h)
    requires h in keep.sleepers && Asleep(s, h)
    ensures Reaches(s, r) && Workable(r) && Calm(s, r, keep) && Told(s, x, h, r)
  {
    hide Reaches, Told, Asleep;
    if q.NetOut? {
      r := FinishSent(s, k, x, h, keep);
    } else if q.Hand? {
      HandFirst(s, q.w, x, k);
      if s.tasks[x].phase == Running {
        r := FinishHeld(s, q.w, x, h, keep);
      } else {
        r := FinishReady(s, q.w, x, h, keep);
      }
    } else {
      var s1 := Release(s, q.w, keep);
      StillOnly(s, q.w, q, x, k, s1);
      var s2 := ToFront(s1, q.w, q, x, k, keep);
      ReachesOn(s, s1, s2);
      CalmOn(s, s1, s2, keep);
      r := FinishFront(s2, q.w, q, x, h, keep);
      ReachesOn(s, s2, r);
      CalmOn(s, s2, r, keep);
      TellsSame(s, s2, x, h, keep, r);
    }
  }

  lemma HandFirst(s: State, w: Wid, x: Tid, k: nat)
    requires Workable(s) && OnlyAt(s, x, Hand(w), k)
    ensures k == 0
  {}

  lemma StillOnly(s: State, w: Wid, q: Queue, x: Tid, k: nat, r: State)
    requires OnlyAt(s, x, q, k) && !q.Hand? && Q(r, Hand(w)) == []
    requires forall p :: p != Hand(w) ==> Q(r, p) == Q(s, p)
    ensures OnlyAt(r, x, q, k) && x !in Q(s, Hand(w))
  {}

  lemma TellsSame(s: State, s2: State, x: Tid, h: Tid, keep: Keep, r: State)
    requires Tells(s, x, h) && Calm(s, s2, keep) && h in keep.sleepers && Asleep(s, h)
    requires s2.events == s.events && Told(s2, x, h, r)
    ensures Told(s, x, h, r)
  {
    SameTold(s, s2, x, h, r);
  }

  lemma FinishFront(s: State, w: Wid, q: Queue, x: Tid, h: Tid, keep: Keep) returns (r: State)
    requires Workable(s) && OfWorker(q, w) && OnlyAt(s, x, q, 0) && Q(s, Hand(w)) == [] && Tells(s, x, h)
    requires s.tasks[x].phase == Ready && h in keep.sleepers && Asleep(s, h)
    ensures Reaches(s, r) && Workable(r) && Calm(s, r, keep) && Told(s, x, h, r)
  {
    hide Reaches, Told, Asleep, Workable, Calm;
    var s1: State;
    if q.Retry? {
      s1 := SkipRetry(s, w, keep);
      SentOnly(s, w, x, s1);
      r := FinishSent(s1, |Q(s, NetOut)|, x, h, keep);
      SameTold(s, s1, x, h, r);
    } else if q.Blocked? {
      var c := Unused(s.plugged);
      s1 := TakeBlocked(s, w, q.level, Some(c));
      TakenWorkable(s, w, q, x, s1, keep);
      r := FinishHeld(s1, w, x, h, keep);
      SameTold(s, s1, x, h, r);
    } else {
      s1 := TakeReady(s, w, q);
      TakenWorkable(s, w, q, x, s1, keep);
      r := FinishReady(s1, w, x, h, keep);
      SameTold(s, s1, x, h, r);
    }
    ReachesOn(s, s1, r);
    CalmOn(s, s1, r, keep);
  }

  lemma SentOnly(s: State, w: Wid, x: Tid, r: State)
    requires OnlyAt(s, x, Retry(w), 0)
    requires Q(r, Retry(w)) == Q(s, Retry(w))[1..] && Q(r, NetOut) == Q(s, NetOut) + [x]
    requires forall p :: p != Retry(w) && p != NetOut ==> Q(r, p) == Q(s, p)
    ensures OnlyAt(r, x, NetOut, |Q(s, NetOut)|)
  {
    forall p, i | 0 <= i < |Q(r, p)| && (p != NetOut || i != |Q(s, NetOut)|) ensures Q(r, p)[i] != x {
      if p == Retry(w) { assert Q(r, p)[i] == Q(s, Retry(w))[i + 1]; }
    }
  }

  // ----- events -----

  /** The pointer stored in the future of `f` leads to `g`. */
  predicate PointsTo(s: State, f: Tid, g: Tid) {
    && f in s.tasks && g in s.tasks
    && s.tasks[f].parentAddr.Some? && s.tasks[f].parentAddr.value in s.heap && s.heap[s.tasks[f].parentAddr.value] == g
  }

  /** ProcessEventQueue resumes a task it finds suspended or, having started, ready. */
  predicate Resumable(s: State, g: Tid, found: Option<Cid>) {
    && g in s.tasks && ExecContainer(s.tasks[g], found).Some?
    && ((s.tasks[g].phase.Waiting? && s.tasks[g].phase.child in s.tasks) || (s.tasks[g].phase == Ready && s.tasks[g].started))
  }

  predicate CanPop(s: State, w: Wid) { Q(s, Hand(w)) == [] && E(s, w) != [] && E(s, w)[0] in s.tasks }

  /** What one event leaves of the records, whatever it wakes. */
  ghost predicate Popped(s: State, w: Wid, r: State)
    requires CanPop(s, w)
  {
    && r.tasks.Keys == s.tasks.Keys && r.heap == s.heap && r.plugged == s.plugged
    && r.events == s.events[w := E(s, w)[1..]]
    && (forall t :: t in s.tasks ==> SameStatic(s.tasks[t], r.tasks[t]))
    && (forall t :: t in s.tasks && t != E(s, w)[0] ==> r.tasks[t].complete == s.tasks[t].complete)
    && r.tasks[E(s, w)[0]].complete
  }

  /** The first future of the queue, taken off it and complete. */
  function Completed(s: State, w: Wid): State
    requires CanPop(s, w)
  {
    Put(s, E(s, w)[0], s.tasks[E(s, w)[0]].(complete := true)).(events := s.events[w := E(s, w)[1..]])
  }

  /** ... and seen by the parent that awaits a subtask. */
  function Seen(s: State, w: Wid, g: Tid): State
    requires CanPop(s, w) && g in s.tasks && (s.tasks[g].phase.Waiting? ==> s.tasks[g].phase.child in s.tasks)
  {
    var s1 := Completed(s, w);
    var x := s.tasks[g];
    if x.phase.Waiting? then Put(s1, x.phase.child, s1.tasks[x.phase.child].(consumed := true)) else s1
  }

  lemma PopShape(s: State, w: Wid, g: Tid, found: Option<Cid>)
    requires CanPop(s, w) && PointsTo(s, E(s, w)[0], g)
    ensures !Resumable(s, g, found) ==> DoPopEvent(s, w, found) == Completed(s, w)
    ensures Resumable(s, g, found) ==>
              ExecContainer(Seen(s, w, g).tasks[g], found).Some?
              && DoPopEvent(s, w, found) == Push(Enter(Seen(s, w, g), w, g, found, 0.0, true), Hand(w), g)
  {
    hide Enter, Push;
  }

  /** An event that finds nothing to resume only completes its future. */
  lemma PopNothing(s: State, w: Wid, found: Option<Cid>)
    requires CanPop(s, w) && forall g :: PointsTo(s, E(s, w)[0], g) ==> !Resumable(s, g, found)
    ensures var r := DoPopEvent(s, w, found);
            && Popped(s, w, r) && r.queues == s.queues
            && (forall t :: t in s.tasks ==> Still(s.tasks[t], r.tasks[t]) && r.tasks[t].consumed == s.tasks[t].consumed)
  {
    hide Resumable;
    var pa := s.tasks[E(s, w)[0]].parentAddr;
    if pa.Some? && pa.value in s.heap && s.heap[pa.value] in s.tasks {
      PopShape(s, w, s.heap[pa.value], found);
    }
    CompletedFacts(s, w);
  }

  lemma CompletedFacts(s: State, w: Wid)
    requires CanPop(s, w)
    ensures var r := Completed(s, w);
            && Popped(s, w, r) && r.queues == s.queues
            && (forall t :: t in s.tasks ==> Still(s.tasks[t], r.tasks[t]) && r.tasks[t].consumed == s.tasks[t].consumed)
  {}

  lemma SeenFacts(s: State, w: Wid, g: Tid)
    requires CanPop(s, w) && g in s.tasks && (s.tasks[g].phase.Waiting? ==> s.tasks[g].phase.child in s.tasks)
    ensures var r := Seen(s, w, g);
            && Popped(s, w, r) && r.queues == s.queues && (forall t :: t in s.tasks ==> Still(s.tasks[t], r.tasks[t]))
            && (s.tasks[g].phase.Waiting? ==> r.tasks[s.tasks[g].phase.child].consumed)
            && (forall t :: t in s.tasks && s.tasks[g].phase != Waiting(t) ==> r.tasks[t].consumed == s.tasks[t].consumed)
  {
    hide Completed, E, SameStatic, Still;
    CompletedFacts(s, w);
    if s.tasks[g].phase.Waiting? {
      var s1 := Completed(s, w);
      var c := s.tasks[g].phase.child;
      forall t | t in s.tasks ensures SameStatic(s.tasks[t], Seen(s, w, g).tasks[t]) && Still(s.tasks[t], Seen(s, w, g).tasks[t]) {
        MarkKeeps(s.tasks[t], s1.tasks[t]);
      }
    }
  }

  lemma MarkKeeps(x: Task, y: Task)
    requires SameStatic(x, y) && Still(x, y)
    ensures SameStatic(x, y.(consumed := true)) && Still(x, y.(consumed := true))
  {}

  /** ... and one that does puts it in hand, its awaited subtask consumed. */
  lemma PopResumes(s: State, w: Wid, g: Tid, found: Option<Cid>)
    requires CanPop(s, w) && PointsTo(s, E(s, w)[0], g) && Resumable(s, g, found)
    ensures var r := DoPopEvent(s, w, found);
            && Popped(s, w, r) && r.queues == Push(s, Hand(w), g).queues
            && (forall t :: t in s.tasks && t != g ==> Still(s.tasks[t], r.tasks[t]))
            && r.tasks[g].phase == Running && r.tasks[g].container == ExecContainer(s.tasks[g], found) && r.tasks[g].worker == s.tasks[g].worker
            && (s.tasks[g].phase.Waiting? ==> r.tasks[s.tasks[g].phase.child].consumed)
            && (forall t :: t in s.tasks && s.tasks[g].phase != Waiting(t) ==> r.tasks[t].consumed == s.tasks[t].consumed)
  {
    hide DoPopEvent, Enter, Seen, E, Still, SameStatic, Entered;
    PopShape(s, w, g, found);
    SeenFacts(s, w, g);
    EnterRecord(Seen(s, w, g), w, g, found, 0.0, true);
    ResumeKeeps(s.tasks[g], Seen(s, w, g).tasks[g], found);
  }

  lemma ResumeKeeps(x: Task, y: Task, found: Option<Cid>)
    requires SameStatic(x, y) && Still(x, y) && ExecContainer(x, found).Some?
    ensures var z := Entered(y, found, 0.0, true);
            && SameStatic(x, z) && z.phase == Running && z.container == ExecContainer(x, found) && z.worker == x.worker
            && z.complete == y.complete && z.consumed == y.consumed
  {}

  lemma PopReaches(s: State, w: Wid, r: State)
    requires CanPop(s, w) && r == DoPopEvent(s, w, None) && r.plugged == s.plugged
    ensures Reaches(s, r)
  {
    hide DoPopEvent, Reaches;
    ReachesSelf(s);
    ReachesNext(s, s, PopEvent(w, None));
  }

  lemma PoppedEvents(s: State, w: Wid, r: State)
    requires CanPop(s, w) && Popped(s, w, r)
    ensures forall v :: E(r, v) == if v == w then E(s, w)[1..] else E(s, v)
    ensures Workable(s) ==> forall v, f :: f in E(r, v) ==> f in s.tasks
  {
    forall v, f | f in E(r, v) ensures f in E(s, v) {}
  }

  /** An event for nobody in `keep` goes by: whoever it wakes is dropped again. */
  lemma PopOther(s: State, w: Wid, keep: Keep) returns (r: State)
    requires Workable(s) && CanPop(s, w) && keep.spared != Some(E(s, w)[0])
    requires forall g :: PointsTo(s, E(s, w)[0], g) ==> g !in keep.sleepers
    ensures Reaches(s, r) && Workable(r) && Calm(s, r, keep) && Q(r, Hand(w)) == []
    ensures forall v :: E(r, v) == if v == w then E(s, w)[1..] else E(s, v)
  {
    hide Reaches, Asleep, Calm, Workable, DoPopEvent, Still, Resumable;
    if g :| PointsTo(s, E(s, w)[0], g) && Resumable(s, g, None) {
      r := PopAndDrop(s, w, g, keep);
    } else {
      r := PopInVain(s, w, keep);
    }
  }

  lemma PopAndDrop(s: State, w: Wid, g: Tid, keep: Keep) returns (r: State)
    requires Workable(s) && CanPop(s, w) && keep.spared != Some(E(s, w)[0])
    requires PointsTo(s, E(s, w)[0], g) && Resumable(s, g, None) && g !in keep.sleepers
    ensures Reaches(s, r) && Workable(r) && Calm(s, r, keep) && Q(r, Hand(w)) == []
    ensures forall v :: E(r, v) == if v == w then E(s, w)[1..] else E(s, v)
  {
    hide Reaches, Asleep, Calm, Workable, DoPopEvent, Still, SameStatic;
    PopResumes(s, w, g, None);
    var s1 := DoPopEvent(s, w, None);
    PopReaches(s, w, s1);
    PushedAlone(s, w, g, s1);
    r := Released(s1, w);
    ReachesOn(s, s1, r);
    PoppedEvents(s, w, s1);
    assert forall v :: E(r, v) == E(s1, v);
    StaticOn(s, s1, r);
    PutBack(s, s1, w, g, r, keep);
  }

  lemma PushedAlone(s: State, w: Wid, g: Tid, r: State)
    requires Q(s, Hand(w)) == [] && r.queues == Push(s, Hand(w), g).queues
    ensures Q(r, Hand(w)) == [g]
  {}

  lemma StaticOn(s: State, s1: State, r: State)
    requires r.tasks.Keys == s1.tasks.Keys == s.tasks.Keys
    requires forall t :: t in s.tasks ==> SameStatic(s.tasks[t], s1.tasks[t])
    requires forall t :: t in s.tasks ==> SameStatic(s1.tasks[t], r.tasks[t]) || r.tasks[t] == s1.tasks[t]
    ensures forall t :: t in s.tasks ==> SameStatic(s.tasks[t], r.tasks[t])
  {}

  lemma PopInVain(s: State, w: Wid, keep: Keep) returns (r: State)
    requires Workable(s) && CanPop(s, w) && keep.spared != Some(E(s, w)[0])
    requires forall g :: PointsTo(s, E(s, w)[0], g) ==> !Resumable(s, g, None)
    ensures Reaches(s, r) && Workable(r) && Calm(s, r, keep) && Q(r, Hand(w)) == []
    ensures forall v :: E(r, v) == if v == w then E(s, w)[1..] else E(s, v)
  {
    hide Reaches, Asleep, Calm, Workable, DoPopEvent, Still, Resumable;
    r := DoPopEvent(s, w, None);
    PopNothing(s, w, None);
    PopReaches(s, w, r);
    PoppedEvents(s, w, r);
    StillWorkable(s, r, keep);
  }

  lemma StillWorkable(s: State, r: State, keep: Keep)
    requires Workable(s) && r.queues == s.queues && r.tasks.Keys == s.tasks.Keys && r.heap == s.heap
    requires forall t :: t in s.tasks ==> SameStatic(s.tasks[t], r.tasks[t]) && Still(s.tasks[t], r.tasks[t])
    requires forall t :: t in s.tasks && keep.spared == Some(t) ==> r.tasks[t].complete == s.tasks[t].complete
    requires forall v, f :: f in E(r, v) ==> f in s.tasks
    ensures Workable(r) && Calm(s, r, keep)
  {
    assert forall q :: Q(r, q) == Q(s, q);
    forall q, u | u in Q(r, q) ensures EntryFits(r, q, u) { assert EntryFits(s, q, u); }
    assert forall u :: Queued(r, u) ==> Queued(s, u);
  }

  lemma PutBack(s: State, s1: State, w: Wid, g: Tid, r: State, keep: Keep)
    requires Workable(s) && Q(s, Hand(w)) == [] && s1.queues == Push(s, Hand(w), g).queues
    requires r.queues == Drop(s1, Hand(w), 0).queues && r.tasks.Keys == s.tasks.Keys && r.heap == s.heap
    requires g in s.tasks && g !in keep.sleepers && r.tasks[g].phase == Ready
    requires forall t :: t in s.tasks ==> SameStatic(s.tasks[t], r.tasks[t]) && (t != g ==> Still(s.tasks[t], r.tasks[t]))
    requires forall t :: t in s.tasks && keep.spared == Some(t) ==> r.tasks[t].complete == s.tasks[t].complete
    requires forall v, f :: f in E(r, v) ==> f in s.tasks
    ensures Workable(r) && Calm(s, r, keep) && Q(r, Hand(w)) == []
  {
    assert forall q :: Q(r, q) == Q(s, q);
    forall q, u | u in Q(r, q) ensures EntryFits(r, q, u) { assert EntryFits(s, q, u); }
    assert forall u :: Queued(r, u) ==> Queued(s, u);
  }

  lemma CalmLess(s: State, r: State, keep: Keep, g: Tid)
    requires Calm(s, r, keep)
    ensures Calm(s, r, Keep(keep.sleepers - {g}, keep.spared))
  {
    hide Asleep;
  }

  /** The event of `g`'s subtask wakes it and nothing else. */
  lemma Wake(s: State, w: Wid, g: Tid, keep: Keep) returns (r: State)
    requires Workable(s) && CanPop(s, w) && keep.spared != Some(E(s, w)[0])
    requires PointsTo(s, E(s, w)[0], g) && Asleep(s, g)
    ensures Reaches(s, r) && Workable(r) && Calm(s, r, Keep(keep.sleepers - {g}, keep.spared))
    ensures g in r.tasks && r.tasks[g].phase == Running && r.tasks[g].container == s.tasks[g].container && OnlyAt(r, g, Hand(w), 0)
    ensures s.tasks[g].phase.child in r.tasks && r.tasks[s.tasks[g].phase.child].consumed
    ensures forall v :: E(r, v) == if v == w then E(s, w)[1..] else E(s, v)
  {
    hide Reaches, Workable, DoPopEvent, Still, Calm, OnlyAt;
    PopResumes(s, w, g, None);
    r := DoPopEvent(s, w, None);
    PopReaches(s, w, r);
    PoppedEvents(s, w, r);
    WokenWorkable(s, w, g, r, Keep(keep.sleepers - {g}, keep.spared));
  }

  lemma WokenWorkable(s: State, w: Wid, g: Tid, r: State, keep: Keep)
    requires Workable(s) && Asleep(s, g) && Q(s, Hand(w)) == [] && r.queues == Push(s, Hand(w), g).queues
    requires r.tasks.Keys == s.tasks.Keys && r.heap == s.heap && g !in keep.sleepers
    requires r.tasks[g].phase == Running && r.tasks[g].container.Some?
    requires forall t :: t in s.tasks ==> SameStatic(s.tasks[t], r.tasks[t]) && (t != g ==> Still(s.tasks[t], r.tasks[t]))
    requires forall t :: t in s.tasks && keep.spared == Some(t) ==> r.tasks[t].complete == s.tasks[t].complete
    requires forall v, f :: f in E(r, v) ==> f in s.tasks
    ensures Workable(r) && Calm(s, r, keep) && OnlyAt(r, g, Hand(w), 0)
  {
    assert Q(r, Hand(w)) == [g];
    assert forall q :: q != Hand(w) ==> Q(r, q) == Q(s, q);
    forall q, u | u in Q(r, q) ensures EntryFits(r, q, u) {
      if q != Hand(w) { assert EntryFits(s, q, u) && Queued(s, u); }
    }
    forall p, i | 0 <= i < |Q(r, p)| && (p != Hand(w) || i != 0) ensures Q(r, p)[i] != g {
      assert Q(r, p)[i] in Q(s, p);
    }
    assert forall u :: u != g && Queued(r, u) ==> Queued(s, u);
  }

  /** Events are processed until one wakes a sleeper; entry `m` does at the latest. */
  lemma {:induction false} PopUntil(s: State, w: Wid, m: nat, h: Tid, keep: Keep) returns (r: State, g: Tid)
    requires Workable(s) && Q(s, Hand(w)) == [] && m < |E(s, w)|
    requires h in keep.sleepers && PointsTo(s, E(s, w)[m], h)
    requires forall t :: t in keep.sleepers ==> Asleep(s, t)
    requires keep.spared.Some? ==> keep.spared.value !in E(s, w)[..m + 1]
    ensures Reaches(s, r) && Workable(r) && g in keep.sleepers && Asleep(s, g) && Calm(s, r, Keep(keep.sleepers - {g}, keep.spared))
    ensures g in r.tasks && r.tasks[g].phase == Running && r.tasks[g].container == s.tasks[g].container && OnlyAt(r, g, Hand(w), 0)
    ensures s.tasks[g].phase.child in r.tasks && r.tasks[s.tasks[g].phase.child].consumed
    ensures forall v, f :: f in E(r, v) ==> f in E(s, v)
    decreases m
  {
    hide Reaches, Calm, OnlyAt;
    assert E(s, w)[0] in E(s, w)[..m + 1] && E(s, w)[0] in E(s, w);
    assert CanPop(s, w);
    hide Workable, Asleep;
    if t :| t in keep.sleepers && PointsTo(s, E(s, w)[0], t) {
      g := t;
      r := Wake(s, w, g, keep);
    } else {
      var s1 := PopOther(s, w, keep);
      LaterEvent(s, w, m, h, keep, s1);
      r, g := PopUntil(s1, w, m - 1, h, keep);
      ReachesOn(s, s1, r);
      SleepersStill(s, s1, keep, g);
      CalmLess(s, s1, keep, g);
      CalmOn(s, s1, r, Keep(keep.sleepers - {g}, keep.spared));
    }
  }

  lemma SleepersStill(s: State, r: State, keep: Keep, g: Tid)
    requires Calm(s, r, keep) && g in keep.sleepers && Asleep(s, g)
    ensures Asleep(r, g) && r.tasks[g].phase == s.tasks[g].phase && r.tasks[g].container == s.tasks[g].container
    ensures r.tasks[g].worker == s.tasks[g].worker
  {}

  lemma LaterEvent(s: State, w: Wid, m: nat, h: Tid, keep: Keep, r: State)
    requires 0 < m < |E(s, w)| && E(r, w) == E(s, w)[1..] && Calm(s, r, keep) && PointsTo(s, E(s, w)[m], h)
    requires forall t :: t in keep.sleepers ==> Asleep(s, t)
    requires keep.spared.Some? ==> keep.spared.value !in E(s, w)[..m + 1]
    ensures m - 1 < |E(r, w)| && PointsTo(r, E(r, w)[m - 1], h)
    ensures keep.spared.Some? ==> keep.spared.value !in E(r, w)[..m]
    ensures forall t :: t in keep.sleepers ==> Asleep(r, t)
  {
    hide Asleep;
    assert E(r, w)[m - 1] == E(s, w)[m];
    assert E(r, w)[..m] == E(s, w)[..m + 1][1..];
  }

  // ----- chains of awaited subtasks -----

  /** Each task of `xs` but the last is suspended, and each but the first will tell the
      one before it. */
  ghost predicate Chain(s: State, xs: seq<Tid>) {
    && |xs| >= 1
    && (forall i :: 0 <= i < |xs| - 1 ==> Asleep(s, xs[i]))
    && (forall i, j :: 0 <= i < j < |xs| ==> xs[i] != xs[j])
    && (forall i :: 0 < i < |xs| ==> Tells(s, xs[i], xs[i - 1]))
  }

  ghost predicate PlacedToStart(s: State, x: Tid) {
    exists q, k: nat {:trigger OnlyAt(s, x, q, k)} :: OnlyAt(s, x, q, k) && Startable(s, x, q)
  }

  /** `x` can be brought to its end, or has ended and its event is waiting. */
  ghost predicate Movable(s: State, x: Tid, h: Tid)
    requires h in s.tasks
  {
    PlacedToStart(s, x) || x in E(s, s.tasks[h].worker)
  }

  function Sleepers(xs: seq<Tid>): set<Tid>
    requires |xs| >= 1
  {
    set i | 0 <= i < |xs| - 1 :: xs[i]
  }

  /** The last task of a chain can be made to end and its event to be queued. */
  lemma EndLast(s: State, xs: seq<Tid>, spared: Option<Tid>) returns (r: State, m: nat)
    requires Workable(s) && Chain(s, xs) && |xs| >= 2 && Movable(s, xs[|xs| - 1], xs[|xs| - 2])
    requires spared.Some? ==> spared.value !in xs && forall v :: spared.value !in E(s, v)
    ensures Reaches(s, r) && Workable(r) && Calm(s, r, Keep(Sleepers(xs), spared))
    ensures var w := s.tasks[xs[|xs| - 2]].worker; Q(r, Hand(w)) == [] && m < |E(r, w)| && E(r, w)[m] == xs[|xs| - 1]
    ensures spared.Some? ==> forall v :: spared.value !in E(r, v)
  {
    hide Reaches, Calm, Workable, Asleep;
    var keep := Keep(Sleepers(xs), spared);
    var x, h := xs[|xs| - 1], xs[|xs| - 2];
    var w := s.tasks[h].worker;
    var s1 := s;
    if PlacedToStart(s, x) {
      var q, k: nat :| OnlyAt(s, x, q, k) && Startable(s, x, q);
      s1 := Finish(s, x, q, k, h, keep);
    } else {
      ReachesSelf(s);
      CalmSelf(s, keep);
    }
    assert x in E(s1, w);
    r := Release(s1, w, keep);
    assert forall v :: E(r, v) == E(s1, v);
    m :| 0 <= m < |E(r, w)| && E(r, w)[m] == x;
    ReachesOn(s, s1, r);
    CalmOn(s, s1, r, keep);
  }

  lemma ChainStill(s: State, xs: seq<Tid>, r: State, j: nat, keep: Keep)
    requires Chain(s, xs) && j < |xs| - 1 && Calm(s, r, keep) && forall i :: 0 <= i < j ==> xs[i] in keep.sleepers
    ensures Chain(r, xs[..j + 1])
  {
    hide Asleep;
    forall i | 0 <= i < j ensures Asleep(r, xs[i]) { assert Asleep(s, xs[i]); }
    forall i | 0 < i < j + 1 ensures Tells(r, xs[i], xs[i - 1]) { assert Tells(s, xs[i], xs[i - 1]); }
  }

  /** Some sleeper of the chain can be woken. */
  lemma WakeSome(s: State, xs: seq<Tid>, spared: Option<Tid>) returns (r: State, j: nat)
    requires Workable(s) && Chain(s, xs) && |xs| >= 2 && Movable(s, xs[|xs| - 1], xs[|xs| - 2])
    requires spared.Some? ==> spared.value !in xs && forall v :: spared.value !in E(s, v)
    ensures j < |xs| - 1 && Asleep(s, xs[j])
    ensures Reaches(s, r) && Workable(r) && Calm(s, r, Keep(Sleepers(xs) - {xs[j]}, spared))
    ensures Roused(s, xs[j], r) && PlacedToStart(r, xs[j])
    ensures spared.Some? ==> forall v :: spared.value !in E(r, v)
  {
    hide Reaches, Workable, Asleep, OnlyAt;
    var keep := Keep(Sleepers(xs), spared);
    var h := xs[|xs| - 2];
    var w := s.tasks[h].worker;
    var s1, m := EndLast(s, xs, spared);
    assert h in keep.sleepers;
    forall t | t in keep.sleepers ensures Asleep(s, t) && Asleep(s1, t) {}
    LastPoints(s, xs, s1, keep, E(s1, w)[m]);
    var g: Tid;
    r, g := PopUntil(s1, w, m, h, keep);
    j :| 0 <= j < |xs| - 1 && xs[j] == g;
    assert Startable(r, g, Hand(w));
    ReachesOn(s, s1, r);
    SleepersStill(s, s1, keep, g);
    CalmLess(s, s1, keep, g);
    CalmOn(s, s1, r, Keep(keep.sleepers - {g}, spared));
  }

  /** `g` was suspended and now runs, its subtask consumed. */
  predicate Roused(s: State, g: Tid, r: State) {
    && g in s.tasks && s.tasks[g].phase.Waiting?
    && g in r.tasks && r.tasks[g].phase == Running && r.tasks[g].container == s.tasks[g].container
    && s.tasks[g].phase.child in r.tasks && r.tasks[s.tasks[g].phase.child].consumed
  }

  lemma LastPoints(s: State, xs: seq<Tid>, r: State, keep: Keep, f: Tid)
    requires Chain(s, xs) && |xs| >= 2 && Calm(s, r, keep) && f == xs[|xs| - 1]
    ensures PointsTo(r, f, xs[|xs| - 2])
  {
    hide Asleep;
    assert Tells(s, f, xs[|xs| - 2]);
  }

  lemma ShorterChain(s: State, xs: seq<Tid>, r: State, j: nat, spared: Option<Tid>)
    requires Chain(s, xs) && 0 < j < |xs| - 1 && Calm(s, r, Keep(Sleepers(xs) - {xs[j]}, spared)) && PlacedToStart(r, xs[j])
    ensures Chain(r, xs[..j + 1]) && xs[j - 1] in r.tasks && Movable(r, xs[j], xs[j - 1])
    ensures xs[0] in s.tasks && xs[0] in r.tasks
    ensures r.tasks[xs[0]].phase == s.tasks[xs[0]].phase && r.tasks[xs[0]].container == s.tasks[xs[0]].container
  {
    hide Asleep, PlacedToStart;
    var keep := Keep(Sleepers(xs) - {xs[j]}, spared);
    forall i | 0 <= i < j ensures xs[i] in keep.sleepers {}
    ChainStill(s, xs, r, j, keep);
    assert Tells(s, xs[j], xs[j - 1]);
    SleepersStill(s, r, keep, xs[0]);
  }

  /** The head of an intact chain can be woken, on its own container and with the subtask
      it waits for consumed, while `spared` does not become complete. */
  lemma {:induction false} Rouse(s: State, xs: seq<Tid>, spared: Option<Tid>) returns (r: State)
    requires Workable(s) && Chain(s, xs) && |xs| >= 2 && Movable(s, xs[|xs| - 1], xs[|xs| - 2])
    requires spared.Some? ==> spared.value !in xs && spared.value in s.tasks && forall v :: spared.value !in E(s, v)
    ensures Reaches(s, r) && Roused(s, xs[0], r)
    ensures spared.Some? ==> spared.value in r.tasks && r.tasks[spared.value].complete == s.tasks[spared.value].complete
    decreases |xs|
  {
    hide Reaches, Workable, Asleep, Chain, Movable, PlacedToStart, Calm, Roused;
    var s1, j := WakeSome(s, xs, spared);
    CalmSpares(s, s1, Keep(Sleepers(xs) - {xs[j]}, spared));
    if j == 0 {
      r := s1;
    } else {
      ShorterChain(s, xs, s1, j, spared);
      r := Rouse(s1, xs[..j + 1], spared);
      ReachesOn(s, s1, r);
      RousedOn(s, s1, xs[0], r);
    }
  }

  lemma CalmSpares(s: State, r: State, keep: Keep)
    requires Calm(s, r, keep)
    ensures r.tasks.Keys == s.tasks.Keys
    ensures keep.spared.Some? && keep.spared.value in s.tasks ==>
              r.tasks[keep.spared.value].complete == s.tasks[keep.spared.value].complete
  {}

  lemma RousedOn(s: State, s1: State, g: Tid, r: State)
    requires Roused(s1, g, r) && g in s.tasks && g in s1.tasks
    requires s1.tasks[g].phase == s.tasks[g].phase && s1.tasks[g].container == s.tasks[g].container
    ensures Roused(s, g, r)
  {}
}
