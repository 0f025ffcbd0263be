/** The completion protocol between a subtask and the coroutine that awaits it.

    EndTask puts the subtask's future in the event queue of its parent's worker and
    leaves FUTURE_COMPLETE alone; ProcessEventQueue sets it and resumes the parent
    through the RunContext pointer kept in the future.  `Inv` is what every action
    keeps; `EventsAreLive` is the claim the code's comments argue for.
 */
module Completion {
  import opened Sums
  import opened Scheduler
  import opened Conservation

  // ----- the invariant -----

  predicate Done(x: Task) { x.phase.Ended? || x.phase.Rejected? }

  /** What one task's record says on its own. */
  predicate RecordOk(x: Task) {
    && (x.consumed ==> x.complete)
    && (x.complete ==> Done(x))
    && (x.complete && x.parent.Some? ==> x.consumed)
    && (x.freed ==> Done(x))
    && (x.phase.Running? || x.phase.Waiting? ==> x.container.Some? && x.started)
    && (x.started ==> x.container.Some?)
    && (x.parent.Some? ==> x.reply.ToFuture? && !x.periodic)
    && (x.parent.None? <==> x.parentAddr.None?)
    && (x.phase.Replying? ==> x.parent.None?)
    && (x.phase.Rejected? ==> x.parent.None?)
  }

  ghost predicate RecordsOk(s: State) { forall t :: t in s.tasks ==> RecordOk(s.tasks[t]) }

  /** A task that is not freed lives at its address, alone. */
  ghost predicate HeapOk(s: State) {
    && (forall t :: t in s.tasks && !s.tasks[t].freed ==> s.tasks[t].addr in s.heap && s.heap[s.tasks[t].addr] == t)
    && (forall a :: a in s.heap ==> s.heap[a] in s.tasks && s.tasks[s.heap[a]].addr == a && !s.tasks[s.heap[a]].freed)
  }

  ghost predicate LineageOk(s: State) {
    forall t :: t in s.tasks && s.tasks[t].parent.Some? ==>
      s.tasks[t].parent.value in s.tasks && s.tasks[t].parentAddr == Some(s.tasks[s.tasks[t].parent.value].addr)
  }

  /** A task with an outstanding subtask runs, or waits for exactly that subtask. */
  ghost predicate AwaitOk(s: State) {
    && (forall p, c :: Outstanding(s, p, c) ==> p in s.tasks && (s.tasks[p].phase == Running || s.tasks[p].phase == Waiting(c)))
    && (forall p :: p in s.tasks && s.tasks[p].phase.Waiting? ==>
          Outstanding(s, p, s.tasks[p].phase.child) && !s.tasks[s.tasks[p].phase.child].complete)
  }

  /** Ended, and its parent's worker has not yet been told. */
  predicate Pending(s: State, f: Tid) {
    && f in s.tasks && s.tasks[f].phase.Ended? && !s.tasks[f].complete
    && s.tasks[f].parent.Some? && !s.tasks[f].fireAndForget
  }

  /** Every pending subtask has exactly one event, on its parent's worker, and there is
      no other event. */
  ghost predicate EventsOk(s: State) {
    && (forall f :: Total(s.events, f) == if Pending(s, f) then 1 else 0)
    && (forall w, f :: f in E(s, w) ==>
          f in s.tasks && s.tasks[f].parent.Some? && s.tasks[f].parent.value in s.tasks
          && s.tasks[s.tasks[f].parent.value].worker == w)
  }

  predicate EntryOk(s: State, q: Queue, t: Tid) {
    && t in s.tasks
    && (match q
        case Hand(w) => s.tasks[t].worker == w && (s.tasks[t].phase == Ready || s.tasks[t].phase == Running)
        case Lane(_) => s.tasks[t].phase == Ready
        case NetOut => s.tasks[t].phase == Ready
        case NetReply => s.tasks[t].phase == Replying
        case Blocked(w, _) => s.tasks[t].phase == Ready && s.tasks[t].worker == w
        case Periodic(w, _) => s.tasks[t].phase == Ready && s.tasks[t].worker == w
        case Retry(w) => s.tasks[t].phase == Ready && s.tasks[t].worker == w)
    && (!q.Retry? && !q.NetOut? && s.tasks[t].routed ==> s.tasks[t].container.Some?)
  }

  ghost predicate QueuesOk(s: State) {
    && (forall q, t :: t in Q(s, q) ==> EntryOk(s, q, t))
    && (forall w :: |Q(s, Hand(w))| <= 1)
    && (forall t :: t in s.tasks && s.tasks[t].phase == Running ==> t in Q(s, Hand(s.tasks[t].worker)))
  }

  ghost predicate Inv(s: State) {
    Conserved(s) && RecordsOk(s) && HeapOk(s) && LineageOk(s) && AwaitOk(s) && EventsOk(s) && QueuesOk(s)
  }

  /** The popped future is not complete, the pointer in it still names its parent, and
      the parent is suspended on it, neither finished nor freed. */
  lemma EventsAreLive(s: State, w: Wid)
    requires Inv(s)
    requires Q(s, Hand(w)) == [] && E(s, w) != []
    ensures EventIsLive(s, w)
    ensures var f := E(s, w)[0];
            && !s.tasks[f].complete && s.tasks[f].parent.Some?
            && s.heap[s.tasks[f].parentAddr.value] == s.tasks[f].parent.value
            && !s.tasks[s.tasks[f].parent.value].freed
  {
    var f := E(s, w)[0];
    TotalAtLeast(s.events, w, f);
    assert Pending(s, f);
    var p := s.tasks[f].parent.value;
    assert RecordOk(s.tasks[f]) && RecordOk(s.tasks[p]);
    assert Outstanding(s, p, f);
    assert Q(s, Hand(s.tasks[p].worker)) == [];
  }

  // ----- how the parts survive a change of one task -----

  predicate SameStatic(x: Task, y: Task) {
    && x.parent == y.parent && x.parentAddr == y.parentAddr && x.addr == y.addr
    && x.fireAndForget == y.fireAndForget && x.reply == y.reply && x.periodic == y.periodic
  }

  lemma KinKeeps(s: State, r: State, t: Tid, y: Task)
    requires RecordsOk(s) && LineageOk(s) && AwaitOk(s)
    requires t in s.tasks && r.tasks == s.tasks[t := y] && SameStatic(s.tasks[t], y) && RecordOk(y)
    requires !y.phase.Waiting? && (AllConsumed(s, t) || y.phase == Running)
    requires y.consumed == s.tasks[t].consumed && (y.parent.Some? && !y.fireAndForget ==> y.complete == s.tasks[t].complete)
    ensures RecordsOk(r) && LineageOk(r) && AwaitOk(r)
  {
    forall p, c ensures Outstanding(r, p, c) <==> Outstanding(s, p, c) {}
  }

  lemma HeapKeeps(s: State, r: State, t: Tid, y: Task)
    requires HeapOk(s)
    requires t in s.tasks && r.tasks == s.tasks[t := y] && SameStatic(s.tasks[t], y) && s.tasks[t].freed == y.freed
    requires r.heap == s.heap
    ensures HeapOk(r)
  {}

  lemma HeapFrees(s: State, r: State, t: Tid, y: Task)
    requires HeapOk(s)
    requires t in s.tasks && r.tasks == s.tasks[t := y] && SameStatic(s.tasks[t], y) && !s.tasks[t].freed && y.freed
    requires r.heap == s.heap - {y.addr}
    ensures HeapOk(r)
  {}

  /** No task without outstanding subtasks has a pending event. */
  lemma NoEventFor(s: State, p: Tid, w: Wid, f: Tid)
    requires EventsOk(s) && RecordsOk(s) && AllConsumed(s, p) && f in E(s, w)
    ensures s.tasks[f].parent != Some(p)
  {
    TotalAtLeast(s.events, w, f);
    assert Pending(s, f);
    assert RecordOk(s.tasks[f]);
    assert !Outstanding(s, p, f);
  }

  lemma EventsKeep(s: State, r: State, t: Tid, y: Task)
    requires EventsOk(s) && RecordsOk(s)
    requires t in s.tasks && r.tasks == s.tasks[t := y] && SameStatic(s.tasks[t], y)
    requires r.events == s.events
    requires Pending(s, t) <==> Pending(r, t)
    requires y.worker == s.tasks[t].worker || AllConsumed(s, t)
    ensures EventsOk(r)
  {
    forall f ensures Total(r.events, f) == if Pending(r, f) then 1 else 0 {
      assert Pending(r, f) <==> Pending(s, f);
    }
    forall w, f | f in E(r, w)
      ensures f in r.tasks && r.tasks[f].parent.Some? && r.tasks[f].parent.value in r.tasks
              && r.tasks[r.tasks[f].parent.value].worker == w
    {
      if AllConsumed(s, t) {
        NoEventFor(s, t, w, f);
      }
      assert f in E(s, w);
    }
  }

  /** An entry taken out is in no queue. */
  lemma NowhereAfterDrop(s: State, q: Queue, k: nat)
    requires Conserved(s) && k < |Q(s, q)|
    ensures forall r :: Q(s, q)[k] !in Q(Drop(s, q, k), r)
  {
    var t := Q(s, q)[k];
    QueuedOnce(s, q, t);
    DropTotals(s, q, k);
    forall r ensures t !in Q(Drop(s, q, k), r) {
      TotalAtLeast(Drop(s, q, k).queues, r, t);
    }
  }

  /** Same entries as far as `EntryOk` looks, except for `t`. */
  ghost predicate SameEntries(s: State, r: State, t: Tid) {
    forall u :: u != t && u in s.tasks ==>
      && u in r.tasks
      && r.tasks[u].phase == s.tasks[u].phase && r.tasks[u].worker == s.tasks[u].worker
      && r.tasks[u].routed == s.tasks[u].routed && r.tasks[u].container == s.tasks[u].container
      && r.tasks[u].started == s.tasks[u].started
  }

  lemma QueuesLeave(s: State, from: Queue, k: nat, r: State)
    requires Conserved(s) && QueuesOk(s) && k < |Q(s, from)|
    requires r.queues == Drop(s, from, k).queues
    requires SameEntries(s, r, Q(s, from)[k])
    requires Q(s, from)[k] in r.tasks && r.tasks.Keys == s.tasks.Keys && r.tasks[Q(s, from)[k]].phase != Running
    ensures QueuesOk(r)
  {
    var t := Q(s, from)[k];
    NowhereAfterDrop(s, from, k);
    forall q, u | u in Q(r, q) ensures EntryOk(r, q, u) {
      assert Q(r, q) == Q(Drop(s, from, k), q);
      assert u != t && u in Q(s, q);
    }
    forall w ensures |Q(r, Hand(w))| <= 1 { assert Q(r, Hand(w)) == Q(Drop(s, from, k), Hand(w)); }
    forall u | u in r.tasks && r.tasks[u].phase == Running ensures u in Q(r, Hand(r.tasks[u].worker)) {
      assert u in Q(s, Hand(s.tasks[u].worker));
      assert Q(r, Hand(s.tasks[u].worker)) == Q(Drop(s, from, k), Hand(s.tasks[u].worker));
    }
  }

  lemma QueuesArrive(s: State, t: Tid, to: Queue, r: State)
    requires QueuesOk(s)
    requires forall q :: t !in Q(s, q)
    requires t in s.tasks ==> s.tasks[t].phase != Running
    requires r.queues == Push(s, to, t).queues
    requires SameEntries(s, r, t) && r.tasks.Keys == s.tasks.Keys + {t}
    requires EntryOk(r, to, t) && (to.Hand? ==> Q(s, to) == []) && (r.tasks[t].phase == Running ==> to.Hand?)
    ensures QueuesOk(r)
  {
    forall q, u | u in Q(r, q) ensures EntryOk(r, q, u) {
      assert Q(r, q) == Q(Push(s, to, t), q);
      assert q != to ==> Q(r, q) == Q(s, q);
      assert u != t ==> u in Q(s, q);
    }
    forall w ensures |Q(r, Hand(w))| <= 1 { assert Q(r, Hand(w)) == Q(Push(s, to, t), Hand(w)); }
    forall u | u in r.tasks && r.tasks[u].phase == Running ensures u in Q(r, Hand(r.tasks[u].worker)) {
      assert Q(r, Hand(r.tasks[u].worker)) == Q(Push(s, to, t), Hand(r.tasks[u].worker));
      if u != t { assert u in Q(s, Hand(s.tasks[u].worker)); }
    }
  }

  /** What queue `q` holds after entry `k` of `from` went to the back of `to`. */
  lemma QueueAfterMove(s: State, from: Queue, k: nat, to: Queue, r: State, q: Queue)
    requires Conserved(s) && k < |Q(s, from)|
    requires r.queues == Push(Drop(s, from, k), to, Q(s, from)[k]).queues
    ensures var t := Q(s, from)[k];
            && (t in Q(r, q) <==> q == to)
            && (forall u :: u != t ==> (u in Q(r, q) <==> u in Q(s, q)))
            && |Q(r, q)| <= |Q(s, q)| + (if q == to then 1 else 0)
  {
    var t := Q(s, from)[k];
    NowhereAfterDrop(s, from, k);
    var m := Drop(s, from, k);
    assert Q(s, from) == Q(s, from)[..k] + [t] + Q(s, from)[k + 1..];
    assert Q(r, q) == if q == to then Q(m, q) + [t] else Q(m, q);
  }

  lemma QueuesMove(s: State, from: Queue, k: nat, to: Queue, r: State)
    requires Conserved(s) && QueuesOk(s) && k < |Q(s, from)|
    requires r.queues == Push(Drop(s, from, k), to, Q(s, from)[k]).queues
    requires SameEntries(s, r, Q(s, from)[k]) && r.tasks.Keys == s.tasks.Keys
    requires EntryOk(r, to, Q(s, from)[k]) && (to.Hand? ==> Q(s, to) == []) && (r.tasks[Q(s, from)[k]].phase == Running ==> to.Hand?)
    ensures QueuesOk(r)
  {
    forall q, u | u in Q(r, q) ensures EntryOk(r, q, u) {
      QueueAfterMove(s, from, k, to, r, q);
    }
    forall w ensures |Q(r, Hand(w))| <= 1 {
      QueueAfterMove(s, from, k, to, r, Hand(w));
    }
    forall u | u in r.tasks && r.tasks[u].phase == Running ensures u in Q(r, Hand(r.tasks[u].worker)) {
      QueueAfterMove(s, from, k, to, r, Hand(r.tasks[u].worker));
    }
  }

  lemma QueuesStay(s: State, q: Queue, t: Tid, r: State)
    requires Conserved(s) && QueuesOk(s) && t in Q(s, q)
    requires r.queues == s.queues && SameEntries(s, r, t) && r.tasks.Keys == s.tasks.Keys
    requires EntryOk(r, q, t) && (r.tasks[t].phase == Running ==> q.Hand?)
    ensures QueuesOk(r)
  {
    forall p, u | u in Q(r, p) ensures EntryOk(r, p, u) {
      assert u in Q(s, p);
      if u == t && p != q { OneQueue(s, q, p, t); }
    }
    forall w ensures |Q(r, Hand(w))| <= 1 { assert Q(r, Hand(w)) == Q(s, Hand(w)); }
    forall u | u in r.tasks && r.tasks[u].phase == Running ensures u in Q(r, Hand(r.tasks[u].worker)) {
      assert u != t ==> u in Q(s, Hand(s.tasks[u].worker));
    }
  }
}
