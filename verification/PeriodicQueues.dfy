/** A worker's four periodic queues: which queue a sleeping context goes to, how many are
    looked at in each iteration of the worker loop, and how long the worker may sleep.

    Times are reals in microseconds. */
module PeriodicQueues {
  type Ctx = nat   // a RunContext

  datatype Option<+T> = None | Some(value: T)

  /** A context that ran, and the time of the look at its queue that found it due. */
  datatype Ran = Ran(c: Ctx, at: real)

  /** Two histories: the contexts `examined`, that is taken from the front of a queue, and
      those of them that `ran`. */
  datatype State = State(
    queues: seq<seq<Ctx>>,
    period: map<Ctx, real>,      // yield_time_us_
    since: map<Ctx, real>,       // block_start_
    iteration: nat,
    examined: seq<Ctx>,
    ran: seq<Ran>)

  /** AddToBlockedQueue of a context with a polling period, at a time. */
  datatype Push = Push(c: Ctx, period: real, at: real)

  const QUEUES := 4
  const LIMIT := 8

  function Bucket(period: real): (i: nat)
    ensures i < QUEUES
  {
    if period <= 50.0 then 0 else if period <= 200.0 then 1 else if period <= 50000.0 then 2 else 3
  }

  /** Iterations between two looks at queue `i`. */
  function Every(i: nat): (f: nat)
    requires i < QUEUES
    ensures f > 0
  {
    if i == 0 then 4 else if i == 1 then 8 else if i == 2 then 64 else 128
  }

  predicate Shaped(s: State) { |s.queues| == QUEUES }

  function Min(a: nat, b: nat): nat { if a < b then a else b }

  // ----- specification -----

  function Since(s: State, c: Ctx): real { if c in s.since then s.since[c] else 0.0 }

  function Period(s: State, c: Ctx): real { if c in s.period then s.period[c] else 0.0 }

  /** A context with no period goes to a blocked queue instead. */
  function Add(s: State, p: Push): (r: State)
    requires Shaped(s)
    ensures Shaped(r)
  {
    if p.period == 0.0 then s.(period := s.period[p.c := 0.0])
    else
      var elapsed := p.at - Since(s, p.c);
      var i := Bucket(p.period);
      s.(queues := s.queues[i := s.queues[i] + [p.c]],
         period := s.period[p.c := p.period],
         since := if elapsed > 10000.0 || elapsed < 0.0 then s.since[p.c := p.at] else s.since)
  }

  function AddAll(s: State, pushes: seq<Push>): (r: State)
    requires Shaped(s)
    ensures Shaped(r)
    decreases |pushes|
  {
    if pushes == [] then s else AddAll(Add(s, pushes[0]), pushes[1..])
  }

  /** One context from the front of queue `i`: back to the end if its time has not come (with
      2 ms of tolerance); otherwise it runs, and whatever running it puts to sleep is
      `reply`. */
  function ExamineOne(s: State, i: nat, now: real, reply: seq<Push>): (r: State)
    requires Shaped(s) && i < QUEUES && s.queues[i] != []
    ensures Shaped(r)
  {
    var c := s.queues[i][0];
    var t := s.(queues := s.queues[i := s.queues[i][1..]], examined := s.examined + [c]);
    if now - Since(s, c) + 2000.0 >= Period(s, c) then AddAll(t.(since := t.since[c := now], ran := t.ran + [Ran(c, now)]), reply)
    else t.(queues := t.queues[i := t.queues[i] + [c]])
  }

  function Reply(replies: seq<seq<Push>>, k: nat): seq<Push> { if k < |replies| then replies[k] else [] }

  function Examine(s: State, i: nat, now: real, replies: seq<seq<Push>>, k: nat, n: nat): (r: State)
    requires Shaped(s) && i < QUEUES && k <= n
    ensures Shaped(r)
    decreases n - k
  {
    if k == n || s.queues[i] == [] then s
    else Examine(ExamineOne(s, i, now, Reply(replies, k)), i, now, replies, k + 1, n)
  }

  function Process(s: State, i: nat, now: real, replies: seq<seq<Push>>): (r: State)
    requires Shaped(s) && i < QUEUES
    ensures Shaped(r)
  {
    Examine(s, i, now, replies, 0, Min(|s.queues[i]|, LIMIT))
  }

  /** One iteration of the worker loop: what earlier phases put to sleep, then the periodic
      queues whose turn it is. */
  datatype Turn = Turn(before: seq<Push>, now: seq<real>, replies: seq<seq<seq<Push>>>)

  predicate TurnOk(t: Turn) { |t.now| == QUEUES && |t.replies| == QUEUES }

  function ProcessDue(s: State, t: Turn, i: nat): (r: State)
    requires Shaped(s) && TurnOk(t) && i <= QUEUES
    ensures Shaped(r)
    decreases QUEUES - i
  {
    if i == QUEUES then s
    else ProcessDue(if s.iteration % Every(i) == 0 then Process(s, i, t.now[i], t.replies[i]) else s, t, i + 1)
  }

  function Iterate(s: State, t: Turn): (r: State)
    requires Shaped(s) && TurnOk(t)
    ensures Shaped(r)
  {
    var r := ProcessDue(AddAll(s, t.before), t, 0);
    r.(iteration := r.iteration + 1)
  }

  // ----- the class -----

  class Worker {
    var queues: seq<seq<Ctx>>
    var period: map<Ctx, real>
    var since: map<Ctx, real>
    var iteration: nat
    ghost var examined: seq<Ctx>
    ghost var ran: seq<Ran>

    ghost function Value(): State
      reads this
    {
      State(queues, period, since, iteration, examined, ran)
    }

    constructor ()
      ensures Value() == State([[], [], [], []], map[], map[], 0, [], [])
    {
      queues, period, since, iteration, examined, ran := [[], [], [], []], map[], map[], 0, [], [];
    }

    method AddToBlockedQueue(p: Push)
      requires Shaped(Value())
      modifies this
      ensures Value() == Add(old(Value()), p)
    {
      period := period[p.c := p.period];
      if p.period == 0.0 {
        return;
      }
      var elapsed := p.at - if p.c in since then since[p.c] else 0.0;
      if elapsed > 10000.0 || elapsed < 0.0 {
        since := since[p.c := p.at];
      }
      var i;
      if p.period <= 50.0 {
        i := 0;
      } else if p.period <= 200.0 {
        i := 1;
      } else if p.period <= 50000.0 {
        i := 2;
      } else {
        i := 3;
      }
      queues := queues[i := queues[i] + [p.c]];
    }

    method RunContext(reply: seq<Push>)
      requires Shaped(Value())
      modifies this
      ensures Value() == AddAll(old(Value()), reply)
    {
      var k := 0;
      while k < |reply|
        invariant k <= |reply| && Shaped(Value())
        invariant AddAll(old(Value()), reply) == AddAll(Value(), reply[k..])
      {
        assert reply[k..][1..] == reply[k + 1..];
        AddToBlockedQueue(reply[k]);
        k := k + 1;
      }
    }

    method ProcessPeriodicQueue(i: nat, now: real, replies: seq<seq<Push>>)
      requires Shaped(Value()) && i < QUEUES
      modifies this
      ensures Value() == Process(old(Value()), i, now, replies)
      ensures InBuckets(old(Value())) && CarefulExamine(old(Value()), i, now, replies, 0, Min(|old(queues)[i]|, LIMIT)) ==>
                OneBatch(old(Value()), Value(), i, now)
    {
      hide OneBatch, InBuckets, CarefulExamine;
      BatchIfCareful(Value(), i, now, replies);
      var limit := Min(|queues[i]|, LIMIT);
      var k := 0;
      while k < limit
        invariant k <= limit && Shaped(Value())
        invariant Examine(old(Value()), i, now, replies, 0, limit) == Examine(Value(), i, now, replies, k, limit)
      {
        if queues[i] == [] {
          break;
        }
        var c := queues[i][0];
        queues := queues[i := queues[i][1..]];
        examined := examined + [c];
        var elapsed := now - if c in since then since[c] else 0.0;
        if elapsed + 2000.0 >= if c in period then period[c] else 0.0 {
          since := since[c := now];
          ran := ran + [Ran(c, now)];
          RunContext(Reply(replies, k));
        } else {
          queues := queues[i := queues[i] + [c]];
        }
        k := k + 1;
      }
    }

    /** The shortest period among the queues' front contexts; None means sleep until woken. */
    method GetSuspendPeriod() returns (shortest: Option<real>)
      requires Shaped(Value())
      ensures shortest == SuspendPeriod(Value())
    {
      shortest := None;
      var i := 0;
      while i < QUEUES
        invariant i <= QUEUES
        invariant shortest == ShortestFront(Value(), i)
      {
        if queues[i] != [] {
          var front := queues[i][0];
          var p := if front in period then period[front] else 0.0;
          if shortest.None? || p < shortest.value {
            shortest := Some(p);
          }
        }
        i := i + 1;
      }
    }
  }

  function ShortestFront(s: State, n: nat): Option<real>
    requires Shaped(s) && n <= QUEUES
  {
    if n == 0 then None
    else
      var rest := ShortestFront(s, n - 1);
      if s.queues[n - 1] == [] then rest
      else
        var p := Period(s, s.queues[n - 1][0]);
        if rest.None? || p < rest.value then Some(p) else rest
  }

  function SuspendPeriod(s: State): Option<real>
    requires Shaped(s)
  {
    ShortestFront(s, QUEUES)
  }

  // ----- no starvation -----

  /** `t` comes from `s` by appending to queues and to the history. */
  ghost predicate Grows(s: State, t: State)
    requires Shaped(s) && Shaped(t)
  {
    && (forall j :: 0 <= j < QUEUES ==> s.queues[j] <= t.queues[j])
    && s.examined <= t.examined && s.ran <= t.ran && s.iteration == t.iteration
  }

  lemma {:induction false} AddAllGrows(s: State, pushes: seq<Push>)
    requires Shaped(s)
    ensures Grows(s, AddAll(s, pushes))
    decreases |pushes|
  {
    if pushes != [] {
      AddAllGrows(Add(s, pushes[0]), pushes[1..]);
    }
  }

  /** `t` comes from `s` by appending, once the first `m` contexts of queue `i` have been
      taken and noted. */
  ghost predicate Takes(s: State, t: State, i: nat, m: nat)
    requires Shaped(s) && Shaped(t) && i < QUEUES && m <= |s.queues[i]|
  {
    && Grows(s.(queues := s.queues[i := s.queues[i][m..]]), t)
    && (forall a :: 0 <= a < m ==> s.queues[i][a] in t.examined[|s.examined|..])
  }

  lemma ExamineOneTakes(s: State, i: nat, now: real, reply: seq<Push>)
    requires Shaped(s) && i < QUEUES && s.queues[i] != []
    ensures Takes(s, ExamineOne(s, i, now, reply), i, 1)
  {
    var c := s.queues[i][0];
    var t := s.(queues := s.queues[i := s.queues[i][1..]], examined := s.examined + [c], since := s.since[c := now],
                ran := s.ran + [Ran(c, now)]);
    AddAllGrows(t, reply);
    var r := ExamineOne(s, i, now, reply);
    assert r.examined[|s.examined|] == c;
  }

  lemma TakesMore(s: State, t: State, u: State, i: nat, m: nat)
    requires Shaped(s) && Shaped(t) && Shaped(u) && i < QUEUES && 1 <= m <= |s.queues[i]|
    requires Takes(s, t, i, 1) && m - 1 <= |t.queues[i]| && Takes(t, u, i, m - 1)
    ensures Takes(s, u, i, m)
  {
    var q, q1 := s.queues[i], t.queues[i];
    assert q[1..] <= q1;
    assert q[m..] == q[1..][m - 1..] <= q1[m - 1..] <= u.queues[i];
    forall j | 0 <= j < QUEUES && j != i ensures s.queues[j] <= u.queues[j] {
      assert s.queues[j] <= t.queues[j] <= u.queues[j];
    }
    forall a | 0 <= a < m ensures q[a] in u.examined[|s.examined|..] {
      if a == 0 {
        assert q[0] in t.examined[|s.examined|..] && t.examined[|s.examined|..] <= u.examined[|s.examined|..];
      } else {
        assert q[a] == q1[a - 1] && q1[a - 1] in u.examined[|t.examined|..];
        assert u.examined[|t.examined|..] == u.examined[|s.examined|..][|t.examined| - |s.examined|..];
      }
    }
  }

  lemma {:induction false} ExamineTakes(s: State, i: nat, now: real, replies: seq<seq<Push>>, k: nat, n: nat)
    requires Shaped(s) && i < QUEUES && k <= n && n - k <= |s.queues[i]|
    ensures Takes(s, Examine(s, i, now, replies, k, n), i, n - k)
    decreases n - k
  {
    if k < n {
      var t := ExamineOne(s, i, now, Reply(replies, k));
      ExamineOneTakes(s, i, now, Reply(replies, k));
      assert s.queues[i][1..] <= t.queues[i];
      ExamineTakes(t, i, now, replies, k + 1, n);
      TakesMore(s, t, Examine(t, i, now, replies, k + 1, n), i, n - k);
    } else {
      assert s.queues[i][0..] == s.queues[i];
    }
  }

  lemma ProcessTakes(s: State, i: nat, now: real, replies: seq<seq<Push>>)
    requires Shaped(s) && i < QUEUES
    ensures Takes(s, Process(s, i, now, replies), i, Min(|s.queues[i]|, LIMIT))
  {
    ExamineTakes(s, i, now, replies, 0, Min(|s.queues[i]|, LIMIT));
  }

  /** Contexts of queue `i` examined for sure in an iteration that starts in state `s`. */
  function Quota(s: State, i: nat): nat
    requires Shaped(s) && i < QUEUES
  {
    if s.iteration % Every(i) == 0 then Min(|s.queues[i]|, LIMIT) else 0
  }

  /** Of queue `i`, the first `m` at least are examined between `s` and `t`, and the others
      move up. */
  ghost predicate Serves(s: State, t: State, i: nat, m: nat)
    requires Shaped(s) && Shaped(t) && i < QUEUES && m <= |s.queues[i]|
  {
    && s.queues[i][m..] <= t.queues[i]
    && s.examined <= t.examined
    && (forall a :: 0 <= a < m ==> s.queues[i][a] in t.examined[|s.examined|..])
  }

  lemma GrowsServes(s: State, t: State, u: State, i: nat)
    requires Shaped(s) && Shaped(t) && Shaped(u) && i < QUEUES
    requires Grows(s, t) && Serves(t, u, i, Min(|t.queues[i]|, LIMIT))
    ensures Serves(s, u, i, Min(|s.queues[i]|, LIMIT))
  {
    var q, q1, m := s.queues[i], t.queues[i], Min(|s.queues[i]|, LIMIT);
    assert q <= q1;
    assert |q| >= LIMIT ==> q[m..] <= q1[m..];
    assert |q| < LIMIT ==> q[m..] == [];
    forall a | 0 <= a < m ensures q[a] in u.examined[|s.examined|..] {
      assert q[a] == q1[a] && q1[a] in u.examined[|t.examined|..];
      assert u.examined[|t.examined|..] == u.examined[|s.examined|..][|t.examined| - |s.examined|..];
    }
  }

  lemma ServesNone(s: State, t: State, u: State, i: nat)
    requires Shaped(s) && Shaped(t) && Shaped(u) && i < QUEUES
    requires s.queues[i] <= t.queues[i] && s.examined <= t.examined && Serves(t, u, i, 0)
    ensures Serves(s, u, i, 0)
  {
    assert t.queues[i][0..] == t.queues[i] && s.queues[i][0..] == s.queues[i];
  }

  lemma ServesThen(s: State, t: State, u: State, i: nat, m: nat)
    requires Shaped(s) && Shaped(t) && Shaped(u) && i < QUEUES && m <= |s.queues[i]|
    requires Serves(s, t, i, m) && Serves(t, u, i, 0)
    ensures Serves(s, u, i, m)
  {
    assert t.queues[i][0..] == t.queues[i];
    forall a | 0 <= a < m ensures s.queues[i][a] in u.examined[|s.examined|..] {
      assert t.examined[|s.examined|..] <= u.examined[|s.examined|..];
    }
  }

  /** The queues after `j` leave queue `i < j` with what it has or more. */
  lemma {:induction false} LaterQueuesServe(s: State, t: Turn, i: nat, j: nat)
    requires Shaped(s) && TurnOk(t) && i < j <= QUEUES
    ensures Serves(s, ProcessDue(s, t, j), i, 0)
    decreases QUEUES - j
  {
    if j < QUEUES {
      var s1 := if s.iteration % Every(j) == 0 then Process(s, j, t.now[j], t.replies[j]) else s;
      ProcessTakes(s, j, t.now[j], t.replies[j]);
      LaterQueuesServe(s1, t, i, j + 1);
      ServesNone(s, s1, ProcessDue(s, t, j), i);
    } else {
      assert s.queues[i][0..] == s.queues[i];
    }
  }

  lemma {:induction false} DueServes(s: State, t: Turn, i: nat, j: nat)
    requires Shaped(s) && TurnOk(t) && j <= i < QUEUES
    ensures Serves(s, ProcessDue(s, t, j), i, Quota(s, i))
    ensures ProcessDue(s, t, j).iteration == s.iteration
    decreases i - j
  {
    ProcessKeepsIteration(s, t, j);
    var s1 := if s.iteration % Every(j) == 0 then Process(s, j, t.now[j], t.replies[j]) else s;
    ProcessTakes(s, j, t.now[j], t.replies[j]);
    var u := ProcessDue(s, t, j);
    if j < i {
      DueServes(s1, t, i, j + 1);
      if s.iteration % Every(i) == 0 {
        QuotaServes(s, s1, u, i, j);
      } else {
        ServesNone(s, s1, u, i);
      }
    } else {
      LaterQueuesServe(s1, t, i, i + 1);
      if s.iteration % Every(i) == 0 {
        ServesThen(s, s1, u, i, Quota(s, i));
      }
    }
  }

  /** Serving another queue first only appends to this one. */
  lemma QuotaServes(s: State, s1: State, u: State, i: nat, j: nat)
    requires Shaped(s) && Shaped(s1) && Shaped(u) && j < i < QUEUES
    requires s.queues[i] <= s1.queues[i] && s.examined <= s1.examined
    requires Serves(s1, u, i, Min(|s1.queues[i]|, LIMIT))
    ensures Serves(s, u, i, Min(|s.queues[i]|, LIMIT))
  {
    GrowsServes(s.(iteration := s1.iteration, queues := s1.queues[i := s.queues[i]], ran := s1.ran), s1, u, i);
  }

  lemma {:induction false} ProcessKeepsIteration(s: State, t: Turn, j: nat)
    requires Shaped(s) && TurnOk(t) && j <= QUEUES
    ensures ProcessDue(s, t, j).iteration == s.iteration
    decreases QUEUES - j
  {
    if j < QUEUES {
      ProcessTakes(s, j, t.now[j], t.replies[j]);
      ProcessKeepsIteration(if s.iteration % Every(j) == 0 then Process(s, j, t.now[j], t.replies[j]) else s, t, j + 1);
    }
  }

  lemma IterateServes(s: State, t: Turn, i: nat)
    requires Shaped(s) && TurnOk(t) && i < QUEUES
    ensures Serves(s, Iterate(s, t), i, Quota(s, i)) && Iterate(s, t).iteration == s.iteration + 1
  {
    var s1 := AddAll(s, t.before);
    AddAllGrows(s, t.before);
    DueServes(s1, t, i, 0);
    var u := ProcessDue(s1, t, 0);
    if s.iteration % Every(i) == 0 {
      GrowsServes(s, s1, u, i);
    } else {
      ServesNone(s, s1, u, i);
    }
  }

  ghost predicate TurnsOk(run: seq<Turn>) { forall k :: 0 <= k < |run| ==> TurnOk(run[k]) }

  ghost function After(s: State, run: seq<Turn>): (r: State)
    requires Shaped(s) && TurnsOk(run)
    ensures Shaped(r)
    decreases |run|
  {
    if run == [] then s else After(Iterate(s, run[0]), run[1..])
  }

  /** Iterations until queue `i` is due. */
  function Wait(n: nat, f: nat): nat
    requires f > 0
  {
    if n % f == 0 then 0 else f - n % f
  }

  lemma {:induction false} HistoryGrows(s: State, run: seq<Turn>)
    requires Shaped(s) && TurnsOk(run)
    ensures s.examined <= After(s, run).examined
    decreases |run|
  {
    if run != [] {
      IterateServes(s, run[0], 0);
      HistoryGrows(Iterate(s, run[0]), run[1..]);
    }
  }

  /** One turn uses up one iteration of the wait, or a whole cycle if the queue was due. */
  lemma Budget(n: nat, f: nat, p: nat, m: nat, turns: nat)
    requires f > 0 && turns >= Wait(n, f) + f * (p / LIMIT) + 1
    requires m <= p && m == if n % f == 0 then LIMIT else 0
    ensures turns - 1 >= Wait(n + 1, f) + f * ((p - m) / LIMIT) + 1
  {
    WaitStep(n, f);
    if m == LIMIT {
      assert p / LIMIT == (p - LIMIT) / LIMIT + 1;
      assert f * (p / LIMIT) == f * ((p - LIMIT) / LIMIT) + f;
    }
  }

  lemma {:induction false} ServedInTime(s: State, run: seq<Turn>, i: nat, p: nat)
    requires Shaped(s) && TurnsOk(run) && i < QUEUES && p < |s.queues[i]|
    requires |run| >= Wait(s.iteration, Every(i)) + Every(i) * (p / LIMIT) + 1
    ensures s.examined <= After(s, run).examined
    ensures s.queues[i][p] in After(s, run).examined[|s.examined|..]
    decreases |run|
  {
    hide Iterate, Wait, Every;
    var f := Every(i);
    var t, m := Iterate(s, run[0]), Quota(s, i);
    IterateServes(s, run[0], i);
    HistoryGrows(t, run[1..]);
    var e, e1, e2 := |s.examined|, t.examined, After(s, run).examined;
    if p < m {
      assert e1[e..] <= e2[e..];
    } else {
      assert s.queues[i][m..][p - m] == s.queues[i][p];
      Budget(s.iteration, f, p, m, |run|);
      ServedInTime(t, run[1..], i, p - m);
      assert e2[e..][|e1| - e..] == e2[|e1|..];
    }
  }

  lemma WaitStep(n: nat, f: nat)
    requires f > 0
    ensures Wait(n + 1, f) == if n % f == 0 then f - 1 else Wait(n, f) - 1
    ensures Wait(n, f) < f
  {
    var k, r := n / f, n % f;
    assert n == f * k + r;
    if r + 1 == f {
      assert n + 1 == f * (k + 1);
      Remainder(k + 1, f, 0);
    } else {
      Remainder(k, f, r + 1);
    }
  }

  lemma Remainder(k: nat, f: nat, r: nat)
    requires r < f
    ensures (f * k + r) % f == r
  {
    var n := f * k + r;
    var j := n / f;
    assert n == f * j + n % f;
    if j > k {
      MulMono(k + 1, j, f);
    } else if j < k {
      MulMono(j + 1, k, f);
    }
  }

  lemma MulMono(x: nat, y: nat, f: nat)
    requires x <= y
    ensures f * x <= f * y
  {
  }

  /** No starvation: the context at position `p` of queue `i` is examined within
      4, 8, 64 or 128 times p / 8 + 1 iterations, wherever in its cycle the worker is, and whatever
      keeps being put to sleep. */
  lemma NoStarvation(s: State, run: seq<Turn>, i: nat, p: nat)
    requires Shaped(s) && TurnsOk(run) && i < QUEUES && p < |s.queues[i]|
    requires |run| >= [4, 8, 64, 128][i] * (p / 8 + 1)
    ensures s.examined <= After(s, run).examined
    ensures s.queues[i][p] in After(s, run).examined[|s.examined|..]
  {
    WaitStep(s.iteration, Every(i));
    assert [4, 8, 64, 128][i] == Every(i);
    assert Every(i) * (p / LIMIT + 1) == Every(i) * (p / LIMIT) + Every(i);
    ServedInTime(s, run, i, p);
  }

  /** A queue is looked at in every 4th, 8th, 64th or 128th iteration only; in the others
      contexts are at most put to sleep in it. */
  lemma LooksOnlyOnTurn(s: State, t: Turn, i: nat)
    requires Shaped(s) && TurnOk(t) && i < QUEUES && s.iteration % [4, 8, 64, 128][i] != 0
    ensures s.queues[i] <= Iterate(s, t).queues[i] && Iterate(s, t).iteration == s.iteration + 1
  {
    var s1 := AddAll(s, t.before);
    AddAllGrows(s, t.before);
    assert s1.queues[i] <= ProcessDue(s1, t, 0).queues[i] by { OnlyGrows(s1, t, i, 0); }
    ProcessKeepsIteration(s1, t, 0);
  }

  lemma {:induction false} OnlyGrows(s: State, t: Turn, i: nat, j: nat)
    requires Shaped(s) && TurnOk(t) && i < QUEUES && j <= QUEUES && s.iteration % Every(i) != 0
    ensures s.queues[i] <= ProcessDue(s, t, j).queues[i]
    decreases QUEUES - j
  {
    if j < QUEUES {
      var s1 := if s.iteration % Every(j) == 0 then Process(s, j, t.now[j], t.replies[j]) else s;
      ProcessTakes(s, j, t.now[j], t.replies[j]);
      assert s.queues[i] <= s1.queues[i];
      OnlyGrows(s1, t, i, j + 1);
    }
  }

  // ----- buckets and the suspend period -----

  /** Every sleeping context has a period of its queue. */
  ghost predicate InBuckets(s: State)
    requires Shaped(s)
  {
    forall j, c :: 0 <= j < QUEUES && c in s.queues[j] ==> c in s.period && Bucket(s.period[c]) == j
  }

  ghost predicate Asleep(s: State, c: Ctx)
    requires Shaped(s)
  {
    exists j :: 0 <= j < QUEUES && c in s.queues[j]
  }

  /** Only contexts that are awake are put to sleep. */
  ghost predicate Careful(s: State, pushes: seq<Push>)
    requires Shaped(s)
    decreases |pushes|
  {
    pushes == [] || (!Asleep(s, pushes[0].c) && Careful(Add(s, pushes[0]), pushes[1..]))
  }

  /** The state in which the contexts that the examined one wakes or puts to sleep are added. */
  ghost function Running(s: State, i: nat, now: real): (r: State)
    requires Shaped(s) && i < QUEUES && s.queues[i] != []
    ensures Shaped(r)
  {
    var c := s.queues[i][0];
    s.(queues := s.queues[i := s.queues[i][1..]], examined := s.examined + [c], since := s.since[c := now],
       ran := s.ran + [Ran(c, now)])
  }

  ghost predicate CarefulExamine(s: State, i: nat, now: real, replies: seq<seq<Push>>, k: nat, n: nat)
    requires Shaped(s) && i < QUEUES && k <= n
    decreases n - k
  {
    k == n || s.queues[i] == [] ||
    (Careful(Running(s, i, now), Reply(replies, k))
     && CarefulExamine(ExamineOne(s, i, now, Reply(replies, k)), i, now, replies, k + 1, n))
  }

  ghost predicate CarefulDue(s: State, t: Turn, i: nat)
    requires Shaped(s) && TurnOk(t) && i <= QUEUES
    decreases QUEUES - i
  {
    i == QUEUES ||
    if s.iteration % Every(i) == 0 then
      CarefulExamine(s, i, t.now[i], t.replies[i], 0, Min(|s.queues[i]|, LIMIT))
      && CarefulDue(Process(s, i, t.now[i], t.replies[i]), t, i + 1)
    else CarefulDue(s, t, i + 1)
  }

  ghost predicate CarefulRun(s: State, run: seq<Turn>)
    requires Shaped(s) && TurnsOk(run)
    decreases |run|
  {
    run == [] ||
    (Careful(s, run[0].before) && CarefulDue(AddAll(s, run[0].before), run[0], 0) && CarefulRun(Iterate(s, run[0]), run[1..]))
  }

  lemma {:induction false} AddAllKeepsBuckets(s: State, pushes: seq<Push>)
    requires Shaped(s) && InBuckets(s) && Careful(s, pushes)
    ensures InBuckets(AddAll(s, pushes))
    decreases |pushes|
  {
    if pushes != [] {
      forall j | 0 <= j < QUEUES ensures pushes[0].c !in s.queues[j] {}
      AddAllKeepsBuckets(Add(s, pushes[0]), pushes[1..]);
    }
  }

  lemma ExamineOneKeepsBuckets(s: State, i: nat, now: real, reply: seq<Push>)
    requires Shaped(s) && i < QUEUES && s.queues[i] != [] && InBuckets(s) && Careful(Running(s, i, now), reply)
    ensures InBuckets(ExamineOne(s, i, now, reply))
  {
    var c := s.queues[i][0];
    assert c in s.queues[i] && forall d :: d in s.queues[i][1..] ==> d in s.queues[i];
    if now - Since(s, c) + 2000.0 >= Period(s, c) {
      assert InBuckets(Running(s, i, now));
      AddAllKeepsBuckets(Running(s, i, now), reply);
    }
  }

  lemma {:induction false} ExamineKeepsBuckets(s: State, i: nat, now: real, replies: seq<seq<Push>>, k: nat, n: nat)
    requires Shaped(s) && i < QUEUES && k <= n && InBuckets(s) && CarefulExamine(s, i, now, replies, k, n)
    ensures InBuckets(Examine(s, i, now, replies, k, n))
    decreases n - k
  {
    hide InBuckets, Careful, ExamineOne, Running;
    if k < n && s.queues[i] != [] {
      ExamineOneKeepsBuckets(s, i, now, Reply(replies, k));
      ExamineKeepsBuckets(ExamineOne(s, i, now, Reply(replies, k)), i, now, replies, k + 1, n);
    }
  }

  lemma {:induction false} DueKeepsBuckets(s: State, t: Turn, i: nat)
    requires Shaped(s) && TurnOk(t) && i <= QUEUES && InBuckets(s) && CarefulDue(s, t, i)
    ensures InBuckets(ProcessDue(s, t, i))
    decreases QUEUES - i
  {
    if i < QUEUES {
      if s.iteration % Every(i) == 0 {
        ExamineKeepsBuckets(s, i, t.now[i], t.replies[i], 0, Min(|s.queues[i]|, LIMIT));
        DueKeepsBuckets(Process(s, i, t.now[i], t.replies[i]), t, i + 1);
      } else {
        DueKeepsBuckets(s, t, i + 1);
      }
    }
  }

  /** On every run in which only awake contexts are put to sleep, every sleeping context is in
      the bucket of its period. */
  lemma {:induction false} BucketsHold(s: State, run: seq<Turn>)
    requires Shaped(s) && TurnsOk(run) && InBuckets(s) && CarefulRun(s, run)
    ensures InBuckets(After(s, run))
    decreases |run|
  {
    hide InBuckets, Examine;
    if run != [] {
      var s1 := AddAll(s, run[0].before);
      AddAllKeepsBuckets(s, run[0].before);
      DueKeepsBuckets(s1, run[0], 0);
      SameBuckets(ProcessDue(s1, run[0], 0), Iterate(s, run[0]));
      BucketsHold(Iterate(s, run[0]), run[1..]);
    }
  }

  lemma SameBuckets(s: State, t: State)
    requires Shaped(s) && InBuckets(s) && t.queues == s.queues && t.period == s.period
    ensures InBuckets(t)
  {}

  // ----- which contexts run, and when -----

  /** The time of context `c` has come, or will within 2 ms. */
  predicate Due(s: State, c: Ctx, now: real) { now + 2000.0 >= Since(s, c) + Period(s, c) }

  /** `c` sleeps in queue `j` as it did. */
  predicate SleepsOn(s: State, t: State, c: Ctx, j: nat)
    requires Shaped(t) && j < QUEUES
  {
    c in t.queues[j] && c in t.period && Since(t, c) == Since(s, c) && Period(t, c) == Period(s, c)
  }

  /** The first time `c` ran between `s` and `t`, it was due as in `s`. */
  ghost predicate RanDue(s: State, t: State, c: Ctx) {
    exists k :: |s.ran| <= k < |t.ran| && FirstRun(s, t, c, k) && Due(s, c, t.ran[k].at)
  }

  ghost predicate FirstRun(s: State, t: State, c: Ctx, k: nat)
    requires |s.ran| <= k < |t.ran|
  {
    t.ran[k].c == c && forall m :: |s.ran| <= m < k ==> t.ran[m].c != c
  }

  ghost predicate NotRun(s: State, t: State, c: Ctx) {
    s.ran <= t.ran && forall m :: |s.ran| <= m < |t.ran| ==> t.ran[m].c != c
  }

  ghost predicate NotExamined(s: State, t: State, c: Ctx) {
    s.examined <= t.examined && c !in t.examined[|s.examined|..]
  }

  /** From `s` to `t`: `c` has run, and when it first did it was due; or it has slept on in
      queue `j`.  If the queue was only looked at when it was due, it has not been looked at
      itself then. */
  ghost predicate RunsOrSleeps(s: State, t: State, c: Ctx, j: nat, punctual: bool)
    requires Shaped(t) && j < QUEUES
  {
    || (s.ran <= t.ran && RanDue(s, t, c))
    || (SleepsOn(s, t, c, j) && NotRun(s, t, c) && (punctual ==> NotExamined(s, t, c)))
  }

  lemma ThenSleeps(s: State, t: State, u: State, c: Ctx, j: nat, punctual: bool)
    requires Shaped(t) && Shaped(u) && j < QUEUES
    requires SleepsOn(s, t, c, j) && NotRun(s, t, c) && (punctual ==> NotExamined(s, t, c))
    requires RunsOrSleeps(t, u, c, j, punctual)
    ensures RunsOrSleeps(s, u, c, j, punctual)
  {
    assert NotRun(t, u, c) ==> NotRun(s, u, c) by {
      forall m | NotRun(t, u, c) && |s.ran| <= m < |u.ran| ensures u.ran[m].c != c {
        if m < |t.ran| { assert u.ran[m] == t.ran[m]; }
      }
    }
    if t.ran <= u.ran && RanDue(t, u, c) {
      var k :| |t.ran| <= k < |u.ran| && FirstRun(t, u, c, k) && Due(t, c, u.ran[k].at);
      forall m | |s.ran| <= m < k ensures u.ran[m].c != c {
        if m < |t.ran| { assert u.ran[m] == t.ran[m]; }
      }
      assert FirstRun(s, u, c, k);
    } else if punctual {
      assert u.examined[|s.examined|..] == t.examined[|s.examined|..] + u.examined[|t.examined|..];
    }
  }

  lemma HasRun(s: State, t: State, u: State, c: Ctx, j: nat, punctual: bool)
    requires Shaped(t) && Shaped(u) && j < QUEUES && s.ran <= t.ran && RanDue(s, t, c) && t.ran <= u.ran
    ensures RunsOrSleeps(s, u, c, j, punctual)
  {
    var k :| |s.ran| <= k < |t.ran| && FirstRun(s, t, c, k) && Due(s, c, t.ran[k].at);
    assert u.ran[k] == t.ran[k];
    forall m | |s.ran| <= m < k ensures u.ran[m].c != c { assert u.ran[m] == t.ran[m]; }
    assert FirstRun(s, u, c, k);
  }

  lemma {:induction false} AddAllSleeps(s: State, pushes: seq<Push>, c: Ctx, j: nat)
    requires Shaped(s) && Careful(s, pushes) && j < QUEUES && c in s.queues[j] && c in s.period
    ensures var t := AddAll(s, pushes); SleepsOn(s, t, c, j) && t.ran == s.ran && t.examined == s.examined
    decreases |pushes|
  {
    if pushes != [] {
      assert Asleep(s, c);
      AddAllSleeps(Add(s, pushes[0]), pushes[1..], c, j);
    }
  }

  lemma ExamineOneRunsOrSleeps(s: State, i: nat, now: real, reply: seq<Push>, c: Ctx, j: nat, punctual: bool)
    requires Shaped(s) && i < QUEUES && s.queues[i] != [] && InBuckets(s) && Careful(Running(s, i, now), reply)
    requires j < QUEUES && c in s.queues[j] && (punctual && i == j ==> Due(s, c, now))
    ensures RunsOrSleeps(s, ExamineOne(s, i, now, reply), c, j, punctual)
  {
    var f := s.queues[i][0];
    var t := ExamineOne(s, i, now, reply);
    var m := Running(s, i, now);
    assert f in s.queues[i];
    if Due(s, f, now) {
      AddAllGrows(m, reply);
      if f == c {
        assert t.ran[|s.ran|] == Ran(c, now);
        assert FirstRun(s, t, c, |s.ran|);
      } else {
        AddAllSleeps(m, reply, c, j);
        assert t.ran == s.ran + [Ran(f, now)];
      }
    } else {
      assert t.ran == s.ran && t.examined == s.examined + [f];
      assert t.queues[i] == s.queues[i][1..] + [f];
    }
  }

  lemma SleepsSelf(s: State, c: Ctx, j: nat, punctual: bool)
    requires Shaped(s) && j < QUEUES && InBuckets(s) && c in s.queues[j]
    ensures RunsOrSleeps(s, s, c, j, punctual)
  {}

  lemma {:induction false} ExamineRunsOrSleeps(s: State, i: nat, now: real, replies: seq<seq<Push>>, k: nat, n: nat, c: Ctx, j: nat, punctual: bool)
    requires Shaped(s) && i < QUEUES && k <= n <= k + |s.queues[i]| && InBuckets(s) && CarefulExamine(s, i, now, replies, k, n)
    requires j < QUEUES && c in s.queues[j] && (punctual && i == j ==> Due(s, c, now))
    ensures RunsOrSleeps(s, Examine(s, i, now, replies, k, n), c, j, punctual)
    decreases n - k
  {
    hide InBuckets, Careful, ExamineOne, Running, RanDue, NotRun, NotExamined;
    if k == n {
      SleepsSelf(s, c, j, punctual);
    } else {
      var t, u := ExamineOne(s, i, now, Reply(replies, k)), Examine(s, i, now, replies, k, n);
      ExamineOneRunsOrSleeps(s, i, now, Reply(replies, k), c, j, punctual);
      ExamineOneKeepsBuckets(s, i, now, Reply(replies, k));
      ExamineOneTakes(s, i, now, Reply(replies, k));
      assert s.queues[i][1..] <= t.queues[i];
      ExamineTakes(t, i, now, replies, k + 1, n);
      if s.ran <= t.ran && RanDue(s, t, c) {
        HasRun(s, t, u, c, j, punctual);
      } else {
        ExamineRunsOrSleeps(t, i, now, replies, k + 1, n, c, j, punctual);
        ThenSleeps(s, t, u, c, j, punctual);
      }
    }
  }

  lemma {:induction false} DueRunsOrSleeps(s: State, t: Turn, i: nat, c: Ctx, j: nat, punctual: bool)
    requires Shaped(s) && TurnOk(t) && i <= QUEUES && InBuckets(s) && CarefulDue(s, t, i)
    requires j < QUEUES && c in s.queues[j] && (punctual ==> Due(s, c, t.now[j]))
    ensures RunsOrSleeps(s, ProcessDue(s, t, i), c, j, punctual)
    decreases QUEUES - i
  {
    hide InBuckets, Examine, CarefulExamine, RanDue, NotRun, NotExamined;
    if i == QUEUES {
      SleepsSelf(s, c, j, punctual);
    } else if s.iteration % Every(i) == 0 {
      var s1, u := Process(s, i, t.now[i], t.replies[i]), ProcessDue(s, t, i);
      ExamineRunsOrSleeps(s, i, t.now[i], t.replies[i], 0, Min(|s.queues[i]|, LIMIT), c, j, punctual);
      ExamineKeepsBuckets(s, i, t.now[i], t.replies[i], 0, Min(|s.queues[i]|, LIMIT));
      RanGrows(s1, t, i + 1);
      if s.ran <= s1.ran && RanDue(s, s1, c) {
        HasRun(s, s1, u, c, j, punctual);
      } else {
        DueRunsOrSleeps(s1, t, i + 1, c, j, punctual);
        ThenSleeps(s, s1, u, c, j, punctual);
      }
    } else {
      DueRunsOrSleeps(s, t, i + 1, c, j, punctual);
    }
  }

  lemma {:induction false} RanGrows(s: State, t: Turn, i: nat)
    requires Shaped(s) && TurnOk(t) && i <= QUEUES
    ensures s.ran <= ProcessDue(s, t, i).ran
    decreases QUEUES - i
  {
    if i < QUEUES {
      ProcessTakes(s, i, t.now[i], t.replies[i]);
      RanGrows(if s.iteration % Every(i) == 0 then Process(s, i, t.now[i], t.replies[i]) else s, t, i + 1);
    }
  }

  lemma IterateRunsOrSleeps(s: State, t: Turn, c: Ctx, j: nat, punctual: bool)
    requires Shaped(s) && TurnOk(t) && InBuckets(s) && Careful(s, t.before) && CarefulDue(AddAll(s, t.before), t, 0)
    requires j < QUEUES && c in s.queues[j] && (punctual ==> Due(s, c, t.now[j]))
    ensures RunsOrSleeps(s, Iterate(s, t), c, j, punctual) && InBuckets(Iterate(s, t)) && s.ran <= Iterate(s, t).ran
  {
    hide InBuckets, Careful, CarefulDue, ProcessDue;
    var s1 := AddAll(s, t.before);
    AddAllKeepsBuckets(s, t.before);
    PeriodKnown(s, c, j);
    AddAllSleeps(s, t.before, c, j);
    DueRunsOrSleeps(s1, t, 0, c, j, punctual);
    RanGrows(s1, t, 0);
    DueKeepsBuckets(s1, t, 0);
    var u := ProcessDue(s1, t, 0);
    ThenSleeps(s, s1, u, c, j, punctual);
    SameBuckets(u, Iterate(s, t));
    SameButIteration(s, u, Iterate(s, t), c, j, punctual);
  }

  lemma PeriodKnown(s: State, c: Ctx, j: nat)
    requires Shaped(s) && InBuckets(s) && j < QUEUES && c in s.queues[j]
    ensures c in s.period
  {}

  lemma SameButIteration(s: State, u: State, v: State, c: Ctx, j: nat, punctual: bool)
    requires Shaped(u) && v == u.(iteration := v.iteration) && j < QUEUES && RunsOrSleeps(s, u, c, j, punctual)
    ensures RunsOrSleeps(s, v, c, j, punctual)
  {
    if s.ran <= u.ran && RanDue(s, u, c) {
      var k :| |s.ran| <= k < |u.ran| && FirstRun(s, u, c, k) && Due(s, c, u.ran[k].at);
      assert FirstRun(s, v, c, k);
    }
  }

  /** Whenever queue `j` is looked at, `c`'s time has come. */
  ghost predicate StaysDue(s: State, run: seq<Turn>, c: Ctx, j: nat)
    requires TurnsOk(run) && j < QUEUES
  {
    forall k :: 0 <= k < |run| ==> Due(s, c, run[k].now[j])
  }

  lemma {:induction false} RunRunsOrSleeps(s: State, run: seq<Turn>, c: Ctx, j: nat, punctual: bool)
    requires Shaped(s) && TurnsOk(run) && InBuckets(s) && CarefulRun(s, run) && j < QUEUES && c in s.queues[j]
    requires punctual ==> StaysDue(s, run, c, j)
    ensures RunsOrSleeps(s, After(s, run), c, j, punctual) && s.ran <= After(s, run).ran
    decreases |run|
  {
    hide InBuckets, Careful, CarefulDue, Iterate, RanDue, NotRun, NotExamined;
    if run == [] {
      SleepsSelf(s, c, j, punctual);
    } else {
      var t, u := Iterate(s, run[0]), After(s, run);
      IterateRunsOrSleeps(s, run[0], c, j, punctual);
      RunGrows(t, run[1..]);
      if s.ran <= t.ran && RanDue(s, t, c) {
        HasRun(s, t, u, c, j, punctual);
      } else {
        RunRunsOrSleeps(t, run[1..], c, j, punctual);
        ThenSleeps(s, t, u, c, j, punctual);
      }
    }
  }

  lemma {:induction false} RunGrows(s: State, run: seq<Turn>)
    requires Shaped(s) && TurnsOk(run)
    ensures s.ran <= After(s, run).ran
    decreases |run|
  {
    if run != [] {
      AddAllGrows(s, run[0].before);
      RanGrows(AddAll(s, run[0].before), run[0], 0);
      RunGrows(Iterate(s, run[0]), run[1..]);
    }
  }

  /** Nobody runs early or gets lost: on every careful run a sleeping context either sleeps on
      in its queue, with its period and time stamp, or has run, and the first time it did its
      period had passed since its time stamp, but for 2 ms at most. */
  lemma SleepsUntilDue(s: State, run: seq<Turn>, c: Ctx, j: nat)
    requires Shaped(s) && TurnsOk(run) && InBuckets(s) && CarefulRun(s, run) && j < QUEUES && c in s.queues[j]
    ensures var t := After(s, run);
            && s.ran <= t.ran
            && if c in t.queues[j] && (forall m :: |s.ran| <= m < |t.ran| ==> t.ran[m].c != c) then
                 Since(t, c) == Since(s, c) && Period(t, c) == Period(s, c)
               else
                 exists k :: |s.ran| <= k < |t.ran| && FirstRun(s, t, c, k)
                             && t.ran[k].at >= Since(s, c) + Period(s, c) - 2000.0
  {
    hide InBuckets, CarefulRun, After, RunsOrSleeps;
    RunRunsOrSleeps(s, run, c, j, false);
    Unfolded(s, After(s, run), c, j);
  }

  lemma Unfolded(s: State, t: State, c: Ctx, j: nat)
    requires Shaped(t) && j < QUEUES && RunsOrSleeps(s, t, c, j, false) && s.ran <= t.ran
    ensures if c in t.queues[j] && (forall m :: |s.ran| <= m < |t.ran| ==> t.ran[m].c != c) then
              Since(t, c) == Since(s, c) && Period(t, c) == Period(s, c)
            else
              exists k :: |s.ran| <= k < |t.ran| && FirstRun(s, t, c, k) && t.ran[k].at >= Since(s, c) + Period(s, c) - 2000.0
  {
    if RanDue(s, t, c) {
      var k :| |s.ran| <= k < |t.ran| && FirstRun(s, t, c, k) && Due(s, c, t.ran[k].at);
      assert t.ran[k].c == c;
    }
  }

  /** Nobody who is due is kept waiting: the context at position `p` of queue `i`, if it is due
      whenever that queue is looked at, has run within 4, 8, 64 or 128 times p / 8 + 1
      iterations. */
  lemma DueRunsInTime(s: State, run: seq<Turn>, i: nat, p: nat)
    requires Shaped(s) && TurnsOk(run) && InBuckets(s) && CarefulRun(s, run) && i < QUEUES && p < |s.queues[i]|
    requires |run| >= [4, 8, 64, 128][i] * (p / 8 + 1)
    requires forall k :: 0 <= k < |run| ==> run[k].now[i] + 2000.0 >= Since(s, s.queues[i][p]) + Period(s, s.queues[i][p])
    ensures var t := After(s, run);
            s.ran <= t.ran && exists k :: |s.ran| <= k < |t.ran| && t.ran[k].c == s.queues[i][p]
  {
    hide InBuckets, CarefulRun, After;
    var c := s.queues[i][p];
    assert c in s.queues[i];
    assert StaysDue(s, run, c, i);
    NoStarvation(s, run, i, p);
    RunRunsOrSleeps(s, run, c, i, true);
  }

  lemma {:induction false} BatchTime(s: State, i: nat, now: real, replies: seq<seq<Push>>, k: nat, n: nat)
    requires Shaped(s) && i < QUEUES && k <= n <= k + |s.queues[i]|
    ensures var t := Examine(s, i, now, replies, k, n);
            s.ran <= t.ran && forall m :: |s.ran| <= m < |t.ran| ==> t.ran[m].at == now
    decreases n - k
  {
    if k < n {
      var s1 := ExamineOne(s, i, now, Reply(replies, k));
      AddAllGrows(Running(s, i, now), Reply(replies, k));
      AddAllRan(Running(s, i, now), Reply(replies, k));
      ExamineOneTakes(s, i, now, Reply(replies, k));
      assert s.queues[i][1..] <= s1.queues[i];
      assert forall m :: |s.ran| <= m < |s1.ran| ==> s1.ran[m].at == now;
      BatchTime(s1, i, now, replies, k + 1, n);
    }
  }

  lemma {:induction false} AddAllRan(s: State, pushes: seq<Push>)
    requires Shaped(s)
    ensures AddAll(s, pushes).ran == s.ran
    decreases |pushes|
  {
    if pushes != [] {
      AddAllRan(Add(s, pushes[0]), pushes[1..]);
    }
  }

  lemma EarlySleeps(s: State, i: nat, now: real, replies: seq<seq<Push>>, k: nat, n: nat, c: Ctx)
    requires Shaped(s) && i < QUEUES && k <= n <= k + |s.queues[i]| && InBuckets(s) && CarefulExamine(s, i, now, replies, k, n)
    requires c in s.queues[i] && !Due(s, c, now)
    ensures var t := Examine(s, i, now, replies, k, n); SleepsOn(s, t, c, i) && NotRun(s, t, c)
  {
    hide InBuckets, CarefulExamine, Examine;
    ExamineRunsOrSleeps(s, i, now, replies, k, n, c, i, false);
    BatchTime(s, i, now, replies, k, n);
  }

  lemma {:induction false} EarlyAtBack(s: State, i: nat, now: real, replies: seq<seq<Push>>, k: nat, n: nat, b: nat)
    requires Shaped(s) && i < QUEUES && k <= n <= k + |s.queues[i]| && InBuckets(s) && CarefulExamine(s, i, now, replies, k, n)
    requires b < n - k && !Due(s, s.queues[i][b], now)
    ensures var t, q := Examine(s, i, now, replies, k, n), s.queues[i];
            |q| - (n - k) <= |t.queues[i]| && q[b] in t.queues[i][|q| - (n - k)..]
    decreases n - k
  {
    hide InBuckets, Careful, ExamineOne, NotRun, Takes;
    var q, c := s.queues[i], s.queues[i][b];
    var s1, t := ExamineOne(s, i, now, Reply(replies, k)), Examine(s, i, now, replies, k, n);
    assert t == Examine(s1, i, now, replies, k + 1, n);
    assert CarefulExamine(s1, i, now, replies, k + 1, n);
    hide Examine, CarefulExamine;
    OneTaken(s, i, now, Reply(replies, k));
    ExamineOneKeepsBuckets(s, i, now, Reply(replies, k));
    if b == 0 {
      OneAtBack(s, i, now, Reply(replies, k));
      RestKept(s1, i, now, replies, k + 1, n);
      LastIsBehind(q, s1.queues[i], t.queues[i], n - k);
    } else {
      EarlyStays(s, i, now, replies, k, c);
      assert s1.queues[i][b - 1] == q[1..][b - 1] == c;
      EarlyAtBack(s1, i, now, replies, k + 1, n, b - 1);
      InLongerSuffix(t.queues[i], |q| - (n - k), |s1.queues[i]| - (n - k - 1), c);
    }
  }

  lemma OneTaken(s: State, i: nat, now: real, reply: seq<Push>)
    requires Shaped(s) && i < QUEUES && s.queues[i] != []
    ensures s.queues[i][1..] <= ExamineOne(s, i, now, reply).queues[i]
  {
    ExamineOneTakes(s, i, now, reply);
  }

  lemma RestKept(s: State, i: nat, now: real, replies: seq<seq<Push>>, k: nat, n: nat)
    requires Shaped(s) && i < QUEUES && k <= n <= k + |s.queues[i]|
    ensures s.queues[i][n - k..] <= Examine(s, i, now, replies, k, n).queues[i]
  {
    ExamineTakes(s, i, now, replies, k, n);
  }

  lemma LastIsBehind(q: seq<Ctx>, q1: seq<Ctx>, q2: seq<Ctx>, m: nat)
    requires 0 < m <= |q| && q1 == q[1..] + [q[0]] && q1[m - 1..] <= q2
    ensures |q| - m <= |q2| && q[0] in q2[|q| - m..]
  {
    assert q1[m - 1..][|q| - m] == q[0];
    assert q2[|q| - m..][0] == q[0];
  }

  lemma InLongerSuffix(q: seq<Ctx>, d: nat, e: nat, c: Ctx)
    requires d <= e <= |q| && c in q[e..]
    ensures c in q[d..]
  {
    assert q[e..] == q[d..][e - d..];
  }

  lemma OneAtBack(s: State, i: nat, now: real, reply: seq<Push>)
    requires Shaped(s) && i < QUEUES && s.queues[i] != [] && !Due(s, s.queues[i][0], now)
    ensures ExamineOne(s, i, now, reply).queues[i] == s.queues[i][1..] + [s.queues[i][0]]
  {}

  lemma EarlyStays(s: State, i: nat, now: real, replies: seq<seq<Push>>, k: nat, c: Ctx)
    requires Shaped(s) && i < QUEUES && s.queues[i] != [] && InBuckets(s) && Careful(Running(s, i, now), Reply(replies, k))
    requires c in s.queues[i] && !Due(s, c, now)
    ensures !Due(ExamineOne(s, i, now, Reply(replies, k)), c, now)
  {
    EarlySleeps(s, i, now, replies, k, k + 1, c);
  }

  /** One look at queue `i`: of the batch, a context whose time has come runs then; one whose
      time has not come does not run, keeps its period and time stamp, and goes behind all
      that waited behind the batch. */
  ghost predicate OneBatch(s: State, t: State, i: nat, now: real)
    requires Shaped(s) && Shaped(t) && i < QUEUES
  {
    var q, n := s.queues[i], if |s.queues[i]| < 8 then |s.queues[i]| else 8;
    && q[n..] <= t.queues[i] && s.ran <= t.ran
    && (forall b :: 0 <= b < n && now + 2000.0 >= Since(s, q[b]) + Period(s, q[b]) ==> Ran(q[b], now) in t.ran[|s.ran|..])
    && (forall b :: 0 <= b < n && now + 2000.0 < Since(s, q[b]) + Period(s, q[b]) ==>
          && q[b] in t.queues[i][|q| - n..] && Since(t, q[b]) == Since(s, q[b]) && Period(t, q[b]) == Period(s, q[b])
          && NotRun(s, t, q[b]))
  }

  lemma ProcessIsBatch(s: State, i: nat, now: real, replies: seq<seq<Push>>)
    requires Shaped(s) && i < QUEUES && InBuckets(s)
    requires CarefulExamine(s, i, now, replies, 0, Min(|s.queues[i]|, LIMIT))
    ensures OneBatch(s, Process(s, i, now, replies), i, now)
  {
    hide InBuckets, CarefulExamine, Examine, Takes;
    var q, n, t := s.queues[i], Min(|s.queues[i]|, LIMIT), Process(s, i, now, replies);
    ProcessKeepsRest(s, i, now, replies);
    BatchTime(s, i, now, replies, 0, n);
    forall b | 0 <= b < n && Due(s, q[b], now) ensures Ran(q[b], now) in t.ran[|s.ran|..] {
      DueRuns(s, i, now, replies, b);
    }
    forall b | 0 <= b < n && !Due(s, q[b], now)
      ensures q[b] in t.queues[i][|q| - n..] && SleepsOn(s, t, q[b], i) && NotRun(s, t, q[b])
    {
      EarlyAtBack(s, i, now, replies, 0, n, b);
      EarlySleeps(s, i, now, replies, 0, n, q[b]);
    }
  }

  lemma BatchIfCareful(s: State, i: nat, now: real, replies: seq<seq<Push>>)
    requires Shaped(s) && i < QUEUES
    ensures InBuckets(s) && CarefulExamine(s, i, now, replies, 0, Min(|s.queues[i]|, LIMIT)) ==>
              OneBatch(s, Process(s, i, now, replies), i, now)
  {
    hide InBuckets, CarefulExamine, Process, OneBatch;
    if InBuckets(s) && CarefulExamine(s, i, now, replies, 0, Min(|s.queues[i]|, LIMIT)) {
      ProcessIsBatch(s, i, now, replies);
    }
  }

  lemma DueRuns(s: State, i: nat, now: real, replies: seq<seq<Push>>, b: nat)
    requires Shaped(s) && i < QUEUES && InBuckets(s)
    requires CarefulExamine(s, i, now, replies, 0, Min(|s.queues[i]|, LIMIT))
    requires b < Min(|s.queues[i]|, LIMIT) && Due(s, s.queues[i][b], now)
    ensures var t := Process(s, i, now, replies); s.ran <= t.ran && Ran(s.queues[i][b], now) in t.ran[|s.ran|..]
  {
    hide InBuckets, CarefulExamine, Examine;
    var n, t, c := Min(|s.queues[i]|, LIMIT), Process(s, i, now, replies), s.queues[i][b];
    ProcessTakes(s, i, now, replies);
    ExamineRunsOrSleeps(s, i, now, replies, 0, n, c, i, true);
    BatchTime(s, i, now, replies, 0, n);
    var k :| |s.ran| <= k < |t.ran| && t.ran[k].c == c;
    assert t.ran[|s.ran|..][k - |s.ran|] == Ran(c, now);
  }

  lemma ProcessKeepsRest(s: State, i: nat, now: real, replies: seq<seq<Push>>)
    requires Shaped(s) && i < QUEUES
    ensures s.queues[i][Min(|s.queues[i]|, LIMIT)..] <= Process(s, i, now, replies).queues[i]
  {
    RestKept(s, i, now, replies, 0, Min(|s.queues[i]|, LIMIT));
  }

  // ----- a context that has run -----

  /** No push of the replies is from before `now`: the clock does not run backwards. */
  ghost predicate NotBefore(replies: seq<seq<Push>>, now: real) {
    forall k, m :: 0 <= k < |replies| && 0 <= m < |replies[k]| ==> replies[k][m].at >= now
  }

  lemma {:induction false} AddAllStamps(s: State, pushes: seq<Push>, now: real)
    requires Shaped(s) && forall m :: 0 <= m < |pushes| ==> pushes[m].at >= now
    ensures forall c :: Since(s, c) >= now ==> Since(AddAll(s, pushes), c) >= now
    decreases |pushes|
  {
    if pushes != [] {
      forall m | 0 <= m < |pushes[1..]| ensures pushes[1..][m].at >= now { assert pushes[1..][m] == pushes[m + 1]; }
      AddAllStamps(Add(s, pushes[0]), pushes[1..], now);
    }
  }

  lemma {:induction false} BatchStamps(s: State, i: nat, now: real, replies: seq<seq<Push>>, k: nat, n: nat)
    requires Shaped(s) && i < QUEUES && k <= n <= k + |s.queues[i]| && NotBefore(replies, now)
    ensures var t := Examine(s, i, now, replies, k, n);
            && (forall c :: Since(s, c) >= now ==> Since(t, c) >= now)
            && s.ran <= t.ran && (forall m :: |s.ran| <= m < |t.ran| ==> Since(t, t.ran[m].c) >= now)
    decreases n - k
  {
    if k < n {
      var s1 := ExamineOne(s, i, now, Reply(replies, k));
      var r := Running(s, i, now);
      AddAllStamps(r, Reply(replies, k), now);
      AddAllRan(r, Reply(replies, k));
      ExamineOneTakes(s, i, now, Reply(replies, k));
      assert s.queues[i][1..] <= s1.queues[i];
      assert forall c :: Since(s, c) >= now ==> Since(s1, c) >= now;
      assert forall m :: |s.ran| <= m < |s1.ran| ==> Since(s1, s1.ran[m].c) >= now;
      BatchStamps(s1, i, now, replies, k + 1, n);
    }
  }

  /** Two runs of a context are its period apart: one that runs and is put to sleep again, in
      queue `j`, does not run before its new period has passed since, but for 2 ms. */
  lemma RunsApart(s: State, i: nat, now: real, replies: seq<seq<Push>>, c: Ctx, j: nat, run: seq<Turn>)
    requires Shaped(s) && i < QUEUES && NotBefore(replies, now) && TurnsOk(run) && j < QUEUES
    requires var t := Process(s, i, now, replies);
             && s.ran <= t.ran && (exists m :: |s.ran| <= m < |t.ran| && t.ran[m].c == c)
             && c in t.queues[j] && InBuckets(t) && CarefulRun(t, run)
    ensures var t := Process(s, i, now, replies);
            var u := After(t, run);
            t.ran <= u.ran && forall k :: |t.ran| <= k < |u.ran| && FirstRun(t, u, c, k) ==> u.ran[k].at >= now + Period(t, c) - 2000.0
  {
    hide InBuckets, CarefulRun, After, RunsOrSleeps, Examine;
    var t := Process(s, i, now, replies);
    BatchStamps(s, i, now, replies, 0, Min(|s.queues[i]|, LIMIT));
    RunRunsOrSleeps(t, run, c, j, false);
    FirstIsDue(t, t, After(t, run), c, j);
  }

  // ----- being put to sleep -----

  /** AddToBlockedQueue of a context with a period: it is the last of the queue for such
      periods, and its time stamp is the time at which it goes to sleep or at most 10 ms older;
      nothing else changes. */
  lemma PutToSleep(s: State, p: Push)
    requires Shaped(s) && p.period != 0.0
    ensures var r := Add(s, p);
            var j := if p.period > 50000.0 then 3 else if p.period > 200.0 then 2 else if p.period > 50.0 then 1 else 0;
            && r.queues[j] == s.queues[j] + [p.c] && (forall i :: 0 <= i < QUEUES && i != j ==> r.queues[i] == s.queues[i])
            && Period(r, p.c) == p.period && p.at - 10000.0 <= Since(r, p.c) <= p.at
            && (Since(r, p.c) == p.at || Since(r, p.c) == Since(s, p.c))
            && (p.at - 10000.0 <= Since(s, p.c) <= p.at ==> Since(r, p.c) == Since(s, p.c))
            && (forall c :: c != p.c ==> Period(r, c) == Period(s, c) && Since(r, c) == Since(s, c))
            && r.ran == s.ran && r.examined == s.examined && r.iteration == s.iteration
  {}

  /** Without a period it does not go to a periodic queue. */
  lemma NotPutToSleep(s: State, p: Push)
    requires Shaped(s) && p.period == 0.0
    ensures var r := Add(s, p); r.queues == s.queues && r.since == s.since && Period(r, p.c) == 0.0
    ensures forall c :: c != p.c ==> Period(Add(s, p), c) == Period(s, c)
  {}

  /** So a context that goes to sleep does not run until its period has passed, but for the
      2 ms and the age of its time stamp. */
  lemma SleepsItsPeriod(s: State, p: Push, run: seq<Turn>)
    requires Shaped(s) && InBuckets(s) && !Asleep(s, p.c) && p.period != 0.0 && TurnsOk(run) && CarefulRun(Add(s, p), run)
    ensures var t := After(Add(s, p), run);
            && s.ran <= t.ran
            && forall k :: |s.ran| <= k < |t.ran| && FirstRun(s, t, p.c, k) ==> t.ran[k].at >= p.at + p.period - 12000.0
  {
    hide CarefulRun, After, RunsOrSleeps;
    var s1 := Add(s, p);
    var j := Bucket(p.period);
    PutToSleep(s, p);
    forall i | 0 <= i < QUEUES ensures p.c !in s.queues[i] {}
    assert InBuckets(s1) && p.c in s1.queues[j];
    hide InBuckets, Asleep, Add;
    RunRunsOrSleeps(s1, run, p.c, j, false);
    FirstIsDue(s, s1, After(s1, run), p.c, j);
  }

  lemma FirstIsDue(s: State, s1: State, t: State, c: Ctx, j: nat)
    requires Shaped(t) && j < QUEUES && s1.ran == s.ran && s1.ran <= t.ran && RunsOrSleeps(s1, t, c, j, false)
    ensures forall k :: |s.ran| <= k < |t.ran| && FirstRun(s, t, c, k) ==> Due(s1, c, t.ran[k].at)
  {
    forall k | |s.ran| <= k < |t.ran| && FirstRun(s, t, c, k) ensures Due(s1, c, t.ran[k].at) {
      if RanDue(s1, t, c) {
        var m :| |s1.ran| <= m < |t.ran| && FirstRun(s1, t, c, m) && Due(s1, c, t.ran[m].at);
        assert m == k;
      }
    }
  }

  function UpperBound(i: nat): real
    requires i < QUEUES - 1
  {
    if i == 0 then 50.0 else if i == 1 then 200.0 else 50000.0
  }

  ghost predicate Lowest(s: State, i: nat)
    requires Shaped(s)
  {
    i < QUEUES && s.queues[i] != [] && forall j :: 0 <= j < i ==> s.queues[j] == []
  }

  lemma LowerBucketIsShorter(s: State, i: nat, c: Ctx, j: nat, d: Ctx)
    requires Shaped(s) && InBuckets(s) && i < j < QUEUES && c in s.queues[i] && d in s.queues[j]
    ensures Period(s, c) < Period(s, d)
  {}

  lemma {:induction false} FrontOfLowest(s: State, i: nat, n: nat)
    requires Shaped(s) && InBuckets(s) && Lowest(s, i) && n <= QUEUES
    ensures ShortestFront(s, n) == if n <= i then None else Some(Period(s, s.queues[i][0]))
  {
    if n > 0 {
      FrontOfLowest(s, i, n - 1);
      if n - 1 > i && s.queues[n - 1] != [] {
        LowerBucketIsShorter(s, i, s.queues[i][0], n - 1, s.queues[n - 1][0]);
      }
    }
  }

  /** The worker has no period to suspend for exactly when nothing sleeps. */
  lemma {:induction false} SuspendsForeverIff(s: State, n: nat)
    requires Shaped(s) && n <= QUEUES
    ensures ShortestFront(s, n).None? <==> forall i :: 0 <= i < n ==> s.queues[i] == []
    ensures n == QUEUES ==> (SuspendPeriod(s).None? <==> forall i :: 0 <= i < QUEUES ==> s.queues[i] == [])
  {
    if n > 0 {
      SuspendsForeverIff(s, n - 1);
    }
  }

  /** Otherwise it is the period of the front context of the lowest non-empty queue, and
      never longer than the bound of the bucket that holds the fastest context. */
  lemma SuspendWithinBucket(s: State, i: nat, fastest: Ctx)
    requires Shaped(s) && InBuckets(s) && i < QUEUES && fastest in s.queues[i]
    requires forall j, c :: 0 <= j < QUEUES && c in s.queues[j] ==> Period(s, fastest) <= Period(s, c)
    ensures Lowest(s, i) && SuspendPeriod(s) == Some(Period(s, s.queues[i][0]))
    ensures i < QUEUES - 1 ==> SuspendPeriod(s).value <= UpperBound(i)
  {
    forall j | 0 <= j < i ensures s.queues[j] == [] {
      if s.queues[j] != [] {
        LowerBucketIsShorter(s, j, s.queues[j][0], i, fastest);
      }
    }
    FrontOfLowest(s, i, QUEUES);
    assert s.queues[i][0] in s.queues[i];
  }

  /** It is the shortest period of all, as the code's comment has it, exactly when the front
      context of the lowest non-empty queue is the fastest of that queue. */
  lemma SuspendIsShortestIff(s: State, i: nat)
    requires Shaped(s) && InBuckets(s) && Lowest(s, i)
    ensures SuspendPeriod(s).Some?
    ensures (forall j, c :: 0 <= j < QUEUES && c in s.queues[j] ==> SuspendPeriod(s).value <= Period(s, c))
            <==> (forall c :: c in s.queues[i] ==> Period(s, s.queues[i][0]) <= Period(s, c))
  {
    FrontOfLowest(s, i, QUEUES);
    if forall c :: c in s.queues[i] ==> Period(s, s.queues[i][0]) <= Period(s, c) {
      forall j, c | 0 <= j < QUEUES && c in s.queues[j] ensures SuspendPeriod(s).value <= Period(s, c) {
        if j > i {
          LowerBucketIsShorter(s, i, s.queues[i][0], j, c);
        }
      }
    }
  }

  /** Two contexts are enough for the comment to be wrong: the fast one is behind. */
  lemma FastOneBehind()
    ensures var s := State([[], [], [0, 1], []], map[0 := 40000.0, 1 := 300.0], map[], 0, [], []);
            InBuckets(s) && SuspendPeriod(s) == Some(40000.0) && Period(s, 1) == 300.0
  {
    var s := State([[], [], [0, 1], []], map[0 := 40000.0, 1 := 300.0], map[], 0, [], []);
    FrontOfLowest(s, 2, QUEUES);
  }
}
