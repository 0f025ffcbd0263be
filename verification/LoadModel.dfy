/** The load predictor of a container: one coefficient per method, learnt by gradient
    descent from the costs observed.  Reals stand for the code's floats. */
module LoadModel {
  datatype Stat = Stat(compute: nat, wall: real)

  function Abs(x: real): real { if x < 0.0 then -x else x }

  class Container {
    var cpu: seq<real>          // method_model_
    var cpuError: seq<real>     // method_mape_
    var wall: seq<real>         // method_model_wall_
    var wallError: seq<real>    // method_mape_wall_
    const rate: real            // learning_rate_

    ghost predicate Valid()
      reads this
    {
      |cpu| == |cpuError| && |wall| == |wallError|
    }

    constructor (methods: nat, rate: real)
      ensures Valid() && this.rate == rate && cpu == wall == seq(methods, i => 1.0)
      ensures cpuError == wallError == seq(methods, i => 0.0)
    {
      cpu, wall := seq(methods, i => 1.0), seq(methods, i => 1.0);
      cpuError, wallError := seq(methods, i => 0.0), seq(methods, i => 0.0);
      this.rate := rate;
    }

    /** A method that is not known is predicted like one that is new: its size is its cost. */
    function InferCpuTime(m: nat, stat: Stat): (cost: real)
      reads this
      ensures m >= |cpu| || cpu[m] == 1.0 ==> cost == (stat.compute + 1) as real
    {
      var x := stat.compute as real + 1.0;
      if m < |cpu| then cpu[m] * x else x
    }

    function InferWallClockTime(m: nat, stat: Stat): (cost: real)
      reads this
      ensures m >= |wall| || wall[m] == 1.0 ==> cost == stat.wall + 1.0
    {
      var x := stat.wall + 1.0;
      if m < |wall| then wall[m] * x else x
    }

    /** The coefficient moves by the learning rate times the distance from the coefficient
        the prediction was made with to the observed ratio of cost to size: towards that
        ratio if the prediction was made with the current one. */
    method ReinforceCpuModel(m: nat, predicted: real, actual: real, stat: Stat)
      requires Valid()
      modifies this
      ensures Valid() && wall == old(wall) && wallError == old(wallError)
      ensures m >= |old(cpu)| ==> cpu == old(cpu) && cpuError == old(cpuError)
      ensures m < |old(cpu)| ==>
                && |cpu| == |old(cpu)| && cpu == old(cpu)[m := cpu[m]]
                && |cpuError| == |old(cpuError)| && cpuError == old(cpuError)[m := cpuError[m]]
                && cpu[m] == Moved(old(cpu)[m], rate, predicted / (stat.compute as real + 1.0), actual / (stat.compute as real + 1.0))
                && (predicted == old(InferCpuTime(m, stat)) ==>
                      cpu[m] == Learn(old(cpu)[m], rate, actual / (stat.compute as real + 1.0)))
                && cpuError[m] == Blend(old(cpuError)[m], rate, predicted, actual)
    {
      hide Moved, Learn, Blend, Abs;
      if m >= |cpu| {
        return;
      }
      var x := stat.compute as real + 1.0;
      var e := predicted - actual;
      GradientStep(cpu[m], rate, x, predicted, actual);
      ErrorStep(cpuError[m], rate, predicted, actual);
      cpu := cpu[m := cpu[m] - rate * (e / x)];
      if actual > 0.0 {
        var ape := Abs(e) / actual;
        cpuError := cpuError[m := (1.0 - rate) * cpuError[m] + rate * ape];
      }
    }

    method ReinforceWallModel(m: nat, predicted: real, actual: real, stat: Stat)
      requires Valid() && stat.wall >= 0.0
      modifies this
      ensures Valid() && cpu == old(cpu) && cpuError == old(cpuError)
      ensures m >= |old(wall)| ==> wall == old(wall) && wallError == old(wallError)
      ensures m < |old(wall)| ==>
                && |wall| == |old(wall)| && wall == old(wall)[m := wall[m]]
                && |wallError| == |old(wallError)| && wallError == old(wallError)[m := wallError[m]]
                && wall[m] == Moved(old(wall)[m], rate, predicted / (stat.wall + 1.0), actual / (stat.wall + 1.0))
                && (predicted == old(InferWallClockTime(m, stat)) ==>
                      wall[m] == Learn(old(wall)[m], rate, actual / (stat.wall + 1.0)))
                && wallError[m] == Blend(old(wallError)[m], rate, predicted, actual)
    {
      hide Moved, Learn, Blend, Abs;
      if m >= |wall| {
        return;
      }
      var x := stat.wall + 1.0;
      var e := predicted - actual;
      GradientStep(wall[m], rate, x, predicted, actual);
      ErrorStep(wallError[m], rate, predicted, actual);
      wall := wall[m := wall[m] - rate * (e / x)];
      if actual > 0.0 {
        var ape := Abs(e) / actual;
        wallError := wallError[m := (1.0 - rate) * wallError[m] + rate * ape];
      }
    }
  }

  /** The coefficient `a` after observing a cost-to-size ratio that had been predicted with
      coefficient `p`. */
  function Moved(a: real, rate: real, p: real, ratio: real): real { a + rate * (ratio - p) }

  /** ... with the current one. */
  function Learn(a: real, rate: real, ratio: real): real { Moved(a, rate, a, ratio) }

  /** The running error estimate; a cost of zero or less leaves it alone. */
  function Blend(old': real, rate: real, predicted: real, actual: real): real {
    if actual > 0.0 then Learn(old', rate, Abs(predicted - actual) / actual) else old'
  }

  /** The code's step, written with the error and the size, is that move. */
  lemma GradientStep(a: real, rate: real, x: real, predicted: real, actual: real)
    requires x > 0.0
    ensures a - rate * ((predicted - actual) / x) == Moved(a, rate, predicted / x, actual / x)
    ensures predicted == a * x ==> a - rate * ((predicted - actual) / x) == Learn(a, rate, actual / x)
  {
    var p, r := predicted / x, actual / x;
    assert predicted == p * x && actual == r * x;
    assert predicted - actual == (p - r) * x;
    Divides(p - r, x);
    Divides(a, x);
    assert a - rate * (p - r) == a + rate * (r - p);
  }

  lemma ErrorStep(old': real, rate: real, predicted: real, actual: real)
    ensures Blend(old', rate, predicted, actual)
            == if actual > 0.0 then (1.0 - rate) * old' + rate * (Abs(predicted - actual) / actual) else old'
  {
    hide Abs;
    if actual > 0.0 {
      Weighted(old', rate, Abs(predicted - actual) / actual);
    }
  }

  lemma Weighted(a: real, rate: real, b: real)
    ensures Learn(a, rate, b) == (1.0 - rate) * a + rate * b
  {}

  lemma Divides(y: real, x: real)
    requires x != 0.0
    ensures y * x / x == y
  {}

  // ----- learning over a run -----

  function LearnAll(a: real, rate: real, ratios: seq<real>): real
    decreases |ratios|
  {
    if ratios == [] then a else LearnAll(Learn(a, rate, ratios[0]), rate, ratios[1..])
  }

  predicate Within(low: real, x: real, high: real) { low <= x <= high }

  lemma LearnStays(a: real, rate: real, ratio: real, low: real, high: real)
    requires 0.0 < rate <= 1.0 && Within(low, a, high) && Within(low, ratio, high)
    ensures Within(low, Learn(a, rate, ratio), high)
  {
    hide Learn;
    LearnFrom(a, rate, ratio, low);
    LearnFrom(a, rate, ratio, high);
    Product(1.0 - rate, a - low);
    Product(1.0 - rate, high - a);
    Product(rate, ratio - low);
    Product(rate, high - ratio);
    assert (1.0 - rate) * (a - high) == -((1.0 - rate) * (high - a));
    assert rate * (ratio - high) == -(rate * (high - ratio));
  }

  lemma Product(x: real, y: real)
    requires x >= 0.0 && y >= 0.0
    ensures x * y >= 0.0
  {}

  /** Seen from any point, the new coefficient is the weighted mean of the old one and the
      ratio. */
  lemma LearnFrom(a: real, rate: real, ratio: real, base: real)
    ensures Learn(a, rate, ratio) - base == (1.0 - rate) * (a - base) + rate * (ratio - base)
  {}

  lemma Scale(k: real, x: real, y: real)
    requires k >= 0.0 && x <= y
    ensures k * x <= k * y
  {}

  /** Learning from one task after the other, each predicted with the current coefficient,
      never leaves the range spanned by where it started and the ratios it has seen. */
  lemma {:induction false} StaysInHull(a: real, rate: real, ratios: seq<real>, low: real, high: real)
    requires 0.0 < rate <= 1.0 && Within(low, a, high)
    requires forall i :: 0 <= i < |ratios| ==> Within(low, ratios[i], high)
    ensures Within(low, LearnAll(a, rate, ratios), high)
    decreases |ratios|
  {
    if ratios != [] {
      LearnStays(a, rate, ratios[0], low, high);
      StaysInHull(Learn(a, rate, ratios[0]), rate, ratios[1..], low, high);
    }
  }

  function Power(x: real, n: nat): real { if n == 0 then 1.0 else x * Power(x, n - 1) }

  /** ... and for a constant ratio the error shrinks by exactly the factor 1 - rate each
      time. */
  lemma {:induction false} ErrorDecays(a: real, rate: real, ratio: real, n: nat)
    ensures LearnAll(a, rate, seq(n, i => ratio)) - ratio == Power(1.0 - rate, n) * (a - ratio)
    decreases n
  {
    hide Learn;
    if n > 0 {
      var ratios := seq(n, i => ratio);
      assert ratios[1..] == seq(n - 1, i => ratio);
      ErrorDecays(Learn(a, rate, ratio), rate, ratio, n - 1);
      OneStepError(a, rate, ratio);
      var k, p := 1.0 - rate, Power(1.0 - rate, n - 1);
      Regroup(p, k, a - ratio);
      assert Power(k, n) == k * p;
    }
  }

  lemma OneStepError(a: real, rate: real, ratio: real)
    ensures Learn(a, rate, ratio) - ratio == (1.0 - rate) * (a - ratio)
  {
    hide Learn;
    LearnFrom(a, rate, ratio, ratio);
  }

  lemma Regroup(p: real, k: real, d: real)
    ensures p * (k * d) == k * p * d
  {}

  /** A step predicted with the current coefficient moves towards a ratio exactly when the
      rate is between 0 and 2, and up to rate 1 it does not overshoot. */
  lemma StepApproachesIff(a: real, rate: real, ratio: real)
    requires a != ratio
    ensures Abs(Learn(a, rate, ratio) - ratio) < Abs(a - ratio) <==> 0.0 < rate < 2.0
    ensures 0.0 < rate <= 1.0 ==> Within(0.0, (Learn(a, rate, ratio) - ratio) / (a - ratio), 1.0)
  {
    hide Learn;
    var d, k := a - ratio, 1.0 - rate;
    LearnFrom(a, rate, ratio, ratio);
    assert rate * (ratio - ratio) == 0.0;
    assert Learn(a, rate, ratio) - ratio == k * d;
    ShrinksIff(k, d);
    Divides(k, d);
    assert (Learn(a, rate, ratio) - ratio) / d == k;
  }

  lemma ShrinksIff(k: real, d: real)
    requires d != 0.0
    ensures Abs(k * d) < Abs(d) <==> -1.0 < k < 1.0
  {
    var p := k * d;
    if d > 0.0 {
      Compare(d, k);
      assert Abs(p) < d <==> -d < p < d;
    } else {
      var e := -d;
      Compare(e, k);
      assert k * e == -p;
      assert -e < -p < e <==> -e < p < e;
      assert Abs(p) < e <==> -e < p < e;
    }
  }

  lemma Compare(d: real, k: real)
    requires d > 0.0
    ensures k * d < d <==> k < 1.0
    ensures -d < k * d <==> -1.0 < k
  {
    if k < 1.0 { StrictScale(d, k, 1.0); } else { Scale(d, 1.0, k); }
    if -1.0 < k { StrictScale(d, -1.0, k); } else { Scale(d, k, -1.0); }
  }

  lemma StrictScale(k: real, x: real, y: real)
    requires k > 0.0 && x < y
    ensures k * x < k * y
  {}

  // ----- the error estimate -----

  /** A cost predicted and observed. */
  datatype Observation = Observation(predicted: real, actual: real)

  function BlendAll(error: real, rate: real, seen: seq<Observation>): real
    decreases |seen|
  {
    if seen == [] then error else BlendAll(Blend(error, rate, seen[0].predicted, seen[0].actual), rate, seen[1..])
  }

  /** The relative errors of the predictions whose cost was positive. */
  function RelativeErrors(seen: seq<Observation>): seq<real> {
    if seen == [] then []
    else
      (if seen[0].actual > 0.0 then
         [(if seen[0].predicted > seen[0].actual then seen[0].predicted - seen[0].actual else seen[0].actual - seen[0].predicted)
          / seen[0].actual]
       else [])
      + RelativeErrors(seen[1..])
  }

  /** The estimate is learnt from the relative errors as the coefficient is from the ratios,
      and from nothing else. */
  lemma {:induction false} EstimateLearns(error: real, rate: real, seen: seq<Observation>)
    ensures BlendAll(error, rate, seen) == LearnAll(error, rate, RelativeErrors(seen))
    decreases |seen|
  {
    hide Learn;
    if seen != [] {
      var rest := RelativeErrors(seen[1..]);
      EstimateLearns(Blend(error, rate, seen[0].predicted, seen[0].actual), rate, seen[1..]);
      if seen[0].actual > 0.0 {
        var e := Abs(seen[0].predicted - seen[0].actual) / seen[0].actual;
        assert RelativeErrors(seen) == [e] + rest;
        assert ([e] + rest)[1..] == rest;
      } else {
        assert [] + rest == rest;
      }
    }
  }

  /** So it never leaves the range of the relative errors seen, nor becomes negative; and for
      a constant one, what is left of its own error after n of them is (1 - rate)^n. */
  lemma EstimateIsMean(error: real, rate: real, seen: seq<Observation>, low: real, high: real)
    requires 0.0 < rate <= 1.0 && Within(low, error, high)
    requires forall i :: 0 <= i < |RelativeErrors(seen)| ==> Within(low, RelativeErrors(seen)[i], high)
    ensures Within(low, BlendAll(error, rate, seen), high)
    ensures (forall i :: 0 <= i < |RelativeErrors(seen)| ==> RelativeErrors(seen)[i] == high) ==>
              BlendAll(error, rate, seen) - high == Power(1.0 - rate, |RelativeErrors(seen)|) * (error - high)
  {
    hide BlendAll, LearnAll, RelativeErrors, Power;
    EstimateLearns(error, rate, seen);
    var es := RelativeErrors(seen);
    StaysInHull(error, rate, es, low, high);
    if forall i :: 0 <= i < |es| ==> es[i] == high {
      ConstantErrors(es, high);
      ErrorDecays(error, rate, high, |es|);
    }
  }

  lemma ConstantErrors(es: seq<real>, e: real)
    requires forall i :: 0 <= i < |es| ==> es[i] == e
    ensures es == seq(|es|, i => e)
  {}

  // ----- predictions made with an older coefficient -----

  /** One observation leaves the coefficient between `low` and `high`, whatever ratio in
      that range is observed, exactly when the move cannot pass either end. */
  lemma MovedStaysIff(a: real, rate: real, p: real, low: real, high: real)
    requires rate > 0.0 && Within(low, a, high) && Within(low, p, high)
    ensures (forall ratio :: Within(low, ratio, high) ==> Within(low, Moved(a, rate, p, ratio), high))
            <==> MayMove(a, rate, p, low, high)
  {
    hide Moved;
    MovedAt(a, rate, p, low);
    MovedAt(a, rate, p, high);
    if MayMove(a, rate, p, low, high) {
      forall ratio | Within(low, ratio, high) ensures Within(low, Moved(a, rate, p, ratio), high) {
        MovedStays(a, rate, p, ratio, low, high);
      }
    } else {
      assert Within(low, low, high) && Within(low, high, high);
      assert !Within(low, Moved(a, rate, p, low), high) || !Within(low, Moved(a, rate, p, high), high);
    }
  }

  /** The distance the prediction can be wrong by, times the rate, is at most the distance
      to the end it points at. */
  predicate MayMove(a: real, rate: real, p: real, low: real, high: real) {
    rate * (p - low) <= a - low && rate * (high - p) <= high - a
  }

  lemma MovedAt(a: real, rate: real, p: real, end: real)
    ensures Moved(a, rate, p, end) - end == (a - end) - rate * (p - end)
    ensures end - Moved(a, rate, p, end) == (end - a) - rate * (end - p)
  {
    assert rate * (end - p) == -(rate * (p - end));
  }

  lemma MovedStays(a: real, rate: real, p: real, ratio: real, low: real, high: real)
    requires rate > 0.0 && Within(low, ratio, high) && MayMove(a, rate, p, low, high)
    ensures Within(low, Moved(a, rate, p, ratio), high)
  {
    Scale(rate, low - p, ratio - p);
    Scale(rate, ratio - p, high - p);
    assert rate * (low - p) == -(rate * (p - low));
  }

  /** With the current coefficient that is so up to rate 1. */
  lemma CurrentMayMove(a: real, rate: real, low: real, high: real)
    requires 0.0 < rate <= 1.0 && Within(low, a, high)
    ensures MayMove(a, rate, a, low, high)
  {
    Product(1.0 - rate, a - low);
    Product(1.0 - rate, high - a);
  }

  // ----- overlapping tasks -----

  type Tid = nat

  /** A task of the method starts, its cost predicted there and then, or ends with the ratio
      observed. */
  datatype Event = Starts(t: Tid) | Ends(t: Tid, ratio: real)

  /** The coefficient, and for each task under way the one it was predicted with. */
  datatype Model = Model(a: real, predicted: map<Tid, real>)

  predicate Can(m: Model, e: Event) {
    match e
    case Starts(t) => t !in m.predicted
    case Ends(t, _) => t in m.predicted
  }

  function Do(m: Model, rate: real, e: Event): Model
    requires Can(m, e)
  {
    match e
    case Starts(t) => m.(predicted := m.predicted[t := m.a])
    case Ends(t, ratio) => Model(Moved(m.a, rate, m.predicted[t], ratio), m.predicted - {t})
  }

  predicate IsRun(m: Model, rate: real, run: seq<Event>)
    decreases |run|
  {
    run == [] || (Can(m, run[0]) && IsRun(Do(m, rate, run[0]), rate, run[1..]))
  }

  function After(m: Model, rate: real, run: seq<Event>): Model
    requires IsRun(m, rate, run)
    decreases |run|
  {
    if run == [] then m else After(Do(m, rate, run[0]), rate, run[1..])
  }

  /** Every task that ends was predicted with a coefficient from which it may move. */
  predicate Careful(m: Model, rate: real, run: seq<Event>, low: real, high: real)
    requires IsRun(m, rate, run)
    decreases |run|
  {
    run == []
    || ((run[0].Ends? ==> Within(low, run[0].ratio, high) && MayMove(m.a, rate, m.predicted[run[0].t], low, high))
        && Careful(Do(m, rate, run[0]), rate, run[1..], low, high))
  }

  predicate AllWithin(m: Model, low: real, high: real) {
    Within(low, m.a, high) && forall t :: t in m.predicted ==> Within(low, m.predicted[t], high)
  }

  /** However tasks overlap, the coefficient and all predictions under way stay in the range
      as long as every ending task meets that condition. */
  lemma {:induction false} OverlapsStay(m: Model, rate: real, run: seq<Event>, low: real, high: real)
    requires rate > 0.0 && IsRun(m, rate, run) && AllWithin(m, low, high) && Careful(m, rate, run, low, high)
    ensures AllWithin(After(m, rate, run), low, high)
    decreases |run|
  {
    hide Moved, MayMove;
    if run != [] {
      if run[0].Ends? {
        MovedStays(m.a, rate, m.predicted[run[0].t], run[0].ratio, low, high);
      }
      OverlapsStay(Do(m, rate, run[0]), rate, run[1..], low, high);
    }
  }

  /** On any run to a state in the range: the next task to end can be trusted with every
      ratio in the range exactly when it meets the condition. */
  lemma NextEndStaysIff(m: Model, rate: real, run: seq<Event>, t: Tid, low: real, high: real)
    requires rate > 0.0 && IsRun(m, rate, run) && AllWithin(After(m, rate, run), low, high) && t in After(m, rate, run).predicted
    ensures var n := After(m, rate, run);
            (forall ratio :: Within(low, ratio, high) ==> AllWithin(Do(n, rate, Ends(t, ratio)), low, high))
            <==> MayMove(n.a, rate, n.predicted[t], low, high)
  {
    hide Moved, MayMove;
    var n := After(m, rate, run);
    MovedStaysIff(n.a, rate, n.predicted[t], low, high);
    forall ratio | Within(low, ratio, high)
      ensures AllWithin(Do(n, rate, Ends(t, ratio)), low, high) <==> Within(low, Moved(n.a, rate, n.predicted[t], ratio), high)
    {}
  }

  /** Every ending task was predicted with the coefficient of that moment, as when no other
      task of the method ends while it is under way. */
  predicate Current(m: Model, rate: real, run: seq<Event>, low: real, high: real)
    requires IsRun(m, rate, run)
    decreases |run|
  {
    run == []
    || ((run[0].Ends? ==> Within(low, run[0].ratio, high) && m.predicted[run[0].t] == m.a)
        && Current(Do(m, rate, run[0]), rate, run[1..], low, high))
  }

  lemma {:induction false} CurrentRunsStay(m: Model, rate: real, run: seq<Event>, low: real, high: real)
    requires 0.0 < rate <= 1.0 && IsRun(m, rate, run) && AllWithin(m, low, high) && Current(m, rate, run, low, high)
    ensures Careful(m, rate, run, low, high) && AllWithin(After(m, rate, run), low, high)
    decreases |run|
  {
    hide Moved, MayMove;
    if run != [] {
      if run[0].Ends? {
        CurrentMayMove(m.a, rate, low, high);
        MovedStays(m.a, rate, m.predicted[run[0].t], run[0].ratio, low, high);
      }
      CurrentRunsStay(Do(m, rate, run[0]), rate, run[1..], low, high);
    }
  }

  // ----- a batch of tasks predicted alike -----

  /** Tasks `from` to `n` - 1 start one after the other. */
  function Starting(from: nat, n: nat): seq<Event>
    decreases n - from
  {
    if from >= n then [] else [Starts(from)] + Starting(from + 1, n)
  }

  /** ... and end, each with the same ratio. */
  function Ending(from: nat, n: nat, ratio: real): seq<Event>
    decreases n - from
  {
    if from >= n then [] else [Ends(from, ratio)] + Ending(from + 1, n, ratio)
  }

  lemma {:induction false} JoinRuns(m: Model, rate: real, p: seq<Event>, q: seq<Event>)
    requires IsRun(m, rate, p) && IsRun(After(m, rate, p), rate, q)
    ensures IsRun(m, rate, p + q) && After(m, rate, p + q) == After(After(m, rate, p), rate, q)
    decreases |p|
  {
    if p == [] {
      assert p + q == q;
    } else {
      assert (p + q)[0] == p[0] && (p + q)[1..] == p[1..] + q;
      JoinRuns(Do(m, rate, p[0]), rate, p[1..], q);
    }
  }

  lemma {:induction false} StartingAll(m: Model, rate: real, from: nat, n: nat)
    requires forall t :: from <= t < n ==> t !in m.predicted
    ensures IsRun(m, rate, Starting(from, n))
    ensures var r := After(m, rate, Starting(from, n));
            && r.a == m.a
            && (forall t :: t in r.predicted <==> t in m.predicted || from <= t < n)
            && (forall t :: from <= t < n ==> r.predicted[t] == m.a)
            && (forall t :: t in m.predicted ==> r.predicted[t] == m.predicted[t])
    decreases n - from
  {
    if from < n {
      var run := Starting(from, n);
      assert run[0] == Starts(from) && run[1..] == Starting(from + 1, n);
      var next := Do(m, rate, Starts(from));
      StartingAll(next, rate, from + 1, n);
      assert next.predicted[from] == m.a;
    }
  }

  lemma {:induction false} EndingAll(m: Model, rate: real, p: real, from: nat, n: nat, ratio: real)
    requires from <= n && forall t :: from <= t < n ==> t in m.predicted && m.predicted[t] == p
    ensures IsRun(m, rate, Ending(from, n, ratio))
    ensures After(m, rate, Ending(from, n, ratio)).a == m.a + (n - from) as real * (rate * (ratio - p))
    decreases n - from
  {
    if from < n {
      var run := Ending(from, n, ratio);
      assert run[0] == Ends(from, ratio) && run[1..] == Ending(from + 1, n, ratio);
      EndingAll(Do(m, rate, Ends(from, ratio)), rate, p, from + 1, n, ratio);
      OneMore((n - from - 1) as real, rate * (ratio - p));
    }
  }

  lemma OneMore(k: real, x: real)
    ensures x + k * x == (k + 1.0) * x
  {}

  /** `n` tasks that overlap, all predicted with the same coefficient and all observed with
      the same ratio, together move it `n` times as far as one: the error is multiplied by
      1 - n * rate. */
  lemma BatchMoves(a: real, rate: real, n: nat, ratio: real) returns (run: seq<Event>)
    ensures run == Starting(0, n) + Ending(0, n, ratio) && IsRun(Model(a, map[]), rate, run)
    ensures var b := After(Model(a, map[]), rate, run).a;
            b == a + n as real * (rate * (ratio - a)) && b - ratio == (1.0 - n as real * rate) * (a - ratio)
  {
    var m := Model(a, map[]);
    run := Starting(0, n) + Ending(0, n, ratio);
    StartingAll(m, rate, 0, n);
    EndingAll(After(m, rate, Starting(0, n)), rate, a, 0, n, ratio);
    JoinRuns(m, rate, Starting(0, n), Ending(0, n, ratio));
    var k, d := n as real, a - ratio;
    assert k * (rate * (ratio - a)) == -(k * rate * d);
  }

  /** So the coefficient stays between where it was and the ratio observed exactly when the
      rate times the number of tasks is at most 1. */
  lemma BatchStaysIff(a: real, rate: real, n: nat, ratio: real) returns (run: seq<Event>)
    requires rate > 0.0 && a != ratio
    ensures run == Starting(0, n) + Ending(0, n, ratio) && IsRun(Model(a, map[]), rate, run)
    ensures var b := After(Model(a, map[]), rate, run).a;
            (if a < ratio then Within(a, b, ratio) else Within(ratio, b, a)) <==> n as real * rate <= 1.0
  {
    run := BatchMoves(a, rate, n, ratio);
    var k, d := 1.0 - n as real * rate, a - ratio;
    Product(n as real, rate);
    if d > 0.0 {
      SignOf(k, d);
      SignOf(1.0 - k, d);
      assert (1.0 - k) * d == d - k * d;
    } else {
      SignOf(k, -d);
      SignOf(1.0 - k, -d);
      assert k * -d == -(k * d);
      assert (1.0 - k) * -d == k * d - d;
    }
  }

  lemma SignOf(x: real, y: real)
    requires y > 0.0
    ensures x * y >= 0.0 <==> x >= 0.0
  {
    if x < 0.0 { StrictScale(y, x, 0.0); } else { Product(x, y); }
  }

  /** With the default rate six overlapping tasks that cost nothing make every later load
      prediction negative. */
  lemma SixMakeItNegative() returns (run: seq<Event>)
    ensures IsRun(Model(1.0, map[]), 0.2, run) && After(Model(1.0, map[]), 0.2, run).a == -0.2
  {
    run := BatchMoves(1.0, 0.2, 6, 0.0);
  }

  /** One observation comes nearer the ratio exactly when the prediction erred to the same
      side as the coefficient does now, and by not too much. */
  lemma StaleStepApproachesIff(a: real, rate: real, p: real, ratio: real)
    ensures Abs(Moved(a, rate, p, ratio) - ratio) < Abs(a - ratio) <==>
            if a > ratio then 0.0 < rate * (p - ratio) < 2.0 * (a - ratio)
            else 2.0 * (a - ratio) < rate * (p - ratio) < 0.0
  {
    hide Moved, Abs;
    MovedAt(a, rate, p, ratio);
    Nearer(a - ratio, rate * (p - ratio));
  }

  lemma Nearer(d: real, k: real)
    ensures Abs(d - k) < Abs(d) <==> if d > 0.0 then 0.0 < k < 2.0 * d else 2.0 * d < k < 0.0
  {}
}
