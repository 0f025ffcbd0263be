/** Sums over finite maps, in any commutative monoid.

    The runtime's conservation laws speak of totals over many holders: entries over
    all queues, load over all workers, work over all containers.  `Sum` gives these
    totals one definition, and `SumUpdate` is the only fact about them that the
    proofs use: changing one holder changes the total by exactly that holder's part.
 */
module Sums {

  datatype Monoid<!T> = Monoid(zero: T, add: (T, T) -> T)

  /** The two laws that make a sum independent of the order of its terms. */
  ghost predicate Swaps<T(!new)>(g: Monoid<T>) {
    forall a, b, c :: g.add(a, g.add(b, c)) == g.add(b, g.add(a, c))
  }

  ghost predicate HasZero<T(!new)>(g: Monoid<T>) {
    forall a :: g.add(g.zero, a) == a
  }

  ghost function Sum<K, T(!new)>(m: map<K, T>, g: Monoid<T>): T {
    if m == map[] then g.zero
    else
      var k :| k in m;
      g.add(m[k], Sum(m - {k}, g))
  }

  lemma Swap<T(!new)>(g: Monoid<T>, a: T, b: T, c: T)
    requires Swaps(g)
    ensures g.add(a, g.add(b, c)) == g.add(b, g.add(a, c))
  {}

  /** Any holder may be taken first. */
  lemma {:induction false} SumPick<K, T(!new)>(m: map<K, T>, g: Monoid<T>, k: K)
    requires Swaps(g)
    requires k in m
    ensures Sum(m, g) == g.add(m[k], Sum(m - {k}, g))
    decreases |m|
  {
    hide Swaps;
    var p :| p in m && Sum(m, g) == g.add(m[p], Sum(m - {p}, g));
    if p != k {
      SumPick(m - {p}, g, k);
      SumPick(m - {k}, g, p);
      assert m - {p} - {k} == m - {k} - {p};
      var rest := Sum(m - {p} - {k}, g);
      assert Sum(m - {p}, g) == g.add(m[k], rest) && Sum(m - {k}, g) == g.add(m[p], rest);
      Swap(g, m[p], m[k], rest);
    }
  }

  function Get<K, T>(m: map<K, T>, k: K, default: T): T {
    if k in m then m[k] else default
  }

  /** Reading a missing holder as zero, both the old and the new total split into the
      holder's own part and the same rest. */
  lemma SumUpdate<K, T(!new)>(m: map<K, T>, g: Monoid<T>, k: K, v: T)
    requires Swaps(g) && HasZero(g)
    ensures Sum(m, g) == g.add(Get(m, k, g.zero), Sum(m - {k}, g))
    ensures Sum(m[k := v], g) == g.add(v, Sum(m - {k}, g))
  {
    SumPick(m[k := v], g, k);
    assert m[k := v] - {k} == m - {k};
    if k in m {
      SumPick(m, g, k);
    } else {
      assert m - {k} == m;
    }
  }

  const Reals: Monoid<real> := Monoid(0.0, (a: real, b: real) => a + b)
  const Ints: Monoid<int> := Monoid(0, (a: int, b: int) => a + b)

  lemma RealUpdate<K>(m: map<K, real>, k: K, v: real)
    ensures Sum(m[k := v], Reals) == Sum(m, Reals) - Get(m, k, 0.0) + v
  {
    SumUpdate(m, Reals, k, v);
  }

  lemma IntUpdate<K>(m: map<K, int>, k: K, v: int)
    ensures Sum(m[k := v], Ints) == Sum(m, Ints) - Get(m, k, 0) + v
  {
    SumUpdate(m, Ints, k, v);
  }

  lemma {:induction false} SumNonNegative<K>(m: map<K, int>)
    requires forall k :: k in m ==> m[k] >= 0
    ensures Sum(m, Ints) >= 0
    decreases |m|
  {
    if m != map[] {
      var k :| k in m && Sum(m, Ints) == Ints.add(m[k], Sum(m - {k}, Ints));
      SumNonNegative(m - {k});
    }
  }

  function Holding<K>(m: map<K, int>, v: int): set<K> { set k | k in m && m[k] == v }

  lemma HoldingPick<K>(m: map<K, int>, k: K, v: int)
    requires k in m
    ensures |Holding(m, v)| == |Holding(m - {k}, v)| + if m[k] == v then 1 else 0
  {
    assert Holding(m, v) == Holding(m - {k}, v) + if m[k] == v then {k} else {};
  }

  lemma HoldingNone<K>(v: int)
    ensures |Holding<K>(map[], v)| == 0
  {
    assert Holding<K>(map[], v) == {};
  }

  /** A sum of ones and minus ones counts. */
  lemma {:induction false} SumCounts<K>(m: map<K, int>)
    requires forall k :: k in m ==> m[k] == -1 || m[k] == 0 || m[k] == 1
    ensures Sum(m, Ints) == |Holding(m, 1)| - |Holding(m, -1)|
    decreases |m|
  {
    hide Holding;
    HoldingNone<K>(1);
    HoldingNone<K>(-1);
    if m != map[] {
      var k :| k in m;
      IntUpdate(m - {k}, k, m[k]);
      assert (m - {k})[k := m[k]] == m;
      SumCounts(m - {k});
      HoldingPick(m, k, 1);
      HoldingPick(m, k, -1);
    }
  }
}
