/** Routing of a task from node to node: how a pool query is resolved against one node's
    tables, split, sent and resolved again until every piece runs somewhere. */
module Routing {
  import opened PoolQueries

  /** One node's tables for one pool.  `num` is 0 when the node does not know the pool. */
  datatype View = View(
    node: u32,
    hosts: nat,              // known cluster size
    containers: set<u32>,    // containers_: those living here
    local: u32,              // local_container_: the default one
    addr: map<u32, u32>,     // address_map_
    num: u32,
    neighborhood: u32)       // configured split width

  type World = map<u32, View>

  ghost predicate ValidWorld(w: World) {
    forall n :: n in w ==> w[n].node == n && w[n].neighborhood > 0
  }

  function NodeFor(v: View, c: u32): u32 { if c in v.addr then v.addr[c] else 0 }

  // ----- splitting a range -----

  /** A quotient lies where its multiples say it does. */
  lemma QuotientBetween(a: nat, b: nat, low: nat, high: nat)
    requires b > 0 && low * b <= a < (high + 1) * b
    ensures low <= a / b <= high
  {
    var q := a / b;
    assert a == q * b + a % b;
    if q < low {
      assert (q + 1) * b <= low * b by { MulMono(q + 1, low, b); }
    } else if q > high {
      MulMono(high + 1, q, b);
    }
  }

  lemma MulMono(x: nat, y: nat, b: nat)
    requires x <= y
    ensures x * b <= y * b
  {}

  /** `count + k - 1` in 32 bits. */
  function Sum32(count: u32, k: u32): (s: u32)
    requires count > 0 && k > 0
    ensures s == if count + k - 1 < U32 then count + k - 1 else count + k - 1 - U32
  {
    (count + k - 1) % U32
  }

  /** queries_to_create, with the 32-bit wrap of `count + k - 1`. */
  function Width(count: u32, k: u32): (q: u32)
    requires count > 0 && k > 0
    ensures 0 < q <= count
  {
    IdealFits(count, k);
    var ideal := Sum32(count, k) / k;
    var capped := if ideal <= k then ideal else k;
    if capped <= 1 then count else capped
  }

  lemma IdealFits(count: u32, k: u32)
    requires count > 0 && k > 0
    ensures 0 <= Sum32(count, k) / k <= count
  {
    MulMono(1, k, count);
    assert (count + 1) * k == k * count + k;
    QuotientBetween(Sum32(count, k), k, 0, count);
  }

  /** Size and start of piece `i` when `count` is cut into `q`. */
  function PieceSize(count: u32, q: u32, i: nat): nat
    requires q > 0
  {
    count / q + if i < count % q then 1 else 0
  }

  function PieceStart(count: u32, q: u32, i: nat): nat
    requires q > 0
  {
    MulMono(0, i, count / q);
    i * (count / q) + if i < count % q then i else count % q
  }

  /** Pieces are laid end to end, are not empty, differ by at most one, the longer ones first,
      and cover the range. */
  lemma PiecesTile(count: u32, q: u32, i: nat)
    requires 0 < q <= count && i < q
    ensures PieceStart(count, q, 0) == 0
    ensures PieceStart(count, q, i + 1) == PieceStart(count, q, i) + PieceSize(count, q, i) <= count
    ensures PieceStart(count, q, q) == count
    ensures 1 <= PieceSize(count, q, i)
    ensures forall j :: 0 <= j < q ==> -1 <= PieceSize(count, q, i) - PieceSize(count, q, j) <= 1
    ensures forall j :: i <= j < q ==> PieceSize(count, q, j) <= PieceSize(count, q, i)
  {
    var per := count / q;
    Division(count, q);
    OneMoreTimes(i, per);
    MulMono(i + 1, q, per);
  }

  lemma Division(a: nat, b: nat)
    requires 0 < b <= a
    ensures a == b * (a / b) + a % b && 0 <= a % b < b && a / b >= 1
  {
    QuotientBetween(a, b, 1, a);
  }

  lemma OneMoreTimes(i: nat, x: nat)
    ensures (i + 1) * x == i * x + x
  {}

  /** The pieces as queries; offsets are 32-bit container ids and wrap. */
  ghost function Pieces(offset: u32, count: u32, q: u32): (pieces: seq<PoolQuery>)
    requires 0 < q <= count
    ensures |pieces| == q
  {
    seq(q, i requires 0 <= i < q => Piece(offset, count, q, i))
  }

  ghost function Piece(offset: u32, count: u32, q: u32, i: nat): PoolQuery
    requires 0 < q <= count && i < q
  {
    PiecesTile(count, q, i);
    Range((offset + PieceStart(count, q, i)) % U32, PieceSize(count, q, i))
  }

  lemma StartsAtZero(offset: u32, count: u32, q: u32)
    requires 0 < q <= count
    ensures PieceStart(count, q, 0) == 0
    ensures Pieces(offset, count, q)[..0] == [] && Pieces(offset, count, q)[..q] == Pieces(offset, count, q)
  {
    PiecesTile(count, q, 0);
  }

  /** The loop of ResolveRangeQuery. */
  method SplitRange(offset: u32, count: u32, k: u32) returns (pieces: seq<PoolQuery>)
    requires count >= 2 && k > 0
    ensures pieces == Pieces(offset, count, Width(count, k))
    ensures FewestPieces(|pieces|, count, k)
  {
    WidthIsFewest(count, k);
    hide Width, Pieces, PieceStart, FewestPieces;
    StartsAtZero(offset, count, Width(count, k));
    var queries := Width(count, k);
    var perQuery := count / queries;
    var remaining := count % queries;
    var current: u32 := offset;
    pieces := [];
    var i := 0;
    while i < queries
      invariant 0 <= i <= queries
      invariant current == (offset + PieceStart(count, queries, i)) % U32
      invariant pieces == Pieces(offset, count, queries)[..i]
    {
      var size := perQuery;
      if i < remaining {
        size := size + 1;
      }
      NextPiece(offset, count, queries, i);
      if size > 0 {
        pieces := pieces + [Range(current, size)];
        current := (current + size) % U32;
      }
      i := i + 1;
    }
  }

  lemma NextPiece(offset: u32, count: u32, q: u32, i: nat)
    requires 0 < q <= count && i < q
    ensures var size := PieceSize(count, q, i);
            var current := (offset + PieceStart(count, q, i)) % U32;
            && 0 < size <= count
            && Pieces(offset, count, q)[..i] + [Range(current, size)] == Pieces(offset, count, q)[..i + 1]
            && (current + size) % U32 == (offset + PieceStart(count, q, i + 1)) % U32
  {
    PiecesTile(count, q, i);
    hide PieceStart, PieceSize;
    WrapAdd(offset + PieceStart(count, q, i), PieceSize(count, q, i));
    var pieces := Pieces(offset, count, q);
    assert pieces[i] == Piece(offset, count, q, i);
    assert pieces[..i + 1] == pieces[..i] + [pieces[i]];
  }

  lemma WrapAdd(a: nat, b: nat)
    ensures (a % U32 + b) % U32 == (a + b) % U32
  {
    var x := (a % U32 + b) / U32;
    assert a + b == U32 * (a / U32 + x) + (a % U32 + b) % U32;
  }

  /** `n` is the least number of pieces of at most `k` containers each, or `k` if that is
      less; but one piece for each container when one range would do, when no two are
      allowed, and when the 32-bit sum wraps. */
  predicate FewestPieces(n: nat, count: u32, k: u32) {
    if count <= k || k == 1 || count + k - 1 >= U32 then n == count
    else 2 <= n <= k && (n - 1) * k < count && (count <= n * k || n == k)
  }

  lemma WidthIsFewest(count: u32, k: u32)
    requires count > 0 && k > 0
    ensures FewestPieces(Width(count, k), count, k)
  {
    if count + k - 1 >= U32 {
      QuotientBetween(Sum32(count, k), k, 0, 0);
    } else if count <= k {
      QuotientBetween(count + k - 1, k, 0, 1);
    } else if k > 1 {
      CeilFacts(count, k);
      CeilIsLeast(count, k);
      var ideal := Sum32(count, k) / k;
      if ideal > k {
        MulMono(k - 1, ideal - 1, k);
      }
    }
  }

  lemma CeilIsLeast(count: u32, k: u32)
    requires k < count && k > 0 && count + k - 1 < U32
    ensures (Sum32(count, k) / k - 1) * k < count
  {
    var a := count + k - 1;
    var c := a / k;
    assert a == c * k + a % k;
    assert (c - 1) * k == c * k - k;
  }

  /** Fewer pieces would each have to be longer, and the answer is the only one. */
  lemma FewestIsUnique(n: nat, m: nat, count: u32, k: u32)
    requires k > 0 && FewestPieces(n, count, k)
    ensures FewestPieces(m, count, k) ==> m == n
    ensures count > k > 1 && count + k - 1 < U32 && m < n ==> m * k < count
  {
    if count > k > 1 && count + k - 1 < U32 {
      if m < n { MulMono(m, n - 1, k); }
      if n < m { MulMono(n, m - 1, k); }
    }
  }

  /** At most K pieces exactly when the range has at most K containers, or K is at least
      two and the 32-bit sum does not wrap. */
  lemma FanOutIff(count: u32, k: u32)
    requires count > 0 && k > 0
    ensures Width(count, k) <= k <==> count <= k || (k >= 2 && count + k - 1 < U32)
  {
    if count + k - 1 >= U32 {
      QuotientBetween(Sum32(count, k), k, 0, 0);
    } else if count > k {
      if k >= 2 {
        CeilFacts(count, k);
      }
    }
  }

  lemma CeilFacts(count: u32, k: u32)
    requires k < count && k > 0 && count + k - 1 < U32
    ensures 2 <= Sum32(count, k) / k && count <= Sum32(count, k) / k * k
  {
    var a := count + k - 1;
    var c := a / k;
    assert a == c * k + a % k;
    if c < 2 {
      MulMono(c, 1, k);
    }
  }

  function Power(k: nat, d: nat): nat { if d == 0 then 1 else k * Power(k, d - 1) }

  /** Splitting, and splitting the pieces again, reaches single containers in at most
      `d` rounds. */
  ghost predicate WithinDepth(count: u32, k: u32, d: nat)
    requires k > 0
    decreases d
  {
    count <= 1 || (d > 0 && forall i: nat :: i < Width(count, k) ==> WithinDepth(PieceSize32(count, k, i), k, d - 1))
  }

  ghost function PieceSize32(count: u32, k: u32, i: nat): (size: u32)
    requires count > 0 && k > 0 && i < Width(count, k)
    ensures 0 < size <= count
  {
    PiecesTile(count, Width(count, k), i);
    PieceSize(count, Width(count, k), i)
  }

  lemma {:induction false} DepthBound(count: u32, k: u32, d: nat)
    requires k >= 2 && count + k - 1 < U32 && count <= Power(k, d)
    ensures WithinDepth(count, k, d)
    decreases d
  {
    hide Width, PieceSize, PieceSize32;
    if count > 1 {
      forall i: nat | i < Width(count, k) ensures WithinDepth(PieceSize32(count, k, i), k, d - 1) {
        PieceFits(count, k, d, i);
        DepthBound(PieceSize32(count, k, i), k, d - 1);
      }
    }
  }

  lemma PieceFits(count: u32, k: u32, d: nat, i: nat)
    requires k >= 2 && count + k - 1 < U32 && 1 < count <= Power(k, d) && i < Width(count, k)
    ensures d > 0 && PieceSize32(count, k, i) <= Power(k, d - 1)
  {
    hide Width, PieceSize, PieceSize32;
    assert d > 0;
    SizeIs(count, k, i);
    if count <= k {
      NarrowWidth(count, k);
      PowerPositive(k, d - 1);
      CeilBound(count, count, 1, i);
    } else {
      WideWidth(count, k);
      if Width(count, k) == k {
        CeilBound(count, k, Power(k, d - 1), i);
      } else {
        CeilBound(count, Width(count, k), k, i);
        WidePower(k, d, count);
      }
    }
  }

  lemma SizeIs(count: u32, k: u32, i: nat)
    requires count > 0 && k > 0 && i < Width(count, k)
    ensures PieceSize32(count, k, i) == PieceSize(count, Width(count, k), i)
  {
    hide Width, PieceSize;
  }

  lemma WideWidth(count: u32, k: u32)
    requires 2 <= k < count && count + k - 1 < U32
    ensures Width(count, k) == k || count <= Width(count, k) * k
  {
    CeilFacts(count, k);
  }

  lemma WidePower(k: nat, d: nat, count: nat)
    requires k >= 2 && d > 0 && k < count <= Power(k, d)
    ensures k <= Power(k, d - 1)
  {
    if d > 1 {
      PowerPositive(k, d - 2);
      MulMono(1, Power(k, d - 2), k);
    }
  }

  lemma NarrowWidth(count: u32, k: u32)
    requires k >= 2 && 1 <= count <= k && count + k - 1 < U32
    ensures Width(count, k) == count
  {
    QuotientBetween(count + k - 1, k, 0, 1);
  }

  lemma CeilBound(count: u32, q: u32, bound: nat, i: nat)
    requires 0 < q <= count <= q * bound && i < q
    ensures PieceSize(count, q, i) <= bound
  {
    var per := count / q;
    QuotientBetween(count, q, 0, bound);
    assert count == q * per + count % q;
    if per == bound {
      assert count % q == 0;
    }
  }

  lemma {:induction false} PowerPositive(k: nat, d: nat)
    requires k > 0
    ensures Power(k, d) >= 1
  {
    if d > 0 {
      PowerPositive(k, d - 1);
      assert k * Power(k, d - 1) >= 1;
    }
  }

  // ----- resolving on one node -----

  /** A hash or a range of one, whose container is `c`. */
  function ResolveOne(v: View, c: u32): PoolQuery {
    if c in v.containers || NodeFor(v, c) == v.node then Local else DirectId(c)
  }

  ghost function ResolveRange(v: View, offset: u32, count: u32): seq<PoolQuery>
    requires v.neighborhood > 0
  {
    if count == 0 then []
    else if count == 1 then [ResolveOne(v, offset)]
    else Pieces(offset, count, Width(count, v.neighborhood))
  }

  method ResolveRangeQuery(v: View, offset: u32, count: u32) returns (queries: seq<PoolQuery>)
    requires v.neighborhood > 0
    ensures queries == ResolveRange(v, offset, count)
    ensures if count <= 1 then |queries| == count else FewestPieces(|queries|, count, v.neighborhood)
  {
    hide FewestPieces;
    if count == 0 {
      return [];
    }
    if count == 1 {
      if offset in v.containers {
        return [Local];
      }
      if NodeFor(v, offset) == v.node {
        return [Local];
      }
      return [DirectId(offset)];
    }
    queries := SplitRange(offset, count, v.neighborhood);
  }

  /** ResolvePoolQuery; a query for a pool this node does not know comes back as it is. */
  ghost function Resolve(v: View, q: PoolQuery): seq<PoolQuery>
    requires v.neighborhood > 0
  {
    match q
    case Local => [q]
    case Dynamic => [q]
    case Physical(_) => [q]
    case DirectId(c) => [if c in v.containers then Local else Physical(NodeFor(v, c))]
    case DirectHash(h) => if v.num == 0 then [q] else [ResolveOne(v, h % v.num)]
    case Range(offset, count) => ResolveRange(v, offset, count)
    case Broadcast => if v.num == 0 then [q] else ResolveRange(v, 0, v.num)
  }

  predicate IsTaskLocal(v: View, queries: seq<PoolQuery>) {
    v.hosts == 1 ||
    (|queries| == 1 && (queries[0].Local? || queries[0].Dynamic? || (queries[0].Physical? && queries[0].node == v.node)))
  }

  datatype Option<T> = None | Some(value: T)

  /** The node SendIn sends a resolved query to. */
  function Target(v: View, q: PoolQuery): Option<u32> {
    match q
    case Local => Some(v.node)
    case Physical(n) => Some(n)
    case DirectId(c) => Some(NodeFor(v, c))
    case Range(offset, _) => Some(NodeFor(v, offset))
    case _ => None
  }

  /** The container RouteLocal picks: it looks up the id in the task's own query, not the
      one the query was resolved to. */
  function RunHere(v: View, q: PoolQuery): Run {
    var c := ContainerId(q);
    Run(v.node, if c != INVALID_CONTAINER && c in v.containers then c else v.local)
  }

  datatype Run = Run(node: u32, container: u32)

  // ----- resolving from node to node -----

  function Cost(n: u32, q: PoolQuery): nat {
    match q
    case Local => 0
    case Dynamic => 0
    case Physical(m) => if m == n then 0 else 1
    case DirectId(_) => 2
    case DirectHash(_) => 3
    case Range(_, count) => 3 + count
    case Broadcast => 3 + U32
  }

  ghost predicate Cheaper(v: View, queries: seq<PoolQuery>, bound: nat) {
    forall p, m :: p in queries && Target(v, p) == Some(m) ==> Cost(m, p) < bound
  }

  /** Every send makes progress, so resolving again and again terminates. */
  lemma ResolvingProgresses(v: View, q: PoolQuery)
    requires v.neighborhood > 0 && !IsTaskLocal(v, Resolve(v, q))
    ensures Cheaper(v, Resolve(v, q), Cost(v.node, q))
  {
    if (q.Range? && q.count >= 2) || (q.Broadcast? && v.num >= 2) {
      PiecesShrink(if q.Range? then q.offset else 0, if q.Range? then q.count else v.num, v.neighborhood);
    }
  }

  lemma PiecesShrink(offset: u32, count: u32, k: u32)
    requires count >= 2 && k > 0
    ensures Width(count, k) >= 2
    ensures forall p :: p in Pieces(offset, count, Width(count, k)) ==> p.Range? && 1 <= p.count < count
  {
    var q := Width(count, k);
    forall i | 0 <= i < q ensures 1 <= Pieces(offset, count, q)[i].count < count {
      PiecesTile(count, q, i);
      PiecesTile(count, q, if i == 0 then 1 else 0);
      if i > 0 {
        StartsGrow(count, q, 1, i);
      }
    }
  }

  lemma {:induction false} StartsGrow(count: u32, q: u32, i: nat, j: nat)
    requires 0 < q <= count && i <= j <= q
    ensures PieceStart(count, q, i) + (j - i) <= PieceStart(count, q, j) <= count
    decreases j
  {
    PiecesTile(count, q, if j == q then q - 1 else j);
    if i < j {
      StartsGrow(count, q, i, j - 1);
      PiecesTile(count, q, j - 1);
    }
  }

  /** Everywhere a task with query `q` issued on node `n` ends up running. */
  ghost function Deliver(w: World, n: u32, q: PoolQuery): seq<Run>
    requires ValidWorld(w) && n in w
    decreases Cost(n, q), 1, 0
  {
    var v := w[n];
    var queries := Resolve(v, q);
    if queries == [] then []
    else if IsTaskLocal(v, queries) then [RunHere(v, q)]
    else
      ResolvingProgresses(v, q);
      SendAll(w, n, queries, Cost(n, q))
  }

  ghost function SendAll(w: World, n: u32, queries: seq<PoolQuery>, bound: nat): seq<Run>
    requires ValidWorld(w) && n in w
    requires Cheaper(w[n], queries, bound)
    decreases bound, 0, |queries|
  {
    if queries == [] then []
    else
      var target := Target(w[n], queries[0]);
      (if target.Some? && target.value in w then Deliver(w, target.value, queries[0]) else [])
      + SendAll(w, n, queries[1..], bound)
  }

  ghost function Nodes(runs: seq<Run>): seq<u32> { seq(|runs|, i requires 0 <= i < |runs| => runs[i].node) }

  ghost function Owners(owner: u32 -> u32, offset: nat, count: nat): (nodes: seq<u32>)
    ensures |nodes| == count && forall i :: 0 <= i < count ==> nodes[i] == At(owner, offset + i)
  {
    seq<u32>(count, i requires 0 <= i < count => At(owner, offset + i))
  }

  /** Container ids are 32 bits wide, so a range wraps around. */
  ghost function At(owner: u32 -> u32, c: nat): u32 { owner(c % U32) }

  /** All nodes agree on where containers live, and keep no others.  They may be configured
      with different split widths. */
  ghost predicate Settled(w: World, owner: u32 -> u32) {
    && ValidWorld(w)
    && (forall c :: owner(c) in w)
    && (forall n :: n in w ==> w[n].hosts != 1)
    && (forall n, c :: n in w ==> NodeFor(w[n], c) == owner(c))
    && (forall n, c :: n in w && c in w[n].containers ==> owner(c) == n)
  }

  /** A range reaches each of its containers' nodes exactly once, in order, whatever the
      nodes' split widths and wherever it starts. */
  lemma {:induction false} RangeReachesEachOnce(w: World, owner: u32 -> u32, n: u32, offset: u32, count: u32)
    requires Settled(w, owner) && n in w
    ensures Nodes(Deliver(w, n, Range(offset, count))) == Owners(owner, offset, count)
    decreases count, 1, 0
  {
    var v := w[n];
    var q := Range(offset, count);
    if count == 1 {
      assert Owners(owner, offset, 1) == [owner(offset)];
      if ResolveOne(v, offset) == DirectId(offset) {
        DirectReaches(w, owner, owner(offset), offset);
        SendsOne(w, n, q, DirectId(offset));
      }
    } else if count >= 2 {
      PiecesShrink(offset, count, v.neighborhood);
      ResolvingProgresses(v, q);
      PiecesAreTiles(offset, count, v.neighborhood, 0);
      var pieces := Pieces(offset, count, Width(count, v.neighborhood));
      assert pieces[0..] == pieces;
      PiecesReach(w, owner, n, pieces, offset, count, count, Cost(n, q));
    }
  }

  /** Pieces laid end to end from `start`, `count` containers in all, each of fewer than
      `limit`. */
  ghost predicate Tiles(pieces: seq<PoolQuery>, start: nat, count: nat, limit: nat) {
    if pieces == [] then count == 0
    else
      var p := pieces[0];
      && p.Range? && p.offset == start % U32 && 1 <= p.count <= count && p.count < limit
      && Tiles(pieces[1..], start + p.count, count - p.count, limit)
  }

  lemma {:induction false} PiecesAreTiles(offset: u32, count: u32, k: u32, i: nat)
    requires count >= 2 && k > 0 && i <= Width(count, k)
    ensures var q := Width(count, k);
            && PieceStart(count, q, i) <= count
            && Tiles(Pieces(offset, count, q)[i..], offset + PieceStart(count, q, i), count - PieceStart(count, q, i), count)
    decreases Width(count, k) - i
  {
    hide Width, Pieces, PieceStart, PieceSize;
    var q := Width(count, k);
    var all := Pieces(offset, count, q);
    if i < q {
      PieceFacts(offset, count, k, i);
      PiecesAreTiles(offset, count, k, i + 1);
      assert all[i..][0] == all[i] && all[i..][1..] == all[i + 1..];
    } else {
      PiecesTile(count, q, 0);
    }
  }

  lemma PieceFacts(offset: u32, count: u32, k: u32, i: nat)
    requires count >= 2 && k > 0 && i < Width(count, k)
    ensures var q := Width(count, k);
            var p := Pieces(offset, count, q)[i];
            && p.Range? && p.offset == (offset + PieceStart(count, q, i)) % U32 && 1 <= p.count < count
            && PieceStart(count, q, i) + p.count == PieceStart(count, q, i + 1) <= count
  {
    var q := Width(count, k);
    PiecesTile(count, q, i);
    PiecesShrink(offset, count, k);
    assert Pieces(offset, count, q)[i] in Pieces(offset, count, q);
  }

  lemma {:induction false} PiecesReach(w: World, owner: u32 -> u32, n: u32, pieces: seq<PoolQuery>,
                                       start: nat, count: nat, limit: u32, bound: nat)
    requires Settled(w, owner) && n in w
    requires Tiles(pieces, start, count, limit) && Cheaper(w[n], pieces, bound)
    ensures Nodes(SendAll(w, n, pieces, bound)) == Owners(owner, start, count)
    decreases limit, 0, |pieces|
  {
    hide Deliver, Owners, Cost, SendAll, Settled, Cheaper;
    if pieces == [] {
      SettledOwner(w, owner, 0);
      NothingSent(w, n, bound);
      assert Owners(owner, start, 0) == [];
    } else {
      var p := pieces[0];
      SendsFirst(w, owner, n, pieces, bound);
      SettledOwner(w, owner, p.offset);
      PiecesReach(w, owner, n, pieces[1..], start + p.count, count - p.count, limit, bound);
      RangeReachesEachOnce(w, owner, owner(p.offset), p.offset, p.count);
      OwnersJoin(owner, start, p.count, count);
      NodesJoin(Deliver(w, owner(p.offset), p), SendAll(w, n, pieces[1..], bound));
    }
  }

  /** The first of the pieces goes to the node of its first container. */
  lemma SendsFirst(w: World, owner: u32 -> u32, n: u32, pieces: seq<PoolQuery>, bound: nat)
    requires Settled(w, owner) && n in w && Cheaper(w[n], pieces, bound) && pieces != [] && pieces[0].Range?
    ensures Cheaper(w[n], pieces[1..], bound)
    ensures SendAll(w, n, pieces, bound) == Deliver(w, owner(pieces[0].offset), pieces[0]) + SendAll(w, n, pieces[1..], bound)
  {
    hide Deliver, Cost;
    assert Target(w[n], pieces[0]) == Some(owner(pieces[0].offset));
  }

  lemma NothingSent(w: World, n: u32, bound: nat)
    requires ValidWorld(w) && n in w
    ensures SendAll(w, n, [], bound) == []
  {}

  lemma SettledOwner(w: World, owner: u32 -> u32, c: u32)
    requires Settled(w, owner)
    ensures ValidWorld(w) && owner(c) in w
  {}

  lemma NodesJoin(a: seq<Run>, b: seq<Run>)
    ensures Nodes(a + b) == Nodes(a) + Nodes(b)
  {}

  lemma OwnersJoin(owner: u32 -> u32, start: nat, first: nat, count: nat)
    requires first <= count
    ensures Owners(owner, start % U32, first) + Owners(owner, start + first, count - first) == Owners(owner, start, count)
  {
    var left, right := Owners(owner, start % U32, first), Owners(owner, start + first, count - first);
    forall i | 0 <= i < count ensures (left + right)[i] == Owners(owner, start, count)[i] {
      if i < first {
        WrapAdd(start, i);
      }
    }
  }

  /** One send of one query. */
  lemma SendsOne(w: World, n: u32, q: PoolQuery, p: PoolQuery)
    requires ValidWorld(w) && n in w
    requires Resolve(w[n], q) == [p] && !IsTaskLocal(w[n], [p])
    requires Target(w[n], p).Some? && Target(w[n], p).value in w
    ensures Deliver(w, n, q) == Deliver(w, Target(w[n], p).value, p)
  {
    ResolvingProgresses(w[n], q);
    var sent := Deliver(w, Target(w[n], p).value, p);
    assert [p][1..] == [];
    assert SendAll(w, n, [p], Cost(n, q)) == sent + [];
  }

  /** A task for one container runs once, on the node that has it. */
  lemma DirectReaches(w: World, owner: u32 -> u32, n: u32, c: u32)
    requires Settled(w, owner) && n in w
    ensures Deliver(w, n, DirectId(c)) ==
            [RunHere(w[owner(c)], if n == owner(c) then DirectId(c) else Physical(owner(c)))]
  {
    var m := owner(c);
    if n != m {
      SendsOne(w, n, DirectId(c), Physical(m));
    }
  }

  lemma HashReaches(w: World, owner: u32 -> u32, n: u32, h: u32)
    requires Settled(w, owner) && n in w && w[n].num > 0
    ensures var c := h % w[n].num;
            Deliver(w, n, DirectHash(h)) ==
            [RunHere(w[owner(c)], if n == owner(c) then DirectHash(h) else DirectId(c))]
  {
    var c := h % w[n].num;
    if n != owner(c) {
      DirectReaches(w, owner, owner(c), c);
      SendsOne(w, n, DirectHash(h), DirectId(c));
    }
  }

  /** A broadcast runs once per container of the pool, on the container's node. */
  lemma BroadcastCovers(w: World, owner: u32 -> u32, n: u32)
    requires Settled(w, owner) && n in w && w[n].num > 0
    ensures Nodes(Deliver(w, n, Broadcast)) == Owners(owner, 0, w[n].num)
  {
    var num := w[n].num;
    RangeReachesEachOnce(w, owner, n, 0, num);
    assert Resolve(w[n], Broadcast) == Resolve(w[n], Range(0, num));
    if !IsTaskLocal(w[n], Resolve(w[n], Broadcast)) {
      ResolvingProgresses(w[n], Range(0, num));
      ResolvingProgresses(w[n], Broadcast);
      BoundIrrelevant(w, n, Resolve(w[n], Broadcast), Cost(n, Range(0, num)), Cost(n, Broadcast));
    }
  }

  lemma {:induction false} BoundIrrelevant(w: World, n: u32, queries: seq<PoolQuery>, a: nat, b: nat)
    requires ValidWorld(w) && n in w
    requires Cheaper(w[n], queries, a) && Cheaper(w[n], queries, b)
    ensures SendAll(w, n, queries, a) == SendAll(w, n, queries, b)
  {
    if queries != [] {
      BoundIrrelevant(w, n, queries[1..], a, b);
    }
  }

  /** On a cluster of one, a range or broadcast runs once however many containers it
      names: it is never split. */
  lemma OneHostRunsOnce(w: World, n: u32, q: PoolQuery)
    requires ValidWorld(w) && n in w && w[n].hosts == 1
    ensures |Deliver(w, n, q)| == if q.Range? && q.count == 0 then 0 else 1
  {}

  /** The right container, not only the right node, exactly when the id survives: a
      DirectId that travels becomes Physical and loses it. */
  lemma DirectContainerIff(w: World, owner: u32 -> u32, n: u32, c: u32)
    requires Settled(w, owner) && n in w && c in w[owner(c)].containers && c != INVALID_CONTAINER
    ensures var v := w[owner(c)];
            Deliver(w, n, DirectId(c)) == [Run(owner(c), c)] <==>
            n == owner(c) || c == 0 || (0 !in v.containers && v.local == c)
  {
    DirectReaches(w, owner, n, c);
  }

  /** ... while a hash that does not travel never had it. */
  lemma HashContainerIff(w: World, owner: u32 -> u32, n: u32, h: u32)
    requires Settled(w, owner) && n in w && w[n].num > 0
    requires var c := h % w[n].num; c in w[owner(c)].containers && c != INVALID_CONTAINER
    ensures var c := h % w[n].num;
            var v := w[owner(c)];
            Deliver(w, n, DirectHash(h)) == [Run(owner(c), c)] <==>
            n != owner(c) || c == 0 || (0 !in v.containers && v.local == c)
  {
    HashReaches(w, owner, n, h);
  }

  // ----- the containers of a split range -----

  /** The run of one piece that has come down to container `c`: it reaches `c`'s node as a
      range of one. */
  ghost function PieceRun(w: World, owner: u32 -> u32, c: nat): Run
    requires Settled(w, owner)
  {
    RunHere(w[At(owner, c)], Range(c % U32, 1))
  }

  ghost function PieceRuns(w: World, owner: u32 -> u32, start: nat, count: nat): (runs: seq<Run>)
    requires Settled(w, owner)
    ensures |runs| == count && forall i :: 0 <= i < count ==> runs[i] == PieceRun(w, owner, start + i)
  {
    seq<Run>(count, i requires 0 <= i < count => PieceRun(w, owner, start + i))
  }

  /** All runs of a range that is split, or that starts on the node of its one container. */
  lemma {:induction false} SplitRuns(w: World, owner: u32 -> u32, n: u32, offset: u32, count: u32)
    requires Settled(w, owner) && n in w && (count >= 2 || (count == 1 && n == owner(offset)))
    ensures Deliver(w, n, Range(offset, count)) == PieceRuns(w, owner, offset, count)
    decreases count, 1, 0
  {
    var v := w[n];
    var q := Range(offset, count);
    if count == 1 {
      assert PieceRuns(w, owner, offset, 1) == [PieceRun(w, owner, offset)];
    } else {
      PiecesShrink(offset, count, v.neighborhood);
      ResolvingProgresses(v, q);
      PiecesAreTiles(offset, count, v.neighborhood, 0);
      var pieces := Pieces(offset, count, Width(count, v.neighborhood));
      assert pieces[0..] == pieces;
      PiecesRun(w, owner, n, pieces, offset, count, count, Cost(n, q));
    }
  }

  lemma {:induction false} PiecesRun(w: World, owner: u32 -> u32, n: u32, pieces: seq<PoolQuery>,
                                     start: nat, count: nat, limit: u32, bound: nat)
    requires Settled(w, owner) && n in w
    requires Tiles(pieces, start, count, limit) && Cheaper(w[n], pieces, bound)
    ensures SendAll(w, n, pieces, bound) == PieceRuns(w, owner, start, count)
    decreases limit, 0, |pieces|
  {
    hide Deliver, PieceRuns, Cost, SendAll, Settled, Cheaper;
    if pieces == [] {
      SettledOwner(w, owner, 0);
      NothingSent(w, n, bound);
      assert PieceRuns(w, owner, start, 0) == [];
    } else {
      var p := pieces[0];
      SendsFirst(w, owner, n, pieces, bound);
      SettledOwner(w, owner, p.offset);
      PiecesRun(w, owner, n, pieces[1..], start + p.count, count - p.count, limit, bound);
      SplitRuns(w, owner, owner(p.offset), p.offset, p.count);
      RunsJoin(w, owner, start, p.count, count);
    }
  }

  lemma RunsJoin(w: World, owner: u32 -> u32, start: nat, first: nat, count: nat)
    requires Settled(w, owner) && first <= count
    ensures PieceRuns(w, owner, start % U32, first) + PieceRuns(w, owner, start + first, count - first)
            == PieceRuns(w, owner, start, count)
  {
    hide Settled, RunHere;
    var left, right := PieceRuns(w, owner, start % U32, first), PieceRuns(w, owner, start + first, count - first);
    forall i | 0 <= i < count ensures (left + right)[i] == PieceRuns(w, owner, start, count)[i] {
      if i < first {
        WrapAdd(start, i);
      }
    }
  }

  /** Element `i` of a split range runs on its own container exactly when that is container
      0, or its node hosts no container 0 and defaults to it: a range carries no id. */
  lemma RangeContainerIff(w: World, owner: u32 -> u32, n: u32, offset: u32, count: u32, i: nat)
    requires Settled(w, owner) && n in w && count >= 2 && i < count
    requires var c := (offset + i) % U32; c in w[owner(c)].containers
    ensures var c := (offset + i) % U32;
            var v := w[owner(c)];
            var runs := Deliver(w, n, Range(offset, count));
            && |runs| == count
            && (runs[i] == Run(owner(c), c) <==> c == 0 || (0 !in v.containers && v.local == c))
  {
    hide Deliver;
    SplitRuns(w, owner, n, offset, count);
    assert Deliver(w, n, Range(offset, count))[i] == PieceRun(w, owner, offset + i);
  }

  /** In a pool of which this node knows no containers, a hash and a broadcast stay as they are
      and name no node to go to. */
  lemma EmptyPoolRunsNowhere(w: World, n: u32, h: u32)
    requires ValidWorld(w) && n in w && w[n].hosts != 1 && w[n].num == 0
    ensures Deliver(w, n, DirectHash(h)) == [] && Deliver(w, n, Broadcast) == []
  {
    NoTarget(w, n, DirectHash(h));
    NoTarget(w, n, Broadcast);
  }

  lemma NoTarget(w: World, n: u32, q: PoolQuery)
    requires ValidWorld(w) && n in w && Resolve(w[n], q) == [q] && !IsTaskLocal(w[n], [q]) && Target(w[n], q).None?
    ensures Deliver(w, n, q) == []
  {
    ResolvingProgresses(w[n], q);
    assert [q][1..] == [];
    assert SendAll(w, n, [q], Cost(n, q)) == [];
  }

  /** A container that no table mentions is looked for on node 0. */
  lemma UnmappedGoesToZero(w: World, n: u32, c: u32)
    requires ValidWorld(w) && n in w && 0 in w && w[n].hosts != 1 && w[0].hosts != 1 && n != 0
    requires c !in w[n].addr && c !in w[n].containers
    ensures Deliver(w, n, DirectId(c)) == [RunHere(w[0], Physical(0))]
  {
    ResolvingProgresses(w[n], DirectId(c));
    SendsOne(w, n, DirectId(c), Physical(0));
  }

  // ----- queries that resolve to nothing -----

  /** ResolvePoolQuery with its first check: a null pool id resolves to nothing. */
  ghost function ResolvePoolQuery(v: View, nullPool: bool, q: PoolQuery): seq<PoolQuery>
    requires v.neighborhood > 0
  {
    if nullPool then [] else Resolve(v, q)
  }

  /** RouteTask gives the task up exactly for a null pool id and for an empty range. */
  lemma UnresolvedIff(v: View, nullPool: bool, q: PoolQuery)
    requires v.neighborhood > 0
    ensures ResolvePoolQuery(v, nullPool, q) == [] <==> nullPool || (q.Range? && q.count == 0)
  {}

  /** On agreeing nodes that know the pool, a task runs nowhere exactly when its range is
      empty or it names a node that is not there. */
  lemma RunsNowhereIff(w: World, owner: u32 -> u32, n: u32, q: PoolQuery)
    requires Settled(w, owner) && n in w && w[n].num > 0
    ensures Deliver(w, n, q) == [] <==> (q.Range? && q.count == 0) || (q.Physical? && q.node !in w)
  {
    hide Owners;
    match q
    case Local =>
    case Dynamic =>
    case Physical(m) => PhysicalRuns(w, owner, n, m);
    case DirectId(c) => DirectReaches(w, owner, n, c);
    case DirectHash(h) => HashReaches(w, owner, n, h);
    case Range(offset, count) => RangeReachesEachOnce(w, owner, n, offset, count);
    case Broadcast => BroadcastCovers(w, owner, n);
  }

  /** A query for the local node runs on its default container.  One left to the runtime runs
      where it is, and one that names a node runs there once, or nowhere if there is no such
      node; these two run on container 0 if that is there. */
  lemma NamedNodeReaches(w: World, owner: u32 -> u32, n: u32, m: u32)
    requires Settled(w, owner) && n in w
    ensures Deliver(w, n, Local) == [Run(n, w[n].local)]
    ensures Deliver(w, n, Dynamic) == [Run(n, if 0 in w[n].containers then 0 else w[n].local)]
    ensures m in w ==> Deliver(w, n, Physical(m)) == [Run(m, if 0 in w[m].containers then 0 else w[m].local)]
    ensures m !in w && m != n ==> Deliver(w, n, Physical(m)) == []
  {
    if m != n {
      PhysicalRuns(w, owner, n, m);
      ResolvingProgresses(w[n], Physical(m));
      if m in w { SendsOne(w, n, Physical(m), Physical(m)); }
    }
  }

  lemma PhysicalRuns(w: World, owner: u32 -> u32, n: u32, m: u32)
    requires Settled(w, owner) && n in w
    ensures Deliver(w, n, Physical(m)) == [] <==> m !in w
  {
    if m != n {
      ResolvingProgresses(w[n], Physical(m));
      if m in w {
        SendsOne(w, n, Physical(m), Physical(m));
      } else {
        var one := [Physical(m)];
        assert one[1..] == [] && Target(w[n], one[0]) == Some(m);
        assert SendAll(w, n, one, Cost(n, Physical(m))) == [];
      }
    }
  }
}
