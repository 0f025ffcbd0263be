/** Forwarding a task to a container that migrates from node to node.

    ipc_manager.cc promises that looking the container up again at every node, with its
    id preserved, finds it after any migrations.  `Step` is that promise, interleaved
    with migrations and with nodes learning of them late; the second half is what the
    routing code does with the id.  */
module Forwarding {
  import opened PoolQueries
  import opened Routing

  /** One container.  `owners` is its history, the last entry is where it lives.  A node
      knows the history up to `seen`, and its address_map_ holds the last owner it knows
      of.  `home` is the set of nodes whose containers_ lists it. */
  datatype Cluster = Cluster(owners: seq<u32>, seen: map<u32, nat>, home: set<u32>)

  function Last(s: Cluster): int { |s.owners| - 1 }

  function Owner(s: Cluster): u32
    requires s.owners != []
  {
    s.owners[Last(s)]
  }

  /** Every owner has been told of its own arrival and of its departure; only the current
      owner can have the container registered. */
  ghost predicate Valid(s: Cluster) {
    && s.owners != []
    && (forall n :: n in s.seen ==> s.seen[n] <= Last(s))
    && (forall v :: 0 <= v <= Last(s) ==>
          s.owners[v] in s.seen && (if v < Last(s) then s.seen[s.owners[v]] > v else s.seen[s.owners[v]] == v))
    && s.home <= {Owner(s)}
  }

  /** The address_map_ entry of node `n`. */
  function Table(s: Cluster, n: u32): u32
    requires s.owners != [] && n in s.seen && s.seen[n] <= Last(s)
  {
    s.owners[s.seen[n]]
  }

  /** A node runs the task when it has the container or its own table names it. */
  predicate Stops(s: Cluster, n: u32)
    requires s.owners != [] && n in s.seen && s.seen[n] <= Last(s)
  {
    n in s.home || Table(s, n) == n
  }

  lemma StopsAtOwnerOnly(s: Cluster, n: u32)
    requires Valid(s) && n in s.seen
    ensures Stops(s, n) <==> n == Owner(s)
  {}

  // ----- the promise: look it up again at every node -----

  datatype Event =
    | Migrate(dest: u32, registers: bool)   // from the current owner
    | Learn(n: u32, version: nat)           // a late ChangeAddressTable arrives
    | Hop                                   // the task moves on

  /** A task in flight. */
  datatype Flight = Flight(cluster: Cluster, at: u32)

  predicate Can(f: Flight, e: Event)
    requires f.cluster.owners != []
  {
    var s := f.cluster;
    match e
    case Migrate(dest, _) => dest in s.seen && Owner(s) in s.seen
    case Learn(n, v) => n in s.seen && s.seen[n] <= v <= Last(s)
    case Hop => f.at in s.seen && s.seen[f.at] <= Last(s) && !Stops(s, f.at)
  }

  function Step(f: Flight, e: Event): Flight
    requires f.cluster.owners != [] && Can(f, e)
  {
    var s := f.cluster;
    match e
    case Migrate(dest, registers) =>
      var v := |s.owners|;
      f.(cluster := Cluster(s.owners + [dest], s.seen[Owner(s) := v][dest := v], if registers then {dest} else {}))
    case Learn(n, v) => f.(cluster := s.(seen := s.seen[n := v]))
    case Hop => f.(at := Table(s, f.at))
  }

  /** Migrations the node holding the task has not heard of. */
  function Missed(f: Flight): int
    requires f.at in f.cluster.seen
  {
    Last(f.cluster) - f.cluster.seen[f.at]
  }

  ghost predicate Flying(f: Flight) { Valid(f.cluster) && f.at in f.cluster.seen }

  /** Hops the task may still need if nothing migrates any more. */
  function Distance(f: Flight): int
    requires f.at in f.cluster.seen && f.cluster.owners != []
  {
    Missed(f) + if f.at == Owner(f.cluster) then 0 else 1
  }

  /** A hop comes strictly closer, learning never goes back, a migration costs one. */
  lemma StepDistance(f: Flight, e: Event)
    requires Flying(f) && Can(f, e)
    ensures var g := Step(f, e);
            && Flying(g) && 0 <= Distance(g)
            && Distance(g) <= Distance(f) + (match e case Migrate(_, _) => 1 case Learn(_, _) => 0 case Hop => -1)
  {
    var s := f.cluster;
    StopsAtOwnerOnly(s, f.at);
    var g := Step(f, e);
    var r := g.cluster;
    match e
    case Migrate(dest, _) =>
      forall v | 0 <= v <= Last(r)
        ensures r.owners[v] in r.seen && (if v < Last(r) then r.seen[r.owners[v]] > v else r.seen[r.owners[v]] == v)
      {
        if v < Last(s) { assert s.seen[s.owners[v]] > v; }
      }
    case Learn(n, v) =>
      forall u | 0 <= u <= Last(r)
        ensures r.owners[u] in r.seen && (if u < Last(r) then r.seen[r.owners[u]] > u else r.seen[r.owners[u]] == u)
      {
        if u < Last(s) { assert s.seen[s.owners[u]] > u; }
      }
    case Hop =>
      assert s.owners[s.seen[f.at]] in s.seen;
  }

  ghost predicate IsRun(f: Flight, run: seq<Event>)
    decreases |run|
  {
    Flying(f) && (run == [] || (Can(f, run[0]) && IsRun(Step(f, run[0]), run[1..])))
  }

  ghost function After(f: Flight, run: seq<Event>): Flight
    requires IsRun(f, run)
    decreases |run|
  {
    if run == [] then f else After(Step(f, run[0]), run[1..])
  }

  function Hops(run: seq<Event>): nat {
    if run == [] then 0 else (if run[0].Hop? then 1 else 0) + Hops(run[1..])
  }

  function Migrations(run: seq<Event>): nat {
    if run == [] then 0 else (if run[0].Migrate? then 1 else 0) + Migrations(run[1..])
  }

  /** In every interleaving: at most one hop more than the migrations the first node
      missed and those that happen on the way, and the task stops exactly when the node
      it is on is the owner at that moment. */
  lemma {:induction false} ForwardingBound(f: Flight, run: seq<Event>)
    requires IsRun(f, run)
    ensures var g := After(f, run);
            && Flying(g)
            && Hops(run) <= Missed(f) + 1 + Migrations(run)
            && Hops(run) + Distance(g) <= Distance(f) + Migrations(run)
            && (Stops(g.cluster, g.at) <==> g.at == Owner(g.cluster))
    decreases |run|
  {
    if run == [] {
      StopsAtOwnerOnly(f.cluster, f.at);
    } else {
      StepDistance(f, run[0]);
      ForwardingBound(Step(f, run[0]), run[1..]);
      StepDistance(After(f, run), Learn(After(f, run).at, After(f, run).cluster.seen[After(f, run).at]));
    }
  }

  /** When migrations stop, hopping reaches the owner. */
  lemma {:induction false} ForwardingEnds(f: Flight) returns (run: seq<Event>)
    requires Flying(f)
    ensures IsRun(f, run) && (forall e :: e in run ==> e.Hop?)
    ensures After(f, run).at == Owner(f.cluster) && |run| <= Distance(f) <= Missed(f) + 1
    decreases Distance(f)
  {
    StopsAtOwnerOnly(f.cluster, f.at);
    if Stops(f.cluster, f.at) {
      run := [];
    } else {
      StepDistance(f, Hop);
      var g := Step(f, Hop);
      var rest := ForwardingEnds(g);
      run := [Hop] + rest;
      assert run[1..] == rest;
    }
  }

  // ----- what the routing code does -----

  /** The nodes' tables as the routing functions see them, for container `c`. */
  ghost function Tables(s: Cluster, c: u32, num: u32, hosts: nat, k: u32): World
    requires Valid(s) && k > 0
  {
    map n | n in s.seen :: View(n, hosts, if n in s.home then {c} else {}, c, map[c := Table(s, n)], num, k)
  }

  /** Two nodes along: the hash becomes an id, and the id becomes a node. */
  ghost function HashEnd(s: Cluster, n: u32): u32
    requires Valid(s) && n in s.seen
  {
    if Stops(s, n) then n else Table(s, Table(s, n))
  }

  lemma RelayKnows(s: Cluster, n: u32)
    requires Valid(s) && n in s.seen
    ensures Table(s, n) in s.seen && Table(s, Table(s, n)) in s.seen
    ensures Table(s, Owner(s)) == Owner(s)
  {
    assert s.owners[s.seen[n]] in s.seen;
    assert s.owners[Last(s)] in s.seen;
  }

  lemma RunsLocally(w: World, n: u32, q: PoolQuery, p: PoolQuery)
    requires ValidWorld(w) && n in w
    requires Resolve(w[n], q) == [p] && IsTaskLocal(w[n], [p])
    ensures Nodes(Deliver(w, n, q)) == [n]
  {}

  /** A task with query `p`, resolved elsewhere, arrives at the relay `n`. */
  lemma IdRunsAt(s: Cluster, n: u32, c: u32, num: u32, hosts: nat, k: u32)
    requires Valid(s) && n in s.seen && hosts != 1 && k > 0
    ensures Nodes(Deliver(Tables(s, c, num, hosts, k), n, DirectId(c))) == [Table(s, n)]
  {
    hide Deliver, Nodes, Tables;
    RelayKnows(s, n);
    StopsAtOwnerOnly(s, n);
    if Stops(s, n) {
      IdRunsHere(s, n, c, num, hosts, k);
    } else {
      IdRunsThere(s, n, c, num, hosts, k);
    }
  }

  lemma IdRunsHere(s: Cluster, n: u32, c: u32, num: u32, hosts: nat, k: u32)
    requires Valid(s) && n in s.seen && hosts != 1 && k > 0 && Stops(s, n) && Table(s, n) == n
    ensures Nodes(Deliver(Tables(s, c, num, hosts, k), n, DirectId(c))) == [n]
  {
    hide Deliver, Nodes, ResolveRange, Pieces;
    RunsLocally(Tables(s, c, num, hosts, k), n, DirectId(c), if n in s.home then Local else Physical(n));
  }

  lemma IdRunsThere(s: Cluster, n: u32, c: u32, num: u32, hosts: nat, k: u32)
    requires Valid(s) && n in s.seen && hosts != 1 && k > 0 && !Stops(s, n) && Table(s, n) in s.seen
    ensures Nodes(Deliver(Tables(s, c, num, hosts, k), n, DirectId(c))) == [Table(s, n)]
  {
    hide Deliver, Nodes, ResolveRange, Pieces;
    var w, m := Tables(s, c, num, hosts, k), Table(s, n);
    SendsOne(w, n, DirectId(c), Physical(m));
    RunsLocally(w, m, Physical(m), Physical(m));
  }

  /** Where a hashed task runs on tables that stay as they are. */
  lemma HashRunsAt(s: Cluster, n: u32, h: u32, num: u32, hosts: nat, k: u32)
    requires Valid(s) && n in s.seen && num > 0 && hosts != 1 && k > 0
    ensures Nodes(Deliver(Tables(s, h % num, num, hosts, k), n, DirectHash(h))) == [HashEnd(s, n)]
  {
    hide Deliver;
    var c := h % num;
    var w := Tables(s, c, num, hosts, k);
    RelayKnows(s, n);
    if Stops(s, n) {
      RunsLocally(w, n, DirectHash(h), Local);
    } else {
      SendsOne(w, n, DirectHash(h), DirectId(c));
      IdRunsAt(s, Table(s, n), c, num, hosts, k);
    }
  }

  /** It runs on the owner exactly when it started there or the first relay's table is
      current. */
  lemma HashReachesOwnerIff(s: Cluster, n: u32, h: u32, num: u32, hosts: nat, k: u32)
    requires Valid(s) && n in s.seen && num > 0 && hosts != 1 && k > 0
    ensures Nodes(Deliver(Tables(s, h % num, num, hosts, k), n, DirectHash(h))) == [Owner(s)] <==>
            n == Owner(s) || (Table(s, n) in s.seen && Table(s, Table(s, n)) == Owner(s))
    ensures s.seen[n] + 1 >= Last(s) ==>
            Nodes(Deliver(Tables(s, h % num, num, hosts, k), n, DirectHash(h))) == [Owner(s)]
  {
    hide Deliver, Nodes, Tables, Valid;
    HashRunsAt(s, n, h, num, hosts, k);
    HashEndIff(s, n);
  }

  lemma HashEndIff(s: Cluster, n: u32)
    requires Valid(s) && n in s.seen
    ensures Table(s, n) in s.seen
    ensures HashEnd(s, n) == Owner(s) <==> n == Owner(s) || Table(s, Table(s, n)) == Owner(s)
    ensures s.seen[n] + 1 >= Last(s) ==> HashEnd(s, n) == Owner(s)
  {
    RelayKnows(s, n);
    StopsAtOwnerOnly(s, n);
  }

  /** An explicit id is turned into a node at once, so it needs the first table to be
      current. */
  lemma IdReachesOwnerIff(s: Cluster, n: u32, c: u32, num: u32, hosts: nat, k: u32)
    requires Valid(s) && n in s.seen && hosts != 1 && k > 0
    ensures Nodes(Deliver(Tables(s, c, num, hosts, k), n, DirectId(c))) == [Owner(s)] <==> Table(s, n) == Owner(s)
  {
    hide Deliver;
    IdRunsAt(s, n, c, num, hosts, k);
  }

  // ----- what it does while containers go on migrating -----

  /** The cluster of nodes a task travels through: container `c` of a pool of `num`. */
  datatype Setting = Setting(c: u32, num: u32, hosts: nat, neighborhood: u32)

  predicate Proper(e: Setting) { e.num > 0 && e.hosts != 1 && e.neighborhood > 0 }

  ghost function ViewAt(f: Flight, e: Setting): View
    requires Flying(f) && Proper(e)
  {
    Tables(f.cluster, e.c, e.num, e.hosts, e.neighborhood)[f.at]
  }

  /** A while on the way: migrations and late table updates, the task itself stays put. */
  ghost predicate IsWait(f: Flight, run: seq<Event>) { IsRun(f, run) && forall e :: e in run ==> !e.Hop? }

  /** The task, with query `q`, has arrived at a node, is resolved there with the tables of
      that moment and, if it has to go on, spends `waits[0]` on the way to the next node.
      The result is where and when it runs; None if it is still on its way. */
  ghost function Travel(f: Flight, e: Setting, q: PoolQuery, waits: seq<seq<Event>>): Option<Flight>
    requires Flying(f) && Proper(e)
    decreases |waits|
  {
    var v := ViewAt(f, e);
    var queries := Resolve(v, q);
    if IsTaskLocal(v, queries) then Some(f)
    else if waits == [] || |queries| != 1 || Target(v, queries[0]).None? then None
    else
      var g := Flight(f.cluster, Target(v, queries[0]).value);
      if IsWait(g, waits[0]) then
        WaitFlies(g, waits[0]);
        Travel(After(g, waits[0]), e, queries[0], waits[1..])
      else None
  }

  /** While the task is on its way it comes no further from the owner than the container
      migrates. */
  lemma {:induction false} WaitFlies(f: Flight, run: seq<Event>)
    requires IsWait(f, run)
    ensures var g := After(f, run);
            Flying(g) && g.at == f.at && 0 <= Distance(g) <= Distance(f) + Migrations(run)
    decreases |run|
  {
    if run != [] {
      assert run[0] in run;
      StepDistance(f, run[0]);
      assert forall e :: e in run[1..] ==> e in run;
      WaitFlies(Step(f, run[0]), run[1..]);
    } else {
      StepDistance(f, Learn(f.at, f.cluster.seen[f.at]));
    }
  }

  /** The task can hop to the node its table names and wait on the way. */
  ghost predicate IsLeg(f: Flight, wait: seq<Event>) {
    Flying(f) && Table(f.cluster, f.at) in f.cluster.seen && IsWait(Flight(f.cluster, Table(f.cluster, f.at)), wait)
  }

  ghost function Relayed(f: Flight, wait: seq<Event>): (g: Flight)
    requires IsLeg(f, wait)
    ensures Flying(g) && g.at == Table(f.cluster, f.at)
  {
    WaitFlies(Flight(f.cluster, Table(f.cluster, f.at)), wait);
    After(Flight(f.cluster, Table(f.cluster, f.at)), wait)
  }

  /** What the routing functions see of the container on the node the task is on. */
  lemma ViewFacts(f: Flight, e: Setting)
    requires Flying(f) && Proper(e)
    ensures var v := ViewAt(f, e);
            && v.node == f.at && v.hosts != 1 && v.num == e.num && v.neighborhood > 0
            && (e.c in v.containers <==> f.at in f.cluster.home) && NodeFor(v, e.c) == Table(f.cluster, f.at)
  {}

  lemma TravelEnds(f: Flight, e: Setting, q: PoolQuery, waits: seq<seq<Event>>)
    requires Flying(f) && Proper(e) && IsTaskLocal(ViewAt(f, e), Resolve(ViewAt(f, e), q))
    ensures Travel(f, e, q, waits) == Some(f)
  {}

  lemma TravelGoesOn(f: Flight, e: Setting, q: PoolQuery, p: PoolQuery, waits: seq<seq<Event>>)
    requires Flying(f) && Proper(e) && waits != []
    requires Resolve(ViewAt(f, e), q) == [p] && !IsTaskLocal(ViewAt(f, e), [p])
    requires Target(ViewAt(f, e), p) == Routing.Some(Table(f.cluster, f.at)) && IsLeg(f, waits[0])
    ensures Travel(f, e, q, waits) == Travel(Relayed(f, waits[0]), e, p, waits[1..])
  {
    hide ViewAt, Resolve, IsTaskLocal, Target, After, IsRun, Flying;
  }

  lemma PhysicalTravels(f: Flight, e: Setting, waits: seq<seq<Event>>)
    requires Flying(f) && Proper(e)
    ensures Travel(f, e, Physical(f.at), waits) == Some(f)
  {
    hide Travel, Flying;
    ViewFacts(f, e);
    TravelEnds(f, e, Physical(f.at), waits);
  }

  /** An id is turned into a node at once, and that node executes whatever it is sent. */
  lemma IdTravels(f: Flight, e: Setting, waits: seq<seq<Event>>)
    requires Flying(f) && Proper(e) && waits != [] && (!Stops(f.cluster, f.at) ==> IsLeg(f, waits[0]))
    ensures Travel(f, e, DirectId(e.c), waits)
            == Some(if Stops(f.cluster, f.at) then f else Relayed(f, waits[0]))
  {
    hide Travel, ViewAt, After, IsRun, Relayed, IsLeg, ResolveRange, Pieces;
    StopsAtOwnerOnly(f.cluster, f.at);
    ViewFacts(f, e);
    if Stops(f.cluster, f.at) {
      TravelEnds(f, e, DirectId(e.c), waits);
    } else {
      TravelGoesOn(f, e, DirectId(e.c), Physical(Table(f.cluster, f.at)), waits);
      PhysicalTravels(Relayed(f, waits[0]), e, waits[1..]);
    }
  }

  /** The legs of a hashed task's way are possible: as many as it turns out to need. */
  ghost predicate IsWay(f: Flight, waits: seq<seq<Event>>) {
    && Flying(f) && |waits| >= 2
    && (!Stops(f.cluster, f.at) ==>
          IsLeg(f, waits[0])
          && var g := Relayed(f, waits[0]); !Stops(g.cluster, g.at) ==> IsLeg(g, waits[1]))
  }

  /** Where and when it runs: at the first node, at the second, or at the third. */
  ghost function WayEnd(f: Flight, waits: seq<seq<Event>>): (g: Flight)
    requires IsWay(f, waits)
    ensures Flying(g)
  {
    if Stops(f.cluster, f.at) then f
    else
      var g := Relayed(f, waits[0]);
      if Stops(g.cluster, g.at) then g else Relayed(g, waits[1])
  }

  /** A hash becomes an id at the first node, and a node at the second. */
  lemma HashTravels(f: Flight, e: Setting, h: u32, waits: seq<seq<Event>>)
    requires Proper(e) && h % e.num == e.c && IsWay(f, waits)
    ensures Travel(f, e, DirectHash(h), waits) == Some(WayEnd(f, waits))
  {
    hide Travel, ViewAt, After, IsRun, Relayed, IsLeg, ResolveRange, Pieces;
    StopsAtOwnerOnly(f.cluster, f.at);
    ViewFacts(f, e);
    if Stops(f.cluster, f.at) {
      TravelEnds(f, e, DirectHash(h), waits);
    } else {
      TravelGoesOn(f, e, DirectHash(h), DirectId(e.c), waits);
      assert waits[1..][0] == waits[1];
      IdTravels(Relayed(f, waits[0]), e, waits[1..]);
    }
  }

  /** A hop and the wait after it come one closer, less what migrates meanwhile. */
  lemma LegDistance(f: Flight, wait: seq<Event>)
    requires IsLeg(f, wait) && !Stops(f.cluster, f.at)
    ensures 0 <= Distance(Relayed(f, wait)) <= Distance(f) - 1 + Migrations(wait)
  {
    hide After, IsRun;
    StepDistance(f, Hop);
    WaitFlies(Flight(f.cluster, Table(f.cluster, f.at)), wait);
  }

  /** Whatever migrates and whoever learns of it on the way, a hashed task runs on the
      node that owns its container at that moment exactly when it stops at one of the first
      two nodes, or the second one's table, read when it gets there, names the owner of the
      moment of arrival.  At most one migration, missed or on the way, is always harmless. */
  lemma HashFindsOwnerIff(f: Flight, e: Setting, h: u32, waits: seq<seq<Event>>)
    requires Proper(e) && h % e.num == e.c && IsWay(f, waits)
    ensures Travel(f, e, DirectHash(h), waits).Some?
    ensures var g := Travel(f, e, DirectHash(h), waits).value;
            Flying(g) &&
            (g.at == Owner(g.cluster) <==>
             f.at == Owner(f.cluster)
             || var r := Relayed(f, waits[0]);
                r.at == Owner(r.cluster) || Table(r.cluster, r.at) == Owner(Relayed(r, waits[1]).cluster))
    ensures var g := Travel(f, e, DirectHash(h), waits).value;
            Missed(f) + Migrations(waits[0]) + Migrations(waits[1]) <= 1 ==> g.at == Owner(g.cluster)
  {
    hide Travel, After, IsRun, IsWait;
    HashTravels(f, e, h, waits);
    StopsAtOwnerOnly(f.cluster, f.at);
    if !Stops(f.cluster, f.at) {
      var r := Relayed(f, waits[0]);
      StopsAtOwnerOnly(r.cluster, r.at);
      LegDistance(f, waits[0]);
      if !Stops(r.cluster, r.at) {
        LegDistance(r, waits[1]);
      }
    }
  }

  /** An explicit id has only the first table: it must name the owner of the moment of
      arrival. */
  lemma IdFindsOwnerIff(f: Flight, e: Setting, waits: seq<seq<Event>>)
    requires Flying(f) && Proper(e) && waits != [] && (!Stops(f.cluster, f.at) ==> IsLeg(f, waits[0]))
    ensures Travel(f, e, DirectId(e.c), waits).Some?
    ensures var g := Travel(f, e, DirectId(e.c), waits).value;
            Flying(g) &&
            (g.at == Owner(g.cluster) <==>
             f.at == Owner(f.cluster) || Table(f.cluster, f.at) == Owner(Relayed(f, waits[0]).cluster))
    ensures var g := Travel(f, e, DirectId(e.c), waits).value;
            Missed(f) + Migrations(waits[0]) <= 0 ==> g.at == Owner(g.cluster)
  {
    hide Travel, After, IsRun, IsWait;
    IdTravels(f, e, waits);
    StopsAtOwnerOnly(f.cluster, f.at);
    if !Stops(f.cluster, f.at) {
      LegDistance(f, waits[0]);
    }
  }

  /** Whatever number of migrations from two on the first node missed, the task can run on
      a node the container has left: here it moved along 0, 1, 2, ... and each node knows
      only of its own arrival and departure. */
  lemma StaleRelayMisses(missed: u32, h: u32, num: u32, hosts: nat, k: u32)
    requires 2 <= missed < U32 - 1 && num > 0 && hosts != 1 && k > 0
    ensures var s := Trail(missed); var n: u32 := missed + 1;
            && Valid(s) && n in s.seen && Last(s) - s.seen[n] == missed
            && Nodes(Deliver(Tables(s, h % num, num, hosts, k), n, DirectHash(h))) == [1]
            && Owner(s) != 1
  {
    var s := Trail(missed);
    HashRunsAt(s, missed + 1, h, num, hosts, k);
  }

  ghost function Trail(missed: u32): Cluster
    requires missed < U32 - 1
  {
    Cluster(seq<u32>(missed + 1, i requires 0 <= i <= missed => i),
            map n: u32 | 0 <= n <= missed + 1 :: TrailSeen(missed, n),
            {})
  }

  function TrailSeen(missed: u32, n: u32): nat { if n < missed then n + 1 else if n == missed then missed else 0 }
}
