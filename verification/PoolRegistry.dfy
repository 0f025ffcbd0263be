/** The pool manager: get-or-create with rollback across a suspension, and the
    containers registered for a pool.

    CreatePool is a coroutine that suspends once, while the new container runs its own
    Create.  `Begin` is the part before the suspension, `Finish` the part after it; any
    other registry operation may run in between. */
module PoolRegistry {
  import opened PoolQueries

  datatype PoolId = PoolId(major: u32, minor: u32)

  const NULL_POOL := PoolId(0, 0)

  type Cont = nat   // a Container object; never reused

  datatype Option<+T> = None | Some(value: T)

  datatype Info = Info(
    name: string,
    chimod: string,
    params: string,
    num: u32,
    containers: map<u32, Cont>,   // on this node
    addr: map<u32, u32>,
    persistent: Option<Cont>,
    local: Option<Cont>)

  datatype Registry = Registry(
    pools: map<PoolId, Info>,
    next: Cont,
    destroyed: multiset<Cont>)    // DestroyContainer calls

  datatype Request = Request(chimod: string, name: string, params: string, id: PoolId)

  /** How building the container goes up to the suspension. */
  datatype Build = NoModules | NoContainer | CreateThrows | InitThrows | Built

  datatype Reply =
    | Invalid                  // empty name, or unknown ChiMod
    | Existing(id: PoolId)     // the name is taken: its pool is returned
    | NullId
    | IdTaken
    | Failed                   // rolled back before the suspension
    | Suspended(c: Cont)       // waiting for the container's own Create

  // ----- specification -----

  ghost predicate Named(pools: map<PoolId, Info>, id: PoolId, name: string) { id in pools && pools[id].name == name }

  /** Container c starts on node c. */
  function FirstHome(c: u32): u32 { c }

  ghost function IdentityMap(num: u32): map<u32, u32> { map c: u32 | 0 <= c < num :: FirstHome(c) }

  ghost function NewInfo(req: Request, hosts: u32, node: u32, c: Cont): Info {
    Info(req.name, req.chimod, req.params, hosts, map[node := c], IdentityMap(hosts), Some(c), Some(c))
  }

  ghost predicate NameTaken(r: Registry, name: string) { exists id :: Named(r.pools, id, name) }

  ghost function Begin(r: Registry, req: Request, knownMod: bool, hosts: u32, node: u32, build: Build): (Registry, Reply) {
    if req.chimod == "" || req.name == "" || !knownMod then (r, Invalid)
    else if NameTaken(r, req.name) then
      var id :| Named(r.pools, id, req.name);
      (r, Existing(id))
    else if req.id == NULL_POOL then (r, NullId)
    else if req.id in r.pools then (r, IdTaken)
    else BuildPool(r, req, hosts, node, build)
  }

  ghost function BuildPool(r: Registry, req: Request, hosts: u32, node: u32, build: Build): (Registry, Reply) {
    match build
    case NoModules => (r, Failed)
    case NoContainer => (r, Failed)
    case CreateThrows => (r, Failed)
    case InitThrows => (r.(next := r.next + 1, destroyed := r.destroyed + multiset{r.next}), Failed)
    case Built => (r.(pools := r.pools[req.id := NewInfo(req, hosts, node, r.next)], next := r.next + 1), Suspended(r.next))
  }

  /** After the suspension: on an error code or an exception, unregister, destroy, erase. */
  ghost function Finish(r: Registry, id: PoolId, c: Cont, ok: bool): Registry {
    if ok then r else r.(pools := r.pools - {id}, destroyed := r.destroyed + multiset{c})
  }

  ghost function Destroy(r: Registry, id: PoolId): Registry { r.(pools := r.pools - {id}) }

  ghost function Added(x: Info, cid: u32, c: Cont, isStatic: bool): Info {
    x.(containers := x.containers[cid := c],
       persistent := if isStatic || x.persistent.None? then Some(c) else x.persistent,
       local := if x.local.None? then Some(c) else x.local)
  }

  /** RecalculateLocalContainer takes whichever container the hash table lists first. */
  ghost predicate IsRecalculated(x: Info, y: Info) {
    && y == x.(local := y.local)
    && if x.containers == map[] then y.local == x.persistent else y.local.Some? && y.local.value in x.containers.Values
  }

  ghost predicate IsRemoved(x: Info, cid: u32, y: Info)
    requires cid in x.containers
  {
    var z := x.(containers := x.containers - {cid});
    if x.local == Some(x.containers[cid]) then IsRecalculated(z, y) else y == z
  }

  function Lookup(x: Info, cid: u32): Option<Cont> {
    if cid != INVALID_CONTAINER && cid in x.containers then Some(x.containers[cid]) else x.local
  }

  /** What GetContainer answers. */
  function Find(r: Registry, id: PoolId, cid: u32): Option<Cont> { if id in r.pools then Lookup(r.pools[id], cid) else None }

  // ----- the class -----

  class PoolManager {
    var pools: map<PoolId, Info>
    var next: Cont
    var destroyed: multiset<Cont>
    const node: u32

    ghost function State(): Registry
      reads this
    {
      Registry(pools, next, destroyed)
    }

    constructor (node: u32)
      ensures State() == Registry(map[], 0, multiset{}) && this.node == node
    {
      pools, next, destroyed, this.node := map[], 0, multiset{}, node;
    }

    /** The first pool of that name in table order. */
    method FindPoolByName(name: string) returns (found: Option<PoolId>)
      ensures found.Some? ==> Named(pools, found.value, name)
      ensures found.None? ==> forall id :: !Named(pools, id, name)
    {
      var rest := pools.Keys;
      while rest != {}
        invariant rest <= pools.Keys
        invariant forall id :: Named(pools, id, name) ==> id in rest
        decreases rest
      {
        var id :| id in rest;
        if pools[id].name == name {
          return Some(id);
        }
        rest := rest - {id};
      }
      found := None;
    }

    method InitAddressMap(id: PoolId, num: u32)
      modifies this`pools
      ensures pools == if id in old(pools) then old(pools)[id := old(pools)[id].(addr := IdentityMap(num))] else old(pools)
    {
      if id !in pools {
        return;
      }
      var addr: map<u32, u32> := map[];
      var i := 0;
      while i < num
        invariant 0 <= i <= num
        invariant addr == IdentityMap(i)
      {
        addr := addr[i := i];
        i := i + 1;
      }
      pools := pools[id := pools[id].(addr := addr)];
    }

    method RegisterContainer(id: PoolId, cid: u32, c: Cont, isStatic: bool) returns (ok: bool)
      modifies this`pools
      ensures ok == (id in old(pools))
      ensures pools == if ok then old(pools)[id := Added(old(pools)[id], cid, c, isStatic)] else old(pools)
    {
      if id !in pools {
        return false;
      }
      var x := pools[id];
      x := x.(containers := x.containers[cid := c]);
      if isStatic || x.persistent.None? {
        x := x.(persistent := Some(c));
      }
      if x.local.None? {
        x := x.(local := Some(c));
      }
      pools := pools[id := x];
      ok := true;
    }

    method UnregisterContainer(id: PoolId, cid: u32) returns (ok: bool)
      modifies this`pools
      ensures ok == (id in old(pools) && cid in old(pools)[id].containers)
      ensures !ok ==> pools == old(pools)
      ensures ok ==> id in pools && pools == old(pools)[id := pools[id]] && IsRemoved(old(pools)[id], cid, pools[id])
    {
      if id !in pools || cid !in pools[id].containers {
        return false;
      }
      var x := pools[id];
      var removed := x.containers[cid];
      x := x.(containers := x.containers - {cid});
      if x.local == Some(removed) {
        if x.containers != map[] {
          var first :| first in x.containers;
          x := x.(local := Some(x.containers[first]));
        } else {
          x := x.(local := x.persistent);
        }
      }
      pools := pools[id := x];
      ok := true;
    }

    method GetContainer(id: PoolId, cid: u32) returns (c: Option<Cont>)
      ensures c == Find(State(), id, cid)
      ensures id !in pools ==> c == None
      ensures id in pools && cid in pools[id].containers && cid != INVALID_CONTAINER ==> c == Some(pools[id].containers[cid])
      ensures id in pools && (cid !in pools[id].containers || cid == INVALID_CONTAINER) ==> c == pools[id].local
    {
      if id !in pools {
        return None;
      }
      c := None;
      if cid != INVALID_CONTAINER && cid in pools[id].containers {
        c := Some(pools[id].containers[cid]);
      }
      if c.None? {
        c := pools[id].local;
      }
    }

    /** CreatePool up to its co_await. */
    method CreatePool(req: Request, knownMod: bool, hosts: u32, build: Build) returns (reply: Reply)
      requires forall i, j :: i in pools && j in pools && pools[i].name == pools[j].name ==> i == j
      modifies this
      ensures (State(), reply) == Begin(old(State()), req, knownMod, hosts, node, build)
    {
      if req.chimod == "" || req.name == "" || !knownMod {
        return Invalid;
      }
      var existing := FindPoolByName(req.name);
      if existing.Some? {
        return Existing(existing.value);
      }
      if req.id == NULL_POOL {
        return NullId;
      }
      if req.id in pools {
        return IdTaken;
      }
      reply := CreateContainer(req, hosts, build);
    }

    /** The part of CreatePool that builds the pool, for a new name and id. */
    method CreateContainer(req: Request, hosts: u32, build: Build) returns (reply: Reply)
      requires req.id !in pools
      modifies this
      ensures (State(), reply) == BuildPool(old(State()), req, hosts, node, build)
    {
      ghost var before := pools;
      pools := pools[req.id := Info(req.name, req.chimod, req.params, hosts, map[], map[], None, None)];
      InitAddressMap(req.id, hosts);
      if build.NoModules? || build.NoContainer? || build.CreateThrows? {
        pools := pools - {req.id};
        assert pools == before;
        return Failed;
      }
      var c := next;
      next := next + 1;
      if build.InitThrows? {
        var unregistered := UnregisterContainer(req.id, node);
        destroyed := destroyed + multiset{c};
        pools := pools - {req.id};
        assert pools == before;
        return Failed;
      }
      var registered := RegisterContainer(req.id, node, c, true);
      assert pools == before[req.id := NewInfo(req, hosts, node, c)];
      reply := Suspended(c);
    }

    /** CreatePool after its co_await. */
    method FinishCreate(id: PoolId, c: Cont, ok: bool)
      modifies this
      ensures State() == Finish(old(State()), id, c, ok)
    {
      if !ok {
        var unregistered := UnregisterContainer(id, node);
        destroyed := destroyed + multiset{c};
        pools := pools - {id};
      }
    }

    method DestroyPool(id: PoolId)
      modifies this
      ensures State() == Destroy(old(State()), id)
    {
      if id in pools {
        pools := pools[id := pools[id].(containers := map[], persistent := None, local := None)];
        pools := pools - {id};
      }
    }
  }

  // ----- runs -----

  /** A registry with the creations suspended in it; `maker` is history: which creation
      entered a pool; `kept` and `failed` are the containers whose creation has ended well
      or badly. */
  datatype System = System(reg: Registry, pending: map<Cont, Request>, maker: map<PoolId, Cont>, kept: set<Cont>, failed: set<Cont>)

  const Start := System(Registry(map[], 0, multiset{}), map[], map[], {}, {})

  datatype Event =
    | BeginCreate(req: Request, knownMod: bool, hosts: u32, build: Build)
    | EndCreate(c: Cont, ok: bool)
    | DestroyPool(id: PoolId)
    | Register(id: PoolId, cid: u32, c: Cont, isStatic: bool)
    | Unregister(id: PoolId, cid: u32, y: Info)

  /** What others may do to a pool while it is being created: anything; anything but
      destroy it; or nothing at all. */
  datatype Care = Careless | NoDestroy | Untouched

  ghost predicate UnderCreation(s: System, id: PoolId) { exists c :: c in s.pending && s.pending[c].id == id }

  ghost predicate Can(s: System, e: Event, care: Care) {
    match e
    case BeginCreate(_, _, _, _) => true
    case EndCreate(c, _) => c in s.pending
    case DestroyPool(id) => !care.Careless? ==> !UnderCreation(s, id)
    case Register(id, _, _, _) => id in s.reg.pools && (care.Untouched? ==> !UnderCreation(s, id))
    case Unregister(id, cid, y) =>
      id in s.reg.pools && cid in s.reg.pools[id].containers && IsRemoved(s.reg.pools[id], cid, y)
      && (care.Untouched? ==> !UnderCreation(s, id))
  }

  ghost function Step(s: System, e: Event, node: u32): System
    requires Can(s, e, Careless)
  {
    match e
    case BeginCreate(req, knownMod, hosts, build) =>
      var (r, reply) := Begin(s.reg, req, knownMod, hosts, node, build);
      if reply.Suspended? then s.(reg := r, pending := s.pending[reply.c := req], maker := s.maker[req.id := reply.c])
      else s.(reg := r, failed := if r.next > s.reg.next then s.failed + {s.reg.next} else s.failed)
    case EndCreate(c, ok) =>
      var r := Finish(s.reg, s.pending[c].id, c, ok);
      System(r, s.pending - {c}, s.maker, if ok then s.kept + {c} else s.kept, if ok then s.failed else s.failed + {c})
    case DestroyPool(id) => s.(reg := Destroy(s.reg, id))
    case Register(id, cid, c, isStatic) =>
      s.(reg := s.reg.(pools := s.reg.pools[id := Added(s.reg.pools[id], cid, c, isStatic)]))
    case Unregister(id, _, y) => s.(reg := s.reg.(pools := s.reg.pools[id := y]))
  }

  ghost predicate UniqueNames(r: Registry) {
    && (forall i, j :: i in r.pools && j in r.pools && r.pools[i].name == r.pools[j].name ==> i == j)
    && (forall i :: i in r.pools ==> i != NULL_POOL && r.pools[i].name != "")
  }

  /** Each container object is in one stage of its creation, and has been destroyed once
      if the creation failed and not otherwise. */
  ghost predicate Fates(s: System) {
    && (forall c :: c in s.pending ==> c < s.reg.next && c !in s.kept && c !in s.failed)
    && (forall c :: c in s.kept ==> c < s.reg.next && c !in s.failed)
    && (forall c :: c in s.failed ==> c < s.reg.next)
    && (forall c :: s.reg.destroyed[c] == if c in s.failed then 1 else 0)
  }

  /** Every pool was entered by a creation that is still suspended or ended well. */
  ghost predicate Made(s: System) {
    forall id :: id in s.reg.pools ==>
      && id in s.maker && (s.maker[id] in s.pending || s.maker[id] in s.kept)
      && (s.maker[id] in s.pending ==> s.pending[s.maker[id]].id == id)
  }

  /** A suspended creation still has the entry it made, under its name ... */
  ghost predicate OwnsEntry(s: System, c: Cont)
    requires c in s.pending
  {
    var req := s.pending[c];
    req.id in s.reg.pools && req.id in s.maker && s.maker[req.id] == c && s.reg.pools[req.id].name == req.name && req.name != ""
  }

  /** ... which holds its own container only. */
  ghost predicate HoldsOwn(s: System, c: Cont, node: u32)
    requires c in s.pending
  {
    && s.pending[c].id in s.reg.pools
    && var x := s.reg.pools[s.pending[c].id];
    x.containers == map[node := c] && x.persistent == Some(c) && x.local == Some(c)
  }

  ghost predicate Owned(s: System, node: u32, care: Care) {
    && (!care.Careless? ==> forall c :: c in s.pending ==> OwnsEntry(s, c))
    && (care.Untouched? ==> forall c :: c in s.pending ==> HoldsOwn(s, c, node))
  }

  ghost predicate IsRun(s: System, run: seq<Event>, node: u32, care: Care)
    decreases |run|
  {
    run == [] || (Can(s, run[0], care) && Can(s, run[0], Careless) && IsRun(Step(s, run[0], node), run[1..], node, care))
  }

  ghost function After(s: System, run: seq<Event>, node: u32, care: Care): System
    requires IsRun(s, run, node, care)
    decreases |run|
  {
    if run == [] then s else After(Step(s, run[0], node), run[1..], node, care)
  }

  lemma BeginKeepsNames(r: Registry, req: Request, knownMod: bool, hosts: u32, node: u32, build: Build)
    requires UniqueNames(r)
    ensures UniqueNames(Begin(r, req, knownMod, hosts, node, build).0)
  {
    if !NameTaken(r, req.name) {
      forall i | i in r.pools ensures r.pools[i].name != req.name {
        assert !Named(r.pools, i, req.name);
      }
    }
  }

  lemma StepNames(s: System, e: Event, node: u32)
    requires Can(s, e, Careless) && UniqueNames(s.reg)
    ensures UniqueNames(Step(s, e, node).reg)
  {
    hide IdentityMap, Owned, Fates, Made;
    match e
    case BeginCreate(req, knownMod, hosts, build) =>
      hide Begin, UniqueNames;
      BeginKeepsNames(s.reg, req, knownMod, hosts, node, build);
    case EndCreate(c, ok) =>
    case DestroyPool(id) =>
    case Register(id, cid, c, isStatic) =>
      assert Step(s, e, node).reg.pools[id].name == s.reg.pools[id].name;
    case Unregister(id, cid, y) =>
      assert y.name == s.reg.pools[id].name;
  }

  lemma StepFates(s: System, e: Event, node: u32)
    requires Can(s, e, Careless) && Fates(s)
    ensures Fates(Step(s, e, node))
  {
    hide IdentityMap, NameTaken, UniqueNames, Owned, Made, Added, IsRemoved;
  }

  lemma StepMade(s: System, e: Event, node: u32)
    requires Can(s, e, Careless) && Fates(s) && Made(s)
    ensures Made(Step(s, e, node))
  {
    hide IdentityMap, NameTaken, UniqueNames, Owned, Added, IsRemoved;
  }

  lemma StepOwned(s: System, e: Event, node: u32, care: Care)
    requires Can(s, e, care) && Can(s, e, Careless) && Fates(s) && Owned(s, node, care) && !care.Careless?
    ensures forall c :: c in Step(s, e, node).pending ==> OwnsEntry(Step(s, e, node), c)
  {
    hide IdentityMap, NameTaken, UniqueNames, Made, IsRemoved;
    var t := Step(s, e, node);
    forall d | d in t.pending ensures OwnsEntry(t, d) {
      if d in s.pending {
        assert OwnsEntry(s, d);
        if e.EndCreate? { assert OwnsEntry(s, e.c); }
        if e.Unregister? { RemovedName(s.reg.pools[e.id], e.cid, e.y); }
      }
    }
  }

  lemma RemovedName(x: Info, cid: u32, y: Info)
    requires cid in x.containers && IsRemoved(x, cid, y)
    ensures y.name == x.name
  {}

  lemma StepHolds(s: System, e: Event, node: u32)
    requires Can(s, e, Untouched) && Can(s, e, Careless) && Fates(s) && Owned(s, node, Untouched)
    ensures forall c :: c in Step(s, e, node).pending ==> HoldsOwn(Step(s, e, node), c, node)
  {
    hide IdentityMap, NameTaken, UniqueNames, Made, Added, IsRemoved;
    var t := Step(s, e, node);
    forall d | d in t.pending ensures HoldsOwn(t, d, node) {
      if d in s.pending {
        assert OwnsEntry(s, d) && HoldsOwn(s, d, node);
        if e.EndCreate? { assert OwnsEntry(s, e.c); }
      }
    }
  }

  ghost predicate Inv(s: System, node: u32, care: Care) { UniqueNames(s.reg) && Fates(s) && Made(s) && Owned(s, node, care) }

  lemma StepKeeps(s: System, e: Event, node: u32, care: Care)
    requires Can(s, e, care) && Can(s, e, Careless) && Inv(s, node, care)
    ensures Inv(Step(s, e, node), node, care)
  {
    hide Step, Can, UniqueNames, Fates, Made, OwnsEntry, HoldsOwn;
    StepNames(s, e, node);
    StepFates(s, e, node);
    StepMade(s, e, node);
    if !care.Careless? {
      StepOwned(s, e, node, care);
    }
    if care.Untouched? {
      StepHolds(s, e, node);
    }
  }

  lemma {:induction false} RunKeeps(s: System, run: seq<Event>, node: u32, care: Care)
    requires IsRun(s, run, node, care) && Inv(s, node, care)
    ensures Inv(After(s, run, node, care), node, care)
    decreases |run|
  {
    hide Inv;
    if run != [] {
      StepKeeps(s, run[0], node, care);
      RunKeeps(Step(s, run[0], node), run[1..], node, care);
    }
  }

  lemma StartInv(node: u32, care: Care)
    ensures Inv(Start, node, care)
  {}

  /** On every run, destroys included: no two pools share a name, and every container is
      destroyed once if its creation failed and never otherwise. */
  lemma NamesStayUnique(run: seq<Event>, node: u32)
    requires IsRun(Start, run, node, Careless)
    ensures var s := After(Start, run, node, Careless);
            && (forall i, j :: i in s.reg.pools && j in s.reg.pools && s.reg.pools[i].name == s.reg.pools[j].name ==> i == j)
            && (forall c :: s.reg.destroyed[c] == if c in s.failed then 1 else 0)
  {
    StartInv(node, Careless);
    RunKeeps(Start, run, node, Careless);
  }

  /** Pools other than those `c`'s creation entered are as they were. */
  ghost predicate OthersKept(s: System, t: System, c: Cont) {
    forall i :: i in s.reg.pools && !(i in s.maker && s.maker[i] == c) ==> i in t.reg.pools && t.reg.pools[i] == s.reg.pools[i]
  }

  /** On every run in which no pool is destroyed while it is being created, whatever is
      registered or unregistered meanwhile: a creation that fails removes the entry it made
      and nothing else, and destroys its container for the first time. */
  lemma FailureRollsBack(run: seq<Event>, c: Cont, node: u32)
    requires IsRun(Start, run, node, NoDestroy)
    requires c in After(Start, run, node, NoDestroy).pending
    ensures var s := After(Start, run, node, NoDestroy);
            var id := s.pending[c].id;
            var t := Step(s, EndCreate(c, false), node);
            && id in s.reg.pools && id in s.maker && s.maker[id] == c && s.reg.pools[id].name == s.pending[c].name
            && t.reg.pools == s.reg.pools - {id}
            && s.reg.destroyed[c] == 0 && t.reg.destroyed == s.reg.destroyed[c := 1]
  {
    StartInv(node, NoDestroy);
    RunKeeps(Start, run, node, NoDestroy);
    var s := After(Start, run, node, NoDestroy);
    assert OwnsEntry(s, c);
    assert s.reg.destroyed[c] == 0;
    assert s.reg.destroyed + multiset{c} == s.reg.destroyed[c := 1];
  }

  /** If besides nothing is registered or unregistered, that entry holds the creation's own
      container only, so nothing else goes with it. */
  lemma FailureLosesNoContainer(run: seq<Event>, c: Cont, node: u32)
    requires IsRun(Start, run, node, Untouched)
    requires c in After(Start, run, node, Untouched).pending
    ensures var s := After(Start, run, node, Untouched);
            var id := s.pending[c].id;
            id in s.reg.pools && s.reg.pools[id].containers == map[node := c] && s.reg.pools[id].persistent == Some(c)
  {
    StartInv(node, Untouched);
    RunKeeps(Start, run, node, Untouched);
    assert HoldsOwn(After(Start, run, node, Untouched), c, node);
  }

  /** On every run at all: a creation that fails leaves no entry of its own behind.  It
      touches no other exactly when the entry under its id is gone or is the one it made;
      if it is another's, that pool is gone although its container has not been destroyed. */
  lemma FailureIsOwnIff(run: seq<Event>, c: Cont, node: u32)
    requires IsRun(Start, run, node, Careless)
    requires c in After(Start, run, node, Careless).pending
    ensures var s := After(Start, run, node, Careless);
            var id := s.pending[c].id;
            var t := Step(s, EndCreate(c, false), node);
            && (forall i :: i in t.reg.pools ==> i in t.maker && t.maker[i] != c)
            && (OthersKept(s, t, c) <==> id !in s.reg.pools || (id in s.maker && s.maker[id] == c))
            && (!OthersKept(s, t, c) ==>
                  id in s.maker && id !in t.reg.pools && t.reg.destroyed[s.maker[id]] == 0)
  {
    hide Can, IsRun, After, UniqueNames;
    StartInv(node, Careless);
    RunKeeps(Start, run, node, Careless);
    var s := After(Start, run, node, Careless);
    FailedStep(s, c, node);
  }

  lemma FailedStep(s: System, c: Cont, node: u32)
    requires Fates(s) && Made(s) && c in s.pending
    ensures var id := s.pending[c].id;
            var t := Step(s, EndCreate(c, false), node);
            && (forall i :: i in t.reg.pools ==> i in t.maker && t.maker[i] != c)
            && (OthersKept(s, t, c) <==> id !in s.reg.pools || (id in s.maker && s.maker[id] == c))
            && (!OthersKept(s, t, c) ==>
                  id in s.maker && id !in t.reg.pools && t.reg.destroyed[s.maker[id]] == 0)
  {}

  /** While a creation is suspended and its pool is not destroyed, asking for its name
      again gives its pool and changes nothing, on every run. */
  lemma GetOrCreate(run: seq<Event>, c: Cont, node: u32, again: Request, hosts: u32, build: Build)
    requires IsRun(Start, run, node, NoDestroy)
    requires c in After(Start, run, node, NoDestroy).pending
    requires again.name == After(Start, run, node, NoDestroy).pending[c].name && again.chimod != ""
    ensures var s := After(Start, run, node, NoDestroy);
            Begin(s.reg, again, true, hosts, node, build) == (s.reg, Existing(s.pending[c].id))
  {
    hide IsRun, After, Can, Made, Fates;
    StartInv(node, NoDestroy);
    RunKeeps(Start, run, node, NoDestroy);
    var s := After(Start, run, node, NoDestroy);
    assert OwnsEntry(s, c);
    FoundAgain(s.reg, s.pending[c].id, again, hosts, node, build);
  }

  lemma FoundAgain(r: Registry, id: PoolId, again: Request, hosts: u32, node: u32, build: Build)
    requires UniqueNames(r) && Named(r.pools, id, again.name) && again.chimod != "" && again.name != ""
    ensures Begin(r, again, true, hosts, node, build) == (r, Existing(id))
  {
    assert NameTaken(r, again.name);
  }

  /** Without care: the pool of `a` is destroyed while it is being created, `b` creates
      another with the same id, and the failure of `a` then removes the pool of `b`, whose
      container is still alive. */
  lemma DestroyDuringCreateStealsEntry(r: Registry, a: Request, b: Request, hosts: u32, node: u32)
    requires a.id == b.id != NULL_POOL && a.id !in r.pools
    requires a.chimod != "" && a.name != "" && b.chimod != "" && b.name != ""
    requires !NameTaken(r, a.name) && !NameTaken(r, b.name)
    requires r.destroyed[r.next + 1] == 0
    ensures var r1 := Begin(r, a, true, hosts, node, Built).0;
            var (r3, reply) := Begin(Destroy(r1, a.id), b, true, hosts, node, Built);
            var r4 := Finish(r3, a.id, r.next, false);
            && reply == Suspended(r.next + 1)
            && r3.pools[b.id].name == b.name
            && b.id !in r4.pools && r4.destroyed[r.next + 1] == 0
  {
    var r1 := Begin(r, a, true, hosts, node, Built).0;
    var r2 := Destroy(r1, a.id);
    assert r2.pools == r.pools;
    assert NameTaken(r2, b.name) ==> NameTaken(r, b.name);
  }

  /** A container that has been unregistered is still what a lookup of its id returns,
      exactly when it was the pool's static container and the last one here. */
  lemma UnregisteredStillFoundIff(x: Info, cid: u32, y: Info)
    requires cid in x.containers && cid != INVALID_CONTAINER && IsRemoved(x, cid, y)
    requires forall d :: d in x.containers && x.containers[d] == x.containers[cid] ==> d == cid
    ensures Lookup(y, cid) == Some(x.containers[cid]) <==>
            x.local == Some(x.containers[cid]) && x.containers.Keys == {cid} && x.persistent == Some(x.containers[cid])
  {
    var z := x.containers - {cid};
    assert z.Keys == x.containers.Keys - {cid};
    assert z == map[] <==> z.Keys == {};
    if z != map[] && x.local == Some(x.containers[cid]) {
      var d :| d in z && z[d] == y.local.value;
      assert x.containers[d] != x.containers[cid];
    }
  }

  // ----- what a request is answered -----

  /** A request enters a pool exactly when it is complete and asks for a new name and a new id,
      and its container could be built; a taken name gives the pool of that name before the id
      is looked at; and no other answer leaves a trace in the table. */
  lemma CreateAnswers(r: Registry, req: Request, knownMod: bool, hosts: u32, node: u32, build: Build)
    ensures var (t, reply) := Begin(r, req, knownMod, hosts, node, build);
            var complete := req.chimod != "" && req.name != "" && knownMod;
            var newName := complete && (forall id :: id in r.pools ==> r.pools[id].name != req.name) && req.id != NULL_POOL;
            && (reply.Suspended? <==> newName && req.id !in r.pools && build.Built?)
            && (reply.Existing? <==> complete && exists id :: id in r.pools && r.pools[id].name == req.name)
            && (reply.Existing? ==> reply.id in r.pools && r.pools[reply.id].name == req.name)
            && (reply.IdTaken? <==> newName && req.id in r.pools)
            && (reply.Invalid? <==> !complete)
            && (if reply.Suspended? then reply.c == r.next && t.pools.Keys == r.pools.Keys + {req.id} else t.pools == r.pools)
            && (forall id :: id in r.pools ==> id in t.pools && t.pools[id] == r.pools[id])
            && (t.destroyed[r.next] > r.destroyed[r.next] <==> reply.Failed? && build.InitThrows?)
  {
    hide IdentityMap;
    assert NameTaken(r, req.name) <==> exists id :: id in r.pools && r.pools[id].name == req.name by {
      if id :| id in r.pools && r.pools[id].name == req.name { assert Named(r.pools, id, req.name); }
    }
  }

  // ----- what lookups find -----

  /** `e` neither registers container `cid` of the pool again, nor unregisters it, nor
      destroys the pool. */
  predicate Spares(s: System, e: Event, id: PoolId, cid: u32) {
    match e
    case Register(i, k, _, _) => i != id || k != cid
    case Unregister(i, k, _) => i != id || k != cid
    case DestroyPool(i) => i != id
    case EndCreate(c, ok) => ok || (c in s.pending ==> s.pending[c].id != id)
    case BeginCreate(_, _, _, _) => true
  }

  ghost predicate AllSpare(s: System, run: seq<Event>, id: PoolId, cid: u32, node: u32)
    requires IsRun(s, run, node, Careless)
    decreases |run|
  {
    run == [] || (Spares(s, run[0], id, cid) && AllSpare(Step(s, run[0], node), run[1..], id, cid, node))
  }

  ghost predicate Holds(r: Registry, id: PoolId, cid: u32, c: Cont) {
    id in r.pools && cid in r.pools[id].containers && r.pools[id].containers[cid] == c
  }

  predicate SameLabels(x: Info, y: Info) { y.name == x.name && y.chimod == x.chimod && y.params == x.params && y.num == x.num }

  lemma {:induction false} HeldOn(s: System, run: seq<Event>, id: PoolId, cid: u32, c: Cont, node: u32)
    requires IsRun(s, run, node, Careless) && AllSpare(s, run, id, cid, node) && Holds(s.reg, id, cid, c)
    ensures var r := After(s, run, node, Careless).reg;
            Holds(r, id, cid, c) && SameLabels(s.reg.pools[id], r.pools[id])
    decreases |run|
  {
    hide Spares, Step, Can;
    if run != [] {
      StepHeld(s, run[0], id, cid, c, node);
      HeldOn(Step(s, run[0], node), run[1..], id, cid, c, node);
    }
  }

  lemma StepHeld(s: System, e: Event, id: PoolId, cid: u32, c: Cont, node: u32)
    requires Can(s, e, Careless) && Spares(s, e, id, cid) && Holds(s.reg, id, cid, c)
    ensures var r := Step(s, e, node).reg; Holds(r, id, cid, c) && SameLabels(s.reg.pools[id], r.pools[id])
  {
    hide IdentityMap, NameTaken;
  }

  /** A container is found under the id it was registered with, whatever else happens to the
      registry until that id is registered again or unregistered or the pool is destroyed. */
  lemma RegisteredIsFound(s: System, id: PoolId, cid: u32, c: Cont, isStatic: bool, later: seq<Event>, node: u32)
    requires Can(s, Register(id, cid, c, isStatic), Careless) && cid != INVALID_CONTAINER
    requires var s1 := Step(s, Register(id, cid, c, isStatic), node);
             IsRun(s1, later, node, Careless) && AllSpare(s1, later, id, cid, node)
    ensures var s1 := Step(s, Register(id, cid, c, isStatic), node);
            && Find(After(s1, later, node, Careless).reg, id, cid) == Some(c)
            && (isStatic ==> s1.reg.pools[id].persistent == Some(c))
  {
    HeldOn(Step(s, Register(id, cid, c, isStatic), node), later, id, cid, c, node);
  }

  /** So is the container that a creation built, under the number of its node, while its
      creation is suspended and after; and the pool is what was asked for. */
  lemma CreatedIsFound(s: System, req: Request, hosts: u32, later: seq<Event>, node: u32)
    requires Begin(s.reg, req, true, hosts, node, Built).1.Suspended? && node != INVALID_CONTAINER
    requires var s1 := Step(s, BeginCreate(req, true, hosts, Built), node);
             IsRun(s1, later, node, Careless) && AllSpare(s1, later, req.id, node, node)
    ensures var s1 := Step(s, BeginCreate(req, true, hosts, Built), node);
            var r := After(s1, later, node, Careless).reg;
            && s.reg.next in s1.pending && Find(r, req.id, node) == Some(s.reg.next)
            && var x := r.pools[req.id];
            x.name == req.name && x.chimod == req.chimod && x.params == req.params && x.num == hosts
  {
    HeldOn(Step(s, BeginCreate(req, true, hosts, Built), node), later, req.id, node, s.reg.next, node);
  }

  // ----- the default container -----

  /** `e` does not unregister container `d` of the pool, nor register a static one there, nor
      destroy the pool. */
  ghost predicate SparesDefault(s: System, e: Event, id: PoolId, d: Cont) {
    match e
    case Register(i, _, _, isStatic) => i == id ==> !isStatic
    case Unregister(i, k, _) => i != id || !Holds(s.reg, i, k, d)
    case DestroyPool(i) => i != id
    case EndCreate(c, ok) => ok || (c in s.pending ==> s.pending[c].id != id)
    case BeginCreate(_, _, _, _) => true
  }

  ghost predicate AllSpareDefault(s: System, run: seq<Event>, id: PoolId, d: Cont, node: u32)
    requires IsRun(s, run, node, Careless)
    decreases |run|
  {
    run == [] || (SparesDefault(s, run[0], id, d) && AllSpareDefault(Step(s, run[0], node), run[1..], id, d, node))
  }

  ghost predicate Defaults(r: Registry, id: PoolId, d: Cont, p: Option<Cont>) {
    id in r.pools && r.pools[id].local == Some(d) && p.Some? && r.pools[id].persistent == p
  }

  lemma StepDefault(s: System, e: Event, id: PoolId, d: Cont, p: Option<Cont>, node: u32)
    requires Can(s, e, Careless) && SparesDefault(s, e, id, d) && Defaults(s.reg, id, d, p)
    ensures Defaults(Step(s, e, node).reg, id, d, p)
  {
    hide IdentityMap, NameTaken;
  }

  lemma {:induction false} DefaultOn(s: System, run: seq<Event>, id: PoolId, d: Cont, p: Option<Cont>, node: u32)
    requires IsRun(s, run, node, Careless) && AllSpareDefault(s, run, id, d, node) && Defaults(s.reg, id, d, p)
    ensures Defaults(After(s, run, node, Careless).reg, id, d, p)
    decreases |run|
  {
    hide Defaults, SparesDefault, Step, Can;
    if run != [] {
      StepDefault(s, run[0], id, d, p, node);
      DefaultOn(Step(s, run[0], node), run[1..], id, d, p, node);
    }
  }

  /** An id that is not registered finds the container the pool was created with, until that
      one is unregistered or the pool is destroyed; it is the static one as well, unless
      another is registered as that. */
  lemma UnknownFindsCreated(s: System, req: Request, hosts: u32, later: seq<Event>, node: u32, cid: u32)
    requires Begin(s.reg, req, true, hosts, node, Built).1.Suspended?
    requires var s1 := Step(s, BeginCreate(req, true, hosts, Built), node);
             && IsRun(s1, later, node, Careless) && AllSpareDefault(s1, later, req.id, s.reg.next, node)
             && var x := After(s1, later, node, Careless).reg.pools;
             req.id in x ==> cid == INVALID_CONTAINER || cid !in x[req.id].containers
    ensures var s1 := Step(s, BeginCreate(req, true, hosts, Built), node);
            var r := After(s1, later, node, Careless).reg;
            Find(r, req.id, cid) == Some(s.reg.next) && r.pools[req.id].persistent == Some(s.reg.next)
  {
    DefaultOn(Step(s, BeginCreate(req, true, hosts, Built), node), later, req.id, s.reg.next, Some(s.reg.next), node);
  }

  /** Every pool has a static and a default container, and its address map has each of its
      containers at home on the node of the same number. */
  ghost predicate InfoOk(x: Info) {
    && x.persistent.Some? && x.local.Some?
    && (forall c: u32 :: c in x.addr <==> c < x.num)
    && (forall c: u32 :: c in x.addr ==> x.addr[c] == c)
  }

  ghost predicate InfosOk(r: Registry) { forall id :: id in r.pools ==> InfoOk(r.pools[id]) }

  lemma StepInfos(s: System, e: Event, node: u32)
    requires Can(s, e, Careless) && InfosOk(s.reg)
    ensures InfosOk(Step(s, e, node).reg)
  {
    match e
    case BeginCreate(req, knownMod, hosts, build) => hide NameTaken;
    case EndCreate(c, ok) =>
    case DestroyPool(id) =>
    case Register(id, cid, c, isStatic) => assert InfoOk(Added(s.reg.pools[id], cid, c, isStatic));
    case Unregister(id, cid, y) => assert InfoOk(y);
  }

  lemma {:induction false} InfosOn(s: System, run: seq<Event>, node: u32)
    requires IsRun(s, run, node, Careless) && InfosOk(s.reg)
    ensures InfosOk(After(s, run, node, Careless).reg)
    decreases |run|
  {
    hide InfosOk, Step, Can;
    if run != [] {
      StepInfos(s, run[0], node);
      InfosOn(Step(s, run[0], node), run[1..], node);
    }
  }

  /** On every run a lookup fails exactly for an unknown pool, and container c of a pool that
      has it is mapped to node c. */
  lemma LookupFailsIff(run: seq<Event>, id: PoolId, cid: u32, node: u32)
    requires IsRun(Start, run, node, Careless)
    ensures var r := After(Start, run, node, Careless).reg;
            && (Find(r, id, cid) == None <==> id !in r.pools)
            && (id in r.pools ==> (cid in r.pools[id].addr <==> cid < r.pools[id].num))
            && (id in r.pools && cid < r.pools[id].num ==> r.pools[id].addr[cid] == cid)
  {
    InfosOn(Start, run, node);
    var r := After(Start, run, node, Careless).reg;
    assert id in r.pools ==> InfoOk(r.pools[id]);
  }
}
