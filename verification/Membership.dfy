/** Cluster membership: the host table, the list of dead nodes, the host cache and the
    leader. */
module Membership {
  datatype NodeState = Alive | ProbeFailed | Suspected | Dead

  datatype Host = Host(ip: string, id: nat, state: NodeState)

  /** `dead` is dead_nodes_; `cache` is hosts_cache_, meaningful when `cached`. */
  datatype Table = Table(hosts: map<nat, Host>, dead: seq<nat>, cache: seq<Host>, cached: bool)

  const Empty := Table(map[], [], [], false)

  // ----- specification -----

  function Listed(ips: seq<string>, id: nat): Host
    requires id < |ips|
  {
    Host(ips[id], id, Alive)
  }

  /** The table of a hostfile: line number is node id. */
  ghost function Loaded(ips: seq<string>): map<nat, Host> { map id | 0 <= id < |ips| :: Listed(ips, id) }

  /** LoadHostfile; None is a hostfile that cannot be read. */
  ghost function Load(t: Table, ips: seq<string>, readable: bool): Table {
    t.(hosts := if readable then Loaded(ips) else map[], cached := false)
  }

  function SetState(t: Table, id: nat, state: NodeState): Table {
    if id in t.hosts then t.(hosts := t.hosts[id := t.hosts[id].(state := state)], cached := false) else t
  }

  function Without(xs: seq<nat>, x: nat): seq<nat> {
    if xs == [] then [] else (if xs[0] == x then [] else [xs[0]]) + Without(xs[1..], x)
  }

  function MarkDead(t: Table, id: nat): Table {
    if id !in t.hosts || t.hosts[id].state == Dead then t
    else SetState(t, id, Dead).(dead := t.dead + [id])
  }

  function MarkAlive(t: Table, id: nat): Table {
    if id !in t.hosts || t.hosts[id].state == Alive then t
    else SetState(t, id, Alive).(dead := Without(t.dead, id))
  }

  ghost predicate HasIp(hosts: map<nat, Host>, id: nat, ip: string) { id in hosts && hosts[id].ip == ip }

  /** AddNode with the id it returns: an ip already listed is only marked alive again. */
  ghost predicate Adds(t: Table, ip: string, r: Table, id: nat) {
    if exists k :: HasIp(t.hosts, k, ip) then HasIp(t.hosts, id, ip) && r == MarkAlive(t, id)
    else id == |t.hosts| && r == t.(hosts := t.hosts[id := Host(ip, id, Alive)], cached := false)
  }

  /** Each host of the table once, in some order. */
  ghost predicate IsListing(list: seq<Host>, hosts: map<nat, Host>) {
    && (forall i, j :: 0 <= i < j < |list| ==> list[i].id != list[j].id)
    && (forall h :: h in list <==> h.id in hosts && hosts[h.id] == h)
  }

  // ----- the class -----

  class IpcManager {
    var hosts: map<nat, Host>
    var dead: seq<nat>
    var cache: seq<Host>
    var cached: bool

    function Value(): Table
      reads this
    {
      Table(hosts, dead, cache, cached)
    }

    constructor ()
      ensures Value() == Empty
    {
      hosts, dead, cache, cached := map[], [], [], false;
    }

    method LoadHostfile(ips: seq<string>, readable: bool) returns (ok: bool)
      modifies this
      ensures ok == readable
      ensures Value() == Load(old(Value()), ips, readable)
    {
      hosts := map[];
      cached := false;
      if !readable {
        return false;
      }
      var offset := 0;
      while offset < |ips|
        invariant offset <= |ips|
        invariant hosts == Loaded(ips[..offset]) && dead == old(dead) && cache == old(cache) && !cached
      {
        hosts := hosts[offset := Host(ips[offset], offset, Alive)];
        offset := offset + 1;
      }
      assert ips[..offset] == ips;
      ok := true;
    }

    method SetNodeState(id: nat, state: NodeState)
      modifies this
      ensures Value() == SetState(old(Value()), id, state)
    {
      if id !in hosts {
        return;
      }
      hosts := hosts[id := hosts[id].(state := state)];
      cached := false;
    }

    method SetDead(id: nat)
      modifies this
      ensures Value() == MarkDead(old(Value()), id)
    {
      if id !in hosts || hosts[id].state == Dead {
        return;
      }
      SetNodeState(id, Dead);
      dead := dead + [id];
    }

    method SetAlive(id: nat)
      modifies this
      ensures Value() == MarkAlive(old(Value()), id)
    {
      if id !in hosts || hosts[id].state == Alive {
        return;
      }
      SetNodeState(id, Alive);
      EraseDead(id);
    }

    method EraseDead(id: nat)
      modifies this`dead
      ensures dead == Without(old(dead), id)
    {
      var kept, i := [], 0;
      while i < |dead|
        invariant i <= |dead| && dead == old(dead)
        invariant kept + Without(dead[i..], id) == Without(dead, id)
      {
        assert dead[i..][1..] == dead[i + 1..];
        if dead[i] != id {
          kept := kept + [dead[i]];
        }
        i := i + 1;
      }
      dead := kept;
    }

    method AddNode(ip: string) returns (id: nat)
      modifies this
      ensures Adds(old(Value()), ip, Value(), id)
    {
      var rest := hosts.Keys;
      while rest != {}
        invariant rest <= hosts.Keys && Value() == old(Value())
        invariant forall k :: HasIp(hosts, k, ip) ==> k in rest
        decreases rest
      {
        id :| id in rest;
        if hosts[id].ip == ip {
          assert HasIp(old(hosts), id, ip);
          SetAlive(id);
          return;
        }
        rest := rest - {id};
      }
      id := |hosts|;
      hosts := hosts[id := Host(ip, id, Alive)];
      cached := false;
    }

    method GetAllHosts() returns (list: seq<Host>)
      requires forall k :: k in hosts ==> hosts[k].id == k
      modifies this`cache, this`cached
      ensures cached && list == cache
      ensures if old(cached) then cache == old(cache) else IsListing(cache, hosts)
    {
      if !cached {
        cache := [];
        var rest := hosts.Keys;
        while rest != {}
          invariant rest <= hosts.Keys
          invariant forall i, j :: 0 <= i < j < |cache| ==> cache[i].id != cache[j].id
          invariant forall h :: h in cache <==> h.id in hosts && h.id !in rest && hosts[h.id] == h
          decreases rest
        {
          var k :| k in rest;
          cache := cache + [hosts[k]];
          rest := rest - {k};
        }
        cached := true;
      }
      list := cache;
    }

    method GetLeaderNodeId() returns (leader: nat)
      ensures IsLeader(hosts, leader)
    {
      var found: bool := false;
      leader := 0;
      var rest := hosts.Keys;
      while rest != {}
        invariant rest <= hosts.Keys
        invariant !found ==> leader == 0 && forall k :: k in hosts && k !in rest ==> hosts[k].state != Alive
        invariant found ==> AliveAs(hosts, leader)
        invariant found ==> forall k :: k in hosts && k !in rest && hosts[k].state == Alive ==> leader <= hosts[k].id
        decreases rest
      {
        var k :| k in rest;
        if hosts[k].state == Alive && (!found || hosts[k].id < leader) {
          leader := hosts[k].id;
          found := true;
        }
        rest := rest - {k};
      }
    }
  }

  predicate AliveAs(hosts: map<nat, Host>, leader: nat) {
    exists k :: k in hosts && hosts[k].state == Alive && hosts[k].id == leader
  }

  /** The least id of an alive host, or 0 if there is none. */
  ghost predicate IsLeader(hosts: map<nat, Host>, leader: nat) {
    if forall k :: k in hosts ==> hosts[k].state != Alive then leader == 0
    else AliveAs(hosts, leader) && forall k :: k in hosts && hosts[k].state == Alive ==> leader <= hosts[k].id
  }

  // ----- runs -----

  ghost predicate IdsOk(t: Table) {
    && (forall k :: k in t.hosts <==> 0 <= k < |t.hosts|)
    && (forall k :: k in t.hosts ==> t.hosts[k].id == k)
  }

  /** dead_nodes_ lists each dead node exactly once and nothing else. */
  ghost predicate DeadOk(t: Table) {
    && (forall i, j :: 0 <= i < j < |t.dead| ==> t.dead[i] != t.dead[j])
    && (forall k :: k in t.dead <==> k in t.hosts && t.hosts[k].state == Dead)
  }

  ghost predicate CacheOk(t: Table) { t.cached ==> IsListing(t.cache, t.hosts) }

  ghost predicate Inv(t: Table) { IdsOk(t) && DeadOk(t) && CacheOk(t) }

  datatype Event =
    | LoadHosts(ips: seq<string>, readable: bool)
    | Add(ip: string, id: nat, r: Table)
    | Die(id: nat)
    | Revive(id: nat)
    | Move(id: nat, state: NodeState)
    | Cache(list: seq<Host>)

  ghost predicate Can(t: Table, e: Event) {
    match e
    case Add(ip, id, r) => Adds(t, ip, r, id)
    case Cache(list) => if t.cached then list == t.cache else IsListing(list, t.hosts)
    case _ => true
  }

  ghost function Do(t: Table, e: Event): Table {
    match e
    case LoadHosts(ips, readable) => Load(t, ips, readable)
    case Add(_, _, r) => r
    case Die(id) => MarkDead(t, id)
    case Revive(id) => MarkAlive(t, id)
    case Move(id, state) => SetState(t, id, state)
    case Cache(list) => t.(cache := list, cached := true)
  }

  /** The callers' part: the hostfile is not loaded again while nodes are dead, and nodes
      enter and leave the dead state through SetDead and SetAlive only. */
  predicate Proper(t: Table, e: Event) {
    match e
    case LoadHosts(_, _) => t.dead == []
    case Move(id, state) => id in t.hosts ==> (state == Dead <==> t.hosts[id].state == Dead)
    case _ => true
  }

  lemma LoadedFacts(ips: seq<string>)
    ensures forall k :: k in Loaded(ips) <==> 0 <= k < |ips|
    ensures |Loaded(ips)| == |ips|
  {
    if ips != [] {
      var front := ips[..|ips| - 1];
      LoadedFacts(front);
      assert Loaded(ips) == Loaded(front)[|ips| - 1 := Listed(ips, |ips| - 1)];
    }
  }

  lemma {:induction false} WithoutFacts(xs: seq<nat>, x: nat)
    ensures forall k :: k in Without(xs, x) <==> k in xs && k != x
    ensures (forall i, j :: 0 <= i < j < |xs| ==> xs[i] != xs[j]) ==>
            (forall i, j :: 0 <= i < j < |Without(xs, x)| ==> Without(xs, x)[i] != Without(xs, x)[j])
  {
    if xs != [] {
      var rest := xs[1..];
      WithoutFacts(rest, x);
      if forall i, j :: 0 <= i < j < |xs| ==> xs[i] != xs[j] {
        assert forall i, j :: 0 <= i < j < |rest| ==> rest[i] != rest[j] by {
          forall i, j | 0 <= i < j < |rest| ensures rest[i] != rest[j] { assert xs[i + 1] != xs[j + 1]; }
        }
        assert xs[0] !in rest;
      }
    }
  }

  lemma SetStateIds(t: Table, id: nat, state: NodeState)
    requires IdsOk(t)
    ensures IdsOk(SetState(t, id, state))
  {
    if id in t.hosts {
      assert SetState(t, id, state).hosts.Keys == t.hosts.Keys;
    }
  }

  lemma MarkDeadKeeps(t: Table, id: nat)
    requires Inv(t)
    ensures Inv(MarkDead(t, id))
  {
    SetStateIds(t, id, Dead);
  }

  lemma MarkAliveKeeps(t: Table, id: nat)
    requires Inv(t)
    ensures Inv(MarkAlive(t, id))
  {
    SetStateIds(t, id, Alive);
    WithoutFacts(t.dead, id);
  }

  lemma AddKeeps(t: Table, ip: string, r: Table, id: nat)
    requires Inv(t) && Adds(t, ip, r, id)
    ensures Inv(r)
  {
    if exists k :: HasIp(t.hosts, k, ip) {
      MarkAliveKeeps(t, id);
    } else {
      assert |r.hosts| == |t.hosts| + 1;
    }
  }

  /** Reloading the hostfile forgets the states but not the list of dead nodes. */
  lemma LoadKeepsIff(t: Table, ips: seq<string>, readable: bool)
    requires Inv(t)
    ensures Inv(Load(t, ips, readable)) <==> t.dead == []
  {
    LoadedFacts(ips);
    var r := Load(t, ips, readable);
    if t.dead != [] {
      assert t.dead[0] in r.dead;
    }
  }

  /** SetNodeState keeps the dead list right exactly when it does not cross into or out of
      the dead state. */
  lemma SetStateKeepsIff(t: Table, id: nat, state: NodeState)
    requires Inv(t)
    ensures Inv(SetState(t, id, state)) <==>
            id !in t.hosts || (state == Dead <==> t.hosts[id].state == Dead)
  {
    SetStateIds(t, id, state);
    var r := SetState(t, id, state);
    assert id in t.hosts ==> id in r.hosts && r.hosts[id].state == state;
  }

  lemma StepKeepsIff(t: Table, e: Event)
    requires Inv(t) && Can(t, e)
    ensures Inv(Do(t, e)) <==> Proper(t, e)
  {
    match e
    case LoadHosts(ips, readable) => LoadKeepsIff(t, ips, readable);
    case Add(ip, id, r) => AddKeeps(t, ip, r, id);
    case Die(id) => MarkDeadKeeps(t, id);
    case Revive(id) => MarkAliveKeeps(t, id);
    case Move(id, state) => SetStateKeepsIff(t, id, state);
    case Cache(list) =>
  }

  ghost predicate IsRun(t: Table, run: seq<Event>)
    decreases |run|
  {
    run == [] || (Can(t, run[0]) && Proper(t, run[0]) && IsRun(Do(t, run[0]), run[1..]))
  }

  ghost function After(t: Table, run: seq<Event>): Table
    requires IsRun(t, run)
    decreases |run|
  {
    if run == [] then t else After(Do(t, run[0]), run[1..])
  }

  lemma {:induction false} RunKeeps(t: Table, run: seq<Event>)
    requires Inv(t) && IsRun(t, run)
    ensures Inv(After(t, run))
    decreases |run|
  {
    hide Inv, Do, Can;
    if run != [] {
      StepKeepsIff(t, run[0]);
      RunKeeps(Do(t, run[0]), run[1..]);
    }
  }

  /** On every proper run: ids are 0 to n - 1, the dead list is exactly the dead nodes, a
      valid cache is the table, and the leader is the least alive id. */
  lemma MembershipHolds(run: seq<Event>, leader: nat)
    requires IsRun(Empty, run) && IsLeader(After(Empty, run).hosts, leader)
    ensures var t := After(Empty, run);
            && (forall k :: k in t.hosts <==> 0 <= k < |t.hosts|)
            && (forall k :: k in t.dead <==> k in t.hosts && t.hosts[k].state == Dead)
            && (forall i, j :: 0 <= i < j < |t.dead| ==> t.dead[i] != t.dead[j])
            && (t.cached ==> IsListing(t.cache, t.hosts) && |t.cache| == |t.hosts|)
            && (if exists k :: k in t.hosts && t.hosts[k].state == Alive
                then leader in t.hosts && t.hosts[leader].state == Alive
                     && forall k :: k in t.hosts && t.hosts[k].state == Alive ==> leader <= k
                else leader == 0)
  {
    RunKeeps(Empty, run);
    var t := After(Empty, run);
    if t.cached {
      ListingLength(t.cache, t.hosts);
    }
  }

  // ----- what the operations leave behind -----

  /** The last event decides a node's state, and each says so in its own way. */
  function LastState(run: seq<Event>, k: nat): NodeState {
    if run == [] then Alive
    else
      match run[|run| - 1]
      case Die(id) => if id == k then Dead else LastState(run[..|run| - 1], k)
      case Revive(id) => if id == k then Alive else LastState(run[..|run| - 1], k)
      case Move(id, state) => if id == k then state else LastState(run[..|run| - 1], k)
      case Add(_, id, _) => if id == k then Alive else LastState(run[..|run| - 1], k)
      case LoadHosts(_, _) => Alive
      case Cache(_) => LastState(run[..|run| - 1], k)
  }

  function LastIp(run: seq<Event>, k: nat): string {
    if run == [] then ""
    else
      match run[|run| - 1]
      case Add(ip, id, _) => if id == k then ip else LastIp(run[..|run| - 1], k)
      case LoadHosts(ips, _) => if k < |ips| then ips[k] else ""
      case _ => LastIp(run[..|run| - 1], k)
  }

  lemma {:induction false} SplitLast(t: Table, run: seq<Event>)
    requires IsRun(t, run) && run != []
    ensures var front := run[..|run| - 1];
            && IsRun(t, front) && Can(After(t, front), run[|run| - 1])
            && After(t, run) == Do(After(t, front), run[|run| - 1])
    decreases |run|
  {
    hide Can, Do;
    if |run| > 1 {
      SplitLast(Do(t, run[0]), run[1..]);
      assert run[1..][..|run| - 2] == run[..|run| - 1][1..];
    } else {
      assert run[..0] == [] && run[1..] == [];
    }
  }

  /** What one event makes of node `k`. */
  lemma StepDecides(t: Table, e: Event, k: nat)
    requires Inv(t) && Can(t, e) && k in Do(t, e).hosts
    ensures var h := Do(t, e).hosts[k];
            match e
            case Die(id) => k in t.hosts && h == if id == k then Host(t.hosts[k].ip, k, Dead) else t.hosts[k]
            case Revive(id) => k in t.hosts && h == if id == k then Host(t.hosts[k].ip, k, Alive) else t.hosts[k]
            case Move(id, state) => k in t.hosts && h == if id == k then Host(t.hosts[k].ip, k, state) else t.hosts[k]
            case Add(ip, id, _) => if id == k then h == Host(ip, k, Alive) else k in t.hosts && h == t.hosts[k]
            case LoadHosts(ips, _) => k < |ips| && h == Host(ips[k], k, Alive)
            case Cache(_) => k in t.hosts && h == t.hosts[k]
  {
    hide DeadOk, CacheOk;
  }

  /** Each node is in the state in which the last event that named it put it, under the
      address it was listed or added with. */
  lemma {:induction false} LastEventDecides(run: seq<Event>, k: nat)
    requires IsRun(Empty, run) && k in After(Empty, run).hosts
    ensures After(Empty, run).hosts[k] == Host(LastIp(run, k), k, LastState(run, k))
    decreases |run|
  {
    hide Inv, Can, Do;
    if run != [] {
      var front, e := run[..|run| - 1], run[|run| - 1];
      SplitLast(Empty, run);
      EmptyInv();
      RunKeeps(Empty, front);
      StepDecides(After(Empty, front), e, k);
      if k in After(Empty, front).hosts {
        LastEventDecides(front, k);
      }
    }
  }

  lemma EmptyInv()
    ensures Inv(Empty)
  {}

  /** The files list no address twice. */
  ghost predicate NoRepeats(run: seq<Event>) {
    forall i :: 0 <= i < |run| && run[i].LoadHosts? ==> forall a, b :: 0 <= a < b < |run[i].ips| ==> run[i].ips[a] != run[i].ips[b]
  }

  ghost predicate UniqueIps(hosts: map<nat, Host>) {
    forall i, j :: i in hosts && j in hosts && hosts[i].ip == hosts[j].ip ==> i == j
  }

  ghost predicate SameIps(hosts: map<nat, Host>, hosts': map<nat, Host>) {
    hosts'.Keys == hosts.Keys && forall i :: i in hosts ==> hosts'[i].ip == hosts[i].ip
  }

  lemma AddUnique(t: Table, ip: string, r: Table, id: nat)
    requires UniqueIps(t.hosts) && Adds(t, ip, r, id)
    ensures UniqueIps(r.hosts)
  {
    if exists k :: HasIp(t.hosts, k, ip) {
      assert SameIps(t.hosts, r.hosts);
    } else {
      forall k | k in t.hosts ensures t.hosts[k].ip != ip {
        assert !HasIp(t.hosts, k, ip);
      }
    }
  }

  lemma StepUnique(t: Table, e: Event)
    requires Can(t, e) && UniqueIps(t.hosts)
    requires e.LoadHosts? ==> forall a, b :: 0 <= a < b < |e.ips| ==> e.ips[a] != e.ips[b]
    ensures UniqueIps(Do(t, e).hosts)
  {
    match e
    case LoadHosts(ips, readable) =>
    case Add(ip, id, r) => AddUnique(t, ip, r, id);
    case Die(_) => assert SameIps(t.hosts, Do(t, e).hosts);
    case Revive(_) => assert SameIps(t.hosts, Do(t, e).hosts);
    case Move(_, _) => assert SameIps(t.hosts, Do(t, e).hosts);
    case Cache(_) =>
  }

  /** Then no two nodes have the same address, however often nodes are added. */
  lemma {:induction false} AddressesUnique(t: Table, run: seq<Event>)
    requires IsRun(t, run) && NoRepeats(run) && UniqueIps(t.hosts)
    ensures forall i, j :: i in After(t, run).hosts && j in After(t, run).hosts && After(t, run).hosts[i].ip == After(t, run).hosts[j].ip ==> i == j
    decreases |run|
  {
    hide Can, Do;
    if run != [] {
      assert run[0] == run[..][0];
      StepUnique(t, run[0]);
      forall i | 0 <= i < |run[1..]| ensures run[1..][i] == run[i + 1] {}
      AddressesUnique(Do(t, run[0]), run[1..]);
    }
  }

  function Ids(list: seq<Host>): set<nat> { if list == [] then {} else Ids(list[1..]) + {list[0].id} }

  lemma {:induction false} IdsFacts(list: seq<Host>)
    ensures forall k :: k in Ids(list) <==> exists i :: 0 <= i < |list| && list[i].id == k
    ensures (forall i, j :: 0 <= i < j < |list| ==> list[i].id != list[j].id) ==> |Ids(list)| == |list|
  {
    if list != [] {
      var rest := list[1..];
      IdsFacts(rest);
      forall k ensures k in Ids(list) <==> exists i :: 0 <= i < |list| && list[i].id == k {
        if i :| 0 <= i < |list| && list[i].id == k {
          assert i == 0 || rest[i - 1].id == k;
        }
        if k in Ids(rest) {
          var j :| 0 <= j < |rest| && rest[j].id == k;
          assert list[j + 1].id == k;
        }
      }
      if forall i, j :: 0 <= i < j < |list| ==> list[i].id != list[j].id {
        forall i, j | 0 <= i < j < |rest| ensures rest[i].id != rest[j].id { assert list[i + 1].id != list[j + 1].id; }
        forall i | 0 <= i < |rest| ensures rest[i].id != list[0].id { assert list[0].id != list[i + 1].id; }
      }
    }
  }

  lemma ListingLength(list: seq<Host>, hosts: map<nat, Host>)
    requires IsListing(list, hosts) && forall k :: k in hosts ==> hosts[k].id == k
    ensures |list| == |hosts|
  {
    IdsFacts(list);
    forall k ensures k in Ids(list) <==> k in hosts.Keys {
      if k in hosts {
        assert hosts[k] in list;
        var i :| 0 <= i < |list| && list[i] == hosts[k];
        assert list[i].id == k;
      }
      if k in Ids(list) {
        var i :| 0 <= i < |list| && list[i].id == k;
        assert list[i] in list;
      }
    }
    assert Ids(list) == hosts.Keys;
  }
}
