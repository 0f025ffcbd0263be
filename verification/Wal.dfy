/** The write-ahead log of container migrations: one append-only file of 28-byte records
    per pool and node, replayed over the initial address tables at start-up. */
module Wal {
  import opened PoolQueries
  import opened PoolRegistry

  const U64: int := 0x1_0000_0000_0000_0000

  type u64 = n: int | 0 <= n < U64
  type byte = n: int | 0 <= n < 256

  const RECORD: nat := 28

  datatype Record = Record(timestamp: u64, pool: PoolId, container: u32, oldNode: u32, newNode: u32)

  type Tables = map<PoolId, map<u32, u32>>   // address_map_ of every known pool

  // ----- little-endian fields -----

  function Power256(w: nat): nat { if w == 0 then 1 else 256 * Power256(w - 1) }

  function Put(n: nat, w: nat): (bytes: seq<byte>)
    ensures |bytes| == w
  {
    if w == 0 then [] else [n % 256] + Put(n / 256, w - 1)
  }

  function Get(bytes: seq<byte>): (n: nat)
    ensures n < Power256(|bytes|)
  {
    if bytes == [] then 0 else bytes[0] + 256 * Get(bytes[1..])
  }

  lemma {:induction false} FieldRoundTrip(n: nat, w: nat)
    requires n < Power256(w)
    ensures Get(Put(n, w)) == n
  {
    if w > 0 {
      FieldRoundTrip(n / 256, w - 1);
      assert Put(n, w)[1..] == Put(n / 256, w - 1);
    }
  }

  lemma Widths()
    ensures Power256(4) == U32 && Power256(8) == U64
  {
    assert Power256(2) == 65536;
    assert Power256(4) == 256 * 256 * Power256(2);
    assert Power256(6) == 256 * 256 * Power256(4);
    assert Power256(8) == 256 * 256 * Power256(6);
  }

  function Field32(bytes: seq<byte>): u32
    requires |bytes| == 4
  {
    Widths();
    Get(bytes)
  }

  function Field64(bytes: seq<byte>): u64
    requires |bytes| == 8
  {
    Widths();
    Get(bytes)
  }

  function Encode(r: Record): (bytes: seq<byte>)
    ensures |bytes| == RECORD
  {
    Put(r.timestamp, 8) + Put(r.pool.major, 4) + Put(r.pool.minor, 4)
    + Put(r.container, 4) + Put(r.oldNode, 4) + Put(r.newNode, 4)
  }

  function Decode(bytes: seq<byte>): Record
    requires |bytes| == RECORD
  {
    Record(Field64(bytes[..8]), PoolId(Field32(bytes[8..12]), Field32(bytes[12..16])),
           Field32(bytes[16..20]), Field32(bytes[20..24]), Field32(bytes[24..28]))
  }

  lemma RecordRoundTrip(r: Record)
    ensures Decode(Encode(r)) == r
  {
    Widths();
    var e := Encode(r);
    assert e[..8] == Put(r.timestamp, 8) && e[8..12] == Put(r.pool.major, 4) && e[12..16] == Put(r.pool.minor, 4);
    assert e[16..20] == Put(r.container, 4) && e[20..24] == Put(r.oldNode, 4);
    assert |e| == RECORD && |Put(r.newNode, 4)| == 4;
    assert e[24..] == Put(r.newNode, 4);
    assert e[24..28] == e[24..];
    FieldRoundTrip(r.timestamp, 8);
    FieldRoundTrip(r.pool.major, 4);
    FieldRoundTrip(r.pool.minor, 4);
    FieldRoundTrip(r.container, 4);
    FieldRoundTrip(r.oldNode, 4);
    FieldRoundTrip(r.newNode, 4);
  }

  lemma {:induction false} PutByte(n: nat, w: nat, i: nat)
    requires i < w
    ensures Power256(i) > 0 && Put(n, w)[i] == n / Power256(i) % 256
  {
    if i > 0 {
      PutByte(n / 256, w - 1, i - 1);
      DivideTwice(n, 256, Power256(i - 1));
    }
  }

  lemma DivideTwice(n: nat, a: nat, b: nat)
    requires a > 0 && b > 0
    ensures a * b > 0 && n / a / b == n / (a * b)
  {
    var q, r := n / a, n % a;
    var p, s := q / b, q % b;
    Parts(n, a);
    Parts(q, b);
    MulLess(a, s, b, r);
    Nested(a, b, p, s, r);
    QuotientIs(n, a * b, p, a * s + r);
  }

  lemma Parts(n: nat, a: nat)
    requires a > 0
    ensures n == a * (n / a) + n % a && 0 <= n % a < a
  {}

  lemma Nested(a: nat, b: nat, p: nat, s: nat, r: nat)
    ensures a * (b * p + s) + r == (a * b) * p + (a * s + r)
  {
    Regroup(a, b, p, s);
  }

  lemma Regroup(a: nat, b: nat, p: nat, s: nat)
    ensures a * (b * p + s) == (a * b) * p + a * s
  {
    assert a * (b * p) == (a * b) * p;
  }

  lemma MulLess(a: nat, s: nat, b: nat, r: nat)
    requires s < b && r < a
    ensures 0 <= a * s + r < a * b && a * b > 0
  {
    Monotone(a, s + 1, b);
    assert a * (s + 1) == a * s + a;
  }

  lemma QuotientIs(n: nat, d: nat, p: nat, r: nat)
    requires d > 0 && n == d * p + r && r < d
    ensures n / d == p
  {
    var q := n / d;
    assert n == d * q + n % d;
    if q < p {
      Monotone(d, q + 1, p);
    } else if q > p {
      Monotone(d, p + 1, q);
    }
  }

  lemma Monotone(d: nat, x: nat, y: nat)
    requires x <= y
    ensures d * x <= d * y
  {}

  /** The layout of a record: time stamp, pool id, container, old node, new node, each with
      its lowest byte first. */
  lemma Layout(r: Record, i: nat)
    requires i < 28
    ensures |Encode(r)| == 28
    ensures var (n, at) := if i < 8 then (r.timestamp, 0) else if i < 12 then (r.pool.major, 8)
                           else if i < 16 then (r.pool.minor, 12) else if i < 20 then (r.container, 16)
                           else if i < 24 then (r.oldNode, 20) else (r.newNode, 24);
            Power256(i - at) > 0 && Encode(r)[i] == n / Power256(i - at) % 256
  {
    if i < 8 {
      PutByte(r.timestamp, 8, i);
    } else if i < 12 {
      PutByte(r.pool.major, 4, i - 8);
    } else if i < 16 {
      PutByte(r.pool.minor, 4, i - 12);
    } else if i < 20 {
      PutByte(r.container, 4, i - 16);
    } else if i < 24 {
      PutByte(r.oldNode, 4, i - 20);
    } else {
      PutByte(r.newNode, 4, i - 24);
    }
  }

  function EncodeAll(records: seq<Record>): (bytes: seq<byte>)
    ensures |bytes| == RECORD * |records|
  {
    if records == [] then [] else Encode(records[0]) + EncodeAll(records[1..])
  }

  /** The complete records of a file; a torn tail is not one. */
  function Records(bytes: seq<byte>): (records: seq<Record>)
    ensures |records| == |bytes| / RECORD
    decreases |bytes|
  {
    if |bytes| < RECORD then [] else [Decode(bytes[..RECORD])] + Records(bytes[RECORD..])
  }

  // ----- applying -----

  function Mapped(m: map<u32, u32>, c: u32, n: u32): map<u32, u32> { m[c := n] }

  /** UpdateContainerNodeMapping: a record for an unknown pool changes nothing. */
  function Apply(t: Tables, r: Record): Tables {
    if r.pool in t then t[r.pool := Mapped(t[r.pool], r.container, r.newNode)] else t
  }

  function ApplyAll(t: Tables, records: seq<Record>): Tables
    decreases |records|
  {
    if records == [] then t else ApplyAll(Apply(t, records[0]), records[1..])
  }

  datatype FileName = FileName(pool: PoolId, node: u32)

  type Dir = map<FileName, seq<byte>>

  ghost function ReplayDir(t: Tables, dir: Dir, order: seq<FileName>): Tables
    requires forall f :: f in order ==> f in dir
    decreases |order|
  {
    if order == [] then t else ReplayDir(ApplyAll(t, Records(dir[order[0]])), dir, order[1..])
  }

  /** Complete records in all files. */
  function Entries(dir: Dir, order: seq<FileName>): nat
    requires forall f :: f in order ==> f in dir
    decreases |order|
  {
    if order == [] then 0 else |dir[order[0]]| / RECORD + Entries(dir, order[1..])
  }

  /** WriteAddressTableWAL on node `node`. */
  function Append(dir: Dir, node: u32, r: Record): Dir {
    var f := FileName(r.pool, node);
    dir[f := (if f in dir then dir[f] else []) + Encode(r)]
  }

  /** ChangeAddressTable: the record is logged before the table changes, and even if the pool
      is unknown and nothing changes. */
  function Change(timestamp: u64, t: Tables, pool: PoolId, container: u32, newNode: u32): Record {
    Record(timestamp, pool, container, NodeOf(t, pool, container), newNode)
  }

  /** GetContainerNodeId: 0 when nothing is known. */
  function NodeOf(t: Tables, pool: PoolId, container: u32): u32 {
    if pool in t && container in t[pool] then t[pool][container] else 0
  }

  class AddressTables {
    var tables: Tables
    var dir: Dir          // the log directory
    const node: u32

    constructor (tables: Tables, dir: Dir, node: u32)
      ensures this.tables == tables && this.dir == dir && this.node == node
    {
      this.tables, this.dir, this.node := tables, dir, node;
    }

    method WriteAddressTableWAL(r: Record)
      modifies this`dir
      ensures dir == Append(old(dir), node, r)
    {
      var f := FileName(r.pool, node);
      var bytes := Encode(r);
      dir := dir[f := (if f in dir then dir[f] else []) + bytes];
    }

    method ChangeAddressTable(timestamp: u64, pool: PoolId, container: u32, newNode: u32) returns (ok: bool)
      modifies this
      ensures ok == (pool in old(tables))
      ensures var r := Change(timestamp, old(tables), pool, container, newNode);
              dir == Append(old(dir), node, r) && tables == Apply(old(tables), r)
    {
      var old' := NodeOf(tables, pool, container);
      var r := Record(timestamp, pool, container, old', newNode);
      WriteAddressTableWAL(r);
      ok := UpdateContainerNodeMapping(pool, container, newNode);
    }

    /** Replay every file, in the order the directory lists them. */
    method ReplayAddressTableWAL(order: seq<FileName>) returns (entries: nat)
      requires forall f :: f in order ==> f in dir
      modifies this`tables
      ensures tables == ReplayDir(old(tables), dir, order)
      ensures entries == Entries(dir, order)
    {
      entries := 0;
      var i := 0;
      while i < |order|
        invariant i <= |order|
        invariant Entries(dir, order) == entries + Entries(dir, order[i..])
        invariant ReplayDir(old(tables), dir, order) == ReplayDir(tables, dir, order[i..])
      {
        assert order[i..][0] == order[i] && order[i..][1..] == order[i + 1..];
        var n := ReplayFile(dir[order[i]]);
        entries := entries + n;
        i := i + 1;
      }
    }

    method UpdateContainerNodeMapping(pool: PoolId, container: u32, newNode: u32) returns (ok: bool)
      modifies this`tables
      ensures ok == (pool in old(tables))
      ensures forall r: Record :: r.pool == pool && r.container == container && r.newNode == newNode ==> tables == Apply(old(tables), r)
    {
      if pool !in tables {
        return false;
      }
      tables := tables[pool := Mapped(tables[pool], container, newNode)];
      ok := true;
    }

    /** The replay loop over one file.  Reading past the end takes what is left and sets
        the fail bit, and once it is set nothing is read any more. */
    method ReplayFile(data: seq<byte>) returns (entries: nat)
      modifies this`tables
      ensures tables == ApplyAll(old(tables), Records(data))
      ensures entries == |data| / RECORD
    {
      var pos, fail := 0, false;
      entries := 0;
      while !fail
        invariant 0 <= pos <= |data|
        invariant !fail ==> pos == RECORD * entries
        invariant ApplyAll(old(tables), Records(data)) == if fail then tables else ApplyAll(tables, Records(data[pos..]))
        invariant entries + (if fail then 0 else |Records(data[pos..])|) == |Records(data)|
        decreases !fail, |data| - pos
      {
        ghost var start := pos;
        var r;
        r, pos, fail := ReadRecord(data, pos);
        if fail {
          break;
        }
        assert data[start..][..RECORD] == data[start..pos] && data[start..][RECORD..] == data[pos..];
        var ok := UpdateContainerNodeMapping(r.pool, r.container, r.newNode);
        entries := entries + 1;
      }
    }
  }

  /** The six reads of one record. */
  method ReadRecord(data: seq<byte>, pos: nat) returns (r: Record, after: nat, fail: bool)
    requires pos <= |data|
    ensures pos <= after <= |data|
    ensures fail == (|data| - pos < RECORD)
    ensures !fail ==> after == pos + RECORD && r == Decode(data[pos..after])
  {
    var timestamp, major, minor, container, oldNode, newNode;
    timestamp, after, fail := Read(data, pos, false, 8);
    major, after, fail := Read(data, after, fail, 4);
    minor, after, fail := Read(data, after, fail, 4);
    container, after, fail := Read(data, after, fail, 4);
    oldNode, after, fail := Read(data, after, fail, 4);
    newNode, after, fail := Read(data, after, fail, 4);
    if fail {
      r := Record(0, NULL_POOL, 0, 0, 0);
    } else {
      r := Record(Field64(timestamp), PoolId(Field32(major), Field32(minor)),
                  Field32(container), Field32(oldNode), Field32(newNode));
      ghost var all := data[pos..after];
      Slice(data, pos, after, 0, 8);
      Slice(data, pos, after, 8, 12);
      Slice(data, pos, after, 12, 16);
      Slice(data, pos, after, 16, 20);
      Slice(data, pos, after, 20, 24);
      Slice(data, pos, after, 24, 28);
      assert all[..8] == all[0..8];
    }
  }

  lemma Slice(data: seq<byte>, start: nat, end: nat, a: nat, b: nat)
    requires start <= end <= |data| && a <= b <= end - start
    ensures data[start..end][a..b] == data[start + a..start + b]
  {
    var x, y := data[start..end][a..b], data[start + a..start + b];
    assert |x| == |y| && forall i :: 0 <= i < |x| ==> x[i] == y[i];
  }

  /** ifstream::read of `n` bytes; the bytes are meaningful only if it does not fail. */
  method Read(data: seq<byte>, pos: nat, failed: bool, n: nat) returns (bytes: seq<byte>, after: nat, fail: bool)
    requires pos <= |data|
    ensures pos <= after <= |data|
    ensures fail == (failed || |data| - pos < n)
    ensures !fail ==> bytes == data[pos..pos + n] && after == pos + n
  {
    bytes, after, fail := [], pos, failed;
    if !failed {
      if |data| - pos < n {
        bytes, after, fail := data[pos..], |data|, true;
      } else {
        bytes, after := data[pos..pos + n], pos + n;
      }
    }
  }

  // ----- a log cut at any byte -----

  lemma {:induction false} CutLog(records: seq<Record>, n: nat)
    requires n <= |EncodeAll(records)|
    ensures Records(EncodeAll(records)[..n]) == records[..n / RECORD]
    decreases |records|
  {
    hide Encode, Decode;
    if n >= RECORD {
      var all, rest := EncodeAll(records), EncodeAll(records[1..]);
      assert all[..n][..RECORD] == Encode(records[0]);
      assert all[..n][RECORD..] == rest[..n - RECORD];
      RecordRoundTrip(records[0]);
      CutLog(records[1..], n - RECORD);
      assert n / RECORD == (n - RECORD) / RECORD + 1;
    }
  }

  /** What the log of any records cut at any byte restores: the complete records. */
  lemma TornReplay(t: Tables, records: seq<Record>, n: nat)
    requires n <= |EncodeAll(records)|
    ensures ApplyAll(t, Records(EncodeAll(records)[..n])) == ApplyAll(t, records[..n / RECORD])
    ensures n == |EncodeAll(records)| ==> Records(EncodeAll(records)[..n]) == records
  {
    CutLog(records, n);
    assert n == |EncodeAll(records)| ==> n / RECORD == |records|;
  }

  // ----- the last record wins -----

  ghost function LastWrite(records: seq<Record>, pool: PoolId, c: u32): Option<u32> {
    if records == [] then None
    else
      var last := records[|records| - 1];
      if last.pool == pool && last.container == c then Some(last.newNode)
      else LastWrite(records[..|records| - 1], pool, c)
  }

  lemma {:induction false} ApplyLast(t: Tables, records: seq<Record>, r: Record)
    ensures ApplyAll(t, records + [r]) == Apply(ApplyAll(t, records), r)
    decreases |records|
  {
    if records == [] {
      assert [r][1..] == [];
    } else {
      assert (records + [r])[1..] == records[1..] + [r];
      ApplyLast(Apply(t, records[0]), records[1..], r);
    }
  }

  /** Replaying leaves the pools alone and sets each container to its last record. */
  lemma {:induction false} ReplayMeans(t: Tables, records: seq<Record>, pool: PoolId)
    ensures ApplyAll(t, records).Keys == t.Keys
    ensures pool in t ==> forall c ::
              && (c in ApplyAll(t, records)[pool] <==> c in t[pool] || LastWrite(records, pool, c).Some?)
              && (c in ApplyAll(t, records)[pool] ==>
                    ApplyAll(t, records)[pool][c] ==
                    if LastWrite(records, pool, c).Some? then LastWrite(records, pool, c).value else t[pool][c])
    decreases |records|
  {
    if records != [] {
      var k := |records| - 1;
      assert records == records[..k] + [records[k]];
      ReplayMeans(t, records[..k], pool);
      ApplyLast(t, records[..k], records[k]);
    }
  }

  /** Replaying the log over tables that already hold its effect changes nothing. */
  lemma ReplayIdempotent(t: Tables, records: seq<Record>)
    ensures ApplyAll(ApplyAll(t, records), records) == ApplyAll(t, records)
  {
    var once := ApplyAll(t, records);
    var twice := ApplyAll(once, records);
    forall p | p in t ensures p in once && p in twice && once[p] == twice[p] {
      ReplayMeans(t, records, p);
      ReplayMeans(once, records, p);
    }
    ReplayMeans(t, records, NULL_POOL);
    ReplayMeans(once, records, NULL_POOL);
  }

  // ----- the directory -----

  /** Every file holds records of the pool in its name. */
  ghost predicate OwnRecords(dir: Dir) {
    forall f, i :: f in dir && 0 <= i < |Records(dir[f])| ==> Records(dir[f])[i].pool == f.pool
  }

  ghost predicate OneFilePerPool(dir: Dir) {
    forall f, g :: f in dir && g in dir && f.pool == g.pool ==> f == g
  }

  /** directory_iterator gives the files in some order. */
  ghost predicate Lists(order: seq<FileName>, dir: Dir) {
    && (forall i, j :: 0 <= i < j < |order| ==> order[i] != order[j])
    && (forall f :: f in order <==> f in dir)
  }

  lemma {:induction false} OtherPools(t: Tables, records: seq<Record>, pool: PoolId)
    requires forall i :: 0 <= i < |records| ==> records[i].pool != pool
    ensures pool in t <==> pool in ApplyAll(t, records)
    ensures pool in t ==> ApplyAll(t, records)[pool] == t[pool]
    decreases |records|
  {
    if records != [] {
      OtherPools(Apply(t, records[0]), records[1..], pool);
    }
  }

  /** A pool's records depend only on that pool's part of the tables. */
  lemma {:induction false} OnlyOwnPool(t: Tables, u: Tables, records: seq<Record>, pool: PoolId)
    requires pool in t && pool in u && t[pool] == u[pool]
    ensures pool in ApplyAll(t, records) && pool in ApplyAll(u, records)
    ensures ApplyAll(t, records)[pool] == ApplyAll(u, records)[pool]
    decreases |records|
  {
    if records != [] {
      OnlyOwnPool(Apply(t, records[0]), Apply(u, records[0]), records[1..], pool);
    }
  }

  /** The file of `pool` among `order`, if any, decides the pool's table alone. */
  lemma {:induction false} FromItsFile(t: Tables, dir: Dir, order: seq<FileName>, pool: PoolId)
    requires OwnRecords(dir) && OneFilePerPool(dir)
    requires forall i, j :: 0 <= i < j < |order| ==> order[i] != order[j]
    requires forall f :: f in order ==> f in dir
    requires pool in t
    ensures var r := ReplayDir(t, dir, order);
            && pool in r
            && (forall f :: f in order && f.pool == pool ==> pool in ApplyAll(t, Records(dir[f])) && r[pool] == ApplyAll(t, Records(dir[f]))[pool])
            && ((forall f :: f in order ==> f.pool != pool) ==> r[pool] == t[pool])
    decreases |order|
  {
    if order != [] {
      var f, rest := order[0], order[1..];
      var t1 := ApplyAll(t, Records(dir[f]));
      assert forall g :: g in rest ==> g in order;
      if f.pool == pool {
        OnlyOwnPool(t, t, Records(dir[f]), pool);
        assert forall g :: g in rest && g.pool == pool ==> g == f;
        FromItsFile(t1, dir, rest, pool);
      } else {
        OtherPools(t, Records(dir[f]), pool);
        FromItsFile(t1, dir, rest, pool);
        forall g | g in order && g.pool == pool
          ensures pool in ApplyAll(t, Records(dir[g])) && ReplayDir(t, dir, order)[pool] == ApplyAll(t, Records(dir[g]))[pool]
        {
          assert g in rest;
          OnlyOwnPool(t, t1, Records(dir[g]), pool);
        }
      }
    }
  }

  lemma {:induction false} ReplayDirKeys(t: Tables, dir: Dir, order: seq<FileName>)
    requires forall f :: f in order ==> f in dir
    ensures ReplayDir(t, dir, order).Keys == t.Keys
    decreases |order|
  {
    if order != [] {
      ReplayMeans(t, Records(dir[order[0]]), NULL_POOL);
      ReplayDirKeys(ApplyAll(t, Records(dir[order[0]])), dir, order[1..]);
    }
  }

  /** The order in which the files are replayed does not matter. */
  lemma FileOrderIrrelevant(t: Tables, dir: Dir, order: seq<FileName>, order': seq<FileName>)
    requires OwnRecords(dir) && OneFilePerPool(dir)
    requires Lists(order, dir) && Lists(order', dir)
    ensures ReplayDir(t, dir, order) == ReplayDir(t, dir, order')
  {
    ReplayDirKeys(t, dir, order);
    ReplayDirKeys(t, dir, order');
    forall p | p in t ensures ReplayDir(t, dir, order)[p] == ReplayDir(t, dir, order')[p] {
      FromItsFile(t, dir, order, p);
      FromItsFile(t, dir, order', p);
      if f :| f in dir && f.pool == p {
        assert f in order && f in order';
      }
    }
  }

  // ----- writing, crashing and recovering -----

  /** ChangeAddressTable for each record in turn: log it, then update the table. */
  ghost function LogAll(dir: Dir, node: u32, records: seq<Record>): Dir
    decreases |records|
  {
    if records == [] then dir else LogAll(Append(dir, node, records[0]), node, records[1..])
  }

  ghost function Of(records: seq<Record>, pool: PoolId): seq<Record> {
    if records == [] then []
    else (if records[0].pool == pool then [records[0]] else []) + Of(records[1..], pool)
  }

  /** Each pool's file is the encoding of that pool's records in order. */
  ghost predicate Logged(dir: Dir, node: u32, records: seq<Record>) {
    && (forall f :: f in dir ==> f.node == node && dir[f] == EncodeAll(Of(records, f.pool)))
    && (forall i :: 0 <= i < |records| ==> FileName(records[i].pool, node) in dir)
  }

  lemma {:induction false} EncodeAllLast(records: seq<Record>, r: Record)
    ensures EncodeAll(records + [r]) == EncodeAll(records) + Encode(r)
  {
    if records == [] {
      assert EncodeAll([r]) == Encode(r) + [];
    } else {
      assert (records + [r])[1..] == records[1..] + [r];
      EncodeAllLast(records[1..], r);
    }
  }

  lemma {:induction false} OfLast(records: seq<Record>, r: Record, pool: PoolId)
    ensures Of(records + [r], pool) == Of(records, pool) + if r.pool == pool then [r] else []
  {
    if records != [] {
      assert (records + [r])[1..] == records[1..] + [r];
      OfLast(records[1..], r, pool);
    }
  }

  lemma {:induction false} OfNone(records: seq<Record>, pool: PoolId)
    requires forall i :: 0 <= i < |records| ==> records[i].pool != pool
    ensures Of(records, pool) == []
  {
    if records != [] {
      OfNone(records[1..], pool);
    }
  }

  lemma AppendOne(dir: Dir, node: u32, before: seq<Record>, r: Record, f: FileName)
    requires Logged(dir, node, before) && f in Append(dir, node, r)
    ensures f.node == node && Append(dir, node, r)[f] == EncodeAll(Of(before + [r], f.pool))
  {
    hide EncodeAll, Encode, Of;
    OfLast(before, r, f.pool);
    if f.pool == r.pool {
      EncodeAllLast(Of(before, f.pool), r);
      if f !in dir {
        forall i | 0 <= i < |before| ensures before[i].pool != f.pool {
          assert FileName(before[i].pool, node) in dir;
        }
        OfNone(before, f.pool);
        EncodesNothing();
      }
    } else {
      assert f in dir && Of(before, f.pool) + [] == Of(before, f.pool);
    }
  }

  lemma EncodesNothing()
    ensures EncodeAll([]) == []
  {}

  lemma AppendLogs(dir: Dir, node: u32, before: seq<Record>, r: Record)
    requires Logged(dir, node, before)
    ensures Logged(Append(dir, node, r), node, before + [r])
  {
    hide EncodeAll, Encode, Of;
    var dir' := Append(dir, node, r);
    forall f | f in dir' ensures f.node == node && dir'[f] == EncodeAll(Of(before + [r], f.pool)) {
      AppendOne(dir, node, before, r, f);
    }
    forall i | 0 <= i < |before + [r]| ensures FileName((before + [r])[i].pool, node) in dir' {
      if i < |before| { assert FileName(before[i].pool, node) in dir; }
    }
  }

  lemma {:induction false} LogAllLogs(dir: Dir, node: u32, before: seq<Record>, records: seq<Record>)
    requires Logged(dir, node, before)
    ensures Logged(LogAll(dir, node, records), node, before + records)
    decreases |records|
  {
    hide Logged, Append;
    if records == [] {
      assert before + [] == before;
    } else {
      AppendLogs(dir, node, before, records[0]);
      LogAllLogs(Append(dir, node, records[0]), node, before + [records[0]], records[1..]);
      assert before + [records[0]] + records[1..] == before + records;
    }
  }

  /** A migration as its caller asks for it. */
  datatype Request = Request(timestamp: u64, pool: PoolId, container: u32, newNode: u32)

  /** What ChangeAddressTable logs for one after the other. */
  ghost function LogOf(t: Tables, requests: seq<Request>): (log: seq<Record>)
    ensures |log| == |requests|
    decreases |requests|
  {
    if requests == [] then []
    else
      var q := requests[0];
      var r := Change(q.timestamp, t, q.pool, q.container, q.newNode);
      [r] + LogOf(Apply(t, r), requests[1..])
  }

  /** The log says what was asked for, and its old nodes are where the containers were: on the
      node of the last record before, at first on that of the table, and nowhere (0) in a
      pool that is not known. */
  lemma {:induction false} LogTellsHistory(t: Tables, requests: seq<Request>, k: nat)
    requires k < |requests|
    ensures var r, q := LogOf(t, requests)[k], requests[k];
            && r.timestamp == q.timestamp && r.pool == q.pool && r.container == q.container && r.newNode == q.newNode
            && (q.pool !in t ==> r.oldNode == 0)
            && (q.pool in t ==>
                  match LastWrite(LogOf(t, requests)[..k], q.pool, q.container)
                  case Some(n) => r.oldNode == n
                  case None => r.oldNode == if q.container in t[q.pool] then t[q.pool][q.container] else 0)
    decreases k
  {
    var log, r, q := LogOf(t, requests), LogOf(t, requests)[k], requests[k];
    LogRecord(t, requests, k);
    ReplayMeans(t, log[..k], q.pool);
  }

  lemma {:induction false} LogRecord(t: Tables, requests: seq<Request>, k: nat)
    requires k < |requests|
    ensures var q := requests[k];
            LogOf(t, requests)[k] == Change(q.timestamp, ApplyAll(t, LogOf(t, requests)[..k]), q.pool, q.container, q.newNode)
    decreases k
  {
    var log := LogOf(t, requests);
    if k > 0 {
      LogRecord(Apply(t, log[0]), requests[1..], k - 1);
      assert log[..k][1..] == log[1..][..k - 1];
    } else {
      assert log[..0] == [];
    }
  }

  /** `cut` is `dir` with each file cut off somewhere. */
  ghost predicate IsCut(cut: Dir, dir: Dir) {
    cut.Keys == dir.Keys && forall f :: f in dir ==> cut[f] <= dir[f]
  }

  lemma {:induction false} OfHasPool(records: seq<Record>, pool: PoolId)
    ensures forall i :: 0 <= i < |Of(records, pool)| ==> Of(records, pool)[i].pool == pool
  {
    if records != [] {
      OfHasPool(records[1..], pool);
    }
  }

  lemma {:induction false} OnlyOwnRecords(t: Tables, records: seq<Record>, pool: PoolId)
    requires pool in t
    ensures pool in ApplyAll(t, records) && pool in ApplyAll(t, Of(records, pool))
    ensures ApplyAll(t, records)[pool] == ApplyAll(t, Of(records, pool))[pool]
    decreases |records|
  {
    if records != [] {
      var r := records[0];
      OnlyOwnRecords(Apply(t, r), records[1..], pool);
      if r.pool == pool {
        assert Of(records, pool)[1..] == Of(records[1..], pool);
      } else {
        assert Of(records, pool) == Of(records[1..], pool);
        OnlyOwnPool(t, Apply(t, r), Of(records[1..], pool), pool);
      }
    }
  }

  /** Recovery: log any migrations from an empty directory, let a crash cut each file at
      any byte, and replay in any order over the initial tables.  Each pool's table is
      the initial one after exactly the pool's complete records; if no file is cut it is
      the table at the time of the crash. */
  lemma Recovery(t: Tables, node: u32, records: seq<Record>, cut: Dir, order: seq<FileName>, pool: PoolId)
    requires IsCut(cut, LogAll(map[], node, records)) && Lists(order, cut)
    requires pool in t
    ensures var f := FileName(pool, node);
            var survived := if f in cut then |cut[f]| / RECORD else 0;
            var r := ReplayDir(t, cut, order);
            && pool in r && survived <= |Of(records, pool)|
            && pool in ApplyAll(t, Of(records, pool)[..survived])
            && r[pool] == ApplyAll(t, Of(records, pool)[..survived])[pool]
            && (cut == LogAll(map[], node, records) ==> pool in ApplyAll(t, records) && r[pool] == ApplyAll(t, records)[pool])
  {
    hide ApplyAll, EncodeAll, Records, LogAll, Of;
    var dir := LogAll(map[], node, records);
    LogAllLogs(map[], node, [], records);
    assert [] + records == records;
    CutFiles(dir, node, records, cut);
    FromItsFile(t, cut, order, pool);
    OnlyOwnRecords(t, records, pool);
    var f := FileName(pool, node);
    if f in cut {
      assert f in order;
      CutLog(Of(records, pool), |cut[f]|);
      if cut == dir {
        TornReplay(t, Of(records, pool), |cut[f]|);
      }
      OnlyOwnPool(t, t, Of(records, pool)[..|cut[f]| / RECORD], pool);
    } else {
      assert forall g :: g in order ==> g in cut && (g.pool == pool ==> g == f);
      OnlyOwnPool(t, t, [], pool);
      AppliesNothing(t);
      if cut == dir {
        forall i | 0 <= i < |records| ensures records[i].pool != pool {
          assert FileName(records[i].pool, node) in dir;
        }
        OfNone(records, pool);
      }
    }
  }

  lemma AppliesNothing(t: Tables)
    ensures ApplyAll(t, []) == t
  {}

  lemma CutFiles(dir: Dir, node: u32, records: seq<Record>, cut: Dir)
    requires Logged(dir, node, records) && IsCut(cut, dir)
    ensures OwnRecords(cut) && OneFilePerPool(cut)
    ensures forall f :: f in cut ==> f.node == node && |cut[f]| <= |EncodeAll(Of(records, f.pool))|
                                     && Records(cut[f]) == Of(records, f.pool)[..|cut[f]| / RECORD]
  {
    hide EncodeAll, Records, Of;
    forall f | f in cut
      ensures f.node == node && |cut[f]| <= |EncodeAll(Of(records, f.pool))|
      ensures Records(cut[f]) == Of(records, f.pool)[..|cut[f]| / RECORD]
    {
      assert cut[f] == dir[f][..|cut[f]|];
      CutLog(Of(records, f.pool), |cut[f]|);
    }
    forall f, i | f in cut && 0 <= i < |Records(cut[f])| ensures Records(cut[f])[i].pool == f.pool {
      OfHasPool(records, f.pool);
    }
  }

  // ----- a record's bytes are the only ones that read as it -----

  lemma {:induction false} BytesRoundTrip(bytes: seq<byte>)
    ensures Put(Get(bytes), |bytes|) == bytes
  {
    if bytes != [] {
      LowByte(bytes[0], Get(bytes[1..]));
      BytesRoundTrip(bytes[1..]);
      assert bytes == [bytes[0]] + bytes[1..];
    }
  }

  lemma LowByte(b: byte, m: nat)
    ensures (b + 256 * m) % 256 == b && (b + 256 * m) / 256 == m
  {}

  lemma EncodeDecoded(bytes: seq<byte>)
    requires |bytes| == RECORD
    ensures Encode(Decode(bytes)) == bytes
  {
    hide Put, Get;
    SixParts(bytes);
    BytesRoundTrip(bytes[..8]);
    BytesRoundTrip(bytes[8..12]);
    BytesRoundTrip(bytes[12..16]);
    BytesRoundTrip(bytes[16..20]);
    BytesRoundTrip(bytes[20..24]);
    BytesRoundTrip(bytes[24..28]);
  }

  lemma SixParts(bytes: seq<byte>)
    requires |bytes| == RECORD
    ensures bytes == bytes[..8] + bytes[8..12] + bytes[12..16] + bytes[16..20] + bytes[20..24] + bytes[24..28]
  {}

  lemma {:induction false} EncodeRead(bytes: seq<byte>)
    ensures |EncodeAll(Records(bytes))| <= |bytes| && EncodeAll(Records(bytes)) == bytes[..|bytes| / RECORD * RECORD]
    decreases |bytes|
  {
    hide Encode, Decode;
    if |bytes| >= RECORD {
      var head, tail := bytes[..RECORD], bytes[RECORD..];
      EncodeRead(tail);
      EncodeDecoded(head);
      assert Records(bytes)[1..] == Records(tail);
      assert bytes[..|bytes| / RECORD * RECORD] == head + tail[..|tail| / RECORD * RECORD];
    }
  }

  /** A file reads as `rs` exactly when its complete records' bytes are those of `rs`. */
  lemma ReadsAsIff(bytes: seq<byte>, rs: seq<Record>)
    requires |bytes| / RECORD == |rs|
    ensures Records(bytes) == rs <==> bytes[..RECORD * |rs|] == EncodeAll(rs)
  {
    hide EncodeAll, Records;
    var whole := bytes[..RECORD * |rs|];
    var rest := bytes[RECORD * |rs|..];
    EncodeRead(bytes);
    assert bytes == whole + rest;
    RecordsJoin(whole, rest);
    ShortReads(rest);
    if whole == EncodeAll(rs) {
      CutLog(rs, |whole|);
      assert whole[..|whole|] == whole && rs[..|rs|] == rs;
    }
  }

  lemma ShortReads(bytes: seq<byte>)
    requires |bytes| < RECORD
    ensures Records(bytes) == []
  {}

  /** After a crash the log is appended to as it is.  The earlier complete records are safe,
      as many records are read behind them as were logged, and those are the logged ones
      exactly when the torn bytes and the new ones, read from the tear on, spell them:
      always at a record boundary, and otherwise only if the bytes repeat themselves. */
  lemma AppendAfterTear(records: seq<Record>, n: nat, rs: seq<Record>)
    requires n <= |EncodeAll(records)|
    ensures var torn := EncodeAll(records)[n / RECORD * RECORD..n];
            var read := Records(EncodeAll(records)[..n] + EncodeAll(rs));
            && |read| == n / RECORD + |rs|
            && read[..n / RECORD] == records[..n / RECORD]
            && read[n / RECORD..] == Records(torn + EncodeAll(rs))
            && (read[n / RECORD..] == rs <==> (torn + EncodeAll(rs))[..RECORD * |rs|] == EncodeAll(rs))
            && (n % RECORD == 0 ==> read[n / RECORD..] == rs)
  {
    hide Encode, Decode, EncodeAll, Records;
    var torn := EncodeAll(records)[n / RECORD * RECORD..n];
    var late := torn + EncodeAll(rs);
    ReadsBehind(records, n, EncodeAll(rs));
    assert |late| / RECORD == |rs|;
    ReadsAsIff(late, rs);
    if n % RECORD == 0 {
      assert torn == [] && late[..RECORD * |rs|] == EncodeAll(rs);
    }
  }

  /** The complete records before a tear, then what the torn bytes and the rest read as. */
  lemma ReadsBehind(records: seq<Record>, n: nat, rest: seq<byte>)
    requires n <= |EncodeAll(records)|
    ensures var torn := EncodeAll(records)[n / RECORD * RECORD..n];
            var read := Records(EncodeAll(records)[..n] + rest);
            && |read| == n / RECORD + |Records(torn + rest)|
            && read[..n / RECORD] == records[..n / RECORD] && read[n / RECORD..] == Records(torn + rest)
  {
    hide Encode, Decode, EncodeAll, Records;
    var m := n / RECORD;
    var whole, torn := EncodeAll(records)[..m * RECORD], EncodeAll(records)[m * RECORD..n];
    assert EncodeAll(records)[..n] + rest == whole + (torn + rest);
    RecordsJoin(whole, torn + rest);
    CutLog(records, m * RECORD);
  }

  lemma {:induction false} RecordsJoin(a: seq<byte>, b: seq<byte>)
    requires |a| % RECORD == 0
    ensures Records(a + b) == Records(a) + Records(b)
    decreases |a|
  {
    hide Decode;
    if a == [] {
      assert a + b == b;
    } else {
      var c := a + b;
      var head, tail := a[..RECORD], a[RECORD..];
      assert c[..RECORD] == head && c[RECORD..] == tail + b;
      RecordsJoin(tail, b);
      assert Records(c) == [Decode(head)] + Records(tail + b);
      assert Records(a) == [Decode(head)] + Records(tail);
    }
  }

  /** A tear of one byte makes the next migration be read as another. */
  lemma TornAppendMisreads(pool: PoolId)
    ensures var r := Record(0, pool, 1, 0, 2);
            var log := EncodeAll([r])[..1] + EncodeAll([r]);
            && |Records(log)| == 1 && Records(log)[0].newNode == 512
  {
    hide Encode, Decode;
    var r := Record(0, pool, 1, 0, 2);
    AppendAfterTear([r], 1, [r]);
    var torn := EncodeAll([r])[0..1];
    assert EncodeAll([r]) == Encode(r);
    var bytes := (torn + Encode(r))[..RECORD];
    LastFields(r);
    OneLater(torn, Encode(r));
    DecodedNode(bytes);
  }

  lemma OneLater(torn: seq<byte>, e: seq<byte>)
    requires |torn| == 1 && |e| == RECORD
    ensures (torn + e)[..RECORD][24..28] == e[23..27]
  {
    var x, y := (torn + e)[..RECORD][24..28], e[23..27];
    assert |x| == |y| && forall i :: 0 <= i < |x| ==> x[i] == y[i];
  }

  lemma LastFields(r: Record)
    requires r.oldNode == 0 && r.newNode == 2
    ensures Encode(r)[23..27] == [0, 2, 0, 0]
  {
    assert Encode(r)[20..24] == Put(0, 4) && Encode(r)[24..28] == Put(2, 4);
    assert Put(0, 4) == [0] + Put(0, 3) && Put(2, 4) == [2] + Put(0, 3);
    assert Put(0, 3) == [0, 0, 0];
  }

  lemma DecodedNode(bytes: seq<byte>)
    requires |bytes| == RECORD && bytes[24..28] == [0, 2, 0, 0]
    ensures Decode(bytes).newNode == 512
  {
    var b := bytes[24..28];
    var none: seq<byte> := [];
    assert [0][1..] == none && [0, 0][1..] == [0] && [2, 0, 0][1..] == [0, 0] && b[1..] == [2, 0, 0];
    assert Get([0]) == 0;
    assert Get([0, 0]) == 0;
    assert Get([2, 0, 0]) == 2;
    assert Get(b) == 512;
  }
}
