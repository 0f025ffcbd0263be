/** The socket loops: a gathering send of several buffers and an exact receive, against a
    kernel that may take or give any part, interrupt, or have nothing.

    What the kernel answers to each call is a script; a loop whose script runs out has
    not returned yet. */
module Sockets {
  type byte = n: int | 0 <= n < 256

  const MAX_BUFFERS := 64

  datatype WriteAnswer =
    | Wrote(n: nat)           // as many bytes as that, but at least one and at most what is offered
    | WriteInterrupted        // EINTR
    | Full(pollOk: bool)      // EAGAIN, then poll
    | WriteFailed

  datatype SendResult = Sent(n: nat) | SendError | Sending

  function Min(a: nat, b: nat): nat { if a < b then a else b }

  /** Bytes a call transfers when it is offered `limit` and means to do `n`. */
  function Part(n: nat, limit: nat): (k: nat)
    ensures k <= limit && (limit > 0 ==> k > 0)
  {
    if limit == 0 then 0 else if n == 0 then 1 else Min(n, limit)
  }

  function Concat(bufs: seq<seq<byte>>): seq<byte> { if bufs == [] then [] else bufs[0] + Concat(bufs[1..]) }

  // ----- the flat form -----

  /** Sending `data` in one piece until `total` bytes have gone. */
  function FlatSend(data: seq<byte>, sent: nat, total: nat, script: seq<WriteAnswer>): (SendResult, seq<byte>)
    requires sent <= |data|
    decreases |script|
  {
    if sent >= total then (Sent(sent), data[..sent])
    else if script == [] then (Sending, data[..sent])
    else
      match script[0]
      case Wrote(n) => FlatSend(data, sent + Part(n, |data| - sent), total, script[1..])
      case WriteInterrupted => FlatSend(data, sent, total, script[1..])
      case Full(ok) => if ok then FlatSend(data, sent, total, script[1..]) else (SendError, data[..sent])
      case WriteFailed => (SendError, data[..sent])
  }

  // ----- SendV -----

  lemma {:induction false} ConcatSplit(bufs: seq<seq<byte>>, i: nat)
    requires i <= |bufs|
    ensures Concat(bufs) == Concat(bufs[..i]) + Concat(bufs[i..])
  {
    if i > 0 {
      assert bufs[1..][..i - 1] == bufs[1..i] && bufs[1..][i - 1..] == bufs[i..];
      assert bufs[..i][1..] == bufs[1..i];
      ConcatSplit(bufs[1..], i - 1);
    } else {
      assert bufs[..0] == [] && bufs[0..] == bufs;
    }
  }

  lemma ConcatStep(local: seq<seq<byte>>, idx: nat)
    requires idx < |local|
    ensures Concat(local[idx..]) == local[idx] + Concat(local[idx + 1..])
  {
    assert local[idx..][1..] == local[idx + 1..];
  }

  method TotalLength(bufs: seq<seq<byte>>) returns (total: nat)
    ensures total == |Concat(bufs)|
  {
    total := 0;
    var i := 0;
    while i < |bufs|
      invariant 0 <= i <= |bufs|
      invariant total + |Concat(bufs[i..])| == |Concat(bufs)|
    {
      ConcatStep(bufs, i);
      total := total + |bufs[i]|;
      i := i + 1;
    }
  }

  /** Move past `n` written bytes: skip the buffers that are done and shorten the next one
      in place. */
  method Advance(local: array<seq<byte>>, idx: nat, n: nat) returns (idx': nat)
    requires idx <= local.Length && n <= |Concat(local[idx..])|
    modifies local
    ensures idx <= idx' <= local.Length
    ensures Concat(local[idx'..]) == old(Concat(local[idx..]))[n..]
  {
    idx' := idx;
    var left: nat := n;
    ghost var before := local[..];
    assert before[idx..] == local[idx..];
    ghost var whole := Concat(before[idx..]);
    assert n <= |whole|;
    while idx' < local.Length && left >= |local[idx']|
      invariant idx <= idx' <= local.Length
      invariant local[..] == before
      invariant left <= |Concat(before[idx'..])|
      invariant Concat(before[idx'..])[left..] == whole[n..]
      decreases local.Length - idx'
    {
      ConcatStep(before, idx');
      assert before[idx'] == local[idx'];
      assert Concat(before[idx'..])[left..] == Concat(before[idx' + 1..])[left - |before[idx']|..];
      left := left - |local[idx']|;
      idx' := idx' + 1;
    }
    if idx' < local.Length {
      ConcatStep(before, idx');
      assert before[idx'] == local[idx'];
      if left > 0 {
        local[idx'] := local[idx'][left..];
      }
      ConcatStep(local[..], idx');
      assert local[..][idx' + 1..] == before[idx' + 1..];
    }
    assert local[idx'..] == local[..][idx'..];
  }

  method LocalBuffers(bufs: seq<seq<byte>>, count: nat) returns (local: array<seq<byte>>)
    requires count <= |bufs|
    ensures fresh(local) && local[..] == bufs[..count]
  {
    local := new seq<byte>[count];
    var i := 0;
    while i < count
      invariant i <= count && local[..i] == bufs[..i]
    {
      local[i] := bufs[i];
      i := i + 1;
    }
  }

  /** The bytes a writev of the remaining buffers offers. */
  method Offered(local: array<seq<byte>>, idx: nat) returns (bytes: seq<byte>)
    requires idx <= local.Length
    ensures bytes == Concat(local[idx..])
  {
    bytes := [];
    var i := local.Length;
    while i > idx
      invariant idx <= i <= local.Length
      invariant bytes == Concat(local[i..])
    {
      i := i - 1;
      ConcatStep(local[..], i);
      assert local[..][i..] == local[i..] && local[..][i + 1..] == local[i + 1..];
      bytes := local[i] + bytes;
    }
  }

  /** One writev and the bookkeeping after it. */
  method WriteSome(local: array<seq<byte>>, idx: nat, n: nat) returns (chunk: seq<byte>, idx': nat)
    requires idx <= local.Length
    modifies local
    ensures idx <= idx' <= local.Length
    ensures var offered := old(Concat(local[idx..]));
            chunk == offered[..Part(n, |offered|)] && Concat(local[idx'..]) == offered[Part(n, |offered|)..]
  {
    var offered := Offered(local, idx);
    var written := Part(n, |offered|);
    chunk := offered[..written];
    idx' := Advance(local, idx, written);
  }

  lemma TakesUp(data: seq<byte>, sent: nat, part: nat)
    requires sent + part <= |data|
    ensures data[..sent] + data[sent..][..part] == data[..sent + part] && data[sent..][part..] == data[sent + part..]
  {}

  lemma FlatStep(data: seq<byte>, sent: nat, total: nat, script: seq<WriteAnswer>, k: nat)
    requires sent <= |data| && sent < total && k < |script|
    ensures FlatSend(data, sent, total, script[k..]) ==
            match script[k]
            case Wrote(n) => FlatSend(data, sent + Part(n, |data| - sent), total, script[k + 1..])
            case WriteInterrupted => FlatSend(data, sent, total, script[k + 1..])
            case Full(ok) => if ok then FlatSend(data, sent, total, script[k + 1..]) else (SendError, data[..sent])
            case WriteFailed => (SendError, data[..sent])
  {
    assert script[k..][1..] == script[k + 1..];
  }

  lemma FlatEnds(data: seq<byte>, sent: nat, total: nat, script: seq<WriteAnswer>)
    requires sent <= |data|
    ensures sent >= total ==> FlatSend(data, sent, total, script) == (Sent(sent), data[..sent])
    ensures sent < total ==> FlatSend(data, sent, total, []) == (Sending, data[..sent])
  {}

  /** The gathering send refines the flat one over the first 64 buffers, with the length of
      all of them as its goal. */
  method SendV(bufs: seq<seq<byte>>, script: seq<WriteAnswer>) returns (result: SendResult, wire: seq<byte>)
    ensures (result, wire) == FlatSend(Concat(bufs[..Min(|bufs|, MAX_BUFFERS)]), 0, |Concat(bufs)|, script)
  {
    hide FlatSend, Part, Concat;
    var total := TotalLength(bufs);
    var count := Min(|bufs|, MAX_BUFFERS);
    var local := LocalBuffers(bufs, count);
    ghost var data := Concat(bufs[..count]);
    wire := [];
    var idx, k := 0, 0;
    assert local[0..] == bufs[..count];
    while |wire| < total
      invariant k <= |script| && idx <= local.Length
      invariant |wire| <= |data| && wire == data[..|wire|] && Concat(local[idx..]) == data[|wire|..]
      invariant FlatSend(data, 0, total, script) == FlatSend(data, |wire|, total, script[k..])
      decreases |script| - k
    {
      if k == |script| {
        assert script[k..] == [];
        FlatEnds(data, |wire|, total, []);
        return Sending, wire;
      }
      var answer := script[k];
      FlatStep(data, |wire|, total, script, k);
      k := k + 1;
      match answer
      case WriteInterrupted =>
      case Full(ok) =>
        if !ok {
          return SendError, wire;
        }
      case WriteFailed =>
        return SendError, wire;
      case Wrote(n) =>
        TakesUp(data, |wire|, Part(n, |data| - |wire|));
        var chunk;
        chunk, idx := WriteSome(local, idx, n);
        wire := wire + chunk;
    }
    FlatEnds(data, |wire|, total, script[k..]);
    result := Sent(|wire|);
  }

  /** The wire holds a prefix of the data at all times, and all of it on success, which
      needs every byte to be among the data. */
  lemma {:induction false} FlatSendSafe(data: seq<byte>, sent: nat, total: nat, script: seq<WriteAnswer>)
    requires sent <= |data| <= total
    ensures var (result, wire) := FlatSend(data, sent, total, script);
            && data[..sent] <= wire <= data
            && (result.Sent? ==> wire == data && result.n == |data| == total)
    decreases |script|
  {
    if sent < total && script != [] {
      match script[0]
      case Wrote(n) => FlatSendSafe(data, sent + Part(n, |data| - sent), total, script[1..]);
      case WriteInterrupted => FlatSendSafe(data, sent, total, script[1..]);
      case Full(ok) => if ok { FlatSendSafe(data, sent, total, script[1..]); }
      case WriteFailed =>
    }
  }

  predicate Harmless(a: WriteAnswer) { !a.WriteFailed? && (a.Full? ==> a.pollOk) }

  function Writes(script: seq<WriteAnswer>): nat
    decreases |script|
  {
    if script == [] then 0 else (if script[0].Wrote? then 1 else 0) + Writes(script[1..])
  }

  /** Without failures, as many writes as there are bytes are enough. */
  lemma {:induction false} FlatSendEnds(data: seq<byte>, sent: nat, script: seq<WriteAnswer>)
    requires sent <= |data| && (forall a :: a in script ==> Harmless(a)) && Writes(script) >= |data| - sent
    ensures FlatSend(data, sent, |data|, script) == (Sent(|data|), data)
    decreases |script|
  {
    if sent < |data| {
      assert script != [] && script[0] in script;
      match script[0]
      case Wrote(n) => FlatSendEnds(data, sent + Part(n, |data| - sent), script[1..]);
      case WriteInterrupted => FlatSendEnds(data, sent, script[1..]);
      case Full(_) => FlatSendEnds(data, sent, script[1..]);
      case WriteFailed =>
    } else {
      assert data[..sent] == data;
    }
  }

  /** A send gives up exactly when a write or the wait for room fails before all is sent, and
      puts nothing on the wire after that. */
  lemma {:induction false} SendErrsIff(data: seq<byte>, sent: nat, total: nat, script: seq<WriteAnswer>)
    requires sent <= |data|
    ensures FlatSend(data, sent, total, script).0.SendError? <==>
            exists k :: 0 <= k < |script| && !Harmless(script[k]) && FlatSend(data, sent, total, script[..k]).0.Sending?
    ensures forall k :: 0 <= k < |script| && !Harmless(script[k]) && FlatSend(data, sent, total, script[..k]).0.Sending? ==>
              FlatSend(data, sent, total, script) == (SendError, FlatSend(data, sent, total, script[..k]).1)
    decreases |script|
  {
    if script != [] && sent < total {
      forall k | 1 <= k < |script| ensures script[..k][1..] == script[1..][..k - 1] && script[..k][0] == script[0] {}
      if Harmless(script[0]) {
        var sent' := match script[0] case Wrote(n) => sent + Part(n, |data| - sent) case _ => sent;
        SendErrsIff(data, sent', total, script[1..]);
        forall k | 1 <= k < |script| ensures FlatSend(data, sent, total, script[..k]) == FlatSend(data, sent', total, script[1..][..k - 1]) {}
        if FlatSend(data, sent, total, script).0.SendError? {
          var k :| 0 <= k < |script[1..]| && !Harmless(script[1..][k]) && FlatSend(data, sent', total, script[1..][..k]).0.Sending?;
          assert !Harmless(script[k + 1]);
        }
      } else {
        assert FlatSend(data, sent, total, script[..0]).0.Sending?;
        forall k | 1 <= k < |script| ensures FlatSend(data, sent, total, script[..k]).0.SendError? {}
      }
    }
  }

  /** SendV can succeed, and then has sent everything, exactly when no byte lies beyond the
      64th buffer; otherwise no behaviour of the kernel lets it succeed. */
  lemma SendCanSucceedIff(bufs: seq<seq<byte>>)
    ensures (exists script :: FlatSend(Concat(bufs[..Min(|bufs|, MAX_BUFFERS)]), 0, |Concat(bufs)|, script).0.Sent?)
            <==> |bufs| <= 64 || Concat(bufs[64..]) == []
  {
    var count := Min(|bufs|, MAX_BUFFERS);
    var data := Concat(bufs[..count]);
    ConcatSplit(bufs, count);
    if |bufs| <= MAX_BUFFERS || Concat(bufs[MAX_BUFFERS..]) == [] {
      assert bufs[|bufs|..] == [];
      assert |data| == |Concat(bufs)|;
      var script := seq(|data|, i => Wrote(1));
      AllWrites(|data|);
      FlatSendEnds(data, 0, script);
    } else {
      forall script ensures !FlatSend(data, 0, |Concat(bufs)|, script).0.Sent? {
        FlatSendSafe(data, 0, |Concat(bufs)|, script);
      }
    }
  }

  lemma {:induction false} AllWrites(n: nat)
    ensures Writes(seq(n, i => Wrote(1))) == n
  {
    if n > 0 {
      assert seq(n, i => Wrote(1))[1..] == seq(n - 1, i => Wrote(1));
      AllWrites(n - 1);
    }
  }

  // ----- RecvExact -----

  datatype ReadAnswer =
    | Gave(n: nat)
    | ReadInterrupted
    | Empty(pollOk: bool)
    | ReadFailed
    | Closed

  datatype RecvResult = Received | Again | RecvError | Receiving

  /** The result and the number of bytes taken off the stream. */
  function FlatRecv(stream: seq<byte>, got: nat, len: nat, script: seq<ReadAnswer>): (RecvResult, nat)
    requires got <= |stream|
    decreases |script|
  {
    if got >= len then (Received, got)
    else if script == [] then (Receiving, got)
    else
      match script[0]
      case Gave(n) =>
        if got == |stream| then (Receiving, got)
        else FlatRecv(stream, got + Part(n, Min(len - got, |stream| - got)), len, script[1..])
      case ReadInterrupted => FlatRecv(stream, got, len, script[1..])
      case Empty(ok) =>
        if got == 0 then (Again, 0)
        else if ok then FlatRecv(stream, got, len, script[1..]) else (RecvError, got)
      case ReadFailed => (RecvError, got)
      case Closed => (RecvError, got)
  }

  /** `stream` is what the peer has put on the connection from here on. */
  method RecvExact(stream: seq<byte>, buf: array<byte>, len: nat, script: seq<ReadAnswer>) returns (result: RecvResult, got: nat)
    requires len <= buf.Length
    modifies buf
    ensures (result, got) == FlatRecv(stream, 0, len, script)
    ensures got <= len && got <= |stream| && buf[..got] == stream[..got] && buf[got..] == old(buf[got..])
  {
    got := 0;
    var k := 0;
    while got < len
      invariant k <= |script| && got <= len && got <= |stream|
      invariant buf[..got] == stream[..got] && buf[got..] == old(buf[got..])
      invariant FlatRecv(stream, 0, len, script) == FlatRecv(stream, got, len, script[k..])
      decreases |script| - k
    {
      if k == |script| {
        return Receiving, got;
      }
      var answer := script[k];
      assert script[k..][1..] == script[k + 1..];
      k := k + 1;
      match answer
      case ReadInterrupted =>
      case Empty(ok) =>
        if got == 0 {
          return Again, 0;
        }
        if !ok {
          return RecvError, got;
        }
      case ReadFailed =>
        return RecvError, got;
      case Closed =>
        return RecvError, got;
      case Gave(n) =>
        if got == |stream| {
          return Receiving, got;
        }
        var part := Part(n, Min(len - got, |stream| - got));
        ghost var before := buf[..];
        forall i | 0 <= i < part {
          buf[got + i] := stream[got + i];
        }
        assert buf[..got + part] == stream[..got + part];
        assert buf[got + part..] == before[got + part..] == old(buf[got + part..]) by {
          assert before[got..][part..] == before[got + part..];
          assert old(buf[got..])[part..] == old(buf[got + part..]);
        }
        got := got + part;
    }
    result := Received;
  }

  /** 0 means exactly `len` bytes, EAGAIN means none was consumed. */
  lemma {:induction false} FlatRecvSafe(stream: seq<byte>, got: nat, len: nat, script: seq<ReadAnswer>)
    requires got <= |stream| && got <= len
    ensures var (result, n) := FlatRecv(stream, got, len, script);
            && got <= n <= len && n <= |stream|
            && (result.Received? <==> n == len)
            && (result.Again? ==> n == 0)
    decreases |script|
  {
    if got < len && script != [] {
      match script[0]
      case Gave(n) =>
        if got < |stream| { FlatRecvSafe(stream, got + Part(n, Min(len - got, |stream| - got)), len, script[1..]); }
      case ReadInterrupted => FlatRecvSafe(stream, got, len, script[1..]);
      case Empty(ok) => if got > 0 && ok { FlatRecvSafe(stream, got, len, script[1..]); }
      case ReadFailed =>
      case Closed =>
    }
  }

  predicate HarmlessRead(a: ReadAnswer) { !a.ReadFailed? && !a.Closed? && (a.Empty? ==> a.pollOk) }

  function Reads(script: seq<ReadAnswer>): nat
    decreases |script|
  {
    if script == [] then 0 else (if script[0].Gave? then 1 else 0) + Reads(script[1..])
  }

  /** Nothing is there to read at first. */
  predicate StartsEmpty(script: seq<ReadAnswer>)
    decreases |script|
  {
    script != [] && (script[0].Empty? || (script[0].ReadInterrupted? && StartsEmpty(script[1..])))
  }

  /** Without failures, and with something to read at first, as many reads as there are
      bytes are enough. */
  lemma {:induction false} FlatRecvEnds(stream: seq<byte>, got: nat, len: nat, script: seq<ReadAnswer>)
    requires got <= len <= |stream| && (forall a :: a in script ==> HarmlessRead(a)) && Reads(script) >= len - got
    requires got == 0 ==> !StartsEmpty(script)
    ensures FlatRecv(stream, got, len, script) == (Received, len)
    decreases |script|
  {
    if got < len {
      assert script != [] && script[0] in script;
      match script[0]
      case Gave(n) => FlatRecvEnds(stream, got + Part(n, Min(len - got, |stream| - got)), len, script[1..]);
      case ReadInterrupted => FlatRecvEnds(stream, got, len, script[1..]);
      case Empty(_) => FlatRecvEnds(stream, got, len, script[1..]);
    }
  }

  /** Where nothing is there at first, the caller is told to come again. */
  lemma {:induction false} FlatRecvAgain(stream: seq<byte>, len: nat, script: seq<ReadAnswer>)
    requires len > 0 && StartsEmpty(script)
    ensures FlatRecv(stream, 0, len, script) == (Again, 0)
    decreases |script|
  {
    if script[0].ReadInterrupted? { FlatRecvAgain(stream, len, script[1..]); }
  }

  lemma {:induction false} RecvAgainIff(stream: seq<byte>, len: nat, script: seq<ReadAnswer>)
    ensures FlatRecv(stream, 0, len, script).0.Again? <==> len > 0 && StartsEmpty(script)
    decreases |script|
  {
    if len > 0 && script != [] {
      match script[0]
      case ReadInterrupted => RecvAgainIff(stream, len, script[1..]);
      case Gave(n) =>
        if 0 < |stream| { NotAgain(stream, Part(n, Min(len, |stream|)), len, script[1..]); }
      case _ =>
    }
  }

  lemma {:induction false} NotAgain(stream: seq<byte>, got: nat, len: nat, script: seq<ReadAnswer>)
    requires 0 < got <= |stream|
    ensures !FlatRecv(stream, got, len, script).0.Again?
    decreases |script|
  {
    if got < len && script != [] {
      match script[0]
      case Gave(n) =>
        if got < |stream| { NotAgain(stream, got + Part(n, Min(len - got, |stream| - got)), len, script[1..]); }
      case ReadInterrupted => NotAgain(stream, got, len, script[1..]);
      case Empty(ok) => if ok { NotAgain(stream, got, len, script[1..]); }
      case _ =>
    }
  }

  /** The read fails, the peer has closed, or the wait for the rest of a frame fails. */
  predicate Fatal(a: ReadAnswer, got: nat) { a.ReadFailed? || a.Closed? || (a.Empty? && !a.pollOk && got > 0) }

  /** A receive gives up exactly when that happens before the frame is complete, and takes
      nothing off the stream after that. */
  lemma {:induction false} RecvErrsIff(stream: seq<byte>, got: nat, len: nat, script: seq<ReadAnswer>)
    requires got <= |stream|
    ensures FlatRecv(stream, got, len, script).0.RecvError? <==>
            exists k :: 0 <= k < |script| && Stopped(stream, got, len, script, k)
    ensures forall k :: 0 <= k < |script| && Stopped(stream, got, len, script, k) ==>
              FlatRecv(stream, got, len, script) == (RecvError, FlatRecv(stream, got, len, script[..k]).1)
    decreases |script|
  {
    if script != [] && got < len {
      forall k | 1 <= k < |script| ensures script[..k][1..] == script[1..][..k - 1] && script[..k][0] == script[0] {}
      if script[0].ReadInterrupted? || (script[0].Gave? && got < |stream|) || (script[0].Empty? && script[0].pollOk && got > 0) {
        var got' := match script[0] case Gave(n) => got + Part(n, Min(len - got, |stream| - got)) case _ => got;
        RecvErrsIff(stream, got', len, script[1..]);
        forall k | 1 <= k < |script| ensures Stopped(stream, got, len, script, k) <==> Stopped(stream, got', len, script[1..], k - 1) {}
        if FlatRecv(stream, got, len, script).0.RecvError? {
          var k :| 0 <= k < |script[1..]| && Stopped(stream, got', len, script[1..], k);
          assert Stopped(stream, got, len, script, k + 1);
        }
      } else {
        assert Fatal(script[0], got) ==> Stopped(stream, got, len, script, 0);
      }
    }
  }

  /** After these answers the frame is not complete, nothing has failed, and no read waits
      for bytes that the peer has not sent. */
  predicate UnderWay(stream: seq<byte>, got: nat, len: nat, script: seq<ReadAnswer>)
    requires got <= |stream|
    decreases |script|
  {
    && got < len
    && (script == [] ||
        match script[0]
        case Gave(n) => got < |stream| && UnderWay(stream, got + Part(n, Min(len - got, |stream| - got)), len, script[1..])
        case ReadInterrupted => UnderWay(stream, got, len, script[1..])
        case Empty(ok) => got > 0 && ok && UnderWay(stream, got, len, script[1..])
        case _ => false)
  }

  /** The receive is still under way after `k` answers, and the next one is fatal. */
  predicate Stopped(stream: seq<byte>, got: nat, len: nat, script: seq<ReadAnswer>, k: nat)
    requires got <= |stream| && k < |script|
  {
    UnderWay(stream, got, len, script[..k]) && Fatal(script[k], FlatRecv(stream, got, len, script[..k]).1)
  }

  // ----- both ends -----

  /** A receiver that asks for the lengths of the frames one after the other, calling again
      on EAGAIN; what it takes off the stream until something else than success happens. */
  function ReceiveFrames(stream: seq<byte>, lens: seq<nat>, scripts: seq<seq<ReadAnswer>>): seq<seq<byte>>
    decreases |scripts|
  {
    if lens == [] || scripts == [] then []
    else
      FlatRecvSafe(stream, 0, lens[0], scripts[0]);
      var (result, n) := FlatRecv(stream, 0, lens[0], scripts[0]);
      match result
      case Received => [stream[..n]] + ReceiveFrames(stream[n..], lens[1..], scripts[1..])
      case Again => ReceiveFrames(stream, lens, scripts[1..])
      case RecvError => []
      case Receiving => []
  }

  function Lengths(frames: seq<seq<byte>>): seq<nat> { seq(|frames|, i requires 0 <= i < |frames| => |frames[i]|) }

  /** Frames sent one after the other arrive unchanged and in order, however either side's
      kernel cuts the stream: the receiver has a prefix of the frames at any time. */
  lemma {:induction false} FramesArrive(frames: seq<seq<byte>>, scripts: seq<seq<ReadAnswer>>)
    ensures ReceiveFrames(Concat(frames), Lengths(frames), scripts) <= frames
    decreases |scripts|
  {
    var stream, lens := Concat(frames), Lengths(frames);
    if frames != [] && scripts != [] {
      FlatRecvSafe(stream, 0, lens[0], scripts[0]);
      var (result, n) := FlatRecv(stream, 0, lens[0], scripts[0]);
      match result
      case Received =>
        assert stream[..n] == frames[0] && stream[n..] == Concat(frames[1..]);
        assert lens[1..] == Lengths(frames[1..]);
        FramesArrive(frames[1..], scripts[1..]);
      case Again => FramesArrive(frames, scripts[1..]);
      case RecvError =>
      case Receiving =>
    }
  }

  /** A call of RecvExact finds nothing at first, or can read `most` bytes. */
  predicate Useful(script: seq<ReadAnswer>, most: nat) {
    StartsEmpty(script) || ((forall a :: a in script ==> HarmlessRead(a)) && Reads(script) >= most)
  }

  /** Calls that find something. */
  function Calls(scripts: seq<seq<ReadAnswer>>): nat
    decreases |scripts|
  {
    if scripts == [] then 0 else (if StartsEmpty(scripts[0]) then 0 else 1) + Calls(scripts[1..])
  }

  /** ... and all of them once enough calls have found something, however often others found
      nothing: none is lost and none is stuck. */
  lemma {:induction false} AllFramesArrive(frames: seq<seq<byte>>, scripts: seq<seq<ReadAnswer>>, most: nat)
    requires forall f :: f in frames ==> |f| <= most
    requires (forall x :: x in scripts ==> Useful(x, most)) && Calls(scripts) >= |frames|
    ensures ReceiveFrames(Concat(frames), Lengths(frames), scripts) == frames
    decreases |scripts|
  {
    var stream, lens := Concat(frames), Lengths(frames);
    if frames != [] {
      assert frames[0] in frames && scripts[0] in scripts;
      if StartsEmpty(scripts[0]) && lens[0] > 0 {
        FlatRecvAgain(stream, lens[0], scripts[0]);
        AllFramesArrive(frames, scripts[1..], most);
      } else {
        if lens[0] > 0 { FlatRecvEnds(stream, 0, lens[0], scripts[0]); }
        assert stream[..lens[0]] == frames[0] && stream[lens[0]..] == Concat(frames[1..]);
        assert lens[1..] == Lengths(frames[1..]);
        AllFramesArrive(frames[1..], scripts[1..], most);
      }
    }
  }

  /** A frame that SendV reports as sent is received whole by a RecvExact of its length that
      returns 0, whatever follows it on the stream. */
  lemma SendThenReceive(bufs: seq<seq<byte>>, sends: seq<WriteAnswer>, later: seq<byte>, receives: seq<ReadAnswer>)
    ensures var (sent, wire) := FlatSend(Concat(bufs[..Min(|bufs|, MAX_BUFFERS)]), 0, |Concat(bufs)|, sends);
            var (received, n) := FlatRecv(wire + later, 0, |Concat(bufs)|, receives);
            sent.Sent? && received.Received? ==> n <= |wire + later| && (wire + later)[..n] == Concat(bufs)
  {
    var count := Min(|bufs|, MAX_BUFFERS);
    var data := Concat(bufs[..count]);
    ConcatSplit(bufs, count);
    FlatSendSafe(data, 0, |Concat(bufs)|, sends);
    var (sent, wire) := FlatSend(data, 0, |Concat(bufs)|, sends);
    FlatRecvSafe(wire + later, 0, |Concat(bufs)|, receives);
  }
}
