/** tun-simpl.go: the single-session build. One plain TCP connection carries the
    TUN traffic with no handshake and no retry; a UDP listener forwards what it
    receives; an HTTP handler proxies requests to the modem's web interface.

    The pumps here differ from the WebSocket variants': the outbound pump skips
    failed TUN reads, and the inbound pump sets a 1 s read deadline and retries
    on timeout. Scripts, budgets and `cancelAt` are as in `Relay`; every look at
    the context (`<-ctx.Done()` in a `select`, or `ctx.Err()`) counts as one
    observation, and `cancelAt` is the first that sees it cancelled. */
module Simpl {
  import opened Bytes
  import opened Transport
  import opened Relay

  /** The size of every buffer in this file. */
  const BufferSize: nat := 1500

  /** The packets a script delivers, each cut to `cap` bytes, in order; failed
      and timed-out reads contribute nothing. */
  function DataChunks(script: seq<ReadResult>, cap: nat): (chunks: seq<seq<byte>>)
    ensures |chunks| <= |script|
    decreases |script|
  {
    if script == [] then []
    else (if script[0].Data? then [Clip(script[0].bytes, cap)] else []) + DataChunks(script[1..], cap)
  }

  /** No chunk is longer than the buffer it was read into. */
  lemma {:induction false} DataChunksFit(script: seq<ReadResult>, cap: nat)
    ensures forall c :: c in DataChunks(script, cap) ==> |c| <= cap
    decreases |script|
  {
    if script != [] {
      DataChunksFit(script[1..], cap);
    }
  }

  lemma {:induction false} DataChunksAppend(a: seq<ReadResult>, b: seq<ReadResult>, cap: nat)
    ensures DataChunks(a + b, cap) == DataChunks(a, cap) + DataChunks(b, cap)
    decreases |a|
  {
    if a == [] {
      assert a + b == b;
    } else {
      var head := if a[0].Data? then [Clip(a[0].bytes, cap)] else [];
      assert (a + b)[0] == a[0];
      assert (a + b)[1..] == a[1..] + b;
      assert DataChunks(a + b, cap) == head + DataChunks(a[1..] + b, cap);
      DataChunksAppend(a[1..], b, cap);
      assert head + (DataChunks(a[1..], cap) + DataChunks(b, cap))
          == (head + DataChunks(a[1..], cap)) + DataChunks(b, cap);
    }
  }

  /** The outbound goroutine of `handleTUNTraffic`: a failed TUN read is skipped
      unless the context is cancelled by then (a second observation); the first
      failed write to the connection ends the pump. */
  function TunToConn(script: seq<ReadResult>, cap: nat, budget: nat, cancelAt: nat): (r: Run)
    ensures |r.out| <= budget && |r.out| <= |script|
    ensures r.why == WriteFailed ==> |r.out| == budget
    decreases |script|
  {
    if cancelAt == 0 then Run([], Cancelled)
    else if script == [] then Run([], Pending)
    else if !script[0].Data? then
      (if cancelAt == 1 then Run([], Cancelled) else TunToConn(script[1..], cap, budget, cancelAt - 2))
    else if budget == 0 then Run([], WriteFailed)
    else Prepend(Clip(script[0].bytes, cap), TunToConn(script[1..], cap, budget - 1, cancelAt - 1))
  }

  /** The inbound loop of `handleTUNTraffic`: a read that times out is retried; any
      other read error, or a failed write to the device, ends the handler. */
  function ConnToTun(script: seq<ReadResult>, cap: nat, budget: nat, cancelAt: nat): (r: Run)
    ensures |r.out| <= budget && |r.out| <= |script|
    ensures r.why == WriteFailed ==> |r.out| == budget
    decreases |script|
  {
    if cancelAt == 0 then Run([], Cancelled)
    else if script == [] then Run([], Pending)
    else if script[0].Timeout? then ConnToTun(script[1..], cap, budget, cancelAt - 1)
    else if script[0].Failed? then Run([], ReadFailed)
    else if budget == 0 then Run([], WriteFailed)
    else Prepend(Clip(script[0].bytes, cap), ConnToTun(script[1..], cap, budget - 1, cancelAt - 1))
  }

  /** startRawSocketListener's loop: every read error, timeout or not, is skipped,
      so the loop ends only when the context is cancelled. */
  function Listener(script: seq<ReadResult>, cancelAt: nat): (r: Run)
    ensures r.why == Cancelled || r.why == Pending
  {
    if cancelAt <= |script| then Run(DataChunks(script[..cancelAt], BufferSize), Cancelled)
    else Run(DataChunks(script, BufferSize), Pending)
  }

  /** The outbound goroutine, with its 1500-byte buffer allocated once. */
  method PumpTunToConn(script: seq<ReadResult>, budget: nat, cancelAt: nat)
    returns (frames: seq<seq<byte>>, why: Stop)
    ensures Run(frames, why) == TunToConn(script, BufferSize, budget, cancelAt)
  {
    var buf := new byte[BufferSize](_ => 0);
    frames := [];
    var i, seen := 0, 0;
    while true
      invariant 0 <= i <= |script| && |frames| <= budget && seen <= cancelAt
      invariant buf.Length == BufferSize
      invariant TunToConn(script, BufferSize, budget, cancelAt)
        == var rest := TunToConn(script[i..], BufferSize, budget - |frames|, cancelAt - seen);
           Run(frames + rest.out, rest.why)
      decreases |script| - i
    {
      if seen == cancelAt {
        return frames, Cancelled;
      }
      seen := seen + 1;
      if i == |script| {
        return frames, Pending;
      }
      assert script[i..][1..] == script[i + 1..];
      var n, ok := ReadInto(buf, script[i]);
      if !ok {
        if seen == cancelAt {
          return frames, Cancelled;
        }
        seen := seen + 1;
        i := i + 1;
        continue;
      }
      if |frames| == budget {
        return frames, WriteFailed;
      }
      frames := frames + [buf[..n]];
      i := i + 1;
    }
  }

  /** The inbound loop, reading into its own 1500-byte buffer. */
  method PumpConnToTun(script: seq<ReadResult>, budget: nat, cancelAt: nat)
    returns (packets: seq<seq<byte>>, why: Stop)
    ensures Run(packets, why) == ConnToTun(script, BufferSize, budget, cancelAt)
  {
    var buf := new byte[BufferSize](_ => 0);
    packets := [];
    var i := 0;
    while true
      invariant 0 <= i <= |script| && |packets| <= budget && i <= cancelAt
      invariant buf.Length == BufferSize
      invariant ConnToTun(script, BufferSize, budget, cancelAt)
        == var rest := ConnToTun(script[i..], BufferSize, budget - |packets|, cancelAt - i);
           Run(packets + rest.out, rest.why)
      decreases |script| - i
    {
      if i == cancelAt {
        return packets, Cancelled;
      }
      if i == |script| {
        return packets, Pending;
      }
      assert script[i..][1..] == script[i + 1..];
      var n, ok := ReadInto(buf, script[i]);
      if !ok {
        if script[i].Timeout? {
          i := i + 1;
          continue;
        }
        return packets, ReadFailed;
      }
      if |packets| == budget {
        return packets, WriteFailed;
      }
      packets := packets + [buf[..n]];
      i := i + 1;
    }
  }

  /** dialVLESS: a plain TCP dial; nothing is written on the new connection. */
  method DialVLESS(c: Conn, ok: bool) returns (err: Option<DialError>)
    requires c.Unused()
    modifies c
    ensures err == None <==> ok
    ensures c.dialed == ok && c.open == ok
    ensures c.written == [] && c.readCount == 0 && c.closeCount == 0
  {
    c.Dial(ok);
    err := if ok then None else Some(ConnectFailed);
  }

  /** handleTUNTraffic: dial once and give up on failure, with no retry; otherwise
      run the inbound loop, and when it returns the deferred `Close` runs, once.
      While the loop is still blocked (`Pending`) the connection stays open. The
      outbound goroutine is `PumpTunToConn`, started beside the loop. */
  method HandleTunTraffic(c: Conn, dialOk: bool, script: seq<ReadResult>, budget: nat, cancelAt: nat)
    returns (r: Option<Run>)
    requires c.Unused()
    modifies c
    ensures r == if dialOk then Some(ConnToTun(script, BufferSize, budget, cancelAt)) else None
    ensures c.dialed == dialOk && c.written == []
    ensures c.closeCount == if dialOk && r.value.why != Pending then 1 else 0
    ensures c.open <==> dialOk && r.value.why == Pending
  {
    var err := DialVLESS(c, dialOk);
    if err != None {
      return None;
    }
    var packets, why := PumpConnToTun(script, budget, cancelAt);
    r := Some(Run(packets, why));
    if why != Pending {
      c.Close();
    }
  }

  /** One listener iteration's read, into a buffer allocated for it: the packet cut
      to the buffer, or nothing when the read failed. */
  method ReadFresh(r: ReadResult) returns (chunk: seq<seq<byte>>)
    ensures chunk == DataChunks([r], BufferSize)
  {
    var buf := new byte[BufferSize](_ => 0);
    var n, ok := ReadInto(buf, r);
    chunk := if ok then [buf[..n]] else [];
  }

  /** startRawSocketListener: a failed `ListenPacket` returns at once; otherwise each
      iteration allocates a fresh 1500-byte buffer, and every packet read is handed
      to `sendToWAN`. The deferred `Close` runs when the context is cancelled. */
  method StartRawSocketListener(sock: Conn, listenOk: bool, script: seq<ReadResult>, cancelAt: nat)
    returns (r: Option<Run>)
    requires sock.Unused()
    modifies sock
    ensures r == if listenOk then Some(Listener(script, cancelAt)) else None
    ensures sock.closeCount == if listenOk && cancelAt <= |script| then 1 else 0
  {
    sock.Dial(listenOk);
    if !listenOk {
      return None;
    }
    var forwarded: seq<seq<byte>> := [];
    var i := 0;
    while true
      invariant 0 <= i <= |script| && i <= cancelAt
      invariant forwarded == DataChunks(script[..i], BufferSize)
      invariant sock.closeCount == 0
      decreases |script| - i
    {
      if i == cancelAt {
        sock.Close();
        return Some(Run(forwarded, Cancelled));
      }
      if i == |script| {
        assert script[..i] == script;
        return Some(Run(forwarded, Pending));
      }
      var chunk := ReadFresh(script[i]);
      DataChunksAppend(script[..i], [script[i]], BufferSize);
      assert script[..i + 1] == script[..i] + [script[i]];
      forwarded := forwarded + chunk;
      i := i + 1;
    }
  }

  /** The outbound pump never stops on a failed read: it sends the packets it read,
      in order and cut to the buffer. It stops with a write error only after
      `budget` frames, and when it is not cancelled it stops at the first refused
      write, or, with no write refused, has sent every packet. */
  lemma TunToConnSkipsReadErrors(script: seq<ReadResult>, cap: nat, budget: nat, cancelAt: nat)
    ensures var r := TunToConn(script, cap, budget, cancelAt); var all := DataChunks(script, cap);
      r.why != ReadFailed &&
      |r.out| <= |all| && r.out == all[..|r.out|] &&
      (r.why == WriteFailed ==> budget < |all| && r.out == all[..budget]) &&
      (2 * |script| < cancelAt && budget < |all| ==> r == Run(all[..budget], WriteFailed)) &&
      (2 * |script| < cancelAt && |all| <= budget ==> r == Run(all, Pending))
  {
    TunToConnNeverReadFailed(script, cap, budget, cancelAt);
    TunToConnPrefix(script, cap, budget, cancelAt);
    TunToConnWriteFailedAtBudget(script, cap, budget, cancelAt);
    var r := TunToConn(script, cap, budget, cancelAt);
    if r.why == WriteFailed {
      assert r.out == DataChunks(script, cap)[..budget];
    }
    if 2 * |script| < cancelAt {
      if budget < |DataChunks(script, cap)| {
        TunToConnStopsAtRefusedWrite(script, cap, budget, cancelAt);
      } else {
        TunToConnComplete(script, cap, budget, cancelAt);
      }
    }
  }

  /** A refused write is what ends the goroutine only once `budget` frames are out,
      and there was one more packet to send. */
  lemma {:induction false} TunToConnWriteFailedAtBudget(script: seq<ReadResult>, cap: nat, budget: nat, cancelAt: nat)
    ensures var r := TunToConn(script, cap, budget, cancelAt);
      r.why == WriteFailed ==> |r.out| == budget < |DataChunks(script, cap)|
    decreases |script|
  {
    if cancelAt != 0 && script != [] {
      var rest := DataChunks(script[1..], cap);
      if !script[0].Data? {
        assert DataChunks(script, cap) == rest;
        if cancelAt != 1 {
          TunToConnWriteFailedAtBudget(script[1..], cap, budget, cancelAt - 2);
        }
      } else {
        assert DataChunks(script, cap) == [Clip(script[0].bytes, cap)] + rest;
        if budget != 0 {
          TunToConnWriteFailedAtBudget(script[1..], cap, budget - 1, cancelAt - 1);
        }
      }
    }
  }

  /** Not cancelled before the script is used up, the goroutine stops at the first
      refused write, having sent every packet before it. */
  lemma {:induction false} TunToConnStopsAtRefusedWrite(script: seq<ReadResult>, cap: nat, budget: nat, cancelAt: nat)
    requires 2 * |script| < cancelAt && budget < |DataChunks(script, cap)|
    ensures TunToConn(script, cap, budget, cancelAt) == Run(DataChunks(script, cap)[..budget], WriteFailed)
    decreases |script|
  {
    var rest := DataChunks(script[1..], cap);
    if !script[0].Data? {
      assert DataChunks(script, cap) == rest;
      TunToConnStopsAtRefusedWrite(script[1..], cap, budget, cancelAt - 2);
    } else {
      var c := Clip(script[0].bytes, cap);
      assert DataChunks(script, cap) == [c] + rest;
      if budget != 0 {
        TunToConnStopsAtRefusedWrite(script[1..], cap, budget - 1, cancelAt - 1);
        assert ([c] + rest)[..budget] == [c] + rest[..budget - 1];
      }
    }
  }

  lemma {:induction false} TunToConnNeverReadFailed(script: seq<ReadResult>, cap: nat, budget: nat, cancelAt: nat)
    ensures TunToConn(script, cap, budget, cancelAt).why != ReadFailed
    decreases |script|
  {
    if cancelAt != 0 && script != [] {
      if !script[0].Data? {
        if cancelAt != 1 {
          TunToConnNeverReadFailed(script[1..], cap, budget, cancelAt - 2);
        }
      } else if budget != 0 {
        TunToConnNeverReadFailed(script[1..], cap, budget - 1, cancelAt - 1);
      }
    }
  }

  lemma {:induction false} TunToConnPrefix(script: seq<ReadResult>, cap: nat, budget: nat, cancelAt: nat)
    ensures TunToConn(script, cap, budget, cancelAt).out <= DataChunks(script, cap)
    decreases |script|
  {
    if cancelAt != 0 && script != [] {
      if !script[0].Data? {
        if cancelAt != 1 {
          TunToConnPrefix(script[1..], cap, budget, cancelAt - 2);
        }
      } else if budget != 0 {
        TunToConnPrefix(script[1..], cap, budget - 1, cancelAt - 1);
        ConsKeepsPrefix(Clip(script[0].bytes, cap), TunToConn(script[1..], cap, budget - 1, cancelAt - 1).out,
                        DataChunks(script[1..], cap));
      }
    }
  }

  /** Putting the same chunk in front of two sequences keeps one a prefix of the other. */
  lemma ConsKeepsPrefix(c: seq<byte>, xs: seq<seq<byte>>, ys: seq<seq<byte>>)
    requires xs <= ys
    ensures [c] + xs <= [c] + ys
  {
    assert ([c] + ys)[..1 + |xs|] == [c] + ys[..|xs|];
  }

  lemma {:induction false} TunToConnComplete(script: seq<ReadResult>, cap: nat, budget: nat, cancelAt: nat)
    requires 2 * |script| < cancelAt && |DataChunks(script, cap)| <= budget
    ensures TunToConn(script, cap, budget, cancelAt) == Run(DataChunks(script, cap), Pending)
    decreases |script|
  {
    if script != [] {
      var rest := DataChunks(script[1..], cap);
      if !script[0].Data? {
        assert DataChunks(script, cap) == rest;
        TunToConnComplete(script[1..], cap, budget, cancelAt - 2);
      } else {
        assert DataChunks(script, cap) == [Clip(script[0].bytes, cap)] + rest;
        TunToConnComplete(script[1..], cap, budget - 1, cancelAt - 1);
      }
    }
  }

  /** The index of the first read that failed other than by timing out, or the
      script's length when there is none. */
  function FirstFailure(script: seq<ReadResult>): (f: nat)
    ensures f <= |script|
    ensures f < |script| ==> script[f].Failed?
    ensures Failed !in script[..f]
    decreases |script|
  {
    if script == [] || script[0].Failed? then 0
    else 1 + FirstFailure(script[1..])
  }

  /** The inbound loop survives timeouts: it stops on a read error exactly when it
      reaches the first non-timeout failure before cancellation with every packet
      before it written, and it stops on a write error only at the first refused
      write before that failure, which ends it whenever it comes before
      cancellation. It delivers the packets in order and cut to the buffer, and,
      with no failure, no cancellation and no refused write, delivers every one. */
  lemma ConnToTunRetriesTimeouts(script: seq<ReadResult>, cap: nat, budget: nat, cancelAt: nat)
    ensures var r := ConnToTun(script, cap, budget, cancelAt); var all := DataChunks(script, cap);
      var f := FirstFailure(script); var before := DataChunks(script[..f], cap);
      (r.why == ReadFailed <==> f < |script| && f < cancelAt && |before| <= budget) &&
      (r.why == ReadFailed ==> r.out == before) &&
      (r.why == WriteFailed ==> budget < |before| && r.out == before[..budget]) &&
      (f < cancelAt && budget < |before| ==> r == Run(before[..budget], WriteFailed)) &&
      |r.out| <= |all| && r.out == all[..|r.out|] &&
      (Failed !in script && |script| < cancelAt && |all| <= budget ==> r == Run(all, Pending))
  {
    ConnToTunStopsAtFailure(script, cap, budget, cancelAt);
    ConnToTunPrefix(script, cap, budget, cancelAt);
    ConnToTunWriteFailedAtBudget(script, cap, budget, cancelAt);
    var r := ConnToTun(script, cap, budget, cancelAt);
    var f := FirstFailure(script);
    if r.why == WriteFailed {
      assert script == script[..f] + script[f..];
      DataChunksAppend(script[..f], script[f..], cap);
      assert r.out == DataChunks(script, cap)[..budget];
    }
    if f < cancelAt && budget < |DataChunks(script[..f], cap)| {
      ConnToTunStopsAtRefusedWrite(script, cap, budget, cancelAt);
    }
    if Failed !in script && |script| < cancelAt && |DataChunks(script, cap)| <= budget {
      ConnToTunComplete(script, cap, budget, cancelAt);
    }
  }

  /** A refused write to the device is what ends the inbound loop only once `budget`
      packets are out, with one more read before the first failure. */
  lemma {:induction false} ConnToTunWriteFailedAtBudget(script: seq<ReadResult>, cap: nat, budget: nat, cancelAt: nat)
    ensures var r := ConnToTun(script, cap, budget, cancelAt);
      r.why == WriteFailed ==> |r.out| == budget < |DataChunks(script[..FirstFailure(script)], cap)|
    decreases |script|
  {
    if cancelAt != 0 && script != [] && !script[0].Failed? {
      ChunksBeforeFailure(script, cap);
      if script[0].Timeout? {
        ConnToTunWriteFailedAtBudget(script[1..], cap, budget, cancelAt - 1);
      } else if budget != 0 {
        ConnToTunWriteFailedAtBudget(script[1..], cap, budget - 1, cancelAt - 1);
      }
    }
  }

  /** Reaching, before cancellation, more packets than writes the device accepts,
      the inbound loop stops at the first refused write, having written exactly the
      packets read before it. */
  lemma {:induction false} ConnToTunStopsAtRefusedWrite(script: seq<ReadResult>, cap: nat, budget: nat, cancelAt: nat)
    requires FirstFailure(script) < cancelAt && budget < |DataChunks(script[..FirstFailure(script)], cap)|
    ensures ConnToTun(script, cap, budget, cancelAt)
      == Run(DataChunks(script[..FirstFailure(script)], cap)[..budget], WriteFailed)
    decreases |script|
  {
    assert script[..0] == [];
    ChunksBeforeFailure(script, cap);
    var rest := DataChunks(script[1..][..FirstFailure(script[1..])], cap);
    if script[0].Timeout? {
      ConnToTunStopsAtRefusedWrite(script[1..], cap, budget, cancelAt - 1);
    } else {
      var c := Clip(script[0].bytes, cap);
      if budget != 0 {
        ConnToTunStopsAtRefusedWrite(script[1..], cap, budget - 1, cancelAt - 1);
        assert ([c] + rest)[..budget] == [c] + rest[..budget - 1];
      }
    }
  }

  /** The inbound loop ends with a read error iff it reaches the first non-timeout
      failure: before cancellation, and with every packet before it written. Nothing
      after that failure is written. */
  lemma {:induction false} ConnToTunStopsAtFailure(script: seq<ReadResult>, cap: nat, budget: nat, cancelAt: nat)
    ensures var r := ConnToTun(script, cap, budget, cancelAt);
      var f := FirstFailure(script); var before := DataChunks(script[..f], cap);
      (r.why == ReadFailed <==> f < |script| && f < cancelAt && |before| <= budget) &&
      (r.why == ReadFailed ==> r.out == before)
    decreases |script|
  {
    if script == [] || script[0].Failed? {
      assert script[..FirstFailure(script)] == [];
    } else if cancelAt != 0 {
      ChunksBeforeFailure(script, cap);
      if script[0].Timeout? {
        assert ConnToTun(script, cap, budget, cancelAt) == ConnToTun(script[1..], cap, budget, cancelAt - 1);
        ConnToTunStopsAtFailure(script[1..], cap, budget, cancelAt - 1);
      } else if budget != 0 {
        var tail := ConnToTun(script[1..], cap, budget - 1, cancelAt - 1);
        assert ConnToTun(script, cap, budget, cancelAt) == Run([Clip(script[0].bytes, cap)] + tail.out, tail.why);
        ConnToTunStopsAtFailure(script[1..], cap, budget - 1, cancelAt - 1);
      }
    }
  }

  /** Past a first read that did not fail, the packets before the first failure are
      that read's (if it was data) followed by those of the rest of the script. */
  lemma ChunksBeforeFailure(script: seq<ReadResult>, cap: nat)
    requires script != [] && !script[0].Failed?
    ensures var f := FirstFailure(script); var g := FirstFailure(script[1..]);
      f == 1 + g &&
      DataChunks(script[..f], cap)
        == (if script[0].Data? then [Clip(script[0].bytes, cap)] else []) + DataChunks(script[1..][..g], cap)
  {
    var f := FirstFailure(script);
    assert script[..f][0] == script[0];
    assert script[..f][1..] == script[1..][..f - 1];
  }

  lemma {:induction false} ConnToTunPrefix(script: seq<ReadResult>, cap: nat, budget: nat, cancelAt: nat)
    ensures ConnToTun(script, cap, budget, cancelAt).out <= DataChunks(script, cap)
    decreases |script|
  {
    if cancelAt != 0 && script != [] && !script[0].Failed? {
      if script[0].Timeout? {
        ConnToTunPrefix(script[1..], cap, budget, cancelAt - 1);
      } else if budget != 0 {
        ConnToTunPrefix(script[1..], cap, budget - 1, cancelAt - 1);
        ConsKeepsPrefix(Clip(script[0].bytes, cap), ConnToTun(script[1..], cap, budget - 1, cancelAt - 1).out,
                        DataChunks(script[1..], cap));
      }
    }
  }

  lemma {:induction false} ConnToTunComplete(script: seq<ReadResult>, cap: nat, budget: nat, cancelAt: nat)
    requires Failed !in script && |script| < cancelAt && |DataChunks(script, cap)| <= budget
    ensures ConnToTun(script, cap, budget, cancelAt) == Run(DataChunks(script, cap), Pending)
    decreases |script|
  {
    if script != [] {
      assert script[0] in script;
      assert forall x :: x in script[1..] ==> x in script;
      var rest := DataChunks(script[1..], cap);
      if script[0].Timeout? {
        assert DataChunks(script, cap) == rest;
        ConnToTunComplete(script[1..], cap, budget, cancelAt - 1);
      } else {
        assert DataChunks(script, cap) == [Clip(script[0].bytes, cap)] + rest;
        ConnToTunComplete(script[1..], cap, budget - 1, cancelAt - 1);
      }
    }
  }

  /** Every chunk written to the device is at most 1500 bytes. */
  lemma ChunksFitBuffer(script: seq<ReadResult>, budget: nat, cancelAt: nat)
    ensures forall p :: p in ConnToTun(script, BufferSize, budget, cancelAt).out ==> |p| <= BufferSize
  {
    ConnToTunRetriesTimeouts(script, BufferSize, budget, cancelAt);
    var r := ConnToTun(script, BufferSize, budget, cancelAt);
    var all := DataChunks(script, BufferSize);
    DataChunksFit(script, BufferSize);
    forall p | p in r.out ensures |p| <= BufferSize {
      var j :| 0 <= j < |r.out| && r.out[j] == p;
      assert p == all[j];
    }
  }
}
