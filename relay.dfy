/** The two packet pumps every WebSocket variant runs for one session:
    `forwardTUNtoVLESS` (device to transport) and `forwardVLESStoTUN`
    (transport to device). The six variants' pumps are the same text; they
    differ only in the size of the outbound buffer, a parameter here.

    Each pump is modelled on its own, sequentially, against a scripted world:
    - `script` is what the successive blocking reads return; when it runs out the
      pump is still waiting in a read (`Pending`), no error is invented;
    - `budget` is how many writes succeed before the first one fails;
    - `cancelAt` is the first iteration whose `select` sees `ctx.Done()`
      (cancellation is monotone, and these pumps look at it once per iteration). */
module Relay {
  import opened Bytes

  /** The outcome of one blocking read. */
  datatype ReadResult = Data(bytes: seq<byte>) | Timeout | Failed

  /** Why a pump loop ended, or `Pending` when it is still blocked in a read. */
  datatype Stop = Cancelled | ReadFailed | WriteFailed | Pending

  /** The frames (or packets) a pump wrote, in order, and why it stopped. */
  datatype Run = Run(out: seq<seq<byte>>, why: Stop)

  function Prepend(f: seq<byte>, r: Run): Run
  {
    Run([f] + r.out, r.why)
  }

  /** forwardTUNtoVLESS: read one packet into the `cap`-byte buffer, write `buf[:n]`
      as one binary frame, and stop at the first read or write error. */
  function Outbound(script: seq<ReadResult>, cap: nat, budget: nat, cancelAt: nat): (r: Run)
    ensures |r.out| <= budget && |r.out| <= |script|
    ensures r.why == WriteFailed ==> |r.out| == budget
    decreases |script|
  {
    if cancelAt == 0 then Run([], Cancelled)
    else if script == [] then Run([], Pending)
    else if !script[0].Data? then Run([], ReadFailed)
    else if budget == 0 then Run([], WriteFailed)
    else Prepend(Clip(script[0].bytes, cap), Outbound(script[1..], cap, budget - 1, cancelAt - 1))
  }

  /** forwardVLESStoTUN: read one whole message, write it to the device as it is,
      and stop at the first read or write error. */
  function Inbound(script: seq<ReadResult>, budget: nat, cancelAt: nat): (r: Run)
    ensures |r.out| <= budget && |r.out| <= |script|
    ensures r.why == WriteFailed ==> |r.out| == budget
    decreases |script|
  {
    if cancelAt == 0 then Run([], Cancelled)
    else if script == [] then Run([], Pending)
    else if !script[0].Data? then Run([], ReadFailed)
    else if budget == 0 then Run([], WriteFailed)
    else Prepend(script[0].bytes, Inbound(script[1..], budget - 1, cancelAt - 1))
  }

  /** `tunIface.Read(buf)`: the device delivers one packet; at most `buf.Length`
      bytes of it land at the front of the buffer. */
  method ReadInto(buf: array<byte>, r: ReadResult) returns (n: nat, ok: bool)
    modifies buf
    ensures ok == r.Data?
    ensures ok ==> n <= buf.Length && buf[..n] == Clip(r.bytes, buf.Length)
  {
    if !r.Data? {
      return 0, false;
    }
    n := Min(|r.bytes|, buf.Length);
    var j := 0;
    while j < n
      invariant 0 <= j <= n
      invariant buf[..j] == r.bytes[..j]
    {
      buf[j] := r.bytes[j];
      j := j + 1;
      assert buf[..j] == buf[..j - 1] + [buf[j - 1]];
    }
    ok := true;
  }

  /** The outbound pump, with its buffer allocated once and refilled by every read. */
  method ForwardTunToVless(bufferSize: nat, script: seq<ReadResult>, budget: nat, cancelAt: nat)
    returns (frames: seq<seq<byte>>, why: Stop)
    ensures Run(frames, why) == Outbound(script, bufferSize, budget, cancelAt)
  {
    var buf := new byte[bufferSize](_ => 0);
    frames := [];
    var i := 0;
    while true
      invariant 0 <= i <= |script| && i <= budget && i <= cancelAt
      invariant buf.Length == bufferSize
      invariant Outbound(script, bufferSize, budget, cancelAt)
        == var rest := Outbound(script[i..], bufferSize, budget - i, cancelAt - i);
           Run(frames + rest.out, rest.why)
      decreases |script| - i
    {
      if i == cancelAt {
        return frames, Cancelled;
      }
      if i == |script| {
        return frames, Pending;
      }
      var n, ok := ReadInto(buf, script[i]);
      if !ok {
        return frames, ReadFailed;
      }
      if i == budget {
        return frames, WriteFailed;
      }
      assert script[i..][1..] == script[i + 1..];
      frames := frames + [buf[..n]];
      i := i + 1;
    }
  }

  /** The inbound pump: each message read is written to the device unchanged. */
  method ForwardVlessToTun(script: seq<ReadResult>, budget: nat, cancelAt: nat)
    returns (packets: seq<seq<byte>>, why: Stop)
    ensures Run(packets, why) == Inbound(script, budget, cancelAt)
  {
    packets := [];
    var i := 0;
    while true
      invariant 0 <= i <= |script| && i <= budget && i <= cancelAt
      invariant Inbound(script, budget, cancelAt)
        == var rest := Inbound(script[i..], budget - i, cancelAt - i);
           Run(packets + rest.out, rest.why)
      decreases |script| - i
    {
      if i == cancelAt {
        return packets, Cancelled;
      }
      if i == |script| {
        return packets, Pending;
      }
      if !script[i].Data? {
        return packets, ReadFailed;
      }
      if i == budget {
        return packets, WriteFailed;
      }
      assert script[i..][1..] == script[i + 1..];
      packets := packets + [script[i].bytes];
      i := i + 1;
    }
  }

  /** Frames leave in read order: the j-th frame is the j-th read, cut to the
      buffer, and every read before the last frame was a packet. */
  lemma {:induction false} OutboundPreservesOrder(script: seq<ReadResult>, cap: nat, budget: nat, cancelAt: nat)
    ensures var r := Outbound(script, cap, budget, cancelAt);
      |r.out| <= |script| &&
      forall j :: 0 <= j < |r.out| ==> script[j].Data? && r.out[j] == Clip(script[j].bytes, cap)
  {
    if cancelAt != 0 && script != [] && script[0].Data? && budget != 0 {
      OutboundPreservesOrder(script[1..], cap, budget - 1, cancelAt - 1);
    }
  }

  /** No outbound frame is longer than the buffer. */
  lemma OutboundFramesFit(script: seq<ReadResult>, cap: nat, budget: nat, cancelAt: nat)
    ensures forall f :: f in Outbound(script, cap, budget, cancelAt).out ==> |f| <= cap
  {
    OutboundPreservesOrder(script, cap, budget, cancelAt);
  }

  /** The outbound pump stops at its first error: with `k` frames sent, the loop
      ended in iteration `k`, for the reason that iteration met first. */
  lemma {:induction false} OutboundStopsAtFirstError(script: seq<ReadResult>, cap: nat, budget: nat, cancelAt: nat)
    ensures var r := Outbound(script, cap, budget, cancelAt); var k := |r.out|;
      k <= budget && k <= cancelAt && k <= |script| &&
      (r.why == Cancelled <==> k == cancelAt) &&
      (r.why == Pending <==> k < cancelAt && k == |script|) &&
      (r.why == ReadFailed <==> k < cancelAt && k < |script| && !script[k].Data?) &&
      (r.why == WriteFailed <==> k < cancelAt && k < |script| && script[k].Data? && k == budget)
  {
    if cancelAt != 0 && script != [] && script[0].Data? && budget != 0 {
      OutboundStopsAtFirstError(script[1..], cap, budget - 1, cancelAt - 1);
    }
  }

  /** Packets reach the device verbatim and in the order they were read. */
  lemma {:induction false} InboundVerbatim(script: seq<ReadResult>, budget: nat, cancelAt: nat)
    ensures var r := Inbound(script, budget, cancelAt);
      |r.out| <= |script| &&
      forall j :: 0 <= j < |r.out| ==> script[j].Data? && r.out[j] == script[j].bytes
  {
    if cancelAt != 0 && script != [] && script[0].Data? && budget != 0 {
      InboundVerbatim(script[1..], budget - 1, cancelAt - 1);
    }
  }

  /** The inbound pump stops at its first error, and `ctx.Done()` is only looked
      at before a read: with `k` packets delivered, the loop ended in iteration `k`. */
  lemma {:induction false} InboundStopsAtFirstError(script: seq<ReadResult>, budget: nat, cancelAt: nat)
    ensures var r := Inbound(script, budget, cancelAt); var k := |r.out|;
      k <= budget && k <= cancelAt && k <= |script| &&
      (r.why == Cancelled <==> k == cancelAt) &&
      (r.why == Pending <==> k < cancelAt && k == |script|) &&
      (r.why == ReadFailed <==> k < cancelAt && k < |script| && !script[k].Data?) &&
      (r.why == WriteFailed <==> k < cancelAt && k < |script| && script[k].Data? && k == budget)
  {
    if cancelAt != 0 && script != [] && script[0].Data? && budget != 0 {
      InboundStopsAtFirstError(script[1..], budget - 1, cancelAt - 1);
    }
  }
}
