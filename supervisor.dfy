/** `startL3Tunnel`, the retry loop the six WebSocket variants share:
    check `ctx.Done()`, dial, and on failure sleep and try again; on success
    start the outbound pump with `go`, run the inbound pump inline, and when it
    returns close the connection and sleep before the next attempt.

    The loop is driven by a script of dial outcomes and by `cancelAt`, the
    first iteration whose `select` sees `ctx.Done()`. It emits a trace of what
    it does. The pumps themselves are the `Relay` module's; here the inbound
    pump is a call that returns, and the outbound goroutine is only started. */
module Supervisor {
  import opened Bytes
  import opened Transport

  /** What distinguishes one variant's loop and dialer from another's. */
  datatype Variant = Variant(
    handshake: seq<byte>,  // the first frame dialVLESSWS writes
    awaitsAck: bool,       // whether dialVLESSWS reads one server frame before returning
    bufferSize: nat,       // the outbound pump's buffer
    sessionBackoff: nat    // seconds slept after a session ends
  )

  /** Seconds slept after a failed dial, in every variant. */
  const DialRetrySeconds: nat := 5

  datatype Event =
    | Dialed(ok: bool)       // dialVLESSWS returned, with or without a connection
    | Spawned               // `go forwardTUNtoVLESS(...)`
    | Relayed               // `forwardVLESStoTUN(...)` returned
    | Closed                // `conn.Close()`
    | Slept(seconds: nat)   // `time.Sleep(...)`

  /** The events of one pass through the loop body that got past `ctx.Done()`. */
  function Iteration(v: Variant, a: DialScript): (e: seq<Event>)
    ensures |e| >= 2 && e[0] == Dialed(Succeeds(v.awaitsAck, a)) && e[|e| - 1].Slept?
    ensures Closed in e <==> Succeeds(v.awaitsAck, a)
  {
    if Succeeds(v.awaitsAck, a) then [Dialed(true), Spawned, Relayed, Closed, Slept(v.sessionBackoff)]
    else [Dialed(false), Slept(DialRetrySeconds)]
  }

  /** The trace of the loop once it has run one iteration per attempt. */
  function Trace(v: Variant, attempts: seq<DialScript>): (t: seq<Event>)
    ensures 2 * |attempts| <= |t| <= 5 * |attempts|
    decreases |attempts|
  {
    if attempts == [] then []
    else Trace(v, attempts[..|attempts| - 1]) + Iteration(v, attempts[|attempts| - 1])
  }

  /** What became of the connection object of attempt `a` once its iteration is over:
      closed, closed once exactly when the dial got that far, and carrying the first
      frame when it was written. */
  predicate Finished(v: Variant, a: DialScript, c: Conn)
    reads c
  {
    !c.open &&
    c.closeCount == (if c.dialed then 1 else 0) &&
    c.dialed == a.upgraded &&
    c.written == (if a.upgraded && a.writeOk then [v.handshake] else [])
  }

  /** One pass through the loop body after `ctx.Done()` was not seen: dial, and either
      sleep after a failure or relay, close and sleep. */
  method Attempt(v: Variant, a: DialScript) returns (events: seq<Event>, c: Conn)
    ensures fresh(c) && Finished(v, a, c)
    ensures events == Iteration(v, a)
  {
    c := new Conn();
    var err := c.Establish(v.handshake, v.awaitsAck, a);
    if err != None {
      events := [Dialed(false), Slept(DialRetrySeconds)];
    } else {
      events := [Dialed(true), Spawned, Relayed];
      c.Close();
      events := events + [Closed, Slept(v.sessionBackoff)];
    }
  }

  /** The loop itself. Each attempt gets a fresh connection object; `conns`
      collects them so that the contract can say what became of each. */
  method StartL3Tunnel(v: Variant, attempts: seq<DialScript>, cancelAt: nat)
    returns (trace: seq<Event>, cancelled: bool, ghost conns: seq<Conn>)
    ensures cancelled <==> cancelAt <= |attempts|
    ensures trace == Trace(v, attempts[..Min(cancelAt, |attempts|)])
    ensures |conns| == Min(cancelAt, |attempts|)
    ensures forall j :: 0 <= j < |conns| ==> Finished(v, attempts[j], conns[j])
  {
    trace, conns := [], [];
    var i := 0;
    while true
      invariant 0 <= i <= |attempts| && i <= cancelAt
      invariant trace == Trace(v, attempts[..i])
      invariant |conns| == i
      invariant forall j :: 0 <= j < i ==> Finished(v, attempts[j], conns[j])
      decreases |attempts| - i
    {
      if i == cancelAt {
        return trace, true, conns;
      }
      if i == |attempts| {
        return trace, false, conns;
      }
      var events, c := Attempt(v, attempts[i]);
      assert attempts[..i + 1][..i] == attempts[..i];
      assert Trace(v, attempts[..i + 1]) == trace + events;
      trace := trace + events;
      conns := conns + [c];
      i := i + 1;
    }
  }

  /** What the loop body always does right after `e`: `next` is the following event,
      `None` at the end of the trace. */
  predicate MayFollow(e: Event, next: Option<Event>, backoff: nat)
  {
    match e
    case Dialed(ok) => next == Some(if ok then Spawned else Slept(DialRetrySeconds))
    case Spawned => next == Some(Relayed)
    case Relayed => next == Some(Closed)
    case Closed => next == Some(Slept(backoff))
    case Slept(_) => next == None || next.value.Dialed?
  }

  function Next(t: seq<Event>, i: nat): Option<Event>
    requires i < |t|
  {
    if i + 1 < |t| then Some(t[i + 1]) else None
  }

  /** The neighbour rules every trace obeys. */
  ghost predicate WellOrdered(t: seq<Event>, backoff: nat)
  {
    (t != [] ==> t[0].Dialed?) &&
    forall i :: 0 <= i < |t| ==> MayFollow(t[i], Next(t, i), backoff)
  }

  /** The number of times `e` occurs in `t`. */
  function Count(t: seq<Event>, e: Event): nat
    decreases |t|
  {
    if t == [] then 0 else (if t[0] == e then 1 else 0) + Count(t[1..], e)
  }

  /** The number of attempts `dialVLESSWS` turns into a connection. */
  function Successes(v: Variant, attempts: seq<DialScript>): nat
    decreases |attempts|
  {
    if attempts == [] then 0
    else Successes(v, attempts[..|attempts| - 1]) + (if Succeeds(v.awaitsAck, attempts[|attempts| - 1]) then 1 else 0)
  }

  lemma {:induction false} CountAppend(a: seq<Event>, b: seq<Event>, e: Event)
    ensures Count(a + b, e) == Count(a, e) + Count(b, e)
    decreases |a|
  {
    if a == [] {
      assert a + b == b;
    } else {
      assert (a + b)[1..] == a[1..] + b;
      CountAppend(a[1..], b, e);
    }
  }

  lemma {:induction false} AppendWellOrdered(t: seq<Event>, b: seq<Event>, backoff: nat)
    requires WellOrdered(t, backoff) && WellOrdered(b, backoff)
    requires t == [] || t[|t| - 1].Slept?
    requires b != [] ==> b[0].Dialed?
    ensures WellOrdered(t + b, backoff)
  {
    var u := t + b;
    forall i | 0 <= i < |u|
      ensures MayFollow(u[i], Next(u, i), backoff)
    {
      if i < |t| {
        assert MayFollow(t[i], Next(t, i), backoff);
        if i + 1 < |t| {
          assert Next(u, i) == Next(t, i);
        } else if b != [] {
          assert Next(u, i) == Some(b[0]);
        }
      } else {
        assert u[i] == b[i - |t|];
        assert MayFollow(b[i - |t|], Next(b, i - |t|), backoff);
        assert Next(u, i) == Next(b, i - |t|);
      }
    }
  }

  lemma IterationWellOrdered(v: Variant, a: DialScript)
    ensures WellOrdered(Iteration(v, a), v.sessionBackoff)
  {
    var b := Iteration(v, a);
    forall i | 0 <= i < |b|
      ensures MayFollow(b[i], Next(b, i), v.sessionBackoff)
    {
    }
  }

  /** Every trace is made of whole iterations: each event is followed by the one the
      loop body always does next, and the trace ends after a sleep (the loop only
      looks at `ctx.Done()` at the top, so no iteration is cut short). */
  lemma {:induction false} TraceWellOrdered(v: Variant, attempts: seq<DialScript>)
    ensures var t := Trace(v, attempts);
      WellOrdered(t, v.sessionBackoff) && (t == [] || t[|t| - 1].Slept?)
    decreases |attempts|
  {
    if attempts != [] {
      var prefix := attempts[..|attempts| - 1];
      TraceWellOrdered(v, prefix);
      var b := Iteration(v, attempts[|attempts| - 1]);
      IterationWellOrdered(v, attempts[|attempts| - 1]);
      AppendWellOrdered(Trace(v, prefix), b, v.sessionBackoff);
    }
  }

  /** A session ends only when the inbound pump returns: every `Closed` comes right
      after `Relayed`, never right after the outbound goroutine is started; and every
      sleep comes right after a failed dial or a close. */
  lemma CloseOnlyAfterRelay(t: seq<Event>, backoff: nat)
    requires WellOrdered(t, backoff)
    ensures forall i :: 0 <= i < |t| && t[i] == Closed ==> 1 <= i && t[i - 1] == Relayed
    ensures forall i :: 0 <= i < |t| && t[i].Slept? ==> 1 <= i && (t[i - 1] == Dialed(false) || t[i - 1] == Closed)
  {
    forall i | 0 <= i < |t| && (t[i] == Closed || t[i].Slept?)
      ensures 1 <= i
      ensures t[i] == Closed ==> t[i - 1] == Relayed
      ensures t[i].Slept? ==> t[i - 1] == Dialed(false) || t[i - 1] == Closed
    {
      assert i != 0;
      var p := t[i - 1];
      assert p.Dialed? || p.Spawned? || p.Relayed? || p.Closed? || p.Slept?;
    }
  }

  /** Close counts: each iteration dials once; the loop closes exactly the
      connections it was handed, once each, and never a failed dial's. */
  lemma {:induction false} TraceCounts(v: Variant, attempts: seq<DialScript>)
    ensures var t := Trace(v, attempts);
      Count(t, Dialed(true)) == Successes(v, attempts) &&
      Count(t, Closed) == Successes(v, attempts) &&
      Count(t, Dialed(true)) + Count(t, Dialed(false)) == |attempts|
    decreases |attempts|
  {
    if attempts != [] {
      var prefix := attempts[..|attempts| - 1];
      var b := Iteration(v, attempts[|attempts| - 1]);
      TraceCounts(v, prefix);
      CountAppend(Trace(v, prefix), b, Dialed(true));
      CountAppend(Trace(v, prefix), b, Dialed(false));
      CountAppend(Trace(v, prefix), b, Closed);
      IterationCounts(v, attempts[|attempts| - 1]);
    }
  }

  lemma IterationCounts(v: Variant, a: DialScript)
    ensures var b := Iteration(v, a); var n := if Succeeds(v.awaitsAck, a) then 1 else 0;
      Count(b, Dialed(true)) == n && Count(b, Closed) == n && Count(b, Dialed(false)) == 1 - n
  {
    var b := Iteration(v, a);
    forall e: Event, k {:trigger Count(b[k..], e)} | 0 <= k < |b| ensures Count(b[k..], e) == (if b[k] == e then 1 else 0) + Count(b[k + 1..], e) {
      assert b[k..][1..] == b[k + 1..];
    }
    assert b[|b|..] == [];
    assert b == b[0..];
  }

  /** The retry rules of one variant's trace, in the terms the loop is written in:
      a failed dial is followed by the 5 s sleep and nothing is closed; a session
      ends with exactly one `Closed`, right after the inbound pump returned, and
      then the variant's own sleep; and each iteration dials once. */
  lemma SessionRules(v: Variant, attempts: seq<DialScript>)
    ensures var t := Trace(v, attempts);
      (forall i :: 0 <= i < |t| && t[i] == Dialed(false) ==> i + 1 < |t| && t[i + 1] == Slept(DialRetrySeconds)) &&
      (forall i :: 0 <= i < |t| && t[i] == Closed ==>
         1 <= i && t[i - 1] == Relayed && i + 1 < |t| && t[i + 1] == Slept(v.sessionBackoff)) &&
      Count(t, Closed) == Count(t, Dialed(true)) &&
      Count(t, Dialed(true)) + Count(t, Dialed(false)) == |attempts|
  {
    var t := Trace(v, attempts);
    TraceWellOrdered(v, attempts);
    CloseOnlyAfterRelay(t, v.sessionBackoff);
    TraceCounts(v, attempts);
    forall i | 0 <= i < |t| && (t[i] == Dialed(false) || t[i] == Closed)
      ensures i + 1 < |t|
      ensures t[i] == Dialed(false) ==> t[i + 1] == Slept(DialRetrySeconds)
      ensures t[i] == Closed ==> t[i + 1] == Slept(v.sessionBackoff)
    {
      assert MayFollow(t[i], Next(t, i), v.sessionBackoff);
    }
  }
}
