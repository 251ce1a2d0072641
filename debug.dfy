/** tun-e3372h-debug.go: the variant that writes a 39-byte first frame with the
    client UUID over plain `ws://…/tun`, reads no server frame, and sleeps 1 s
    between sessions. */
module Debug {
  import opened Bytes
  import opened Transport
  import Addr
  import Relay
  import Supervisor
  import Stable

  /** The first frame `dialVLESSWS` writes, byte for byte as the literal has it. */
  function VlessHandshake(): (b: seq<byte>)
    ensures |b| == 39
  {
    [
      0xd4, 0x33, 0x08, 0xce, 0x0c, 0xab, 0x46, 0x9d, 0x8f, 0x4e, 0x87, 0xc5, 0xa9, 0xd8, 0xe2, 0xbf,
      0x00,
      0, 0, 0, 0, 0, 0, 0, 0, 0, 0, 0, 0, 0, 0, 0, 0,
      0x00,
      0x03, 0x00,
      0x00, 0x00,
      0x01]
  }

  /** The frame opens with the client UUID and past it is zero except the command
      byte (3 at index 34) and the final address type byte (1 at index 38). */
  lemma FrameBytes()
    ensures VlessHandshake()[..16] == Stable.ClientId
    ensures forall i | 16 <= i < 39 :: VlessHandshake()[i] == if i == 34 then 3 else if i == 38 then 1 else 0
  {
    var b := VlessHandshake();
    assert b[..16] == Stable.ClientId;
  }

  /** The first 37 bytes agree with the 42-byte layout, UUID included; at index 37,
      where that layout has the address type 1, this frame has 0, and its 1 comes
      one byte later. */
  lemma DivergesFromStableAt37()
    ensures VlessHandshake()[..37] == Stable.VlessHandshake()[..37]
    ensures VlessHandshake()[37] == 0 && Stable.VlessHandshake()[37] == 1
  {
    var d, s := VlessHandshake(), Stable.VlessHandshake();
    FrameBytes();
    Stable.TailBytes();
    assert s[..16] == Stable.ClientId by {
      Stable.UuidField();
    }
    forall i | 0 <= i < 37 ensures d[i] == s[i] {
      if i < 16 {
        assert d[i] == d[..16][i] && s[i] == s[..16][i];
      }
    }
  }

  /** The loop and dialer constants of this variant. */
  const Config := Supervisor.Variant(VlessHandshake(), false, 2048, 1)

  /** `vpsTarget[:len(vpsTarget)-5]`, the host `main` resolves. */
  function VpsHost(target: string): (host: string)
    requires 5 <= |target|
    ensures |host| == |target| - 5 && host == target[..|host|]
  {
    Addr.DropSuffix(target, 5)
  }

  /** The strip recovers the host exactly when the argument ends in a 4-digit port. */
  lemma VpsHostNeedsFourDigitPort(host: string, port: string)
    requires 5 <= |host + ":" + port|
    ensures VpsHost(host + ":" + port) == host <==> |port| == 4
  {
    Addr.DropSuffixRecoversHost(host, port, 5);
  }

  /** `fmt.Sprintf("ws://%s/tun", target)`. */
  function WsUrl(target: string): (url: string)
    ensures Addr.TargetOf(url, "ws://", "/tun") == Some(target)
  {
    Addr.UrlKeepsTarget("ws://", target, "/tun");
    Addr.Url("ws://", target, "/tun")
  }

  /** dialVLESSWS: dial, write the frame, and hand the connection out without
      reading; a failed write closes it. */
  method DialVLESSWS(c: Conn, s: DialScript) returns (err: Option<DialError>)
    requires c.Unused()
    modifies c
    ensures err == None <==> s.upgraded && s.writeOk
    ensures err == None ==> c.open && c.written == [VlessHandshake()] && c.readCount == 0 && c.closeCount == 0
    ensures err != None ==> !c.open && c.closeCount == (if s.upgraded then 1 else 0) && c.written == []
  {
    err := c.Establish(VlessHandshake(), false, s);
  }

  /** startL3Tunnel: a failed dial sleeps 5 s; a session is closed once, after the
      inbound pump returns, and followed by a 1 s sleep. */
  lemma RetryTrace(attempts: seq<DialScript>)
    ensures var t := Supervisor.Trace(Config, attempts);
      (forall i :: 0 <= i < |t| && t[i] == Supervisor.Dialed(false) ==> i + 1 < |t| && t[i + 1] == Supervisor.Slept(5)) &&
      (forall i :: 0 <= i < |t| && t[i] == Supervisor.Closed ==>
         1 <= i && t[i - 1] == Supervisor.Relayed && i + 1 < |t| && t[i + 1] == Supervisor.Slept(1)) &&
      Supervisor.Count(t, Supervisor.Closed) == Supervisor.Count(t, Supervisor.Dialed(true))
  {
    Supervisor.SessionRules(Config, attempts);
  }

  /** The outbound pump's 2048-byte buffer bounds every frame. */
  lemma FramesFitBuffer(script: seq<Relay.ReadResult>, budget: nat, cancelAt: nat)
    ensures forall f :: f in Relay.Outbound(script, Config.bufferSize, budget, cancelAt).out ==> |f| <= 2048
  {
    Relay.OutboundFramesFit(script, Config.bufferSize, budget, cancelAt);
  }
}
