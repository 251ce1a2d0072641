/** tun-simple-handshake.go: the variant whose first frame is the bare 16-byte
    client UUID, over plain `ws://…/tun`, with no server frame read and a 2 s
    pause between sessions. */
module SimpleHandshake {
  import opened Bytes
  import opened Transport
  import Addr
  import Relay
  import Supervisor
  import Stable

  /** The first frame `dialVLESSWS` writes: the UUID and nothing else. */
  function Uuid(): (b: seq<byte>)
    ensures |b| == 16
  {
    [
      0xd4, 0x33, 0x08, 0xce, 0x0c, 0xab, 0x46, 0x9d,
      0x8f, 0x4e, 0x87, 0xc5, 0xa9, 0xd8, 0xe2, 0xbf
    ]
  }

  /** The frame is the 42-byte layout's UUID field alone, the same one its comment names. */
  lemma UuidIsStablePrefix()
    ensures Uuid() == Stable.VlessHandshake()[..16]
    ensures Stable.ParseUuid(Stable.ClientUuid) == Some(Uuid())
  {
    Stable.UuidField();
    Stable.UuidMatchesComment();
  }

  /** The loop and dialer constants of this variant. */
  const Config := Supervisor.Variant(Uuid(), false, 2048, 2)

  /** `vpsTarget[:len(vpsTarget)-5]`, the host `main` resolves. */
  function VpsHost(target: string): (host: string)
    requires 5 <= |target|
    ensures |host| == |target| - 5 && host == target[..|host|]
  {
    Addr.DropSuffix(target, 5)
  }

  /** The strip recovers the host exactly when the argument ends in a 4-digit port. */
  lemma VpsHostNeedsFourDigitPort(host: string, port: string)
    requires 5 <= |host + ":" + port|
    ensures VpsHost(host + ":" + port) == host <==> |port| == 4
  {
    Addr.DropSuffixRecoversHost(host, port, 5);
  }

  /** `fmt.Sprintf("ws://%s/tun", target)`. */
  function WsUrl(target: string): (url: string)
    ensures Addr.TargetOf(url, "ws://", "/tun") == Some(target)
  {
    Addr.UrlKeepsTarget("ws://", target, "/tun");
    Addr.Url("ws://", target, "/tun")
  }

  /** dialVLESSWS: dial, write the UUID, and hand the connection out at once; a
      failed write closes it. */
  method DialVLESSWS(c: Conn, s: DialScript) returns (err: Option<DialError>)
    requires c.Unused()
    modifies c
    ensures err == None <==> s.upgraded && s.writeOk
    ensures err == None ==> c.open && c.written == [Uuid()] && c.readCount == 0 && c.closeCount == 0
    ensures err != None ==> !c.open && c.closeCount == (if s.upgraded then 1 else 0) && c.written == []
  {
    err := c.Establish(Uuid(), false, s);
  }

  /** startL3Tunnel: a failed dial sleeps 5 s; a session is closed once, after the
      inbound pump returns, and followed by a 2 s sleep. */
  lemma RetryTrace(attempts: seq<DialScript>)
    ensures var t := Supervisor.Trace(Config, attempts);
      (forall i :: 0 <= i < |t| && t[i] == Supervisor.Dialed(false) ==> i + 1 < |t| && t[i + 1] == Supervisor.Slept(5)) &&
      (forall i :: 0 <= i < |t| && t[i] == Supervisor.Closed ==>
         1 <= i && t[i - 1] == Supervisor.Relayed && i + 1 < |t| && t[i + 1] == Supervisor.Slept(2)) &&
      Supervisor.Count(t, Supervisor.Closed) == Supervisor.Count(t, Supervisor.Dialed(true))
  {
    Supervisor.SessionRules(Config, attempts);
  }

  /** The outbound pump's 2048-byte buffer bounds every frame. */
  lemma FramesFitBuffer(script: seq<Relay.ReadResult>, budget: nat, cancelAt: nat)
    ensures forall f :: f in Relay.Outbound(script, Config.bufferSize, budget, cancelAt).out ==> |f| <= 2048
  {
    Relay.OutboundFramesFit(script, Config.bufferSize, budget, cancelAt);
  }
}
