/** tun-android.go: the Android build. Its first frame, dialer, loop and pumps are
    the optimized build's; its routes are three `ip route` commands whose
    outcomes are ignored, and a routing error does not stop `main`. */
module Android {
  import opened Bytes
  import opened Transport
  import Addr
  import Relay
  import Routing
  import Supervisor
  import Optimized

  /** The first frame `dialVLESSWS` writes, byte for byte as the literal has it. */
  function VlessHandshake(): (b: seq<byte>)
    ensures |b| == 39
  {
    [
      0, 0, 0, 0, 0, 0, 0, 0, 0, 0, 0, 0, 0, 0, 0, 0, // UUID
      0x00, // Version
      0, 0, 0, 0, 0, 0, 0, 0, 0, 0, 0, 0, 0, 0, 0, 0, // Encryption
      0x00, // Reserved
      0x03, 0x00, // Command
      0x00, 0x00, // Port
      0x01 // Address type
    ]
  }

  /** The Android and optimized builds send the same bytes. */
  lemma SameFrameAsOptimized()
    ensures VlessHandshake() == Optimized.VlessHandshake()
  {
    var a, o := VlessHandshake(), Optimized.VlessHandshake();
    assert forall i | 0 <= i < 39 :: a[i] == o[i];
  }

  /** The loop and dialer constants of this variant. */
  const Config := Supervisor.Variant(VlessHandshake(), false, 2048, 1)

  /** `target[:len(target)-4]`: the TLS server name, and the host the routing resolves. */
  function ServerName(target: string): (host: string)
    requires 4 <= |target|
    ensures |host| == |target| - 4 && host == target[..|host|]
  {
    Addr.DropSuffix(target, 4)
  }

  /** The strip recovers the host exactly when the argument ends in a 3-digit port, as in `:443`. */
  lemma ServerNameNeedsThreeDigitPort(host: string, port: string)
    requires 4 <= |host + ":" + port|
    ensures ServerName(host + ":" + port) == host <==> |port| == 3
  {
    Addr.DropSuffixRecoversHost(host, port, 4);
  }

  /** `fmt.Sprintf("wss://%s/vless", target)`. */
  function WssUrl(target: string): (url: string)
    ensures Addr.TargetOf(url, "wss://", "/vless") == Some(target)
  {
    Addr.UrlKeepsTarget("wss://", target, "/vless");
    Addr.Url("wss://", target, "/vless")
  }

  /** dialVLESSWS: dial, write the frame, and hand the connection out without
      reading; a failed write closes it. */
  method DialVLESSWS(c: Conn, s: DialScript) returns (err: Option<DialError>)
    requires c.Unused()
    modifies c
    ensures err == None <==> s.upgraded && s.writeOk
    ensures err == None ==> c.open && c.written == [VlessHandshake()] && c.readCount == 0 && c.closeCount == 0
    ensures err != None ==> !c.open && c.closeCount == (if s.upgraded then 1 else 0) && c.written == []
  {
    err := c.Establish(VlessHandshake(), false, s);
  }

  /** main: a routing error is only logged; the tunnel starts whenever the TUN device does. */
  function Startup(tunOk: bool, routing: Option<Routing.RouteError>): (s: Routing.Startup)
    ensures s.TunnelStarted? <==> tunOk
    ensures s.TunnelStarted? ==> s.routingWarning == routing.Some?
  {
    Routing.Main(tunOk, routing, false)
  }

  /** startL3Tunnel: a failed dial sleeps 5 s; a session is closed once, after the
      inbound pump returns, and followed by a 1 s sleep. */
  lemma RetryTrace(attempts: seq<DialScript>)
    ensures var t := Supervisor.Trace(Config, attempts);
      (forall i :: 0 <= i < |t| && t[i] == Supervisor.Dialed(false) ==> i + 1 < |t| && t[i + 1] == Supervisor.Slept(5)) &&
      (forall i :: 0 <= i < |t| && t[i] == Supervisor.Closed ==>
         1 <= i && t[i - 1] == Supervisor.Relayed && i + 1 < |t| && t[i + 1] == Supervisor.Slept(1)) &&
      Supervisor.Count(t, Supervisor.Closed) == Supervisor.Count(t, Supervisor.Dialed(true))
  {
    Supervisor.SessionRules(Config, attempts);
  }

  /** The outbound pump's 2048-byte buffer bounds every frame. */
  lemma FramesFitBuffer(script: seq<Relay.ReadResult>, budget: nat, cancelAt: nat)
    ensures forall f :: f in Relay.Outbound(script, Config.bufferSize, budget, cancelAt).out ==> |f| <= 2048
  {
    Relay.OutboundFramesFit(script, Config.bufferSize, budget, cancelAt);
  }
}
