/** tun-modem.go: the variant that builds its first frame in a zeroed 38-byte
    slice, dials `wss://…/vless` over TLS, reads no server frame, and sleeps
    1 s between sessions. Its pumps use a 1500-byte buffer. */
module Modem {
  import opened Bytes
  import opened Transport
  import Addr
  import Relay
  import Routing
  import Supervisor
  import Stable

  /** The frame as the stable variant lays it out, cut to 38 bytes and with the
      UUID left zero. */
  function TunModeFrame(): (b: seq<byte>)
    ensures |b| == 38
  {
    Zeros(16) + Stable.VlessHandshake()[16..38]
  }

  /** The truncated stable frame is zero everywhere but the command byte (3 at
      index 34) and the address type byte (1 at index 37). */
  lemma TunModeFrameBytes()
    ensures forall i | 0 <= i < 38 :: TunModeFrame()[i] == if i == 34 then 3 else if i == 37 then 1 else 0
  {
    Stable.TailBytes();
    var b := TunModeFrame();
    assert forall i | 16 <= i < 38 :: b[i] == Stable.VlessHandshake()[i];
  }

  /** buildVLESSHandshake: `make` zero-fills the slice; indices 16 and 33 to 37 are
      then assigned, all but two of them with 0. */
  method BuildVLESSHandshake() returns (h: seq<byte>)
    ensures |h| == 16 + 1 + 16 + 1 + 2 + 1 + 1
    ensures forall i | 0 <= i < |h| :: h[i] == if i == 34 then 3 else if i == 37 then 1 else 0
    ensures h == TunModeFrame()
  {
    var a := new byte[16 + 1 + 16 + 1 + 2 + 1 + 1](_ => 0);
    a[16] := 0x00;
    a[33] := 0x00;
    a[34] := 0x03;
    a[35] := 0x00;
    a[36] := 0x00;
    a[37] := 0x01;
    h := a[..];
    TunModeFrameBytes();
  }

  /** The loop and dialer constants of this variant. */
  const Config := Supervisor.Variant(TunModeFrame(), false, 1500, 1)

  /** `target[:len(target)-4]`: the TLS server name, and the host `setupRouting` resolves. */
  function ServerName(target: string): (host: string)
    requires 4 <= |target|
    ensures |host| == |target| - 4 && host == target[..|host|]
  {
    Addr.DropSuffix(target, 4)
  }

  /** The strip recovers the host exactly when the argument ends in a 3-digit port, as in `:443`. */
  lemma ServerNameNeedsThreeDigitPort(host: string, port: string)
    requires 4 <= |host + ":" + port|
    ensures ServerName(host + ":" + port) == host <==> |port| == 3
  {
    Addr.DropSuffixRecoversHost(host, port, 4);
  }

  /** `fmt.Sprintf("wss://%s/vless", target)`: the whole argument, port included. */
  function WssUrl(target: string): (url: string)
    ensures Addr.TargetOf(url, "wss://", "/vless") == Some(target)
  {
    Addr.UrlKeepsTarget("wss://", target, "/vless");
    Addr.Url("wss://", target, "/vless")
  }

  /** dialVLESSWS: dial, build and write the frame, and hand the connection out at
      once; a failed write closes it. */
  method DialVLESSWS(c: Conn, s: DialScript) returns (err: Option<DialError>)
    requires c.Unused()
    modifies c
    ensures err == None <==> s.upgraded && s.writeOk
    ensures err == None ==> c.open && c.written == [TunModeFrame()] && c.readCount == 0 && c.closeCount == 0
    ensures err != None ==> !c.open && c.closeCount == (if s.upgraded then 1 else 0) && c.written == []
  {
    var h := BuildVLESSHandshake();
    err := c.Establish(h, false, s);
  }

  /** setupRouting: the host route via the stubbed default gateway 192.168.1.1 is
      added before the split routes through `tun-l3`. */
  method SetupRouting(t: Routing.RouteTable, vpsHost: string, tableOk: bool, resolve: string -> Option<string>,
                      hostOk: bool, splitOk: bool)
    returns (err: Option<Routing.RouteError>)
    requires 4 <= |vpsHost|
    requires t.attempted == [] && t.installed == []
    modifies t
    ensures var ip := resolve(ServerName(vpsHost));
      (err == None <==> tableOk && ip.Some? && hostOk && splitOk) &&
      (tableOk && ip.Some? ==>
        t.attempted == [Routing.HostRoute(ip.value, "192.168.1.1")] +
          (if hostOk then [Routing.SplitRoute("tun-l3")] else []))
    ensures Routing.HostRouteFirst(t.attempted, t.installed)
  {
    err := Routing.SetupRouting(t, vpsHost, tableOk, resolve, "192.168.1.1", "tun-l3", hostOk, splitOk);
    var ip := resolve(ServerName(vpsHost));
    if tableOk && ip.Some? {
      Routing.SetupKeepsHostRouteFirst(ip.value, "192.168.1.1", "tun-l3", hostOk, splitOk);
    }
  }

  /** main: a TUN or routing error ends the program before the loop starts. */
  function Startup(tunOk: bool, routing: Option<Routing.RouteError>): (s: Routing.Startup)
    ensures s.TunnelStarted? <==> tunOk && routing == None
    ensures s == Routing.TunSetupFailed <==> !tunOk
  {
    Routing.Main(tunOk, routing, true)
  }

  /** startL3Tunnel: a failed dial sleeps 5 s; a session is closed once, after the
      inbound pump returns, and followed by a 1 s sleep. */
  lemma RetryTrace(attempts: seq<DialScript>)
    ensures var t := Supervisor.Trace(Config, attempts);
      (forall i :: 0 <= i < |t| && t[i] == Supervisor.Dialed(false) ==> i + 1 < |t| && t[i + 1] == Supervisor.Slept(5)) &&
      (forall i :: 0 <= i < |t| && t[i] == Supervisor.Closed ==>
         1 <= i && t[i - 1] == Supervisor.Relayed && i + 1 < |t| && t[i + 1] == Supervisor.Slept(1)) &&
      Supervisor.Count(t, Supervisor.Closed) == Supervisor.Count(t, Supervisor.Dialed(true))
  {
    Supervisor.SessionRules(Config, attempts);
  }

  /** The outbound pump's 1500-byte buffer bounds every frame. */
  lemma FramesFitBuffer(script: seq<Relay.ReadResult>, budget: nat, cancelAt: nat)
    ensures forall f :: f in Relay.Outbound(script, Config.bufferSize, budget, cancelAt).out ==> |f| <= 1500
  {
    Relay.OutboundFramesFit(script, Config.bufferSize, budget, cancelAt);
  }
}
