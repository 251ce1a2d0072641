/** tun-optimized.go: the E3372h build with an all-zero UUID in its 39-byte first
    frame, `wss://…/vless` over TLS, no server frame read, a 1 s pause between
    sessions, and routes set up before the loop starts, fatally. */
module Optimized {
  import opened Bytes
  import opened Transport
  import Addr
  import Relay
  import Routing
  import Supervisor
  import Debug

  /** The first frame `dialVLESSWS` writes: zero everywhere but the command byte
      (3 at index 34) and the final address type byte (1 at index 38). */
  function VlessHandshake(): (b: seq<byte>)
    ensures |b| == 39
    ensures forall i | 0 <= i < 39 :: b[i] == if i == 34 then 3 else if i == 38 then 1 else 0
  {
    [
      0, 0, 0, 0, 0, 0, 0, 0, 0, 0, 0, 0, 0, 0, 0, 0, // UUID
      0x00, // Version
      0, 0, 0, 0, 0, 0, 0, 0, 0, 0, 0, 0, 0, 0, 0, 0, // Encryption
      0x00, // Reserved
      0x03, 0x00, // Command
      0x00, 0x00, // Port
      0x01 // Address type
    ]
  }

  /** The debug build's frame with its UUID zeroed. */
  lemma DebugFrameWithoutUuid()
    ensures VlessHandshake()[..16] == Zeros(16)
    ensures VlessHandshake()[16..] == Debug.VlessHandshake()[16..]
  {
    var b, d := VlessHandshake(), Debug.VlessHandshake();
    Debug.FrameBytes();
    assert forall i | 0 <= i < 16 :: b[..16][i] == 0;
    assert forall i | 0 <= i < 23 :: b[16..][i] == b[16 + i] && d[16..][i] == d[16 + i];
  }

  /** The loop and dialer constants of this variant. */
  const Config := Supervisor.Variant(VlessHandshake(), false, 2048, 1)

  /** `target[:len(target)-4]`: the TLS server name, and the host `setupRouting` resolves. */
  function ServerName(target: string): (host: string)
    requires 4 <= |target|
    ensures |host| == |target| - 4 && host == target[..|host|]
  {
    Addr.DropSuffix(target, 4)
  }

  /** The strip recovers the host exactly when the argument ends in a 3-digit port, as in `:443`. */
  lemma ServerNameNeedsThreeDigitPort(host: string, port: string)
    requires 4 <= |host + ":" + port|
    ensures ServerName(host + ":" + port) == host <==> |port| == 3
  {
    Addr.DropSuffixRecoversHost(host, port, 4);
  }

  /** `fmt.Sprintf("wss://%s/vless", target)`. */
  function WssUrl(target: string): (url: string)
    ensures Addr.TargetOf(url, "wss://", "/vless") == Some(target)
  {
    Addr.UrlKeepsTarget("wss://", target, "/vless");
    Addr.Url("wss://", target, "/vless")
  }

  /** dialVLESSWS: dial, write the frame, and hand the connection out without
      reading; a failed write closes it. */
  method DialVLESSWS(c: Conn, s: DialScript) returns (err: Option<DialError>)
    requires c.Unused()
    modifies c
    ensures err == None <==> s.upgraded && s.writeOk
    ensures err == None ==> c.open && c.written == [VlessHandshake()] && c.readCount == 0 && c.closeCount == 0
    ensures err != None ==> !c.open && c.closeCount == (if s.upgraded then 1 else 0) && c.written == []
  {
    err := c.Establish(VlessHandshake(), false, s);
  }

  /** setupRouting: the /32 route for the relay via 192.168.1.1 goes in first; the
      split routes through `tun-e3372h` are attempted only once it is installed. */
  method SetupRouting(t: Routing.RouteTable, vpsHost: string, tableOk: bool, resolve: string -> Option<string>,
                      hostOk: bool, splitOk: bool)
    returns (err: Option<Routing.RouteError>)
    requires 4 <= |vpsHost|
    requires t.attempted == [] && t.installed == []
    modifies t
    ensures var ip := resolve(ServerName(vpsHost));
      (err == None <==> tableOk && ip.Some? && hostOk && splitOk) &&
      (tableOk && ip.Some? ==>
        t.attempted == [Routing.HostRoute(ip.value, "192.168.1.1")] +
          (if hostOk then [Routing.SplitRoute("tun-e3372h")] else []))
    ensures Routing.HostRouteFirst(t.attempted, t.installed)
  {
    err := Routing.SetupRouting(t, vpsHost, tableOk, resolve, "192.168.1.1", "tun-e3372h", hostOk, splitOk);
    var ip := resolve(ServerName(vpsHost));
    if tableOk && ip.Some? {
      Routing.SetupKeepsHostRouteFirst(ip.value, "192.168.1.1", "tun-e3372h", hostOk, splitOk);
    }
  }

  /** main: a routing error ends the program before the loop starts. */
  function Startup(tunOk: bool, routing: Option<Routing.RouteError>): (s: Routing.Startup)
    ensures s.TunnelStarted? <==> tunOk && routing == None
  {
    Routing.Main(tunOk, routing, true)
  }

  /** startL3Tunnel: a failed dial sleeps 5 s; a session is closed once, after the
      inbound pump returns, and followed by a 1 s sleep. */
  lemma RetryTrace(attempts: seq<DialScript>)
    ensures var t := Supervisor.Trace(Config, attempts);
      (forall i :: 0 <= i < |t| && t[i] == Supervisor.Dialed(false) ==> i + 1 < |t| && t[i + 1] == Supervisor.Slept(5)) &&
      (forall i :: 0 <= i < |t| && t[i] == Supervisor.Closed ==>
         1 <= i && t[i - 1] == Supervisor.Relayed && i + 1 < |t| && t[i + 1] == Supervisor.Slept(1)) &&
      Supervisor.Count(t, Supervisor.Closed) == Supervisor.Count(t, Supervisor.Dialed(true))
  {
    Supervisor.SessionRules(Config, attempts);
  }

  /** The outbound pump's 2048-byte buffer bounds every frame. */
  lemma FramesFitBuffer(script: seq<Relay.ReadResult>, budget: nat, cancelAt: nat)
    ensures forall f :: f in Relay.Outbound(script, Config.bufferSize, budget, cancelAt).out ==> |f| <= 2048
  {
    Relay.OutboundFramesFit(script, Config.bufferSize, budget, cancelAt);
  }
}
