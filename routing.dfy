/** The split-tunnel routes `main` installs before the retry loop starts: a
    host route that keeps the relay's own address on the physical uplink, and
    the two half-default routes `0.0.0.0/1` and `128.0.0.0/1` through the TUN
    device. The route library and `ip route` are foreign; here they append to
    a table of attempted routes and report the outcome a parameter gives.
    Name resolution is a parameter too, `resolve`, from host to address text. */
module Routing {
  import opened Bytes
  import Addr

  /** Where a route sends its destinations. */
  datatype Hop = Gateway(ip: string) | Device(name: string)

  datatype Route = Route(dests: seq<string>, via: Hop)

  /** The two halves of the IPv4 space that together cover every address but
      lose to the more specific host route. */
  const SplitDests: seq<string> := ["0.0.0.0/1", "128.0.0.0/1"]

  class RouteTable {
    /** Every `r.Add` (or `ip route add`) made, in order, whatever its outcome. */
    var attempted: seq<Route>
    /** The routes that were actually installed. */
    var installed: seq<Route>

    constructor ()
      ensures attempted == [] && installed == []
    {
      attempted, installed := [], [];
    }

    /** One route addition; `ok` is the kernel's answer. */
    method Add(r: Route, ok: bool) returns (failed: bool)
      modifies this
      ensures failed == !ok
      ensures attempted == old(attempted) + [r]
      ensures installed == if ok then old(installed) + [r] else old(installed)
    {
      attempted := attempted + [r];
      if ok {
        installed := installed + [r];
      }
      failed := !ok;
    }
  }

  /** Why `setupRouting` gave up. */
  datatype RouteError = TableUnavailable | ResolveFailed | AddFailed(route: Route)

  /** The host route for the relay: its resolved address as a `/32`, via `gateway`. */
  function HostRoute(ip: string, gateway: string): Route
  {
    Route([ip + "/32"], Gateway(gateway))
  }

  function SplitRoute(ifName: string): Route
  {
    Route(SplitDests, Device(ifName))
  }

  /** setupRouting in the modem and optimized variants: open the route table,
      resolve the target with its last 4 characters (`:443`) dropped, add the
      host route via `gateway`, and only then the split routes through `ifName`.
      Every step returns at its first error. */
  method SetupRouting(t: RouteTable, vpsHost: string, tableOk: bool, resolve: string -> Option<string>,
                      gateway: string, ifName: string, hostOk: bool, splitOk: bool)
    returns (err: Option<RouteError>)
    requires 4 <= |vpsHost|
    requires t.attempted == [] && t.installed == []
    modifies t
    ensures var ip := resolve(Addr.DropSuffix(vpsHost, 4));
      (err == None <==> tableOk && ip.Some? && hostOk && splitOk) &&
      (!tableOk ==> err == Some(TableUnavailable) && t.attempted == []) &&
      (tableOk && ip.None? ==> err == Some(ResolveFailed) && t.attempted == []) &&
      (tableOk && ip.Some? ==>
        t.attempted == (if hostOk then [HostRoute(ip.value, gateway), SplitRoute(ifName)] else [HostRoute(ip.value, gateway)]) &&
        (!hostOk ==> err == Some(AddFailed(HostRoute(ip.value, gateway))) && t.installed == []) &&
        (hostOk ==> t.installed == [HostRoute(ip.value, gateway)] + (if splitOk then [SplitRoute(ifName)] else [])))
  {
    if !tableOk {
      return Some(TableUnavailable);
    }
    var ip := resolve(Addr.DropSuffix(vpsHost, 4));
    if ip.None? {
      return Some(ResolveFailed);
    }
    var host := HostRoute(ip.value, gateway);
    var failed := t.Add(host, hostOk);
    if failed {
      return Some(AddFailed(host));
    }
    var split := SplitRoute(ifName);
    failed := t.Add(split, splitOk);
    if failed {
      return Some(AddFailed(split));
    }
    return None;
  }

  /** The route through the TUN device is never attempted before the host route
      for the relay is installed, so the relay's own packets are never routed
      into the tunnel they carry. */
  predicate HostRouteFirst(attempted: seq<Route>, installed: seq<Route>)
  {
    forall i :: 0 <= i < |attempted| && attempted[i].via.Device? ==>
      exists j :: 0 <= j < i && attempted[j].via.Gateway? && attempted[j] in installed
  }

  /** `SetupRouting`'s possible tables all keep the host route first. */
  lemma SetupKeepsHostRouteFirst(ip: string, gateway: string, ifName: string, hostOk: bool, splitOk: bool)
    ensures var h := HostRoute(ip, gateway);
      HostRouteFirst([h], if hostOk then [h] else []) &&
      (hostOk ==> HostRouteFirst([h, SplitRoute(ifName)], [h] + (if splitOk then [SplitRoute(ifName)] else [])))
  {
    var h := HostRoute(ip, gateway);
    if hostOk {
      var a := [h, SplitRoute(ifName)];
      assert a[0].via.Gateway? && a[0] in [h];
      assert a[0] in [h] + (if splitOk then [SplitRoute(ifName)] else []);
    }
  }

  /** setupAndroidRouting: resolve the target with its last 4 characters dropped,
      then run three `ip route add` commands whose outcomes are discarded; only a
      failed resolution is reported. */
  method SetupAndroidRouting(t: RouteTable, vpsHost: string, resolve: string -> Option<string>, outcomes: seq<bool>)
    returns (err: Option<RouteError>)
    requires 4 <= |vpsHost| && |outcomes| == 3
    requires t.attempted == [] && t.installed == []
    modifies t
    ensures var ip := resolve(Addr.DropSuffix(vpsHost, 4));
      (err == None <==> ip.Some?) &&
      (ip.None? ==> err == Some(ResolveFailed) && t.attempted == []) &&
      (ip.Some? ==> t.attempted == AndroidRoutes(ip.value) && t.installed == Kept(AndroidRoutes(ip.value), outcomes))
  {
    var ip := resolve(Addr.DropSuffix(vpsHost, 4));
    if ip.None? {
      return Some(ResolveFailed);
    }
    var routes := AndroidRoutes(ip.value);
    KeptOfThree(routes, outcomes);
    var _ := t.Add(routes[0], outcomes[0]);
    assert t.attempted == [routes[0]];
    assert t.installed == (if outcomes[0] then [routes[0]] else []);
    var _ := t.Add(routes[1], outcomes[1]);
    assert t.attempted == [routes[0], routes[1]];
    assert t.installed == (if outcomes[0] then [routes[0]] else []) + (if outcomes[1] then [routes[1]] else []);
    var _ := t.Add(routes[2], outcomes[2]);
    assert t.attempted == [routes[0], routes[1], routes[2]] == routes;
    return None;
  }

  /** The routes whose addition succeeded, in order. */
  function Kept(rs: seq<Route>, oks: seq<bool>): (k: seq<Route>)
    requires |rs| == |oks|
    ensures |k| <= |rs|
    ensures forall r :: r in k ==> r in rs
    ensures forall i :: 0 <= i < |rs| && oks[i] ==> rs[i] in k
    decreases |rs|
  {
    if rs == [] then []
    else Kept(rs[..|rs| - 1], oks[..|oks| - 1]) + (if oks[|oks| - 1] then [rs[|rs| - 1]] else [])
  }

  /** Unlike `SetupRouting`, the Android setup goes on to the split routes when the
      host route was refused: the device then routes the relay's own address into
      the tunnel. */
  lemma AndroidSplitWithoutHostRoute(ip: string)
    ensures var rs := AndroidRoutes(ip); var kept := Kept(rs, [false, true, true]);
      kept == [rs[1], rs[2]] && !HostRouteFirst(rs, kept)
  {
    var rs := AndroidRoutes(ip);
    KeptOfThree(rs, [false, true, true]);
    var kept := Kept(rs, [false, true, true]);
    assert kept == [rs[1], rs[2]];
    assert rs[0] != rs[1] && rs[0] != rs[2];
    assert rs[0] !in kept;
    assert rs[1].via.Device?;
  }

  /** Three additions keep the routes whose outcome was a success, in order. */
  lemma KeptOfThree(rs: seq<Route>, oks: seq<bool>)
    requires |rs| == 3 && |oks| == 3
    ensures Kept(rs, oks) == (if oks[0] then [rs[0]] else []) + (if oks[1] then [rs[1]] else []) + (if oks[2] then [rs[2]] else [])
  {
    assert rs[..2][..1] == rs[..1] && oks[..2][..1] == oks[..1];
    assert rs[..1][..0] == [] && oks[..1][..0] == [];
    assert Kept(rs[..1], oks[..1]) == (if oks[0] then [rs[0]] else []);
    assert Kept(rs[..2], oks[..2]) == Kept(rs[..1], oks[..1]) + (if oks[1] then [rs[1]] else []);
  }

  /** `ip route add <ip> via 192.168.24.1`, then the split routes through `tun-android`. */
  function AndroidRoutes(ip: string): (rs: seq<Route>)
    ensures |rs| == 3 && rs[0].via.Gateway? && rs[1].via.Device? && rs[2].via.Device?
  {
    [Route([ip], Gateway("192.168.24.1")), Route(["0.0.0.0/1"], Device("tun-android")), Route(["128.0.0.0/1"], Device("tun-android"))]
  }

  /** How `main` ends up, after the TUN device and the routes are set up. */
  datatype Startup = TunSetupFailed | RoutingSetupFailed | TunnelStarted(routingWarning: bool)

  /** `main` from the TUN setup on: a TUN failure is fatal in every variant; a routing
      error is fatal where `routingFatal` holds and only logged otherwise. */
  function Main(tunOk: bool, routing: Option<RouteError>, routingFatal: bool): (s: Startup)
    ensures s.TunnelStarted? <==> tunOk && (routing == None || !routingFatal)
    ensures s.TunnelStarted? ==> s.routingWarning == routing.Some?
  {
    if !tunOk then TunSetupFailed
    else if routing.Some? && routingFatal then RoutingSetupFailed
    else TunnelStarted(routing.Some?)
  }
}
