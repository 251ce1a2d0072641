/** The string handling every variant applies to its `host:port` argument. */
module Addr {
  import opened Bytes

  /** `target[:len(target)-k]`: the argument with its last `k` characters dropped.
      Go panics when `k > len(target)`, hence the precondition. */
  function DropSuffix(target: string, k: nat): (host: string)
    requires k <= |target|
    ensures |host| == |target| - k
    ensures target == host + target[|host|..]
  {
    target[..|target| - k]
  }

  /** Dropping `k` characters from `host:port` gives back `host` exactly when the
      port is `k - 1` characters long (the `:` accounts for the last one). */
  lemma DropSuffixRecoversHost(host: string, port: string, k: nat)
    requires k <= |host + ":" + port|
    ensures DropSuffix(host + ":" + port, k) == host <==> |port| + 1 == k
  {
    var t := host + ":" + port;
    if |port| + 1 == k {
      assert t[..|host|] == host;
    }
  }

  /** `fmt.Sprintf(scheme + "%s" + path, target)`, as the dialers build their WebSocket URL. */
  function Url(scheme: string, target: string, path: string): (u: string)
    ensures |u| == |scheme| + |target| + |path|
    ensures u[..|scheme|] == scheme && u[|u| - |path|..] == path
  {
    scheme + target + path
  }

  /** The inverse of `Url`: the part of `url` between a known scheme and path. */
  function TargetOf(url: string, scheme: string, path: string): Option<string>
  {
    if |scheme| + |path| <= |url| && url[..|scheme|] == scheme && url[|url| - |path|..] == path
    then Some(url[|scheme|..|url| - |path|])
    else None
  }

  /** A URL built from `target` keeps all of it, port included. */
  lemma UrlKeepsTarget(scheme: string, target: string, path: string)
    ensures TargetOf(Url(scheme, target, path), scheme, path) == Some(target)
  {
    var u := scheme + target + path;
    assert u[..|scheme|] == scheme;
    assert u[|u| - |path|..] == path;
    assert u[|scheme|..|u| - |path|] == target;
  }
}
