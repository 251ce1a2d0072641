/** The HTTP side of tun-simpl.go: `proxyRequest` forwards a request to the
    modem's web interface and copies the reply back. Headers are Go's
    `http.Header`, a map from key to a list of values that `Add` appends to in
    place. The upstream client and the request constructor are parameters. */
module SimplProxy {
  import opened Bytes

  /** The address of the modem's web interface (`modemAddr`). */
  const ModemAddr: string := "192.168.24.1:80"

  /** The values stored under `k`, none when the key is absent. */
  function Values(h: map<string, seq<string>>, k: string): seq<string>
  {
    if k in h then h[k] else []
  }

  /** `http.Header`: keys are taken as given (Go canonicalizes them when it parses
      a message, so the keys copied here already are). */
  class Header {
    var values: map<string, seq<string>>

    constructor ()
      ensures values == map[]
    {
      values := map[];
    }

    /** `Header.Add`: append `v` to the values of `k`. */
    method Add(k: string, v: string)
      modifies this
      ensures values == old(values)[k := Values(old(values), k) + [v]]
    {
      values := values[k := Values(values, k) + [v]];
    }

    /** `Header.Set`: replace the values of `k` by `v` alone. */
    method Set(k: string, v: string)
      modifies this
      ensures values == old(values)[k := [v]]
    {
      values := values[k := [v]];
    }

    /** `for _, value := range values { h.Add(key, value) }`: the values go on in order. */
    method AddAll(key: string, vs: seq<string>)
      modifies this
      ensures values == if vs == [] then old(values) else old(values)[key := Values(old(values), key) + vs]
    {
      var j := 0;
      while j < |vs|
        invariant 0 <= j <= |vs|
        invariant values == if j == 0 then old(values) else old(values)[key := Values(old(values), key) + vs[..j]]
        invariant Values(values, key) == Values(old(values), key) + vs[..j]
      {
        ghost var before := values;
        Add(key, vs[j]);
        assert vs[..j + 1] == vs[..j] + [vs[j]];
        assert Values(before, key) + [vs[j]] == Values(old(values), key) + vs[..j + 1];
        assert values == before[key := Values(old(values), key) + vs[..j + 1]];
        j := j + 1;
      }
      assert vs[..j] == vs;
    }

    /** `for key, values := range src { for _, value := range values { h.Add(key, value) } }`.
        Go visits the keys in no fixed order; the result is the same for every order:
        each key ends with its old values followed by all of `src`'s, and a key whose
        list in `src` is empty is not added. */
    method CopyFrom(src: map<string, seq<string>>)
      modifies this
      ensures forall k :: k in values <==> k in old(values) || (k in src && src[k] != [])
      ensures forall k :: Values(values, k) == Values(old(values), k) + Values(src, k)
    {
      ghost var start := values;
      var todo := src.Keys;
      while todo != {}
        invariant todo <= src.Keys
        invariant forall k :: k in values <==> k in start || (k in src && k !in todo && src[k] != [])
        invariant forall k :: Values(values, k) == Values(start, k) + (if k in todo then [] else Values(src, k))
        decreases todo
      {
        var key :| key in todo;
        AddAll(key, src[key]);
        todo := todo - {key};
      }
    }
  }

  /** The keys that carry at least one value, with those values. */
  function NonEmpty(h: map<string, seq<string>>): (r: map<string, seq<string>>)
    ensures forall k :: Values(r, k) == Values(h, k)
  {
    map k | k in h && h[k] != [] :: h[k]
  }

  /** Starting from an empty header, the copy has exactly the incoming values for
      every key, in the same order. */
  lemma CopyIntoEmpty(src: map<string, seq<string>>, out: map<string, seq<string>>)
    requires forall k :: k in out <==> k in src && src[k] != []
    requires forall k :: Values(out, k) == Values(src, k)
    ensures out == NonEmpty(src)
  {
    forall k | k in out ensures k in NonEmpty(src) && out[k] == NonEmpty(src)[k] {
      assert Values(out, k) == Values(src, k);
    }
  }

  /** The parts of `url.URL` the proxy sets. */
  datatype Url = Url(scheme: string, host: string, path: string, rawQuery: string)

  datatype Request = Request(verb: string, url: Url, header: map<string, seq<string>>, body: seq<byte>)

  datatype Response = Response(status: nat, header: map<string, seq<string>>, body: seq<byte>)

  /** The proxied URL: scheme `http`, host `target`, path and query copied unchanged. */
  function TargetUrl(incoming: Url, target: string): (u: Url)
    ensures u.scheme == "http" && u.host == target
    ensures u.path == incoming.path && u.rawQuery == incoming.rawQuery
  {
    Url("http", target, incoming.path, incoming.rawQuery)
  }

  /** The bytes of an ASCII text. */
  function Ascii(s: string): (b: seq<byte>)
    ensures |b| == |s|
  {
    seq(|s|, i requires 0 <= i < |s| => s[i] as int % 256)
  }

  /** `http.ResponseWriter`: its header, the status once written, and the body. */
  class ResponseWriter {
    const header: Header
    var status: nat
    var body: seq<byte>

    constructor ()
      ensures fresh(header) && header.values == map[] && status == 0 && body == []
    {
      header := new Header();
      status, body := 0, [];
    }

    /** `http.Error`: a plain-text reply with the message and a newline. */
    method Error(msg: string, code: nat)
      requires status == 0 && body == []
      modifies this, header
      ensures status == code && body == Ascii(msg + "\n")
      ensures header.values == old(header.values)["Content-Type" := ["text/plain; charset=utf-8"]]["X-Content-Type-Options" := ["nosniff"]]
    {
      header.Set("Content-Type", "text/plain; charset=utf-8");
      header.Set("X-Content-Type-Options", "nosniff");
      status := code;
      body := Ascii(msg + "\n");
    }
  }

  /** proxyRequest: build the target URL and a new request carrying the incoming
      method, body and headers; answer 500 when the request cannot be built and 502
      when the upstream call fails; otherwise copy the upstream headers, status and
      body into the reply. `newRequestOk` is the outcome of `http.NewRequest`,
      `upstream` that of `client.Do` (`None` on error). `sent` is the request handed
      to the client, if one was built. */
  method ProxyRequest(w: ResponseWriter, r: Request, target: string, newRequestOk: bool, upstream: Option<Response>)
    returns (sent: Option<Request>)
    requires w.header.values == map[] && w.status == 0 && w.body == []
    modifies w, w.header
    ensures sent.Some? <==> newRequestOk
    ensures newRequestOk ==> sent.value == Request(r.verb, TargetUrl(r.url, target), NonEmpty(r.header), r.body)
    ensures !newRequestOk ==> w.status == 500 && w.body == Ascii("Failed to create proxy request\n")
    ensures newRequestOk && upstream.None? ==> w.status == 502 && w.body == Ascii("Failed to proxy request\n")
    ensures !newRequestOk || upstream.None? ==>
      w.header.values == map["Content-Type" := ["text/plain; charset=utf-8"], "X-Content-Type-Options" := ["nosniff"]]
    ensures newRequestOk && upstream.Some? ==>
      w.status == upstream.value.status && w.body == upstream.value.body &&
      w.header.values == NonEmpty(upstream.value.header)
  {
    var url := TargetUrl(r.url, target);
    if !newRequestOk {
      w.Error("Failed to create proxy request", 500);
      return None;
    }
    var outHeader := new Header();
    outHeader.CopyFrom(r.header);
    CopyIntoEmpty(r.header, outHeader.values);
    sent := Some(Request(r.verb, url, outHeader.values, r.body));
    if upstream.None? {
      w.Error("Failed to proxy request", 502);
      return;
    }
    var resp := upstream.value;
    w.header.CopyFrom(resp.header);
    CopyIntoEmpty(resp.header, w.header.values);
    w.status := resp.status;
    w.body := resp.body;
  }
}
