/** Bytes and small value helpers shared by every variant of the tunnel client. */
module Bytes {

  /** A Go `byte`. */
  type byte = x: int | 0 <= x < 256

  datatype Option<+T> = None | Some(value: T)

  /** What `make([]byte, n)` yields: n zero bytes. */
  function Zeros(n: nat): (z: seq<byte>)
    ensures |z| == n
    ensures forall i :: 0 <= i < n ==> z[i] == 0
  {
    seq(n, _ => 0)
  }

  function Min(a: nat, b: nat): nat
  {
    if a <= b then a else b
  }

  /** `buf[:n]` after a read of packet `p` into a buffer of `cap` bytes: at most `cap` bytes arrive. */
  function Clip(p: seq<byte>, cap: nat): (f: seq<byte>)
    ensures |f| <= cap && |f| <= |p|
    ensures f == p[..|f|]
    ensures |f| == |p| || |f| == cap
    ensures |p| <= cap ==> f == p
  {
    p[..Min(|p|, cap)]
  }
}
