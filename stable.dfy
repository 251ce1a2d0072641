/** tun-e3372h-stable.go: the variant whose first frame is the full 42-byte
    layout and whose dialer waits for one server frame before returning. */
module Stable {
  import opened Bytes
  import opened Transport
  import Addr
  import Relay
  import Supervisor

  /** The fields of the first frame, in the order the literal's comments name them. */
  datatype Handshake = Handshake(
    uuid: seq<byte>,
    version: byte,
    encryption: seq<byte>,
    reserved: byte,
    command: byte,
    port: nat,
    addressType: byte,
    address: seq<byte>)

  /** Field widths: UUID 16, version 1, encryption 16, reserved 1, command 1,
      port 2 (so below 65536), address type 1, address 4. */
  predicate WellFormed(h: Handshake)
  {
    |h.uuid| == 16 && |h.encryption| == 16 && h.port < 0x1_0000 && |h.address| == 4
  }

  /** The layout: fields back to back, the port big-endian. */
  function Encode(h: Handshake): (b: seq<byte>)
    requires WellFormed(h)
    ensures |b| == 16 + 1 + 16 + 1 + 1 + 2 + 1 + 4
  {
    h.uuid + [h.version] + h.encryption + [h.reserved, h.command, h.port / 256, h.port % 256, h.addressType] + h.address
  }

  /** Reads the fields back at their fixed offsets; only 42-byte frames have the layout. */
  function Decode(b: seq<byte>): (r: Option<Handshake>)
    ensures r.Some? <==> |b| == 42
    ensures r.Some? ==> WellFormed(r.value)
  {
    if |b| != 42 then None
    else Some(Handshake(b[..16], b[16], b[17..33], b[33], b[34], b[35] as int * 256 + b[36] as int, b[37], b[38..]))
  }

  lemma DecodeEncode(h: Handshake)
    requires WellFormed(h)
    ensures Decode(Encode(h)) == Some(h)
  {
    var b := Encode(h);
    assert b[..16] == h.uuid;
    assert b[17..33] == h.encryption;
    assert b[38..] == h.address;
  }

  lemma EncodeDecode(b: seq<byte>)
    requires |b| == 42
    ensures Encode(Decode(b).value) == b
  {
    var h := Decode(b).value;
    assert h.port / 256 == b[35] && h.port % 256 == b[36];
    assert b == b[..16] + [b[16]] + b[17..33] + [b[33], b[34], b[35], b[36], b[37]] + b[38..];
  }

  /** The client identifier of the literal. */
  const ClientId: seq<byte> :=
    [0xd4, 0x33, 0x08, 0xce, 0x0c, 0xab, 0x46, 0x9d, 0x8f, 0x4e, 0x87, 0xc5, 0xa9, 0xd8, 0xe2, 0xbf]

  /** The first frame `dialVLESSWS` writes, byte for byte as the literal has it. */
  function VlessHandshake(): (b: seq<byte>)
    ensures |b| == 42
  {
    [
      0xd4, 0x33, 0x08, 0xce, 0x0c, 0xab, 0x46, 0x9d,
      0x8f, 0x4e, 0x87, 0xc5, 0xa9, 0xd8, 0xe2, 0xbf,
      0x00,
      0x00, 0x00, 0x00, 0x00, 0x00, 0x00, 0x00, 0x00,
      0x00, 0x00, 0x00, 0x00, 0x00, 0x00, 0x00, 0x00,
      0x00,
      0x03,
      0x00, 0x00,
      0x01,
      0x00, 0x00, 0x00, 0x00]
  }

  /** Read with the layout, the literal holds the field values its comments give:
      the client UUID, version 0, no encryption key, TUN mode (command 3), port 0,
      address type 1 (IPv4) and the address 0.0.0.0. */
  lemma HandshakeFields()
    ensures Decode(VlessHandshake()) == Some(Handshake(ClientId, 0, Zeros(16), 0, 3, 0, 1, [0, 0, 0, 0]))
  {
    UuidField();
    EncryptionField();
  }

  lemma UuidField()
    ensures VlessHandshake()[..16] == ClientId
  {
  }

  lemma EncryptionField()
    ensures VlessHandshake()[17..33] == Zeros(16)
  {
    var b := VlessHandshake();
    assert forall i | 17 <= i < 33 :: b[i] == 0;
  }

  /** The literal is the layout applied to its commented field values. */
  lemma HandshakeIsLayout()
    ensures VlessHandshake() == Encode(Handshake(ClientId, 0, Zeros(16), 0, 3, 0, 1, [0, 0, 0, 0]))
  {
    HandshakeFields();
    EncodeDecode(VlessHandshake());
  }

  /** Past the UUID, the frame is zero except the command (index 34) and the
      address type (index 37). */
  lemma TailBytes()
    ensures forall i | 16 <= i < 42 :: VlessHandshake()[i] == if i == 34 then 3 else if i == 37 then 1 else 0
  {
    HandshakeFields();
    var b := VlessHandshake();
    var h := Decode(b).value;
    assert b[17..33] == h.encryption && b[38..] == h.address;
    assert forall i | 17 <= i < 33 :: b[i] == b[17..33][i - 17];
    assert forall i | 38 <= i < 42 :: b[i] == b[38..][i - 38];
    assert b[35] as int * 256 + b[36] as int == 0;
  }

  /** The value of one lower-case hexadecimal digit, as the comment writes them. */
  function HexDigit(c: char): (r: Option<nat>)
    ensures r.Some? ==> r.value < 16
  {
    if '0' <= c <= '9' then Some(c as nat - '0' as nat)
    else if 'a' <= c <= 'f' then Some(c as nat - 'a' as nat + 10)
    else None
  }

  /** The byte a pair of hexadecimal digits spells. */
  function HexByte(hi: char, lo: char): Option<byte>
  {
    match (HexDigit(hi), HexDigit(lo))
    case (Some(h), Some(l)) => Some(h * 16 + l)
    case _ => None
  }

  /** Where the `k`-th byte's digits start in the `8-4-4-4-12` text form. */
  function DigitPos(k: nat): nat
  {
    2 * k + (if k >= 4 then 1 else 0) + (if k >= 6 then 1 else 0) + (if k >= 8 then 1 else 0) + (if k >= 10 then 1 else 0)
  }

  /** The 16 bytes of a UUID written as `8-4-4-4-12` hexadecimal digits. */
  function ParseUuid(s: string): (r: Option<seq<byte>>)
    ensures r.Some? ==> |r.value| == 16
  {
    if |s| == 36 && s[8] == '-' && s[13] == '-' && s[18] == '-' && s[23] == '-' &&
       forall k :: 0 <= k < 16 ==> HexByte(s[DigitPos(k)], s[DigitPos(k) + 1]).Some?
    then Some(seq(16, k requires 0 <= k < 16 => HexByte(s[DigitPos(k)], s[DigitPos(k) + 1]).value))
    else None
  }

  /** The UUID the comment beside the literal gives, in its text form. */
  const ClientUuid: string := "d43308ce-0cab-469d-8f4e-87c5a9d8e2bf"

  /** The literal's first 16 bytes are the UUID its comment names. */
  lemma UuidMatchesComment()
    ensures ParseUuid(ClientUuid) == Some(VlessHandshake()[..16])
  {
    ClientIdText();
    UuidField();
  }

  lemma ClientIdText()
    ensures ParseUuid(ClientUuid) == Some(ClientId)
  {
    forall k | 0 <= k < 16
      ensures HexByte(ClientUuid[DigitPos(k)], ClientUuid[DigitPos(k) + 1]) == Some(ClientId[k])
    {
      ClientIdByte(k);
    }
    var s := ClientUuid;
    ClientUuidHyphens();
    var bytes := seq(16, k requires 0 <= k < 16 => HexByte(s[DigitPos(k)], s[DigitPos(k) + 1]).value);
    assert ParseUuid(s) == Some(bytes);
    assert bytes == ClientId;
  }

  lemma ClientUuidHyphens()
    ensures |ClientUuid| == 36 && ClientUuid[8] == '-' && ClientUuid[13] == '-' && ClientUuid[18] == '-' && ClientUuid[23] == '-'
  {
  }

  /** The `k`-th digit pair of the text spells the `k`-th byte. */
  lemma ClientIdByte(k: nat)
    requires k < 16
    ensures HexByte(ClientUuid[DigitPos(k)], ClientUuid[DigitPos(k) + 1]) == Some(ClientId[k])
  {
    if k < 8 {
      if k < 4 { if k < 2 { if k == 0 {} else {} } else { if k == 2 {} else {} } }
      else { if k < 6 { if k == 4 {} else {} } else { if k == 6 {} else {} } }
    } else {
      if k < 12 { if k < 10 { if k == 8 {} else {} } else { if k == 10 {} else {} } }
      else { if k < 14 { if k == 12 {} else {} } else { if k == 14 {} else {} } }
    }
  }

  /** The loop and dialer constants of this variant. */
  const Config := Supervisor.Variant(VlessHandshake(), true, 2048, 2)

  /** `vpsTarget[:len(vpsTarget)-5]`, the host `main` resolves. */
  function VpsHost(target: string): (host: string)
    requires 5 <= |target|
    ensures |host| == |target| - 5 && host == target[..|host|]
  {
    Addr.DropSuffix(target, 5)
  }

  /** The strip recovers the host exactly when the argument ends in a 4-digit port, as in `:8080`. */
  lemma VpsHostNeedsFourDigitPort(host: string, port: string)
    requires 5 <= |host + ":" + port|
    ensures VpsHost(host + ":" + port) == host <==> |port| == 4
  {
    Addr.DropSuffixRecoversHost(host, port, 5);
  }

  /** `fmt.Sprintf("ws://%s/tun", target)`: the whole argument, port included, sits between scheme and path. */
  function WsUrl(target: string): (url: string)
    ensures Addr.TargetOf(url, "ws://", "/tun") == Some(target)
  {
    Addr.UrlKeepsTarget("ws://", target, "/tun");
    Addr.Url("ws://", target, "/tun")
  }

  /** dialVLESSWS: write the 42-byte frame, then wait for one server frame whose
      content is never looked at; close the connection on either error. */
  method DialVLESSWS(c: Conn, s: DialScript) returns (err: Option<DialError>)
    requires c.Unused()
    modifies c
    ensures err == None <==> s.upgraded && s.writeOk && s.ack.Some?
    ensures err == None ==> c.open && c.written == [VlessHandshake()] && c.readCount == 1 && c.closeCount == 0
    ensures err != None ==> !c.open && c.closeCount == (if s.upgraded then 1 else 0)
    ensures s.upgraded && !s.writeOk ==> err == Some(HandshakeWriteFailed) && c.written == []
    ensures s.upgraded && s.writeOk && s.ack == None ==>
      err == Some(HandshakeResponseError) && c.written == [VlessHandshake()] && c.readCount == 1
  {
    err := c.Establish(VlessHandshake(), true, s);
  }

  /** startL3Tunnel: a failed dial sleeps 5 s and closes nothing; a session is closed
      once, after the inbound pump returns, and followed by a 2 s sleep. */
  lemma RetryTrace(attempts: seq<DialScript>)
    ensures var t := Supervisor.Trace(Config, attempts);
      (forall i :: 0 <= i < |t| && t[i] == Supervisor.Dialed(false) ==> i + 1 < |t| && t[i + 1] == Supervisor.Slept(5)) &&
      (forall i :: 0 <= i < |t| && t[i] == Supervisor.Closed ==>
         1 <= i && t[i - 1] == Supervisor.Relayed && i + 1 < |t| && t[i + 1] == Supervisor.Slept(2)) &&
      Supervisor.Count(t, Supervisor.Closed) == Supervisor.Count(t, Supervisor.Dialed(true))
  {
    Supervisor.SessionRules(Config, attempts);
  }

  /** The outbound pump's 2048-byte buffer bounds every frame. */
  lemma FramesFitBuffer(script: seq<Relay.ReadResult>, budget: nat, cancelAt: nat)
    ensures forall f :: f in Relay.Outbound(script, Config.bufferSize, budget, cancelAt).out ==> |f| <= 2048
  {
    Relay.OutboundFramesFit(script, Config.bufferSize, budget, cancelAt);
  }
}
