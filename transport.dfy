/** The WebSocket connection as the tunnel client uses it, and the dial sequence
    (`dialVLESSWS`) that every variant runs before handing a connection out.
    Frames are opaque byte sequences: only the order and count of the
    `WriteMessage`, `ReadMessage` and `Close` calls are modelled. */
module Transport {
  import opened Bytes

  /** What the network does to one dial attempt: whether the TLS/WebSocket upgrade
      succeeds, whether the first frame can be written, and the first frame the
      server sends back (`None` when that read fails). */
  datatype DialScript = DialScript(upgraded: bool, writeOk: bool, ack: Option<seq<byte>>)

  /** The errors `dialVLESSWS` returns: the dialer's own error, the write error,
      and the wrapped "handshake response error". */
  datatype DialError = ConnectFailed | HandshakeWriteFailed | HandshakeResponseError

  /** Whether `dialVLESSWS` hands a connection out. The content of the server's
      frame plays no part: only whether the read succeeded. */
  predicate Succeeds(awaitAck: bool, s: DialScript)
  {
    s.upgraded && s.writeOk && (!awaitAck || s.ack.Some?)
  }

  class Conn {
    /** `dialer.Dial` returned this connection. */
    var dialed: bool
    var open: bool
    /** The frames written successfully, in order. */
    var written: seq<seq<byte>>
    /** The number of `ReadMessage` calls made. */
    var readCount: nat
    var closeCount: nat

    /** The socket before the dialer has touched it. */
    ghost predicate Unused()
      reads this
    {
      !dialed && !open && written == [] && readCount == 0 && closeCount == 0
    }

    constructor ()
      ensures Unused()
    {
      dialed, open, written, readCount, closeCount := false, false, [], 0, 0;
    }

    /** `dialer.Dial(url, headers)`; `ok` is the outcome of the upgrade. */
    method Dial(ok: bool)
      requires Unused()
      modifies this
      ensures dialed == ok && open == ok
      ensures written == [] && readCount == 0 && closeCount == 0
    {
      dialed, open := ok, ok;
    }

    /** `conn.WriteMessage(websocket.BinaryMessage, frame)`: fails on a closed
        connection and whenever the network says so. */
    method WriteMessage(frame: seq<byte>, ok: bool) returns (failed: bool)
      modifies this
      ensures failed == !(ok && old(open))
      ensures written == if failed then old(written) else old(written) + [frame]
      ensures dialed == old(dialed) && open == old(open)
      ensures readCount == old(readCount) && closeCount == old(closeCount)
    {
      failed := !(ok && open);
      if !failed {
        written := written + [frame];
      }
    }

    /** `conn.ReadMessage()`: `incoming` is what the network delivers; a closed
        connection delivers nothing. */
    method ReadMessage(incoming: Option<seq<byte>>) returns (r: Option<seq<byte>>)
      modifies this
      ensures r == if old(open) then incoming else None
      ensures readCount == old(readCount) + 1
      ensures dialed == old(dialed) && open == old(open)
      ensures written == old(written) && closeCount == old(closeCount)
    {
      r := if open then incoming else None;
      readCount := readCount + 1;
    }

    /** `conn.Close()`. */
    method Close()
      modifies this
      ensures !open && closeCount == old(closeCount) + 1
      ensures dialed == old(dialed) && written == old(written) && readCount == old(readCount)
    {
      open := false;
      closeCount := closeCount + 1;
    }

    /** The body of `dialVLESSWS` after the URL and headers are built: dial, write
        `first` as one binary frame, and, when `awaitAck`, read one frame back.
        Every error path after a successful dial closes the connection, so a
        caller that gets an error holds no open connection. */
    method Establish(first: seq<byte>, awaitAck: bool, s: DialScript) returns (err: Option<DialError>)
      requires Unused()
      modifies this
      ensures err == None <==> Succeeds(awaitAck, s)
      ensures err == None ==> open && written == [first] && closeCount == 0
      ensures err == None ==> readCount == if awaitAck then 1 else 0
      ensures err != None ==> !open
      ensures dialed == s.upgraded
      ensures closeCount == if dialed && err != None then 1 else 0
      ensures !s.upgraded ==> err == Some(ConnectFailed) && written == [] && readCount == 0
      ensures s.upgraded && !s.writeOk ==>
        err == Some(HandshakeWriteFailed) && written == [] && readCount == 0
      ensures s.upgraded && s.writeOk && awaitAck && s.ack == None ==>
        err == Some(HandshakeResponseError) && written == [first] && readCount == 1
    {
      Dial(s.upgraded);
      if !s.upgraded {
        return Some(ConnectFailed);
      }
      var failed := WriteMessage(first, s.writeOk);
      if failed {
        Close();
        return Some(HandshakeWriteFailed);
      }
      if awaitAck {
        var response := ReadMessage(s.ack);
        if response == None {
          Close();
          return Some(HandshakeResponseError);
        }
      }
      return None;
    }
  }
}
