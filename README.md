# A model of the TUN-over-WebSocket tunnel client

The repository holds seven single-file Go programs. Each one is a separate build
of the same idea. The client brings up a TUN device and installs split-tunnel
routes. Its retry loop then dials a relay over WebSocket, writes a fixed binary
first frame, and pumps IP packets between the device and the connection until
the session ends. A session ends with a close, a pause and a redial.
`tun-simpl.go` is a simpler build: one plain TCP session, a UDP listener and an
HTTP proxy to the modem's web interface.

The model has one module for each piece the builds share and one module for
each build:

- `Bytes` holds bytes, `Option` and zero-filled sequences.
- `Addr` holds the `target[:len(target)-k]` host strip and the `scheme + target + path`
  URL, with a parser that inverts the URL.
- `Transport` holds the connection object (`Conn`): dialed or not, open or not,
  the frames written, the reads and the closes. It also holds `Establish`, the
  dial sequence every `dialVLESSWS` runs: dial, write the first frame, and
  optionally read one frame back, closing the connection on every error path.
- `Relay` holds the two pumps `forwardTUNtoVLESS` and `forwardVLESStoTUN`. Each is
  a loop method proved equal to a recursive specification (`Outbound`, `Inbound`)
  whose properties are lemmas. The outbound loop reads into one reused `array`
  buffer; the inbound loop has no buffer of its own, since each `ReadMessage`
  hands back a fresh slice.
- `Supervisor` holds `startL3Tunnel`. It is a loop method driven by a script of
  dial outcomes and the iteration in which the context is first seen cancelled.
  It emits a trace of events (`Dialed`, `Spawned`, `Relayed`, `Closed`,
  `Slept(s)`) and is proved equal to a trace function.
- `Routing` holds the route table as a class, `setupRouting` (modem, optimized),
  `setupAndroidRouting` and the start-up decision in `main`.
- `Stable`, `Modem`, `Debug`, `Optimized`, `Android` and `SimpleHandshake` model
  `tun-e3372h-stable.go`, `tun-modem.go`, `tun-e3372h-debug.go`, `tun-optimized.go`,
  `tun-android.go` and `tun-simple-handshake.go`. Each holds that build's first
  frame, host strip, URL, dialer, retry constants and buffer size.
- `Simpl` and `SimplProxy` model `tun-simpl.go`: its two inline pumps, the
  single-session handler, the UDP listener, and `proxyRequest` with Go's
  `http.Header` as a class whose `Add` updates a map in place.

The world outside the program is given as parameters:

- What a blocking read returns is a script of `Data(bytes)`, `Timeout` or `Failed`.
  When the script runs out, the loop is still waiting (`Pending`).
- How many writes succeed before the first failure is a number, `budget`.
- When the context is cancelled is `cancelAt`, the first look at the context that
  sees it done.
- Whether a dial, a write or a handshake read succeeds is a `DialScript`.
- Name resolution is a function from host to address.
- The outcome of each route addition is a boolean.

## Model

| member | source | states |
|---|---|---|
| Addr.DropSuffix | tun-e3372h-stable.go:47 | Dropping the last `k` characters leaves a prefix of the argument `k` shorter. It requires `k <= len`, the Go slice bound. |
| Addr.DropSuffixRecoversHost | tun-e3372h-stable.go:47 | For `host + ":" + port`, the strip gives back `host` exactly when the port has `k - 1` characters. |
| Addr.Url | tun-e3372h-stable.go:163 | `fmt.Sprintf` puts the scheme first and the path last, with the target's length between them. |
| Addr.UrlKeepsTarget | tun-e3372h-stable.go:163 | The URL built from `target` parses back to the whole `target`, port included. |
| Transport.Conn.Establish | tun-e3372h-stable.go:152-205 | A connection is handed out iff the dial and the write succeed and, when an ack is awaited, the read succeeds. It is then open, with exactly one frame written and one read when an ack is awaited. On every error after a dial it is closed once and is no longer open. A failed dial closes nothing. Each error path gives its own error; a failed ack read is `HandshakeResponseError`. |
| Transport.Conn.Dial | tun-e3372h-stable.go:164 | `dialer.Dial` leaves the connection dialed and open iff it succeeded, with nothing written, read or closed. |
| Transport.Conn.WriteMessage | tun-e3372h-stable.go:191 | A write appends its frame iff it succeeds; a closed connection fails. |
| Transport.Conn.ReadMessage | tun-e3372h-stable.go:197 | A read counts once; a closed connection delivers nothing. |
| Transport.Conn.Close | tun-e3372h-stable.go:146 | A close leaves the connection closed and counts one close. |
| Relay.ReadInto | tun-e3372h-stable.go:214 | `tunIface.Read(buf)`: a packet lands as `buf[:n]`, cut to the buffer length; a failed read reports failure. |
| Relay.Outbound | tun-e3372h-stable.go:207-224 | The outbound pump sends no more frames than reads or successful writes, and a write error comes only after `budget` frames. |
| Relay.Inbound | tun-e3372h-stable.go:226-242 | The inbound pump writes no more packets than reads or successful writes, and a write error comes only after `budget` packets. |
| Relay.ForwardTunToVless | tun-e3372h-stable.go:207-224 | The loop over the reused buffer writes exactly the frames of `Outbound` and stops for the same reason. |
| Relay.ForwardVlessToTun | tun-e3372h-stable.go:226-242 | The loop writes exactly the packets of `Inbound` and stops for the same reason. |
| Relay.OutboundPreservesOrder | tun-e3372h-stable.go:214-221 | The j-th frame is the j-th read, cut to the buffer, and every read before it was a packet. |
| Relay.OutboundFramesFit | tun-e3372h-stable.go:208 | No frame is longer than the buffer. |
| Relay.OutboundStopsAtFirstError | tun-e3372h-stable.go:209-222 | With `k` frames sent, the pump ended in iteration `k`: cancelled iff `k == cancelAt`; read error iff read `k` failed; write error iff write `k` was refused. |
| Relay.InboundVerbatim | tun-e3372h-stable.go:232-239 | Every packet reaches the device unchanged and in read order. |
| Relay.InboundStopsAtFirstError | tun-e3372h-stable.go:227-240 | The inbound pump ends at its first read or write error. Cancellation is seen only before a read, so `k` packets means it ended in iteration `k`. |
| Supervisor.Attempt | tun-e3372h-stable.go:133-147 | One loop pass emits `Iteration` and leaves its fresh connection finished: closed once iff it was dialed, and carrying the first frame iff that was written. |
| Supervisor.Iteration | tun-e3372h-stable.go:133-147 | One pass starts with the dial's outcome and ends with a sleep; it closes a connection iff the dial succeeded. |
| Supervisor.Trace | tun-e3372h-stable.go:128-149 | Each attempt adds between 2 and 5 events: a failed dial and its sleep, or a whole session. |
| Supervisor.StartL3Tunnel | tun-e3372h-stable.go:127-150 | The loop is cancelled iff `cancelAt` falls within the attempts. Its trace is `Trace` of the attempts before `cancelAt`. Every connection it opened ends closed, once, iff it was dialed. |
| Supervisor.TraceWellOrdered | tun-e3372h-stable.go:130-147 | Each event is followed by the one the loop body does next, and the trace ends after a sleep: no iteration is cut short. |
| Supervisor.CloseOnlyAfterRelay | tun-e3372h-stable.go:143-146 | Every `Closed` comes right after the inbound pump returned, never after the goroutine start alone. Every sleep follows a failed dial or a close. |
| Supervisor.TraceCounts | tun-e3372h-stable.go:133-147 | Successful dials, closes and successes are equal in number, and there is one dial per attempt. |
| Supervisor.SessionRules | tun-e3372h-stable.go:133-147 | A failed dial is followed by the 5 s sleep; a close is preceded by `Relayed` and followed by the build's own sleep; closes equal successful dials. |
| Routing.RouteTable.Add | tun-modem.go:137-140 | Each addition is recorded as attempted, and as installed iff it succeeded. |
| Routing.SetupRouting | tun-modem.go:119-153 | The route table, resolution and each addition stop the setup at their first error. Resolution uses the target minus 4 characters. The /32 host route via the gateway is attempted first; the split routes through the device only after it is installed. Success iff every step succeeds. |
| Routing.SetupKeepsHostRouteFirst | tun-optimized.go:136-150 | In every table `SetupRouting` can leave, a device route is preceded by an installed gateway route. |
| Routing.SetupAndroidRouting | tun-android.go:110-123 | Only a failed resolution is an error. Otherwise all three `ip route add` commands are attempted in order, and exactly the successful ones are installed. |
| Routing.Kept | tun-android.go:118-120 | The installed routes are among the attempted ones, at most one per attempt, and every route whose addition succeeded is installed. |
| Routing.KeptOfThree | tun-android.go:118-120 | Of the three Android routes, exactly the successful ones are installed, in the order they were run. |
| Routing.AndroidSplitWithoutHostRoute | tun-android.go:118-120 | When the host route is refused, the split routes are still installed and no host route comes before them. |
| Routing.AndroidRoutes | tun-android.go:118-120 | The host route goes via 192.168.24.1, then the two half-default routes through `tun-android`. |
| Routing.Main | tun-optimized.go:50-59 | The tunnel starts iff the TUN device came up and routing succeeded or is non-fatal. A routing warning is recorded iff routing failed. |
| Stable.Encode | tun-e3372h-stable.go:170-189 | The commented layout has 16+1+16+1+1+2+1+4 = 42 bytes. |
| Stable.Decode | tun-e3372h-stable.go:170-189 | Only a 42-byte frame decodes, and the fields it yields have the commented widths. |
| Stable.DecodeEncode | tun-e3372h-stable.go:170-189 | Decoding an encoded handshake gives it back. |
| Stable.EncodeDecode | tun-e3372h-stable.go:170-189 | Encoding a decoded 42-byte frame gives it back. |
| Stable.VlessHandshake | tun-e3372h-stable.go:170-189 | The literal is 42 bytes. |
| Stable.HandshakeFields | tun-e3372h-stable.go:171-188 | Decoded, the literal is: the client UUID, version 0, sixteen zero encryption bytes, reserved 0, command 3, big-endian port 0, address type 1 and address 0.0.0.0. |
| Stable.HandshakeIsLayout | tun-e3372h-stable.go:170-189 | The literal is the layout applied to those field values. |
| Stable.TailBytes | tun-e3372h-stable.go:174-188 | Past the UUID, the frame is zero except index 34 (3) and index 37 (1). |
| Stable.HexDigit | tun-e3372h-stable.go:171 | A digit's value is below 16. |
| Stable.ParseUuid | tun-e3372h-stable.go:171 | A parsed `8-4-4-4-12` UUID text gives 16 bytes. |
| Stable.UuidMatchesComment | tun-e3372h-stable.go:171-173 | The comment's `d43308ce-0cab-469d-8f4e-87c5a9d8e2bf`, parsed, is the literal's first 16 bytes. |
| Stable.ClientIdText | tun-e3372h-stable.go:171-173 | The comment's UUID text parses to the client identifier. |
| Stable.VpsHost | tun-e3372h-stable.go:47 | The resolved host is the argument minus its last 5 characters. |
| Stable.VpsHostNeedsFourDigitPort | tun-e3372h-stable.go:47 | The host is recovered exactly when the argument ends in a 4-digit port such as `:8080`. |
| Stable.WsUrl | tun-e3372h-stable.go:163 | `ws://target/tun` keeps the whole target. |
| Stable.DialVLESSWS | tun-e3372h-stable.go:152-205 | A connection is returned iff the dial, the 42-byte write and the ack read all succeed. It is then open, with exactly that frame written and one read. A failed write closes it and writes nothing. A failed ack read closes it and gives `HandshakeResponseError`. |
| Stable.RetryTrace | tun-e3372h-stable.go:127-150 | A failed dial is followed by a 5 s sleep; a session ends with one close, after the inbound pump, then a 2 s sleep. |
| Stable.FramesFitBuffer | tun-e3372h-stable.go:27 | With `bufferSize = 2048`, no outbound frame exceeds 2048 bytes. |
| Modem.TunModeFrame | tun-modem.go:216 | The frame is 38 bytes. |
| Modem.TunModeFrameBytes | tun-modem.go:214-225 | The stable frame truncated to 38 bytes with a zero UUID is zero except index 34 (3) and index 37 (1). |
| Modem.BuildVLESSHandshake | tun-modem.go:214-225 | The zero-filled 38-byte slice, after its index assignments, is zero except index 34 (3) and index 37 (1). It equals the stable frame's bytes 16..37 after 16 zero bytes. |
| Modem.ServerName | tun-modem.go:189 | The TLS server name is the target minus its last 4 characters. |
| Modem.ServerNameNeedsThreeDigitPort | tun-modem.go:126 | The strip recovers the host exactly when the argument ends in a 3-digit port such as `:443`. |
| Modem.WssUrl | tun-modem.go:198 | `wss://target/vless` keeps the whole target. |
| Modem.DialVLESSWS | tun-modem.go:186-212 | A connection is returned iff the dial and the write succeed. It is then open, with the built frame written and nothing read. A failed write closes it. |
| Modem.SetupRouting | tun-modem.go:119-158 | The host route goes via the stub gateway 192.168.1.1 and is attempted before the split routes through `tun-l3`. It keeps the host route first. |
| Modem.Startup | tun-modem.go:44-54 | A TUN or routing error ends the program; the loop starts iff both succeed. |
| Modem.RetryTrace | tun-modem.go:160-184 | A failed dial is followed by a 5 s sleep; a session ends with one close, after the inbound pump, then a 1 s sleep. |
| Modem.FramesFitBuffer | tun-modem.go:228 | No outbound frame exceeds the 1500-byte buffer. |
| Debug.VlessHandshake | tun-e3372h-debug.go:212-220 | The literal is 39 bytes. |
| Debug.FrameBytes | tun-e3372h-debug.go:212-220 | The frame starts with the client UUID and past it is zero except index 34 (3) and index 38 (1). |
| Debug.DivergesFromStableAt37 | tun-e3372h-debug.go:212-220 | Bytes 0..36 agree with the 42-byte frame. At index 37 this frame has 0 where the stable one has address type 1. |
| Debug.VpsHost | tun-e3372h-debug.go:50 | The resolved host is the argument minus its last 5 characters. |
| Debug.VpsHostNeedsFourDigitPort | tun-e3372h-debug.go:50 | The host is recovered exactly when the port has 4 digits. |
| Debug.WsUrl | tun-e3372h-debug.go:206 | `ws://target/tun` keeps the whole target. |
| Debug.DialVLESSWS | tun-e3372h-debug.go:195-228 | A connection is returned iff the dial and the write succeed. It is then open, with the 39-byte frame written and no read. A failed write closes it. |
| Debug.RetryTrace | tun-e3372h-debug.go:170-193 | A failed dial is followed by a 5 s sleep; a session ends with one close, then a 1 s sleep. |
| Debug.FramesFitBuffer | tun-e3372h-debug.go:27 | No outbound frame exceeds 2048 bytes. |
| Optimized.VlessHandshake | tun-optimized.go:191-199 | The frame is 39 bytes, zero except index 34 (3) and index 38 (1). |
| Optimized.DebugFrameWithoutUuid | tun-optimized.go:191-199 | The frame is the debug build's frame with its UUID zeroed. |
| Optimized.ServerName | tun-optimized.go:177 | The server name is the target minus its last 4 characters. |
| Optimized.ServerNameNeedsThreeDigitPort | tun-optimized.go:129 | The strip recovers the host exactly when the port has 3 digits. |
| Optimized.WssUrl | tun-optimized.go:185 | `wss://target/vless` keeps the whole target. |
| Optimized.DialVLESSWS | tun-optimized.go:174-207 | A connection is returned iff the dial and the write succeed. It is then open, with the frame written and nothing read. A failed write closes it. |
| Optimized.SetupRouting | tun-optimized.go:123-151 | The /32 route via 192.168.1.1 is attempted first. The split routes through `tun-e3372h` are attempted only if it was installed, so the host route always comes first. |
| Optimized.Startup | tun-optimized.go:50-59 | The loop starts iff the TUN device and routing both succeed. |
| Optimized.RetryTrace | tun-optimized.go:153-172 | A failed dial is followed by a 5 s sleep; a session ends with one close, then a 1 s sleep. |
| Optimized.FramesFitBuffer | tun-optimized.go:30 | No outbound frame exceeds 2048 bytes. |
| Android.VlessHandshake | tun-android.go:166-174 | The literal is 39 bytes. |
| Android.SameFrameAsOptimized | tun-android.go:166-174 | The Android frame is byte for byte the optimized build's. |
| Android.ServerName | tun-android.go:152 | The server name is the target minus its last 4 characters. |
| Android.ServerNameNeedsThreeDigitPort | tun-android.go:112 | The strip recovers the host exactly when the port has 3 digits. |
| Android.WssUrl | tun-android.go:160 | `wss://target/vless` keeps the whole target. |
| Android.DialVLESSWS | tun-android.go:149-182 | A connection is returned iff the dial and the write succeed. It is then open, with the frame written and nothing read. A failed write closes it. |
| Android.Startup | tun-android.go:46-57 | A routing error is only a warning: the loop starts iff the TUN device came up. |
| Android.RetryTrace | tun-android.go:125-147 | A failed dial is followed by a 5 s sleep; a session ends with one close, then a 1 s sleep. |
| Android.FramesFitBuffer | tun-android.go:27 | No outbound frame exceeds 2048 bytes. |
| SimpleHandshake.Uuid | tun-simple-handshake.go:170-173 | The first frame is 16 bytes. |
| SimpleHandshake.UuidIsStablePrefix | tun-simple-handshake.go:170-173 | The first frame is the stable frame's UUID field, the UUID its comment names. |
| SimpleHandshake.VpsHost | tun-simple-handshake.go:47 | The resolved host is the argument minus its last 5 characters. |
| SimpleHandshake.VpsHostNeedsFourDigitPort | tun-simple-handshake.go:47 | The host is recovered exactly when the port has 4 digits. |
| SimpleHandshake.WsUrl | tun-simple-handshake.go:163 | `ws://target/tun` keeps the whole target. |
| SimpleHandshake.DialVLESSWS | tun-simple-handshake.go:152-182 | A connection is returned iff the dial and the UUID write succeed. It is then open, with the UUID written and nothing read. A failed write closes it. |
| SimpleHandshake.RetryTrace | tun-simple-handshake.go:127-150 | A failed dial is followed by a 5 s sleep; a session ends with one close, then a 2 s sleep. |
| SimpleHandshake.FramesFitBuffer | tun-simple-handshake.go:27 | No outbound frame exceeds 2048 bytes. |
| Simpl.DataChunks | tun-simpl.go:243-255 | A script delivers at most one packet per read. |
| Simpl.DataChunksFit | tun-simpl.go:236-243 | No packet read is longer than the buffer it was read into. |
| Simpl.DataChunksAppend | tun-simpl.go:98-118 | The packets of two scripts run back to back are the packets of each, concatenated. |
| Simpl.TunToConn | tun-simpl.go:211-233 | The goroutine sends no more frames than reads or successful writes, and a write error comes only after `budget` frames. |
| Simpl.ConnToTun | tun-simpl.go:236-260 | The inbound loop writes no more packets than reads or successful writes, and a write error comes only after `budget` packets. |
| Simpl.FirstFailure | tun-simpl.go:244-252 | The reference for the read that ends the inbound loop: the first read that failed other than by timing out, with no failure before it. |
| Simpl.Listener | tun-simpl.go:98-118 | The listener stops only on cancellation, never on a read error. |
| Simpl.PumpTunToConn | tun-simpl.go:211-233 | The goroutine loop over its 1500-byte buffer writes exactly the frames of `TunToConn`, and stops for the same reason. |
| Simpl.PumpConnToTun | tun-simpl.go:236-260 | The inbound loop writes exactly the packets of `ConnToTun`, and stops for the same reason. |
| Simpl.DialVLESS | tun-simpl.go:264-268 | A plain dial: it succeeds iff the network says so and writes nothing. |
| Simpl.HandleTunTraffic | tun-simpl.go:197-261 | One dial with no retry. On failure nothing is relayed and nothing is closed. On success the inbound loop runs, and the deferred close runs exactly once when it returns; the connection stays open only while the loop is still blocked. No handshake is ever written. |
| Simpl.ReadFresh | tun-simpl.go:103-105 | A read into a freshly allocated 1500-byte buffer yields the packet cut to 1500 bytes, or nothing on error. |
| Simpl.StartRawSocketListener | tun-simpl.go:88-119 | A failed `ListenPacket` returns at once. Otherwise the packets forwarded are those of `Listener`, and the socket is closed once iff the loop was cancelled. |
| Simpl.TunToConnSkipsReadErrors | tun-simpl.go:211-233 | The outbound goroutine never stops on a read error. Its frames are a prefix of the packets read, in order. It stops on a write error only after `budget` frames with a packet left to send. When not cancelled it stops at the first refused write, or, with enough writes, sends every packet. |
| Simpl.TunToConnNeverReadFailed | tun-simpl.go:218-224 | A failed TUN read never ends the outbound goroutine. |
| Simpl.TunToConnPrefix | tun-simpl.go:218-230 | The frames sent are a prefix of the packets read, in read order. |
| Simpl.TunToConnComplete | tun-simpl.go:211-233 | With no cancellation and no refused write, every packet read is sent. |
| Simpl.TunToConnWriteFailedAtBudget | tun-simpl.go:227-230 | A refused write ends the goroutine only after `budget` frames, with one more packet read and not sent. |
| Simpl.TunToConnStopsAtRefusedWrite | tun-simpl.go:211-233 | Not cancelled, the goroutine stops at the first refused write, having sent exactly the packets read before it. |
| Simpl.ConnToTunRetriesTimeouts | tun-simpl.go:236-260 | The inbound loop stops on a read error iff it reaches the first non-timeout failure before cancellation with every packet before it written, and then it has written exactly those packets. It stops on a write error only after `budget` packets read before that failure, and whenever it reaches more packets than accepted writes before cancellation it stops at the first refused write with exactly the packets before it. Its packets are a prefix of those read, in order. With no failure, no cancellation and enough writes it delivers all of them. |
| Simpl.ConnToTunStopsAtFailure | tun-simpl.go:244-252 | A timeout is retried and the first other read error ends the loop: it ends with a read failure iff that read is reached before cancellation and every packet before it was written, and nothing after it is written. |
| Simpl.ConnToTunWriteFailedAtBudget | tun-simpl.go:255-258 | A refused write to the device ends the loop only after `budget` packets, with another packet read before the first failure. |
| Simpl.ConnToTunStopsAtRefusedWrite | tun-simpl.go:236-260 | If the loop reaches more packets than accepted writes before the first failure and before cancellation, it stops at the first refused write, having written exactly the packets read before it. |
| Simpl.ConnToTunPrefix | tun-simpl.go:243-258 | The packets written to the device are a prefix of those read, in order. |
| Simpl.ConnToTunComplete | tun-simpl.go:236-260 | With no failed read, no cancellation and no refused write, every packet read is written. |
| Simpl.ChunksFitBuffer | tun-simpl.go:236 | No chunk written to the device exceeds 1500 bytes. |
| SimplProxy.Header.Add | tun-simpl.go:172 | `Add` appends the value to the key's list and leaves the other keys alone. |
| SimplProxy.Header.Set | tun-simpl.go:165 | `Set`, as `http.Error` uses it, replaces the key's values with the single value and leaves the other keys alone. |
| SimplProxy.Header.AddAll | tun-simpl.go:171-173 | The inner loop appends all the values, in order, to the key's list. |
| SimplProxy.Header.CopyFrom | tun-simpl.go:170-174 | Whatever order the keys are visited in, each key ends with its old values followed by all the incoming ones. A key with no incoming values is not added. |
| SimplProxy.NonEmpty | tun-simpl.go:170-174 | Every key keeps exactly its values. |
| SimplProxy.CopyIntoEmpty | tun-simpl.go:170-174 | Starting from an empty header, the copy has exactly the incoming values for every key with any. |
| SimplProxy.TargetUrl | tun-simpl.go:155-160 | The proxied URL has scheme `http` and host `target`, with path and raw query copied unchanged. |
| SimplProxy.ResponseWriter.Error | tun-simpl.go:165 | `http.Error` sets the plain-text content type and `nosniff`, the status, and the message plus a newline as the body. |
| SimplProxy.ProxyRequest | tun-simpl.go:153-194 | The request is built iff `NewRequest` succeeds, carrying the incoming method, body, the target URL and exactly the incoming header values. If it cannot be built the reply is 500 "Failed to create proxy request". If the upstream call fails it is 502 "Failed to proxy request". Otherwise the reply carries the upstream status, body and exactly its header values. |

## Left out

- Strings are modelled as sequences of characters, while Go's `len(target)` and `target[:len(target)-k]` count bytes. The host strips (`Addr.DropSuffix` and every build's `VpsHost` and `ServerName`) agree with the code only when the last `k` bytes of the target are ASCII, as a `:port` suffix is.
- Kept: the order of the installed routes is proved for the three routes `setupAndroidRouting` adds (`KeptOfThree`), not for a list of any length.
- TLS, the WebSocket upgrade and framing (RFC 6455), and the `User-Agent` header. A frame is an opaque byte sequence; only the order and count of writes, reads and closes are modelled.
- Concurrency. The `go forwardTUNtoVLESS` goroutine and the inline pump are modelled one at a time. The outbound goroutine is only started in the retry loop and can outlive the connection it was given; that is not modelled.
- Supervisor.Attempt and Simpl.HandleTunTraffic: the pumps run on their own scripts, not on the `Conn` object. So `Conn.written` and `Conn.readCount` record only the dial sequence (`Finished` says the first frame, and in `tun-simpl.go` nothing). The frames the outbound pump writes to that connection are not recorded there: `go forwardTUNtoVLESS` in the WebSocket builds, and the anonymous goroutine at tun-simpl.go:211-233 in `tun-simpl.go`. Neither are the reads of the inbound pump.
- Real time: sleeps are labelled trace events, and read deadlines become `Timeout` results.
- The kernel module and device node setup (`setupTUNModule`, `setupTUN`, `embed.go`), signals, `optimizeForAndroid`/`optimizeForE3372H`, `debugNetworkConfig`, `testDirectConnection`, the HTTP server's lifecycle in `startHTTPProxy`, `sendToWAN` (a logging stub), and all logging. These are process, file-system and system-call work with no logic of their own.
- The `exec.Command("ip", "route", ...)` calls in the stable, debug and simple-handshake builds (`fixE3372HRouting`, `addTUNRoutes`, `setupSimpleRouting`). Their outcomes are discarded and no later step depends on them. The same goes for those builds' `main`, whose only decisions are the fatal resolution and TUN errors.
- Name resolution, the route library, and `getDefaultGateway`. Resolution is a parameter, and the route library is a table class with the outcomes given. The gateway is the stub's constant 192.168.1.1, whose error branch cannot happen.
- Simpl.PumpConnToTun: a TCP `conn.Read` may return part of the stream; the model treats each read result as one chunk and does not carry leftover bytes into the next read.
- SimplProxy.Header.CopyFrom: key canonicalisation is not modelled; keys are taken as they come.
- SimplProxy.ProxyRequest: `targetURL.String()` escaping and reparsing are not modelled; the URL is kept as its fields. `http.Error` also deletes `Content-Length` and the body is streamed by `io.Copy`; the model sets the body at once.
- SimplProxy.ProxyRequest requires an empty reply header, as a fresh `http.ResponseWriter` has.
- Stable.HexDigit: only lower-case hexadecimal digits are read, as the comment writes them.
- The comment in `buildVLESSHandshake` names the fields "Command (2) + Port (1)", but the code writes the command at index 34 and the port at 35 and 36. The model follows the code.
- `tun-simpl.go` ends with a stray closing brace at line 269 and does not compile as written; the functions above it are modelled as they read.
