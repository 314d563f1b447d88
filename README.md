# jumper_conn connection core in Dafny

This project models the per-connection logic of jumper_conn, a Go library that
wraps an established transport in a connection object. The library has two
kinds of connection:

- the byte-stream connection (`tcpConn`) sends length-prefixed frames over a `net.Conn`;
- the message connection (`wsConn`) sends text messages over a gorilla/websocket connection.

Both kinds validate their options (`ConnOptions.CheckValid`) when created.
Both keep a bounded outbound queue drained by a write loop, and both run a read
loop that hands incoming payloads to the application's `Handler`. Both close
through a compare-and-swap guard, so only the first `close(err)` acts: it
signals the loops, closes the transport, calls `OnClose(err)` once and
releases the metadata map and the handler. The message connection also sends
a normal-closure frame before closing, and on the server side it runs a ping
sender and a pong handler.

The model is sequential. Each goroutine becomes a method. `run` does its
set-up and returns with the connection still open, as the Go `run` does once
both loops have marked the wait group done on entry; the two loops,
`WriteLoop` and `ReadLoop`, are then run in whatever order the caller chooses.
`select` resolves in favour of the close signal. A write loop that finds the queue empty returns `Waiting` where the Go
loop would block. The transports and the application handler are scripted
objects. The peer's input, the outcomes of the next writes and the handler's
next replies are given up front, and the objects record what was written,
the deadlines, the transport closes and the `OnClose` calls. Time is an
integer clock in nanoseconds, passed to every operation that reads it.

Modules:

- `Errors`: the library's error values and codes, plus the lower-level errors.
- `ConnOption`: the options record, `CheckValid` and the shipped defaults.
- `Clock`: `time.Duration` arithmetic in signed 64 bits, deadlines and the deadline helpers.
- `Framing`: the 4-byte big-endian length prefix.
- `Transport`: the scripted `net.Conn` and `websocket.Conn`.
- `AppHandler`: the scripted handler.
- `Metadata`: the `ctx` map.
- `CloseMachine`: the close sequence as a log of effects, appended to by the connection, the transport and the handler as each acts.
- `TcpConnection` and `WsConnection`: the two connection classes and the specification functions of their loops.

Behaviours of the code that the model keeps as they are:

- The message connection's read loop declares its error with `:=` inside the
  loop (impl/conn/ws_conn.go:232). That shadows the `err` that `close`
  receives (impl/conn/ws_conn.go:219, 251). A failed `ReadMessage` or
  `OnMessage` therefore closes with `nil`, takes the normal-closure
  handshake, and reports `OnClose(nil)`; the error itself is dropped.
  `WsConn.ReadLoop` states this for every way the loop can end.
- `AsyncWrite` is a plain channel send (impl/conn/tcp_conn.go:119,
  impl/conn/ws_conn.go:90), so a caller blocked on a full queue stays blocked
  when the connection closes.
- The deadline helpers set the deadline to now plus the argument in seconds
  (impl/conn/ws_conn.go:144-154). The call with 0 therefore sets it to the
  current instant; it never clears it. `writeData` and the message
  connection's `Write` make that call deferred (impl/conn/tcp_conn.go:94,
  impl/conn/ws_conn.go:78), so it also runs after a failed write; the read
  loops and the message connection's write loop make it only after a
  successful read or write.
- The seconds are turned into a `time.Duration` by a signed 64-bit
  multiplication, which wraps for arguments above 9223372036 seconds.
- The ping ticker's period is `time.Duration(PingPeriod)`, in nanoseconds.
  Every other timeout is in seconds (impl/conn/ws_conn.go:121).
- `CheckValid` accepts a negative PingPeriod, with which the server side's
  ping sender panics (see Findings).

## Model

| member | source | states |
|---|---|---|
| ConnOption.CheckValid | def/conn_option.go:15-23 | nil exactly when the queue size is positive and the ping period is 0 or below the pong window; otherwise ErrInvalidConnParam and nothing else |
| ConnOption.EmptyQueueRejected | def/conn_option.go:16-18 | a queue size of 0 or less is rejected with ErrInvalidConnParam |
| ConnOption.SlowPingRejected | def/conn_option.go:19-21 | a nonzero ping period not below the pong window is rejected with ErrInvalidConnParam |
| ConnOption.NoPingAcceptsAnyPongWait | def/conn_option.go:19 | with ping period 0 and a positive queue size, every pong window is accepted |
| ConnOption.CheckValidReadsThreeFields | def/conn_option.go:15-23 | two option records that agree on queue size, ping period and pong window get the same verdict, so the other five fields never matter |
| ConnOption.CheckValidStrict | def/conn_option.go:15-23 | nil exactly when CheckValid accepts and the ping period is not negative; otherwise ErrInvalidConnParam |
| ConnOption.StrictRejectsOnlyNegativePeriods | def/conn_option.go:19 | the strict validation differs from CheckValid exactly on usable options with a negative ping period |
| ConnOption.DefaultsAreValid | def/conf.go:4-11 | the default ping period is (60*9)/10 = 54 and the shipped defaults pass validation on either side |
| Clock.Wrap64 | impl/conn/tcp_conn.go:142 | the result is a signed 64-bit value congruent to the argument modulo 2^64, as int64 arithmetic wraps; one already in range is kept |
| Clock.Duration | impl/conn/tcp_conn.go:142 | `time.Duration(t)*time.Second`: a signed 64-bit value congruent to t * 10^9 nanoseconds modulo 2^64 |
| Clock.DurationExact | impl/conn/tcp_conn.go:142 | `time.Duration(t)*time.Second` is exactly t * 10^9 nanoseconds for t up to 9223372036 in size |
| Clock.DurationWraps | impl/conn/tcp_conn.go:142 | 9223372037 seconds wraps to a negative duration |
| Clock.Refreshed | impl/conn/tcp_conn.go:140-150 | with a configured timeout of 0 or less the deadline is left alone; otherwise it becomes now plus the argument's wrapped duration, which is not before now for arguments from 0 to 9223372036 |
| Clock.ZeroTimeoutDoesNotClear | impl/conn/ws_conn.go:144-154 | the helper called with 0 sets the deadline to the current instant and never clears it |
| Framing.BigEndianUint32 | impl/conn/tcp_conn.go:214 | the header is read as an unsigned 32-bit value, always below 2^32 |
| Framing.PutUint32 | example/tcp_client/tcp_client.go:77-78 | the example encoder's header is exactly 4 bytes |
| Framing.PutUint32Decodes | example/tcp_client/tcp_client.go:78 | decoding an encoded header gives back the length |
| Framing.BigEndianUint32Encodes | impl/conn/tcp_conn.go:214 | every 4-byte header is the encoding of the value it is read as |
| Framing.EncodeFrame | example/tcp_client/tcp_client.go:76-82 | a frame is 4 header bytes longer than its payload, and the payload follows the header unchanged |
| Framing.EncodeFrameHeader | example/tcp_client/tcp_client.go:76-78 | a frame's header announces the payload length modulo 2^32, because of the uint32 cast |
| Transport.NextWrite | impl/conn/tcp_conn.go:97 | one Write never takes more bytes than it was given, and a healthy stream takes them all without error |
| Transport.ReadFullOf | impl/conn/tcp_conn.go:210-217 | io.ReadFull succeeds exactly when enough bytes remain, and then returns exactly n bytes followed by the untouched rest; a short read at the end of the stream reports EOF exactly when no byte was left and ErrUnexpectedEOF otherwise, and any other stream error as it is |
| Transport.StreamTransport.ReadFull | impl/conn/tcp_conn.go:210 | the stream read used by the read loop: the bytes and stream left as ReadFullOf says, or EOF / ErrUnexpectedEOF / the stream's own error |
| Transport.StreamTransport.Write | impl/conn/tcp_conn.go:97 | conn.Write records the bytes it took on the wire, in order, and reports the scripted error |
| Transport.StreamTransport.Close | impl/conn/tcp_conn.go:160 | one more transport close, appended to the effect log |
| Transport.WsTransport.Close | impl/conn/ws_conn.go:168 | one more transport close, appended to the effect log |
| Transport.WsTransport.WriteClose | impl/conn/ws_conn.go:164-165 | the close frame goes out as one WriteMessage with its scripted outcome, and the log records it |
| Transport.WsTransport.WriteMessage | impl/conn/ws_conn.go:80 | a frame is recorded as sent exactly when its scripted outcome is no error |
| Transport.WsTransport.ReadMessage | impl/conn/ws_conn.go:232 | the peer's next message in order, or the end error once none are left |
| AppHandler.Handler.OnMessage | interf/handler.go:9 | every payload the library hands over is recorded in call order, and the scripted reply is returned |
| AppHandler.Handler.OnClose | interf/handler.go:10 | every close reason is recorded in call order, and the call is appended to the effect log |
| Metadata.LookupAfterStore | impl/conn/tcp_conn.go:123-132 | Get after Set(k, v) returns v, and the other keys keep their values |
| Metadata.LookupAfterRemove | impl/conn/tcp_conn.go:127-136 | after Del(k), Get(k) is nil and the other keys keep their values |
| Metadata.ReleasedStoreIsEmpty | impl/conn/tcp_conn.go:164 | after close releases ctx, Get returns nil and Del does nothing |
| CloseMachine.Handshakes | impl/conn/ws_conn.go:163 | the clean reasons, nil and ErrConnClosed, are the ones that get the close handshake |
| CloseMachine.CloseSteps | impl/conn/ws_conn.go:161-173 | the acting close's effects in order: the signal, the frame and the sleep for a clean reason on a message connection, the transport close, OnClose(reason), the release |
| CloseMachine.CloseStepsShape | impl/conn/tcp_conn.go:152-166 | the acting close signals first, then closes the transport, calls OnClose(reason) and releases, in that order; exactly one notification and one transport close |
| CloseMachine.HandshakeExactlyWhenClean | impl/conn/ws_conn.go:163-167 | the normal-closure frame (1000, "byebye.") and the grace sleep come exactly for a message connection closed with nil or ErrConnClosed, right after the signal and before the transport close |
| CloseMachine.AfterClose | impl/conn/ws_conn.go:157-159 | after any close call the connection is closed |
| CloseMachine.ClosedStaysPut | impl/conn/tcp_conn.go:153-156 | once closed, any further sequence of close calls changes nothing |
| CloseMachine.OnlyFirstCloseActs | impl/conn/ws_conn.go:156-175 | over any sequence of close calls, only the first reason is delivered: one OnClose, one transport close |
| TcpConnection.RunWrites | impl/conn/tcp_conn.go:96-105 | writeData never writes more than it was given, and a nil result means every byte was written |
| TcpConnection.OneWrite | impl/conn/tcp_conn.go:97-104 | one iteration either ends the loop (error or all written) or leaves data[written:] to the next writes |
| TcpConnection.WriteErrorIsFirstFailure | impl/conn/tcp_conn.go:97-100 | a failed writeData reports the first failing write's error; every write before it succeeded |
| TcpConnection.EmptyPayloadOneWrite | impl/conn/tcp_conn.go:96-105 | an empty payload costs exactly one zero-length write and returns that write's error, nil on a healthy stream |
| TcpConnection.HealthyWriteSendsAll | impl/conn/tcp_conn.go:96-107 | on a stream whose writes all succeed, writeData writes every byte and returns nil |
| TcpConnection.Drain | impl/conn/tcp_conn.go:179-188 | the write loop never takes more items than were queued |
| TcpConnection.DrainIsFifo | impl/conn/tcp_conn.go:173-190 | queued items go out in enqueue order: all of them when no write fails, otherwise the ones before the failing item and part of that item |
| TcpConnection.HealthyDrainSendsAll | impl/conn/tcp_conn.go:179-188 | on a healthy stream every queued byte is sent, in order, and the queue empties |
| TcpConnection.OneDrainPass | impl/conn/tcp_conn.go:179-188 | one receive-and-write pass sends the oldest item through writeData; a failure ends the drain, success leaves the rest of the queue |
| TcpConnection.ReadFrame | impl/conn/tcp_conn.go:207-220 | a frame that is read is exactly a 4-byte header announcing the payload length followed by that payload, and the rest of the stream is untouched |
| TcpConnection.ReadFrames | impl/conn/tcp_conn.go:199-230 | the read loop's run: passes repeat until one stops, and what is left of the stream is never longer than the stream |
| TcpConnection.ReadPass | impl/conn/tcp_conn.go:205-228 | OnMessage runs on exactly one payload or on none; a read error leaves nothing; a pass that continues consumes input |
| TcpConnection.ResumeAfterPass | impl/conn/tcp_conn.go:200-229 | after a pass that does not end the loop, the run goes on from what the pass left |
| TcpConnection.ResumeStops | impl/conn/tcp_conn.go:225-228 | a pass that ends the loop settles the delivered payloads and the close reason |
| TcpConnection.FrameRoundTrip | example/tcp_client/tcp_client.go:76-82 | the example encoder's frame decodes back to its payload and leaves the rest of the stream untouched |
| TcpConnection.StreamRoundTrip | impl/conn/tcp_conn.go:209-225 | a stream of encoded frames delivers exactly those payloads, in order, and ends with the stream's end error |
| TcpConnection.DeliveredAreFramable | impl/conn/tcp_conn.go:214-216 | every delivered payload is shorter than 2^32 bytes |
| TcpConnection.DeliveredArePrefix | impl/conn/tcp_conn.go:209-225 | the delivered payloads, encoded again, are a prefix of the stream |
| TcpConnection.HandlerStopKeepsRest | impl/conn/tcp_conn.go:225-228 | when OnMessage ends the loop, the unread stream follows right after the frames delivered |
| TcpConnection.DeliveredAreWholeFrames | impl/conn/tcp_conn.go:209-225 | OnMessage only gets whole frames, in stream order |
| TcpConnection.ShortPayloadDeliversNothing | impl/conn/tcp_conn.go:216-219 | a header announcing 5 bytes followed by 3 bytes and EOF delivers nothing and ends with ErrUnexpectedEOF |
| TcpConnection.TcpConn.constructor | impl/conn/tcp_conn.go:37-45 | an open connection with an empty queue of capacity AsyncWriteSize and an empty ctx |
| TcpConnection.TcpConn.IsClosed | impl/conn/tcp_conn.go:69-71 | reports the closed flag |
| TcpConnection.TcpConn.CloseWith | impl/conn/tcp_conn.go:152-166 | the first call signals, closes the transport once, calls OnClose(err) once and releases ctx and handler, in that order as the effect log records the calls; later calls change nothing |
| TcpConnection.TcpConn.Close | impl/conn/tcp_conn.go:65-67 | close(nil) |
| TcpConnection.TcpConn.SetWriteDeadline | impl/conn/tcp_conn.go:140-144 | the write deadline as Refreshed gives it for WriteTimeout |
| TcpConnection.TcpConn.SetReadDeadline | impl/conn/tcp_conn.go:146-150 | the read deadline as Refreshed gives it for ReadTimeout |
| TcpConnection.TcpConn.WriteFully | impl/conn/tcp_conn.go:96-105 | the loop's error and the bytes on the wire are those RunWrites predicts: data's first accepted bytes, in order |
| TcpConnection.TcpConn.WriteData | impl/conn/tcp_conn.go:83-108 | as WriteFully, and the write deadline is left at now when WriteTimeout is positive, whether the write failed or not, since the reset is deferred |
| TcpConnection.TcpConn.Write | impl/conn/tcp_conn.go:73-80 | ErrConnClosed with no transport write when closed; otherwise writeData's result |
| TcpConnection.TcpConn.AsyncWrite | impl/conn/tcp_conn.go:112-121 | ErrConnClosed and no enqueue when closed; otherwise appended to the queue, which never exceeds AsyncWriteSize |
| TcpConnection.TcpConn.Set | impl/conn/tcp_conn.go:123-125 | stores the value under the key |
| TcpConnection.TcpConn.Get | impl/conn/tcp_conn.go:127-132 | the stored value, or nil for a missing key or a released map |
| TcpConnection.TcpConn.Del | impl/conn/tcp_conn.go:134-136 | removes the key; a no-op on a released map |
| TcpConnection.TcpConn.SendQueued | impl/conn/tcp_conn.go:179-188 | the bytes written, the items taken off the queue and the error are those Drain predicts |
| TcpConnection.TcpConn.WriteLoop | impl/conn/tcp_conn.go:168-194 | ErrConnClosed on the close signal; otherwise the drain, and on a failed write close(err) with that error; when every queued item was sent the connection stays open with ctx untouched |
| TcpConnection.TcpConn.ReadStep | impl/conn/tcp_conn.go:205-228 | one pass as ReadPass says, with the read deadline set before the header and set with 0 before OnMessage |
| TcpConnection.TcpConn.ReadUntilError | impl/conn/tcp_conn.go:199-230 | the payloads delivered, the replies used and the stream left are those ReadFrames predicts |
| TcpConnection.TcpConn.ReadLoop | impl/conn/tcp_conn.go:196-234 | ErrConnClosed on the close signal; otherwise the read or OnMessage error ends the loop and becomes the reason passed to close |
| TcpConnection.TcpConn.Run | impl/conn/tcp_conn.go:236-256 | the loops are started exactly when the connection is open, and run returns with the connection's state unchanged |
| TcpConnection.CreateTcpConn | impl/conn/tcp_conn.go:30-48 | CheckValid's error and no connection, or a fresh open connection with an empty queue of capacity AsyncWriteSize and an empty ctx |
| WsConnection.IsNormalClose | impl/conn/ws_conn.go:199 | `websocket.IsCloseError(err, CloseNormalClosure)`: a received close with status 1000 |
| WsConnection.NormalizeWriteError | impl/conn/ws_conn.go:198-204 | a failed queued write becomes ErrConnClosed exactly when it is a normal-closure close error, otherwise ErrConnUnexpectedClosed |
| WsConnection.NormalizeReadError | impl/conn/ws_conn.go:234-237 | a normal-closure read error becomes ErrConnClosed; any other read error stays as it is |
| WsConnection.WriteFailureHandshakes | impl/conn/ws_conn.go:198-211 | after a failed queued write, close takes the handshake path exactly when the peer had closed normally |
| WsConnection.WsDrain | impl/conn/ws_conn.go:189-207 | the write loop never takes more items than were queued |
| WsConnection.WsDrainIsFifo | impl/conn/ws_conn.go:183-209 | queued items go out as text messages in enqueue order: all of them when no write fails, otherwise those before the failing one, and the error is ErrConnClosed or ErrConnUnexpectedClosed |
| WsConnection.HealthyWsDrainSendsAll | impl/conn/ws_conn.go:189-207 | on a healthy transport every queued item is sent and the queue empties |
| WsConnection.OneWsDrainPass | impl/conn/ws_conn.go:189-207 | one receive-and-write pass: a failed write ends the drain with the normalised error, a sent item leaves the rest |
| WsConnection.WsReads | impl/conn/ws_conn.go:221-249 | the read loop's run: each pass takes one message off the front, so what is left is shorter than the input unless the input was empty |
| WsConnection.HandshakeWrites | impl/conn/ws_conn.go:163-165 | the handshake's one WriteMessage: for a clean reason the close frame is sent when its write succeeds and one write outcome is used either way; otherwise nothing |
| WsConnection.WsReadsInOrder | impl/conn/ws_conn.go:228-247 | the delivered messages followed by those left are exactly what the peer sent; a ReadMessage failure leaves nothing and reports the end error, normalised |
| WsConnection.OneWsReadPass | impl/conn/ws_conn.go:228-246 | one pass of the default branch: a failure settles the run, a handled message leaves the rest |
| WsConnection.WsConn.constructor | impl/conn/ws_conn.go:34-42 | an open connection with an empty queue of capacity AsyncWriteSize, an empty ctx and no ping ticker |
| WsConnection.WsConn.IsClosed | impl/conn/ws_conn.go:67-69 | reports the closed flag |
| WsConnection.WsConn.CloseWith | impl/conn/ws_conn.go:156-175 | the first call signals, sends the normal-closure frame and sleeps only for nil or ErrConnClosed, then closes the transport once, calls OnClose(err) once and releases ctx and handler, in that order as the effect log records the calls; later calls change nothing |
| WsConnection.WsConn.Handshake | impl/conn/ws_conn.go:163-167 | for nil or ErrConnClosed, one WriteMessage of the close frame whose error is ignored, then the grace sleep of CloseGracePeriod seconds as a wrapped 64-bit duration; otherwise no write and no sleep |
| WsConnection.WsConn.Shutdown | impl/conn/ws_conn.go:168-173 | the transport is closed, then OnClose(err) is called, then ctx and the handler are released, in that order in the effect log |
| WsConnection.WsConn.Close | impl/conn/ws_conn.go:63-66 | close(nil), which takes the handshake path |
| WsConnection.WsConn.SetWriteDeadline | impl/conn/ws_conn.go:144-148 | the write deadline as Refreshed gives it for WriteTimeout |
| WsConnection.WsConn.SetReadDeadline | impl/conn/ws_conn.go:150-154 | the read deadline as Refreshed gives it for ReadTimeout |
| WsConnection.WsConn.Write | impl/conn/ws_conn.go:71-82 | ErrConnClosed with no write when closed; otherwise one text message, its raw error returned, and the write deadline left at now when WriteTimeout is positive, after a failed write too, since the reset is deferred |
| WsConnection.WsConn.AsyncWrite | impl/conn/ws_conn.go:84-92 | ErrConnClosed and no enqueue when closed; otherwise appended to the queue, which never exceeds AsyncWriteSize |
| WsConnection.WsConn.Set | impl/conn/ws_conn.go:93-95 | stores the value under the key |
| WsConnection.WsConn.Get | impl/conn/ws_conn.go:97-102 | the stored value, or nil for a missing key or a released map |
| WsConnection.WsConn.Del | impl/conn/ws_conn.go:104-106 | removes the key; a no-op on a released map |
| WsConnection.WsConn.StartPinger | impl/conn/ws_conn.go:116-121 | with PingPeriod 0 it returns; a negative PingPeriod panics in time.NewTicker; a positive one starts a ticker of PingPeriod nanoseconds |
| WsConnection.WsConn.PingTick | impl/conn/ws_conn.go:123-131 | on the close signal the sender stops and sends nothing; on a tick one ping goes out with a deadline WriteTimeout seconds away, as a wrapped 64-bit duration |
| WsConnection.WsConn.HandlePong | impl/conn/ws_conn.go:135-142 | with PingPeriod 0 no pong handler is installed; otherwise one with the PongWait window |
| WsConnection.WsConn.ReceivePong | impl/conn/ws_conn.go:139-141 | an installed pong handler moves the read deadline to now plus PongWait seconds, as a wrapped 64-bit duration, whatever ReadTimeout is |
| WsConnection.WsConn.SendQueued | impl/conn/ws_conn.go:189-208 | the messages sent, the items taken off the queue and the normalised error are those WsDrain predicts |
| WsConnection.WsConn.WriteLoop | impl/conn/ws_conn.go:177-213 | ErrConnClosed on the close signal; otherwise the drain, and on a failed write close with the normalised error, with the handshake exactly when that error is ErrConnClosed; when every queued item was sent the connection stays open with ctx untouched |
| WsConnection.WsConn.ReadStep | impl/conn/ws_conn.go:228-246 | one pass: the read deadline, the next message or the normalised read error, the deadline set with 0, OnMessage's reply |
| WsConnection.WsConn.ReadUntilError | impl/conn/ws_conn.go:221-249 | the messages delivered, the replies used and the messages left are those WsReads predicts |
| WsConnection.WsConn.ReadLoop | impl/conn/ws_conn.go:215-253 | ErrConnClosed on the close signal; otherwise after any read or OnMessage failure close(nil), OnClose(nil) and the handshake, whatever error or reply ended the loop, and the loop returns nil; the read deadline is the one the last pass left |
| WsConnection.WsConn.Run | impl/conn/ws_conn.go:255-291 | nothing on a closed connection; otherwise the set-up runs and the loops are started, the process crashes exactly on the server side with a negative PingPeriod, and the connection is left open |
| WsConnection.WsConn.Prepare | impl/conn/ws_conn.go:261-272 | the read limit becomes MaxMsgSize; a crash exactly on the server side with a negative PingPeriod; otherwise the ticker and the pong handler start only on the server side with a nonzero PingPeriod |
| WsConnection.PingerPanics | impl/conn/ws_conn.go:116-121 | the ping sender runs only on the server side and time.NewTicker panics on a negative period |
| WsConnection.NegativePingPeriodPanics | def/conn_option.go:19 | the server defaults with PingPeriod -1 pass CheckValid, make the ping sender panic, and are rejected by CheckValidStrict |
| WsConnection.StrictOptionsNeverPanic | impl/conn/ws_conn.go:116-121 | options that pass CheckValidStrict also pass CheckValid and never make the ping sender panic |
| WsConnection.CreateWsConn | impl/conn/ws_conn.go:27-45 | CheckValid's error and no connection, or a fresh open connection with an empty queue of capacity AsyncWriteSize and an empty ctx |

## Left out

- Concurrency: the goroutines, `sync.WaitGroup`, the `select` choice, the atomics and the `dataGuard` mutex. `Run` only starts the loops; the loops are methods the caller runs one at a time, and nothing is claimed about races on the unsynchronised `ctx` map, about a concurrent `Write` beside the queue drain, or about other interleavings of the two loops' steps.
- A blocking channel send and receive: a full queue makes `AsyncWrite` return `Blocked` without change, and an empty queue makes the write loop return `Waiting`.
- The `!ok` branches for a closed queue (impl/conn/tcp_conn.go:180, impl/conn/ws_conn.go:190): nothing closes `writeBuffer`, so they cannot be reached.
- gorilla/websocket internals: the frame format, `FormatCloseMessage`'s bytes, `IsCloseError` beyond status 1000, and the read limit's effect on reads. The message transport is scripted.
- `net.Conn` internals: the byte-stream transport is scripted by the bytes the peer sends, one end error, and the outcome of each write.
- Real time: `time.Now` is a parameter, `time.Sleep` is an entry in the effect log, and the ticker's scheduling is not modelled (`PingTick` is one wake-up).
- `fmt.Printf` logging, and the `LocalAddr`, `RemoteAddr` and `GetConn` getters.
- conn.go (pass-through factories), interf/conn.go (an interface), util/*, and the example programs except the frame encoder at example/tcp_client/tcp_client.go:76-82.
- `Handler.Init` (interf/handler.go:8): applications call it, the library does not.
- `def.TcpHeadSize` and `def.ServerSide` are declared in a def file outside the files modelled here. The header size is taken as 4, matching the example encoder, and the side is an enum.
- TcpConnection.TcpConn.SendQueued: does not state the write deadline left after a drain, because tracking it through the loop made the proof too costly; `WriteData` states it for each call.
- TcpConnection.TcpConn.WriteLoop: does not state the write deadline left after a drain, for the same reason.
- WsConnection.WsConn.SendQueued: does not state the write deadline, which is set before each write and set again with 0 only after a successful one.
- WsConnection.WsConn.WriteLoop: does not state the write deadline, for the same reason.
- WsConnection.WsConn.Run: after a crash only the read limit is stated; the process has ended, and whether `handlePong` ran before the ping goroutine panicked is a race.
- TcpConnection.TcpConn.AsyncWrite: queues a copy of the payload; Go queues the caller's slice, so a caller that changes the slice before the write loop sends it changes what is sent.
- WsConnection.WsConn.AsyncWrite: queues a copy of the payload, for the same reason.
- TcpConnection.TcpConn.constructor: keeps a copy of the options; Go keeps the `*ConnOptions` pointer, so options changed after `CheckValid` take effect unvalidated.
- WsConnection.WsConn.constructor: keeps a copy of the options, for the same reason.
- TcpConnection.CreateTcpConn: validates and keeps a copy of the options, for the same reason.
- WsConnection.CreateWsConn: validates and keeps a copy of the options, for the same reason.
- Deadline instants: now plus a duration is an unbounded integer; the range of `time.Time` itself is not modelled.
- Set on a closed connection: Go panics on the nil map, so `Set` requires an open connection.

## Findings

| source | as written | input that shows it | evidently intended | confidence | as-written member | corrected member |
|---|---|---|---|---|---|---|
| def/conn_option.go:19 | a negative PingPeriod passes validation, and on the server side run's ping sender hands it to time.NewTicker (impl/conn/ws_conn.go:121), which panics | the server-side defaults with PingPeriod -1 | a negative PingPeriod is rejected with ErrInvalidConnParam | not executed | WsConnection.NegativePingPeriodPanics | ConnOption.CheckValidStrict |

The connections keep `CheckValid` as written, since that is what their
constructors call; `WsConn.Run` reports the panic as a crash, and
`StrictOptionsNeverPanic` shows that the strict validation rules it out.
