/**
 * The two transports a connection owns, as scripted objects: the byte stream
 * (Go's net.Conn, read with io.ReadFull) and the message transport
 * (gorilla/websocket's Conn). What the peer sends and how the next writes
 * fare are given when the transport is built; the transport records what was
 * written, its deadlines and how often it was closed.
 */
module Transport {
  import opened Wrappers
  import opened Errors
  import opened ConnOption
  import opened Clock
  import opened Framing
  import opened CloseMachine

  /** How the next Write call on the byte stream fares. */
  datatype WriteStep =
    | Accept(count: nat)            // takes up to count bytes and reports no error
    | Fail(count: nat, err: Error)  // takes up to count bytes, then reports err

  /** What one Write(p) call takes and reports: its (n, err) result. */
  datatype WriteCall = WriteCall(taken: nat, err: Reason)

  function Min(a: nat, b: nat): nat
  {
    if a < b then a else b
  }

  /** The seq without its first element; empty stays empty. */
  function Tail<T>(s: seq<T>): seq<T>
  {
    if s == [] then [] else s[1..]
  }

  /**
   * One Write(p) under the plan. Once the plan is used up the stream is
   * healthy and takes everything it is given.
   */
  function NextWrite(p: seq<byte>, plan: seq<WriteStep>): (c: WriteCall)
    ensures c.taken <= |p|
    ensures plan == [] ==> c == WriteCall(|p|, None)
  {
    if plan == [] then WriteCall(|p|, None)
    else match plan[0]
      case Accept(k) => WriteCall(Min(k, |p|), None)
      case Fail(k, e) => WriteCall(Min(k, |p|), Some(e))
  }

  /** The outcome of io.ReadFull: n bytes and the stream after them, or the error. */
  datatype ReadResult = Full(data: seq<byte>, rest: seq<byte>) | Short(err: Error)

  /**
   * io.ReadFull of n bytes from a stream that holds s and then reports end:
   * EOF when the stream ended before the first byte, ErrUnexpectedEOF when it
   * ended inside the read, and any other error as it is.
   */
  function ReadFullOf(s: seq<byte>, n: nat, end: Error): (r: ReadResult)
    ensures r.Full? <==> n <= |s|
    ensures r.Full? ==> |r.data| == n && s == r.data + r.rest
    ensures r.Short? && end == Eof ==> (r.err == Eof <==> s == [])
    ensures r.Short? && end == Eof && s != [] ==> r.err == UnexpectedEof
    ensures r.Short? && end != Eof ==> r.err == end
  {
    if n <= |s| then Full(s[..n], s[n..])
    else if end == Eof && |s| > 0 then Short(UnexpectedEof)
    else Short(end)
  }

  /** net.Conn, used by the byte-stream connection. */
  class StreamTransport {
    var inbound: seq<byte>        // what the peer still sends
    const endError: Error         // what reads report once inbound is used up
    var plan: seq<WriteStep>      // how the next writes fare
    var wire: seq<byte>           // every byte the transport took, in order
    var readDeadline: Deadline
    var writeDeadline: Deadline
    var closeCount: nat           // calls of Close

    constructor (inbound: seq<byte>, endError: Error, plan: seq<WriteStep>)
      ensures this.inbound == inbound && this.endError == endError && this.plan == plan
      ensures wire == [] && readDeadline == NoDeadline && writeDeadline == NoDeadline && closeCount == 0
    {
      this.inbound := inbound;
      this.endError := endError;
      this.plan := plan;
      wire := [];
      readDeadline, writeDeadline := NoDeadline, NoDeadline;
      closeCount := 0;
    }

    /** io.ReadFull(conn, make([]byte, n)); a failed read uses up what was left. */
    method ReadFull(n: nat) returns (buf: seq<byte>, err: Reason)
      modifies this`inbound
      ensures match ReadFullOf(old(inbound), n, endError)
        case Full(d, rest) => buf == d && err == None && inbound == rest
        case Short(e) => err == Some(e) && inbound == []
    {
      if n <= |inbound| {
        buf, err := inbound[..n], None;
        inbound := inbound[n..];
      } else {
        buf := [];
        err := Some(if endError == Eof && |inbound| > 0 then UnexpectedEof else endError);
        inbound := [];
      }
    }

    /** conn.Write(p): returns how many bytes of p it took and its error. */
    method Write(p: seq<byte>) returns (n: nat, err: Reason)
      modifies this`plan, this`wire
      ensures WriteCall(n, err) == NextWrite(p, old(plan))
      ensures wire == old(wire) + p[..n] && plan == Tail(old(plan))
    {
      var c := NextWrite(p, plan);
      n, err := c.taken, c.err;
      wire := wire + p[..n];
      plan := Tail(plan);
    }

    method SetReadDeadline(d: Deadline)
      modifies this`readDeadline
      ensures readDeadline == d
    {
      readDeadline := d;
    }

    method SetWriteDeadline(d: Deadline)
      modifies this`writeDeadline
      ensures writeDeadline == d
    {
      writeDeadline := d;
    }

    /** conn.Close(); the close is recorded in the connection's effect log. */
    method Close(ghost log: EffectLog)
      modifies this`closeCount, log`events
      ensures closeCount == old(closeCount) + 1
      ensures log.events == old(log.events) + [TransportClosed]
    {
      closeCount := closeCount + 1;
      log.events := log.events + [TransportClosed];
    }
  }

  /** A data or close frame written with WriteMessage (FormatCloseMessage's bytes are not modelled). */
  datatype WsFrame = TextFrame(data: seq<byte>) | CloseFrame(status: int, text: string)

  /** The result of the next WriteMessage under the plan; success once the plan is used up. */
  function NextOutcome(plan: seq<Reason>): Reason
  {
    if plan == [] then None else plan[0]
  }

  /** websocket.Conn, used by the message connection. */
  class WsTransport {
    var inbound: seq<seq<byte>>   // the messages the peer still sends
    const endError: Error         // what ReadMessage reports once they are used up
    var plan: seq<Reason>         // results of the next WriteMessage calls
    var sent: seq<WsFrame>        // frames written successfully, in order
    var pings: seq<int>           // write deadlines of the ping control frames sent
    var readLimit: Option<int64>
    var pongWait: Option<int64>   // the installed pong handler's window in seconds, None when none is installed
    var readDeadline: Deadline
    var writeDeadline: Deadline
    var closeCount: nat

    constructor (inbound: seq<seq<byte>>, endError: Error, plan: seq<Reason>)
      ensures this.inbound == inbound && this.endError == endError && this.plan == plan
      ensures sent == [] && pings == [] && readLimit == None && pongWait == None && closeCount == 0
      ensures readDeadline == NoDeadline && writeDeadline == NoDeadline
    {
      this.inbound := inbound;
      this.endError := endError;
      this.plan := plan;
      sent, pings, readLimit, pongWait := [], [], None, None;
      readDeadline, writeDeadline := NoDeadline, NoDeadline;
      closeCount := 0;
    }

    method WriteMessage(f: WsFrame) returns (err: Reason)
      modifies this`plan, this`sent
      ensures err == NextOutcome(old(plan)) && plan == Tail(old(plan))
      ensures sent == if err == None then old(sent) + [f] else old(sent)
    {
      err := NextOutcome(plan);
      plan := Tail(plan);
      if err == None {
        sent := sent + [f];
      }
    }

    /**
     * WriteMessage(CloseMessage, FormatCloseMessage(status, text)): a close
     * frame, recorded as sent when its outcome is no error; the attempt is
     * recorded in the connection's effect log either way.
     */
    method WriteClose(status: int, text: string, ghost log: EffectLog) returns (err: Reason)
      modifies this`plan, this`sent, log`events
      ensures err == NextOutcome(old(plan)) && plan == Tail(old(plan))
      ensures sent == if err == None then old(sent) + [CloseFrame(status, text)] else old(sent)
      ensures log.events == old(log.events) + [CloseFrameSent(status, text)]
    {
      err := WriteMessage(CloseFrame(status, text));
      log.events := log.events + [CloseFrameSent(status, text)];
    }

    method ReadMessage() returns (msg: seq<byte>, err: Reason)
      modifies this`inbound
      ensures old(inbound) != [] ==> msg == old(inbound)[0] && err == None && inbound == old(inbound)[1..]
      ensures old(inbound) == [] ==> err == Some(endError) && inbound == []
    {
      if inbound != [] {
        msg, err := inbound[0], None;
        inbound := inbound[1..];
      } else {
        msg, err := [], Some(endError);
      }
    }

    /** WriteControl(PingMessage, nil, deadline); its error is ignored by the caller. */
    method WritePing(deadline: int)
      modifies this`pings
      ensures pings == old(pings) + [deadline]
    {
      pings := pings + [deadline];
    }

    method SetReadLimit(limit: int64)
      modifies this`readLimit
      ensures readLimit == Some(limit)
    {
      readLimit := Some(limit);
    }

    /** SetPongHandler with a handler that moves the read deadline `wait` seconds past the pong's arrival. */
    method SetPongHandler(wait: int64)
      modifies this`pongWait
      ensures pongWait == Some(wait)
    {
      pongWait := Some(wait);
    }

    method SetReadDeadline(d: Deadline)
      modifies this`readDeadline
      ensures readDeadline == d
    {
      readDeadline := d;
    }

    method SetWriteDeadline(d: Deadline)
      modifies this`writeDeadline
      ensures writeDeadline == d
    {
      writeDeadline := d;
    }

    /** conn.Close(); the close is recorded in the connection's effect log. */
    method Close(ghost log: EffectLog)
      modifies this`closeCount, log`events
      ensures closeCount == old(closeCount) + 1
      ensures log.events == old(log.events) + [TransportClosed]
    {
      closeCount := closeCount + 1;
      log.events := log.events + [TransportClosed];
    }
  }
}
