/**
 * The message connection (impl/conn/ws_conn.go): the close state machine
 * with its normal-closure handshake, the synchronous and queued write paths
 * with their error normalisation, the read loop, the heartbeat (ping sender
 * and pong handler), the deadline helpers and the metadata store. As for the
 * byte-stream connection, run only does its set-up and starts the loops,
 * each loop is a method the caller runs, and select resolves in favour of
 * the close signal.
 */
module WsConnection {
  import opened Wrappers
  import opened Errors
  import opened ConnOption
  import opened Clock
  import opened Framing
  import opened Transport
  import opened AppHandler
  import opened CloseMachine
  import opened Metadata

  // ------------------------------------------------------ error normalisation

  /** websocket.IsCloseError(err, websocket.CloseNormalClosure) */
  predicate IsNormalClose(e: Error)
  {
    e == CloseReceived(NormalClosure)
  }

  /** asyncWrite: a failed write is reported as closed or as unexpectedly closed, nothing else. */
  function NormalizeWriteError(e: Error): (r: Error)
    ensures r == ConnClosed || r == ConnUnexpectedClosed
    ensures r == ConnClosed <==> IsNormalClose(e)
  {
    if IsNormalClose(e) then ConnClosed else ConnUnexpectedClosed
  }

  /** read: a normal-closure error becomes ErrConnClosed, any other read error stays as it is. */
  function NormalizeReadError(e: Error): (r: Error)
    ensures IsNormalClose(e) ==> r == ConnClosed
    ensures !IsNormalClose(e) ==> r == e
  {
    if IsNormalClose(e) then ConnClosed else e
  }

  /**
   * After a failed queued write, close gets the normalised error, so the
   * normal-closure handshake follows exactly when the peer had closed normally.
   */
  lemma WriteFailureHandshakes(e: Error)
    ensures Handshakes(Some(NormalizeWriteError(e))) <==> IsNormalClose(e)
  {
  }

  /** The text frames that carry the given payloads, in order. */
  function Texts(msgs: seq<seq<byte>>): seq<WsFrame>
  {
    if msgs == [] then [] else [TextFrame(msgs[0])] + Texts(msgs[1..])
  }

  // ------------------------------------------------------ the write-loop drain

  /** The frames the write loop sent, the items it took off the queue, the outcomes left, and its error. */
  datatype WsDrainRun = WsDrainRun(frames: seq<WsFrame>, taken: nat, planLeft: seq<Reason>, err: Reason)

  /**
   * asyncWrite's receive-and-write passes: each queued item goes out as one
   * text message, oldest first, until the queue is empty or a write fails;
   * the failure is normalised.
   */
  function WsDrain(queue: seq<seq<byte>>, plan: seq<Reason>): (d: WsDrainRun)
    ensures d.taken <= |queue|
    decreases |queue|
  {
    if queue == [] then WsDrainRun([], 0, plan, None)
    else match NextOutcome(plan)
      case Some(e) => WsDrainRun([], 1, Tail(plan), Some(NormalizeWriteError(e)))
      case None =>
        var d := WsDrain(queue[1..], Tail(plan));
        d.(frames := [TextFrame(queue[0])] + d.frames, taken := 1 + d.taken)
  }

  /**
   * The drain sends items in enqueue order: all of them when no write fails,
   * otherwise those before the failing one; the failure is reported as
   * ErrConnClosed or ErrConnUnexpectedClosed.
   */
  lemma {:induction false} WsDrainIsFifo(queue: seq<seq<byte>>, plan: seq<Reason>)
    ensures var d := WsDrain(queue, plan);
      && (d.err == None ==> d.taken == |queue| && d.frames == Texts(queue))
      && (d.err != None ==>
            && 0 < d.taken && d.frames == Texts(queue[..d.taken - 1])
            && (d.err == Some(ConnClosed) || d.err == Some(ConnUnexpectedClosed)))
    decreases |queue|
  {
    if queue != [] && NextOutcome(plan) == None {
      WsDrainIsFifo(queue[1..], Tail(plan));
      var d := WsDrain(queue[1..], Tail(plan));
      if d.err == None {
        assert queue[1..] == queue[1..][..d.taken];
      } else {
        assert queue[..d.taken][1..] == queue[1..][..d.taken - 1];
      }
    } else if queue != [] {
      assert queue[..0] == [];
    }
  }

  /** A transport whose writes all succeed takes every queued item. */
  lemma {:induction false} HealthyWsDrainSendsAll(queue: seq<seq<byte>>)
    ensures WsDrain(queue, []) == WsDrainRun(Texts(queue), |queue|, [], None)
    decreases |queue|
  {
    if queue != [] {
      HealthyWsDrainSendsAll(queue[1..]);
    }
  }

  /** The rest of a drain, after earlier passes sent `frames` and took `taken` items. */
  function WsDrainFrom(frames: seq<WsFrame>, taken: nat, queue: seq<seq<byte>>, plan: seq<Reason>): WsDrainRun
  {
    var d := WsDrain(queue, plan);
    d.(frames := frames + d.frames, taken := taken + d.taken)
  }

  /** One receive-and-write pass: a failed write ends the drain, a sent item leaves the rest to the next passes. */
  lemma OneWsDrainPass(frames: seq<WsFrame>, taken: nat, queue: seq<seq<byte>>, plan: seq<Reason>)
    requires queue != []
    ensures WsDrainFrom(frames, taken, queue, plan)
      == match NextOutcome(plan)
         case Some(e) => WsDrainRun(frames, taken + 1, Tail(plan), Some(NormalizeWriteError(e)))
         case None => WsDrainFrom(frames + [TextFrame(queue[0])], taken + 1, queue[1..], Tail(plan))
  {
    if NextOutcome(plan) == None {
      var d := WsDrain(queue[1..], Tail(plan));
      AppendAssoc(frames, [TextFrame(queue[0])], d.frames);
    } else {
      assert frames + [] == frames;
    }
  }

  // --------------------------------------------------------------- read loop

  /**
   * The read loop over the peer's messages: what it hands to OnMessage, the
   * error that ends it (which the loop then drops), the messages and replies
   * left, and whether OnMessage's error ended it.
   */
  datatype WsReadRun = WsReadRun(
    delivered: seq<seq<byte>>, dropped: Error, rest: seq<seq<byte>>, repliesLeft: seq<Reason>, byHandler: bool)

  /** read: messages go to OnMessage in arrival order until ReadMessage or OnMessage fails. */
  function WsReads(inbound: seq<seq<byte>>, end: Error, replies: seq<Reason>): (r: WsReadRun)
    ensures |r.rest| < |inbound| || (inbound == [] && r.rest == [])
    decreases |inbound|
  {
    if inbound == [] then WsReadRun([], NormalizeReadError(end), [], replies, false)
    else if Answer(replies) != None then WsReadRun([inbound[0]], Answer(replies).value, inbound[1..], Later(replies), true)
    else
      var r := WsReads(inbound[1..], end, Later(replies));
      r.(delivered := [inbound[0]] + r.delivered)
  }

  /**
   * OnMessage gets the peer's messages in arrival order and none twice: the
   * delivered ones followed by those left are exactly what the peer sent.
   * A failing ReadMessage reports the stream's end error, a normal closure
   * as ErrConnClosed.
   */
  lemma {:induction false} WsReadsInOrder(inbound: seq<seq<byte>>, end: Error, replies: seq<Reason>)
    ensures var r := WsReads(inbound, end, replies);
      && inbound == r.delivered + r.rest
      && (!r.byHandler ==> r.rest == [] && r.dropped == NormalizeReadError(end))
    decreases |inbound|
  {
    if inbound != [] && Answer(replies) == None {
      WsReadsInOrder(inbound[1..], end, Later(replies));
      var r := WsReads(inbound[1..], end, Later(replies));
      AppendAssoc([inbound[0]], r.delivered, r.rest);
    } else if inbound != [] {
      assert inbound == [inbound[0]] + inbound[1..];
    }
  }

  /** The rest of a read run, after earlier passes delivered done. */
  function WsResume(done: seq<seq<byte>>, inbound: seq<seq<byte>>, end: Error, replies: seq<Reason>): WsReadRun
  {
    var r := WsReads(inbound, end, replies);
    r.(delivered := done + r.delivered)
  }

  /** One pass of read's default branch: a failure settles the run, a handled message leaves the rest. */
  lemma OneWsReadPass(done: seq<seq<byte>>, inbound: seq<seq<byte>>, end: Error, replies: seq<Reason>)
    ensures WsResume(done, inbound, end, replies)
      == if inbound == [] then WsReadRun(done, NormalizeReadError(end), [], replies, false)
         else if Answer(replies) != None then WsReadRun(done + [inbound[0]], Answer(replies).value, inbound[1..], Later(replies), true)
         else WsResume(done + [inbound[0]], inbound[1..], end, Later(replies))
  {
    if inbound == [] {
      assert done + [] == done;
    } else if Answer(replies) == None {
      var r := WsReads(inbound[1..], end, Later(replies));
      AppendAssoc(done, [inbound[0]], r.delivered);
    }
  }

  // --------------------------------------------------------------- the class

  /** AsyncWrite's result: its error value, or a send that cannot complete yet because the queue is full. */
  datatype AsyncResult = Done(err: Reason) | Blocked

  /** How a write loop call ends: waiting for the next item, or stopped with its error after close. */
  datatype LoopExit = Waiting | Exited(err: Error)

  /**
   * What close's handshake leaves in the transport's sent frames and write
   * outcomes: for a clean reason one WriteMessage of the normal-closure
   * frame, whose own error is ignored.
   */
  function HandshakeWrites(sent: seq<WsFrame>, plan: seq<Reason>, reason: Reason): (seq<WsFrame>, seq<Reason>)
  {
    if !Handshakes(reason) then (sent, plan)
    else if NextOutcome(plan) == None then (sent + [CloseFrame(NormalClosure, ByeText)], Tail(plan))
    else (sent, Tail(plan))
  }

  class WsConn<V> {
    var closed: bool                   // the closed flag, 0 or 1 in Go
    var closeSignal: bool              // closeChan has been closed
    var writeBuffer: seq<seq<byte>>    // the buffered channel, oldest first
    const capacity: nat                // cap(writeBuffer)
    var ctx: Ctx<V>
    const transport: WsTransport
    var handler: Handler?
    const co: ConnOptions
    var ticker: Option<int>            // the ping ticker's period in nanoseconds, once sendPing has started one
    ghost const owner: Handler         // the handler given at creation
    ghost const log: EffectLog         // the close effects, in the order they happen
    ghost const closesBefore: nat      // transport closes that happened before creation
    ghost const notesBefore: nat       // OnClose calls the handler had before creation

    ghost predicate Valid()
      reads this, transport`closeCount, owner`closeReasons, log`events
    {
      && Usable(co)
      && capacity == co.asyncWriteSize as int
      && |writeBuffer| <= capacity
      && closeSignal == closed
      && (closed ==> ctx == None && handler == null)
      && (!closed ==> ctx.Some? && handler == owner)
      && Notifications(log.events) == (if closed then 1 else 0)
      && Closings(log.events) == (if closed then 1 else 0)
      && transport.closeCount == closesBefore + Closings(log.events)
      && |owner.closeReasons| == notesBefore + Notifications(log.events)
    }

    ghost function State(): CloseState
      reads this, log
    {
      CloseState(closed, log.events)
    }

    constructor (transport: WsTransport, co: ConnOptions, handler: Handler)
      requires CheckValid(co) == None
      ensures Valid() && !closed && fresh(log) && log.events == [] && ticker == None
      ensures writeBuffer == [] && capacity == co.asyncWriteSize as int && ctx == Some(map[])
      ensures this.transport == transport && this.co == co && this.handler == handler && owner == handler
    {
      closed, closeSignal := false, false;
      capacity := co.asyncWriteSize as int;
      writeBuffer := [];
      ctx := Some(map[]);
      this.transport := transport;
      this.handler := handler;
      this.co := co;
      ticker := None;
      owner := handler;
      log := new EffectLog();
      closesBefore := transport.closeCount;
      notesBefore := |handler.closeReasons|;
    }

    method IsClosed() returns (b: bool)
      ensures b == closed
    {
      b := closed;
    }

    /**
     * close(err): only the call that flips the flag acts. It signals close,
     * sends the normal-closure frame and sleeps the grace period when the
     * reason is nil or ErrConnClosed, closes the transport, calls OnClose
     * once and releases ctx and the handler. The transport and the handler
     * append their own effects to the log, so State() records the order of
     * the calls.
     */
    method CloseWith(err: Reason)
      requires Valid()
      modifies this, transport`plan, transport`sent, transport`closeCount, owner`closeReasons, log`events
      ensures Valid() && closed && ticker == old(ticker)
      ensures State() == AfterClose(old(State()), Message, err, Duration(co.closeGracePeriod))
      ensures old(closed) ==> unchanged(this) && unchanged(transport) && unchanged(owner) && unchanged(log)
      ensures !old(closed) ==>
        && (transport.sent, transport.plan) == HandshakeWrites(old(transport.sent), old(transport.plan), err)
        && transport.closeCount == old(transport.closeCount) + 1
        && owner.closeReasons == old(owner.closeReasons) + [err]
        && ctx == None && handler == null && writeBuffer == old(writeBuffer)
    {
      if closed {
        return;
      }
      ghost var before := log.events;
      closed := true;
      closeSignal := true;
      log.events := log.events + [Signalled];
      Handshake(err);
      Shutdown(err);
      ghost var grace := Duration(co.closeGracePeriod);
      ghost var steps := CloseSteps(Message, err, grace);
      assert log.events == before + steps;
      FirstCloseCounts(before, Message, err, grace);
    }

    /**
     * close's handshake: for nil or ErrConnClosed, one WriteMessage of the
     * normal-closure frame (its error ignored), then the grace sleep, which
     * the log records.
     */
    method Handshake(err: Reason)
      modifies transport`plan, transport`sent, log`events
      ensures (transport.sent, transport.plan) == HandshakeWrites(old(transport.sent), old(transport.plan), err)
      ensures log.events == old(log.events)
        + if Handshakes(err) then [CloseFrameSent(NormalClosure, ByeText), Slept(Duration(co.closeGracePeriod))] else []
    {
      if err == None || err == Some(ConnClosed) {
        var _ := transport.WriteClose(NormalClosure, ByeText, log);
        log.events := log.events + [Slept(Duration(co.closeGracePeriod))];
      }
    }

    /** close's end: the transport close, OnClose(err), then ctx and the handler released. */
    method Shutdown(err: Reason)
      requires handler == owner
      modifies this`ctx, this`handler, transport`closeCount, owner`closeReasons, log`events
      ensures ctx == None && handler == null
      ensures transport.closeCount == old(transport.closeCount) + 1
      ensures owner.closeReasons == old(owner.closeReasons) + [err]
      ensures log.events == old(log.events) + [TransportClosed, Notified(err), Released]
    {
      transport.Close(log);
      handler.OnClose(err, log);
      ctx := None;
      handler := null;
      log.events := log.events + [Released];
    }

    /** Close: close(nil), which takes the handshake path. */
    method Close()
      requires Valid()
      modifies this, transport`plan, transport`sent, transport`closeCount, owner`closeReasons, log`events
      ensures Valid() && closed
      ensures State() == AfterClose(old(State()), Message, None, Duration(co.closeGracePeriod))
      ensures old(closed) ==> unchanged(this) && unchanged(transport) && unchanged(owner) && unchanged(log)
      ensures !old(closed) ==>
        && (transport.sent, transport.plan) == HandshakeWrites(old(transport.sent), old(transport.plan), None)
        && transport.closeCount == old(transport.closeCount) + 1
        && owner.closeReasons == old(owner.closeReasons) + [None]
    {
      CloseWith(None);
    }

    method SetWriteDeadline(timeout: int64, now: int)
      modifies transport`writeDeadline
      ensures transport.writeDeadline == Refreshed(co.writeTimeout, timeout, now, old(transport.writeDeadline))
    {
      if co.writeTimeout > 0 {
        transport.SetWriteDeadline(At(now + Duration(timeout)));
      }
    }

    method SetReadDeadline(timeout: int64, now: int)
      modifies transport`readDeadline
      ensures transport.readDeadline == Refreshed(co.readTimeout, timeout, now, old(transport.readDeadline))
    {
      if co.readTimeout > 0 {
        transport.SetReadDeadline(At(now + Duration(timeout)));
      }
    }

    /**
     * Write: ErrConnClosed on a closed connection; otherwise one text
     * message between the two deadline calls, its error returned as it is.
     */
    method Write(data: seq<byte>, now: int) returns (err: Reason)
      requires Valid()
      modifies transport`plan, transport`sent, transport`writeDeadline
      ensures Valid()
      ensures closed ==> err == Some(ConnClosed) && unchanged(transport)
      ensures !closed ==>
        && err == NextOutcome(old(transport.plan)) && transport.plan == Tail(old(transport.plan))
        && transport.sent == (if err == None then old(transport.sent) + [TextFrame(data)] else old(transport.sent))
        && transport.writeDeadline == (if co.writeTimeout > 0 then At(now) else old(transport.writeDeadline))
    {
      var isClosed := IsClosed();
      if isClosed {
        return Some(ConnClosed);
      }
      SetWriteDeadline(co.writeTimeout, now);
      err := transport.WriteMessage(TextFrame(data));
      SetWriteDeadline(0, now);
    }

    /** AsyncWrite: ErrConnClosed when closed; otherwise a send on the bounded queue. */
    method AsyncWrite(data: seq<byte>) returns (r: AsyncResult)
      requires Valid()
      modifies this`writeBuffer
      ensures Valid()
      ensures old(closed) ==> r == Done(Some(ConnClosed)) && writeBuffer == old(writeBuffer)
      ensures !old(closed) && |old(writeBuffer)| < capacity ==> r == Done(None) && writeBuffer == old(writeBuffer) + [data]
      ensures !old(closed) && |old(writeBuffer)| == capacity ==> r == Blocked && writeBuffer == old(writeBuffer)
    {
      var isClosed := IsClosed();
      if isClosed {
        return Done(Some(ConnClosed));
      }
      if |writeBuffer| == capacity {
        return Blocked;
      }
      writeBuffer := writeBuffer + [data];
      r := Done(None);
    }

    method Set(key: string, value: V)
      requires Valid() && !closed
      modifies this`ctx
      ensures Valid() && ctx == Stored(old(ctx), key, value)
    {
      ctx := Some(ctx.value[key := value]);
    }

    method Get(key: string) returns (v: Option<V>)
      ensures v == Lookup(ctx, key)
    {
      if ctx.Some? && key in ctx.value {
        v := Some(ctx.value[key]);
      } else {
        v := None;
      }
    }

    method Del(key: string)
      requires Valid()
      modifies this`ctx
      ensures Valid() && ctx == Removed(old(ctx), key)
    {
      if ctx.Some? {
        ctx := Some(ctx.value - {key});
      }
    }

    // ------------------------------------------------------------- heartbeat

    /**
     * sendPing's start: with PingPeriod 0 it returns; otherwise PingPeriod
     * nanoseconds go to time.NewTicker, which panics on a negative interval
     * (panicked) and starts a ticker on a positive one.
     */
    method StartPinger() returns (panicked: bool)
      modifies this`ticker
      ensures panicked <==> co.pingPeriod < 0
      ensures ticker == if co.pingPeriod > 0 then Some(co.pingPeriod as int) else old(ticker)
    {
      if co.pingPeriod == 0 {
        return false;
      }
      if co.pingPeriod < 0 {
        return true;
      }
      ticker := Some(co.pingPeriod as int);
      panicked := false;
    }

    /**
     * One wake-up of sendPing's select: on the close signal the sender stops
     * (running is false); on a tick it writes a ping whose deadline is
     * WriteTimeout seconds away, whatever WriteTimeout is.
     */
    method PingTick(now: int) returns (running: bool)
      requires ticker.Some?
      modifies transport`pings
      ensures running == !closeSignal
      ensures transport.pings == if running then old(transport.pings) + [now + Duration(co.writeTimeout)]
                                 else old(transport.pings)
    {
      if closeSignal {
        return false;
      }
      transport.WritePing(now + Duration(co.writeTimeout));
      running := true;
    }

    /** handlePong: with PingPeriod 0 nothing is installed; otherwise a pong handler with the PongWait window. */
    method HandlePong()
      modifies transport`pongWait
      ensures transport.pongWait == if co.pingPeriod == 0 then old(transport.pongWait) else Some(co.pongWait)
    {
      if co.pingPeriod == 0 {
        return;
      }
      transport.SetPongHandler(co.pongWait);
    }

    /**
     * A pong arrives: the installed handler sets the read deadline to now
     * plus PongWait seconds directly on the transport, whatever ReadTimeout
     * is; without a handler nothing changes.
     */
    method ReceivePong(now: int)
      modifies transport`readDeadline
      ensures transport.pongWait == None ==> transport.readDeadline == old(transport.readDeadline)
      ensures transport.pongWait.Some? ==> transport.readDeadline == At(now + Duration(transport.pongWait.value))
    {
      if transport.pongWait.Some? {
        transport.SetReadDeadline(At(now + Duration(transport.pongWait.value)));
      }
    }

    // ------------------------------------------------------------ write loop

    /**
     * asyncWrite's receive-and-write passes: queued items go out as text
     * messages, oldest first, until the queue is empty (where Go waits) or a
     * write fails; the write deadline is set before each write and set again
     * with 0 only after a successful one.
     */
    method SendQueued(now: int) returns (err: Reason)
      modifies this`writeBuffer, transport`plan, transport`sent, transport`writeDeadline
      ensures var d := WsDrain(old(writeBuffer), old(transport.plan));
        && err == d.err
        && transport.sent == old(transport.sent) + d.frames
        && transport.plan == d.planLeft
        && writeBuffer == old(writeBuffer)[d.taken..]
    {
      ghost var goal := WsDrain(writeBuffer, transport.plan);
      ghost var q0, s0 := writeBuffer, transport.sent;
      ghost var frames: seq<WsFrame>, taken: nat := [], 0;
      while true
        invariant taken <= |q0| && writeBuffer == q0[taken..]
        invariant transport.sent == s0 + frames
        invariant goal == WsDrainFrom(frames, taken, writeBuffer, transport.plan)
        decreases |writeBuffer|
      {
        if writeBuffer == [] {
          assert frames + [] == frames;
          return None;
        }
        var data := writeBuffer[0];
        OneWsDrainPass(frames, taken, writeBuffer, transport.plan);
        assert writeBuffer[1..] == q0[taken + 1..];
        writeBuffer := writeBuffer[1..];
        SetWriteDeadline(co.writeTimeout, now);
        var e := transport.WriteMessage(TextFrame(data));
        if e != None {
          err := Some(NormalizeWriteError(e.value));
          return;
        }
        SetWriteDeadline(0, now);
        AppendAssoc(s0, frames, [TextFrame(data)]);
        frames, taken := frames + [TextFrame(data)], taken + 1;
      }
    }

    /**
     * asyncWrite: sends queued items in order until the close signal, an
     * empty queue (where Go waits) or a failed write; a stop calls close
     * with ErrConnClosed or with the normalised write error, both of which
     * take the handshake path when the error is ErrConnClosed.
     */
    method WriteLoop(now: int) returns (exit: LoopExit)
      requires Valid()
      modifies this, transport`plan, transport`sent, transport`writeDeadline, transport`closeCount, owner`closeReasons, log`events
      ensures Valid() && ticker == old(ticker)
      ensures old(closed) ==> exit == Exited(ConnClosed) && unchanged(this) && unchanged(transport) && unchanged(owner) && unchanged(log)
      ensures !old(closed) ==> var d := WsDrain(old(writeBuffer), old(transport.plan));
        && writeBuffer == old(writeBuffer)[d.taken..]
        && (d.err == None ==>
              && exit == Waiting && State() == old(State()) && owner.closeReasons == old(owner.closeReasons) && ctx == old(ctx)
              && transport.sent == old(transport.sent) + d.frames && transport.plan == d.planLeft)
        && (d.err != None ==>
              && exit == Exited(d.err.value)
              && State() == AfterClose(old(State()), Message, d.err, Duration(co.closeGracePeriod))
              && owner.closeReasons == old(owner.closeReasons) + [d.err]
              && (transport.sent, transport.plan) == HandshakeWrites(old(transport.sent) + d.frames, d.planLeft, d.err))
    {
      if closeSignal {
        CloseWith(Some(ConnClosed));
        return Exited(ConnClosed);
      }
      var err := SendQueued(now);
      assert Valid();
      if err == None {
        return Waiting;
      }
      CloseWith(err);
      exit := Exited(err.value);
    }

    // ------------------------------------------------------------- read loop

    /**
     * One pass of read's default branch: the read deadline, ReadMessage,
     * the deadline set with 0, OnMessage. It answers the error that ends the
     * loop; as written, that error is a shadowing variable the loop drops.
     */
    method ReadStep(now: int) returns (stop: Reason)
      requires handler == owner
      modifies transport`inbound, transport`readDeadline, owner`received, owner`replies
      ensures var s := old(transport.inbound);
        && (s == [] ==>
              && stop == Some(NormalizeReadError(transport.endError)) && transport.inbound == []
              && owner.received == old(owner.received) && owner.replies == old(owner.replies))
        && (s != [] ==>
              && stop == Answer(old(owner.replies)) && transport.inbound == s[1..]
              && owner.received == old(owner.received) + [s[0]] && owner.replies == Later(old(owner.replies)))
        && transport.readDeadline == (if co.readTimeout <= 0 then old(transport.readDeadline)
                                      else if s != [] then At(now)
                                      else At(now + Duration(co.readTimeout)))
    {
      SetReadDeadline(co.readTimeout, now);
      var msg, e := transport.ReadMessage();
      if e != None {
        return Some(NormalizeReadError(e.value));
      }
      SetReadDeadline(0, now);
      stop := handler.OnMessage(msg);
    }

    /** read's loop up to the error that ends it: what WsReads says of the messages and the replies. */
    method ReadUntilError(now: int) returns (dropped: Error)
      requires handler == owner
      modifies transport`inbound, transport`readDeadline, owner`received, owner`replies
      ensures var r := WsReads(old(transport.inbound), transport.endError, old(owner.replies));
        && dropped == r.dropped
        && owner.received == old(owner.received) + r.delivered
        && owner.replies == r.repliesLeft
        && transport.inbound == r.rest
        && transport.readDeadline == (if co.readTimeout <= 0 then old(transport.readDeadline)
                                      else if r.byHandler then At(now)
                                      else At(now + Duration(co.readTimeout)))
    {
      ghost var goal := WsReads(transport.inbound, transport.endError, owner.replies);
      ghost var recv0 := owner.received;
      ghost var done: seq<seq<byte>> := [];
      assert [] + goal.delivered == goal.delivered;
      while true
        invariant co.readTimeout <= 0 ==> transport.readDeadline == old(transport.readDeadline)
        invariant owner.received == recv0 + done
        invariant goal == WsResume(done, transport.inbound, transport.endError, owner.replies)
        decreases |transport.inbound|
      {
        ghost var s, rep := transport.inbound, owner.replies;
        OneWsReadPass(done, s, transport.endError, rep);
        var stop := ReadStep(now);
        if stop != None {
          AppendAssoc(recv0, done, if s == [] then [] else [s[0]]);
          dropped := stop.value;
          break;
        }
        AppendAssoc(recv0, done, [s[0]]);
        done := done + [s[0]];
      }
    }

    /**
     * read: messages are read and handed to OnMessage until an error. The
     * error is assigned to a variable that shadows the one close receives,
     * so close is called with nil and OnClose(nil) follows, with the
     * normal-closure handshake; only the close signal gives ErrConnClosed.
     */
    method ReadLoop(now: int) returns (err: Reason)
      requires Valid()
      modifies this, transport`inbound, transport`readDeadline, transport`plan, transport`sent, transport`closeCount
      modifies owner`received, owner`replies, owner`closeReasons, log`events
      ensures Valid() && closed && ticker == old(ticker) && writeBuffer == old(writeBuffer)
      ensures old(closed) ==> err == Some(ConnClosed) && unchanged(this) && unchanged(transport) && unchanged(owner) && unchanged(log)
      ensures !old(closed) ==> var r := WsReads(old(transport.inbound), transport.endError, old(owner.replies));
        && err == None
        && owner.received == old(owner.received) + r.delivered
        && owner.replies == r.repliesLeft
        && transport.inbound == r.rest
        && owner.closeReasons == old(owner.closeReasons) + [None]
        && State() == AfterClose(old(State()), Message, None, Duration(co.closeGracePeriod))
        && (transport.sent, transport.plan) == HandshakeWrites(old(transport.sent), old(transport.plan), None)
        && transport.readDeadline == (if co.readTimeout <= 0 then old(transport.readDeadline)
                                      else if r.byHandler then At(now)
                                      else At(now + Duration(co.readTimeout)))
    {
      if closeSignal {
        CloseWith(Some(ConnClosed));
        return Some(ConnClosed);
      }
      var _ := ReadUntilError(now);
      err := None;
      CloseWith(err);
    }

    /**
     * run: nothing on a closed connection; otherwise the read limit is set
     * to MaxMsgSize, the server side starts the ping sender and installs the
     * pong handler, and read and asyncWrite start as goroutines. run returns
     * as soon as both have started, since each loop marks the wait group
     * done on entry, so the connection is still open with its queue and
     * stream untouched; WriteLoop and ReadLoop are the two loops, run in
     * whatever order the caller chooses. A negative PingPeriod on the server
     * side makes the ping sender panic, which ends the process (crashed).
     */
    method Run() returns (started: bool, crashed: bool)
      requires Valid()
      modifies this`ticker, transport`readLimit, transport`pongWait
      ensures started <==> !closed
      ensures crashed <==> started && PingerPanics(co)
      ensures Valid() && State() == old(State())
      ensures !started ==> unchanged(this) && unchanged(transport)
      ensures started ==> transport.readLimit == Some(co.maxMsgSize)
      ensures started && !crashed ==>
        && ticker == (if co.side == ServerSide && co.pingPeriod != 0 then Some(co.pingPeriod as int) else old(ticker))
        && transport.pongWait == (if co.side == ServerSide && co.pingPeriod != 0 then Some(co.pongWait)
                                  else old(transport.pongWait))
    {
      var isClosed := IsClosed();
      if isClosed {
        return false, false;
      }
      started := true;
      crashed := Prepare();
    }

    /**
     * run's set-up: the read limit, then on the server side the ping sender
     * and the pong handler; crashed when the ping sender panics, after which
     * nothing else happens.
     */
    method Prepare() returns (crashed: bool)
      modifies this`ticker, transport`readLimit, transport`pongWait
      ensures crashed <==> PingerPanics(co)
      ensures transport.readLimit == Some(co.maxMsgSize)
      ensures !crashed ==>
        && ticker == (if co.side == ServerSide && co.pingPeriod != 0 then Some(co.pingPeriod as int) else old(ticker))
        && transport.pongWait == (if co.side == ServerSide && co.pingPeriod != 0 then Some(co.pongWait)
                                  else old(transport.pongWait))
    {
      crashed := false;
      transport.SetReadLimit(co.maxMsgSize);
      if co.side == ServerSide {
        crashed := StartPinger();
        if crashed {
          return;
        }
        HandlePong();
      }
    }
  }

  /** CreatewsConn: CheckValid's error and no connection, or a fresh open one. */
  method CreateWsConn<V>(transport: WsTransport, co: ConnOptions, handler: Handler)
    returns (c: WsConn?<V>, err: Reason)
    ensures err == CheckValid(co)
    ensures c == null <==> err != None
    ensures c != null ==>
      && fresh(c) && c.Valid() && !c.closed && c.writeBuffer == [] && c.ctx == Some(map[])
      && c.capacity == co.asyncWriteSize as int && c.transport == transport && c.co == co && c.owner == handler
  {
    err := CheckValid(co);
    if err != None {
      return null, err;
    }
    c := new WsConn(transport, co, handler);
  }

  /** sendPing panics exactly on the server side with a negative PingPeriod. */
  predicate PingerPanics(co: ConnOptions)
  {
    co.side == ServerSide && co.pingPeriod < 0
  }

  /**
   * CheckValid lets a negative PingPeriod through, since it only rejects a
   * non-zero period that is not below PongWait: the defaults with a period
   * of -1 are accepted and a server connection made with them panics in
   * run. CheckValidStrict turns them away.
   */
  lemma NegativePingPeriodPanics()
    ensures var co := Defaults(ServerSide).(pingPeriod := -1);
      && CheckValid(co) == None
      && PingerPanics(co)
      && CheckValidStrict(co) == Some(InvalidConnParam)
  {
  }

  /** Options that pass CheckValidStrict never make run panic, on either side. */
  lemma StrictOptionsNeverPanic(co: ConnOptions)
    requires CheckValidStrict(co) == None
    ensures CheckValid(co) == None && !PingerPanics(co)
  {
  }
}
