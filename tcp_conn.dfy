/**
 * The byte-stream connection (impl/conn/tcp_conn.go): the close state
 * machine, the synchronous and queued write paths over writeData, the
 * length-prefixed read loop, and the metadata store. run only starts the
 * loops; each loop is a method the caller runs, one call at a time, and
 * select resolves in favour of the close signal.
 */
module TcpConnection {
  import opened Wrappers
  import opened Errors
  import opened ConnOption
  import opened Clock
  import opened Framing
  import opened Transport
  import opened AppHandler
  import opened CloseMachine
  import opened Metadata

  // ---------------------------------------------------------------- writeData

  /** What the writes of one writeData call amount to. */
  datatype WriteRun = WriteRun(accepted: nat, planLeft: seq<WriteStep>, err: Reason)

  /**
   * writeData's loop: write data[written:] until everything is written or a
   * write reports an error. `accepted` counts the bytes the transport took.
   */
  function RunWrites(p: seq<byte>, plan: seq<WriteStep>): (r: WriteRun)
    ensures r.accepted <= |p|
    ensures r.err == None ==> r.accepted == |p|
    decreases |plan|
  {
    var c := NextWrite(p, plan);
    if c.err != None then WriteRun(c.taken, Tail(plan), c.err)
    else if c.taken == |p| then WriteRun(c.taken, Tail(plan), None)
    else
      var rest := RunWrites(p[c.taken..], plan[1..]);
      WriteRun(c.taken + rest.accepted, rest.planLeft, rest.err)
  }

  /** The rest of writeData's writes, after earlier writes took `written` bytes. */
  function WritesFrom(written: nat, p: seq<byte>, plan: seq<WriteStep>): WriteRun
  {
    var r := RunWrites(p, plan);
    r.(accepted := written + r.accepted)
  }

  /** One write of writeData's loop: it either ends the loop or leaves the rest of p to the next writes. */
  lemma OneWrite(written: nat, p: seq<byte>, plan: seq<WriteStep>)
    ensures var c := NextWrite(p, plan);
      && (c.err == None && c.taken < |p| ==> plan != [] && Tail(plan) == plan[1..])
      && WritesFrom(written, p, plan)
         == if c.err != None || c.taken == |p| then WriteRun(written + c.taken, Tail(plan), c.err)
            else WritesFrom(written + c.taken, p[c.taken..], plan[1..])
  {
  }

  /** The first i bytes and then l more are the first i + l bytes; what is left after them starts at i + l. */
  lemma TakeMore(data: seq<byte>, i: nat, l: nat)
    requires i + l <= |data|
    ensures data[..i] + data[i..][..l] == data[..i + l]
    ensures data[i..][l..] == data[i + l..]
  {
  }

  /** A failed writeData reports the first failing write; every write before it succeeded. */
  lemma {:induction false} WriteErrorIsFirstFailure(p: seq<byte>, plan: seq<WriteStep>)
    requires RunWrites(p, plan).err != None
    ensures var r := RunWrites(p, plan); var k := |plan| - |r.planLeft|;
      && 0 < k <= |plan| && plan[k..] == r.planLeft
      && plan[k - 1].Fail? && r.err == Some(plan[k - 1].err)
      && forall i :: 0 <= i < k - 1 ==> plan[i].Accept?
    decreases |plan|
  {
    var c := NextWrite(p, plan);
    if c.err == None {
      WriteErrorIsFirstFailure(p[c.taken..], plan[1..]);
      var r := RunWrites(p[c.taken..], plan[1..]);
      var k := |plan[1..]| - |r.planLeft|;
      assert plan[1..][k..] == plan[k + 1..];
      forall i | 0 <= i < k
        ensures plan[i].Accept?
      {
        if i > 0 {
          assert plan[i] == plan[1..][i - 1];
        }
      }
    }
  }

  /** An empty payload still costs one zero-length write, whose error (nil on a healthy stream) is the result. */
  lemma EmptyPayloadOneWrite(plan: seq<WriteStep>)
    ensures RunWrites([], plan) == WriteRun(0, Tail(plan), NextWrite([], plan).err)
    ensures plan == [] ==> RunWrites([], plan).err == None
  {
  }

  /** On a stream whose writes all succeed writeData returns nil after writing every byte. */
  lemma HealthyWriteSendsAll(p: seq<byte>)
    ensures RunWrites(p, []) == WriteRun(|p|, [], None)
  {
  }

  // ------------------------------------------------------ the write-loop drain

  /**
   * The queued items the write loop sends before it waits or stops: the bytes
   * the transport took, how many items it took off the queue, and the error.
   */
  datatype DrainRun = DrainRun(wire: seq<byte>, taken: nat, planLeft: seq<WriteStep>, err: Reason)

  function Drain(queue: seq<seq<byte>>, plan: seq<WriteStep>): (d: DrainRun)
    ensures d.taken <= |queue|
    decreases |queue|
  {
    if queue == [] then DrainRun([], 0, plan, None)
    else
      var w := RunWrites(queue[0], plan);
      if w.err != None then DrainRun(queue[0][..w.accepted], 1, w.planLeft, w.err)
      else
        var d := Drain(queue[1..], w.planLeft);
        DrainRun(queue[0] + d.wire, 1 + d.taken, d.planLeft, d.err)
  }

  /**
   * The drain sends items in enqueue order: everything when no write fails,
   * otherwise the items before the failing one and part of that one.
   */
  lemma {:induction false} DrainIsFifo(queue: seq<seq<byte>>, plan: seq<WriteStep>)
    ensures var d := Drain(queue, plan);
      && d.taken <= |queue|
      && (d.err == None ==> d.taken == |queue| && d.wire == Flatten(queue))
      && (d.err != None ==> 0 < d.taken && Flatten(queue[..d.taken - 1]) <= d.wire <= Flatten(queue[..d.taken]))
    decreases |queue|
  {
    if queue != [] {
      var w := RunWrites(queue[0], plan);
      FlattenFirst(queue, 0);
      assert queue[..0] == [];
      if w.err == None {
        DrainIsFifo(queue[1..], w.planLeft);
        var d := Drain(queue[1..], w.planLeft);
        FlattenFirst(queue, d.taken);
        if d.err != None {
          FlattenFirst(queue, d.taken - 1);
          PrependKeepsPrefix(queue[0], Flatten(queue[1..][..d.taken - 1]), d.wire);
          PrependKeepsPrefix(queue[0], d.wire, Flatten(queue[1..][..d.taken]));
        } else {
          assert queue[..1 + d.taken] == queue;
          assert queue[1..][..d.taken] == queue[1..];
        }
      }
    }
  }

  /** The first k + 1 items flatten to the first item followed by the next k. */
  lemma FlattenFirst(queue: seq<seq<byte>>, k: nat)
    requires k < |queue|
    ensures Flatten(queue[..k + 1]) == queue[0] + Flatten(queue[1..][..k])
  {
    assert queue[..k + 1][1..] == queue[1..][..k];
  }

  /** A transport without failures takes every queued byte. */
  lemma {:induction false} HealthyDrainSendsAll(queue: seq<seq<byte>>)
    ensures Drain(queue, []) == DrainRun(Flatten(queue), |queue|, [], None)
    decreases |queue|
  {
    if queue != [] {
      HealthyDrainSendsAll(queue[1..]);
    }
  }

  /** The rest of a drain, after earlier passes sent `sent` and took `taken` items. */
  function DrainFrom(sent: seq<byte>, taken: nat, queue: seq<seq<byte>>, plan: seq<WriteStep>): DrainRun
  {
    var d := Drain(queue, plan);
    d.(wire := sent + d.wire, taken := taken + d.taken)
  }

  /**
   * One receive-and-write pass of the write loop: the oldest item goes to
   * writeData; a failure ends the drain with that item partly sent, success
   * leaves the rest of the queue to the next passes.
   */
  lemma OneDrainPass(sent: seq<byte>, taken: nat, queue: seq<seq<byte>>, plan: seq<WriteStep>)
    requires queue != []
    ensures var w := RunWrites(queue[0], plan);
      DrainFrom(sent, taken, queue, plan)
        == if w.err != None then DrainRun(sent + queue[0][..w.accepted], taken + 1, w.planLeft, w.err)
           else DrainFrom(sent + queue[0], taken + 1, queue[1..], w.planLeft)
  {
    var w := RunWrites(queue[0], plan);
    if w.err == None {
      var d := Drain(queue[1..], w.planLeft);
      assert sent + (queue[0] + d.wire) == (sent + queue[0]) + d.wire;
    }
  }

  // --------------------------------------------------------------- read loop

  /**
   * The read loop over a stream: what it hands to OnMessage, the error that
   * ends it, what is left of the stream and of the handler's replies, and
   * whether OnMessage's error was the one that ended it.
   */
  datatype ReadRun = ReadRun(
    delivered: seq<seq<byte>>, reason: Error, rest: seq<byte>, repliesLeft: seq<Reason>, byHandler: bool)

  /** One pass of the read loop over the stream: a whole frame, or the read error that ends it. */
  datatype FrameRead = Frame(payload: seq<byte>, rest: seq<byte>) | Broken(err: Error)

  /**
   * A 4-byte header read as a big-endian uint32 L, then exactly L payload
   * bytes. L is not checked against MaxMsgSize.
   */
  function ReadFrame(s: seq<byte>, end: Error): (f: FrameRead)
    ensures f.Frame? ==> |f.payload| < Uint32Limit && s == EncodeFrame(f.payload) + f.rest
  {
    match ReadFullOf(s, TcpHeadSize, end)
    case Short(e) => Broken(e)
    case Full(head, s1) =>
      match ReadFullOf(s1, BigEndianUint32(head), end)
      case Short(e) => Broken(e)
      case Full(content, s2) =>
        assert |content| % Uint32Limit == BigEndianUint32(head);
        BigEndianUint32Encodes(head);
        assert EncodeFrame(content) == head + content;
        assert s == (head + content) + s2 by {
          assert s == head + (content + s2);
        }
        Frame(content, s2)
  }

  /**
   * One pass of read's default branch: the payload handed to OnMessage (none
   * or one), the error that ends the loop (None to go on), what is left of
   * the stream and of the handler's replies, and whether OnMessage ran.
   */
  datatype Pass = Pass(got: seq<seq<byte>>, stop: Reason, rest: seq<byte>, repliesLeft: seq<Reason>, handled: bool)

  function ReadPass(s: seq<byte>, end: Error, replies: seq<Reason>): (p: Pass)
    ensures p.handled <==> |p.got| == 1
    ensures !p.handled ==> p.got == [] && p.stop.Some? && p.rest == [] && p.repliesLeft == replies
    ensures p.stop == None ==> |p.rest| < |s|
  {
    match ReadFrame(s, end)
    case Broken(e) => Pass([], Some(e), [], replies, false)
    case Frame(content, rest) => Pass([content], Answer(replies), rest, Later(replies), true)
  }

  /** read: frames go to OnMessage in stream order; the first read or OnMessage error ends the loop. */
  function ReadFrames(s: seq<byte>, end: Error, replies: seq<Reason>): (r: ReadRun)
    ensures |r.rest| <= |s|
    decreases |s|
  {
    var p := ReadPass(s, end, replies);
    if p.stop != None then ReadRun(p.got, p.stop.value, p.rest, p.repliesLeft, p.handled)
    else
      var r := ReadFrames(p.rest, end, p.repliesLeft);
      r.(delivered := p.got + r.delivered)
  }

  /** The rest of a read run, after earlier passes delivered done. */
  function Resume(done: seq<seq<byte>>, s: seq<byte>, end: Error, replies: seq<Reason>): ReadRun
  {
    var r := ReadFrames(s, end, replies);
    r.(delivered := done + r.delivered)
  }

  /** After a pass that lets the loop go on, the run resumes from what the pass left. */
  lemma ResumeAfterPass(done: seq<seq<byte>>, s: seq<byte>, end: Error, replies: seq<Reason>)
    requires ReadPass(s, end, replies).stop == None
    ensures var p := ReadPass(s, end, replies);
      Resume(done, s, end, replies) == Resume(done + p.got, p.rest, end, p.repliesLeft)
  {
    var p := ReadPass(s, end, replies);
    var r := ReadFrames(p.rest, end, p.repliesLeft);
    assert ReadFrames(s, end, replies) == r.(delivered := p.got + r.delivered);
    assert done + (p.got + r.delivered) == (done + p.got) + r.delivered;
  }

  /** A pass that ends the loop settles the whole run. */
  lemma ResumeStops(done: seq<seq<byte>>, s: seq<byte>, end: Error, replies: seq<Reason>)
    requires ReadPass(s, end, replies).stop != None
    ensures var p := ReadPass(s, end, replies);
      Resume(done, s, end, replies) == ReadRun(done + p.got, p.stop.value, p.rest, p.repliesLeft, p.handled)
  {
  }

  /** One frame from the example encoder decodes back to its payload and leaves the rest of the stream untouched. */
  lemma FrameRoundTrip(m: seq<byte>, rest: seq<byte>, end: Error)
    requires |m| < Uint32Limit
    ensures ReadFrame(EncodeFrame(m) + rest, end) == Frame(m, rest)
  {
    var head := PutUint32(|m|);
    var s := EncodeFrame(m) + rest;
    assert EncodeFrame(m) == head + m;
    assert s == head + (m + rest);
    assert s[..TcpHeadSize] == head && s[TcpHeadSize..] == m + rest;
    PutUint32Decodes(|m|);
    assert ReadFullOf(s, TcpHeadSize, end) == Full(head, m + rest);
    assert (m + rest)[..|m|] == m && (m + rest)[|m|..] == rest;
    assert ReadFullOf(m + rest, |m|, end) == Full(m, rest);
  }

  /** A stream of encoded frames is read back as exactly those payloads, in order, ending with the stream's end error. */
  lemma {:induction false} StreamRoundTrip(msgs: seq<seq<byte>>, end: Error)
    requires Framable(msgs)
    ensures ReadFrames(EncodeAll(msgs), end, []) == ReadRun(msgs, end, [], [], false)
    decreases |msgs|
  {
    if msgs != [] {
      FrameRoundTrip(msgs[0], EncodeAll(msgs[1..]), end);
      StreamRoundTrip(msgs[1..], end);
    }
  }

  lemma {:induction false} DeliveredAreFramable(s: seq<byte>, end: Error, replies: seq<Reason>)
    ensures Framable(ReadFrames(s, end, replies).delivered)
    decreases |s|
  {
    var f := ReadFrame(s, end);
    if f.Frame? {
      if Answer(replies) == None {
        DeliveredAreFramable(f.rest, end, Later(replies));
        var r := ReadFrames(f.rest, end, Later(replies));
        assert ReadFrames(s, end, replies).delivered == [f.payload] + r.delivered;
        EncodeAllCons(f.payload, r.delivered);
      } else {
        assert ReadFrames(s, end, replies).delivered == [f.payload];
      }
    }
  }

  lemma {:induction false} DeliveredArePrefix(s: seq<byte>, end: Error, replies: seq<Reason>)
    ensures EncodeAll(ReadFrames(s, end, replies).delivered) <= s
    decreases |s|
  {
    var f := ReadFrame(s, end);
    if f.Frame? {
      if Answer(replies) == None {
        DeliveredArePrefix(f.rest, end, Later(replies));
        var r := ReadFrames(f.rest, end, Later(replies));
        assert ReadFrames(s, end, replies).delivered == [f.payload] + r.delivered;
        EncodeAllCons(f.payload, r.delivered);
        PrependKeepsPrefix(EncodeFrame(f.payload), EncodeAll(r.delivered), f.rest);
      } else {
        assert ReadFrames(s, end, replies).delivered == [f.payload];
        EncodeAllCons(f.payload, []);
        assert [f.payload] + [] == [f.payload];
      }
    }
  }

  lemma {:induction false} HandlerStopKeepsRest(s: seq<byte>, end: Error, replies: seq<Reason>)
    ensures var r := ReadFrames(s, end, replies);
      r.byHandler ==> s == EncodeAll(r.delivered) + r.rest
    decreases |s|
  {
    var f := ReadFrame(s, end);
    if f.Frame? {
      if Answer(replies) == None {
        HandlerStopKeepsRest(f.rest, end, Later(replies));
        var r := ReadFrames(f.rest, end, Later(replies));
        assert ReadFrames(s, end, replies) == r.(delivered := [f.payload] + r.delivered);
        if r.byHandler {
          FrameBeforeRest(s, f.payload, f.rest, r.delivered, r.rest);
        }
      } else {
        assert ReadFrames(s, end, replies) == ReadRun([f.payload], Answer(replies).value, f.rest, Later(replies), true);
        FrameBeforeRest(s, f.payload, f.rest, [], f.rest);
      }
    }
  }

  /** One more frame in front of an already split stream keeps the split. */
  lemma FrameBeforeRest(s: seq<byte>, payload: seq<byte>, tail: seq<byte>, frames: seq<seq<byte>>, rest: seq<byte>)
    requires s == EncodeFrame(payload) + tail
    requires tail == EncodeAll(frames) + rest
    ensures s == EncodeAll([payload] + frames) + rest
  {
    EncodeAllCons(payload, frames);
    assert s == (EncodeFrame(payload) + EncodeAll(frames)) + rest;
  }

  /**
   * OnMessage only ever gets whole frames: what it was given, encoded again,
   * is a prefix of the stream, and when OnMessage ended the loop the rest
   * of the stream follows right after.
   */
  lemma DeliveredAreWholeFrames(s: seq<byte>, end: Error, replies: seq<Reason>)
    ensures var r := ReadFrames(s, end, replies);
      && Framable(r.delivered)
      && EncodeAll(r.delivered) <= s
      && (r.byHandler ==> s == EncodeAll(r.delivered) + r.rest)
  {
    DeliveredAreFramable(s, end, replies);
    DeliveredArePrefix(s, end, replies);
    HandlerStopKeepsRest(s, end, replies);
  }

  /** A header announcing 5 bytes followed by only 3 before the peer hangs up: nothing is delivered. */
  lemma ShortPayloadDeliversNothing(a: byte, b: byte, c: byte, replies: seq<Reason>)
    ensures ReadFrames([0, 0, 0, 5, a, b, c], Eof, replies) == ReadRun([], UnexpectedEof, [], replies, false)
  {
    var s: seq<byte> := [0, 0, 0, 5, a, b, c];
    assert s[..TcpHeadSize] == [0, 0, 0, 5];
    assert BigEndianUint32([0, 0, 0, 5]) == 5;
  }

  // --------------------------------------------------------------- the class

  /** AsyncWrite's result: its error value, or a send that cannot complete yet because the queue is full. */
  datatype AsyncResult = Done(err: Reason) | Blocked

  /** How a write loop call ends: waiting for the next item, or stopped with its error after close. */
  datatype LoopExit = Waiting | Exited(err: Error)

  class TcpConn<V> {
    var closed: bool                   // the closed flag, 0 or 1 in Go
    var closeSignal: bool              // closeChan has been closed
    var writeBuffer: seq<seq<byte>>    // the buffered channel, oldest first
    const capacity: nat                // cap(writeBuffer)
    var ctx: Ctx<V>
    const transport: StreamTransport
    var handler: Handler?
    const co: ConnOptions
    ghost const owner: Handler         // the handler given at creation
    ghost const log: EffectLog         // the close effects, in the order they happen
    ghost const closesBefore: nat      // transport closes that happened before creation
    ghost const notesBefore: nat       // OnClose calls the handler had before creation

    ghost predicate Valid()
      reads this, transport`closeCount, owner`closeReasons, log`events
    {
      && Usable(co)
      && capacity == co.asyncWriteSize as int
      && |writeBuffer| <= capacity
      && closeSignal == closed
      && (closed ==> ctx == None && handler == null)
      && (!closed ==> ctx.Some? && handler == owner)
      && Notifications(log.events) == (if closed then 1 else 0)
      && Closings(log.events) == (if closed then 1 else 0)
      && transport.closeCount == closesBefore + Closings(log.events)
      && |owner.closeReasons| == notesBefore + Notifications(log.events)
    }

    ghost function State(): CloseState
      reads this, log
    {
      CloseState(closed, log.events)
    }

    constructor (transport: StreamTransport, co: ConnOptions, handler: Handler)
      requires CheckValid(co) == None
      ensures Valid() && !closed && fresh(log) && log.events == []
      ensures writeBuffer == [] && capacity == co.asyncWriteSize as int && ctx == Some(map[])
      ensures this.transport == transport && this.co == co && this.handler == handler && owner == handler
    {
      closed, closeSignal := false, false;
      capacity := co.asyncWriteSize as int;
      writeBuffer := [];
      ctx := Some(map[]);
      this.transport := transport;
      this.handler := handler;
      this.co := co;
      owner := handler;
      log := new EffectLog();
      closesBefore := transport.closeCount;
      notesBefore := |handler.closeReasons|;
    }

    method IsClosed() returns (b: bool)
      ensures b == closed
    {
      b := closed;
    }

    /**
     * close(err): only the call that flips the flag acts. The effect log is
     * appended to by the transport's Close and the handler's OnClose
     * themselves, so State() records the order of the calls.
     */
    method CloseWith(err: Reason)
      requires Valid()
      modifies this, transport`closeCount, owner`closeReasons, log`events
      ensures Valid() && closed
      ensures State() == AfterClose(old(State()), Stream, err, Duration(co.closeGracePeriod))
      ensures old(closed) ==> unchanged(this) && unchanged(transport) && unchanged(owner) && unchanged(log)
      ensures !old(closed) ==>
        && transport.closeCount == old(transport.closeCount) + 1
        && owner.closeReasons == old(owner.closeReasons) + [err]
        && ctx == None && handler == null && writeBuffer == old(writeBuffer)
    {
      if closed {
        return;
      }
      ghost var before := log.events;
      closed := true;
      closeSignal := true;
      log.events := log.events + [Signalled];
      transport.Close(log);
      handler.OnClose(err, log);
      ctx := None;
      handler := null;
      log.events := log.events + [Released];
      ghost var steps := CloseSteps(Stream, err, Duration(co.closeGracePeriod));
      assert steps == [Signalled, TransportClosed, Notified(err), Released];
      assert log.events == before + steps;
      FirstCloseCounts(before, Stream, err, Duration(co.closeGracePeriod));
    }

    /** Close: close(nil). */
    method Close()
      requires Valid()
      modifies this, transport`closeCount, owner`closeReasons, log`events
      ensures Valid() && closed
      ensures State() == AfterClose(old(State()), Stream, None, Duration(co.closeGracePeriod))
      ensures old(closed) ==> unchanged(this) && unchanged(transport) && unchanged(owner) && unchanged(log)
      ensures !old(closed) ==>
        && transport.closeCount == old(transport.closeCount) + 1
        && owner.closeReasons == old(owner.closeReasons) + [None]
    {
      CloseWith(None);
    }

    method SetWriteDeadline(timeout: int64, now: int)
      modifies transport`writeDeadline
      ensures transport.writeDeadline == Refreshed(co.writeTimeout, timeout, now, old(transport.writeDeadline))
    {
      if co.writeTimeout > 0 {
        transport.SetWriteDeadline(At(now + Duration(timeout)));
      }
    }

    method SetReadDeadline(timeout: int64, now: int)
      modifies transport`readDeadline
      ensures transport.readDeadline == Refreshed(co.readTimeout, timeout, now, old(transport.readDeadline))
    {
      if co.readTimeout > 0 {
        transport.SetReadDeadline(At(now + Duration(timeout)));
      }
    }

    /**
     * writeData's loop: write data[written:] until everything is written or
     * a write reports an error; the transport takes what RunWrites says.
     */
    method WriteFully(data: seq<byte>) returns (err: Reason)
      modifies transport`plan, transport`wire
      ensures var r := RunWrites(data, old(transport.plan));
        && err == r.err && transport.plan == r.planLeft
        && transport.wire == old(transport.wire) + data[..r.accepted]
    {
      var length := |data|;
      var written := 0;
      ghost var goal := RunWrites(data, transport.plan);
      ghost var wire0 := transport.wire;
      assert data[0..] == data;
      while true
        invariant written <= length
        invariant transport.wire == wire0 + data[..written]
        invariant goal == WritesFrom(written, data[written..], transport.plan)
        decreases |transport.plan|, length - written
      {
        OneWrite(written, data[written..], transport.plan);
        var l, e := transport.Write(data[written..]);
        AppendAssoc(wire0, data[..written], data[written..][..l]);
        TakeMore(data, written, l);
        if e != None {
          err := e;
          break;
        }
        if written + l == length {
          written := written + l;
          err := None;
          break;
        }
        written := written + l;
      }
    }

    /**
     * writeData: the write deadline is set, the loop runs, and the deadline
     * is set again with 0, which leaves it at now rather than clearing it.
     */
    method WriteData(data: seq<byte>, now: int) returns (err: Reason)
      modifies transport`plan, transport`wire, transport`writeDeadline
      ensures var r := RunWrites(data, old(transport.plan));
        && err == r.err && transport.plan == r.planLeft
        && transport.wire == old(transport.wire) + data[..r.accepted]
      ensures transport.writeDeadline == if co.writeTimeout > 0 then At(now) else old(transport.writeDeadline)
    {
      SetWriteDeadline(co.writeTimeout, now);
      err := WriteFully(data);
      SetWriteDeadline(0, now);
    }

    /** Write: ErrConnClosed on a closed connection, otherwise writeData. */
    method Write(data: seq<byte>, now: int) returns (err: Reason)
      requires Valid()
      modifies transport`plan, transport`wire, transport`writeDeadline
      ensures Valid()
      ensures closed ==> err == Some(ConnClosed) && unchanged(transport)
      ensures !closed ==> var r := RunWrites(data, old(transport.plan));
        && err == r.err && transport.plan == r.planLeft
        && transport.wire == old(transport.wire) + data[..r.accepted]
        && transport.writeDeadline == (if co.writeTimeout > 0 then At(now) else old(transport.writeDeadline))
    {
      var isClosed := IsClosed();
      if isClosed {
        return Some(ConnClosed);
      }
      err := WriteData(data, now);
    }

    /** AsyncWrite: ErrConnClosed when closed; otherwise a send on the bounded queue. */
    method AsyncWrite(data: seq<byte>) returns (r: AsyncResult)
      requires Valid()
      modifies this`writeBuffer
      ensures Valid()
      ensures old(closed) ==> r == Done(Some(ConnClosed)) && writeBuffer == old(writeBuffer)
      ensures !old(closed) && |old(writeBuffer)| < capacity ==> r == Done(None) && writeBuffer == old(writeBuffer) + [data]
      ensures !old(closed) && |old(writeBuffer)| == capacity ==> r == Blocked && writeBuffer == old(writeBuffer)
    {
      var isClosed := IsClosed();
      if isClosed {
        return Done(Some(ConnClosed));
      }
      if |writeBuffer| == capacity {
        return Blocked;
      }
      writeBuffer := writeBuffer + [data];
      r := Done(None);
    }

    method Set(key: string, value: V)
      requires Valid() && !closed
      modifies this`ctx
      ensures Valid() && ctx == Stored(old(ctx), key, value)
    {
      ctx := Some(ctx.value[key := value]);
    }

    method Get(key: string) returns (v: Option<V>)
      ensures v == Lookup(ctx, key)
    {
      if ctx.Some? && key in ctx.value {
        v := Some(ctx.value[key]);
      } else {
        v := None;
      }
    }

    method Del(key: string)
      requires Valid()
      modifies this`ctx
      ensures Valid() && ctx == Removed(old(ctx), key)
    {
      if ctx.Some? {
        ctx := Some(ctx.value - {key});
      }
    }

    /**
     * asyncWrite's receive-and-write passes: queued items go to writeData
     * oldest first until the queue is empty (where Go waits) or a write fails.
     */
    method SendQueued(now: int) returns (err: Reason)
      modifies this`writeBuffer, transport`plan, transport`wire, transport`writeDeadline
      ensures var d := Drain(old(writeBuffer), old(transport.plan));
        && err == d.err
        && transport.wire == old(transport.wire) + d.wire
        && transport.plan == d.planLeft
        && writeBuffer == old(writeBuffer)[d.taken..]
    {
      ghost var goal := Drain(writeBuffer, transport.plan);
      ghost var q0, w0 := writeBuffer, transport.wire;
      ghost var sent: seq<byte>, taken: nat := [], 0;
      while true
        invariant taken <= |q0| && writeBuffer == q0[taken..]
        invariant transport.wire == w0 + sent
        invariant goal == DrainFrom(sent, taken, writeBuffer, transport.plan)
        decreases |writeBuffer|
      {
        if writeBuffer == [] {
          assert sent + [] == sent;
          return None;
        }
        var data := writeBuffer[0];
        OneDrainPass(sent, taken, writeBuffer, transport.plan);
        ghost var w := RunWrites(data, transport.plan);
        assert writeBuffer[1..] == q0[taken + 1..];
        writeBuffer := writeBuffer[1..];
        err := WriteData(data, now);
        AppendAssoc(w0, sent, data[..w.accepted]);
        if err != None {
          return;
        }
        assert data[..w.accepted] == data;
        sent, taken := sent + data, taken + 1;
      }
    }

    /**
     * asyncWrite: sends queued items in order until the close signal, an
     * empty queue (where Go waits) or a failed write; a stop calls close(err).
     * Only close raises the close signal and this loop calls close only once
     * it has stopped, so in a sequential run testing the signal on entry
     * decides every pass of select the same way.
     */
    method WriteLoop(now: int) returns (exit: LoopExit)
      requires Valid()
      modifies this, transport`plan, transport`wire, transport`writeDeadline, transport`closeCount, owner`closeReasons, log`events
      ensures Valid()
      ensures old(closed) ==> exit == Exited(ConnClosed) && unchanged(this) && unchanged(transport) && unchanged(owner) && unchanged(log)
      ensures !old(closed) ==> var d := Drain(old(writeBuffer), old(transport.plan));
        && transport.wire == old(transport.wire) + d.wire
        && transport.plan == d.planLeft
        && writeBuffer == old(writeBuffer)[d.taken..]
        && (d.err == None ==> exit == Waiting && State() == old(State()) && owner.closeReasons == old(owner.closeReasons) && ctx == old(ctx))
        && (d.err != None ==>
              && exit == Exited(d.err.value)
              && State() == AfterClose(old(State()), Stream, d.err, Duration(co.closeGracePeriod))
              && owner.closeReasons == old(owner.closeReasons) + [d.err])
    {
      if closeSignal {
        CloseWith(Some(ConnClosed));
        return Exited(ConnClosed);
      }
      var err := SendQueued(now);
      assert Valid();
      if err == None {
        return Waiting;
      }
      CloseWith(err);
      exit := Exited(err.value);
    }

    /**
     * One pass of read's default branch: the read deadline, header, payload,
     * the deadline set with 0 while OnMessage runs, OnMessage.
     */
    method ReadStep(now: int) returns (stop: Reason)
      requires handler == owner
      modifies transport`inbound, transport`readDeadline, owner`received, owner`replies
      ensures var p := ReadPass(old(transport.inbound), transport.endError, old(owner.replies));
        && stop == p.stop && transport.inbound == p.rest
        && owner.received == old(owner.received) + p.got && owner.replies == p.repliesLeft
        && transport.readDeadline == (if co.readTimeout <= 0 then old(transport.readDeadline)
                                      else if p.handled then At(now)
                                      else At(now + Duration(co.readTimeout)))
    {
      SetReadDeadline(co.readTimeout, now);
      var head, e1 := transport.ReadFull(TcpHeadSize);
      if e1 != None {
        return e1;
      }
      var left := BigEndianUint32(head);
      var content, e2 := transport.ReadFull(left);
      if e2 != None {
        return e2;
      }
      SetReadDeadline(0, now);
      stop := handler.OnMessage(content);
    }

    /** read's loop up to the error that ends it: what ReadFrames says of the stream and the replies. */
    method ReadUntilError(now: int) returns (reason: Error)
      requires handler == owner
      modifies transport`inbound, transport`readDeadline, owner`received, owner`replies
      ensures var r := ReadFrames(old(transport.inbound), transport.endError, old(owner.replies));
        && reason == r.reason
        && owner.received == old(owner.received) + r.delivered
        && owner.replies == r.repliesLeft
        && transport.inbound == r.rest
        && transport.readDeadline == (if co.readTimeout <= 0 then old(transport.readDeadline)
                                      else if r.byHandler then At(now)
                                      else At(now + Duration(co.readTimeout)))
    {
      ghost var goal := ReadFrames(transport.inbound, transport.endError, owner.replies);
      ghost var recv0 := owner.received;
      ghost var done: seq<seq<byte>> := [];
      while true
        invariant co.readTimeout <= 0 ==> transport.readDeadline == old(transport.readDeadline)
        invariant owner.received == recv0 + done
        invariant goal == Resume(done, transport.inbound, transport.endError, owner.replies)
        decreases |transport.inbound|
      {
        ghost var s, rep := transport.inbound, owner.replies;
        var stop := ReadStep(now);
        ghost var p := ReadPass(s, transport.endError, rep);
        AppendAssoc(recv0, done, p.got);
        if stop != None {
          ResumeStops(done, s, transport.endError, rep);
          reason := stop.value;
          break;
        }
        ResumeAfterPass(done, s, transport.endError, rep);
        done := done + p.got;
      }
    }

    /**
     * read: frames are read and handed to OnMessage until an error; the
     * error (ErrConnClosed on the close signal) becomes close's reason. As
     * in the write loop, the close signal is tested on entry.
     */
    method ReadLoop(now: int) returns (err: Error)
      requires Valid()
      modifies this, transport`inbound, transport`readDeadline, transport`closeCount
      modifies owner`received, owner`replies, owner`closeReasons, log`events
      ensures Valid() && closed && writeBuffer == old(writeBuffer)
      ensures old(closed) ==> err == ConnClosed && unchanged(this) && unchanged(transport) && unchanged(owner) && unchanged(log)
      ensures !old(closed) ==> var r := ReadFrames(old(transport.inbound), transport.endError, old(owner.replies));
        && err == r.reason
        && owner.received == old(owner.received) + r.delivered
        && owner.replies == r.repliesLeft
        && transport.inbound == r.rest
        && owner.closeReasons == old(owner.closeReasons) + [Some(r.reason)]
        && State() == AfterClose(old(State()), Stream, Some(r.reason), Duration(co.closeGracePeriod))
        && transport.readDeadline == (if co.readTimeout <= 0 then old(transport.readDeadline)
                                      else if r.byHandler then At(now)
                                      else At(now + Duration(co.readTimeout)))
    {
      if closeSignal {
        CloseWith(Some(ConnClosed));
        return ConnClosed;
      }
      err := ReadUntilError(now);
      CloseWith(Some(err));
    }

    /**
     * run: nothing on a closed connection; otherwise it starts read and
     * asyncWrite as goroutines and returns as soon as both have started,
     * since each loop marks the wait group done on entry. The connection is
     * left open with its queue and stream untouched; WriteLoop and ReadLoop
     * are the two loops, to be run in whatever order the caller chooses.
     */
    method Run() returns (started: bool)
      requires Valid()
      ensures started <==> !closed
      ensures Valid() && State() == old(State())
    {
      var isClosed := IsClosed();
      started := !isClosed;
    }
  }

  /** CreatetcpConn: CheckValid's error and no connection, or a fresh open one. */
  method CreateTcpConn<V>(transport: StreamTransport, co: ConnOptions, handler: Handler)
    returns (c: TcpConn?<V>, err: Reason)
    ensures err == CheckValid(co)
    ensures c == null <==> err != None
    ensures c != null ==>
      && fresh(c) && c.Valid() && !c.closed && c.writeBuffer == [] && c.ctx == Some(map[])
      && c.capacity == co.asyncWriteSize as int && c.transport == transport && c.co == co && c.owner == handler
  {
    err := CheckValid(co);
    if err != None {
      return null, err;
    }
    c := new TcpConn(transport, co, handler);
  }
}
