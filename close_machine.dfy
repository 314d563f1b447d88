/**
 * The close state machine both connection kinds share: a compare-and-swap on
 * the closed flag lets only the first close(err) act, and the acting call
 * performs a fixed sequence of effects. The effects are recorded in a log
 * so that their number and order can be stated.
 */
module CloseMachine {
  import opened Wrappers
  import opened Errors

  /** The byte-stream connection (tcp_conn.go) or the message connection (ws_conn.go). */
  datatype Variant = Stream | Message

  datatype Effect =
    | Signalled                                  // close(closeChan)
    | CloseFrameSent(status: int, text: string)  // the normal-closure frame is written
    | Slept(nanos: int)                          // time.Sleep of the grace period, in nanoseconds
    | TransportClosed                            // conn.Close()
    | Notified(reason: Reason)                   // handler.OnClose(err)
    | Released                                   // ctx and handler set to nil

  /**
   * The effects of a connection's close, in the order they happen: the
   * connection records its own steps, and the transport and the handler
   * record theirs when they are called.
   */
  class EffectLog {
    ghost var events: seq<Effect>

    ghost constructor ()
      ensures events == []
    {
      events := [];
    }
  }

  /** The text of the normal-closure frame. */
  const ByeText: string := "byebye."

  /** ws_conn.go: only the clean reasons, nil and ErrConnClosed, get the close handshake. */
  predicate Handshakes(reason: Reason)
  {
    reason == None || reason == Some(ConnClosed)
  }

  /** What the first close(reason) does, in order. */
  function CloseSteps(v: Variant, reason: Reason, grace: int): seq<Effect>
  {
    [Signalled]
    + (if v == Message && Handshakes(reason) then [CloseFrameSent(NormalClosure, ByeText), Slept(grace)] else [])
    + [TransportClosed, Notified(reason), Released]
  }

  /** How many OnClose calls a sequence of effects holds. */
  function Notifications(es: seq<Effect>): nat
  {
    if es == [] then 0 else (if es[0].Notified? then 1 else 0) + Notifications(es[1..])
  }

  /** How many transport closes a sequence of effects holds. */
  function Closings(es: seq<Effect>): nat
  {
    if es == [] then 0 else (if es[0] == TransportClosed then 1 else 0) + Closings(es[1..])
  }

  lemma {:induction false} CountsAppend(a: seq<Effect>, b: seq<Effect>)
    ensures Notifications(a + b) == Notifications(a) + Notifications(b)
    ensures Closings(a + b) == Closings(a) + Closings(b)
  {
    if a == [] {
      assert a + b == b;
    } else {
      assert (a + b)[1..] == a[1..] + b;
      CountsAppend(a[1..], b);
    }
  }

  /** The first close notifies once, closes the transport once, and in this order. */
  lemma CloseStepsShape(v: Variant, reason: Reason, grace: int)
    ensures var steps := CloseSteps(v, reason, grace);
      && Notifications(steps) == 1 && Closings(steps) == 1
      && steps[0] == Signalled
      && steps[|steps| - 3] == TransportClosed
      && steps[|steps| - 2] == Notified(reason)
      && steps[|steps| - 1] == Released
  {
    var hs: seq<Effect> := if v == Message && Handshakes(reason) then [CloseFrameSent(NormalClosure, ByeText), Slept(grace)] else [];
    var tail: seq<Effect> := [TransportClosed, Notified(reason), Released];
    assert CloseSteps(v, reason, grace) == [Signalled] + hs + tail;
    CountsAppend([Signalled] + hs, tail);
    CountsAppend([Signalled], hs);
    assert Notifications(hs) == 0 && Closings(hs) == 0 by {
      if hs != [] {
        assert hs[1..] == [Slept(grace)] && hs[1..][1..] == [];
      }
    }
    assert tail[1..] == [Notified(reason), Released] && tail[1..][1..] == [Released] && tail[1..][1..][1..] == [];
    assert Notifications([Released]) == 0 && Closings([Released]) == 0;
    assert Notifications(tail[1..]) == 1 && Closings(tail[1..]) == 0;
    assert Notifications(tail) == 1 && Closings(tail) == 1;
    assert [Signalled][1..] == [];
    assert Notifications([Signalled]) == 0 && Closings([Signalled]) == 0;
  }

  /** Appending the first close's steps adds exactly one notification and one transport close. */
  lemma FirstCloseCounts(es: seq<Effect>, v: Variant, reason: Reason, grace: int)
    ensures Notifications(es + CloseSteps(v, reason, grace)) == Notifications(es) + 1
    ensures Closings(es + CloseSteps(v, reason, grace)) == Closings(es) + 1
  {
    CloseStepsShape(v, reason, grace);
    CountsAppend(es, CloseSteps(v, reason, grace));
  }

  /** The normal-closure frame and the grace sleep happen exactly for a clean reason on a message connection. */
  lemma HandshakeExactlyWhenClean(v: Variant, reason: Reason, grace: int)
    ensures var steps := CloseSteps(v, reason, grace);
      && (CloseFrameSent(NormalClosure, ByeText) in steps <==> v == Message && Handshakes(reason))
      && (Slept(grace) in steps <==> v == Message && Handshakes(reason))
      && (v == Message && Handshakes(reason) ==>
            steps[1] == CloseFrameSent(NormalClosure, ByeText) && steps[2] == Slept(grace) && steps[3] == TransportClosed)
  {
  }

  /** The closed flag and the effects performed so far. */
  datatype CloseState = CloseState(closed: bool, trace: seq<Effect>)

  /** close(reason): the compare-and-swap on the flag, then CloseSteps if it succeeded. */
  function AfterClose(s: CloseState, v: Variant, reason: Reason, grace: int): (t: CloseState)
    ensures t.closed
  {
    if s.closed then s else CloseState(true, s.trace + CloseSteps(v, reason, grace))
  }

  /** Any sequence of close calls, one after another. */
  function CloseAll(s: CloseState, v: Variant, reasons: seq<Reason>, grace: int): CloseState
    decreases |reasons|
  {
    if reasons == [] then s else CloseAll(AfterClose(s, v, reasons[0], grace), v, reasons[1..], grace)
  }

  lemma {:induction false} ClosedStaysPut(s: CloseState, v: Variant, reasons: seq<Reason>, grace: int)
    requires s.closed
    ensures CloseAll(s, v, reasons, grace) == s
    decreases |reasons|
  {
    if reasons != [] {
      ClosedStaysPut(s, v, reasons[1..], grace);
    }
  }

  /**
   * Whatever sequence of close calls reaches an open connection, the first
   * one's reason is the only one delivered: one OnClose, one transport close.
   */
  lemma {:induction false} OnlyFirstCloseActs(v: Variant, reasons: seq<Reason>, grace: int)
    requires reasons != []
    ensures var t := CloseAll(CloseState(false, []), v, reasons, grace);
      && t.closed
      && t.trace == CloseSteps(v, reasons[0], grace)
      && Notifications(t.trace) == 1 && Closings(t.trace) == 1
      && Notified(reasons[0]) in t.trace
  {
    var first := AfterClose(CloseState(false, []), v, reasons[0], grace);
    assert first.trace == CloseSteps(v, reasons[0], grace);
    ClosedStaysPut(first, v, reasons[1..], grace);
    CloseStepsShape(v, reasons[0], grace);
  }
}
