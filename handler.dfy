/**
 * The application's Handler (interf/handler.go) as a scripted object: it
 * records every OnMessage payload and every OnClose reason, and answers
 * OnMessage calls from a script of replies (nil once the script is used up).
 */
module AppHandler {
  import opened Wrappers
  import opened Errors
  import opened Framing
  import opened CloseMachine

  /** What the handler answers to the next OnMessage call. */
  function Answer(replies: seq<Reason>): Reason
  {
    if replies == [] then None else replies[0]
  }

  /** The replies left after one OnMessage call. */
  function Later(replies: seq<Reason>): seq<Reason>
  {
    if replies == [] then [] else replies[1..]
  }

  class Handler {
    var received: seq<seq<byte>>   // payloads given to OnMessage, in call order
    var replies: seq<Reason>       // answers to the next OnMessage calls
    var closeReasons: seq<Reason>  // arguments of the OnClose calls, in call order

    constructor (replies: seq<Reason>)
      ensures received == [] && this.replies == replies && closeReasons == []
    {
      received := [];
      this.replies := replies;
      closeReasons := [];
    }

    method OnMessage(data: seq<byte>) returns (err: Reason)
      modifies this`received, this`replies
      ensures received == old(received) + [data]
      ensures err == Answer(old(replies)) && replies == Later(old(replies))
    {
      received := received + [data];
      err := Answer(replies);
      replies := Later(replies);
    }

    /** OnClose(err); the call is recorded in the connection's effect log. */
    method OnClose(err: Reason, ghost log: EffectLog)
      modifies this`closeReasons, log`events
      ensures closeReasons == old(closeReasons) + [err]
      ensures log.events == old(log.events) + [Notified(err)]
    {
      closeReasons := closeReasons + [err];
      log.events := log.events + [Notified(err)];
    }
  }
}
