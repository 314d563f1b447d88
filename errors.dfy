/**
 * The error values of jumper_conn (def/error.go) and the lower-level errors
 * that the transports and the application's handler can report.
 */
module Errors {
  import opened Wrappers

  const ErrConnClosedCode: int := 11011
  const ErrConnUnexpectedClosedCode: int := 11012
  const ErrInvalidConnParamCode: int := 11013

  /** websocket status 1000, Normal Closure (section 7.4.1 of RFC 6455) */
  const NormalClosure: int := 1000

  datatype Error =
    | ConnClosed                // def.ErrConnClosed, "conn is closed."
    | ConnUnexpectedClosed      // def.ErrConnUnexpectedClosed
    | InvalidConnParam          // def.ErrInvalidConnParam
    | Eof                       // io.EOF: the stream ended before the first byte of a read
    | UnexpectedEof             // io.ErrUnexpectedEOF: the stream ended inside a read
    | CloseReceived(status: int) // a websocket close error carrying the peer's status code
    | Io(id: int)               // any other transport failure (deadline, reset, ...)
    | App(id: int)              // an error returned by the application's handler

  /** A Go `error` value; None stands for nil. */
  type Reason = Option<Error>
}
