/** Option and result wrappers shared by every module of the model. */
module Wrappers {

  /** A JavaScript value that may be `undefined`/`null` (None) or present (Some). */
  datatype Option<+T> = None | Some(value: T) {
    function GetOr(default: T): T {
      match this
      case Some(v) => v
      case None => default
    }
  }

  /** The outcome of a route handler: a 200 payload or an HTTP error status with its message. */
  datatype Reply<+T> = Ok(value: T) | Fail(status: int, error: seq<char>)
}
