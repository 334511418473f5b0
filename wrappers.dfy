/** Failure-compatible wrappers shared by every module of the model. */
module Wrappers {

  /** A value that may be absent: JavaScript's `undefined`/`null`, or a search that found nothing. */
  datatype Option<+T> = None | Some(value: T) {
    function GetOr(default: T): T {
      match this
      case Some(v) => v
      case None => default
    }
  }

  /** A computation that either produced a value or stopped with a message (a thrown error). */
  datatype Result<+R, +E> = Ok(value: R) | Err(error: E)
}
