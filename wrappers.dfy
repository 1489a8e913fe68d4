/** Failure-compatible wrappers shared by the whole model. */
module Wrappers {

  /** A value that may be absent (Python's `None`, a missing key, or `False`). */
  datatype Option<+T> = None | Some(value: T) {

    function GetOr(default: T): T {
      match this
      case Some(v) => v
      case None => default
    }
  }

  /** The outcome of an operation that may raise: the value, or the exception's name. */
  datatype Result<+T> = Ok(value: T) | Err(error: string)
}
