/** Failure-carrying wrappers shared by every module of the model. */
module Wrappers {

  /** A value that may be missing: Python's `None` versus a present value. */
  datatype Option<+T> = None | Some(value: T) {
    /** The value, or `default` when it is missing (Python's `x or default` on non-falsy values). */
    function GetOr(default: T): T {
      match this
      case Some(v) => v
      case None => default
    }
  }

  /** The outcome of an operation that raises in the source: a value, or the error it raises. */
  datatype Result<+R> = Ok(value: R) | Err(error: string)
}
