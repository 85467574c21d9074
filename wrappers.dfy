/** Option and Result: the absent value and the error path, as plain datatypes. */
module Wrappers {

  /** A value that may be missing (Python's `None`). */
  datatype Option<+T> = None | Some(value: T) {

    /** The value, or `default` when there is none. */
    function GetOr(default: T): T {
      match this
      case Some(v) => v
      case None => default
    }
  }

  /** The outcome of an operation that either succeeds or raises a user-facing error. */
  datatype Result<+T, +E> = Ok(value: T) | Err(error: E)
}
