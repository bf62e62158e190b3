/** Option and Result values used in place of Python's `None` and raised exceptions. */
module Wrappers {

  /** A value that may be absent (Python `None`, or a missing dictionary key). */
  datatype Option<+T> = None | Some(value: T) {

    /** The held value, or `default` when absent (Python's `d.get(k, default)`). */
    function GetOr(default: T): T {
      match this
      case Some(v) => v
      case None => default
    }
  }

  /** Either a value or an error message. */
  datatype Result<+T, +E> = Ok(value: T) | Err(error: E)
}
