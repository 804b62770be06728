/** Failure-carrying datatypes shared by the rest of the model:
    Option for Python's `value or None`, Result for a value or a list of errors. */
module Wrappers {

  /** Python's "a value or None". */
  datatype Option<+T> = None | Some(value: T) {

    /** Returns the value held in Some, or `default` when None. */
    function GetOr(default: T): T {
      match this
      case Some(v) => v
      case None => default
    }
  }

  /** Either a value or an error value. */
  datatype Result<+R, +E> = Success(value: R) | Failure(error: E)
}
