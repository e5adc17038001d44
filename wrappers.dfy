/** Option and Result, the two failure-carrying wrappers used throughout the model. */
module Wrappers {

  /** A value that may be absent: Python's `None` versus a present value. */
  datatype Option<+T> = None | Some(value: T) {
    function GetOr(default: T): T {
      match this
      case Some(v) => v
      case None => default
    }
  }

  /** The outcome of an operation that may raise: a value or the text of the exception. */
  datatype Result<+T, +E> = Success(value: T) | Failure(error: E)
}
