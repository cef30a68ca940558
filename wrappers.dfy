/** Option and Result, used for JSON nulls and for the exceptions the pipeline raises. */
module Wrappers {

  /** A value that may be JSON `null` (Python `None`, a pandas null cell). */
  datatype Option<+T> = None | Some(value: T)

  /** The value of a computation, or the exception it raised. */
  datatype Result<+R, +E> = Success(value: R) | Failure(error: E)
}
