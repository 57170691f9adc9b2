/** Option and Result, used for Python's `None` and for values that may be an exception instead. */
module Wrappers {
  datatype Option<+T> = None | Some(value: T)

  datatype Result<+T, +E> = Success(value: T) | Failure(error: E)
}
