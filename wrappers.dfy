/** Option and Result, the shapes used for Python's `None` and for raised exceptions. */
module Wrappers {

  /** A Python `Optional[T]`: `None` or a value. */
  datatype Option<+T> = None | Some(value: T)

  /** The outcome of a Python call: the value it returns, or the exception it raises. */
  datatype Result<+R, +E> = Success(value: R) | Failure(error: E)
}
