/** Option and Result values used throughout the model. */
module Wrappers {

  /** A value that may be absent: Python's `None` or a present value. */
  datatype Option<+T> = None | Some(value: T)

  /** The outcome of an operation that can fail with an error of type E. */
  datatype Result<+T, +E> = Ok(value: T) | Err(error: E)
}
