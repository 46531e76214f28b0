/** Failure-carrying values shared by every module of the model. */
module Wrappers {

  /** Python's `None`-or-value. */
  datatype Option<+T> = None | Some(value: T)

  /** The value an operation returns, or the exception it raises. */
  datatype Result<+T, +E> = Ok(value: T) | Err(error: E)

  /** The outcome of an operation that returns `None` in Python: it passes or raises. */
  datatype Outcome<+E> = Pass | Fail(error: E)
}
