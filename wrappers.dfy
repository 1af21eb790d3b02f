/** Failure-compatible wrappers used across the model. */
module Wrappers {

  /** An optional value (Python's `None` or a present value). */
  datatype Option<+T> = None | Some(value: T)

  /** The outcome of a call that can raise: `Failure` carries the exception text. */
  datatype Result<+R, +E> = Success(value: R) | Failure(error: E)
}
