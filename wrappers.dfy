/** Option and Result, used for null pointers, `absl::optional` values and error returns. */
module Wrappers {

  /** A value that may be absent: a null pointer or an empty `absl::optional`. */
  datatype Option<+T> = None | Some(value: T)

  /** The outcome of an operation that either produces a value or fails with a reason. */
  datatype Result<+T, +E> = Success(value: T) | Failure(error: E)
}
