/** Failure-compatible wrappers used throughout the model. */
module Wrappers {

  /** An optional value: PHP's "null or a value". */
  datatype Option<+T> = None | Some(value: T)

  /** A value or an error: a PHP call that either returns or throws. */
  datatype Result<+R, +E> = Success(value: R) | Failure(error: E)
}
