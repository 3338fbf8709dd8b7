/** Option and Result values for the model's absent values and error paths. */
module Wrappers {

  datatype Option<+T> = None | Some(value: T)

  /** The value of an operation that either produces `value` or throws `error`. */
  datatype Result<+T, +E> = Success(value: T) | Failure(error: E)

  /** The value of an operation that produces nothing but may throw `error`. */
  datatype Outcome<+E> = Pass | Fail(error: E)
}
