/** Failure-compatible wrappers used across the model: PHP's nullable values
    become Option, and thrown exceptions become the Failure/Fail alternatives. */
module Wrappers {

  /** A nullable value: `None` stands for PHP's `null`. */
  datatype Option<+T> = None | Some(value: T)

  /** The result of a call that either returns a value or throws. */
  datatype Result<+R, +E> = Success(value: R) | Failure(error: E)

  /** The result of a `void` call that either returns normally or throws. */
  datatype Outcome<+E> = Pass | Fail(error: E)
}
