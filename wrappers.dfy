/** Failure-carrying results used in place of the exceptions the queue layer throws. */
module Wrappers {

  datatype Option<+T> = None | Some(value: T)

  datatype Result<+R, +E> = Ok(value: R) | Err(error: E)

  /** The outcome of an operation that returns nothing on success (a `void` method that may throw). */
  datatype Outcome<+E> = Pass | Fail(error: E)
}
