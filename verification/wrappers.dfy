/** Failure-carrying result types shared by the other modules. */
module Wrappers {

  datatype Option<+T> = None | Some(value: T)

  /** The outcome of a Go call that returns a value and an `error`. */
  datatype Result<+R, +E> = Success(value: R) | Failure(error: E)
}
