/** Failure-compatible wrappers used across the model: `Option` for a value
    that may be absent and `Result` for a computation that may raise. Both
    `Result` supports Dafny's `:-` operator, so that a raised error propagates
    to the caller unchanged, as an uncaught Python exception does. */
module Wrappers {

  datatype Option<+T> = None | Some(value: T)

  datatype Result<+R, +E> = Success(value: R) | Failure(error: E) {

    predicate IsFailure() {
      Failure?
    }

    function PropagateFailure<U>(): Result<U, E>
      requires Failure?
    {
      Failure(error)
    }

    function Extract(): R
      requires Success?
    {
      value
    }
  }
}
