/** Failure-compatible wrappers used throughout the model: `Option` for values a
    JavaScript object may or may not carry, and `Result` for awaited calls that
    either produce a value or throw. */
module Wrappers {

  datatype Option<+T> = None | Some(value: T)

  /** The outcome of an awaited call: a value, or the thrown error. */
  datatype Result<+R, +E> = Success(value: R) | Failure(error: E) {

    predicate IsFailure() {
      Failure?
    }

    function PropagateFailure<U>(): Result<U, E>
      requires Failure?
    {
      Failure(error)
    }

    function Extract(): R
      requires Success?
    {
      value
    }
  }
}
