/** Failure-compatible results shared by every component model. */
module Wrappers {

  datatype Option<+T> = None | Some(value: T)

  /** The value of a call that may raise: `Failure` carries the raised error. */
  datatype Result<+T, +E> = Success(value: T) | Failure(error: E) {

    predicate IsFailure() {
      Failure?
    }

    function PropagateFailure<U>(): Result<U, E>
      requires Failure?
    {
      Failure(error)
    }

    function Extract(): T
      requires Success?
    {
      value
    }
  }
}
