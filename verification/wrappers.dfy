/** Failure-compatible datatypes used by the model: an optional value and a
    success-or-error result that works with Dafny's `:-` operator. */
module Wrappers {

  /** A value that may be absent (the source's `undefined`). */
  datatype Option<+T> = None | Some(value: T)

  /** Either a computed value or the error that the source would throw. */
  datatype Result<+R, +E> = Success(value: R) | Failure(error: E) {

    predicate IsFailure() {
      Failure?
    }

    function PropagateFailure<U>(): Result<U, E>
      requires Failure?
    {
      Failure(error)
    }

    function Extract(): R
      requires Success?
    {
      value
    }
  }
}
