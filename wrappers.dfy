/** Optional values and success/failure results, usable with `:-`. */
module Wrappers {

  /** Swift's `Optional`: a value or nothing. */
  datatype Option<+T> = None | Some(value: T)

  /** A throwing call: either the value it returns or the error it throws. */
  datatype Result<+T, +E> = Success(value: T) | Failure(error: E) {

    predicate IsFailure() {
      Failure?
    }

    function PropagateFailure<U>(): Result<U, E>
      requires Failure?
    {
      Failure(error)
    }

    function Extract(): T
      requires Success?
    {
      value
    }
  }
}
