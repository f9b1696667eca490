/** Option and Result, the failure-compatible wrappers used by the codec. */
module Wrappers {

  datatype Option<+T> = None | Some(value: T)

  /** The result of a Python call that either returns a value or raises. */
  datatype Result<+T, +E> = Success(value: T) | Failure(error: E) {

    predicate IsFailure() {
      Failure?
    }

    function PropagateFailure<U>(): Result<U, E>
      requires Failure?
    {
      Failure(error)
    }

    function Extract(): T
      requires Success?
    {
      value
    }
  }
}
