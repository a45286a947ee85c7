/** Failure-compatible wrappers: an operation that Ruby would let raise returns
    `Failure(e)` here, and `:-` propagates it the way an exception unwinds. */
module Wrappers {

  datatype Option<+T> = None | Some(value: T)

  datatype Result<+T, +E> = Success(value: T) | Failure(error: E) {

    predicate IsFailure() {
      Failure?
    }

    function PropagateFailure<U>(): Result<U, E>
      requires Failure?
    {
      Failure(error)
    }

    function Extract(): T
      requires Success?
    {
      value
    }
  }

  /** The outcome of a step that returns nothing of interest or raises. */
  datatype Outcome<+E> = Pass | Fail(error: E)
}
