/** Results of operations that can fail. */
module Wrappers {
  datatype Result<+T, +E> = Success(value: T) | Failure(error: E) {
    predicate IsFailure() { Failure? }
    function PropagateFailure<U>(): Result<U, E>
      requires Failure?
    {
      Failure(error)
    }
    function Extract(): T
      requires Success?
    {
      value
    }
  }

  /** A failure or nothing to report. */
  datatype Outcome<+E> = Done | Failed(error: E) {
    predicate IsFailure() { Failed? }
    function PropagateFailure<U>(): Result<U, E>
      requires Failed?
    {
      Failure(error)
    }
  }
}
