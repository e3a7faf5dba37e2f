/** Option, Result and Outcome: the failure-compatible wrappers the parser uses
    in place of the exceptions the C# code throws. */
module Wrappers {

  datatype Option<+T> = None | Some(value: T)

  datatype Result<+R, +E> = Success(value: R) | Failure(error: E) {
    predicate IsFailure() {
      Failure?
    }

    function PropagateFailure<U>(): Result<U, E>
      requires Failure?
    {
      Failure(error)
    }

    function Extract(): R
      requires Success?
    {
      value
    }
  }

  /** Success or failure of an operation that changes state and returns nothing. */
  datatype Outcome<+E> = Pass | Fail(error: E)
}
