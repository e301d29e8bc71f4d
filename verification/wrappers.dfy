/** Option and Result values standing for JavaScript's `undefined` results and thrown errors. */
module Wrappers {

  datatype Option<+T> = None | Some(value: T) {
    predicate IsFailure() { None? }

    function PropagateFailure<U>(): Option<U>
      requires None?
    {
      None
    }

    function Extract(): T
      requires Some?
    {
      value
    }
  }

  /** `Failure(message)` models a thrown `Error` carrying `message`. */
  datatype Result<+R> = Success(value: R) | Failure(error: string) {
    predicate IsFailure() { Failure? }

    function PropagateFailure<U>(): Result<U>
      requires Failure?
    {
      Failure(error)
    }

    function Extract(): R
      requires Success?
    {
      value
    }
  }

  /** The outcome of an operation that returns nothing or throws. */
  datatype Outcome = Pass | Fail(error: string)
}
