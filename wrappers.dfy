/** Failure-compatible Option and Result types shared by the model. */
module Wrappers {

  datatype Option<+T> = None | Some(value: T)

  /** Either a value or the text of the exception that interrupted the computation. */
  datatype Result<+T> = Success(value: T) | Failure(error: string) {
    predicate IsFailure() { Failure? }

    function PropagateFailure<U>(): Result<U>
      requires Failure?
    {
      Failure(error)
    }

    function Extract(): T
      requires Success?
    {
      value
    }
  }
}
