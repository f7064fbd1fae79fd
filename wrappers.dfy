/** Failure-carrying values for the operations of the utility.

    `Result<T>` stands for the generic `Result<T>` of the functional-extensions library the
    program uses: either a value or an error message. `Outcome` stands for its non-generic
    `Result`, which carries no value. */
module Wrappers {

  /** A value that may be absent (a C# `null` reference). */
  datatype Option<+T> = None | Some(value: T) {
    function GetOr(default: T): T {
      match this
      case Some(v) => v
      case None => default
    }
  }

  /** `Result<T>`: success with a value, or failure with an error message. */
  datatype Result<+T> = Success(value: T) | Failure(error: string) {
    predicate IsFailure() { Failure? }

    function PropagateFailure<U>(): Result<U>
      requires Failure?
    {
      Failure(error)
    }

    function Extract(): T
      requires Success?
    {
      value
    }
  }

  /** The library's non-generic `Result`: success, or failure with an error message. */
  datatype Outcome = Pass | Fail(error: string) {
    predicate IsFailure() { Fail? }

    function PropagateFailure(): Outcome
      requires Fail?
    {
      this
    }
  }
}
