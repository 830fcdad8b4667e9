/** Failure-carrying values shared by every module of the signal pipeline. */
module Wrappers {

  /** A possibly undefined value: `None` stands for pandas' NaN / a missing cell. */
  datatype Option<+T> = None | Some(value: T)

  /** The outcome of an operation that can raise; usable with `:-`. */
  datatype Result<+T, +E> = Success(value: T) | Failure(error: E) {
    predicate IsFailure() { Failure? }

    function PropagateFailure<U>(): Result<U, E>
      requires Failure?
    {
      Failure(error)
    }

    function Extract(): T
      requires Success?
    {
      value
    }
  }
}
