/** Failure-compatible wrappers: `Option` for an absent value and `Result` for an
    operation that returns either a value or an error (Rust's `Option` and `Result`). */
module Wrappers {

  datatype Option<+T> = None | Some(value: T)

  datatype Result<+R, +E> = Success(value: R) | Failure(error: E) {

    /** True if this is a Failure, so that `:-` propagates it (Rust's `?`). */
    predicate IsFailure() {
      Failure?
    }

    /** Re-types a Failure with another success type, keeping its error. */
    function PropagateFailure<U>(): Result<U, E>
      requires Failure?
    {
      Failure(error)
    }

    /** The value carried by a Success. */
    function Extract(): R
      requires Success?
    {
      value
    }
  }
}
