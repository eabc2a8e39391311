/** Failure-compatible wrappers shared by the record loader and the ILS API models. */
module Wrappers {

  datatype Option<+T> = None | Some(value: T)

  /** The value of an operation, or the exception it throws. */
  datatype Result<+T, +E> = Success(value: T) | Failure(error: E)

  /** A guarded operation that either completes or throws. */
  datatype Outcome<+E> = Pass | Fail(error: E)
}
