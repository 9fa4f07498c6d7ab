/** Failure-carrying values used across the model. */
module Wrappers {

  /** A value that may be absent: a parse that failed, a call that raised, an empty selection. */
  datatype Option<+T> = None | Some(value: T)

  /** The outcome of an operation that can fail with an error the caller sees. */
  datatype Result<+T, +E> = Success(value: T) | Failure(error: E)
}
