/** Nullable references and call outcomes. */
module Wrappers {

  /** A reference that may be null in the modelled program. */
  datatype Option<+T> = None | Some(value: T)

  /** The outcome of a call that either succeeds with a value or is rejected. */
  datatype Result<+T, +E> = Success(value: T) | Failure(error: E)
}
