/** Option and Result types shared by the advisor modules. */
module Wrappers {

  /** A value that may be absent (a missing column value, a missing dictionary key). */
  datatype Option<+T> = None | Some(value: T)

  /** The outcome of an analysis step: a value, or the error that ended it. */
  datatype Result<+T, +E> = Success(value: T) | Failure(error: E)
}
