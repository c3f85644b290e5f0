/** Option and Result, used for absent values and for operations that can fail. */
module Wrappers {

  datatype Option<+T> = None | Some(value: T)

  /** A request that could be built (Success) or a JavaScript Error message raised instead (Failure). */
  datatype Result<+T, +E> = Success(value: T) | Failure(error: E)
}
