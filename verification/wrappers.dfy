/** Option and Result, used for JavaScript's `undefined` and for thrown errors. */
module Wrappers {

  /** A value that may be absent. */
  datatype Option<+T> = None | Some(value: T)

  /** Either a value or the error that would have been thrown instead. */
  datatype Result<+T, +E> = Success(value: T) | Failure(error: E)
}
