/** Optional values and error-carrying results shared by the connector's modules. */
module Wrappers {

  /** A value that may be absent: JavaScript's `undefined`/`null` alternatives. */
  datatype Option<+T> = None | Some(value: T)

  /** The outcome of an operation that either yields a value or fails with an error. */
  datatype Result<+T, +E> = Success(value: T) | Failure(error: E)
}
