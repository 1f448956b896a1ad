/** The Option and Result datatypes shared by the other modules. */
module Wrappers {

  /** A value that may be missing: JavaScript's `undefined` or a cancelled prompt. */
  datatype Option<+T> = None | Some(value: T)

  /** The outcome of an operation that either yields a value or throws an error. */
  datatype Result<+T, +E> = Success(value: T) | Failure(error: E)
}
