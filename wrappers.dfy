/** Failure-compatible wrappers shared by the other modules. */
module Wrappers {

  /** An optional value: a TypeScript `T | undefined` or `T | null`. */
  datatype Option<+T> = None | Some(value: T)

  /** A computation that either yields a value or throws. */
  datatype Result<+R, +E> = Success(value: R) | Failure(error: E)
}
