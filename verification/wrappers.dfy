/** Optional values and success/failure results shared by the other modules. */
module Wrappers {

  /** A value that may be absent (TypeScript `T | undefined`). */
  datatype Option<+T> = None | Some(value: T)

  /** The outcome of an operation that either produces a value or reports an error. */
  datatype Result<+T, +E> = Ok(value: T) | Err(error: E)
}
