/** Optional values and error returns, shared by every module of the model. */
module Wrappers {

  /** A value that may be absent: a TypeScript `T | undefined`. */
  datatype Option<+T> = None | Some(value: T)

  /** Either a value or the error that replaced it. */
  datatype Result<+T, +E> = Success(value: T) | Failure(error: E)

  /** A value thrown in a `try` block: an `Error` carrying a message, or anything else. */
  datatype Thrown = ErrorObject(message: string) | OtherValue
}
