/** Optional values (Java references that may be null) and results (Java calls that may throw). */
module Wrappers {

  /** A Java reference that may be null. */
  datatype Option<+T> = None | Some(value: T)

  /** The outcome of a Java call: a value, or the message of the exception it throws. */
  datatype Result<+T> = Success(value: T) | Failure(error: string)

  /** The outcome of a Java call returning void. */
  datatype Outcome = Pass | Fail(error: string)
}
