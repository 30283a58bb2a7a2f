/** Failure-carrying values used for the source's exceptions and nullable returns. */
module Wrappers {

  /** A value that may be absent (a Java `null`, a TypeScript `undefined`). */
  datatype Option<+T> = None | Some(value: T)

  /** The outcome of an operation that either returns a value or throws. */
  datatype Result<+T, +E> = Ok(value: T) | Err(error: E)

  /** The outcome of an operation whose only result is success or a failure (a `void` method that may throw). */
  datatype Outcome<+E> = Pass | Fail(error: E)
}
