/** Wrappers for Java's `null` and thrown exceptions: a `null` or an
    exception becomes `None`, `Fail` or `Err`. */
module Wrappers {

  datatype Option<+T> = None | Some(value: T)

  /** The outcome of a `void` Java method that may throw. */
  datatype Outcome<+E> = Pass | Fail(error: E)

  /** The outcome of a value-returning Java method that may throw. */
  datatype Result<+T, +E> = Ok(value: T) | Err(error: E)
}
