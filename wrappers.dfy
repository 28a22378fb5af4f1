/** Optional values and results, standing in for Java's nullable references and thrown exceptions. */
module Wrappers {

  /** A value that may be absent: `None` models a Java `null`. */
  datatype Option<+T> = None | Some(value: T)

  /** The outcome of an operation that either returns a value or throws. */
  datatype Result<+T, +E> = Ok(value: T) | Err(error: E)
}
