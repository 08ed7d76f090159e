/** Optional values and error returns, standing in for Java's `null`,
    `Optional` and thrown exceptions. */
module Wrappers {

  /** A value that may be absent (`null` or an empty `Optional`). */
  datatype Option<+T> = None | Some(value: T)

  /** Either a normal return or the exception that ended the call. */
  datatype Result<+T, +E> = Ok(value: T) | Err(error: E)

  /** A call that returns nothing, or the exception that ended it. */
  datatype Outcome<+E> = Pass | Fail(error: E)
}
