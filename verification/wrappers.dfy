/** Failure-compatible wrappers shared by the whole model. */
module Wrappers {

  /** A value that may be absent: a nullable column, or a field missing
      from a form's cleaned data. */
  datatype Option<+T> = None | Some(value: T)

  /** The outcome of an operation that can fail with a domain error. */
  datatype Result<+T, +E> = Ok(value: T) | Err(error: E)
}
