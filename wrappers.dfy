/** The optional-value and outcome datatypes shared by every module of the model. */
module Wrappers {

  /** A value that may be absent: a query with `limit(1)` that found no row, a nullable column. */
  datatype Option<+T> = None | Some(value: T)

  /** The outcome of a service call: a value, or the exception it throws. */
  datatype Result<+T, +E> = Ok(value: T) | Err(error: E)
}
