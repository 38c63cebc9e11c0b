/** The shared Option and Result datatypes used by every module of the model. */
module Wrappers {

  /** A value that may be absent: SQL NULL, a query with no row, a parse that raised. */
  datatype Option<+T> = None | Some(value: T)

  /** The result of a store write that a table constraint may refuse. */
  datatype Result<+T, +E> = Ok(value: T) | Err(error: E)
}
