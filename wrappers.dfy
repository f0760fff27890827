/** Plain Option and Result datatypes shared by every module of the model. */
module Wrappers {

  datatype Option<+T> = None | Some(value: T)

  /** Go's `(T, error)` pair: exactly one of a value or an error. */
  datatype Result<+T, +E> = Ok(value: T) | Err(error: E)
}
