/** The optional and failure-carrying results used throughout the model, and the bound of Go's int64. */
module Wrappers {
  const MAX_INT64: int := 0x7FFF_FFFF_FFFF_FFFF

  datatype Option<+T> = None | Some(value: T)

  datatype Result<+T, +E> = Ok(value: T) | Err(error: E)
}
