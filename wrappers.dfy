/** Option and Result types shared by the converter model. */
module Wrappers {

  /** An optional value: a fetch that failed is None. */
  datatype Option<+T> = None | Some(value: T)

  /** A value or an error, the model of Go's `(value, error)` return pair. */
  datatype Result<+T, +E> = Ok(value: T) | Err(error: E)
}
