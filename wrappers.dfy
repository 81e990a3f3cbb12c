/** Option and Result, the failure-carrying values used throughout the model. */
module Wrappers {

  datatype Option<+T> = None | Some(value: T)

  /** Python raises; the model returns `Err` with the kind of exception raised. */
  datatype Result<+T, +E> = Ok(value: T) | Err(error: E)
}
