/** Option and Result, the failure-carrying values used throughout the model. */
module Wrappers {

  datatype Option<+T> = None | Some(value: T)

  /** A completed call: either the value the Python code returns or the exception it raises. */
  datatype Result<+R, +E> = Ok(value: R) | Err(error: E)
}
