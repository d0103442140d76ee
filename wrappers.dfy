/** Option and Result, the two failure-carrying shapes used throughout the model. */
module Wrappers {

  datatype Option<+T> = None | Some(value: T)

  /** A thrown JavaScript error is modelled as `Err(message)`. */
  datatype Result<+R, +E> = Ok(value: R) | Err(error: E)
}
