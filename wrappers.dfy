/** Option and Result, the two failure-carrying datatypes the model uses. */
module Wrappers {

  datatype Option<+T> = None | Some(value: T)

  /** A computation that either produced `value` or raised `error`. */
  datatype Result<+T, +E> = Ok(value: T) | Err(error: E)
}
