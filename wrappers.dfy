/** Option and Result values shared by the other modules. */
module Wrappers {

  datatype Option<+T> = None | Some(value: T)

  /** The value of a computation that either succeeds or throws. */
  datatype Result<+T, +E> = Ok(value: T) | Err(error: E)
}
