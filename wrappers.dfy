/** Option and Result, the failure-carrying values the drivers and the filter builder return. */
module Wrappers {

  datatype Option<+T> = None | Some(value: T)

  /** `Ok` carries the value, `Err` the reason the operation was refused. */
  datatype Result<+T, +E> = Ok(value: T) | Err(error: E)
}
