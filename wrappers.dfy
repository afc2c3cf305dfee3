/** Failure-carrying results: the source signals every failure by throwing,
    which the model turns into an explicit error value. */
module Wrappers {

  datatype Option<+T> = None | Some(value: T)

  datatype Result<+T, +E> = Ok(value: T) | Err(error: E)
}
