/** Failure-carrying values: the model's stand-in for Python's None and raised exceptions. */
module Wrappers {

  datatype Option<+T> = None | Some(value: T)

  /** Either a returned value or a raised exception. */
  datatype Result<+T, +E> = Ok(value: T) | Err(error: E)
}
