/** Result, used for the source's raised exceptions. */
module Wrappers {
  datatype Result<+T, +E> = Ok(value: T) | Err(error: E)
}
