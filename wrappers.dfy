/** Small failure-carrying datatypes shared by the other modules. */
module Wrappers {

  datatype Option<+T> = None | Some(value: T)

  /** A value, or the exception the runtime would raise instead. */
  datatype Result<+T, +E> = Ok(value: T) | Err(error: E)
}
