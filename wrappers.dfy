/** Failure-carrying values shared by every module of the model. */
module Wrappers {

  /** A value that may be absent (Python's `None`). */
  datatype Option<+T> = None | Some(value: T)

  /** The value a Python call returns, or the message of the exception it raises. */
  datatype Result<+T> = Ok(value: T) | Err(msg: string)
}
