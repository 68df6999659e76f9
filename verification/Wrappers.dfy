/** Result types shared by every module. */
module Wrappers {

  datatype Option<+T> = None | Some(value: T)

  /** The source raises; the model answers `Err`. */
  datatype Result<+T, +E> = Ok(value: T) | Err(error: E)
}
