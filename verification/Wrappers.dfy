/** The two result shapes every other module uses. */
module Wrappers {

  datatype Option<+T> = None | Some(value: T)

  /** `Err` stands for the exception a source function raises. */
  datatype Result<+T, +E> = Ok(value: T) | Err(error: E)
}
