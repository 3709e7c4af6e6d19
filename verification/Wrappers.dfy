/** Stock result datatypes shared by the other modules. */
module Wrappers {

  datatype Option<+T> = None | Some(value: T)

  /** `Err` stands for the exception the source raises; nothing is written in that case. */
  datatype Result<+T, +E> = Ok(value: T) | Err(error: E)
}
