/** Small shared datatypes: optional values and operations that either succeed or raise. */
module Prelude {

  datatype Option<+T> = None | Some(value: T)

  /** `Err` stands for a raised exception: the operation changed nothing. */
  datatype Result<+T, +E> = Ok(value: T) | Err(error: E)
}
