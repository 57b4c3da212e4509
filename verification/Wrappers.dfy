/** The optional and fallible values used by the models in this project, and the modulus of 32-bit casts. */
module Wrappers {

  datatype Option<+T> = None | Some(value: T)

  datatype Result<+T, +E> = Ok(value: T) | Err(error: E)

  const U32 := 0x1_0000_0000
}
