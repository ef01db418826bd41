/** Types that every part of the project shares. */
module Basics {
  datatype Option<T> = None | Some(value: T)

  datatype Result<T> = Ok(value: T) | Err(error: string)

  type Byte = b: int | 0 <= b < 256
}
