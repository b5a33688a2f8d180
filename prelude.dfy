/** Small value types shared by every module of the model. */
module Prelude {

  /** An optional value, Rust's `Option`. */
  datatype Option<+T> = None | Some(value: T)

  /** A value or an error, Rust's `Result`. */
  datatype Result<+T, +E> = Ok(value: T) | Err(error: E)

  /** Rust's `u8`: days are stored in one. */
  type U8 = n: nat | n < 0x100

  /** Rust's `u16`: years are stored in one. */
  type U16 = n: nat | n < 0x1_0000
}
