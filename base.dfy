/** Small shared vocabulary: a Result type for Rust's `Result`/panics and the
    32-bit signed integers the source uses for `Num` literals. */
module Base {

  /** The outcome of an operation that can fail. */
  datatype Result<T, E> = Ok(value: T) | Err(error: E)

  /** Rust's `i32`. */
  newtype i32 = x: int | -0x8000_0000 <= x < 0x8000_0000
}
