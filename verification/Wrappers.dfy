/** Small shared vocabulary: optional values, results with an error value, and bytes. */
module Wrappers {
  datatype Option<+T> = None | Some(value: T)

  datatype Result<+T, +E> = Ok(value: T) | Err(error: E)

  /** An unsigned 8-bit integer. */
  type byte = x: nat | x < 256

  type Bytes = seq<byte>
}
