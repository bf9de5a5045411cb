// Shared optional-value, result and byte types used across the launch-monitor model.
module Wrappers {
  datatype Option<T> = None | Some(value: T)

  /** A value, or the message of the error raised instead. */
  datatype Result<T> = Success(value: T) | Failure(error: string)

  /** An unsigned 8-bit value, as carried on the serial line and in image buffers. */
  type byte = x: int | 0 <= x < 256
}
