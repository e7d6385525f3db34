/**
 * What the Python asset tools share: a byte of a `bytes` object (an int in
 * 0..255) and the exceptions the codecs can raise, as values.
 */
module ToolsBytes {
  /** An element of a Python `bytes` or `bytearray`. */
  type Byte = x: int | 0 <= x < 0x100

  /** The exceptions the modelled code raises itself or through indexing. */
  datatype PyError = ValueError | IndexError

  /** A returned value, or the exception raised instead. */
  datatype Outcome<T> = Ok(value: T) | Raised(error: PyError)

  function Min(a: int, b: int): int { if a <= b then a else b }

  function Max(a: int, b: int): int { if a >= b then a else b }
}
