/** Bytes, for the layers that work below text. */
module Bytes {
  newtype Byte = x: int | 0 <= x < 256

  const LF: Byte := 10
}
