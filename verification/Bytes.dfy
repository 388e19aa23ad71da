/** Byte strings, as Go's []byte and string see them. */
module Bytes {

  type byte = b: int | 0 <= b < 256

  type Bytes = seq<byte>

  type Key = Bytes
}
