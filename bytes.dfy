/** Bytes as the .NET code sees them. */
module Bytes {
  /** System.Byte. */
  type byte = b: int | 0 <= b < 256
}
