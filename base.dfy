/** Small shared vocabulary: bytes (Go strings are byte sequences) and an optional value. */
module Base {

  /** One byte of a Go string. */
  newtype byte = b: int | 0 <= b < 256

  /** A Go string, seen as the bytes it is made of. */
  type Bytes = seq<byte>

  /** Go's `nil` versus a present value. */
  datatype Option<T> = None | Some(value: T)

  function Min(a: int, b: int): int
  {
    if a <= b then a else b
  }
}
