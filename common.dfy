/** Small value types shared by the attribute-tree model and the echo driver model. */
module Common {

  /** An unsigned 8-bit C `char` / byte. */
  newtype byte = x: int | 0 <= x < 0x100

  /** A C `uint64_t`. */
  newtype u64 = x: int | 0 <= x < 0x1_0000_0000_0000_0000

  /** A value that may be absent, standing for a possibly-NULL pointer. */
  datatype Option<T> = None | Some(value: T)

  /** The C `MIN` macro. */
  function Min(a: int, b: int): (m: int)
    ensures m <= a && m <= b
    ensures m == a || m == b
  {
    if a < b then a else b
  }
}
