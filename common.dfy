/** Small shared definitions used by every module of the model. */
module Common {

  /** A value that may be absent: the model's stand-in for a failed OS query or a null result. */
  datatype Option<+T> = None | Some(value: T)

  /** The largest value of an unsigned 32-bit integer plus one. */
  const TWO_TO_THE_32: int := 0x1_0000_0000

  /** Unsigned 32-bit integers (`unsigned int`, `DWORD`). */
  type uint32 = x: int | 0 <= x < TWO_TO_THE_32
}
