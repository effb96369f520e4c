/** Plain C/C++ values the recognizer passes around: bytes of PCM audio,
    raw pointers (to engine handles and Qt audio objects) and optional values. */
module Native {

  /** One byte of a QByteArray. */
  newtype byte = x: int | 0 <= x < 256

  /** A raw pointer: either null or some address. The model never dereferences it. */
  datatype Ptr = Null | Addr(address: nat)

  datatype Option<+T> = None | Some(value: T)
}
