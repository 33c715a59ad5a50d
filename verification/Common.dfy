// Small types that several parts share.
module Common {

  datatype Option<T> = None | Some(value: T)

  type octet = x: int | 0 <= x < 256

  // The two sides of the air interface: fixed and portable part.
  datatype Mode = FP | PP

  function Other(mode: Mode): Mode {
    if mode == FP then PP else FP
  }
}
