// Vocabulary shared by every module.
module Prelude {
  datatype Option<+T> = None | Some(value: T)

  /** A value or the error the source returns instead. */
  datatype Result<+T, +E> = Ok(value: T) | Err(error: E)

  const MAX_INT64: int := 0x7FFF_FFFF_FFFF_FFFF
  const TWO_256: int := 0x1_0000_0000_0000_0000_0000_0000_0000_0000_0000_0000_0000_0000_0000_0000_0000_0000
}
