/**
 * Machine integers and the instruction result shared by the two Anchor
 * programs of this model.
 */
module AnchorTypes {

  /** Rust's `u8`. */
  newtype u8 = x: int | 0 <= x < 0x100

  /** Rust's `u64`. */
  newtype u64 = x: int | 0 <= x < 0x1_0000_0000_0000_0000

  /**
   * What an instruction handler returns (`ProgramResult`): success, or the
   * program's own error code `E`. The conversion of `E` into the runtime's
   * `ProgramError` is not modelled; the error value itself is kept.
   */
  datatype ProgramResult<+E> = Ok | Err(error: E)
}
