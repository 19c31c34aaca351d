/** Machine integers and the optional-value wrapper shared by the other modules. */
module Base {

  /** Rust's `u8`. */
  type u8 = b: int | 0 <= b < 0x100

  /** Rust's `u32`. */
  type u32 = x: int | 0 <= x < 0x1_0000_0000

  datatype Option<+T> = None | Some(value: T)
}
