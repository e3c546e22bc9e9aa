/** Machine-integer ranges used by more than one model. */
module Bytes {
  type uint8 = b: int | 0 <= b < 0x100
  type int8 = b: int | -0x80 <= b < 0x80
  type uint16 = b: int | 0 <= b < 0x1_0000

  /** The value an `int8_t` holds after a non-negative integer is stored in it. */
  function ToInt8(x: nat): int8 {
    var low := x % 0x100;
    if low < 0x80 then low else low - 0x100
  }
}
