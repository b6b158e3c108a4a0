/** The unit of every MIDI and SysEx transfer. */
module Bytes {
  /** Go's `byte`: an unsigned 8-bit value. */
  newtype Byte = x: int | 0 <= x < 0x100
}
