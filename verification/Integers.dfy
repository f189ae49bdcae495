/** The 32-bit integers of the wire format and of the sequence numbers. */
module Integers {

  const MAX_INT32: nat := 0x7FFF_FFFF

  /** Two's complement wrap-around of a 32-bit sum. */
  function Int32(x: int): int
  {
    if x > MAX_INT32 then x - 0x1_0000_0000 else if x < -0x8000_0000 then x + 0x1_0000_0000 else x
  }
}
