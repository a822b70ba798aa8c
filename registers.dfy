/**
 The register block of the AZ1UBALL optical trackball and how one poll decodes it.

 The sensor answers every read with five bytes: the movement counters up
 (byte 0), down (byte 1), right (byte 2) and left (byte 3), and a status
 byte (byte 4) whose top bit is the push switch.
 The driver widens each counter to a signed 16-bit value before subtracting,
 so a delta keeps its sign however large the counts are.
 */
module Registers {

  /** An unsigned 8-bit register value, as the bus delivers it. */
  newtype byte = x: int | 0 <= x < 0x100

  /** Number of bytes fetched by one poll. */
  const BLOCK_SIZE: nat := 5

  /** One register block, as filled in by a successful bus read. */
  type Block = b: seq<byte> | |b| == BLOCK_SIZE witness [0, 0, 0, 0, 0]

  /** Mask of the push-switch flag in the status byte (bit 7). */
  const MSK_SWITCH_STATE: bv8 := 0x80

  const INT16_MIN: int := -0x8000
  const INT16_MAX: int := 0x7FFF

  /** Conversion of an `int` to `int16_t`: two's-complement wrap-around modulo 2^16. */
  function ToInt16(v: int): (r: int)
    ensures INT16_MIN <= r <= INT16_MAX
    ensures (r - v) % 0x1_0000 == 0
    ensures INT16_MIN <= v <= INT16_MAX ==> r == v
  {
    (v + 0x8000) % 0x1_0000 - 0x8000
  }

  /**
   Horizontal motion: the right counter (byte 2) minus the left counter (byte 3),
   each widened to `int16_t` before the subtraction and the difference stored
   back into an `int16_t`. The narrowing never bites, so the delta is the exact
   difference and its sign is that of the comparison of the two counters.
   */
  function DeltaX(buf: Block): (dx: int)
    ensures dx == buf[2] as int - buf[3] as int
    ensures -255 <= dx <= 255
    ensures dx > 0 <==> buf[2] > buf[3]
    ensures dx < 0 <==> buf[2] < buf[3]
  {
    ToInt16(buf[2] as int - buf[3] as int)
  }

  /** Vertical motion: the down counter (byte 1) minus the up counter (byte 0), exactly as for DeltaX. */
  function DeltaY(buf: Block): (dy: int)
    ensures dy == buf[1] as int - buf[0] as int
    ensures -255 <= dy <= 255
    ensures dy > 0 <==> buf[1] > buf[0]
    ensures dy < 0 <==> buf[1] < buf[0]
  {
    ToInt16(buf[1] as int - buf[0] as int)
  }

  /**
   The switch is pressed when the status byte has the MSK_SWITCH_STATE bit set,
   which for an unsigned byte is the same as the byte being at least 128.
   */
  function SwitchPressed(status: byte): (pressed: bool)
    ensures pressed <==> status as int >= 128
  {
    status as bv8 & MSK_SWITCH_STATE != 0
  }

  /** The low seven bits of the status byte never change the switch reading. */
  lemma SwitchIgnoresLowBits(status: byte, noise: bv8)
    requires noise & MSK_SWITCH_STATE == 0
    ensures SwitchPressed((status as bv8 ^ noise) as byte) == SwitchPressed(status)
  {
  }
}
