/**
  Vocabulary shared by every protocol of the stack: bytes, fixed-width unsigned
  integers, the eight data bytes of a CAN frame and their little-endian values.
 */
module Can {

  datatype Option<+T> = None | Some(value: T)

  type byte = x: int | 0 <= x < 0x100
  type uint16 = x: int | 0 <= x < 0x1_0000
  type uint32 = x: int | 0 <= x < 0x1_0000_0000

  /** The eight data bytes of a CAN frame. */
  type Frame = s: seq<byte> | |s| == 8 witness [0, 0, 0, 0, 0, 0, 0, 0]

  const ZERO_FRAME: Frame := [0, 0, 0, 0, 0, 0, 0, 0]

  function Le16(v: uint16): (b: seq<byte>)
    ensures |b| == 2
  {
    [v % 0x100, v / 0x100]
  }

  function FromLe16(b0: byte, b1: byte): (v: uint16) {
    b0 + 0x100 * b1
  }

  /** Little-endian image of a 32-bit value. */
  function Le32(v: uint32): (b: seq<byte>)
    ensures |b| == 4
  {
    [v % 0x100, v / 0x100 % 0x100, v / 0x1_0000 % 0x100, v / 0x100_0000]
  }

  function FromLe32(b0: byte, b1: byte, b2: byte, b3: byte): (v: uint32) {
    b0 + 0x100 * b1 + 0x1_0000 * b2 + 0x100_0000 * b3
  }

  /** Reading back the image of a value gives the value. */
  lemma Le32RoundTrip(v: uint32)
    ensures var b := Le32(v); FromLe32(b[0], b[1], b[2], b[3]) == v
  {
    assert v / 0x1_0000 == v / 0x100 / 0x100;
    assert v / 0x100_0000 == v / 0x1_0000 / 0x100;
  }

  lemma Le16RoundTrip(v: uint16)
    ensures var b := Le16(v); FromLe16(b[0], b[1]) == v
  {
  }

  /** 2^n. */
  function Pow2(n: nat): (p: nat)
    ensures 0 < p
  {
    if n == 0 then 1 else 2 * Pow2(n - 1)
  }

  /** The sum of two 16-bit timer values, which wraps around. */
  function Add16(a: uint16, b: uint16): (r: uint16) {
    (a + b) % 0x1_0000
  }
}
