/**
  Frames and constants of the layer setting services (CiA DSP 305) shared by
  the LSS master and the LSS slave.
 */
module LssTypes {

  import opened Can

  /** An LSS address: vendor ID, product code, revision number, serial number. */
  type Address = s: seq<uint32> | |s| == 4 witness [0, 0, 0, 0]

  const ZERO_ADDRESS: Address := [0, 0, 0, 0]

  // Command specifiers
  const SWITCH_STATE_GLOBAL: byte := 0x04
  const CFG_NODE_ID: byte := 0x11
  const CFG_STORE: byte := 0x17
  const SEL_VENDOR: byte := 0x40
  const SEL_PRODUCT: byte := 0x41
  const SEL_REV: byte := 0x42
  const SEL_SERIAL: byte := 0x43
  const SEL_RESPONSE: byte := 0x44
  const IDENT_SLAVE: byte := 0x4F
  const IDENT_FASTSCAN: byte := 0x51
  const INQUIRE_VENDOR: byte := 0x5A
  const INQUIRE_PRODUCT: byte := 0x5B
  const INQUIRE_REV: byte := 0x5C
  const INQUIRE_SERIAL: byte := 0x5D
  const INQUIRE_NODE_ID: byte := 0x5E

  // Fastscan BitCheck values
  const BIT0: byte := 0x00
  const BIT31: byte := 0x1F
  const CONFIRM: byte := 0x80

  /** An invalid node ID: the node still waits for its assignment. */
  const UNASSIGNED: byte := 0xFF

  predicate NodeIdValid(nid: byte) {
    1 <= nid <= 0x7F || nid == UNASSIGNED
  }

  /** The value at bytes 1..4 of a frame, as both sides read it. */
  function Value(f: Frame): (v: uint32) {
    FromLe32(f[1], f[2], f[3], f[4])
  }

  /** A frame holding a 32-bit value behind its command specifier. */
  function ValueFrame(cs: byte, v: uint32, b5: byte, b6: byte, b7: byte): (f: Frame)
    ensures f[0] == cs && Value(f) == v && f[5] == b5 && f[6] == b6 && f[7] == b7
  {
    Le32RoundTrip(v);
    [cs] + Le32(v) + [b5, b6, b7]
  }

  /** A frame with two leading bytes and zeros behind them. */
  function ShortFrame(cs: byte, b1: byte): (f: Frame) {
    [cs, b1, 0, 0, 0, 0, 0, 0]
  }
}
