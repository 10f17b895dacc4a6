/** Command bytes and abort codes shared by the SDO server and the SDO client. */
module SdoTypes {
  import opened Can
  import Crc

  // Abort codes of stack/CO_SDO.h.
  const AB_TOGGLE_BIT: uint32 := 0x0503_0000
  const AB_TIMEOUT: uint32 := 0x0504_0000
  const AB_CMD: uint32 := 0x0504_0001
  const AB_BLOCK_SIZE: uint32 := 0x0504_0002
  const AB_SEQ_NUM: uint32 := 0x0504_0003
  const AB_CRC: uint32 := 0x0504_0004
  const AB_OUT_OF_MEM: uint32 := 0x0504_0005
  const AB_WRITEONLY: uint32 := 0x0601_0001
  const AB_READONLY: uint32 := 0x0601_0002
  const AB_NOT_EXIST: uint32 := 0x0602_0000
  const AB_PRAM_INCOMPAT: uint32 := 0x0604_0043
  const AB_DEVICE_INCOMPAT: uint32 := 0x0604_0047
  const AB_TYPE_MISMATCH: uint32 := 0x0607_0010
  const AB_DATA_LONG: uint32 := 0x0607_0012
  const AB_SUB_UNKNOWN: uint32 := 0x0609_0011
  const AB_GENERAL: uint32 := 0x0800_0000

  /** The command byte of an abort, in both directions. */
  const ABORT: byte := 0x80

  // ------------------------------------------------------ fields of a command byte

  /** Bits 7..5, the command specifier. */
  function Specifier(b: byte): (c: int)
    ensures 0 <= c < 8
  {
    b / 0x20
  }

  predicate Bit0(b: byte) {
    b % 2 == 1
  }

  predicate Bit1(b: byte) {
    b / 2 % 2 == 1
  }

  predicate Bit2(b: byte) {
    b / 4 % 2 == 1
  }

  /** Bits 1..0, the subcommand of the block services. */
  function Subcommand(b: byte): (c: int)
    ensures 0 <= c < 4
  {
    b % 4
  }

  /** Bit 4, the toggle bit of a segment. */
  function Toggle(b: byte): (t: int)
    ensures 0 <= t < 2
  {
    b / 0x10 % 2
  }

  /** Bits 3..2, the unused bytes of an expedited transfer. */
  function ExpeditedUnused(b: byte): (n: int)
    ensures 0 <= n < 4
  {
    b / 4 % 4
  }

  /** Bits 3..1, the unused bytes of a segment. */
  function SegmentUnused(b: byte): (n: int)
    ensures 0 <= n < 8
  {
    b / 2 % 8
  }

  /** Bits 4..2, the unused bytes of the last segment of a block transfer. */
  function BlockUnused(b: byte): (n: int)
    ensures 0 <= n < 8
  {
    b / 4 % 8
  }

  /** Bits 6..0, the sequence number of a block segment. */
  function Seqno(b: byte): (n: int)
    ensures 0 <= n < 0x80
  {
    b % 0x80
  }

  function FrameIndex(f: Frame): (index: uint16) {
    FromLe16(f[1], f[2])
  }

  function FrameValue(f: Frame): (n: uint32) {
    FromLe32(f[4], f[5], f[6], f[7])
  }

  function AbortFrame(index: uint16, sub: byte, code: uint32): (f: Frame) {
    [ABORT] + Le16(index) + [sub] + Le32(code)
  }

  /** The number of data bytes in a segment. */
  type SegmentLength = n: int | 0 <= n <= 7

  /** The CRC of a whole block transfer. */
  function Checksum(d: seq<byte>): (crc: uint16) {
    Crc.CrcOf(d, 0)
  }

  // ------------------------------------------------------------------- buffers

  /** d copied over b from position at on; what lies outside b is dropped. */
  function Blit(b: seq<byte>, at: nat, d: seq<byte>): (r: seq<byte>)
    ensures |r| == |b|
    ensures forall i :: 0 <= i < |r| ==> r[i] == (if at <= i < at + |d| then d[i - at] else b[i])
  {
    seq(|b|, i requires 0 <= i < |b| => if at <= i < at + |d| then d[i - at] else b[i])
  }

  function Take(b: seq<byte>, n: nat): (r: seq<byte>) {
    if n <= |b| then b[..n] else b
  }

  function Reverse(b: seq<byte>): (r: seq<byte>)
    ensures |r| == |b|
    ensures forall i :: 0 <= i < |r| ==> r[i] == b[|b| - 1 - i]
  {
    seq(|b|, i requires 0 <= i < |b| => b[|b| - 1 - i])
  }

  function Minus16(a: int, b: int): (r: uint16) {
    (a - b) % 0x1_0000
  }

  lemma Minus16Exact(a: uint16, b: nat)
    requires b <= a
    ensures Minus16(a, b) == a - b
  {
  }

  function Min(a: int, b: int): (r: int) {
    if a < b then a else b
  }

  /** What is copied to the start of a buffer. */
  lemma MovedDown(b: seq<byte>, n: nat, m: nat)
    requires n <= m <= |b|
    ensures Blit(b, 0, b[n..m])[..m - n] == b[n..m]
  {
  }

  /** The bytes of a segment that still fit the buffer. */
  function Room(at: nat, size: nat): (n: nat)
    ensures n <= 7
  {
    if at + 7 <= size then 7 else if at < size then size - at else 0
  }

  /** The number of segments that carry n bytes. */
  function SegmentsFor(n: nat): (k: nat) {
    (n + 6) / 7
  }
}
