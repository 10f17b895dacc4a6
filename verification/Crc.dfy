/**
  The CRC of the SDO block protocols (polynomial x^16 + x^12 + x^5 + 1): the
  table-driven loop of stack/crc16-ccitt.c against feeding a message bit by bit
  through a 16-bit division register.
 */
module Crc {
  import opened Can

  // ------------------------------------------------------------ numbers as bits

  /** The lowest n bits of x, least significant first. */
  function BitsOf(x: nat, n: nat): (b: seq<bool>)
    ensures |b| == n
    decreases n
  {
    if n == 0 then [] else [x % 2 == 1] + BitsOf(x / 2, n - 1)
  }

  function Num(b: seq<bool>): (x: nat) {
    if b == [] then 0 else (if b[0] then 1 else 0) + 2 * Num(b[1..])
  }

  lemma {:induction false} NumBits(x: nat, n: nat)
    requires x < Pow2(n)
    ensures Num(BitsOf(x, n)) == x
    decreases n
  {
    if n > 0 {
      NumBits(x / 2, n - 1);
      assert BitsOf(x, n)[1..] == BitsOf(x / 2, n - 1);
    }
  }

  lemma {:induction false} BitsNum(b: seq<bool>)
    ensures BitsOf(Num(b), |b|) == b && Num(b) < Pow2(|b|)
    decreases |b|
  {
    if b != [] {
      BitsNum(b[1..]);
    }
  }

  /** A number put together from two parts has the bits of the parts. */
  lemma {:induction false} BitsConcat(lo: nat, k: nat, hi: nat, n: nat)
    requires lo < Pow2(k)
    ensures BitsOf(lo + Pow2(k) * hi, k + n) == BitsOf(lo, k) + BitsOf(hi, n)
    decreases k
  {
    if k > 0 {
      var x := lo + Pow2(k) * hi;
      var p := Pow2(k - 1) * hi;
      assert Pow2(k) * hi == 2 * p;
      assert x % 2 == lo % 2 && x / 2 == lo / 2 + p;
      BitsConcat(lo / 2, k - 1, hi, n);
    }
  }

  type Word = b: seq<bool> | |b| == 16 witness seq(16, _ => false)

  const ZERO: Word := seq(16, _ => false)

  function Bits16(x: uint16): (w: Word) {
    BitsOf(x, 16)
  }

  lemma Pow2Bytes()
    ensures Pow2(8) == 0x100 && Pow2(16) == 0x1_0000
  {
    assert Pow2(4) == 16;
    assert Pow2(12) == 0x1000;
  }

  function Num16(w: Word): (x: uint16)
    ensures Bits16(x) == w
  {
    BitsNum(w);
    Pow2Bytes();
    Num(w)
  }

  lemma NumBits16(x: uint16)
    ensures Num16(Bits16(x)) == x
  {
    Pow2Bytes();
    NumBits(x, 16);
  }

  function Xor(a: seq<bool>, b: seq<bool>): (r: seq<bool>)
    requires |a| == |b|
    ensures |r| == |a| && forall i :: 0 <= i < |r| ==> r[i] == (a[i] != b[i])
  {
    seq(|a|, i requires 0 <= i < |a| => a[i] != b[i])
  }

  // -------------------------------------------------------- division, bit by bit

  /** The taps of the generator polynomial below x^16. */
  predicate Tap(i: int) {
    i == 0 || i == 5 || i == 12
  }

  /** Shift the register left, and subtract the polynomial if the bit shifted out differs from the message bit. */
  function Step(w: Word, bit: bool): (r: Word)
    ensures forall i :: 0 <= i < 16 ==> r[i] == ((i > 0 && w[i - 1]) != ((w[15] != bit) && Tap(i)))
  {
    seq(16, i requires 0 <= i < 16 => (i > 0 && w[i - 1]) != ((w[15] != bit) && Tap(i)))
  }

  function Feed(w: Word, m: seq<bool>): (r: Word)
    decreases |m|
  {
    if m == [] then w else Feed(Step(w, m[0]), m[1..])
  }

  /** A byte as the message bits it stands for, most significant first. */
  function MsbBits(b: byte): (m: seq<bool>)
    ensures |m| == 8
  {
    var l := BitsOf(b, 8);
    [l[7], l[6], l[5], l[4], l[3], l[2], l[1], l[0]]
  }

  function MessageBits(data: seq<byte>): (m: seq<bool>) {
    if data == [] then [] else MsbBits(data[0]) + MessageBits(data[1..])
  }

  /** The CRC of a message continued from a start value. */
  function CrcOf(data: seq<byte>, crc: uint16): (r: uint16) {
    Num16(Feed(Bits16(crc), MessageBits(data)))
  }

  lemma {:induction false} FeedConcat(w: Word, m: seq<bool>, n: seq<bool>)
    ensures Feed(w, m + n) == Feed(Feed(w, m), n)
    decreases |m|
  {
    if m == [] {
      assert m + n == n;
    } else {
      assert (m + n)[1..] == m[1..] + n;
      FeedConcat(Step(w, m[0]), m[1..], n);
    }
  }

  lemma {:induction false} MessageConcat(a: seq<byte>, b: seq<byte>)
    ensures MessageBits(a + b) == MessageBits(a) + MessageBits(b)
  {
    if a == [] {
      assert a + b == b;
    } else {
      assert (a + b)[1..] == a[1..] + b;
      MessageConcat(a[1..], b);
    }
  }

  /** The CRC of a concatenation is the CRC of the second part started from that of the first. */
  lemma CrcConcat(a: seq<byte>, b: seq<byte>, crc: uint16)
    ensures CrcOf(a + b, crc) == CrcOf(b, CrcOf(a, crc))
  {
    MessageConcat(a, b);
    FeedConcat(Bits16(crc), MessageBits(a), MessageBits(b));
  }

  // -------------------------------------------- splitting register and message

  function Shl(w: Word, k: nat): (r: Word)
    ensures forall i :: 0 <= i < 16 ==> r[i] == (i >= k && w[i - k])
  {
    seq(16, i requires 0 <= i < 16 => i >= k && w[i - k])
  }

  /** The message with the leading bits of the register added. */
  function XorTop(m: seq<bool>, w: Word): (r: seq<bool>)
    requires |m| <= 16
    ensures |r| == |m| && forall i :: 0 <= i < |m| ==> r[i] == (m[i] != w[15 - i])
  {
    seq(|m|, i requires 0 <= i < |m| => m[i] != w[15 - i])
  }

  /** Up to 16 message bits: what the register holds can be added to the message beforehand. */
  lemma {:induction false} FeedSplit(w: Word, m: seq<bool>)
    requires |m| <= 16
    ensures Feed(w, m) == Xor(Shl(w, |m|), Feed(ZERO, XorTop(m, w)))
    decreases |m|
  {
    if m == [] {
      assert Xor(Shl(w, 0), ZERO) == w;
    } else {
      var k := |m|;
      var p := Step(ZERO, m[0] != w[15]);
      var v := Step(w, m[0]);
      var q := XorTop(m[1..], Shl(w, 1));
      FeedSplit(v, m[1..]);
      FeedSplit(p, q);
      OneStep(w, m);
      XorAssoc(Shl(w, k), Shl(p, k - 1), Feed(ZERO, XorTop(q, p)));
    }
  }

  lemma OneStep(w: Word, m: seq<bool>)
    requires 0 < |m| <= 16
    ensures var p := Step(ZERO, m[0] != w[15]); var v := Step(w, m[0]); var q := XorTop(m[1..], Shl(w, 1));
            && XorTop(m[1..], v) == XorTop(q, p)
            && Shl(v, |m| - 1) == Xor(Shl(w, |m|), Shl(p, |m| - 1))
            && Feed(ZERO, XorTop(m, w)) == Feed(p, q)
  {
    var v := Step(w, m[0]);
    assert v == Xor(Shl(w, 1), Step(ZERO, m[0] != w[15]));
    assert XorTop(m, w)[1..] == XorTop(m[1..], Shl(w, 1));
  }

  lemma XorAssoc(a: Word, b: Word, c: Word)
    ensures Xor(Xor(a, b), c) == Xor(a, Xor(b, c))
  {
  }

  // ------------------------------------------------------------------ the table

  // The 256 constants, sixteen to a row.

  function Row0(c: int): (t: int)
    requires 0 <= c < 16
  {
    match c
    case 0 => 0x0000 case 1 => 0x1021 case 2 => 0x2042 case 3 => 0x3063
    case 4 => 0x4084 case 5 => 0x50A5 case 6 => 0x60C6 case 7 => 0x70E7
    case 8 => 0x8108 case 9 => 0x9129 case 10 => 0xA14A case 11 => 0xB16B
    case 12 => 0xC18C case 13 => 0xD1AD case 14 => 0xE1CE case 15 => 0xF1EF
  }

  function Row1(c: int): (t: int)
    requires 0 <= c < 16
  {
    match c
    case 0 => 0x1231 case 1 => 0x0210 case 2 => 0x3273 case 3 => 0x2252
    case 4 => 0x52B5 case 5 => 0x4294 case 6 => 0x72F7 case 7 => 0x62D6
    case 8 => 0x9339 case 9 => 0x8318 case 10 => 0xB37B case 11 => 0xA35A
    case 12 => 0xD3BD case 13 => 0xC39C case 14 => 0xF3FF case 15 => 0xE3DE
  }

  function Row2(c: int): (t: int)
    requires 0 <= c < 16
  {
    match c
    case 0 => 0x2462 case 1 => 0x3443 case 2 => 0x0420 case 3 => 0x1401
    case 4 => 0x64E6 case 5 => 0x74C7 case 6 => 0x44A4 case 7 => 0x5485
    case 8 => 0xA56A case 9 => 0xB54B case 10 => 0x8528 case 11 => 0x9509
    case 12 => 0xE5EE case 13 => 0xF5CF case 14 => 0xC5AC case 15 => 0xD58D
  }

  function Row3(c: int): (t: int)
    requires 0 <= c < 16
  {
    match c
    case 0 => 0x3653 case 1 => 0x2672 case 2 => 0x1611 case 3 => 0x0630
    case 4 => 0x76D7 case 5 => 0x66F6 case 6 => 0x5695 case 7 => 0x46B4
    case 8 => 0xB75B case 9 => 0xA77A case 10 => 0x9719 case 11 => 0x8738
    case 12 => 0xF7DF case 13 => 0xE7FE case 14 => 0xD79D case 15 => 0xC7BC
  }

  function Row4(c: int): (t: int)
    requires 0 <= c < 16
  {
    match c
    case 0 => 0x48C4 case 1 => 0x58E5 case 2 => 0x6886 case 3 => 0x78A7
    case 4 => 0x0840 case 5 => 0x1861 case 6 => 0x2802 case 7 => 0x3823
    case 8 => 0xC9CC case 9 => 0xD9ED case 10 => 0xE98E case 11 => 0xF9AF
    case 12 => 0x8948 case 13 => 0x9969 case 14 => 0xA90A case 15 => 0xB92B
  }

  function Row5(c: int): (t: int)
    requires 0 <= c < 16
  {
    match c
    case 0 => 0x5AF5 case 1 => 0x4AD4 case 2 => 0x7AB7 case 3 => 0x6A96
    case 4 => 0x1A71 case 5 => 0x0A50 case 6 => 0x3A33 case 7 => 0x2A12
    case 8 => 0xDBFD case 9 => 0xCBDC case 10 => 0xFBBF case 11 => 0xEB9E
    case 12 => 0x9B79 case 13 => 0x8B58 case 14 => 0xBB3B case 15 => 0xAB1A
  }

  function Row6(c: int): (t: int)
    requires 0 <= c < 16
  {
    match c
    case 0 => 0x6CA6 case 1 => 0x7C87 case 2 => 0x4CE4 case 3 => 0x5CC5
    case 4 => 0x2C22 case 5 => 0x3C03 case 6 => 0x0C60 case 7 => 0x1C41
    case 8 => 0xEDAE case 9 => 0xFD8F case 10 => 0xCDEC case 11 => 0xDDCD
    case 12 => 0xAD2A case 13 => 0xBD0B case 14 => 0x8D68 case 15 => 0x9D49
  }

  function Row7(c: int): (t: int)
    requires 0 <= c < 16
  {
    match c
    case 0 => 0x7E97 case 1 => 0x6EB6 case 2 => 0x5ED5 case 3 => 0x4EF4
    case 4 => 0x3E13 case 5 => 0x2E32 case 6 => 0x1E51 case 7 => 0x0E70
    case 8 => 0xFF9F case 9 => 0xEFBE case 10 => 0xDFDD case 11 => 0xCFFC
    case 12 => 0xBF1B case 13 => 0xAF3A case 14 => 0x9F59 case 15 => 0x8F78
  }

  function Row8(c: int): (t: int)
    requires 0 <= c < 16
  {
    match c
    case 0 => 0x9188 case 1 => 0x81A9 case 2 => 0xB1CA case 3 => 0xA1EB
    case 4 => 0xD10C case 5 => 0xC12D case 6 => 0xF14E case 7 => 0xE16F
    case 8 => 0x1080 case 9 => 0x00A1 case 10 => 0x30C2 case 11 => 0x20E3
    case 12 => 0x5004 case 13 => 0x4025 case 14 => 0x7046 case 15 => 0x6067
  }

  function Row9(c: int): (t: int)
    requires 0 <= c < 16
  {
    match c
    case 0 => 0x83B9 case 1 => 0x9398 case 2 => 0xA3FB case 3 => 0xB3DA
    case 4 => 0xC33D case 5 => 0xD31C case 6 => 0xE37F case 7 => 0xF35E
    case 8 => 0x02B1 case 9 => 0x1290 case 10 => 0x22F3 case 11 => 0x32D2
    case 12 => 0x4235 case 13 => 0x5214 case 14 => 0x6277 case 15 => 0x7256
  }

  function RowA(c: int): (t: int)
    requires 0 <= c < 16
  {
    match c
    case 0 => 0xB5EA case 1 => 0xA5CB case 2 => 0x95A8 case 3 => 0x8589
    case 4 => 0xF56E case 5 => 0xE54F case 6 => 0xD52C case 7 => 0xC50D
    case 8 => 0x34E2 case 9 => 0x24C3 case 10 => 0x14A0 case 11 => 0x0481
    case 12 => 0x7466 case 13 => 0x6447 case 14 => 0x5424 case 15 => 0x4405
  }

  function RowB(c: int): (t: int)
    requires 0 <= c < 16
  {
    match c
    case 0 => 0xA7DB case 1 => 0xB7FA case 2 => 0x8799 case 3 => 0x97B8
    case 4 => 0xE75F case 5 => 0xF77E case 6 => 0xC71D case 7 => 0xD73C
    case 8 => 0x26D3 case 9 => 0x36F2 case 10 => 0x0691 case 11 => 0x16B0
    case 12 => 0x6657 case 13 => 0x7676 case 14 => 0x4615 case 15 => 0x5634
  }

  function RowC(c: int): (t: int)
    requires 0 <= c < 16
  {
    match c
    case 0 => 0xD94C case 1 => 0xC96D case 2 => 0xF90E case 3 => 0xE92F
    case 4 => 0x99C8 case 5 => 0x89E9 case 6 => 0xB98A case 7 => 0xA9AB
    case 8 => 0x5844 case 9 => 0x4865 case 10 => 0x7806 case 11 => 0x6827
    case 12 => 0x18C0 case 13 => 0x08E1 case 14 => 0x3882 case 15 => 0x28A3
  }

  function RowD(c: int): (t: int)
    requires 0 <= c < 16
  {
    match c
    case 0 => 0xCB7D case 1 => 0xDB5C case 2 => 0xEB3F case 3 => 0xFB1E
    case 4 => 0x8BF9 case 5 => 0x9BD8 case 6 => 0xABBB case 7 => 0xBB9A
    case 8 => 0x4A75 case 9 => 0x5A54 case 10 => 0x6A37 case 11 => 0x7A16
    case 12 => 0x0AF1 case 13 => 0x1AD0 case 14 => 0x2AB3 case 15 => 0x3A92
  }

  function RowE(c: int): (t: int)
    requires 0 <= c < 16
  {
    match c
    case 0 => 0xFD2E case 1 => 0xED0F case 2 => 0xDD6C case 3 => 0xCD4D
    case 4 => 0xBDAA case 5 => 0xAD8B case 6 => 0x9DE8 case 7 => 0x8DC9
    case 8 => 0x7C26 case 9 => 0x6C07 case 10 => 0x5C64 case 11 => 0x4C45
    case 12 => 0x3CA2 case 13 => 0x2C83 case 14 => 0x1CE0 case 15 => 0x0CC1
  }

  function RowF(c: int): (t: int)
    requires 0 <= c < 16
  {
    match c
    case 0 => 0xEF1F case 1 => 0xFF3E case 2 => 0xCF5D case 3 => 0xDF7C
    case 4 => 0xAF9B case 5 => 0xBFBA case 6 => 0x8FD9 case 7 => 0x9FF8
    case 8 => 0x6E17 case 9 => 0x7E36 case 10 => 0x4E55 case 11 => 0x5E74
    case 12 => 0x2E93 case 13 => 0x3EB2 case 14 => 0x0ED1 case 15 => 0x1EF0
  }

  function Entry(r: int, c: int): (t: int)
    requires 0 <= r < 16 && 0 <= c < 16
  {
    match r
    case 0 => Row0(c) case 1 => Row1(c) case 2 => Row2(c) case 3 => Row3(c)
    case 4 => Row4(c) case 5 => Row5(c) case 6 => Row6(c) case 7 => Row7(c)
    case 8 => Row8(c) case 9 => Row9(c) case 10 => RowA(c) case 11 => RowB(c)
    case 12 => RowC(c) case 13 => RowD(c) case 14 => RowE(c) case 15 => RowF(c)
  }

  function Table(i: byte): (t: int) {
    Entry(i / 16, i % 16)
  }

  /** s ^ 0x1021 for an even s, as arithmetic. */
  function Flip(s: int): (r: int) {
    s + 1 + (if s / 32 % 2 == 0 then 32 else -32) + (if s / 4096 % 2 == 0 then 4096 else -4096)
  }

  /** The division step on numbers. */
  function StepNum(x: int, bit: bool): (r: int) {
    var s := 2 * x % 0x1_0000;
    if (x >= 0x8000) != bit then Flip(s) else s
  }

  /** y and z are one division step behind x. */
  predicate Steps(x: int, y: int, z: int) {
    y == StepNum(x, false) && z == StepNum(x, true)
  }

  lemma Row0Steps(c: int)
    requires 0 <= c < 8
    ensures Steps(Row0(c), Row0(2 * c), Row0(2 * c + 1))
    ensures Steps(Row0(8 + c), Row1(2 * c), Row1(2 * c + 1))
  {
    match c case 0 => case 1 => case 2 => case 3 => case 4 => case 5 => case 6 => case 7 =>
  }

  lemma Row1Steps(c: int)
    requires 0 <= c < 8
    ensures Steps(Row1(c), Row2(2 * c), Row2(2 * c + 1))
    ensures Steps(Row1(8 + c), Row3(2 * c), Row3(2 * c + 1))
  {
    match c case 0 => case 1 => case 2 => case 3 => case 4 => case 5 => case 6 => case 7 =>
  }

  lemma Row2Steps(c: int)
    requires 0 <= c < 8
    ensures Steps(Row2(c), Row4(2 * c), Row4(2 * c + 1))
    ensures Steps(Row2(8 + c), Row5(2 * c), Row5(2 * c + 1))
  {
    match c case 0 => case 1 => case 2 => case 3 => case 4 => case 5 => case 6 => case 7 =>
  }

  lemma Row3Steps(c: int)
    requires 0 <= c < 8
    ensures Steps(Row3(c), Row6(2 * c), Row6(2 * c + 1))
    ensures Steps(Row3(8 + c), Row7(2 * c), Row7(2 * c + 1))
  {
    match c case 0 => case 1 => case 2 => case 3 => case 4 => case 5 => case 6 => case 7 =>
  }

  lemma Row4Steps(c: int)
    requires 0 <= c < 8
    ensures Steps(Row4(c), Row8(2 * c), Row8(2 * c + 1))
    ensures Steps(Row4(8 + c), Row9(2 * c), Row9(2 * c + 1))
  {
    match c case 0 => case 1 => case 2 => case 3 => case 4 => case 5 => case 6 => case 7 =>
  }

  lemma Row5Steps(c: int)
    requires 0 <= c < 8
    ensures Steps(Row5(c), RowA(2 * c), RowA(2 * c + 1))
    ensures Steps(Row5(8 + c), RowB(2 * c), RowB(2 * c + 1))
  {
    match c case 0 => case 1 => case 2 => case 3 => case 4 => case 5 => case 6 => case 7 =>
  }

  lemma Row6Steps(c: int)
    requires 0 <= c < 8
    ensures Steps(Row6(c), RowC(2 * c), RowC(2 * c + 1))
    ensures Steps(Row6(8 + c), RowD(2 * c), RowD(2 * c + 1))
  {
    match c case 0 => case 1 => case 2 => case 3 => case 4 => case 5 => case 6 => case 7 =>
  }

  lemma Row7Steps(c: int)
    requires 0 <= c < 8
    ensures Steps(Row7(c), RowE(2 * c), RowE(2 * c + 1))
    ensures Steps(Row7(8 + c), RowF(2 * c), RowF(2 * c + 1))
  {
    match c case 0 => case 1 => case 2 => case 3 => case 4 => case 5 => case 6 => case 7 =>
  }

  lemma EntrySteps(r: int, c: int)
    requires 0 <= r < 8 && 0 <= c < 8
    ensures Steps(Entry(r, c), Entry(2 * r, 2 * c), Entry(2 * r, 2 * c + 1))
    ensures Steps(Entry(r, 8 + c), Entry(2 * r + 1, 2 * c), Entry(2 * r + 1, 2 * c + 1))
  {
    hide Steps, Row0, Row1, Row2, Row3, Row4, Row5, Row6, Row7, Row8, Row9, RowA, RowB, RowC, RowD, RowE, RowF;
    match r
    case 0 => Row0Steps(c);
    case 1 => Row1Steps(c);
    case 2 => Row2Steps(c);
    case 3 => Row3Steps(c);
    case 4 => Row4Steps(c);
    case 5 => Row5Steps(c);
    case 6 => Row6Steps(c);
    case 7 => Row7Steps(c);
  }

  /** Entry i leads in one division step to the entries 2i and 2i + 1. */
  lemma TableSteps(i: byte)
    requires i < 128
    ensures Steps(Table(i), Table(2 * i), Table(2 * i + 1))
  {
    hide Steps, Entry;
    var r, c := i / 16, i % 16;
    EntrySteps(r, c % 8);
    if c < 8 {
      assert (2 * i) / 16 == 2 * r && (2 * i) % 16 == 2 * c;
      assert (2 * i + 1) / 16 == 2 * r && (2 * i + 1) % 16 == 2 * c + 1;
    } else {
      assert (2 * i) / 16 == 2 * r + 1 && (2 * i) % 16 == 2 * (c - 8);
      assert (2 * i + 1) / 16 == 2 * r + 1 && (2 * i + 1) % 16 == 2 * (c - 8) + 1;
    }
  }

  /** The bits of a number, cut around the taps. */
  lemma AroundTaps(b0: nat, e: nat, d: nat, m: nat, c: nat, h: nat)
    requires b0 < 2 && e < 16 && d < 2 && m < 64 && c < 2 && h < 8
    ensures BitsOf(Joined(b0, e, d, m, c, h), 16)
         == [b0 == 1] + BitsOf(e, 4) + [d == 1] + BitsOf(m, 6) + [c == 1] + BitsOf(h, 3)
  {
    hide BitsOf;
    var h4 := c + 2 * h;
    Prepend(c, h, 3);
    Join(m, 64, 6, h4, 4);
    var h10 := m + 64 * h4;
    Prepend(d, h10, 10);
    var h11 := d + 2 * h10;
    Join(e, 16, 4, h11, 11);
    Prepend(b0, e + 16 * h11, 15);
  }

  function Joined(b0: nat, e: nat, d: nat, m: nat, c: nat, h: nat): (x: nat) {
    b0 + 2 * (e + 16 * (d + 2 * (m + 64 * (c + 2 * h))))
  }

  lemma Prepend(b: nat, x: nat, n: nat)
    requires b < 2
    ensures BitsOf(b + 2 * x, n + 1) == [b == 1] + BitsOf(x, n)
  {
  }

  lemma Join(lo: nat, p: nat, k: nat, hi: nat, n: nat)
    requires (p == 16 && k == 4) || (p == 64 && k == 6) || (p == 0x8000 && k == 15)
    requires lo < p
    ensures BitsOf(lo + p * hi, k + n) == BitsOf(lo, k) + BitsOf(hi, n)
  {
    hide BitsOf;
    assert p == Pow2(k) by {
      assert Pow2(4) == 16;
      assert Pow2(6) == 64;
      assert Pow2(10) == 1024;
      assert Pow2(15) == 0x8000;
    }
    BitsConcat(lo, k, hi, n);
  }

  predicate Toggled(a: seq<bool>, b: seq<bool>) {
    |a| == 16 && |b| == 16 && forall i :: 0 <= i < 16 ==> b[i] == (a[i] != Tap(i))
  }

  lemma JoinedToggled(e: nat, d: nat, m: nat, c: nat, h: nat)
    requires e < 16 && d < 2 && m < 64 && c < 2 && h < 8
    ensures Toggled(BitsOf(Joined(0, e, d, m, c, h), 16), BitsOf(Joined(1, e, 1 - d, m, 1 - c, h), 16))
  {
    hide BitsOf, Joined;
    AroundTaps(0, e, d, m, c, h);
    AroundTaps(1, e, 1 - d, m, 1 - c, h);
  }

  /** Adding or taking away the tap weights of an even number toggles its bits at the taps. */
  lemma FlipIsXor(s: nat)
    requires s % 2 == 0 && s < 0x1_0000
    ensures 0 <= Flip(s) < 0x1_0000
    ensures Toggled(BitsOf(s, 16), BitsOf(Flip(s), 16))
  {
    hide BitsOf, Toggled;
    var e, d, m, c, h := s / 2 % 16, s / 32 % 2, s / 64 % 64, s / 4096 % 2, s / 8192;
    Digits(s);
    JoinedToggled(e, d, m, c, h);
  }

  lemma Digits(s: nat)
    requires s % 2 == 0 && s < 0x1_0000
    ensures var e, d, m, c, h := s / 2 % 16, s / 32 % 2, s / 64 % 64, s / 4096 % 2, s / 8192;
            && h < 8
            && s == Joined(0, e, d, m, c, h)
            && Flip(s) == Joined(1, e, 1 - d, m, 1 - c, h)
  {
    assert s / 32 == s / 2 / 16;
    assert s / 64 == s / 32 / 2;
    assert s / 4096 == s / 64 / 64;
    assert s / 8192 == s / 4096 / 2;
  }

  /** The step on numbers is the step on their bits. */
  lemma StepNumIsStep(x: uint16, bit: bool)
    ensures 0 <= StepNum(x, bit) < 0x1_0000
    ensures Bits16(StepNum(x, bit)) == Step(Bits16(x), bit)
  {
    hide BitsOf, Flip;
    var y, top := x % 0x8000, x / 0x8000;
    var s := 2 * y;
    assert 2 * x % 0x1_0000 == s;
    Join(y, 0x8000, 15, top, 1);
    Prepend(top, 0, 0);
    Prepend(0, y, 15);
    FlipIsXor(s);
    assert BitsOf(x, 16) == BitsOf(y, 15) + [top == 1];
    assert BitsOf(s, 16) == [false] + BitsOf(y, 15);
  }

  // ---------------------------------------------------- the table is the division

  lemma StepZero()
    ensures Step(ZERO, false) == ZERO
  {
  }

  /** The message bits of 2i + b are those of i without the first, then b. */
  lemma MsbBitsDouble(i: byte, b: nat)
    requires i < 128 && b < 2
    ensures MsbBits(2 * i + b) == MsbBits(i)[1..] + [b == 1]
    ensures !MsbBits(i)[0]
  {
    hide BitsOf;
    Prepend(b, i, 7);
    BitsTop(i, 7);
  }

  lemma {:induction false} BitsTop(x: nat, n: nat)
    requires x < Pow2(n)
    ensures BitsOf(x, n + 1) == BitsOf(x, n) + [false]
    decreases n
  {
    if n > 0 {
      BitsTop(x / 2, n - 1);
    }
  }

  /** Zero bits leave a zero register. */
  lemma {:induction false} FeedZeros(n: nat)
    ensures Feed(ZERO, seq(n, _ => false)) == ZERO
  {
    if n > 0 {
      StepZero();
      assert seq(n, _ => false)[1..] == seq(n - 1, _ => false);
      FeedZeros(n - 1);
    }
  }

  /** A leading zero bit leaves a zero register, so the rest of the message decides. */
  lemma FeedDouble(m: seq<bool>, bit: bool)
    requires |m| > 0 && !m[0]
    ensures Feed(ZERO, m[1..] + [bit]) == Step(Feed(ZERO, m), bit)
  {
    hide Step;
    StepZero();
    FeedConcat(ZERO, m[1..], [bit]);
    assert Feed(ZERO, m[1..]) == Feed(ZERO, m);
    assert Feed(Feed(ZERO, m), [bit]) == Step(Feed(ZERO, m), bit) by {
      assert [bit][1..] == [];
    }
  }

  /** Entry i of the table is the register after the eight bits of i. */
  lemma {:induction false} TableIsFeed(i: byte)
    ensures 0 <= Table(i) < 0x1_0000
    ensures Bits16(Table(i)) == Feed(ZERO, MsbBits(i))
    decreases i
  {
    hide BitsOf, MsbBits, Feed, Step, StepNum, Table;
    if i == 0 {
      TableZero();
    } else {
      var j: byte, b := i / 2, i % 2;
      TableIsFeed(j);
      TableSteps(j);
      StepNumIsStep(Table(j), b == 1);
      MsbBitsDouble(j, b);
      FeedDouble(MsbBits(j), b == 1);
    }
  }

  lemma TableZero()
    ensures Table(0) == 0
    ensures Bits16(0) == Feed(ZERO, MsbBits(0))
  {
    hide BitsOf, Feed;
    BitsZero(8);
    BitsZero(16);
    FeedZeros(8);
    assert MsbBits(0) == seq(8, _ => false);
  }

  // ------------------------------------------------------------------ the loop

  /** a ^ b on bytes. */
  function XorByte(a: byte, b: byte): (r: byte)
    ensures BitsOf(r, 8) == Xor(BitsOf(a, 8), BitsOf(b, 8))
  {
    var w := Xor(BitsOf(a, 8), BitsOf(b, 8));
    BitsNum(w);
    Pow2Bytes();
    Num(w)
  }

  /** a ^ b on 16-bit words. */
  function Xor16(a: uint16, b: uint16): (r: uint16)
    ensures Bits16(r) == Xor(Bits16(a), Bits16(b))
  {
    Num16(Xor(Bits16(a), Bits16(b)))
  }

  /** The bits of the high byte, and of the word shifted left by eight. */
  lemma HighLow(crc: uint16)
    ensures Bits16(crc)[8..] == BitsOf(crc / 0x100, 8)
    ensures Bits16(crc * 0x100 % 0x1_0000) == Shl(Bits16(crc), 8)
  {
    hide BitsOf;
    var lo, hi := crc % 0x100, crc / 0x100;
    Pow2Bytes();
    BitsConcat(lo, 8, hi, 8);
    BitsConcat(0, 8, lo, 8);
    BitsZero(8);
    assert crc * 0x100 % 0x1_0000 == 0x100 * lo;
  }

  lemma {:induction false} BitsZero(n: nat)
    ensures BitsOf(0, n) == seq(n, _ => false)
  {
    if n > 0 {
      BitsZero(n - 1);
    }
  }

  /** One pass of the loop feeds the eight bits of one byte. */
  lemma ByteStep(crc: uint16, b: byte)
    ensures var t := Table(XorByte(crc / 0x100, b));
            && 0 <= t < 0x1_0000
            && Bits16(Xor16(crc * 0x100 % 0x1_0000, t)) == Feed(Bits16(crc), MsbBits(b))
  {
    hide Feed, Table, BitsOf;
    var x := XorByte(crc / 0x100, b);
    TableIsFeed(x);
    HighLow(crc);
    FeedSplit(Bits16(crc), MsbBits(b));
    assert MsbBits(x) == XorTop(MsbBits(b), Bits16(crc));
  }

  lemma CrcByte(data: seq<byte>, i: nat, start: uint16)
    requires i < |data|
    ensures Bits16(CrcOf(data[..i + 1], start)) == Feed(Bits16(CrcOf(data[..i], start)), MsbBits(data[i]))
  {
    hide Feed, Num16, MsbBits;
    assert data[..i + 1] == data[..i] + [data[i]];
    CrcConcat(data[..i], [data[i]], start);
    assert MessageBits([data[i]]) == MsbBits(data[i]) by {
      assert [data[i]][1..] == [];
    }
  }

  method Crc16(block: seq<byte>, start: uint16) returns (crc: uint16)
    ensures crc == CrcOf(block, start)
  {
    hide *;
    crc := start;
    CrcNothing(start);
    for i := 0 to |block|
      invariant crc == CrcOf(block[..i], start)
    {
      ByteStep(crc, block[i]);
      CrcByte(block, i, start);
      var next := Xor16(crc * 0x100 % 0x1_0000, Table(XorByte(crc / 0x100, block[i])));
      Bits16Injective(next, CrcOf(block[..i + 1], start));
      crc := next;
    }
    assert block[..|block|] == block;
  }

  lemma CrcNothing(start: uint16)
    ensures CrcOf([], start) == start
  {
    NumBits16(start);
  }

  lemma Bits16Injective(x: uint16, y: uint16)
    requires Bits16(x) == Bits16(y)
    ensures x == y
  {
    NumBits16(x);
    NumBits16(y);
  }

  predicate Zeros(data: seq<byte>) {
    forall i :: 0 <= i < |data| ==> data[i] == 0
  }

  lemma {:induction false} FeedFalse(m: seq<bool>)
    requires forall i :: 0 <= i < |m| ==> !m[i]
    ensures Feed(ZERO, m) == ZERO
    decreases |m|
  {
    if m != [] {
      assert Step(ZERO, false) == ZERO;
      FeedFalse(m[1..]);
    }
  }

  lemma {:induction false} ZeroMessage(data: seq<byte>)
    requires Zeros(data)
    ensures forall i :: 0 <= i < |MessageBits(data)| ==> !MessageBits(data)[i]
    decreases |data|
  {
    if data != [] {
      ZeroMessage(data[1..]);
      BitsZero(8);
    }
  }

  /** Zeros, however many, leave a register of zero as it is. */
  lemma CrcZeros(data: seq<byte>)
    requires Zeros(data)
    ensures CrcOf(data, 0) == 0
  {
    hide Feed, MessageBits;
    ZeroMessage(data);
    FeedFalse(MessageBits(data));
    assert Bits16(0) == ZERO by {
      BitsZero(16);
    }
    Bits16Injective(Num16(ZERO), 0);
  }

  // ------------------------------------------------------- a message with its own CRC

  lemma XorSelf(a: seq<bool>)
    ensures Xor(a, a) == seq(|a|, _ => false)
  {
  }

  lemma XorByteSelf(b: byte)
    ensures XorByte(b, b) == 0
  {
    hide BitsOf;
    XorSelf(BitsOf(b, 8));
    BitsZero(8);
    Pow2Bytes();
    NumBits(XorByte(b, b), 8);
    NumBits(0, 8);
  }

  lemma Xor16Zero(x: uint16)
    ensures Xor16(x, 0) == x == Xor16(0, x)
  {
    hide BitsOf;
    BitsZero(16);
    var b := Bits16(x);
    assert Xor(b, Bits16(0)) == b == Xor(Bits16(0), b);
    Bits16Injective(Xor16(x, 0), x);
    Bits16Injective(Xor16(0, x), x);
  }

  lemma CrcOneByte(b: byte, crc: uint16)
    ensures var t := Table(XorByte(crc / 0x100, b)); 0 <= t < 0x1_0000 && CrcOf([b], crc) == Xor16(crc * 0x100 % 0x1_0000, t)
  {
    hide *;
    ByteStep(crc, b);
    CrcByte([b], 0, crc);
    CrcNothing(crc);
    assert [b][..0] == [] && [b][..1] == [b];
    Bits16Injective(Xor16(crc * 0x100 % 0x1_0000, Table(XorByte(crc / 0x100, b))), CrcOf([b], crc));
  }

  /** The high byte of the register, fed to it, shifts it out. */
  lemma HighByteFed(crc: uint16)
    ensures CrcOf([crc / 0x100], crc) == crc * 0x100 % 0x1_0000
  {
    hide CrcOf, XorByte, Xor16, Table, Bits16, Feed;
    CrcOneByte(crc / 0x100, crc);
    XorByteSelf(crc / 0x100);
    TableZero();
    Xor16Zero(crc * 0x100 % 0x1_0000);
  }

  /** The two bytes of a CRC, high byte first. */
  function Bytes(crc: uint16): (b: seq<byte>) {
    [crc / 0x100, crc % 0x100]
  }

  /** A message followed by its own CRC, high byte first, has the CRC zero. */
  lemma CrcResidue(data: seq<byte>, start: uint16)
    ensures CrcOf(data + Bytes(CrcOf(data, start)), start) == 0
  {
    hide CrcOf, Bytes;
    var crc := CrcOf(data, start);
    CrcConcat(data, Bytes(crc), start);
    BothBytesFed(crc);
  }

  lemma BothBytesFed(crc: uint16)
    ensures CrcOf(Bytes(crc), crc) == 0
  {
    hide CrcOf;
    var rest: uint16 := 0x100 * (crc % 0x100);
    assert crc * 0x100 % 0x1_0000 == rest;
    HighByteFed(crc);
    HighByteFed(rest);
    assert Bytes(crc) == [crc / 0x100] + [rest / 0x100];
    CrcConcat([crc / 0x100], [rest / 0x100], crc);
  }

  /** The generator itself as a message. */
  lemma CrcGenerator()
    ensures CrcOf([1, 0x10, 0x21], 0) == 0
  {
    hide CrcOf, XorByte, Xor16, BitsOf;
    CrcOneByte(1, 0);
    assert XorByte(0, 1) == 1 by {
      XorByteZero(1);
    }
    Xor16Zero(0x1021);
    CrcResidue([1], 0);
    assert [1] + Bytes(0x1021) == [1, 0x10, 0x21];
  }

  lemma XorByteZero(b: byte)
    ensures XorByte(0, b) == b
  {
    hide BitsOf;
    BitsZero(8);
    assert Xor(BitsOf(0, 8), BitsOf(b, 8)) == BitsOf(b, 8);
    Pow2Bytes();
    NumBits(XorByte(0, b), 8);
    NumBits(b, 8);
  }
}
