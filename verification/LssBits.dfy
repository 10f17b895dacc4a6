/**
  Bits of 32-bit numbers, as arithmetic: the masks the LSS slave compares under
  and the bit the LSS master sets, and why a most-significant-bit-first search
  that hears only "somebody agrees" finds the smallest number.
 */
module LssBits {
  import opened Can

  /** Position of a bit in a 32-bit number. */
  type Bit = b: int | 0 <= b < 32

  lemma Pow2Values()
    ensures Pow2(0) == 1 && Pow2(32) == 0x1_0000_0000
  {
    assert Pow2(4) == 16;
    assert Pow2(8) == 0x100;
    assert Pow2(12) == 0x1000;
    assert Pow2(16) == 0x1_0000;
    assert Pow2(20) == 0x10_0000;
    assert Pow2(24) == 0x100_0000;
    assert Pow2(28) == 0x1000_0000;
  }

  /** a & (0xFFFFFFFF << bit): the lowest `bit` bits are cleared. */
  function HighBits(a: uint32, bit: Bit): (r: int) {
    a - a % Pow2(bit)
  }

  predicate HighBitsEqual(a: uint32, b: uint32, bit: Bit) {
    HighBits(a, bit) == HighBits(b, bit)
  }

  lemma {:induction false} Pow2Divides(bit: nat, n: nat) returns (k: nat)
    requires bit <= n
    ensures Pow2(n) == Pow2(bit) * k && 0 < k && (bit < n ==> k % 2 == 0)
    decreases n - bit
  {
    if bit == n {
      k := 1;
    } else {
      var j := Pow2Divides(bit, n - 1);
      k := 2 * j;
    }
  }

  /** id | (1 << bit). */
  function SetBit(id: uint32, bit: Bit): (r: uint32) {
    SetBitFits(id, bit);
    if id / Pow2(bit) % 2 == 1 then id else id + Pow2(bit)
  }

  lemma SetBitFits(id: uint32, bit: Bit)
    ensures id / Pow2(bit) % 2 == 0 ==> id + Pow2(bit) < 0x1_0000_0000
  {
    var k := Pow2Divides(bit, 32);
    Pow2Values();
    if id / Pow2(bit) % 2 == 0 {
      RoomAbove(id, Pow2(bit), k);
    }
  }

  lemma RoomAbove(x: nat, p: nat, k: nat)
    requires 0 < p && x < p * k && k % 2 == 0 && x / p % 2 == 0
    ensures x + p < p * k
  {
    var q := x / p;
    assert x == p * q + x % p;
    MulCancelLess(p, q, k);
    MulMonotone(p, q + 2, k);
    assert p * (q + 2) == p * q + 2 * p;
  }

  lemma MulMonotone(p: nat, a: int, b: int)
    requires a <= b
    ensures p * a <= p * b
  {
    assert p * b == p * a + p * (b - a);
  }

  lemma MulCancelLess(p: nat, a: int, b: int)
    requires p * a < p * b
    ensures a < b
  {
    if b <= a {
      MulMonotone(p, b, a);
    }
  }

  lemma DivAtLeast(x: nat, p: nat, q: nat)
    requires 0 < p && p * q <= x
    ensures q <= x / p
  {
    assert x == p * (x / p) + x % p;
    assert p * (x / p + 1) == p * (x / p) + p;
    MulCancelLess(p, q, x / p + 1);
  }

  lemma DivMonotone(x: nat, y: nat, p: nat)
    requires 0 < p && x <= y
    ensures x / p <= y / p
  {
    assert x == p * (x / p) + x % p;
    DivAtLeast(y, p, x / p);
  }

  lemma DivUnique(x: nat, p: nat, q: nat, r: nat)
    requires 0 < p && x == p * q + r && r < p
    ensures x / p == q && x % p == r
  {
    DivAtLeast(x, p, q);
    assert x == p * (x / p) + x % p;
    assert p * (q + 1) == p * q + p;
    MulCancelLess(p, x / p, q + 1);
  }

  lemma HighBitsAsQuotient(a: uint32, b: uint32, bit: Bit)
    ensures HighBitsEqual(a, b, bit) <==> a / Pow2(bit) == b / Pow2(bit)
  {
    var p := Pow2(bit);
    assert a - a % p == p * (a / p) && b - b % p == p * (b / p);
    if p * (a / p) == p * (b / p) {
      MulInjective(p, a / p, b / p);
    }
  }

  lemma MulInjective(p: nat, a: int, b: int)
    requires 0 < p && p * a == p * b
    ensures a == b
  {
    assert p * (a + 1) == p * a + p && p * (b + 1) == p * b + p;
    MulCancelLess(p, a, b + 1);
    MulCancelLess(p, b, a + 1);
  }

  /** id agrees with m above `bit` and is zero from `bit` downwards. */
  predicate Narrowed(m: uint32, id: uint32, bit: Bit) {
    m / Pow2(bit + 1) == id / Pow2(bit + 1) && id % Pow2(bit + 1) == 0
  }

  lemma NarrowedStart(m: uint32)
    ensures Narrowed(m, 0, 31)
  {
    Pow2Values();
  }

  lemma DivHalf(x: nat, p: nat)
    requires 0 < p
    ensures x / (2 * p) == x / p / 2
  {
    var q := x / p;
    var h := q / 2;
    assert x == p * q + x % p;
    HalveProduct(p, q);
    DivUnique(x, 2 * p, h, p * (q % 2) + x % p);
  }

  lemma HalveProduct(p: nat, q: nat)
    ensures p * q == 2 * p * (q / 2) + p * (q % 2)
  {
    var h, r := q / 2, q % 2;
    assert q == 2 * h + r;
    assert p * (2 * h + r) == p * (2 * h) + p * r;
  }

  /** Knowing all but the last bit of a quotient leaves two values. */
  lemma TwoChoices(m: nat, id: nat, p: nat)
    requires 0 < p && m / (2 * p) == id / (2 * p) && id % (2 * p) == 0
    ensures id % p == 0 && id / p % 2 == 0 && (m / p == id / p || m / p == id / p + 1)
    ensures (id + p) % p == 0 && (id + p) / p == id / p + 1
  {
    var h := id / (2 * p);
    assert id == 2 * p * h + id % (2 * p);
    assert 2 * p * h == p * (2 * h);
    DivUnique(id, p, 2 * h, 0);
    DivHalf(m, p);
    assert p * (2 * h + 1) == p * (2 * h) + p;
    DivUnique(id + p, p, 2 * h + 1, 0);
  }

  lemma NotBelow(m: nat, id: nat, p: nat)
    requires 0 < p && m / p == id / p && id % p == 0
    ensures id <= m
  {
    assert m == p * (m / p) + m % p;
    assert id == p * (id / p) + id % p;
  }

  /** If any number not below m agrees on the bit, so does m. */
  lemma NarrowedAck(m: uint32, a: uint32, id: uint32, bit: Bit)
    requires Narrowed(m, id, bit) && m <= a && HighBitsEqual(a, id, bit)
    ensures HighBitsEqual(m, id, bit)
  {
    var p := Pow2(bit);
    NotBelow(m, id, 2 * p);
    DivMonotone(id, m, p);
    DivMonotone(m, a, p);
    HighBitsAsQuotient(a, id, bit);
    HighBitsAsQuotient(m, id, bit);
  }

  /** The guess after the answer for one bit: silence means that the bit is set. */
  function Guess(m: uint32, id: uint32, bit: Bit): (r: uint32) {
    if HighBitsEqual(m, id, bit) then id else SetBit(id, bit)
  }

  /** Acknowledged or not, one more bit of m is known. */
  lemma GuessKnows(m: uint32, id: uint32, bit: Bit)
    requires Narrowed(m, id, bit)
    ensures m / Pow2(bit) == Guess(m, id, bit) / Pow2(bit) && Guess(m, id, bit) % Pow2(bit) == 0
  {
    HighBitsAsQuotient(m, id, bit);
    TwoChoices(m, id, Pow2(bit));
  }

  lemma NarrowedStep(m: uint32, id: uint32, bit: Bit)
    requires Narrowed(m, id, bit) && bit != 0
    ensures Narrowed(m, Guess(m, id, bit), bit - 1)
  {
    GuessKnows(m, id, bit);
  }

  lemma NarrowedEnd(m: uint32, id: uint32)
    requires Narrowed(m, id, 0)
    ensures m == Guess(m, id, 0)
  {
    GuessKnows(m, id, 0);
  }

  lemma EqualOnAllBits(a: uint32, b: uint32)
    ensures HighBitsEqual(a, b, 0) <==> a == b
  {
  }
}
