/** The segments of a block transfer under way. */
module SdoSegments {
  import opened Can
  import opened SdoTypes
  import C = SdoClient

  /** Segments a + 1 to b of the block at `base`. */
  function Segs(w: seq<byte>, base: nat, a: byte, b: byte): (q: seq<Frame>)
    requires b < 0x80
    decreases b - a
  {
    if a >= b then [] else [C.Segment(w, base, a + 1)] + Segs(w, base, a + 1, b)
  }

  lemma {:induction false} SegsAppend(w: seq<byte>, base: nat, a: byte, b: byte)
    requires a <= b < 0x7F
    ensures Segs(w, base, a, b + 1) == Segs(w, base, a, b) + [C.Segment(w, base, b + 1)]
    decreases b - a
  {
    hide C.Segment;
    if a < b {
      SegsAppend(w, base, a + 1, b);
    } else {
      assert Segs(w, base, a + 1, b + 1) == [];
    }
  }

  lemma SegsEmpty(w: seq<byte>, base: nat, a: byte, b: byte)
    requires a <= b < 0x80
    ensures Segs(w, base, a, b) == [] <==> a == b
  {
    hide C.Segment;
  }

  /** The first byte of a segment: its number, and the mark of the last. */
  lemma LastBit(w: seq<byte>, base: nat, k: byte)
    requires 0 < k < 0x80
    ensures var f := C.Segment(w, base, k); Seqno(f[0]) == k && f[0] != ABORT && (f[0] >= 0x80 <==> base + 7 * (k as int) >= |w|)
  {
  }

  /** Segments of n bytes from byte `at` on. */
  function Cut(n: nat, at: int): (k: nat) {
    if at >= n then 0 else SegmentsFor(n - at)
  }

  lemma CutNext(n: nat, at: nat)
    requires at < n
    ensures Cut(n, at) == Cut(n, at + 7) + 1
  {
  }

  lemma SegmentsAt(at: nat, n: nat)
    requires at % 7 == 0 && at < n <= at + 7
    ensures at + 7 == 7 * SegmentsFor(n)
  {
  }
}
