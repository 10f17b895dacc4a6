/**
  When a block upload can report success with a wrong result: in the runs in
  which no confirmation overtakes a first segment exactly if the user's buffer
  cuts off the last segment, in all runs always.
 */
module SdoBlockUploadLimit {
  import opened Can
  import opened SdoTypes
  import Crc
  import Od
  import S = SdoServer
  import C = SdoClient
  import opened SdoBlockUpload
  import opened SdoBlockUploadStart
  import opened SdoBlockUploadLossless
  import opened SdoBlockUploadRuns
  import opened SdoBlockUploadOvertaken

  /** The client has reported success, but not with n bytes that are w. */
  predicate Wrong(m: Link, w: seq<byte>, n: nat) {
    m.c.state.NotDefined? && m.ret.Ok? && !(m.length == n && Take(m.c.buf, n) == w)
  }

  /** Some run ends so for an object of n bytes; it may have to be one in which no confirmation overtakes a first segment. */
  ghost predicate Misreports(n: nat, size: nat, smooth: bool) {
    exists s, c, index, sub, room, arg, i, run, timeout: uint16 ::
      && 7 * C.BLOCK_SIZE_MAX <= |room| == size < 0x1_0000_0000 && Ready(s, index, sub, arg, n) && 2 <= timeout
      && (smooth ==> Smooth(Requested(s, c, index, sub, room, i), run, timeout))
      && Wrong(Run(Requested(s, c, index, sub, room, i), run, timeout), Wire(s, arg), n)
  }

  /** An idle server with a single object that holds d. */
  function Holding(d: seq<byte>): (s: S.Server)
    requires C.PST < |d| < 0x1_0000
  {
    var od: Od.Dictionary := [Od.Entry(0x2000, Od.Var(Od.OPEN, Some(d)), false)];
    S.Server(S.Node(|d|, false, od), S.Idle, false, ZERO_FRAME, ZERO_FRAME, 0, Held(|d|),
             seq(|d|, _ => 0), 0, 0, 0, 0, false, false, 0)
  }

  function Held(n: uint16): (a: S.Arg) {
    S.Arg(0x2000, 0, 0, true, Od.OPEN, n, n, true)
  }

  lemma HoldingReady(d: seq<byte>)
    requires C.PST < |d| < 0x1_0000
    ensures var s := Holding(d);
            Ready(s, 0x2000, 0, Held(|d|), |d|) && |d| <= s.node.size && Wire(s, Held(|d|)) == d && Held(|d|).length == |d|
  {
    hide Od.Find;
    var od := Holding(d).node.od;
    assert Od.Find(od, 0x2000) == 0 by {
      assert od[0].index == 0x2000;
    }
  }

  // ------------------------------------------------------------- the last segment cut off

  /** For zeros every part has the right checksum, so the client reports success with what it has. */
  lemma ZerosOutcome(m: Link, w: seq<byte>, room: nat)
    requires 0 < |w| <= room && 7 <= room && m.c.state.NotDefined? && Outcome(m, w, room) && Crc.Zeros(w) && Clipped(|w|, room)
    ensures Wrong(m, w, |w|)
  {
    hide Crc.CrcOf, ReportedSize, Clipped;
    ReportedSizeBounds(|w|, room);
    Crc.CrcZeros(w);
    Crc.CrcZeros(w[..ReportedSize(|w|, room)]);
  }

  /** An object of zeros goes through with too small a size. */
  lemma CutOff(n: uint16, c: C.Client, room: seq<byte>)
    requires C.PST < n && Clipped(n, |room|) && 7 * C.BLOCK_SIZE_MAX <= |room| < 0x1_0000_0000
    ensures Misreports(n, |room|, true)
  {
    hide Run, Wire, Requested, Ready, Holding, Held, Outcome, At, SegmentsFor, AllInTime, Smooth, Wrong;
    var w := seq(n, _ => 0);
    var s, arg := Holding(w), Held(n);
    HoldingReady(w);
    StartsAt(s, c, 0x2000, 0, room, arg, PROMPT, 2);
    var l := Requested(s, c, 0x2000, 0, room, PROMPT);
    var run := Finish(l, Announcing, w, w, |room|, 2);
    InTimeSmooth(l, Announcing, run, w, w, |room|, 2);
    OverOutcome(Run(l, run, 2), w, w, |room|, 2);
    ZerosOutcome(Run(l, run, 2), w, |room|);
  }

  // --------------------------------------------------------------- a segment overtaken

  /** Zeros, but for the generator of the CRC in the second segment. */
  function Hidden(n: nat): (w: seq<byte>)
    requires 14 < n
    ensures |w| == n && Doubled(w) == seq(n, _ => 0)
  {
    seq(7, _ => 0) + [1, 0x10, 0x21] + seq(n - 10, _ => 0)
  }

  lemma HiddenChecksum(n: nat)
    requires 14 < n
    ensures Checksum(Hidden(n)) == Checksum(Doubled(Hidden(n))) == 0 && Hidden(n) != Doubled(Hidden(n))
  {
    hide Crc.CrcOf;
    var a, b, c: seq<byte> := seq(7, _ => 0), [1, 0x10, 0x21], seq(n - 10, _ => 0);
    Crc.CrcConcat(a + b, c, 0);
    Crc.CrcConcat(a, b, 0);
    Crc.CrcZeros(a);
    Crc.CrcGenerator();
    Crc.CrcZeros(c);
    Crc.CrcZeros(seq(n, _ => 0));
    assert Hidden(n)[7] == 1 && Doubled(Hidden(n))[7] == 0;
  }

  /** And that goes through as zeros. */
  lemma Replaced(n: uint16, c: C.Client, room: seq<byte>)
    requires C.PST < n <= |room| && !Clipped(n, |room|) && 7 * C.BLOCK_SIZE_MAX <= |room| < 0x1_0000_0000
    ensures Misreports(n, |room|, false)
  {
    hide Run, Wire, Requested, Ready, Holding, Held, Hidden, Doubled, Checksum, Clipped, LosesNothing;
    var w := Hidden(n);
    var s, arg := Holding(w), Held(n);
    HoldingReady(w);
    HiddenChecksum(n);
    var run := WrongSuccess(s, c, 0x2000, 0, room, arg, PROMPT, 2);
    assert Wrong(Run(Requested(s, c, 0x2000, 0, room, PROMPT), run, 2), Wire(s, arg), n);
  }

  // ------------------------------------------------------------------- the exact limit

  /** A buffer too small for the object is never filled. */
  lemma {:induction false} TooSmall(l: Link, run: seq<Event>, w: seq<byte>, timeout: uint16)
    requires Inv(l, w, timeout) && 2 <= timeout && |l.c.buf| < |w|
    ensures Smooth(l, run, timeout)
    decreases |run|
  {
    hide Inv, Overtakes, Mistakes, Step;
    if run != [] {
      NotTaking(l, run[0], w, timeout);
      StepInv(l, run[0], w, timeout);
      RunRoom(l, [run[0]], timeout);
      RunOne(l, run[0], timeout);
      TooSmall(Step(l, run[0], timeout), run[1..], w, timeout);
    }
  }

  lemma NotTaking(l: Link, e: Event, w: seq<byte>, timeout: uint16)
    requires Inv(l, w, timeout) && |l.c.buf| < |w|
    ensures !Overtakes(l, e, timeout) && !Mistakes(l, e, timeout)
  {
    hide C.Upload, ServerInv, IsEnd, IsAccept, IsAbort, Confirms;
  }

  lemma {:induction false} StartTooSmall(s: S.Server, c: C.Client, index: uint16, sub: byte, room: seq<byte>, arg: S.Arg,
                                         i: S.Input, run: seq<Event>, timeout: uint16)
    requires Ready(s, index, sub, arg, arg.length) && 7 * C.BLOCK_SIZE_MAX <= |room| < arg.length && 2 <= timeout
    ensures Smooth(Requested(s, c, index, sub, room, i), run, timeout)
    decreases |run|
  {
    hide Requested, Waiting, Inv, Step, Wire, Overtakes, Mistakes, S.Lookup;
    var l := Requested(s, c, index, sub, room, i);
    RequestedInv(s, c, index, sub, room, arg, i, timeout);
    WireLength(s, index, sub, arg);
    if !Waiting(l, s, c, index, sub, room) {
      TooSmall(l, run, Wire(s, arg), timeout);
    } else if run != [] {
      WaitingCalm(l, run[0], s, c, index, sub, room, timeout);
      if run[0].ServerCall? {
        SameReady(s, s.(timer := l.s.timer), index, sub, arg);
        StartTooSmall(s.(timer := l.s.timer), c, index, sub, room, arg, run[0].i, run[1..], timeout);
      } else {
        StartTooSmall(s, c, index, sub, room, arg, i, run[1..], timeout);
      }
    }
  }

  /** In such a run the result is right, unless the last segment was cut off. */
  lemma SmoothRight(s: S.Server, c: C.Client, index: uint16, sub: byte, room: seq<byte>, arg: S.Arg,
                    i: S.Input, run: seq<Event>, timeout: uint16, n: uint16)
    requires Ready(s, index, sub, arg, n) && 7 * C.BLOCK_SIZE_MAX <= |room| < 0x1_0000_0000 && 2 <= timeout
    requires !Clipped(n, |room|) && (n <= |room| ==> Smooth(Requested(s, c, index, sub, room, i), run, timeout))
    ensures !Wrong(Run(Requested(s, c, index, sub, room, i), run, timeout), Wire(s, arg), n)
  {
    hide Run, Requested, Wire, Clipped, S.Lookup, Inv, Smooth;
    WireLength(s, index, sub, arg);
    if |room| < n {
      StartTooSmall(s, c, index, sub, room, arg, i, run, timeout);
    }
    BlockUpload(s, c, index, sub, room, arg, i, run, timeout);
  }

  /**
    A block upload can report success with a wrong size or wrong bytes exactly
    if the user's buffer holds the object. As long as no confirmation overtakes
    a first segment, it can exactly if the buffer holds the object but not its
    last segment as a whole.
   */
  lemma UploadLimit(n: uint16, c: C.Client, room: seq<byte>)
    requires C.PST < n && 7 * C.BLOCK_SIZE_MAX <= |room| < 0x1_0000_0000
    ensures Misreports(n, |room|, true) <==> Clipped(n, |room|)
    ensures Misreports(n, |room|, false) <==> n <= |room|
  {
    hide Run, Ready, Requested, Wire, Clipped, Wrong, Smooth;
    if Clipped(n, |room|) {
      CutOff(n, c, room);
      SmoothToo(n, |room|);
      ClippedHolds(n, |room|);
    } else {
      forall s, c, index, sub, r, arg, i, run, timeout: uint16
        | && 7 * C.BLOCK_SIZE_MAX <= |r| == |room| && Ready(s, index, sub, arg, n) && 2 <= timeout
          && (n <= |room| ==> Smooth(Requested(s, c, index, sub, r, i), run, timeout))
        ensures !Wrong(Run(Requested(s, c, index, sub, r, i), run, timeout), Wire(s, arg), n)
      {
        SmoothRight(s, c, index, sub, r, arg, i, run, timeout, n);
      }
      if n <= |room| {
        Replaced(n, c, room);
      }
    }
  }

  lemma SmoothToo(n: nat, size: nat)
    requires Misreports(n, size, true)
    ensures Misreports(n, size, false)
  {
    hide Run, Ready, Requested, Wire, Wrong, Smooth;
  }

  lemma ClippedHolds(n: nat, room: nat)
    requires Clipped(n, room)
    ensures n <= room
  {
  }
}
