/** A server whose client falls silent returns to idle, from every state it can be in. */
module SdoServerEnds {
  import opened Can
  import opened SdoTypes
  import Crc
  import opened SdoServer
  import opened SdoServerSafe

  /** Idle with nothing to process: the state is kept until a frame arrives. */
  predicate Quiet(s: Server) {
    s.state.Idle? && !s.rxNew
  }

  /** A process call of an operational node, whose timer does not wrap around. */
  predicate Calm(i: Input, timeout: uint16) {
    i.operational && i.timeout == timeout && timeout + i.dt < 0x1_0000
  }

  /** From call m on, some call lets time pass. */
  ghost predicate Passes(calls: nat -> Input, m: nat) {
    exists j: nat :: m <= j && 0 < calls(j).dt
  }

  /** The state after n calls that take their inputs from position k on. */
  function After(s: Server, calls: nat -> Input, k: nat, n: nat): (r: Server)
    decreases n
  {
    if n == 0 then s else After(Process(s, calls(k)).s, calls, k + 1, n - 1)
  }

  /** The segments of the block still to be sent. */
  function SegmentsLeft(s: Server): (n: nat) {
    if s.state.UploadBlSubblock? && !s.end && s.sequence < s.blksize then s.blksize - s.sequence else 0
  }

  /** A sub-block reply is still to be given. */
  function ReplyLeft(s: Server): (n: nat) {
    if s.state.DownloadBlSubblock? && s.sequence != 0 then 1 else 0
  }

  function TimeLeft(s: Server, timeout: uint16): (n: nat) {
    if s.timer < timeout then timeout - s.timer else 0
  }

  function FrameLeft(s: Server): (n: nat) {
    if s.rxNew then 1 else 0
  }

  /** r comes before s in the lexicographic order of frame, segments, reply and time left. */
  predicate Less(r: Server, s: Server, timeout: uint16) {
    || FrameLeft(r) < FrameLeft(s)
    || (FrameLeft(r) == FrameLeft(s) && SegmentsLeft(r) < SegmentsLeft(s))
    || (FrameLeft(r) == FrameLeft(s) && SegmentsLeft(r) == SegmentsLeft(s) && ReplyLeft(r) < ReplyLeft(s))
    || (FrameLeft(r) == FrameLeft(s) && SegmentsLeft(r) == SegmentsLeft(s) && ReplyLeft(r) == ReplyLeft(s)
        && TimeLeft(r, timeout) < TimeLeft(s, timeout))
  }

  /** Not even time is less. */
  predicate Level(r: Server, s: Server, timeout: uint16) {
    && FrameLeft(r) == FrameLeft(s) && SegmentsLeft(r) == SegmentsLeft(s) && ReplyLeft(r) == ReplyLeft(s)
    && TimeLeft(r, timeout) == TimeLeft(s, timeout)
  }

  /** A call brings the end nearer, or took no time and changed nothing that counts. */
  predicate Nearer(r: Server, s: Server, i: Input, timeout: uint16) {
    Quiet(r) || Less(r, s, timeout) || (i.dt == 0 && Level(r, s, timeout))
  }

  /** The timer runs on, up to the abort. */
  lemma WaitLess(s: Server, i: Input, timeout: uint16)
    requires Calm(i, timeout) && !(s.state.DownloadBlSubblock? && s.sequence != 0)
    ensures var r := Timed(s, i, Idle).s; Nearer(r, s, i, timeout)
  {
    hide Act, SubblockResponse;
  }

  /** A silent block download answers what it has, once, and then times out. */
  lemma SubblockLess(s: Server, i: Input, timeout: uint16)
    requires Calm(i, timeout) && s.state.DownloadBlSubblock? && !s.rxNew
    ensures var r := Timed(s, i, Idle).s; Nearer(r, s, i, timeout)
  {
    hide Act, SubblockResponse;
    var s1 := if s.timer < i.timeout then s.(timer := Add16(s.timer, i.dt)) else s;
    if s1.timer >= i.timeout && s.sequence != 0 && !i.txFull {
      ResponseClears(s1, i);
    }
  }

  lemma ResponseClears(s: Server, i: Input)
    ensures var r := SubblockResponse(s, i, false).s; Quiet(r) || (r.state.DownloadBlSubblock? && r.sequence == 0 && !r.rxNew)
  {
    hide WriteOd, Crc.CrcOf, Segments;
  }

  /** A block upload sends its segments one by one, and then waits. */
  lemma UploadLess(s: Server, i: Input, timeout: uint16)
    requires Calm(i, timeout) && s.state.UploadBlSubblock? && !s.rxNew && !i.txFull && Safe(s)
    ensures var r := Process(s, i).s; Nearer(r, s, i, timeout)
  {
    hide SendBlockSegment, Start, SubblockResponse, Confirmed, BlockFits;
    var t := if s.timer < i.timeout then Add16(s.timer, i.dt) else s.timer;
    var s1 := s.(tx := ZERO_FRAME, timer := t);
    if s.sequence == s.blksize || s.end {
      NothingToSend(s1);
    } else {
      SendBlockEffect(s1);
    }
  }

  lemma SilentLess(s: Server, i: Input, timeout: uint16)
    requires Calm(i, timeout) && Safe(s) && !s.rxNew && !Quiet(s)
    ensures var r := Process(s, i).s; Nearer(r, s, i, timeout)
  {
    hide Timed, Begin, Safe, Nearer;
    if s.state.UploadBlSubblock? && !i.txFull {
      UploadLess(s, i, timeout);
    } else if s.state.DownloadBlSubblock? {
      SubblockLess(s, i, timeout);
    } else {
      WaitLess(s, i, timeout);
    }
  }

  // -------------------------------------------------- a pending frame is used up

  lemma DownloadClears(s: Server, i: Input)
    ensures !InitiateDownload(s, i).s.rxNew && !InitiateBlockDownload(s).s.rxNew
  {
    hide WriteOd, Blit, Bit0, Bit1, Bit2, FrameValue, ExpeditedUnused, Specifier, Segments;
  }

  lemma SegmentClears(s: Server, i: Input)
    ensures !SegmentDownload(s, i).s.rxNew
  {
    hide WriteOd, TakeSegment, Specifier, Toggle, SegmentUnused;
    var n := 7 - SegmentUnused(s.rx[0]);
    TakeClears(s, n, i.write1);
    var a := WriteOd(s.(arg := s.arg.(last := false)), s.at, i.write1);
    TakeClears(a.s.(arg := a.s.arg.(length := s.node.size), at := 0), n, i.write2);
  }

  lemma TakeClears(s: Server, n: nat, write: uint32)
    requires n <= 7
    ensures !TakeSegment(s, n, write).s.rxNew
  {
    hide WriteOd, Blit, Bit0;
  }

  lemma BlockClears(s: Server, i: Input, isLast: bool)
    ensures !SubblockResponse(s, i, isLast).s.rxNew
  {
    hide WriteOd, Crc.CrcOf, Segments;
  }

  lemma EndClears(s: Server, i: Input)
    ensures !EndBlockDownload(s, i).s.rxNew && !EndBlockUpload(s).s.rxNew
  {
    hide WriteOd, Crc.CrcOf, Specifier, Bit0, BlockUnused, Minus16;
  }

  lemma UploadClears(s: Server)
    ensures !InitiateUpload(s).s.rxNew && !InitiateBlockUpload(s).s.rxNew
  {
    hide Checksum, Take, Bit2, Subcommand, Le32;
  }

  lemma SegmentUploadClears(s: Server, i: Input)
    ensures !SegmentUpload(s, i).s.rxNew
  {
    hide Refill, FillSegment, Blit, Take, Specifier, Toggle;
  }

  lemma SendKeeps(s: Server)
    ensures SendBlockSegment(s).s.rxNew == s.rxNew
  {
    hide Blit;
  }

  lemma StartClears(s: Server)
    ensures !StartBlockUpload(s).s.rxNew
  {
    hide SendBlockSegment, Specifier, Subcommand;
    SendKeeps(s.(at := 0, sequence := 0, end := false, rxNew := false, state := UploadBlSubblock));
  }

  lemma NextClears(s: Server)
    ensures !NextBlock(s).s.rxNew
  {
    hide SendBlockSegment;
    SendKeeps(s.(at := 0, sequence := 0, end := false, rxNew := false));
  }

  lemma SubblockClears(s: Server, i: Input)
    requires s.rxNew
    ensures !SubblockUpload(s, i).s.rxNew
  {
    hide NextBlock, Refill, Crc.CrcOf, Specifier, Subcommand, Shift;
    var r := Shift(s, s.rx[1]);
    var s1 := r.(blksize := r.rx[2]);
    NextClears(s1);
    if !r.arg.stored {
      var n := r.arg.length;
      var a := Refill(s1, n, i.read);
      var more := if n <= a.s.arg.length <= |a.s.buf| then a.s.buf[n..a.s.arg.length] else [];
      NextClears(a.s.(crc := if r.crcOn then Crc.CrcOf(more, r.crc) else r.crc));
    }
  }

  lemma ActClears(s: Server, i: Input, todo: State)
    requires !todo.Idle? && s.rxNew
    ensures !Act(s, i, todo).s.rxNew
  {
    hide InitiateDownload, SegmentDownload, InitiateBlockDownload, SubblockResponse, EndBlockDownload, InitiateUpload,
      SegmentUpload, InitiateBlockUpload, StartBlockUpload, SubblockUpload, EndBlockUpload;
    DownloadClears(s, i);
    SegmentClears(s, i);
    BlockClears(s, i, s.rx[0] >= 0x80);
    EndClears(s, i);
    UploadClears(s);
    SegmentUploadClears(s, i);
    StartClears(s);
    SubblockClears(s, i);
  }

  lemma TimedClears(s: Server, i: Input, todo: State)
    requires !todo.Idle? && s.rxNew
    ensures !Timed(s, i, todo).s.rxNew
  {
    hide Act, SubblockResponse;
    var s1 := if s.timer < i.timeout then s.(timer := Add16(s.timer, i.dt)) else s;
    BlockClears(s1, i, false);
    ActClears(s1, i, todo);
  }

  /** An operational server that can send uses up a pending frame. */
  lemma FrameUsed(s: Server, i: Input)
    requires s.rxNew && i.operational && !i.txFull
    ensures !Process(s, i).s.rxNew
  {
    hide Timed, Start;
    var s1 := s.(tx := ZERO_FRAME, timer := if s.state.UploadBlSubblock? then s.timer else 0);
    if !s.state.Idle? {
      TimedClears(s1, i, s.state);
    } else {
      RequestUsed(s1, i);
    }
  }

  lemma RequestUsed(s: Server, i: Input)
    requires s.rxNew
    ensures !Start(s, i).s.rxNew
  {
    hide InitTransfer, ReadOd, Timed, Specifier, FrameIndex;
    var ccs := Specifier(s.rx[0]);
    var a := InitTransfer(s, FrameIndex(s.rx), s.rx[3]);
    var b := ReadOd(a.s, 0, i.read);
    if ccs == 1 || ccs == 6 {
      TimedClears(a.s, i, if ccs == 1 then DownloadInitiate else DownloadBlInitiate);
    } else {
      TimedClears(b.s, i, if ccs == 5 && b.s.arg.length > s.rx[5] then UploadBlInitiate else UploadInitiate);
    }
  }

  lemma PendingLess(s: Server, i: Input, timeout: uint16)
    requires Calm(i, timeout) && Safe(s) && s.rxNew
    ensures var r := Process(s, i).s; Nearer(r, s, i, timeout)
  {
    hide Timed, Begin, BlockFits, Sending;
    if i.txFull {
      WaitLess(s, i, timeout);
    } else {
      FrameUsed(s, i);
    }
  }

  // -------------------------------------------------------------------- termination

  /** The OD functions of call m keep to the room they are offered. */
  predicate PoliteAt(s: Server, calls: nat -> Input, k: nat, m: nat) {
    Respects(After(s, calls, k, m), calls(k + m))
  }

  /** Call j is the next one that is known to take time. */
  lemma EndsFrom(s: Server, calls: nat -> Input, k: nat, j: nat, timeout: uint16) returns (n: nat)
    requires Safe(s) && k <= j && 0 < calls(j).dt
    requires forall m: nat :: Calm(calls(m), timeout) && Passes(calls, m)
    requires forall m: nat :: PoliteAt(s, calls, k, m)
    ensures Quiet(After(s, calls, k, n))
    decreases FrameLeft(s), SegmentsLeft(s), ReplyLeft(s), TimeLeft(s, timeout), j - k
  {
    hide Safe, Process, Respects, Calm, FrameLeft, SegmentsLeft, ReplyLeft, TimeLeft, Passes;
    if Quiet(s) {
      n := 0;
    } else {
      var i := calls(k);
      var r := Process(s, i).s;
      assert Calm(i, timeout) && After(s, calls, k, 0) == s;
      assert PoliteAt(s, calls, k, 0);
      ProcessSafe(s, i);
      if s.rxNew {
        PendingLess(s, i, timeout);
      } else {
        SilentLess(s, i, timeout);
      }
      if Quiet(r) {
        n := 1;
        assert After(r, calls, k + 1, 0) == r;
      } else {
        var k1 := k + 1;
        forall m: nat
          ensures PoliteAt(r, calls, k1, m)
        {
          assert PoliteAt(s, calls, k, m + 1);
        }
        var j1 := if k < j then j else NextCall(calls, k1);
        var n1 := EndsFrom(r, calls, k1, j1, timeout);
        n := n1 + 1;
      }
    }
  }

  ghost function NextCall(calls: nat -> Input, m: nat): (j: nat)
    requires Passes(calls, m)
    ensures m <= j && 0 < calls(j).dt
  {
    var j: nat :| m <= j && 0 < calls(j).dt; j
  }

  /** With no further frame, calls among which time goes on passing bring the server back to idle. */
  lemma SilentServerEnds(s: Server, calls: nat -> Input, k: nat, timeout: uint16) returns (n: nat)
    requires Safe(s)
    requires forall m: nat :: Calm(calls(m), timeout) && Passes(calls, m)
    requires forall m: nat :: PoliteAt(s, calls, k, m)
    ensures Quiet(After(s, calls, k, n))
  {
    assert Passes(calls, k);
    n := EndsFrom(s, calls, k, NextCall(calls, k), timeout);
  }
}
