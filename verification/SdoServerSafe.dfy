/**
  What holds of the SDO server in every run, whatever frames arrive and
  whenever it is processed: no offset leaves the buffer and no subtraction of
  lengths or offsets goes below zero.
 */
module SdoServerSafe {
  import opened Can
  import opened SdoTypes
  import Crc
  import opened SdoServer

  predicate Safe(s: Server) {
    && |s.buf| == s.node.size
    && !s.state.DownloadInitiate? && !s.state.DownloadBlInitiate?
    && !s.state.UploadInitiate? && !s.state.UploadBlInitiate?
    && (s.state.DownloadSegmented? ==> s.at <= s.arg.length <= s.node.size)
    && (s.state.DownloadBlSubblock? ==> !s.rxNew && s.at < s.node.size && (s.sequence > 0 ==> 7 <= s.at))
    && (s.state.DownloadBlSubResp? ==> s.rxNew && s.sequence > 0 && 7 <= s.at <= s.node.size)
    && (s.state.DownloadBlEnd? ==> 7 <= s.at <= s.node.size)
    && (s.state.UploadSegmented? ==> s.at <= s.arg.length <= s.node.size)
    && (s.state.UploadBlInitiate2? ==> 0 < s.arg.length <= s.node.size && BlockFits(s) && 0 < s.blksize)
    && (s.state.UploadBlSubblock? ==> s.arg.length <= s.node.size && BlockFits(s) && Sending(s))
  }

  /** While more data is to come, a whole block is buffered. */
  predicate BlockFits(s: Server) {
    !s.arg.last ==> 7 * s.blksize <= s.arg.length
  }

  /** Every segment of a block is full except the one that ends the transfer. */
  predicate Sending(s: Server) {
    if s.end then
      s.arg.last && s.at == s.arg.length && s.sequence == s.blksize && 0 < s.sequence && 7 * (s.sequence - 1) < s.arg.length
    else
      s.sequence <= s.blksize && s.at == 7 * s.sequence && s.at <= s.arg.length && (s.arg.last ==> s.at < s.arg.length)
  }

  /** The bytes that stay in the buffer in front of a refill. */
  function Kept(s: Server): (n: int) {
    match s.state
    case UploadSegmented => s.arg.length - s.at
    case UploadBlSubblock => var k: int := s.rx[1]; s.arg.length - 7 * k
    case _ => 0
  }

  /** An OD function returns no more than the room it is offered. */
  predicate Respects(s: Server, i: Input) {
    Kept(s) + |i.read.data| <= s.node.size
  }

  /** The subtractions and stores of the step, none of which leaves its range. */
  predicate InRange(s: Server) {
    && (s.state.DownloadBlSubblock? ==> s.at < s.node.size)
    && (s.state.DownloadBlEnd? ==> BlockUnused(s.rx[0]) <= s.at)
    && (s.state.UploadSegmented? ==> s.at <= s.arg.length <= s.node.size)
    && (s.state.UploadBlSubblock? ==> s.at <= s.arg.length <= s.node.size)
    && (s.state.UploadBlSubblock? && s.rx[1] <= s.sequence && !(s.end && s.rx[1] == s.blksize)
        ==> 7 * s.rx[1] <= s.arg.length)
  }

  lemma SafeInRange(s: Server)
    requires Safe(s)
    ensures InRange(s)
  {
  }

  /** Timer and answer play no part. */
  lemma SameSafe(s: Server, r: Server)
    requires Safe(s) && r == s.(tx := r.tx, timer := r.timer)
    ensures Safe(r) && forall i: Input :: Respects(s, i) == Respects(r, i)
  {
  }

  // ------------------------------------------------------------------- reception

  lemma ReceiveSafe(s: Server, f: Frame)
    requires Safe(s)
    ensures Safe(Receive(s, f))
  {
    if !s.rxNew && s.state.DownloadBlSubblock? {
      ReceiveSegmentSafe(s, f);
    }
  }

  lemma RoomFits(s: Server)
    requires s.at < s.node.size
    ensures s.at + Room(s.at, s.node.size) <= s.node.size && (Room(s.at, s.node.size) == 7 || s.at + Room(s.at, s.node.size) == s.node.size)
  {
  }

  lemma ReceiveSegmentSafe(s: Server, f: Frame)
    requires Safe(s) && s.state.DownloadBlSubblock?
    ensures Safe(ReceiveSegment(s, f))
  {
    hide Blit, Seqno, Room;
    var r := ReceiveSegment(s, f);
    if Seqno(f[0]) == s.sequence + 1 {
      assert r.at == s.at + Room(s.at, s.node.size) && r.sequence == s.sequence + 1 by {
        RoomFits(s);
      }
      RoomFits(s);
    } else {
      assert r.at == s.at && r.sequence == s.sequence;
    }
    assert r.state.DownloadBlSubblock? || r.state.DownloadBlSubResp?;
  }

  // ------------------------------------------------------------------- processing

  lemma InitiateDownloadSafe(s: Server, i: Input)
    requires |s.buf| == s.node.size && s.arg.length <= s.node.size
    ensures Safe(InitiateDownload(s, i).s)
  {
    hide WriteOd, Blit, Bit0, Bit1, FrameValue;
    var r := InitiateDownload(s, i).s;
    assert r.state.Idle? || r.state.DownloadSegmented?;
  }

  lemma TakeSegmentSafe(s: Server, n: nat, write: uint32)
    requires n <= 7 && |s.buf| == s.node.size && s.at + n <= s.arg.length <= s.node.size && s.state.DownloadSegmented?
    ensures Safe(TakeSegment(s, n, write).s)
  {
    hide WriteOd, Blit, Bit0;
    var r := TakeSegment(s, n, write).s;
    assert r.state.Idle? || r.state.DownloadSegmented?;
  }

  lemma IdleSafe(s: Server)
    requires s.state.Idle? && |s.buf| == s.node.size
    ensures Safe(s)
  {
  }

  lemma SegmentedFacts(s: Server)
    requires Safe(s) && s.state.DownloadSegmented?
    ensures |s.buf| == s.node.size && s.at <= s.arg.length <= s.node.size
  {
  }

  lemma SegmentDownloadSafe(s: Server, i: Input)
    requires Safe(s) && s.state.DownloadSegmented?
    ensures Safe(SegmentDownload(s, i).s)
  {
    hide WriteOd, TakeSegment, Specifier, Toggle, SegmentUnused, Safe;
    var n := 7 - SegmentUnused(s.rx[0]);
    assert |s.buf| == s.node.size && s.at <= s.arg.length <= s.node.size by {
      SegmentedFacts(s);
    }
    var r := SegmentDownload(s, i);
    if Specifier(s.rx[0]) != 0 || Toggle(s.rx[0]) != s.sequence {
      IdleSafe(r.s);
    } else if s.at + n <= s.arg.length {
      TakeSegmentSafe(s, n, i.write1);
    } else if s.arg.stored {
      IdleSafe(r.s);
    } else {
      var a := WriteOd(s.(arg := s.arg.(last := false)), s.at, i.write1);
      if a.abort == 0 {
        TakeSegmentSafe(a.s.(arg := a.s.arg.(length := s.node.size), at := 0), n, i.write2);
      } else {
        IdleSafe(r.s);
      }
    }
  }

  lemma NextSubblockSafe(s: Server, isLast: bool)
    requires |s.buf| == s.node.size && s.sequence == 0 && s.at <= s.node.size && (isLast ==> 7 <= s.at)
    ensures Safe(NextSubblock(s, isLast).s)
  {
    hide Segments;
  }

  lemma SubblockResponseSafe(s: Server, i: Input, isLast: bool)
    requires |s.buf| == s.node.size && 7 <= s.at <= s.node.size
    ensures Safe(SubblockResponse(s, i, isLast).s)
  {
    hide WriteOd, NextSubblock, Crc.CrcOf;
    var s1 := s.(tx := s.tx[0 := 0xA2][1 := s.sequence], sequence := 0);
    if !s.arg.stored && s.at != 0 && !isLast {
      var s2 := s1.(crc := if s.crcOn then Crc.CrcOf(Take(s.buf, s.at), s.crc) else s.crc, arg := s.arg.(last := false));
      var a := WriteOd(s2, s.at, i.write1);
      if a.abort == 0 {
        NextSubblockSafe(a.s.(arg := a.s.arg.(length := s.node.size), at := 0), isLast);
      }
    } else {
      NextSubblockSafe(s1, isLast);
    }
  }

  lemma EndBlockDownloadSafe(s: Server, i: Input)
    requires |s.buf| == s.node.size
    ensures Safe(EndBlockDownload(s, i).s)
  {
    hide WriteOd, Crc.CrcOf, Specifier, Bit0, BlockUnused, Minus16;
    assert EndBlockDownload(s, i).s.state.Idle?;
  }

  lemma InitiateBlockDownloadSafe(s: Server)
    requires |s.buf| == s.node.size
    ensures Safe(InitiateBlockDownload(s).s)
  {
    hide Specifier, Bit0, Bit1, Bit2, FrameValue, Segments;
    var r := InitiateBlockDownload(s).s;
    assert r.state.Idle? || r.state.DownloadBlSubblock?;
  }

  lemma InitiateUploadSafe(s: Server)
    requires |s.buf| == s.node.size && s.arg.length <= s.node.size
    ensures Safe(InitiateUpload(s).s)
  {
    var r := InitiateUpload(s).s;
    assert r.state.Idle? || r.state.UploadSegmented?;
  }

  lemma SendSegmentSafe(s: Server)
    requires Safe(s) && s.state.UploadSegmented?
    ensures Safe(SendSegment(s).s)
  {
  }

  lemma RefillSegmentSafe(s: Server, i: Input)
    requires Safe(s) && s.state.UploadSegmented? && Respects(s, i) && !s.arg.stored
    ensures Safe(RefillSegment(s, i).s)
  {
    hide Refill, SendSegment, Blit, Take;
    var n := Minus16(s.arg.length, s.at);
    var a := Refill(s.(buf := Blit(s.buf, 0, Take(s.buf[Min(s.at, |s.buf|)..], n))), n, i.read);
    if a.abort == 0 {
      SendSegmentSafe(a.s.(at := 0));
    }
  }

  lemma SegmentUploadSafe(s: Server, i: Input)
    requires Safe(s) && s.state.UploadSegmented? && Respects(s, i)
    ensures Safe(SegmentUpload(s, i).s)
  {
    hide RefillSegment, SendSegment, Specifier, Toggle;
    if !s.arg.stored && Minus16(s.arg.length, s.at) < 7 && !s.arg.last {
      RefillSegmentSafe(s, i);
    } else {
      SendSegmentSafe(s);
    }
  }

  lemma InitiateBlockUploadSafe(s: Server)
    requires |s.buf| == s.node.size && 0 < s.arg.length <= s.node.size
    ensures Safe(InitiateBlockUpload(s).s)
  {
    hide Checksum, Take, Bit2, Subcommand, Le32;
    var r := InitiateBlockUpload(s).s;
    assert r.state.Idle? || r.state.UploadBlInitiate2?;
  }

  lemma NothingToSend(s: Server)
    requires s.sequence == s.blksize || s.end
    ensures SendBlockSegment(s) == Result(s, None, 1)
  {
  }

  /** What sending one segment of a block does. */
  lemma SendBlockEffect(s: Server)
    requires s.at <= s.arg.length && s.sequence < s.blksize && !s.end
    ensures var r := SendBlockSegment(s).s; var n := Min(7, s.arg.length - s.at);
            && r.node == s.node && r.state == s.state && r.rxNew == s.rxNew && r.rx == s.rx && r.arg == s.arg && r.buf == s.buf
            && r.at == s.at + n && r.sequence == s.sequence + 1
            && r.end == (s.arg.last && r.at == s.arg.length)
            && r.blksize == (if r.end then r.sequence else s.blksize)
            && r.crc == s.crc && r.crcOn == s.crcOn && r.timer == 0 && (r.end ==> r.lastLen == n)
  {
    hide Blit;
  }

  /** Ready to send, the flags of the block set up. */
  lemma SendBlockSegmentSafe(s: Server)
    requires |s.buf| == s.node.size && s.arg.length <= s.node.size && BlockFits(s) && Sending(s) && s.state.UploadBlSubblock?
    ensures Safe(SendBlockSegment(s).s)
  {
    hide SendBlockSegment;
    if s.sequence == s.blksize || s.end {
      assert SendBlockSegment(s).s == s by {
        NothingToSend(s);
      }
    } else {
      SendBlockEffect(s);
    }
  }

  lemma NextBlockSafe(s: Server)
    requires |s.buf| == s.node.size && s.arg.length <= s.node.size && (s.arg.last ==> 0 < s.arg.length) && s.state.UploadBlSubblock?
    ensures Safe(NextBlock(s).s)
  {
    hide SendBlockSegment;
    var s1 := s.(at := 0, sequence := 0, end := false, rxNew := false);
    if 7 * s.blksize <= s.arg.length || s.arg.last {
      SendBlockSegmentSafe(s1);
    }
  }

  lemma ConfirmedSafe(s: Server, i: Input)
    requires |s.buf| == s.node.size && s.arg.length + |i.read.data| <= s.node.size && s.state.UploadBlSubblock?
    requires s.arg.last ==> 0 < s.arg.length
    ensures Safe(Confirmed(s, i).s)
  {
    hide NextBlock, Refill, Crc.CrcOf;
    var s1 := s.(blksize := s.rx[2]);
    if !s.arg.stored && s.arg.length < 7 * s1.blksize && !s.arg.last {
      var n := s.arg.length;
      var a := Refill(s1, n, i.read);
      if a.abort == 0 {
        var more := a.s.buf[n..a.s.arg.length];
        NextBlockSafe(a.s.(crc := if s.crcOn then Crc.CrcOf(more, s.crc) else s.crc));
      }
    } else {
      NextBlockSafe(s1);
    }
  }

  lemma SubblockUploadSafe(s: Server, i: Input)
    requires Safe(s) && s.state.UploadBlSubblock? && Respects(s, i)
    ensures Safe(SubblockUpload(s, i).s)
  {
    hide Confirmed, SendBlockSegment, Blit, Specifier, Subcommand;
    if !s.rxNew {
      SendBlockSegmentSafe(s);
    } else if s.rx[1] <= s.sequence && !(s.end && s.rx[1] == s.blksize) {
      ConfirmedSafe(Shift(s, s.rx[1]), i);
    }
  }

  lemma StartBlockUploadSafe(s: Server)
    requires Safe(s) && s.state.UploadBlInitiate2?
    ensures Safe(StartBlockUpload(s).s)
  {
    hide SendBlockSegment;
    SendBlockSegmentSafe(s.(at := 0, sequence := 0, end := false, rxNew := false, state := UploadBlSubblock));
  }

  lemma ActSafe(s: Server, i: Input)
    requires Safe(s) && !s.state.Idle? && !s.state.DownloadBlSubblock? && Respects(s, i)
    ensures Safe(Act(s, i, s.state).s)
  {
    hide InitiateDownload, SegmentDownload, InitiateBlockDownload, SubblockResponse, EndBlockDownload, InitiateUpload,
      SegmentUpload, InitiateBlockUpload, StartBlockUpload, SubblockUpload;
    match s.state
    case DownloadSegmented => SegmentDownloadSafe(s, i);
    case DownloadBlSubResp => SubblockResponseSafe(s, i, s.rx[0] >= 0x80);
    case DownloadBlEnd => EndBlockDownloadSafe(s, i);
    case UploadSegmented => SegmentUploadSafe(s, i);
    case UploadBlInitiate2 => StartBlockUploadSafe(s);
    case UploadBlSubblock => SubblockUploadSafe(s, i);
    case UploadBlEnd =>
  }

  /** The first step of a request found in an idle server. */
  lemma FirstSafe(s: Server, i: Input, todo: State)
    requires |s.buf| == s.node.size && s.arg.length <= s.node.size
    requires todo.DownloadInitiate? || todo.DownloadBlInitiate? || todo.UploadInitiate?
             || (todo.UploadBlInitiate? && 0 < s.arg.length)
    ensures Safe(Act(s, i, todo).s)
  {
    hide InitiateDownload, InitiateBlockDownload, InitiateUpload, InitiateBlockUpload;
    match todo
    case DownloadInitiate => InitiateDownloadSafe(s, i);
    case DownloadBlInitiate => InitiateBlockDownloadSafe(s);
    case UploadInitiate => InitiateUploadSafe(s);
    case UploadBlInitiate => InitiateBlockUploadSafe(s);
  }

  lemma TimedSafe(s: Server, i: Input, todo: State)
    requires Safe(s) && Respects(s, i)
    requires todo.Idle? || (todo == s.state && !todo.DownloadBlSubblock?)
    ensures Safe(Timed(s, i, todo).s)
  {
    hide Act, SubblockResponse;
    var s1 := if s.timer < i.timeout then s.(timer := Add16(s.timer, i.dt)) else s;
    if s1.timer >= i.timeout {
      if s.state.DownloadBlSubblock? && s.sequence != 0 && !i.txFull {
        SubblockResponseSafe(s1, i, false);
      }
    } else if !todo.Idle? {
      ActSafe(s1, i);
    }
  }

  lemma StartSafe(s: Server, i: Input)
    requires Safe(s) && s.state.Idle?
    ensures Safe(Start(s, i).s)
  {
    hide InitTransfer, ReadOd, Timed, Specifier, FrameIndex;
    var ccs := Specifier(s.rx[0]);
    var a := InitTransfer(s, FrameIndex(s.rx), s.rx[3]);
    if a.abort == 0 {
      if ccs == 1 || ccs == 6 {
        FirstTimedSafe(a.s, i, if ccs == 1 then DownloadInitiate else DownloadBlInitiate);
      } else {
        var b := ReadOd(a.s, 0, i.read);
        if b.abort == 0 {
          FirstTimedSafe(b.s, i, if ccs == 5 && b.s.arg.length > s.rx[5] then UploadBlInitiate else UploadInitiate);
        }
      }
    }
  }

  lemma FirstTimedSafe(s: Server, i: Input, todo: State)
    requires |s.buf| == s.node.size && s.arg.length <= s.node.size && s.state.Idle?
    requires todo.DownloadInitiate? || todo.DownloadBlInitiate? || todo.UploadInitiate?
             || (todo.UploadBlInitiate? && 0 < s.arg.length)
    ensures Safe(Timed(s, i, todo).s)
  {
    hide Act, SubblockResponse;
    var s1 := if s.timer < i.timeout then s.(timer := Add16(s.timer, i.dt)) else s;
    if s1.timer < i.timeout {
      FirstSafe(s1, i, todo);
    }
  }

  lemma ProcessSafe(s: Server, i: Input)
    requires Safe(s) && Respects(s, i)
    ensures Safe(Process(s, i).s)
  {
    hide Timed, Start;
    if s.state.Idle? && !s.rxNew {
    } else if !i.operational {
    } else if !i.txFull && (s.rxNew || s.state.UploadBlSubblock?) {
      var s1 := s.(tx := ZERO_FRAME, timer := if s.state.UploadBlSubblock? then s.timer else 0);
      if s.rxNew && s.rx[0] == ABORT {
      } else if !s.state.Idle? {
        TimedSafe(s1, i, s.state);
      } else {
        StartSafe(s1, i);
      }
    } else {
      TimedSafe(s, i, Idle);
    }
  }

  // ----------------------------------------------------------------- whole runs

  datatype Event = Arrives(f: Frame) | Processed(i: Input)

  function Step(s: Server, e: Event): (r: Server) {
    match e
    case Arrives(f) => Receive(s, f)
    case Processed(i) => Process(s, i).s
  }

  /** Along the run every OD function keeps to the room it is offered. */
  predicate Polite(s: Server, run: seq<Event>)
    decreases |run|
  {
    run == [] || ((run[0].Processed? ==> Respects(s, run[0].i)) && Polite(Step(s, run[0]), run[1..]))
  }

  function Run(s: Server, run: seq<Event>): (r: Server)
    decreases |run|
  {
    if run == [] then s else Run(Step(s, run[0]), run[1..])
  }

  /** From any safe state, after any frames and process calls, every offset and subtraction is in range. */
  lemma {:induction false} RunSafe(s: Server, run: seq<Event>)
    requires Safe(s) && Polite(s, run)
    ensures Safe(Run(s, run)) && InRange(Run(s, run))
    decreases |run|
  {
    hide Safe, InRange, Receive, Process, Respects;
    if run == [] {
      SafeInRange(s);
    } else {
      match run[0]
      case Arrives(f) => ReceiveSafe(s, f); RunSafe(Receive(s, f), run[1..]);
      case Processed(i) => ProcessSafe(s, i); RunSafe(Process(s, i).s, run[1..]);
    }
  }
}
