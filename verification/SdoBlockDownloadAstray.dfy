/**
  A server that has left a block download while frames of it are still under
  way. It reads them as requests, and a last segment with a number from 32 to 63
  as one of block upload. How many of its answers the client of the download may
  take for an acknowledgement or a confirmation is bounded by the number of such
  segments.
 */
module SdoBlockDownloadAstray {
  import opened Can
  import opened SdoTypes
  import opened S = SdoServer

  // ------------------------------------------------------------- how frames read

  /** To the server a command of block upload, to the client an answer of block download. */
  predicate Fifth(f: Frame) {
    Specifier(f[0]) == 5
  }

  /** To an idle server: the request of a block download. */
  predicate Sixth(f: Frame) {
    Specifier(f[0]) == 6 && !Bit0(f[0])
  }

  /** Nothing is sent that the client may take for such an answer. */
  predicate Mute(x: Result) {
    x.sent.Some? ==> !Fifth(x.sent.value)
  }

  // ---------------------------------------------------------------- the server

  /** Idle, or in a transfer other than a block download. */
  predicate Wandering(s: Server) {
    || s.state.Idle? || s.state.DownloadSegmented? || s.state.UploadSegmented? || s.state.UploadBlInitiate2?
    || s.state.UploadBlSubblock? || s.state.UploadBlEnd?
  }

  /** The numbers of the segments of an upload stay below 128. */
  predicate Stream(s: Server) {
    && (s.state.UploadBlInitiate2? ==> 1 <= s.blksize < 0x80)
    && (s.state.UploadBlSubblock? ==>
          if s.end then
            && s.arg.last && 0 < s.sequence == s.blksize < 0x80
            && 7 * (s.sequence as int - 1) <= s.arg.length <= 7 * (s.sequence as int)
          else
            && s.sequence <= s.blksize && (s.blksize < 0x80 || (s.arg.last && s.arg.length <= 7 * 0x7F))
            && (s.arg.last ==> s.at == 7 * (s.sequence as int) && (s.at < s.arg.length || s.sequence == 0)))
  }

  /** How far the server is from sending a last segment: two commands, one, or none. */
  function Level(s: Server): (n: nat) {
    if s.state.UploadBlInitiate2? then 1
    else if s.state.UploadBlSubblock? then if s.end then 1 else 2
    else 0
  }

  /** Last segments of an upload it may still send, with q commands of block upload to come. */
  function Supply(s: Server, q: nat): (n: nat) {
    if Level(s) == 0 then if q == 0 then 0 else q - 1
    else q + Level(s) - 1
  }

  /** After a call with q such commands before it, r of them used up. */
  predicate Onward(s: Server, x: Result, q: nat, r: nat) {
    && Wandering(x.s) && Stream(x.s) && x.s.rx == s.rx && (x.s.rxNew ==> s.rxNew) && r <= q
    && Supply(x.s, q - r) + (if Mute(x) then 0 else 1) <= Supply(s, q)
    && (Level(s) == 0 && q == 0 ==> Level(x.s) == 0)
  }

  /** The frame f is taken, and the server is at the lowest level. */
  predicate Lowest(f: Frame, x: Result) {
    Wandering(x.s) && Level(x.s) == 0 && Mute(x) && x.s.rx == f && !x.s.rxNew
  }

  /** The frame f is taken, and an upload is announced. */
  predicate Announces(f: Frame, x: Result) {
    x.s.state.UploadBlInitiate2? && Stream(x.s) && Mute(x) && x.s.rx == f && !x.s.rxNew
  }

  lemma Sinks(s: Server, x: Result, q: nat, r: nat)
    requires Lowest(s.rx, x) && r <= q
    ensures Onward(s, x, q, r)
  {
    hide Fifth;
  }

  lemma AbortSinks()
    ensures forall t: Server, code: uint32 :: Lowest(t.rx, Abort(t, code))
  {
    assert Specifier(ABORT) == 4;
  }

  // --------------------------------------------------------------- a new request

  lemma DownloadSinks(s: Server, i: Input)
    ensures Lowest(s.rx, InitiateDownload(s, i))
  {
    hide WriteOd, Blit, ExpeditedUnused, FrameValue, Abort, Bit0, Bit1;
    AbortSinks();
    assert Specifier(0x60) == 3;
  }

  lemma UploadSinks(s: Server)
    ensures Lowest(s.rx, InitiateUpload(s))
  {
    hide Blit, Le32, Bit0, Bit1;
    assert Specifier(0x40) == 2 && Specifier(0x41) == 2;
  }

  /** The announcement of a block upload. */
  lemma BlockUploadRises(s: Server)
    ensures var x := InitiateBlockUpload(s); Lowest(s.rx, x) || Announces(s.rx, x)
  {
    hide Blit, Le32, Checksum, Abort, Bit0, Bit1, Bit2, Subcommand;
    AbortSinks();
    assert Specifier(0xC4) == 6 && Specifier(0xC6) == 6;
  }

  lemma EndSinks(s: Server)
    requires !Sixth(s.rx)
    ensures Lowest(s.rx, InitiateBlockDownload(s))
  {
    hide Offer, OpenBlock, Abort;
    AbortSinks();
  }

  lemma UploadRises(s: Server, i: Input, block: bool)
    requires s.state.Idle?
    ensures var x := StartUpload(s, i, block); Lowest(s.rx, x) || (block && Announces(s.rx, x))
  {
    hide ReadOd, InitiateUpload, InitiateBlockUpload, Abort, Lowest, Announces, SubblockResponse;
    AbortSinks();
    var b := ReadOd(s, 0, i.read);
    var t := if b.s.timer < i.timeout then b.s.(timer := Add16(b.s.timer, i.dt)) else b.s;
    UploadSinks(t);
    BlockUploadRises(t);
  }

  /** Every frame but the request of a block download leads to the lowest level, or as one of block upload to its announcement. */
  lemma StartOnward(s: Server, i: Input)
    requires s.state.Idle? && s.rxNew && !Sixth(s.rx)
    ensures var x := Start(s, i); Lowest(s.rx, x) || (Fifth(s.rx) && Announces(s.rx, x))
  {
    hide InitTransfer, FrameIndex, Abort, Lowest, Announces, StartUpload, InitiateDownload, InitiateBlockDownload, Specifier,
      SubblockResponse, Bit0;
    AbortSinks();
    var a := InitTransfer(s, FrameIndex(s.rx), s.rx[3]);
    if a.abort == 0 {
      var t := if a.s.timer < i.timeout then a.s.(timer := Add16(a.s.timer, i.dt)) else a.s;
      DownloadSinks(t, i);
      if Specifier(s.rx[0]) == 6 {
        EndSinks(t);
      }
      UploadRises(a.s, i, Specifier(s.rx[0]) == 5);
    }
  }

  // ------------------------------------------------------------ in another transfer

  lemma AnswerSinks(s: Server)
    requires Wandering(s) && Level(s) == 0
    ensures Lowest(s.rx, AnswerSegment(s)) && Lowest(s.rx, SendSegment(s))
  {
    hide Blit, Minus16, Bit0, Bit1;
  }

  lemma TakeSinks(s: Server, n: nat, write: uint32)
    requires s.state.DownloadSegmented? && n <= 7
    ensures Lowest(s.rx, TakeSegment(s, n, write))
  {
    hide WriteOd, Blit, Abort, AnswerSegment, Bit0, Lowest;
    AbortSinks();
    var s1 := s.(buf := Blit(s.buf, s.at, s.rx[1..1 + n]), at := (s.at + n) % 0x1_0000);
    AnswerSinks(s1);
    AnswerSinks(WriteOd(s1.(arg := s1.arg.(last := true)), s1.at, write).s.(state := Idle));
  }

  lemma DownloadSegmentSinks(s: Server, i: Input)
    requires s.state.DownloadSegmented?
    ensures Lowest(s.rx, SegmentDownload(s, i))
  {
    hide WriteOd, Abort, Specifier, Toggle, SegmentUnused, TakeSegment, Lowest;
    AbortSinks();
    var n := 7 - SegmentUnused(s.rx[0]);
    TakeSinks(s, n, i.write1);
    var a := WriteOd(s.(arg := s.arg.(last := false)), s.at, i.write1);
    TakeSinks(a.s.(arg := a.s.arg.(length := s.node.size), at := 0), n, i.write2);
  }

  lemma UploadSegmentSinks(s: Server, i: Input)
    requires s.state.UploadSegmented?
    ensures Lowest(s.rx, SegmentUpload(s, i))
  {
    hide Abort, Specifier, Toggle, Minus16, SendSegment, Refill, Blit, Lowest;
    AbortSinks();
    AnswerSinks(s);
    if !s.arg.stored {
      var n := Minus16(s.arg.length, s.at);
      var a := Refill(s.(buf := Blit(s.buf, 0, Take(s.buf[Min(s.at, |s.buf|)..], n))), n, i.read);
      AnswerSinks(a.s.(at := 0));
    }
  }

  lemma EndUploadSinks(s: Server)
    ensures Lowest(s.rx, EndBlockUpload(s)) && Lowest(s.rx, EndUpload(s))
  {
    hide Abort, Bit0, Bit1;
    AbortSinks();
  }

  // ------------------------------------------------------------------ block upload

  /** The next segment of an upload: only a last one can have a number that the client takes for an answer. */
  lemma SegmentOnward(s: Server)
    requires s.state.UploadBlSubblock? && !s.end && Stream(s)
    ensures var x := SendBlockSegment(s);
            && x.s.state.UploadBlSubblock? && Stream(x.s) && x.s.rx == s.rx && x.s.rxNew == s.rxNew
            && (Mute(x) || x.s.end) && (s.sequence == 0 ==> Mute(x))
  {
    hide Blit, Bit0, Bit1;
  }

  lemma AllSent(s: Server)
    requires s.end
    ensures SendBlockSegment(s) == Result(s, None, 1)
  {
  }

  lemma StartUploadOnward(s: Server)
    requires s.state.UploadBlInitiate2? && Stream(s)
    ensures var x := StartBlockUpload(s);
            Lowest(s.rx, x)
            || (Fifth(s.rx) && x.s.state.UploadBlSubblock? && Stream(x.s) && x.s.rx == s.rx && !x.s.rxNew && Mute(x))
  {
    hide SendBlockSegment, Abort, Lowest, Subcommand;
    AbortSinks();
    SegmentOnward(s.(at := 0, sequence := 0, end := false, rxNew := false, state := UploadBlSubblock));
  }

  /** A confirmation after the last segment. */
  lemma ConfirmOnward(s: Server, i: Input)
    requires s.state.UploadBlSubblock? && s.rxNew && s.end && Stream(s)
    ensures var x := SubblockUpload(s, i);
            Lowest(s.rx, x)
            || (Fifth(s.rx) && x.s.state.UploadBlSubblock? && Stream(x.s) && x.s.rx == s.rx && !x.s.rxNew && Mute(x))
  {
    hide SendBlockSegment, Abort, Lowest, Subcommand, Shift, EndUpload, Refill;
    AbortSinks();
    EndUploadSinks(s);
    if s.rx[1] < s.sequence {
      ShiftShort(s, s.rx[1]);
      var t := Shift(s, s.rx[1]).(blksize := s.rx[2]);
      SegmentOnward(t.(at := 0, sequence := 0, end := false, rxNew := false));
    }
  }

  lemma ShiftShort(s: Server, k: byte)
    requires 7 * (k as int) <= s.arg.length
    ensures var r := Shift(s, k); r == s.(buf := r.buf, arg := s.arg.(length := s.arg.length - 7 * (k as int)))
  {
    hide Blit;
  }

  // ---------------------------------------------------------------- a call of it

  /** Commands of block upload that a call has used up. */
  function Used(s: Server, x: Result): (r: nat) {
    if s.rxNew && !x.s.rxNew && Fifth(s.rx) then 1 else 0
  }

  lemma UploadStarted(s: Server, t: Server, x: Result, q: nat)
    requires s.rxNew && Fifth(s.rx) && 1 <= q && 1 <= Level(s) && Level(s) + q <= 2 && t.rx == s.rx
    requires x.s.state.UploadBlSubblock? && Stream(x.s) && x.s.rx == t.rx && !x.s.rxNew && Mute(x)
    ensures Onward(s, x, q, Used(s, x))
  {
    hide Fifth;
  }

  lemma ActOnward(s: Server, t: Server, i: Input, q: nat)
    requires Wandering(s) && !s.state.Idle? && Stream(s) && Supply(s, q) <= 1 && (s.rxNew && Fifth(s.rx) ==> 1 <= q)
    requires t == s.(tx := t.tx, timer := t.timer) && (s.rxNew || s.state.UploadBlSubblock?)
    ensures var x := Act(t, i, t.state); Onward(s, x, q, Used(s, x))
  {
    hide SegmentDownload, SegmentUpload, StartBlockUpload, SubblockUpload, EndBlockUpload, Fifth;
    var x := Act(t, i, t.state);
    match s.state {
      case DownloadSegmented => DownloadSegmentSinks(t, i); Sinks(s, x, q, Used(s, x));
      case UploadSegmented => UploadSegmentSinks(t, i); Sinks(s, x, q, Used(s, x));
      case UploadBlEnd => EndUploadSinks(t); Sinks(s, x, q, Used(s, x));
      case UploadBlInitiate2 =>
        StartUploadOnward(t);
        if Lowest(t.rx, x) { Sinks(s, x, q, Used(s, x)); } else { UploadStarted(s, t, x, q); }
      case _ => SubblockOnward(s, t, i, q);
    }
  }

  lemma SubblockOnward(s: Server, t: Server, i: Input, q: nat)
    requires s.state.UploadBlSubblock? && Stream(s) && Supply(s, q) <= 1 && (s.rxNew && Fifth(s.rx) ==> 1 <= q)
    requires t == s.(tx := t.tx, timer := t.timer)
    ensures var x := SubblockUpload(t, i); Onward(s, x, q, Used(s, x))
  {
    hide SendBlockSegment, Abort, Confirmed, Shift, EndUpload, Subcommand;
    AbortSinks();
    var x := SubblockUpload(t, i);
    if !s.rxNew {
      if s.end {
        AllSent(t);
      } else {
        SegmentOnward(t);
      }
    } else if s.end {
      ConfirmOnward(t, i);
      if Lowest(t.rx, x) { Sinks(s, x, q, Used(s, x)); } else { UploadStarted(s, t, x, q); }
    } else {
      Sinks(s, x, q, Used(s, x));
    }
  }

  /** A call of a wandering server sends no more such answers than its supply of commands allows. */
  lemma AstrayCall(s: Server, i: Input, q: nat)
    requires Wandering(s) && Stream(s) && (s.rxNew ==> !Sixth(s.rx)) && Supply(s, q) <= 1 && (s.rxNew && Fifth(s.rx) ==> 1 <= q)
    ensures var x := Process(s, i); Onward(s, x, q, Used(s, x))
  {
    hide Start, Act, SubblockResponse, Abort, Fifth, Sixth;
    AbortSinks();
    var x := Process(s, i);
    if s.state.Idle? && !s.rxNew {
    } else if !i.operational {
      Sinks(s, x, q, Used(s, x));
    } else if !i.txFull && (s.rxNew || s.state.UploadBlSubblock?) {
      var s1 := s.(tx := ZERO_FRAME, timer := if s.state.UploadBlSubblock? then s.timer else 0);
      if s.rxNew && s.rx[0] == ABORT {
        Sinks(s, x, q, Used(s, x));
      } else if s.state.Idle? {
        StartOnward(s1, i);
        if Lowest(s.rx, x) { Sinks(s, x, q, Used(s, x)); }
      } else {
        var s2 := if s1.timer < i.timeout then s1.(timer := Add16(s1.timer, i.dt)) else s1;
        if s2.timer >= i.timeout {
          Sinks(s, x, q, Used(s, x));
        } else {
          ActOnward(s, s2, i, q);
        }
      }
    } else {
      var s2 := if s.timer < i.timeout then s.(timer := Add16(s.timer, i.dt)) else s;
      if s2.timer >= i.timeout {
        Sinks(s, x, q, Used(s, x));
      }
    }
  }
}
