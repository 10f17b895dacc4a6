/**
  Block upload in which nothing is lost: every event keeps the transfer on its
  way, and every event that is due brings it nearer to its end.
 */
module SdoBlockUploadRuns {
  import opened Can
  import opened SdoTypes
  import S = SdoServer
  import C = SdoClient
  import B = SdoBlockDownload
  import opened SdoBlockUpload
  import opened SdoBlockUploadStart
  import opened SdoBlockUploadLossless
  import opened SdoSegments

  // ----------------------------------------------------------------- server calls

  /** Time passes at the server. */
  lemma StillAt(l: Link, p: Phase, s: S.Server, w: seq<byte>, v: seq<byte>, room: nat, timeout: uint16)
    requires At(l, p, w, v, room, timeout) && s == l.s.(timer := s.timer, tx := s.tx) && s.timer < 0xFFFF
    ensures var r := l.(s := s); At(r, p, w, v, room, timeout) && Left(r, p, w) == Left(l, p, w) && Due(r, p) == Due(l, p)
  {
    hide Kin, Taking, Listening, Partial, Complete, Settled, Accepted, ReportedSize, IsEnd, IsAccept, FrameIndex, Segs,
      Serving, SendingBlock, Roomy, Cut, SegmentsFor, B.Agrees;
    if !p.Over? && !p.Ending? && !p.Settling? {
      SameServing(l.s, s, w);
      if l.s.state.UploadBlSubblock? {
        SameBlockState(l.s, s, w);
      }
    }
  }

  /** A segment is sent: the client waits for it, perhaps behind others. */
  lemma SegmentUnderWay(l: Link, x: S.Result, w: seq<byte>, v: seq<byte>, room: nat, timeout: uint16, k: byte)
    requires 0 < |v| <= room && 7 <= room && |l.c.buf| == room && Ticks(l.c, timeout) && Listening(l.c, v) && 0 <= Base(l.c)
    requires Kin(w, v, l.c.block.received) && l.c.block.seqno <= k < 0x7F && l.toC == Segs(w, Base(l.c), l.c.block.seqno, k)
    requires HasSent(x, w, Base(l.c), k + 1, l.c.block.size)
    ensures At(l.(s := x.s, toC := B.Queue(l.toC, x.sent)), InBlock, w, v, room, timeout)
  {
    hide C.Segment, Serving, SendingBlock, Kin, Listening, B.Agrees;
    SegsAppend(w, Base(l.c), l.c.block.seqno, k);
  }

  lemma ServeStart(l: Link, p: Phase, i: S.Input, w: seq<byte>, v: seq<byte>, room: nat, timeout: uint16) returns (q: Phase)
    requires At(l, p, w, v, room, timeout) && (p.Announcing? || p.Starting? || p.Asked?) && Timely(l.s, i)
    ensures var r := Step(l, ServerCall(i), timeout); At(r, q, w, v, room, timeout) && Nearer(l, p, r, q, ServerCall(i), w)
  {
    hide S.Process, Kin, Serving, SendingBlock, B.Agrees, C.Segment, At, Cut, IsAccept, FrameIndex, HasSent;
    var x := S.Process(l.s, i);
    StartFacts(l, p, w, v, room, timeout);
    if p.Asked? && !i.txFull {
      q := InBlock;
      StartSends(l.s, i, w);
      assert Segs(w, 0, 0, 0) == [];
      SegmentUnderWay(l, x, w, v, room, timeout, 0);
      HasSentMeans(x, w, 0, 1, C.BLOCK_SIZE_MAX);
      FirstLeft(w);
    } else {
      q := p;
      WaitsInTime(l.s, i);
      StillAt(l, p, x.s, w, v, room, timeout);
      assert B.Queue(l.toC, x.sent) == l.toC;
    }
  }

  lemma StartFacts(l: Link, p: Phase, w: seq<byte>, v: seq<byte>, room: nat, timeout: uint16)
    requires At(l, p, w, v, room, timeout) && (p.Announcing? || p.Starting? || p.Asked?)
    ensures 0 < |v| == |w| <= room && 7 <= room && |l.c.buf| == room && Ticks(l.c, timeout) && l.s.timer < 0xFFFF
    ensures AtStart(l, p, w, v) && (p.Asked? ==> Base(l.c) == 0)
  {
    hide Kin, Serving, B.Agrees, IsAccept, FrameIndex;
    KinSize(w, v, 0);
  }

  lemma KinSize(w: seq<byte>, v: seq<byte>, base: int)
    requires Kin(w, v, base)
    ensures |w| == |v| && Checksum(w) == Checksum(v)
  {
  }

  lemma HasSentMeans(x: S.Result, w: seq<byte>, base: nat, k: byte, size: int)
    requires 0 < k < 0x80 && HasSent(x, w, base, k, size)
    ensures ServerBase(x.s, w) == base && x.s.sequence == k && x.sent == Some(C.Segment(w, base, k)) && !x.s.rxNew
  {
  }

  lemma FirstLeft(w: seq<byte>)
    requires 0 < |w|
    ensures Cut(|w|, 7) + Cut(|w|, 0) < 2 * SegmentsFor(|w|)
  {
  }

  lemma BlockFacts(l: Link, p: Phase, w: seq<byte>, v: seq<byte>, room: nat, timeout: uint16)
    requires At(l, p, w, v, room, timeout)
    requires p.InBlock? || p.Full? || p.Confirmed? || p.LastIn? || p.LastConfirmed?
    ensures 0 < |v| == |w| <= room && 7 <= room && |l.c.buf| == room && Ticks(l.c, timeout) && l.s.timer < 0xFFFF
    ensures AtBlock(l, p, w, v)
    ensures p.InBlock? || p.Full? ==> 0 <= Base(l.c) && l.c.block.received < |v|
  {
    hide Serving, SendingBlock, B.Agrees, Segs, Kin;
    if p.InBlock? || p.Full? || p.Confirmed? {
      KinSize(w, v, l.c.block.received);
    } else {
      KinSize(w, v, |w|);
    }
  }

  lemma ServeBlock(l: Link, p: Phase, i: S.Input, w: seq<byte>, v: seq<byte>, room: nat, timeout: uint16) returns (q: Phase)
    requires At(l, p, w, v, room, timeout) && (p.InBlock? || p.Confirmed?) && Timely(l.s, i)
    ensures var r := Step(l, ServerCall(i), timeout); At(r, q, w, v, room, timeout) && Nearer(l, p, r, q, ServerCall(i), w)
  {
    hide S.Process, Kin, Serving, SendingBlock, B.Agrees, C.Segment, At, Cut, Segs, HasSent;
    BlockFacts(l, p, w, v, room, timeout);
    var x := S.Process(l.s, i);
    var sent := ServerBase(l.s, w) + 7 * (l.s.sequence as int);
    if i.txFull || (p.InBlock? && (l.s.sequence == l.s.blksize || l.s.end)) {
      q := p;
      if i.txFull { WaitsInTime(l.s, i); } else { SentAll(l.s, i); StuckHears(l, w, v); }
      StillAt(l, p, x.s, w, v, room, timeout);
      assert B.Queue(l.toC, x.sent) == l.toC;
    } else {
      q := InBlock;
      if p.InBlock? {
        NotSentAll(l, w, v);
        BlockSends(l.s, i, w, Base(l.c), l.s.sequence, l.c.block.size);
        SegmentUnderWay(l, x, w, v, room, timeout, l.s.sequence);
        HasSentMeans(x, w, Base(l.c), l.s.sequence + 1, l.c.block.size);
      } else {
        ConfirmedBase(l, w, v);
        ConfirmSends(l.s, i, w);
        assert Segs(w, Base(l.c), 0, 0) == [] by {
          SegsEmpty(w, Base(l.c), 0, 0);
        }
        SegmentUnderWay(l, x, w, v, room, timeout, 0);
        HasSentMeans(x, w, Base(l.c), 1, l.c.block.size);
      }
      CutNext(|w|, sent);
    }
  }

  /** With all segments sent and none under way the client could not wait for one. */
  lemma StuckHears(l: Link, w: seq<byte>, v: seq<byte>)
    requires AtBlock(l, InBlock, w, v) && (l.s.sequence == l.s.blksize || l.s.end) && 0 <= Base(l.c) && |v| == |w|
    ensures l.toC != []
  {
    hide Serving, Kin, B.Agrees, C.Segment;
    SegsEmpty(w, Base(l.c), l.c.block.seqno, l.s.sequence);
  }

  lemma NotSentAll(l: Link, w: seq<byte>, v: seq<byte>)
    requires AtBlock(l, InBlock, w, v) && l.s.sequence != l.s.blksize && !l.s.end
    ensures ToSend(l.s, w, Base(l.c), l.s.sequence, l.c.block.size) && ServerBase(l.s, w) + 7 * (l.s.sequence as int) < |w|
  {
    hide Serving, Kin, B.Agrees, Segs;
    SdoBlockUpload.BlockFacts(l.s, w);
  }

  lemma ConfirmedBase(l: Link, w: seq<byte>, v: seq<byte>)
    requires AtBlock(l, Confirmed, w, v)
    ensures Base(l.c) == l.c.block.received >= 0 && 0 < l.c.block.size < 0x80 && l.c.block.received < |v|
  {
    hide Serving, SendingBlock, Kin, B.Agrees, Segs;
  }

  lemma ServeRest(l: Link, p: Phase, i: S.Input, w: seq<byte>, v: seq<byte>, room: nat, timeout: uint16) returns (q: Phase)
    requires At(l, p, w, v, room, timeout) && (p.Full? || p.LastIn? || p.LastConfirmed?) && Timely(l.s, i)
    ensures var r := Step(l, ServerCall(i), timeout); At(r, q, w, v, room, timeout) && Nearer(l, p, r, q, ServerCall(i), w)
  {
    hide S.Process, Kin, Serving, SendingBlock, B.Agrees, C.Segment, At, Cut, Segs, EndSent;
    BlockFacts(l, p, w, v, room, timeout);
    var x := S.Process(l.s, i);
    if p.LastConfirmed? && !i.txFull {
      q := Ending;
      EndAnswered(l.s, i, w);
      EndUnderWay(l, x, w, v, room, timeout);
    } else {
      q := p;
      if i.txFull { WaitsInTime(l.s, i); } else { SentAll(l.s, i); }
      StillAt(l, p, x.s, w, v, room, timeout);
      assert B.Queue(l.toC, x.sent) == l.toC;
    }
  }

  lemma EndUnderWay(l: Link, x: S.Result, w: seq<byte>, v: seq<byte>, room: nat, timeout: uint16)
    requires At(l, LastConfirmed, w, v, room, timeout) && EndSent(x, w) && x.s.timer < 0xFFFF
    ensures At(l.(s := x.s, toC := B.Queue(l.toC, x.sent)), Ending, w, v, room, timeout)
  {
    hide Kin, Serving, SendingBlock, B.Agrees, IsEnd;
    var r := l.(s := x.s, toC := B.Queue(l.toC, x.sent));
    assert Pending(r.c, r.toC) == [x.sent.value];
  }

  lemma ServeEnd(l: Link, p: Phase, i: S.Input, w: seq<byte>, v: seq<byte>, room: nat, timeout: uint16)
    requires At(l, p, w, v, room, timeout) && (p.Ending? || p.Settling?) && Timely(l.s, i)
    ensures var r := Step(l, ServerCall(i), timeout); At(r, p, w, v, room, timeout) && Nearer(l, p, r, p, ServerCall(i), w)
  {
    hide S.Process, Kin, B.Agrees, Settled, IsEnd, Complete;
    var x := S.Process(l.s, i);
    WaitsInTime(l.s, i);
    StillAt(l, p, x.s, w, v, room, timeout);
    assert B.Queue(l.toC, x.sent) == l.toC;
  }

  lemma OverStays(l: Link, e: Event, w: seq<byte>, v: seq<byte>, room: nat, timeout: uint16)
    requires At(l, Over, w, v, room, timeout)
    ensures At(Step(l, e, timeout), Over, w, v, room, timeout)
  {
    hide S.Process, Accepted, ReportedSize;
  }

  lemma ServeStep(l: Link, p: Phase, i: S.Input, w: seq<byte>, v: seq<byte>, room: nat, timeout: uint16) returns (q: Phase)
    requires At(l, p, w, v, room, timeout) && (!p.Over? ==> Timely(l.s, i))
    ensures var r := Step(l, ServerCall(i), timeout); At(r, q, w, v, room, timeout) && Nearer(l, p, r, q, ServerCall(i), w)
  {
    hide At, Nearer, Step;
    match p
    case Announcing => q := ServeStart(l, p, i, w, v, room, timeout);
    case Starting => q := ServeStart(l, p, i, w, v, room, timeout);
    case Asked => q := ServeStart(l, p, i, w, v, room, timeout);
    case InBlock => q := ServeBlock(l, p, i, w, v, room, timeout);
    case Confirmed => q := ServeBlock(l, p, i, w, v, room, timeout);
    case Full => q := ServeRest(l, p, i, w, v, room, timeout);
    case LastIn => q := ServeRest(l, p, i, w, v, room, timeout);
    case LastConfirmed => q := ServeRest(l, p, i, w, v, room, timeout);
    case Ending => q := p; ServeEnd(l, p, i, w, v, room, timeout);
    case Settling => q := p; ServeEnd(l, p, i, w, v, room, timeout);
    case Over => q := p; OverStays(l, ServerCall(i), w, v, room, timeout); NobodyMoves(l, Step(l, ServerCall(i), timeout), ServerCall(i), w);
  }

  lemma NobodyMoves(l: Link, r: Link, e: Event, w: seq<byte>)
    ensures Nearer(l, Over, r, Over, e, w)
  {
  }

  // -------------------------------------------------------------- the client hears

  lemma HearFrame(l: Link, p: Phase, w: seq<byte>, v: seq<byte>, room: nat, timeout: uint16)
    requires At(l, p, w, v, room, timeout) && (p.Announcing? || p.Ending?)
    ensures var r := Step(l, ToClient, timeout); At(r, p, w, v, room, timeout) && Nearer(l, p, r, p, ToClient, w)
  {
    hide Kin, Serving, B.Agrees, IsAccept, IsEnd, Complete, FrameIndex, S.Process, C.Upload, Cut, SegmentsFor, C.ReceiveSegment;
    if l.toC != [] {
      assert !l.c.rxNew && l.toC == [Pending(l.c, l.toC)[0]];
      var r := Step(l, ToClient, timeout);
      assert Pending(r.c, r.toC) == Pending(l.c, l.toC);
      MovedClient(l.c, r.c, v);
    }
  }

  lemma SegmentHeard(l: Link, w: seq<byte>, v: seq<byte>, room: nat, timeout: uint16) returns (q: Phase)
    requires At(l, InBlock, w, v, room, timeout) && l.toC != []
    ensures var r := Step(l, ToClient, timeout); At(r, q, w, v, room, timeout) && Left(r, q, w) < Left(l, InBlock, w)
  {
    hide Kin, Serving, SendingBlock, B.Agrees, S.Process, C.Upload, C.Receive, C.Segment, Cut, SegmentsFor, Complete, At;
    BlockFacts(l, InBlock, w, v, room, timeout);
    var base, k := Base(l.c), l.c.block.seqno + 1;
    NextTaken(l.c, v);
    SegsEmpty(w, base, l.c.block.seqno, l.s.sequence);
    var f := C.Segment(v, base, k);
    SameSegment(w, v, base, k);
    assert l.toC[0] == f && l.toC[1..] == Segs(w, base, k, l.s.sequence);
    var r := Step(l, ToClient, timeout);
    assert r.c == C.Receive(l.c, f) && r.s == l.s && r.toC == Segs(w, base, k, l.s.sequence);
    if f[0] >= 0x80 {
      q := LastIn;
      LastIsSent(l.s, w, base, k);
      SegsEmpty(w, base, k, l.s.sequence);
      KinLater(w, v, l.c.block.received, |w|);
      LastHeard(r, w, v, room, timeout);
      LastLeft(l, r, w);
    } else {
      KinLater(w, v, l.c.block.received, r.c.block.received);
      MoreLeft(l, r, w, v);
      if k < l.c.block.size {
        q := InBlock;
        StillInBlock(r, w, v, room, timeout);
      } else {
        q := Full;
        SegsEmpty(w, base, k, l.s.sequence);
        BlockFull(r, w, v, room, timeout);
      }
    }
  }

  lemma LastIsSent(s: S.Server, w: seq<byte>, base: int, k: int)
    requires InSubblock(s, w) && base == ServerBase(s, w) && base + 7 * k >= |w| && 0 < k <= s.sequence
    ensures s.end && k == s.sequence
  {
    hide Serving;
    LastSent(s, w, base, k) by {
      InSubblockServes(s, w);
    }
  }

  lemma InSubblockServes(s: S.Server, w: seq<byte>)
    requires InSubblock(s, w)
    ensures Serving(s, w)
  {
  }

  lemma LastHeard(r: Link, w: seq<byte>, v: seq<byte>, room: nat, timeout: uint16)
    requires 0 < |v| <= room && 7 <= room && |r.c.buf| == room && 2 <= timeout && r.c.timer == 0 && r.c.block.timer == 0
    requires r.s.timer < 0xFFFF && InSubblock(r.s, w) && !r.s.rxNew && r.s.end && r.s.sequence == r.c.block.seqno
    requires Complete(r.c, v) && Kin(w, v, |w|) && r.toC == []
    requires r.c.state.BlUploadSubEnd? && r.c.rxNew && r.c.rx[0] >= 0x80 && r.c.rx[0] != ABORT
    ensures At(r, LastIn, w, v, room, timeout)
  {
    hide Kin, Complete, InSubblock;
  }

  lemma StillInBlock(r: Link, w: seq<byte>, v: seq<byte>, room: nat, timeout: uint16)
    requires 0 < |v| <= room && 7 <= room && |r.c.buf| == room && 2 <= timeout && r.c.timer == 0 && r.c.block.timer == 0
    requires r.s.timer < 0xFFFF && InSubblock(r.s, w) && !r.s.rxNew && Partial(r.c, v) && r.c.state.BlUploadInProgress? && !r.c.rxNew
    requires r.c.block.seqno < r.c.block.size < 0x80 && Base(r.c) == ServerBase(r.s, w) && Base(r.c) >= 0 && Kin(w, v, r.c.block.received)
    requires r.c.block.seqno <= r.s.sequence <= r.c.block.size && r.toC == Segs(w, Base(r.c), r.c.block.seqno, r.s.sequence)
    requires (r.s.end <==> ServerBase(r.s, w) + 7 * (r.s.sequence as int) >= |w|) && (!r.s.end ==> r.s.blksize == r.c.block.size)
    ensures At(r, InBlock, w, v, room, timeout)
  {
    hide Kin, Partial, InSubblock, Segs;
  }

  lemma BlockFull(r: Link, w: seq<byte>, v: seq<byte>, room: nat, timeout: uint16)
    requires 0 < |v| <= room && 7 <= room && |r.c.buf| == room && 2 <= timeout && r.c.timer == 0 && r.c.block.timer == 0
    requires r.s.timer < 0xFFFF && InSubblock(r.s, w) && !r.s.rxNew && Partial(r.c, v) && r.c.state.BlUploadSubEnd? && r.c.rxNew
    requires r.c.rx[0] < 0x80 && Base(r.c) == ServerBase(r.s, w) && Kin(w, v, r.c.block.received) && r.toC == [] && !r.s.end
    requires r.s.sequence == r.c.block.seqno == r.s.blksize
    ensures At(r, Full, w, v, room, timeout)
  {
    hide Kin, Partial, InSubblock;
  }

  lemma LastLeft(l: Link, r: Link, w: seq<byte>)
    requires l.c.block.received < |w| && r.c.rxNew
    ensures Left(r, LastIn, w) < Left(l, InBlock, w)
  {
  }

  lemma MoreLeft(l: Link, r: Link, w: seq<byte>, v: seq<byte>)
    requires l.c.block.received < |w| && r.s == l.s && r.c.block.received == l.c.block.received + 7
    ensures Left(r, InBlock, w) < Left(l, InBlock, w) && Left(r, Full, w) < Left(l, InBlock, w)
  {
    hide Cut;
    CutNext(|w|, l.c.block.received);
  }

  lemma HearStep(l: Link, p: Phase, w: seq<byte>, v: seq<byte>, room: nat, timeout: uint16) returns (q: Phase)
    requires At(l, p, w, v, room, timeout)
    ensures var r := Step(l, ToClient, timeout); At(r, q, w, v, room, timeout) && Nearer(l, p, r, q, ToClient, w)
  {
    hide At, Left, S.Process, C.Upload, C.Receive;
    q := p;
    if p.Over? {
      OverStays(l, ToClient, w, v, room, timeout);
      NobodyMoves(l, Step(l, ToClient, timeout), ToClient, w);
    } else if p.Announcing? || p.Ending? {
      HearFrame(l, p, w, v, room, timeout);
    } else if p.InBlock? && l.toC != [] {
      q := SegmentHeard(l, w, v, room, timeout);
    } else {
      NothingToHear(l, p, w, v, room, timeout);
    }
  }

  lemma NothingToHear(l: Link, p: Phase, w: seq<byte>, v: seq<byte>, room: nat, timeout: uint16)
    requires At(l, p, w, v, room, timeout) && !p.Over? && !p.Announcing? && !p.Ending? && (p.InBlock? ==> l.toC == [])
    ensures l.toC == [] && !Due(l, p).Hear?
  {
    hide Kin, Serving, SendingBlock, B.Agrees, Settled, Segs, Listening, Partial, Complete;
  }

  // ------------------------------------------------------------------ client calls

  /** The confirmation reaches the server that waits for it. */
  lemma ConfirmDelivered(s: S.Server, k: byte, size: byte)
    requires s.state.UploadBlSubblock? && !s.rxNew
    ensures var r := Deliver(s, Some(C.Confirm(k, size)));
            r == s.(rx := r.rx, rxNew := true) && r.rx[0] == 0xA2 && r.rx[1] == k && r.rx[2] == size
  {
  }

  lemma SameSubblock(s: S.Server, r: S.Server, w: seq<byte>)
    requires InSubblock(s, w) && r == s.(rx := r.rx, rxNew := r.rxNew)
    ensures InSubblock(r, w) && ServerBase(r, w) == ServerBase(s, w)
  {
    hide Checksum;
  }

  /** A call that only lets time pass. */
  lemma TickedAt(l: Link, p: Phase, x: C.Result, w: seq<byte>, v: seq<byte>, room: nat, timeout: uint16)
    requires At(l, p, w, v, room, timeout) && !p.Over? && Ticks(x.c, timeout) && x.sent.None?
    requires x.c == l.c.(timer := x.c.timer, block := l.c.block.(timer := x.c.block.timer))
    ensures var r := l.(c := x.c, s := Deliver(l.s, x.sent), ret := x.ret, length := x.length);
            At(r, p, w, v, room, timeout) && Left(r, p, w) == Left(l, p, w) && Due(r, p) == Due(l, p)
  {
    hide Kin, Serving, SendingBlock, B.Agrees, IsEnd, IsAccept, FrameIndex, Segs, Cut, SegmentsFor, Accepted, ReportedSize;
    assert Pending(x.c, l.toC) == Pending(l.c, l.toC);
  }

  lemma AskStart(l: Link, p: Phase, dt: uint16, txFull: bool, w: seq<byte>, v: seq<byte>, room: nat, timeout: uint16)
    returns (q: Phase)
    requires At(l, p, w, v, room, timeout) && (p.Announcing? || p.Starting?) && Prompt(l.c, dt, timeout)
    ensures var r := Step(l, ClientCall(dt, txFull), timeout);
            At(r, q, w, v, room, timeout) && Nearer(l, p, r, q, ClientCall(dt, txFull), w)
  {
    hide Kin, Serving, B.Agrees, C.Upload, S.Process, At, C.Receive, Cut, SegmentsFor, Deliver, Listening, IsAccept, FrameIndex,
      Taking, Roomy;
    StartFacts(l, p, w, v, room, timeout);
    var x := C.Upload(l.c, dt, timeout, txFull);
    if p.Announcing? && !l.c.rxNew {
      q := p;
      CallWaits(l.c, dt, timeout, txFull);
      TickedAt(l, p, x, w, v, room, timeout);
    } else {
      var c := l.c;
      if p.Announcing? {
        assert l.toC == [] && Pending(l.c, l.toC)[0] == l.c.rx;
        CallAccepts(l.c, v, dt, timeout, txFull);
        c := l.c.(state := C.BlUploadInitiateAck, timer := 0, rxNew := false,
                  block := l.c.block.(crcOn := true, dataSize := |v|, received := 0));
      }
      CallStarts(c, v, dt, timeout, txFull);
      if txFull {
        q := Starting;
        StillStarting(l, c, x, w, v, room, timeout);
      } else {
        q := Asked;
        HasAsked(l, x, w, v, room, timeout);
      }
    }
  }

  lemma StillStarting(l: Link, c: C.Client, x: C.Result, w: seq<byte>, v: seq<byte>, room: nat, timeout: uint16)
    requires 0 < |v| <= room && 7 <= room && IsAnnounced(l.s, w) && !l.s.rxNew && l.s.timer < 0xFFFF && Kin(w, v, 0) && l.toC == []
    requires c.state.BlUploadInitiateAck? && !c.rxNew && Taking(c, v) && c.block.received == 0 && c.block.size == C.BLOCK_SIZE_MAX
    requires x.sent.None? && x.c == c.(timer := x.c.timer) && Ticks(x.c, timeout) && |c.buf| == room
    ensures At(l.(c := x.c, s := Deliver(l.s, x.sent), ret := x.ret, length := x.length), Starting, w, v, room, timeout)
  {
    hide Kin, Serving, B.Agrees;
  }

  lemma HasAsked(l: Link, x: C.Result, w: seq<byte>, v: seq<byte>, room: nat, timeout: uint16)
    requires 0 < |v| <= room && 7 <= room && IsAnnounced(l.s, w) && !l.s.rxNew && l.s.timer < 0xFFFF && Kin(w, v, 0) && l.toC == []
    requires x.sent == Some(ZERO_FRAME[0 := 0xA3]) && Listening(x.c, v) && x.c.block.seqno == 0 && x.c.block.received == 0
    requires x.c.block.size == C.BLOCK_SIZE_MAX && Ticks(x.c, timeout) && |x.c.buf| == room
    ensures At(l.(c := x.c, s := Deliver(l.s, x.sent), ret := x.ret, length := x.length), Asked, w, v, room, timeout)
  {
    hide Kin, Serving, B.Agrees, Listening;
    var f := ZERO_FRAME[0 := 0xA3];
    var s := l.s.(rx := f, rxNew := true);
    assert Deliver(l.s, Some(f)) == s;
    SameServing(l.s, s, w);
  }

  lemma AskFull(l: Link, dt: uint16, txFull: bool, w: seq<byte>, v: seq<byte>, room: nat, timeout: uint16) returns (q: Phase)
    requires At(l, Full, w, v, room, timeout) && Prompt(l.c, dt, timeout)
    ensures var r := Step(l, ClientCall(dt, txFull), timeout);
            At(r, q, w, v, room, timeout) && Nearer(l, Full, r, q, ClientCall(dt, txFull), w)
  {
    hide Kin, Serving, SendingBlock, B.Agrees, C.Upload, S.Process, At, C.Receive, Cut, Deliver, Listening, Partial, C.Confirm;
    BlockFacts(l, Full, w, v, room, timeout);
    var c := if l.c.rxNew then l.c.(state := C.BlUploadAck, timer := 0, rxNew := false) else l.c;
    MovedClient(l.c, c, v);
    if l.c.rxNew {
      CallEndsBlock(l.c, v, dt, timeout, txFull);
    }
    CallConfirms(c, v, dt, timeout, txFull);
    var x := C.Upload(l.c, dt, timeout, txFull);
    if txFull {
      q := Full;
      NothingSent(l.s);
      MovedClient(c, x.c, v);
      HeldFull(l, x.c, x, w, v, room, timeout);
    } else {
      q := Confirmed;
      ConfirmDelivered(l.s, c.block.seqno, x.c.block.size);
      var r := Step(l, ClientCall(dt, txFull), timeout);
      SameSubblock(l.s, r.s, w);
      BlockConfirmed(r, w, v, room, timeout);
    }
  }

  lemma HeldFull(l: Link, c: C.Client, x: C.Result, w: seq<byte>, v: seq<byte>, room: nat, timeout: uint16)
    requires At(l, Full, w, v, room, timeout) && c.state.BlUploadAck? && !c.rxNew && Partial(c, v) && Ticks(c, timeout)
    requires c.block == l.c.block && c.buf == l.c.buf
    ensures At(l.(c := c, ret := x.ret, length := x.length), Full, w, v, room, timeout)
  {
    hide Kin, Serving, SendingBlock, B.Agrees;
  }

  lemma BlockConfirmed(r: Link, w: seq<byte>, v: seq<byte>, room: nat, timeout: uint16)
    requires 0 < |v| <= room && 7 <= room && |r.c.buf| == room && Ticks(r.c, timeout) && r.s.timer < 0xFFFF
    requires InSubblock(r.s, w) && r.s.rxNew && r.s.rx[0] == 0xA2 && r.s.rx[1] == r.s.sequence && r.s.rx[2] == r.c.block.size
    requires !r.s.end && Listening(r.c, v) && r.c.block.seqno == 0 && Kin(w, v, r.c.block.received) && r.toC == []
    requires r.c.block.received == ServerBase(r.s, w) + 7 * (r.s.sequence as int)
    ensures At(r, Confirmed, w, v, room, timeout)
  {
    hide Kin, InSubblock, Listening;
  }

  lemma AskLast(l: Link, dt: uint16, txFull: bool, w: seq<byte>, v: seq<byte>, room: nat, timeout: uint16) returns (q: Phase)
    requires At(l, LastIn, w, v, room, timeout) && Prompt(l.c, dt, timeout)
    ensures var r := Step(l, ClientCall(dt, txFull), timeout);
            At(r, q, w, v, room, timeout) && Nearer(l, LastIn, r, q, ClientCall(dt, txFull), w)
  {
    hide Kin, Serving, SendingBlock, B.Agrees, C.Upload, S.Process, At, C.Receive, Cut, Deliver, Complete, C.Confirm;
    BlockFacts(l, LastIn, w, v, room, timeout);
    var c := if l.c.rxNew then l.c.(state := C.BlUploadAckLast, timer := 0, rxNew := false) else l.c;
    MovedClient(l.c, c, v);
    if l.c.rxNew {
      CallEndsLast(l.c, v, dt, timeout, txFull);
    }
    CallConfirmsLast(c, v, dt, timeout, txFull);
    var x := C.Upload(l.c, dt, timeout, txFull);
    if txFull {
      q := LastIn;
      NothingSent(l.s);
      MovedClient(c, x.c, v);
      HeldLast(l, x.c, x, w, v, room, timeout);
    } else {
      q := LastConfirmed;
      ConfirmDelivered(l.s, c.block.seqno, c.block.size);
      var r := Step(l, ClientCall(dt, txFull), timeout);
      SameSubblock(l.s, r.s, w);
      LastIsConfirmed(r, w, v, room, timeout);
    }
  }

  lemma HeldLast(l: Link, c: C.Client, x: C.Result, w: seq<byte>, v: seq<byte>, room: nat, timeout: uint16)
    requires At(l, LastIn, w, v, room, timeout) && c.state.BlUploadAckLast? && !c.rxNew && Complete(c, v) && Ticks(c, timeout)
    requires c.block == l.c.block && c.buf == l.c.buf
    ensures At(l.(c := c, ret := x.ret, length := x.length), LastIn, w, v, room, timeout)
  {
    hide Kin, Serving, SendingBlock, B.Agrees;
  }

  lemma LastIsConfirmed(r: Link, w: seq<byte>, v: seq<byte>, room: nat, timeout: uint16)
    requires 0 < |v| <= room && 7 <= room && |r.c.buf| == room && Ticks(r.c, timeout) && r.s.timer < 0xFFFF
    requires InSubblock(r.s, w) && r.s.rxNew && r.s.rx[0] == 0xA2 && r.s.rx[1] == r.s.sequence && r.s.end && r.toC == []
    requires r.c.state.BlUploadCrc? && !r.c.rxNew && Complete(r.c, v) && Kin(w, v, |w|)
    ensures At(r, LastConfirmed, w, v, room, timeout)
  {
    hide Kin, InSubblock, Complete;
  }

  lemma AskEnd(l: Link, p: Phase, dt: uint16, txFull: bool, w: seq<byte>, v: seq<byte>, room: nat, timeout: uint16)
    returns (q: Phase)
    requires At(l, p, w, v, room, timeout) && (p.Ending? || p.Settling?) && Prompt(l.c, dt, timeout)
    ensures var r := Step(l, ClientCall(dt, txFull), timeout);
            At(r, q, w, v, room, timeout) && Nearer(l, p, r, q, ClientCall(dt, txFull), w)
  {
    hide Kin, B.Agrees, C.Upload, S.Process, At, C.Receive, Deliver, IsEnd, Complete, C.UploadTimed, Settled, Outcome, C.CrcRx;
    EndFacts(l, p, w, v, room, timeout);
    var x := C.Upload(l.c, dt, timeout, txFull);
    if p.Ending? && !l.c.rxNew {
      q := p;
      CallWaits(l.c, dt, timeout, txFull);
      TickedAt(l, p, x, w, v, room, timeout);
    } else {
      var c, abort := l.c, 0;
      if p.Ending? {
        assert l.toC == [] && Pending(l.c, l.toC)[0] == l.c.rx;
        CallTakesEnd(l.c, w, v, dt, timeout, txFull);
        var y := C.CrcRx(l.c);
        c, abort := y.c.(timer := 0, rxNew := false), y.abort;
        SettledState(c, v, room);
      } else {
        SettledState(c, v, room);
        NothingReceived(l.c, dt, timeout, txFull);
      }
      CallSettles(c, v, room, dt, timeout, txFull, abort);
      if txFull {
        q := Settling;
        NothingSent(l.s);
        HeldEnd(l, p, c, x, w, v, room, timeout);
      } else {
        q := Over;
        OutcomeReached(Step(l, ClientCall(dt, txFull), timeout), w, v, room, timeout);
      }
    }
  }

  lemma EndFacts(l: Link, p: Phase, w: seq<byte>, v: seq<byte>, room: nat, timeout: uint16)
    requires At(l, p, w, v, room, timeout) && (p.Ending? || p.Settling?)
    ensures 0 < |v| <= room == |l.c.buf| && 7 <= room && Ticks(l.c, timeout) && l.s.timer < 0xFFFF && AtEnd(l, p, w, v)
    ensures !l.c.state.NotDefined?
  {
    hide Kin, B.Agrees, IsEnd, Complete, Accepted, ReportedSize;
  }

  lemma SettledState(c: C.Client, v: seq<byte>, room: nat)
    requires 0 < |v| <= room && 7 <= room && Settled(c, v, room)
    ensures !c.rxNew && (c.state.BlUploadEnd? || c.state.Aborting?) && |c.buf| == room
  {
    hide Accepted, ReportedSize;
  }

  lemma NothingReceived(c: C.Client, dt: uint16, timeout: uint16, txFull: bool)
    requires !c.rxNew
    ensures C.Upload(c, dt, timeout, txFull) == C.UploadTimed(c, dt, timeout, txFull, 0)
  {
    hide C.UploadTimed;
  }

  lemma HeldEnd(l: Link, p: Phase, c: C.Client, x: C.Result, w: seq<byte>, v: seq<byte>, room: nat, timeout: uint16)
    requires 0 < |v| <= room == |l.c.buf| && 7 <= room && l.s.timer < 0xFFFF && AtEnd(l, p, w, v) && l.toC == []
    requires Settled(c, v, room) && |c.buf| == room && x.c == c.(timer := x.c.timer) && Ticks(x.c, timeout)
    ensures At(l.(c := x.c, ret := x.ret, length := x.length), Settling, w, v, room, timeout)
  {
    hide Kin, Accepted, ReportedSize;
  }

  lemma OutcomeReached(r: Link, w: seq<byte>, v: seq<byte>, room: nat, timeout: uint16)
    requires 0 < |v| <= room && 7 <= room && |r.c.buf| == room && 2 <= timeout && r.c.state.NotDefined? && Outcome(r, v, room)
    ensures At(r, Over, w, v, room, timeout)
  {
  }

  lemma AskStep(l: Link, p: Phase, dt: uint16, txFull: bool, w: seq<byte>, v: seq<byte>, room: nat, timeout: uint16)
    returns (q: Phase)
    requires At(l, p, w, v, room, timeout) && (!p.Over? ==> Prompt(l.c, dt, timeout))
    ensures var r := Step(l, ClientCall(dt, txFull), timeout);
            At(r, q, w, v, room, timeout) && Nearer(l, p, r, q, ClientCall(dt, txFull), w)
  {
    hide At, Left, Step;
    var e := ClientCall(dt, txFull);
    match p
    case Announcing => q := AskStart(l, p, dt, txFull, w, v, room, timeout);
    case Starting => q := AskStart(l, p, dt, txFull, w, v, room, timeout);
    case Full => q := AskFull(l, dt, txFull, w, v, room, timeout);
    case LastIn => q := AskLast(l, dt, txFull, w, v, room, timeout);
    case Ending => q := AskEnd(l, p, dt, txFull, w, v, room, timeout);
    case Settling => q := AskEnd(l, p, dt, txFull, w, v, room, timeout);
    case Over => q := p; OverStays(l, e, w, v, room, timeout); NobodyMoves(l, Step(l, e, timeout), e, w);
    case InBlock => q := p; AskInBlock(l, dt, txFull, w, v, room, timeout);
    case Asked => q := p; ServerFirst(l, p, dt, txFull, w, v, room, timeout);
    case Confirmed => q := p; ServerFirst(l, p, dt, txFull, w, v, room, timeout);
    case LastConfirmed => q := p; ServerFirst(l, p, dt, txFull, w, v, room, timeout);
  }

  lemma AskInBlock(l: Link, dt: uint16, txFull: bool, w: seq<byte>, v: seq<byte>, room: nat, timeout: uint16)
    requires At(l, InBlock, w, v, room, timeout) && Prompt(l.c, dt, timeout)
    ensures var r := Step(l, ClientCall(dt, txFull), timeout);
            At(r, InBlock, w, v, room, timeout) && Nearer(l, InBlock, r, InBlock, ClientCall(dt, txFull), w)
  {
    hide At, C.Upload, S.Process, C.Receive, Cut, Segs, Partial, Kin, InSubblock, Deliver;
    BlockFacts(l, InBlock, w, v, room, timeout);
    CallWaits(l.c, dt, timeout, txFull);
    TickedAt(l, InBlock, C.Upload(l.c, dt, timeout, txFull), w, v, room, timeout);
  }

  /** The server has the client's last frame still to process. */
  lemma ServerFirst(l: Link, p: Phase, dt: uint16, txFull: bool, w: seq<byte>, v: seq<byte>, room: nat, timeout: uint16)
    requires At(l, p, w, v, room, timeout) && (p.Asked? || p.Confirmed? || p.LastConfirmed?)
    ensures Step(l, ClientCall(dt, txFull), timeout) == l && Nearer(l, p, l, p, ClientCall(dt, txFull), w)
  {
    hide C.Upload, S.Process, C.Receive, Cut, Kin, Serving, SendingBlock, Listening, Complete;
  }

  // ------------------------------------------------------------------- whole runs

  /** The event loses nothing, and comes before a timer runs out. */
  predicate InTime(l: Link, e: Event, timeout: uint16) {
    match e
    case LoseAnswer(_) => false
    case ToClient => true
    case ServerCall(i) => l.c.state.NotDefined? || Timely(l.s, i)
    case ClientCall(dt, _) => l.c.state.NotDefined? || Prompt(l.c, dt, timeout)
  }

  predicate AllInTime(l: Link, run: seq<Event>, timeout: uint16)
    decreases |run|
  {
    run == [] || (InTime(l, run[0], timeout) && AllInTime(Step(l, run[0], timeout), run[1..], timeout))
  }

  lemma OverIff(l: Link, p: Phase, w: seq<byte>, v: seq<byte>, room: nat, timeout: uint16)
    requires At(l, p, w, v, room, timeout)
    ensures p.Over? <==> l.c.state.NotDefined?
  {
    hide Kin, Serving, SendingBlock, B.Agrees, Accepted, ReportedSize, IsEnd, IsAccept, FrameIndex, Segs;
  }

  lemma StepAt(l: Link, p: Phase, e: Event, w: seq<byte>, v: seq<byte>, room: nat, timeout: uint16) returns (q: Phase)
    requires At(l, p, w, v, room, timeout) && InTime(l, e, timeout)
    ensures var r := Step(l, e, timeout); At(r, q, w, v, room, timeout) && Nearer(l, p, r, q, e, w)
  {
    hide At, Nearer, Step;
    OverIff(l, p, w, v, room, timeout);
    match e
    case ServerCall(i) => q := ServeStep(l, p, i, w, v, room, timeout);
    case ToClient => q := HearStep(l, p, w, v, room, timeout);
    case ClientCall(dt, txFull) => q := AskStep(l, p, dt, txFull, w, v, room, timeout);
  }

  /** In time, the transfer stays on its way, and nothing leads back. */
  lemma {:induction false} RunAt(l: Link, p: Phase, run: seq<Event>, w: seq<byte>, v: seq<byte>, room: nat, timeout: uint16)
    returns (q: Phase)
    requires At(l, p, w, v, room, timeout) && AllInTime(l, run, timeout)
    ensures var r := Run(l, run, timeout);
            && At(r, q, w, v, room, timeout)
            && (Left(r, q, w) < Left(l, p, w)
                || (Left(r, q, w) == Left(l, p, w) && Due(r, q) == Due(l, p) && forall e :: e in run ==> !Moves(e, Due(l, p))))
    decreases |run|
  {
    hide At, Left, Due, Step, InTime, Moves;
    q := p;
    if run != [] {
      var q1 := StepAt(l, p, run[0], w, v, room, timeout);
      q := RunAt(Step(l, run[0], timeout), q1, run[1..], w, v, room, timeout);
      assert forall e :: e in run ==> e == run[0] || e in run[1..];
    }
  }

  /** A stretch of a run in which everybody has a turn, in any order and among whatever else. */
  predicate Fair(run: seq<Event>) {
    && (exists e :: e in run && Moves(e, Serve))
    && (exists e :: e in run && Moves(e, Hear))
    && (exists e :: e in run && Moves(e, Ask))
  }

  function Flat(parts: seq<seq<Event>>): (run: seq<Event>) {
    if parts == [] then [] else parts[0] + Flat(parts[1..])
  }

  lemma {:induction false} RunConcat(l: Link, a: seq<Event>, b: seq<Event>, timeout: uint16)
    ensures Run(l, a + b, timeout) == Run(Run(l, a, timeout), b, timeout)
    ensures AllInTime(l, a + b, timeout) <==> AllInTime(l, a, timeout) && AllInTime(Run(l, a, timeout), b, timeout)
    decreases |a|
  {
    hide Step, InTime;
    if a == [] {
      assert a + b == b;
    } else {
      assert (a + b)[0] == a[0] && (a + b)[1..] == a[1..] + b;
      RunConcat(Step(l, a[0], timeout), a[1..], b, timeout);
    }
  }

  /** A fair stretch brings the transfer nearer to its end. */
  lemma FairNearer(l: Link, p: Phase, run: seq<Event>, w: seq<byte>, v: seq<byte>, room: nat, timeout: uint16) returns (q: Phase)
    requires At(l, p, w, v, room, timeout) && AllInTime(l, run, timeout) && Fair(run)
    ensures var r := Run(l, run, timeout);
            At(r, q, w, v, room, timeout) && (p.Over? ==> q.Over?) && (!p.Over? ==> Left(r, q, w) < Left(l, p, w))
  {
    hide At, Left, Run, AllInTime, Moves;
    q := RunAt(l, p, run, w, v, room, timeout);
    var r := Run(l, run, timeout);
    if p.Over? {
      OverLeft(l, p, w);
      OverLeft(r, q, w);
    }
  }

  lemma OverLeft(l: Link, p: Phase, w: seq<byte>)
    ensures Left(l, p, w) == 0 && Due(l, p).Nobody? ==> p.Over?
    ensures p.Over? ==> Left(l, p, w) == 0 && Due(l, p).Nobody?
  {
  }

  /** After as many fair stretches as there are steps left the transfer is over. */
  lemma {:induction false} FairEnds(l: Link, p: Phase, parts: seq<seq<Event>>, w: seq<byte>, v: seq<byte>, room: nat, timeout: uint16)
    requires At(l, p, w, v, room, timeout) && AllInTime(l, Flat(parts), timeout) && Left(l, p, w) <= |parts|
    requires forall i :: 0 <= i < |parts| ==> Fair(parts[i])
    ensures At(Run(l, Flat(parts), timeout), Over, w, v, room, timeout)
    decreases |parts|
  {
    hide At, Left, Run, AllInTime, Fair;
    if parts == [] {
      NoneLeft(l, p, w, v, room, timeout);
      NoRun(l, timeout);
    } else {
      RunConcat(l, parts[0], Flat(parts[1..]), timeout);
      var q := FairNearer(l, p, parts[0], w, v, room, timeout);
      var r := Run(l, parts[0], timeout);
      if p.Over? {
        OverLeft(r, q, w);
      }
      FairEnds(r, q, parts[1..], w, v, room, timeout);
    }
  }

  lemma NoRun(l: Link, timeout: uint16)
    ensures Run(l, [], timeout) == l
  {
    hide Step;
  }

  lemma NoneLeft(l: Link, p: Phase, w: seq<byte>, v: seq<byte>, room: nat, timeout: uint16)
    requires At(l, p, w, v, room, timeout)
    ensures Left(l, p, w) == 0 ==> p.Over?
  {
    hide Kin, Serving, SendingBlock, B.Agrees, Accepted, ReportedSize, IsEnd, IsAccept, FrameIndex, Segs;
    if p.InBlock? {
      BlockFacts(l, p, w, v, room, timeout);
      CutNext(|w|, l.c.block.received);
    }
  }

  // --------------------------------------------------------------- from the request on

  lemma StartsAt(s: S.Server, c: C.Client, index: uint16, sub: byte, room: seq<byte>, arg: S.Arg, i: S.Input, timeout: uint16)
    requires Ready(s, index, sub, arg, arg.length) && arg.length <= s.node.size && arg.length <= |room| && Answers(i) && 2 <= timeout
    requires 7 * C.BLOCK_SIZE_MAX <= |room| < 0x1_0000_0000
    ensures |Wire(s, arg)| == arg.length
    ensures At(Requested(s, c, index, sub, room, i), Announcing, Wire(s, arg), Wire(s, arg), |room|, timeout)
  {
    hide C.InitiateUpload, S.Process, S.Lookup, Wire, Serving, FrameIndex, IsAccept, Checksum;
    RequestFrame(c, index, sub, room);
    RequestNames(c, index, sub, room);
    var x := C.InitiateUpload(c, index, sub, room, true);
    var s1 := S.Receive(s, x.sent.value);
    RequestEffect(s1, i, index, sub, arg);
    WireSame(s, s1, arg);
    WireLength(s, index, sub, arg);
    var l := Requested(s, c, index, sub, room, i);
    assert Pending(l.c, l.toC) == [S.Process(s1, i).sent.value];
  }

  lemma RequestNames(c: C.Client, index: uint16, sub: byte, room: seq<byte>)
    requires 7 * C.BLOCK_SIZE_MAX <= |room|
    ensures var x := C.InitiateUpload(c, index, sub, room, true); x.c.index == index && x.c.sub == sub && x.c.timer == 0
  {
  }

  lemma NobodyAborts(l: Link, p: Phase, w: seq<byte>, v: seq<byte>, room: nat, timeout: uint16)
    requires At(l, p, w, v, room, timeout) && Accepted(v, room)
    ensures if l.c.state.NotDefined? then Outcome(l, v, room) else !l.c.state.Aborting? && !l.s.state.Idle?
  {
    hide Kin, Serving, SendingBlock, B.Agrees, Accepted, ReportedSize, IsEnd, IsAccept, FrameIndex, Segs;
  }

  /**
    A block upload in which nothing is lost and no timer runs out, in any order
    of calls. If the buffer holds the object, or what it holds has the right
    checksum, neither side ever aborts, and the only end is the success the
    client reports; otherwise the only end is an abort of the client.
   */
  lemma LosslessBlockUpload(s: S.Server, c: C.Client, index: uint16, sub: byte, room: seq<byte>, arg: S.Arg,
                            i: S.Input, run: seq<Event>, timeout: uint16)
    requires Ready(s, index, sub, arg, arg.length) && arg.length <= s.node.size && arg.length <= |room| && Answers(i) && 2 <= timeout
    requires 7 * C.BLOCK_SIZE_MAX <= |room| < 0x1_0000_0000 && AllInTime(Requested(s, c, index, sub, room, i), run, timeout)
    ensures |Wire(s, arg)| == arg.length
    ensures var m := Run(Requested(s, c, index, sub, room, i), run, timeout);
            && (m.c.state.NotDefined? ==> Outcome(m, Wire(s, arg), |room|))
            && (Accepted(Wire(s, arg), |room|) && !m.c.state.NotDefined? ==> !m.c.state.Aborting? && !m.s.state.Idle?)
  {
    hide Run, AllInTime, At, Requested, Wire, Ready, Outcome, Accepted;
    ReadyLong(s, index, sub, arg);
    StartsAt(s, c, index, sub, room, arg, i, timeout);
    var w := Wire(s, arg);
    var q := RunAt(Requested(s, c, index, sub, room, i), Announcing, run, w, w, |room|, timeout);
    var m := Run(Requested(s, c, index, sub, room, i), run, timeout);
    if Accepted(w, |room|) {
      NobodyAborts(m, q, w, w, |room|, timeout);
    }
    if m.c.state.NotDefined? {
      OverIff(m, q, w, w, |room|, timeout);
      OverOutcome(m, w, w, |room|, timeout);
    }
  }

  lemma ReadyLong(s: S.Server, index: uint16, sub: byte, arg: S.Arg)
    requires Ready(s, index, sub, arg, arg.length)
    ensures C.PST < arg.length
  {
  }

  lemma OverOutcome(l: Link, w: seq<byte>, v: seq<byte>, room: nat, timeout: uint16)
    requires At(l, Over, w, v, room, timeout)
    ensures 0 < |v| <= room && 7 <= room && |l.c.buf| == room && l.c.state.NotDefined? && Outcome(l, v, room)
  {
    hide Outcome;
  }

  /** And it does end: at the latest after 24 fair stretches for each segment and ten more. */
  lemma LosslessUploadEnds(s: S.Server, c: C.Client, index: uint16, sub: byte, room: seq<byte>, arg: S.Arg,
                           i: S.Input, parts: seq<seq<Event>>, timeout: uint16)
    requires Ready(s, index, sub, arg, arg.length) && arg.length <= s.node.size && arg.length <= |room| && Answers(i) && 2 <= timeout
    requires 7 * C.BLOCK_SIZE_MAX <= |room| < 0x1_0000_0000 && AllInTime(Requested(s, c, index, sub, room, i), Flat(parts), timeout)
    requires (forall k :: 0 <= k < |parts| ==> Fair(parts[k])) && 24 * SegmentsFor(arg.length) + 10 <= |parts|
    ensures Run(Requested(s, c, index, sub, room, i), Flat(parts), timeout).c.state.NotDefined?
  {
    hide Run, AllInTime, At, Requested, Wire, Ready, Fair, Flat;
    ReadyLong(s, index, sub, arg);
    StartsAt(s, c, index, sub, room, arg, i, timeout);
    var w := Wire(s, arg);
    FairEnds(Requested(s, c, index, sub, room, i), Announcing, parts, w, w, |room|, timeout);
    OverOutcome(Run(Requested(s, c, index, sub, room, i), Flat(parts), timeout), w, w, |room|, timeout);
  }

  // ------------------------------------------------------------------- such a run

  const PROMPT := S.Input(true, false, 0, 0xFFFF, S.ReadReply(0, [], true, 0), 0, 0)

  const TURN := [ServerCall(PROMPT), ToClient, ClientCall(0, false)]

  function Turns(n: nat): (parts: seq<seq<Event>>)
    ensures |parts| == n && forall k :: 0 <= k < n ==> parts[k] == TURN
  {
    if n == 0 then [] else [TURN] + Turns(n - 1)
  }

  /** Calls without delay are in time. */
  lemma PromptInTime(l: Link, p: Phase, e: Event, w: seq<byte>, v: seq<byte>, room: nat, timeout: uint16)
    requires At(l, p, w, v, room, timeout) && e in TURN
    ensures InTime(l, e, timeout)
  {
    hide AtStart, AtBlock, AtEnd, Outcome;
  }

  lemma {:induction false} TurnInTime(l: Link, p: Phase, run: seq<Event>, w: seq<byte>, v: seq<byte>, room: nat, timeout: uint16)
    requires At(l, p, w, v, room, timeout) && forall e :: e in run ==> e in TURN
    ensures AllInTime(l, run, timeout)
    decreases |run|
  {
    hide At, InTime, Step;
    if run != [] {
      PromptInTime(l, p, run[0], w, v, room, timeout);
      var q := StepAt(l, p, run[0], w, v, room, timeout);
      TurnInTime(Step(l, run[0], timeout), q, run[1..], w, v, room, timeout);
    }
  }

  lemma {:induction false} TurnsOnly(n: nat)
    ensures forall e :: e in Flat(Turns(n)) ==> e in TURN
  {
    if n > 0 {
      TurnsOnly(n - 1);
      assert Turns(n)[1..] == Turns(n - 1);
    }
  }

  /** From wherever a transfer stands there is a run to its end. */
  lemma Finish(l: Link, p: Phase, w: seq<byte>, v: seq<byte>, room: nat, timeout: uint16) returns (run: seq<Event>)
    requires At(l, p, w, v, room, timeout)
    ensures AllInTime(l, run, timeout) && At(Run(l, run, timeout), Over, w, v, room, timeout)
  {
    hide At, Left, Run, AllInTime, Flat, Turns;
    var n := Left(l, p, w);
    run := Flat(Turns(n));
    TurnsOnly(n);
    TurnInTime(l, p, run, w, v, room, timeout);
    TurnsFair(n);
    FairEnds(l, p, Turns(n), w, v, room, timeout);
  }

  lemma TurnsFair(n: nat)
    ensures |Turns(n)| == n && forall k :: 0 <= k < n ==> Fair(Turns(n)[k])
  {
    hide Turns;
    assert Fair(TURN) by {
      assert TURN[0] in TURN && TURN[1] in TURN && TURN[2] in TURN;
      assert Moves(TURN[0], Serve) && Moves(TURN[1], Hear) && Moves(TURN[2], Ask);
    }
  }

  /** In time no block timer runs out, so no confirmation overtakes anything. */
  lemma {:induction false} InTimeSmooth(l: Link, p: Phase, run: seq<Event>, w: seq<byte>, v: seq<byte>, room: nat, timeout: uint16)
    requires At(l, p, w, v, room, timeout) && AllInTime(l, run, timeout)
    ensures Smooth(l, run, timeout)
    decreases |run|
  {
    hide At, Step;
    if run != [] {
      NotOvertaking(l, p, run[0], w, v, room, timeout);
      var q := StepAt(l, p, run[0], w, v, room, timeout);
      InTimeSmooth(Step(l, run[0], timeout), q, run[1..], w, v, room, timeout);
    }
  }

  lemma NotOvertaking(l: Link, p: Phase, e: Event, w: seq<byte>, v: seq<byte>, room: nat, timeout: uint16)
    requires At(l, p, w, v, room, timeout) && InTime(l, e, timeout)
    ensures !Overtakes(l, e, timeout)
  {
    hide AtStart, AtBlock, AtEnd, Outcome, C.Upload, B.AllLater;
  }
}
