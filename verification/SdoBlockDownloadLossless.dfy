/**
  Block download over a bus that loses nothing, in any order of calls and with
  any number of segments under way, as long as no timer runs out: neither side
  gives up, and the transfer ends with the data written, or with an abort of the
  server if whole segments do not fit its buffer.
 */
module SdoBlockDownloadLossless {
  import opened Can
  import opened SdoTypes
  import Crc
  import S = SdoServer
  import C = SdoClient
  import opened SdoSegments
  import opened SdoCalls
  import opened SdoBlockDownload
  import opened SdoBlockDownloadStart

  // ------------------------------------------------------------------------- time

  predicate Prompt(c: C.Client, dt: uint16, timeout: uint16) {
    (if c.rxNew then 0 else c.timer) + dt < timeout
  }

  // ---------------------------------------------------------------- the two sides

  /** The server takes in segments. */
  predicate Listening(s: S.Server, d: seq<byte>, o: S.Server) {
    && Carrying(s, d, o) && s.state.DownloadBlSubblock? && !s.rxNew && Open(s, d) && s.crcOn && s.crc == 0 && s.at % 7 == 0
    && s.blksize < 0x80 && (s.sequence > 0 ==> s.sequence < s.blksize)
  }

  /** The client sends the segments of a block of that size, or has sent them. */
  predicate Sender(c: C.Client, d: seq<byte>, size: byte) {
    && Sending(c, d) && !c.rxNew && size < 0x80 && (c.block.seqno <= size || c.block.seqno == 1) && c.offset < |d| + 7
    && (if c.offset < |d| then c.block.size == size && (c.state.BlDownloadAck? <==> 0 < c.block.seqno && size <= c.block.seqno)
        else c.state.BlDownloadAck? && 0 < c.block.seqno == c.block.size && c.block.unused == c.offset - |d|)
  }

  /** The last segment is in. */
  predicate AllIn(s: S.Server, d: seq<byte>, o: S.Server) {
    Carrying(s, d, o) && s.crcOn && s.crc == 0 && s.at == Min(7 * SegmentsFor(|d|), s.node.size) && 7 <= s.at
  }

  /** The client has sent the last segment. */
  predicate AllOut(c: C.Client, d: seq<byte>) {
    c.buf == d && |d| <= c.offset == 7 * SegmentsFor(|d|) && c.block.unused == 7 * SegmentsFor(|d|) - |d|
  }

  /** Whole segments fit the server's buffer. */
  predicate Fits(d: seq<byte>, size: nat) {
    7 * SegmentsFor(|d|) <= size
  }

  /** How the dictionary ends. */
  predicate Final(s: S.Server, d: seq<byte>, o: S.Server) {
    s.state.Idle? && !s.rxNew && (if Fits(d, o.node.size) then Written(s.node, d, o) else s.node == o.node)
  }

  /** What the client reports in the end. */
  function Verdict(d: seq<byte>, size: nat): (ret: C.Return) {
    if Fits(d, size) then C.Ok else C.ServerAbort
  }

  // ------------------------------------------------------------------- the phases

  datatype Phase = Asked | Offered | Loading | Responding | Acking | LastAcking | Ending | EndSent | Decided | Over

  predicate AtRequest(l: Link, d: seq<byte>, o: S.Server) {
    && l.s.state.Idle? && l.s.node == o.node && |l.s.buf| == o.node.size && l.toC == []
    && l.c.buf == d && !l.c.rxNew && l.c.state.BlDownloadInitiate? && l.c.index == o.arg.index && l.c.sub == o.arg.sub
    && (if l.s.rxNew then IsRequest(l.s.rx, o.arg.index, o.arg.sub, |d|) && l.toS == []
        else |l.toS| == 1 && IsRequest(l.toS[0], o.arg.index, o.arg.sub, |d|))
  }

  /** One frame is on its way to the client. */
  predicate OneAnswer(l: Link) {
    l.toS == [] && |Pending(l)| == 1
  }

  predicate AtOffer(l: Link, d: seq<byte>, o: S.Server) {
    && Listening(l.s, d, o) && l.s.sequence == 0 && l.s.at == 0 && l.c.state.BlDownloadInitiate? && l.c.buf == d && OneAnswer(l)
    && l.s.blksize == S.Segments(o.node.size)
    && var f := Pending(l)[0]; f[0] == 0xA4 && f[4] == l.s.blksize && FrameIndex(f) == l.c.index && f[3] == l.c.sub
  }

  predicate AtBlock(l: Link, d: seq<byte>, o: S.Server) {
    && Listening(l.s, d, o) && Sender(l.c, d, l.s.blksize) && l.c.acked == Base(l.s) && l.toC == []
    && l.s.sequence <= l.c.block.seqno && l.toS == Segs(d, Base(l.s), l.s.sequence, l.c.block.seqno)
    && (l.c.state.BlDownloadAck? ==> l.s.sequence < l.c.block.seqno)
  }

  predicate AtResponse(l: Link, d: seq<byte>, o: S.Server) {
    && l.s.state.DownloadBlSubResp? && l.s.rxNew && l.s.rx[0] != ABORT && Carrying(l.s, d, o) && l.s.crcOn && l.s.crc == 0
    && l.toS == [] && l.toC == [] && Sending(l.c, d) && l.c.state.BlDownloadAck? && !l.c.rxNew
    && 0 < l.s.sequence == l.c.block.seqno
    && (if l.c.offset < |d| then l.s.rx[0] < 0x80 && Open(l.s, d) && l.s.at == l.c.offset && l.s.at % 7 == 0
        else l.s.rx[0] >= 0x80 && AllIn(l.s, d, o) && AllOut(l.c, d) && l.c.block.seqno == l.c.block.size)
  }

  predicate AtAck(l: Link, d: seq<byte>, o: S.Server) {
    && Listening(l.s, d, o) && l.s.sequence == 0 && Sending(l.c, d) && l.c.state.BlDownloadAck? && l.c.offset == l.s.at
    && 0 < l.c.block.seqno && OneAnswer(l)
    && var f := Pending(l)[0]; f[0] == 0xA2 && f[1] == l.c.block.seqno && f[2] == l.s.blksize
  }

  predicate AtLastAck(l: Link, d: seq<byte>, o: S.Server) {
    && l.s.state.DownloadBlEnd? && !l.s.rxNew && AllIn(l.s, d, o) && AllOut(l.c, d) && l.c.state.BlDownloadAck? && OneAnswer(l)
    && var f := Pending(l)[0]; f[0] == 0xA2 && f[1] == l.c.block.size
  }

  predicate AtEnd(l: Link, d: seq<byte>, o: S.Server) {
    && l.s.state.DownloadBlEnd? && !l.s.rxNew && AllIn(l.s, d, o) && l.toS == [] && l.toC == []
    && l.c.state.BlDownloadCrc? && !l.c.rxNew && AllOut(l.c, d)
  }

  predicate AtEndSent(l: Link, d: seq<byte>, o: S.Server) {
    && l.s.state.DownloadBlEnd? && AllIn(l.s, d, o) && l.toC == [] && l.c.state.BlDownloadCrcAck? && !l.c.rxNew
    && (if l.s.rxNew then l.s.rx == EndOf(d) && l.toS == [] else l.toS == [EndOf(d)])
  }

  function EndOf(d: seq<byte>): (f: Frame) {
    SegmentsForCovers(|d|);
    C.EndFrame(7 * SegmentsFor(|d|) - |d|, Checksum(d))
  }

  predicate AtDecision(l: Link, d: seq<byte>, o: S.Server) {
    && Final(l.s, d, o) && l.c.state.BlDownloadCrcAck? && OneAnswer(l)
    && Pending(l)[0][0] == (if Fits(d, o.node.size) then 0xA1 else ABORT)
  }

  /** The transfer of d stands in phase p. */
  predicate At(l: Link, p: Phase, d: seq<byte>, o: S.Server) {
    && 0 < |d|
    && match p
       case Asked => AtRequest(l, d, o)
       case Offered => AtOffer(l, d, o)
       case Loading => AtBlock(l, d, o)
       case Responding => AtResponse(l, d, o)
       case Acking => AtAck(l, d, o)
       case LastAcking => AtLastAck(l, d, o)
       case Ending => AtEnd(l, d, o)
       case EndSent => AtEndSent(l, d, o)
       case Decided => AtDecision(l, d, o)
       case Over => Final(l.s, d, o) && l.c.state.NotDefined? && l.toS == [] && l.toC == []
  }

  // ----------------------------------------------------------------- the measure

  datatype Kind = Serve | Deliver | Hear | Ask | Nobody

  /** Whose turn it is. */
  function Due(l: Link, p: Phase): (k: Kind) {
    match p
    case Asked => if l.s.rxNew then Serve else Deliver
    case Offered => if l.c.rxNew then Ask else Hear
    case Loading => if l.toS == [] then Ask else Deliver
    case Responding => Serve
    case Acking => if l.c.rxNew then Ask else Hear
    case LastAcking => if l.c.rxNew then Ask else Hear
    case Ending => Ask
    case EndSent => if l.s.rxNew then Serve else Deliver
    case Decided => if l.c.rxNew then Ask else Hear
    case Over => Nobody
  }

  /** The event is of that kind, and not held up by a full transmit buffer. */
  predicate Moves(e: Event, k: Kind) {
    match e
    case ServerCall(i) => k.Serve? && !i.txFull
    case ToServer => k.Deliver?
    case ToClient => k.Hear?
    case ClientCall(_, _, txFull) => k.Ask? && !txFull
    case _ => false
  }

  /** Steps still to come, at most. */
  function Left(l: Link, p: Phase, d: seq<byte>): (n: nat) {
    var parts := 12 * (Cut(|d|, l.c.offset) + Cut(|d|, l.s.at));
    match p
    case Asked => 24 * SegmentsFor(|d|) + (if l.s.rxNew then 3 else 4)
    case Offered => 24 * SegmentsFor(|d|) + (if l.c.rxNew then 1 else 2)
    case Loading => parts
    case Responding => parts + 8
    case Acking => parts + (if l.c.rxNew then 1 else 2)
    case LastAcking => if l.c.rxNew then 6 else 7
    case Ending => 5
    case EndSent => if l.s.rxNew then 3 else 4
    case Decided => if l.c.rxNew then 1 else 2
    case Over => 0
  }

  /** From l to r the transfer gets nearer to its end, or waits for the same event as before. */
  predicate Nearer(l: Link, p: Phase, r: Link, q: Phase, e: Event, d: seq<byte>) {
    Left(r, q, d) < Left(l, p, d) || (Left(r, q, d) == Left(l, p, d) && Due(r, q) == Due(l, p) && !Moves(e, Due(l, p)))
  }

  // ----------------------------------------------------------------- server calls

  lemma StillAt(l: Link, p: Phase, s: S.Server, d: seq<byte>, o: S.Server)
    requires At(l, p, d, o) && s == l.s.(timer := s.timer)
    ensures var r := l.(s := s); At(r, p, d, o) && Left(r, p, d) == Left(l, p, d) && Due(r, p) == Due(l, p)
  {
    hide Agrees, Sender, Sending, AllOut, Segs, IsRequest, FrameIndex, Written, EndOf, Cut, SegmentsFor, Fits;
    assert Pending(l.(s := s)) == Pending(l);
  }

  /** The server takes up the request. */
  lemma ServeRequest(l: Link, i: S.Input, d: seq<byte>, o: S.Server)
    requires AtRequest(l, d, o) && 0 < |d| && l.s.rxNew && Timely(l.s, i) && !i.txFull && Acceptable(o, d)
    ensures AtOffer(Step(l, ServerCall(i)), d, o)
  {
    hide S.Process, S.Lookup, FrameIndex, FrameValue, Agrees, C.Download, S.Receive, C.Receive;
    RequestEffect(l.s, i, o.arg.index, o.arg.sub, |d|, o.arg);
    var m := Step(l, ServerCall(i));
    assert Pending(m) == [S.Process(l.s, i).sent.value];
    AgreesNothing(m.s.buf, d);
    FrameNames(l.s.rx, Pending(m)[0]);
  }

  lemma FrameNames(f: Frame, g: Frame)
    requires f[1] == g[1] && f[2] == g[2]
    ensures FrameIndex(f) == FrameIndex(g)
  {
  }

  /** The server agrees to receive the data for the object of o. */
  predicate Acceptable(o: S.Server, d: seq<byte>) {
    && S.Lookup(o.node, o.arg.index, o.arg.sub) == S.Found(o.arg) && o.arg.stored && o.arg.access.writeable
    && o.arg.length == |d| <= o.node.size
  }

  /** And stores it: the number of errors can be set to zero only. */
  predicate Fresh(o: S.Server, d: seq<byte>) {
    Acceptable(o, d) && !(o.arg.index == 0x1003 && o.arg.sub == 0)
  }

  /** The server acknowledges a block. */
  lemma ServeBlock(l: Link, i: S.Input, d: seq<byte>, o: S.Server)
    requires AtResponse(l, d, o) && 0 < |d| && Timely(l.s, i) && !i.txFull
    ensures var m := Step(l, ServerCall(i));
            && m.c == l.c && m.s.at == l.s.at
            && if l.c.offset < |d| then AtAck(m, d, o) else AtLastAck(m, d, o)
  {
    hide S.Process, Agrees, C.Download, S.Receive, C.Receive, AllOut, SegmentsFor, Answered;
    var isLast := l.s.rx[0] >= 0x80;
    Responds(l.s, i);
    var x := S.Process(l.s, i);
    AnsweredFacts(l.s, x, isLast);
    var m := Step(l, ServerCall(i));
    assert Pending(m) == [x.sent.value];
    SameCarrying(l.s, m.s, d, o);
  }

  lemma AnsweredFacts(s: S.Server, x: S.Result, isLast: bool)
    requires Answered(s, x, isLast)
    ensures x.s.node == s.node && x.s.arg == s.arg && x.s.buf == s.buf && x.s.at == s.at && x.s.sequence == 0 && !x.s.rxNew
    ensures if isLast then x.s.state.DownloadBlEnd? else x.s.state.DownloadBlSubblock?
    ensures x.sent.Some? && x.sent.value[0] == 0xA2 && x.sent.value[1] == s.sequence && x.sent.value[2] < 0x80
  {
  }

  lemma Responds(s: S.Server, i: S.Input)
    requires s.state.DownloadBlSubResp? && s.rxNew && Timely(s, i) && !i.txFull && s.arg.stored && s.rx[0] != ABORT
    requires s.rx[0] < 0x80 ==> s.at < s.node.size
    ensures var x := S.Process(s, i);
            && Answered(s, x, s.rx[0] >= 0x80) && x.s.crcOn == s.crcOn && x.s.crc == s.crc
            && x.s.blksize == x.sent.value[2]
  {
    hide S.SubblockResponse, S.Start, Answered;
    var s1 := s.(tx := ZERO_FRAME, timer := i.dt);
    ResponseEffect(s1, i, s.rx[0] >= 0x80);
    ResponseDetails(s1, i, s.rx[0] >= 0x80);
    assert S.Process(s, i) == S.SubblockResponse(s1, i, s.rx[0] >= 0x80);
    AnsweredSame(s1, s, S.Process(s, i), s.rx[0] >= 0x80);
  }

  /** The server takes the end of the transfer. */
  lemma ServeEnd(l: Link, i: S.Input, d: seq<byte>, o: S.Server)
    requires AtEndSent(l, d, o) && 0 < |d| && l.s.rxNew && Timely(l.s, i) && !i.txFull && Writeable(o, i)
    ensures AtDecision(Step(l, ServerCall(i)), d, o)
  {
    hide S.Process, Agrees, C.Download, S.Receive, C.Receive, SegmentsFor, Written, Writeable, S.EndBlockDownload, Checksum, C.EndFrame;
    SegmentsForCovers(|d|);
    C.EndFrameFields(7 * SegmentsFor(|d|) - |d|, Checksum(d));
    var s1 := l.s.(tx := ZERO_FRAME, timer := i.dt);
    EndTaken(l.s, i);
    SameCarrying(l.s, s1, d, o);
    EndOutcome(s1, i, d, o);
    EndFree(s1, i);
    var m := Step(l, ServerCall(i));
    assert Pending(m) == [S.Process(l.s, i).sent.value];
  }

  lemma EndTaken(s: S.Server, i: S.Input)
    requires s.state.DownloadBlEnd? && s.rxNew && s.rx[0] != ABORT && Timely(s, i) && !i.txFull
    ensures S.Process(s, i) == S.EndBlockDownload(s.(tx := ZERO_FRAME, timer := i.dt), i)
  {
    hide S.EndBlockDownload, S.Start;
  }

  lemma EndFree(s: S.Server, i: S.Input)
    ensures !S.EndBlockDownload(s, i).s.rxNew
  {
    hide S.WriteOd, Specifier, Bit0, BlockUnused, Crc.CrcOf, Minus16, FromLe16;
  }

  /** The server's part of a run: what the OD function answers, if there is one. */
  predicate Granted(o: S.Server, i: S.Input) {
    S.HasFunction(o) ==> i.write1 == 0
  }

  lemma ServeStep(l: Link, p: Phase, i: S.Input, d: seq<byte>, o: S.Server) returns (q: Phase)
    requires At(l, p, d, o) && Fresh(o, d) && Granted(o, i) && ((l.s.state.Idle? && !l.s.rxNew) || Timely(l.s, i))
    ensures var r := Step(l, ServerCall(i)); At(r, q, d, o) && Nearer(l, p, r, q, ServerCall(i), d) && r.c == l.c
  {
    hide S.Process, AtRequest, AtOffer, AtBlock, AtAck, AtLastAck, AtEnd, AtDecision, Final, Acceptable, AtEndSent, AtResponse, Writeable, Cut,
      SegmentsFor;
    q := p;
    if l.s.state.Idle? && !l.s.rxNew {
      IdleCall(l.s, i);
      assert Step(l, ServerCall(i)) == l;
      NotServed(l, p, d, o);
    } else if l.s.rxNew && !i.txFull {
      Served(l, p, d, o);
      if p.Asked? {
        q := Offered;
        ServeRequest(l, i, d, o);
        NotYet(l, Step(l, ServerCall(i)), d, o);
      } else if p.Responding? {
        q := if l.c.offset < |d| then Acking else LastAcking;
        ServeBlock(l, i, d, o);
      } else {
        q := Decided;
        IsWriteable(o, i, d);
        ServeEnd(l, i, d, o);
        JustDecided(Step(l, ServerCall(i)), d, o);
      }
    } else {
      ServerState(l, p, d, o);
      ServerWaits(l.s, i);
      StillAt(l, p, S.Process(l.s, i).s, d, o);
      assert Queue(l.toC, None) == l.toC;
      if !l.s.rxNew {
        NotServed(l, p, d, o);
      }
    }
  }

  lemma ServerState(l: Link, p: Phase, d: seq<byte>, o: S.Server)
    requires At(l, p, d, o)
    ensures !l.s.state.UploadBlSubblock?
  {
    hide Agrees, Sender, Sending, AllOut, Open, Segs, IsRequest, FrameIndex, Written, EndOf, SegmentsFor, Carrying;
  }

  lemma NotServed(l: Link, p: Phase, d: seq<byte>, o: S.Server)
    requires At(l, p, d, o) && !l.s.rxNew
    ensures !Due(l, p).Serve?
  {
    hide Agrees, Sender, Sending, AllOut, Open, Segs, IsRequest, FrameIndex, Written, EndOf, SegmentsFor, Carrying;
  }

  lemma Served(l: Link, p: Phase, d: seq<byte>, o: S.Server)
    requires At(l, p, d, o) && l.s.rxNew
    ensures p.Asked? || p.Responding? || p.EndSent?
  {
    hide Agrees, Sender, Sending, AllOut, Open, Segs, IsRequest, FrameIndex, Written, EndOf, SegmentsFor, Carrying;
  }

  lemma IsWriteable(o: S.Server, i: S.Input, d: seq<byte>)
    requires Fresh(o, d) && Granted(o, i)
    ensures Writeable(o, i)
  {
    FoundWriteable(o, o.arg.index, o.arg.sub, o.arg, i);
  }

  lemma NotYet(l: Link, m: Link, d: seq<byte>, o: S.Server)
    requires AtRequest(l, d, o) && m.c == l.c
    ensures !m.c.rxNew
  {
    hide IsRequest;
  }

  lemma JustDecided(m: Link, d: seq<byte>, o: S.Server)
    requires AtDecision(m, d, o)
    ensures Left(m, Decided, d) <= 2
  {
    hide Final, Cut, Fits;
  }

  // -------------------------------------------------------------- the server hears

  /** The next segment is taken. */
  lemma SegmentTaken(s: S.Server, d: seq<byte>, o: S.Server)
    requires Listening(s, d, o) && 0 < |d|
    ensures s.sequence < 0x7F && 0 <= Base(s)
    ensures var k := s.sequence + 1; var f := C.Segment(d, Base(s), k); var r := S.Receive(s, f);
            && Carrying(r, d, o) && r.crcOn && r.crc == 0 && r.sequence == k && r.rx[0] != ABORT && r.timer == 0
            && (if s.at + 7 >= |d| then r.state.DownloadBlSubResp? && r.rxNew && r.rx[0] >= 0x80 && AllIn(r, d, o)
                else && r.at == s.at + 7 && Base(r) == Base(s) && r.blksize == s.blksize && r.rx[0] < 0x80 && Open(r, d)
                     && (if k < s.blksize then Listening(r, d, o) else r.state.DownloadBlSubResp? && r.rxNew))
  {
    hide S.ReceiveSegment, C.Segment, Agrees, SegmentsFor;
    var f := C.Segment(d, Base(s), s.sequence + 1);
    SegmentLater(d, Base(s), s.sequence + 1);
    LiveNumber(f, Base(s), d, s.sequence + 1);
    TakeInOrder(s, f, d, o);
    TakeDetails(s, f);
    LastBit(d, Base(s), s.sequence + 1);
    if s.at + 7 >= |d| {
      SegmentsAt(s.at, |d|);
    }
  }

  /** At the end of a block nothing more is under way. */
  lemma LastOfBlock(l: Link, d: seq<byte>, o: S.Server)
    requires AtBlock(l, d, o) && l.s.sequence < l.c.block.seqno
    ensures l.s.at + 7 >= |d| ==> l.c.offset == l.s.at + 7 && l.s.sequence + 1 == l.c.block.seqno == l.c.block.size
    ensures l.s.at + 7 < |d| && l.s.sequence + 1 >= l.s.blksize ==>
              l.c.offset == l.s.at + 7 && l.s.sequence + 1 == l.c.block.seqno && l.c.state.BlDownloadAck?
    ensures l.s.at + 7 < |d| && l.s.sequence + 1 < l.s.blksize && l.c.state.BlDownloadAck? ==> l.s.sequence + 1 < l.c.block.seqno
  {
    hide Agrees, Segs;
  }

  lemma DeliverSegment(l: Link, d: seq<byte>, o: S.Server) returns (q: Phase)
    requires AtBlock(l, d, o) && 0 < |d| && l.toS != []
    ensures var r := Step(l, ToServer); At(r, q, d, o) && Left(r, q, d) < Left(l, Loading, d)
  {
    hide S.Receive, C.Segment, Agrees, SegmentsFor, S.Process, C.Download, C.Receive, AllIn, Open, Cut, Carrying;
    var k := l.s.sequence + 1;
    SegmentTaken(l.s, d, o);
    SegsEmpty(d, Base(l.s), l.s.sequence, l.c.block.seqno);
    LastOfBlock(l, d, o);
    var f := C.Segment(d, Base(l.s), k);
    assert l.toS[0] == f && l.toS[1..] == Segs(d, Base(l.s), k, l.c.block.seqno);
    var r := Step(l, ToServer);
    assert r.s == S.Receive(l.s, f) && r.toS == Segs(d, Base(l.s), k, l.c.block.seqno);
    SegsEmpty(d, Base(l.s), k, l.c.block.seqno);
    assert l.s.at < |d| by {
      StillOpen(l.s, d, o);
    }
    CutNext(|d|, l.s.at);
    if l.s.at + 7 >= |d| {
      q := Responding;
      SegmentsAt(l.s.at, |d|) by {
        StillOpen(l.s, d, o);
      }
      AllInAt(r.s, d, o) by {
        StillOpen(l.s, d, o);
      }
    } else if k < l.s.blksize {
      q := Loading;
    } else {
      q := Responding;
    }
  }

  lemma StillOpen(s: S.Server, d: seq<byte>, o: S.Server)
    requires Listening(s, d, o)
    ensures s.at < |d| && s.at % 7 == 0 && |d| <= o.node.size
  {
    hide Agrees;
  }

  lemma AllInAt(s: S.Server, d: seq<byte>, o: S.Server)
    requires AllIn(s, d, o) && |d| <= o.node.size
    ensures Cut(|d|, s.at) == 0
  {
    hide Agrees;
  }

  lemma DeliverStep(l: Link, p: Phase, d: seq<byte>, o: S.Server) returns (q: Phase)
    requires At(l, p, d, o)
    ensures var r := Step(l, ToServer); At(r, q, d, o) && Nearer(l, p, r, q, ToServer, d) && r.c == l.c
  {
    hide S.ReceiveSegment, C.Segment, Agrees, SegmentsFor, S.Process, C.Download, C.Receive, AllIn, AllOut, Open, Cut, Carrying, EndOf,
      IsRequest, FrameIndex, Written, Sender, Sending, Segs, Fits;
    q := p;
    if l.toS != [] {
      if p.Loading? {
        q := DeliverSegment(l, d, o);
      } else {
        assert p.Asked? || p.EndSent?;
        var r := Step(l, ToServer);
        assert r.s == l.s.(rx := l.toS[0], rxNew := true) && r.toS == [];
        if p.EndSent? {
          StillAllIn(l.s, r.s, d, o);
        }
      }
    }
  }

  lemma StillAllIn(s: S.Server, r: S.Server, d: seq<byte>, o: S.Server)
    requires AllIn(s, d, o) && r == s.(rx := r.rx, rxNew := r.rxNew)
    ensures AllIn(r, d, o)
  {
    hide Agrees, SegmentsFor;
  }

  // -------------------------------------------------------------- the client hears

  lemma HearStep(l: Link, p: Phase, d: seq<byte>, o: S.Server)
    requires At(l, p, d, o)
    ensures var r := Step(l, ToClient); At(r, p, d, o) && Nearer(l, p, r, p, ToClient, d)
    ensures Step(l, ToClient).c.state == l.c.state
  {
    hide S.Receive, C.Segment, Agrees, SegmentsFor, S.Process, C.Download, C.ReceiveSegment, AllIn, Open, Cut, Carrying, EndOf,
      IsRequest, FrameIndex, Written, Segs, Fits;
    if l.toC != [] {
      assert !l.c.rxNew && l.toC == [Pending(l)[0]];
      var r := Step(l, ToClient);
      assert Pending(r) == Pending(l);
    }
  }

  // ------------------------------------------------------------------ client calls

  /** The transfer goes on. */
  predicate Underway(ret: C.Return) {
    ret.Waiting? || ret.TxFull? || ret.DownloadInProgress?
  }

  /** A call that finds nothing to do. */
  lemma ClientWaits(c: C.Client, dt: uint16, timeout: uint16, txFull: bool, abort: uint32)
    requires c.state.BlDownloadInitiate? || c.state.BlDownloadAck? || c.state.BlDownloadCrcAck? || txFull
    requires c.timer + dt < timeout
    ensures var x := C.DownloadTimed(c, dt, timeout, txFull, abort);
            x.sent.None? && x.c == c.(timer := x.c.timer) && Underway(x.ret)
  {
  }

  /** The next segment goes out. */
  lemma ClientSends(c: C.Client, dt: uint16, timeout: uint16, abort: uint32, d: seq<byte>, size: byte)
    requires Sender(c, d, size) && c.state.BlDownloadInProgress? && c.timer + dt < timeout
    ensures c.block.seqno < 0x7F
    ensures var x := C.DownloadTimed(c, dt, timeout, false, abort); var k := c.block.seqno + 1;
            && x.sent == Some(C.Segment(d, c.acked, k)) && Sender(x.c, d, size) && x.c.acked == c.acked && x.c.block.seqno == k
            && x.c.offset == c.offset + 7 && x.c.timer == 0 && Underway(x.ret)
  {
    hide C.Segment;
    SendEffect(c.(timer := c.timer + dt), abort, d);
  }

  /** A client in a block, called. */
  lemma AskBlock(l: Link, dt: uint16, timeout: uint16, txFull: bool, abort: uint32, d: seq<byte>, o: S.Server)
    requires AtBlock(l, d, o) && 0 < |d| && l.c.timer + dt < timeout
    ensures var x := C.DownloadTimed(l.c, dt, timeout, txFull, abort); var r := l.(c := x.c, toS := Queue(l.toS, x.sent));
            && AtBlock(r, d, o) && Underway(x.ret)
            && (if l.c.state.BlDownloadInProgress? && !txFull then Left(r, Loading, d) < Left(l, Loading, d)
                else r == l.(c := l.c.(timer := x.c.timer)))
  {
    hide C.DownloadTimed, C.Segment, Agrees, SegmentsFor, Cut, Listening;
    if l.c.state.BlDownloadInProgress? && !txFull {
      ClientSends(l.c, dt, timeout, abort, d, l.s.blksize);
      SegsAppend(d, Base(l.s), l.s.sequence, l.c.block.seqno) by {
        BaseNat(l.s, d, o);
      }
      CutNext(|d|, l.c.offset);
    } else {
      ClientWaits(l.c, dt, timeout, txFull, abort);
    }
  }

  lemma BaseNat(s: S.Server, d: seq<byte>, o: S.Server)
    requires Listening(s, d, o)
    ensures 0 <= Base(s)
  {
    hide Agrees;
  }

  /** The client takes an offer or an acknowledgement and stands in the server's block. */
  lemma AnswerTaken(l: Link, p: Phase, d: seq<byte>, o: S.Server)
    requires At(l, p, d, o) && (p.Offered? || p.Acking?) && l.c.rxNew
    ensures l.c.rx[0] != ABORT && !C.DownloadRx(l.c).done
    ensures var c := C.DownloadRx(l.c).c.(timer := 0, rxNew := false); var r := l.(c := c);
            AtBlock(r, d, o) && c.state.BlDownloadInProgress? && c.block.seqno == 0 && r.toS == [] && Left(r, Loading, d) < Left(l, p, d)
  {
    hide Agrees, C.Segment, FrameIndex;
    assert Pending(l)[0] == l.c.rx && l.toC == [];
    assert Specifier(0xA4) == 5 && Specifier(0xA2) == 5 && Bit1(0xA2);
  }

  lemma AskAnswered(l: Link, p: Phase, dt: uint16, timeout: uint16, txFull: bool, d: seq<byte>, o: S.Server)
    requires At(l, p, d, o) && (p.Offered? || p.Acking?) && l.c.rxNew && Prompt(l.c, dt, timeout)
    ensures var x := C.Download(l.c, dt, timeout, txFull); var r := l.(c := x.c, toS := Queue(l.toS, x.sent));
            At(r, Loading, d, o) && Left(r, Loading, d) < Left(l, p, d) && Underway(x.ret)
  {
    hide C.DownloadTimed, C.DownloadRx, AtBlock, AtOffer, AtAck, Cut;
    AnswerTaken(l, p, d, o);
    var y := C.DownloadRx(l.c);
    var m := l.(c := y.c.(timer := 0, rxNew := false));
    AskBlock(m, dt, timeout, txFull, y.abort, d, o);
  }

  /** The last acknowledgement: the end of the transfer is to be sent. */
  lemma LastAckTaken(l: Link, d: seq<byte>, o: S.Server)
    requires At(l, LastAcking, d, o) && l.c.rxNew
    ensures l.c.rx[0] != ABORT && !C.DownloadRx(l.c).done
    ensures AtEnd(l.(c := C.DownloadRx(l.c).c.(timer := 0, rxNew := false)), d, o)
  {
    hide Agrees, SegmentsFor;
    assert Pending(l)[0] == l.c.rx && l.toC == [];
    assert Specifier(0xA2) == 5 && Bit1(0xA2);
  }

  lemma AskEnd(l: Link, dt: uint16, timeout: uint16, txFull: bool, abort: uint32, d: seq<byte>, o: S.Server)
    requires AtEnd(l, d, o) && l.c.timer + dt < timeout
    ensures var x := C.DownloadTimed(l.c, dt, timeout, txFull, abort); var r := l.(c := x.c, toS := Queue(l.toS, x.sent));
            Underway(x.ret) && if txFull then AtEnd(r, d, o) else AtEndSent(r, d, o)
  {
    hide Agrees, AllIn, SegmentsFor, Checksum, C.EndFrame;
    SegmentsForCovers(|d|);
  }

  /** The client learns the outcome. */
  lemma AskDecision(l: Link, dt: uint16, timeout: uint16, txFull: bool, d: seq<byte>, o: S.Server)
    requires AtDecision(l, d, o) && 0 < |d| && l.c.rxNew
    ensures var x := C.Download(l.c, dt, timeout, txFull); var r := l.(c := x.c, toS := Queue(l.toS, x.sent));
            At(r, Over, d, o) && x.ret == Verdict(d, o.node.size)
  {
    hide Written, SegmentsFor;
    assert Pending(l)[0] == l.c.rx && l.toC == [];
    assert Specifier(0xA1) == 5 && Bit0(0xA1);
  }

  lemma NotAsked(l: Link, p: Phase, dt: uint16, timeout: uint16, txFull: bool, d: seq<byte>, o: S.Server)
    requires At(l, p, d, o) && !l.c.rxNew && !p.Loading? && !p.Ending? && !p.Over? && Prompt(l.c, dt, timeout)
    ensures var x := C.Download(l.c, dt, timeout, txFull); var r := l.(c := x.c, toS := Queue(l.toS, x.sent));
            && At(r, p, d, o) && Left(r, p, d) == Left(l, p, d) && Due(r, p) == Due(l, p) && !Due(l, p).Ask? && Underway(x.ret)
  {
    hide C.DownloadTimed, Agrees, Open, Segs, IsRequest, FrameIndex, Written, EndOf, Cut, SegmentsFor, Fits, Listening, AllIn, Carrying;
    var x := C.Download(l.c, dt, timeout, txFull);
    ClientWaits(l.c, dt, timeout, txFull, 0);
    assert Pending(l.(c := x.c)) == Pending(l);
    assert Queue(l.toS, None) == l.toS;
  }

  /** What a call of the client returns. */
  predicate Returns(p: Phase, ret: C.Return, d: seq<byte>, size: nat) {
    if p.Over? then ret == Verdict(d, size) else Underway(ret)
  }

  lemma AskStep(l: Link, p: Phase, dt: uint16, timeout: uint16, txFull: bool, d: seq<byte>, o: S.Server) returns (q: Phase)
    requires At(l, p, d, o) && !p.Over? && Prompt(l.c, dt, timeout)
    ensures var e := ClientCall(dt, timeout, txFull); var r := Step(l, e); At(r, q, d, o) && Nearer(l, p, r, q, e, d)
    ensures Returns(q, C.Download(l.c, dt, timeout, txFull).ret, d, o.node.size)
  {
    hide S.Process, S.Receive, C.Receive, C.Download, AtRequest, AtOffer, AtBlock, AtResponse, AtAck, AtLastAck, AtEnd, AtEndSent,
      AtDecision, Final, Cut, Underway, Verdict;
    q := p;
    if p.Loading? {
      BlockUnread(l, d, o);
      NothingReceived(l.c, dt, timeout, txFull);
      AskBlock(l, dt, timeout, txFull, 0, d, o);
      OnlyAsks(l, d, o);
    } else if p.Ending? {
      q := if txFull then Ending else EndSent;
      EndUnread(l, d, o);
      NothingReceived(l.c, dt, timeout, txFull);
      AskEnd(l, dt, timeout, txFull, 0, d, o);
    } else if !l.c.rxNew {
      NotAsked(l, p, dt, timeout, txFull, d, o);
    } else {
      Asks(l, p, d, o);
      if p.Decided? {
        q := Over;
        AskDecision(l, dt, timeout, txFull, d, o);
      } else if p.LastAcking? {
        q := if txFull then Ending else EndSent;
        AskLastAck(l, dt, timeout, txFull, d, o);
      } else {
        q := Loading;
        AskAnswered(l, p, dt, timeout, txFull, d, o);
      }
    }
  }

  lemma AskLastAck(l: Link, dt: uint16, timeout: uint16, txFull: bool, d: seq<byte>, o: S.Server)
    requires At(l, LastAcking, d, o) && l.c.rxNew && Prompt(l.c, dt, timeout)
    ensures var x := C.Download(l.c, dt, timeout, txFull); var r := l.(c := x.c, toS := Queue(l.toS, x.sent));
            Underway(x.ret) && (if txFull then At(r, Ending, d, o) else At(r, EndSent, d, o)) && r.s == l.s
  {
    hide C.DownloadTimed, C.DownloadRx, AtLastAck, AtEnd, AtEndSent;
    LastAckTaken(l, d, o);
    var y := C.DownloadRx(l.c);
    AskEnd(l.(c := y.c.(timer := 0, rxNew := false)), dt, timeout, txFull, y.abort, d, o);
  }

  lemma NothingReceived(c: C.Client, dt: uint16, timeout: uint16, txFull: bool)
    requires !c.rxNew
    ensures C.Download(c, dt, timeout, txFull) == C.DownloadTimed(c, dt, timeout, txFull, 0)
  {
    hide C.DownloadTimed;
  }

  lemma BlockUnread(l: Link, d: seq<byte>, o: S.Server)
    requires AtBlock(l, d, o)
    ensures !l.c.rxNew
  {
    hide Agrees, Segs;
  }

  lemma OnlyAsks(l: Link, d: seq<byte>, o: S.Server)
    requires AtBlock(l, d, o)
    ensures l.toS == [] ==> l.c.state.BlDownloadInProgress?
  {
    hide Agrees, C.Segment;
    SegsEmpty(d, Base(l.s), l.s.sequence, l.c.block.seqno);
  }

  lemma EndUnread(l: Link, d: seq<byte>, o: S.Server)
    requires AtEnd(l, d, o)
    ensures !l.c.rxNew && !l.s.rxNew
  {
    hide AllIn, AllOut;
  }

  lemma Asks(l: Link, p: Phase, d: seq<byte>, o: S.Server)
    requires At(l, p, d, o) && l.c.rxNew && !p.Over?
    ensures p.Offered? || p.Acking? || p.LastAcking? || p.Decided?
  {
    hide Agrees, Open, Segs, IsRequest, FrameIndex, Written, EndOf, SegmentsFor, Carrying;
  }
}
