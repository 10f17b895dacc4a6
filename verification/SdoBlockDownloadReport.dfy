/**
  What the client of a block download may conclude from its last report, over a
  bus that may lose any frame in either direction and over whole runs: the
  object is written, as long as no last segment of the client reads as the
  request of a block download.
 */
module SdoBlockDownloadReport {
  import opened Can
  import opened SdoTypes
  import Crc
  import S = SdoServer
  import C = SdoClient
  import opened SdoCalls
  import opened SdoBlockDownload
  import opened SdoBlockDownloadStart
  import opened SdoBlockDownloadWhole
  import opened SdoBlockDownloadAstray
  import opened SdoBlockDownloadCredit

  // --------------------------------------------------------- the server in the transfer

  /** A last segment of the block the client is in has been sent. */
  function Current(c: C.Client, d: seq<byte>): (n: nat) {
    if c.state.BlDownloadAck? && c.offset >= |d| then 1 else 0
  }

  /** At most that last segment is under way. */
  predicate Tight(l: Link, d: seq<byte>) {
    Count(l.toS, Fifth) <= Current(l.c, d)
  }

  /** The client has begun a block of which the server has nothing; one of the block before may be under way in front of it. */
  predicate Loose(l: Link, d: seq<byte>) {
    && l.s.sequence == 0 && Pending(l) == [] && Count(l.toS, Fifth) <= 1 + Current(l.c, d)
    && Count(Fresh(l.toS), Fifth) <= Current(l.c, d)
  }

  /** The number of segments to acknowledge is fit for the client. */
  predicate Due(l: Link, d: seq<byte>) {
    || |d| <= REPORT_MAX
    || (l.c.offset >= |d| && l.s.sequence == l.c.block.size)
    || (0 < l.s.sequence <= l.c.block.seqno && l.c.acked + 7 * (l.s.sequence as int) == l.s.at)
  }

  predicate Ahead(l: Link, d: seq<byte>) {
    && (l.s.state.DownloadBlSubblock? ==>
          && (Tight(l, d) || Loose(l, d)) && (l.s.sequence > 0 || l.c.state.BlDownloadInitiate? ==> Tight(l, d)))
    && (l.s.state.DownloadBlSubResp? ==>
          Tight(l, d) && Pending(l) == [] && (l.c.state.BlDownloadInProgress? || l.c.state.BlDownloadAck?) && Due(l, d))
    && (l.s.state.DownloadBlEnd? ==> Credit(l))
  }

  predicate Transfer(l: Link, d: seq<byte>, o: S.Server) {
    !Dead(l.c) && o.arg.access.writeable && Inv(l, d, o) && Tidy(l, d, o.node.size) && Ahead(l, d)
  }

  lemma {:induction false} CountBound(q: seq<Frame>, p: Frame -> bool)
    ensures Count(q, p) <= |q|
    decreases |q|
  {
    if q != [] {
      CountBound(q[1..], p);
    }
  }

  /** What the invariant of the transfer says of the client while the server takes in segments. */
  lemma Blocks(l: Link, d: seq<byte>, o: S.Server)
    requires Transfer(l, d, o) && (l.s.state.DownloadBlSubblock? || l.s.state.DownloadBlSubResp?)
    ensures |Pending(l)| <= 1
    ensures l.c.state.BlDownloadInitiate? || l.c.state.BlDownloadInProgress? || l.c.state.BlDownloadAck?
    ensures l.s.state.DownloadBlSubblock? ==> !l.s.rxNew
    ensures l.s.state.DownloadBlSubblock? && l.s.sequence > 0 ==>
              Pending(l) == [] && Sending(l.c, d) && l.c.acked == Base(l.s) && l.s.sequence <= l.c.block.seqno
    ensures l.s.state.DownloadBlSubblock? && (l.c.rxNew || l.toC != []) ==> l.s.sequence == 0 && AllLater(l.toS)
  {
    hide Tidy, Agrees, Flow, Later, Count, Fifth, Current, Due;
  }

  /** The server leaves: the answers under way and those it may still give are too few. */
  lemma Leaves(l: Link, m: Link, d: seq<byte>, o: S.Server)
    requires Transfer(l, d, o) && (l.s.state.DownloadBlSubblock? || l.s.state.DownloadBlSubResp?)
    requires m.c == l.c && m.toS == l.toS && Level(m.s) == 0 && !m.s.rxNew && Count(Pending(m), Fifth) == Count(Pending(l), Fifth)
    ensures Credit(m)
  {
    hide Tidy, Inv, Fifth, Due, Level;
    Blocks(l, d, o);
    CountBound(Pending(l), Fifth);
    assert ForServer(m) == l.toS;
  }

  // -------------------------------------------------------------- a segment arrives

  /** Only the first byte of the first frame for the server counts. */
  lemma SameFirst(l: Link, m: Link, d: seq<byte>, z: nat)
    requires Tidy(l, d, z) && m.c == l.c && m.toC == l.toC && |ForServer(l)| == |ForServer(m)| > 0
    requires ForServer(m)[1..] == ForServer(l)[1..] && ForServer(m)[0][0] == ForServer(l)[0][0]
    ensures Tidy(m, d, z)
  {
    hide Narrow, Calm, Measured;
    assert Pending(m) == Pending(l);
    var q, r := ForServer(l), ForServer(m);
    assert forall i :: 0 < i < |q| ==> q[i] == q[1..][i - 1] && r[i] == r[1..][i - 1];
  }

  lemma TakenFirst(l: Link, d: seq<byte>)
    requires l.toS != [] && l.s.state.DownloadBlSubblock? && (Tight(l, d) || (Loose(l, d) && !Later(l.toS[0])))
    ensures Count(l.toS[1..], Fifth) <= Current(l.c, d)
  {
    hide Fifth, Later;
  }

  lemma SkippedLater(l: Link, d: seq<byte>)
    requires l.toS != [] && Loose(l, d) && Later(l.toS[0])
    ensures Count(l.toS[1..], Fifth) <= 1 + Current(l.c, d) && Count(Fresh(l.toS[1..]), Fifth) <= Current(l.c, d)
  {
    hide Fifth, Later;
  }

  /** The next segment is taken: the client and the server are in the same block. */
  lemma InOrder(l: Link, d: seq<byte>, o: S.Server)
    requires Transfer(l, d, o) && l.s.state.DownloadBlSubblock? && l.toS != [] && Seqno(l.toS[0][0]) == l.s.sequence + 1
    ensures Pending(l) == [] && Sending(l.c, d) && l.c.acked == Base(l.s) && l.s.sequence < l.c.block.seqno
    ensures l.toS[0][0] != ABORT && l.toS[0] == C.Segment(d, l.c.acked, l.s.sequence + 1)
  {
    hide Tidy, Agrees, Count, Fifth, Current, Due, C.Segment;
    SeqnoOfAbort();
    if l.s.sequence > 0 {
      FlowRest(l.toS, Base(l.s), d, Sent(l.c));
    }
  }

  // ----------------------------------------------------------------- server calls

  /** The data is written and confirmed, and only aborts may still reach the server. */
  predicate Won(l: Link, d: seq<byte>, o: S.Server) {
    Written(l.s.node, d, o) && l.s.state.Idle? && Aborts(ForServer(l)) && l.c.state.BlDownloadCrcAck?
  }

  /** Where a transfer may get in a step. */
  predicate Onto(l: Link, d: seq<byte>, o: S.Server) {
    Dead(l.c) || Transfer(l, d, o) || Strayed(l, d, o.node.size) || Won(l, d, o)
  }

  /** A server in the transfer that becomes idle without a confirmation holds no frame and sends at most an abort. */
  lemma LoadingStops(s: S.Server, i: S.Input)
    requires s.state.DownloadBlSubblock? || s.state.DownloadBlSubResp?
    ensures var x := S.Process(s, i); x.s.state.Idle? ==> Mute(x) && !x.s.rxNew
  {
    hide S.SubblockResponse, S.Start;
    assert Specifier(ABORT) == 4;
    var s0 := if s.rxNew && !i.txFull then s.(tx := ZERO_FRAME, timer := 0) else s;
    var s1 := if s0.timer < i.timeout then s0.(timer := Add16(s0.timer, i.dt)) else s0;
    ResponseFrame(s1, i, false);
    ResponseFrame(s1, i, s.rx[0] >= 0x80);
  }

  /** A block is answered with an acknowledgement, or an abort. */
  lemma ResponseFrame(s: S.Server, i: S.Input, isLast: bool)
    ensures var x := S.SubblockResponse(s, i, isLast);
            && x.sent.Some? && !x.s.rxNew && (x.s.state.Idle? ==> x.sent.value[0] == ABORT)
            && (s.arg.stored && s.at <= s.node.size ==>
                  x.sent.value[0] == ABORT || 7 * (x.sent.value[2] as int) <= s.node.size - s.at)
  {
    hide S.WriteOd, Crc.CrcOf;
  }

  /** The next block is not larger than the room left. */
  lemma LoadingRoom(s: S.Server, i: S.Input)
    requires (s.state.DownloadBlSubblock? || s.state.DownloadBlSubResp?) && s.arg.stored && s.at <= s.node.size
    ensures var x := S.Process(s, i);
            x.sent.Some? ==> x.sent.value[0] == ABORT || 7 * (x.sent.value[2] as int) <= s.node.size - s.at
  {
    hide S.SubblockResponse, S.Start;
    var s0 := if s.rxNew && !i.txFull then s.(tx := ZERO_FRAME, timer := 0) else s;
    var s1 := if s0.timer < i.timeout then s0.(timer := Add16(s0.timer, i.dt)) else s0;
    ResponseFrame(s1, i, false);
    ResponseFrame(s1, i, s.rx[0] >= 0x80);
  }

  /** Nothing but the timer of the server has changed. */
  lemma TransferSame(l: Link, m: Link, d: seq<byte>, o: S.Server)
    requires Transfer(l, d, o) && m == l.(s := l.s.(timer := m.s.timer))
    ensures Transfer(m, d, o)
  {
    hide Tidy, Inv, Count, Fifth;
    SameServer(l, m.s, d, o);
    assert ForServer(m) == ForServer(l) == Without(ForServer(l), |ForServer(l)|);
    FewerCommands(l, m, |ForServer(l)|, d, o.node.size);
    assert Pending(m) == Pending(l);
  }

  /** The server gives up while it takes in segments. */
  lemma LoadingLeaves(l: Link, x: S.Result, d: seq<byte>, o: S.Server)
    requires Transfer(l, d, o) && (l.s.state.DownloadBlSubblock? || l.s.state.DownloadBlSubResp?)
    requires x.s.state.Idle? && Mute(x) && SameRx(l.s, x.s) && !x.s.rxNew
    ensures Strayed(l.(s := x.s, toC := Queue(l.toC, x.sent)), d, o.node.size)
  {
    hide Tidy, Inv, Fifth, Credit, Measured, Ahead;
    var n := l.(s := x.s);
    var m := l.(s := x.s, toC := Queue(l.toC, x.sent));
    var k := Consumed(l, x.s);
    FewerCommands(l, n, k, d, o.node.size);
    MuteMeasured(x, l.c, d, o.node.size);
    AnswerQueued(n, x.sent, d, o.node.size);
    assert Pending(n) == Pending(l);
    Leaves(l, m, d, o);
  }

  lemma MuteMeasured(x: S.Result, c: C.Client, d: seq<byte>, z: nat)
    requires Mute(x)
    ensures x.sent.Some? ==> Measured(x.sent.value, c, d, z)
  {
    hide Fifth;
  }

  /** The acknowledgement is fit for the client. */
  lemma AckMeasured(l: Link, x: S.Result, isLast: bool, d: seq<byte>, o: S.Server)
    requires Transfer(l, d, o) && (l.s.state.DownloadBlSubResp? || (l.s.state.DownloadBlSubblock? && l.s.sequence > 0))
    requires Answered(l.s, x, isLast) && 7 * (x.sent.value[2] as int) <= o.node.size - l.s.at
    ensures Measured(x.sent.value, l.c, d, o.node.size)
  {
    hide Tidy, InBlock, Acked, Agrees, Fifth, Tight, Loose;
    Blocks(l, d, o);
  }

  /** The server has answered a block. */
  lemma AnsweredOnto(l: Link, x: S.Result, isLast: bool, d: seq<byte>, o: S.Server)
    requires Transfer(l, d, o) && (l.s.state.DownloadBlSubResp? || (l.s.state.DownloadBlSubblock? && l.s.sequence > 0))
    requires Answered(l.s, x, isLast) && SameRx(l.s, x.s) && Measured(x.sent.value, l.c, d, o.node.size)
    requires Inv(l.(s := x.s, toC := Queue(l.toC, x.sent)), d, o)
    ensures Transfer(l.(s := x.s, toC := Queue(l.toC, x.sent)), d, o)
  {
    hide Tidy, Inv, Fifth, Measured, Due;
    var n := l.(s := x.s);
    var m := l.(s := x.s, toC := Queue(l.toC, x.sent));
    var k := Consumed(l, x.s);
    FewerCommands(l, n, k, d, o.node.size);
    AnswerQueued(n, x.sent, d, o.node.size);
    Blocks(l, d, o);
    assert Pending(l) == [] && Pending(n) == [];
    assert ForServer(m) == l.toS;
  }

  // ----------------------------------------------------------------- the end

  /** Only a write of the whole data is confirmed. */
  lemma CommitConfirms(s: S.Server, n: uint16, abort: uint32, d: seq<byte>, o: S.Server)
    requires s.node == o.node && s.arg == o.arg.(last := true) && o.arg.stored && o.arg.length == |d| && |s.buf| == o.node.size
    requires n <= |s.buf| && Agrees(s.buf, n, d) && Slot(o) && S.WriteOd(s, n, abort).abort == 0
    ensures Written(S.WriteOd(s, n, abort).s.node, d, o)
  {
    hide Agrees, Written;
    var i := S.Input(true, false, 0, 0, S.ReadReply(0, [], true, 0), abort, 0);
    assert n == |d| && s.arg.access.writeable && (S.HasFunction(o) ==> abort == 0);
    WriteThrough(s, i, d, o);
  }

  lemma EndConfirms(s: S.Server, i: S.Input, d: seq<byte>, o: S.Server)
    requires Carrying(s, d, o) && s.at >= 7 && Slot(o)
    ensures var x := S.EndBlockDownload(s, i);
            && x.sent.Some? && x.s.state.Idle? && !x.s.rxNew
            && (x.sent.value[0] == ABORT || (x.sent.value[0] == 0xA1 && Final(s.rx) && Written(x.s.node, d, o)))
  {
    hide S.WriteOd, Crc.CrcOf, Specifier, Bit0, BlockUnused, Agrees, Written, Minus16, Slot, FromLe16;
    var at := s.at - BlockUnused(s.rx[0]);
    Minus16Exact(s.at, BlockUnused(s.rx[0]));
    var s1 := s.(at := at, crc := if s.crcOn then Crc.CrcOf(Take(s.buf, at), s.crc) else s.crc,
                 arg := s.arg.(last := true));
    AgreesLess(s.buf, s.at, at, d);
    if S.WriteOd(s1, at, i.write1).abort == 0 {
      CommitConfirms(s1, at, i.write1, d, o);
    }
  }

  lemma EndFrames(s: S.Server, i: S.Input, d: seq<byte>, o: S.Server)
    requires s.state.DownloadBlEnd? && Carrying(s, d, o) && s.at >= 7 && Slot(o)
    ensures var x := S.Process(s, i);
            && (x.s.state.Idle? ==> !x.s.rxNew)
            && (x.sent.Some? ==>
                  || x.sent.value[0] == ABORT
                  || (x.sent.value[0] == 0xA1 && x.s.state.Idle? && s.rxNew && Final(s.rx) && Written(x.s.node, d, o)))
  {
    hide S.EndBlockDownload, S.Start, S.SubblockResponse, Written, Agrees, Slot, Final;
    if i.operational && s.rxNew && !i.txFull && s.rx[0] != ABORT && Add16(0, i.dt) < i.timeout {
      EndConfirms(s.(tx := ZERO_FRAME, timer := Add16(0, i.dt)), i, d, o);
    }
  }

  /** The server leaves at the end, unconfirmed. */
  lemma EndLeaves(l: Link, x: S.Result, d: seq<byte>, o: S.Server)
    requires Transfer(l, d, o) && l.s.state.DownloadBlEnd? && SameRx(l.s, x.s) && x.s.state.Idle? && !x.s.rxNew && Mute(x)
    ensures Strayed(l.(s := x.s, toC := Queue(l.toC, x.sent)), d, o.node.size)
  {
    hide Tidy, Inv, Fifth, Credit, Measured;
    var n := l.(s := x.s);
    var m := l.(s := x.s, toC := Queue(l.toC, x.sent));
    var k := Consumed(l, x.s);
    FewerCommands(l, n, k, d, o.node.size);
    MuteMeasured(x, l.c, d, o.node.size);
    AnswerQueued(n, x.sent, d, o.node.size);
    CreditSame(n, m);
  }

  lemma CreditSame(l: Link, m: Link)
    requires Credit(l) && m.c.state == l.c.state && m.s == l.s && ForServer(m) == ForServer(l)
    requires Count(Pending(m), Fifth) == Count(Pending(l), Fifth)
    ensures Credit(m)
  {
    hide Fifth;
  }

  /** A confirmed end was the last frame of a client that waits for the confirmation. */
  lemma EndWins(l: Link, x: S.Result, d: seq<byte>, o: S.Server)
    requires Transfer(l, d, o) && l.s.rxNew && Final(l.s.rx) && x.s.state.Idle? && !x.s.rxNew && Written(x.s.node, d, o)
    ensures Won(l.(s := x.s, toC := Queue(l.toC, x.sent)), d, o)
  {
    hide Inv, Ahead, Final, Narrow, Calm, Clean, AllMeasured, Written;
    assert ForServer(l)[0] == l.s.rx && ForServer(l)[1..] == l.toS;
    assert ForServer(l.(s := x.s, toC := Queue(l.toC, x.sent))) == l.toS;
  }

  lemma TransferServerCall(l: Link, i: S.Input, d: seq<byte>, o: S.Server)
    requires Transfer(l, d, o) && Slot(o)
    ensures Onto(Step(l, ServerCall(i)), d, o)
  {
    hide S.Process, InBlock, Acked, Agrees, Written, Ended, Slot, Tidy, Ahead, Strayed, Won, Mute, Measured, Final, SameRx;
    var x := S.Process(l.s, i);
    var m := l.(s := x.s, toC := Queue(l.toC, x.sent));
    assert Step(l, ServerCall(i)) == m;
    ServerCalls(l, i, d, o);
    LoadingProcess(l.s, i);
    if x.sent.None? && x.s == l.s.(timer := x.s.timer) {
      TransferSame(l, m, d, o);
    } else if l.s.state.DownloadBlEnd? {
      TransferEnds(l, i, d, o);
    } else {
      LoadingStops(l.s, i);
      LoadingRoom(l.s, i) by {
        AtBound(l, d, o);
      }
      if l.s.state.DownloadBlSubblock? {
        CallListening(l.s, i);
      } else {
        CallResponding(l.s, i);
      }
      if x.s.state.Idle? {
        LoadingLeaves(l, x, d, o);
      } else {
        assert m.s.state != S.Idle;
        assert Inv(m, d, o) by { GoodNotIdle(m, d, o); }
        var isLast := l.s.state.DownloadBlSubResp? && l.s.rx[0] >= 0x80;
        AckMeasured(l, x, isLast, d, o);
        AnsweredOnto(l, x, isLast, d, o);
      }
    }
  }

  lemma GoodNotIdle(l: Link, d: seq<byte>, o: S.Server)
    requires Good(l, d, o) && !l.s.state.Idle?
    ensures Inv(l, d, o)
  {
    hide Inv, Written;
  }

  lemma AtBound(l: Link, d: seq<byte>, o: S.Server)
    requires Inv(l, d, o)
    ensures l.s.arg.stored && l.s.at <= l.s.node.size && l.s.node == o.node
  {
    hide InBlock, Acked;
  }

  /** A call that ends the transfer after the last segment. */
  lemma TransferEnds(l: Link, i: S.Input, d: seq<byte>, o: S.Server)
    requires Transfer(l, d, o) && Slot(o) && l.s.state.DownloadBlEnd?
    requires var x := S.Process(l.s, i); !(x.sent.None? && x.s == l.s.(timer := x.s.timer))
    ensures var x := S.Process(l.s, i); Onto(l.(s := x.s, toC := Queue(l.toC, x.sent)), d, o)
  {
    hide S.Process, InBlock, Acked, Agrees, Written, Slot, Tidy, Ahead, Strayed, Won, Final, SameRx;
    var x := S.Process(l.s, i);
    assert Specifier(ABORT) == 4;
    EndFrames(l.s, i, d, o);
    CallEnding(l.s, i, d, o);
    LoadingProcess(l.s, i);
    if x.sent.Some? && x.sent.value[0] != ABORT {
      EndWins(l, x, d, o);
    } else {
      EndLeaves(l, x, d, o);
    }
  }

  // ------------------------------------------------------------- the server receives

  /** The segment taken closes the block: the number acknowledged is fit for the client. */
  lemma ClosedDue(l: Link, r: S.Server, d: seq<byte>, o: S.Server)
    requires Transfer(l, d, o) && l.s.state.DownloadBlSubblock? && l.toS != [] && Seqno(l.toS[0][0]) == l.s.sequence + 1
    requires r.sequence == l.s.sequence + 1 && r.rx[0] == l.toS[0][0] && (r.rx[0] < 0x80 ==> Base(r) == Base(l.s))
    ensures Due(l.(s := r, toS := l.toS[1..]), d)
  {
    hide Inv, Ahead, Calm, Clean, AllMeasured, Ordered, Seqno;
    InOrder(l, d, o);
    var k := l.s.sequence + 1;
    if |d| > REPORT_MAX && r.rx[0] >= 0x80 {
      SegmentEnds(d, l.c.acked, k);
    }
  }

  /** A segment marked as the last one reaches the end of the data. */
  lemma SegmentEnds(d: seq<byte>, at: nat, k: byte)
    requires 0 < k < 0x80
    ensures C.Segment(d, at, k)[0] >= 0x80 ==> at + 7 * (k as int) >= |d|
  {
  }

  lemma TakesInOrder(l: Link, d: seq<byte>, o: S.Server)
    requires Transfer(l, d, o) && l.s.state.DownloadBlSubblock? && l.toS != [] && Seqno(l.toS[0][0]) == l.s.sequence + 1
    requires Inv(l.(s := S.ReceiveSegment(l.s, l.toS[0]), toS := l.toS[1..]), d, o)
    ensures Transfer(l.(s := S.ReceiveSegment(l.s, l.toS[0]), toS := l.toS[1..]), d, o)
  {
    hide S.ReceiveSegment, Tidy, Inv, Seqno, Fifth, Due, Live, Carrying, Open;
    var f, rest := l.toS[0], l.toS[1..];
    var r := S.ReceiveSegment(l.s, f);
    var m := l.(s := r, toS := rest);
    Blocks(l, d, o);
    InOrder(l, d, o);
    SegmentTaken(l, d, o);
    ClosedDue(l, r, d, o);
    LaterMeans(f);
    TakenFirst(l, d);
    assert Pending(m) == Pending(l);
    if r.rxNew {
      assert ForServer(l) == l.toS && ForServer(m) == [r.rx] + rest && ForServer(m)[1..] == rest;
      SameFirst(l, m, d, o.node.size);
    } else {
      assert ForServer(l) == l.toS && ForServer(m) == rest == Without(l.toS, 0);
      FewerCommands(l, m, 0, d, o.node.size);
    }
  }

  lemma SegmentTaken(l: Link, d: seq<byte>, o: S.Server)
    requires Transfer(l, d, o) && l.s.state.DownloadBlSubblock? && l.toS != [] && Seqno(l.toS[0][0]) == l.s.sequence + 1
    ensures var r := S.ReceiveSegment(l.s, l.toS[0]);
            && r.sequence == l.s.sequence + 1 && r.rx[0] == l.toS[0][0] && (r.rx[0] < 0x80 ==> Base(r) == Base(l.s))
            && ((r.state.DownloadBlSubResp? && r.rxNew) || (r.state.DownloadBlSubblock? && !r.rxNew))
  {
    hide S.ReceiveSegment, Tidy, Ahead, Agrees, Acked;
    InOrder(l, d, o);
    LiveSegment(l, d, o);
    TakeInOrder(l.s, l.toS[0], d, o);
  }

  lemma LiveSegment(l: Link, d: seq<byte>, o: S.Server)
    requires Transfer(l, d, o) && l.s.state.DownloadBlSubblock? && l.toS != [] && Seqno(l.toS[0][0]) == l.s.sequence + 1
    ensures Live(l.toS[0], Base(l.s), d, 0x7F)
  {
    hide Tidy, Ahead, Agrees, Acked, C.Segment, Flow;
    InOrder(l, d, o);
  }

  lemma TakesOutOfOrder(l: Link, d: seq<byte>, o: S.Server)
    requires Transfer(l, d, o) && l.s.state.DownloadBlSubblock? && l.toS != [] && Seqno(l.toS[0][0]) != l.s.sequence + 1
    requires Inv(l.(s := S.ReceiveSegment(l.s, l.toS[0]), toS := l.toS[1..]), d, o)
    ensures Transfer(l.(s := S.ReceiveSegment(l.s, l.toS[0]), toS := l.toS[1..]), d, o)
  {
    hide S.ReceiveSegment, Tidy, Inv, Seqno, Fifth, Later;
    var f, rest := l.toS[0], l.toS[1..];
    var r := S.ReceiveSegment(l.s, f);
    var m := l.(s := r, toS := rest);
    Blocks(l, d, o);
    OutOfOrder(l.s, f);
    LaterMeans(f);
    if Loose(l, d) {
      SkippedLater(l, d);
    }
    assert Count(rest, Fifth) <= Count(l.toS, Fifth);
    assert Pending(m) == Pending(l);
    if r.rxNew {
      assert ForServer(l) == l.toS && ForServer(m) == [r.rx] + rest && ForServer(m)[1..] == rest;
      SameFirst(l, m, d, o.node.size);
    } else {
      assert ForServer(l) == l.toS && ForServer(m) == rest == Without(l.toS, 0);
      FewerCommands(l, m, 0, d, o.node.size);
    }
  }

  lemma TransferReceives(l: Link, d: seq<byte>, o: S.Server)
    requires Transfer(l, d, o) && l.toS != []
    ensures Transfer(Step(l, ToServer), d, o)
  {
    hide S.ReceiveSegment, Tidy, Seqno, Fifth, InBlock, Acked, Agrees, S.Process, C.Receive, C.Download, Loose;
    var f, rest := l.toS[0], l.toS[1..];
    var m := Step(l, ToServer);
    ServerTakes(l, d, o);
    if l.s.state.DownloadBlSubblock? {
      if Seqno(f[0]) == l.s.sequence + 1 {
        TakesInOrder(l, d, o);
      } else {
        TakesOutOfOrder(l, d, o);
      }
    } else if l.s.rxNew {
      assert Count(rest, Fifth) <= Count(l.toS, Fifth);
      assert Pending(m) == Pending(l) && ForServer(m) == Without(ForServer(l), 1);
      FewerCommands(l, m, 1, d, o.node.size);
    } else {
      assert ForServer(m) == ForServer(l) == Without(ForServer(l), |ForServer(l)|);
      FewerCommands(l, m, |ForServer(l)|, d, o.node.size);
    }
  }

  // ----------------------------------------------------------------- client calls

  /** The acknowledgement due stays fit for a client that goes on in its block. */
  lemma DueTimed(l: Link, dt: uint16, timeout: uint16, txFull: bool, abort: uint32, d: seq<byte>, z: nat)
    requires Due(l, d) && Narrow(l.c, d, z) && (l.c.state.BlDownloadInProgress? || l.c.state.BlDownloadAck?)
    ensures var x := C.DownloadTimed(l.c, dt, timeout, txFull, abort); Dead(x.c) || Due(After(l, x), d)
  {
    hide C.DownloadTimed, C.Segment;
    if |d| > REPORT_MAX {
      TimedEffect(l.c, dt, timeout, txFull, abort, d);
      AckTimed(l.c, dt, timeout, txFull, abort);
    }
  }

  lemma AckTimed(c: C.Client, dt: uint16, timeout: uint16, txFull: bool, abort: uint32)
    ensures c.state.BlDownloadAck? ==>
              var x := C.DownloadTimed(c, dt, timeout, txFull, abort).c; Dead(x) || x == c.(timer := x.timer)
  {
  }

  /** A segment more is under way. */
  lemma SentAhead(l: Link, x: C.Result, d: seq<byte>)
    requires Ahead(l, d) && Moved(l.c, x, d) && !l.c.rxNew && !x.c.rxNew
    requires l.s.state.DownloadBlSubblock? || (l.s.state.DownloadBlSubResp? && (Dead(x.c) || Due(After(l, x), d)))
    requires l.c.state.BlDownloadInitiate? || l.c.state.BlDownloadInProgress? || l.c.state.BlDownloadAck?
    ensures var m := After(l, x); Dead(m.c) || Ahead(m, d)
  {
    hide Due, Plain, Fifth;
    var m := After(l, x);
    assert Pending(m) == Pending(l);
    if x.sent.Some? {
      CountAppend(l.toS, Fifth, x.sent.value);
      FreshAppend(l.toS, x.sent.value);
      CountAppend(Fresh(l.toS), Fifth, x.sent.value);
    }
  }

  /** The client takes the answer and begins the next block. */
  lemma TakenAhead(l: Link, d: seq<byte>, o: S.Server)
    requires Transfer(l, d, o) && l.s.state.DownloadBlSubblock? && l.c.rxNew
    ensures l.c.rx[0] != ABORT && !C.DownloadRx(l.c).done
    ensures var t := Taken(l); Dead(t.c) || (Ahead(t, d) && t.c.state.BlDownloadInProgress?)
  {
    hide C.DownloadRx, Flow, Agrees, Fifth, Due, Later, Tidy, Measured, Credit, Ack, Accept;
    Blocks(l, d, o);
    TakeAck(l, d);
    TidyCalm(l, d, o.node.size);
    TakeMoved(l.c, d);
    PendingTaken(l);
    FreshAppend(l.toS, l.c.rx);
  }

  /** A call of the client while the server takes in segments. */
  lemma TransferLoading(l: Link, dt: uint16, timeout: uint16, txFull: bool, d: seq<byte>, o: S.Server)
    requires Transfer(l, d, o) && Short(d, o.node.size) && 0 < |d|
    requires l.s.state.DownloadBlSubblock? || l.s.state.DownloadBlSubResp?
    ensures var x := C.Download(l.c, dt, timeout, txFull);
            !x.ret.Ok? && (Dead(x.c) || (Tidy(After(l, x), d, o.node.size) && Ahead(After(l, x), d)))
  {
    hide C.DownloadTimed, C.DownloadRx, Tidy, Inv, Due, Short, Tight, Loose, Moved, Credit;
    var z := o.node.size;
    TidyCalm(l, d, z);
    Blocks(l, d, o);
    if l.c.rxNew {
      TakenAhead(l, d, o);
      CountBound(Pending(l), Fifth);
      TakenTidy(l, d, z);
      var y, t := C.DownloadRx(l.c), Taken(l);
      TidyCalm(t, d, z);
      var x := C.DownloadTimed(t.c, dt, timeout, txFull, y.abort);
      TimedMoved(t.c, dt, timeout, txFull, y.abort, d, z);
      TimedCalm(t.c, dt, timeout, txFull, y.abort, d);
      SentTidy(t, dt, timeout, txFull, y.abort, d, z);
      if Dead(t.c) {
        DeadTimed(t.c, dt, timeout, txFull, y.abort);
      } else {
        SentAhead(t, x, d);
      }
    } else {
      var x := C.DownloadTimed(l.c, dt, timeout, txFull, 0);
      TimedMoved(l.c, dt, timeout, txFull, 0, d, z);
      TimedCalm(l.c, dt, timeout, txFull, 0, d);
      SentTidy(l, dt, timeout, txFull, 0, d, z);
      if l.s.state.DownloadBlSubResp? {
        DueTimed(l, dt, timeout, txFull, 0, d, z);
      }
      SentAhead(l, x, d);
    }
  }

  lemma TransferClientCall(l: Link, dt: uint16, timeout: uint16, txFull: bool, d: seq<byte>, o: S.Server)
    requires Transfer(l, d, o) && Short(d, o.node.size) && 0 < |d|
    ensures Onto(Step(l, ClientCall(dt, timeout, txFull)), d, o) && !C.Download(l.c, dt, timeout, txFull).ret.Ok?
  {
    hide C.Download, Tidy, Credit, InBlock, Acked, Agrees, Short, S.Process, S.Receive, C.Receive, Tight, Loose, Due, Strayed,
      Won;
    ClientCalls(l, dt, timeout, txFull, d, o);
    if l.s.state.DownloadBlEnd? {
      CallCredit(l, dt, timeout, txFull, d, o.node.size);
    } else {
      TransferLoading(l, dt, timeout, txFull, d, o);
    }
  }

  // ----------------------------------------------------------------- whole runs

  lemma TransferHears(l: Link, d: seq<byte>, o: S.Server)
    requires Transfer(l, d, o) && l.toC != []
    ensures Transfer(Step(l, ToClient), d, o)
  {
    hide Tidy, Inv, Credit, S.Process, S.Receive, C.Download, Count, Fifth, C.ReceiveSegment, Later;
    var m := Step(l, ToClient);
    TidyCalm(l, d, o.node.size);
    ClientTakes(l, d, o);
    Heard(l, d, o.node.size);
    if !l.s.state.DownloadBlEnd? {
      TransferStates(l, d, o);
      Blocks(l, d, o);
      assert Pending(l) != [];
    }
  }

  lemma TransferStates(l: Link, d: seq<byte>, o: S.Server)
    requires Transfer(l, d, o)
    ensures l.s.state.DownloadBlSubblock? || l.s.state.DownloadBlSubResp? || l.s.state.DownloadBlEnd?
  {
    hide Tidy, Ahead, InBlock, Acked, Agrees;
  }

  lemma TransferLoses(l: Link, k: nat, d: seq<byte>, o: S.Server)
    requires Transfer(l, d, o)
    ensures Transfer(l.(toS := Without(l.toS, k)), d, o)
    ensures Transfer(l.(toC := Without(l.toC, k)), d, o)
  {
    hide Tidy, Inv, Credit, Without, Count, Fifth, Fresh;
    Loses(l, k, d, o);
    Lost(l, k, d, o.node.size);
    CountLose(l.toS, Fifth, k);
    FreshLose(l.toS, Fifth, k);
    LosesNothing(k);
    assert Pending(l) == [] ==> l.toC == [];
  }

  lemma LosesNothing(k: nat)
    ensures Without([], k) == []
  {
  }

  lemma TransferStep(l: Link, e: Event, d: seq<byte>, o: S.Server)
    requires Transfer(l, d, o) && Slot(o) && Short(d, o.node.size) && 0 < |d|
    ensures Onto(Step(l, e), d, o)
  {
    hide S.Process, S.Receive, C.Download, C.Receive, Transfer, Strayed, Won, Short, Slot;
    match e
    case LoseRequest(k) => TransferLoses(l, k, d, o);
    case LoseAnswer(k) => TransferLoses(l, k, d, o);
    case ToServer => if l.toS != [] { TransferReceives(l, d, o); }
    case ToClient => if l.toC != [] { TransferHears(l, d, o); }
    case ServerCall(i) => TransferServerCall(l, i, d, o);
    case ClientCall(dt, timeout, txFull) => TransferClientCall(l, dt, timeout, txFull, d, o);
  }

  /** An idle server that gets nothing but an abort stays idle. */
  lemma AbortIdle(s: S.Server, i: S.Input)
    requires s.state.Idle? && (s.rxNew ==> s.rx[0] == ABORT)
    ensures var x := S.Process(s, i); x.s.state.Idle? && x.s.node == s.node && (x.s.rxNew ==> s.rxNew && x.s.rx == s.rx)
  {
    hide S.Start;
  }

  lemma ConfirmedDownload(c: C.Client, dt: uint16, timeout: uint16, txFull: bool)
    requires c.state.BlDownloadCrcAck?
    ensures var x := C.Download(c, dt, timeout, txFull);
            (x.c.state.BlDownloadCrcAck? || Dead(x.c)) && (x.sent.Some? ==> x.sent.value[0] == ABORT)
  {
    hide C.SendDownloadSegment, C.SendBlockSegment, C.SendBlockEnd, C.BlockAck, Specifier, Bit0, Toggle, FrameIndex, FrameValue;
  }

  lemma WonServerCall(l: Link, i: S.Input, d: seq<byte>, o: S.Server)
    requires Won(l, d, o)
    ensures Won(Step(l, ServerCall(i)), d, o)
  {
    hide S.Process, C.Download, C.Receive, S.Receive, Written;
    var m := Step(l, ServerCall(i));
    AbortIdle(l.s, i) by {
      assert l.s.rxNew ==> ForServer(l)[0] == l.s.rx;
    }
    assert ForServer(m) == ForServer(l) || ForServer(m) == ForServer(l)[1..];
  }

  lemma WonClientCall(l: Link, dt: uint16, timeout: uint16, txFull: bool, d: seq<byte>, o: S.Server)
    requires Won(l, d, o)
    ensures var m := Step(l, ClientCall(dt, timeout, txFull)); Dead(m.c) || Won(m, d, o)
  {
    hide S.Process, C.Download, C.Receive, S.Receive, Written;
    ConfirmedDownload(l.c, dt, timeout, txFull);
    ForServerSent(l, C.Download(l.c, dt, timeout, txFull));
  }

  lemma WonStep(l: Link, e: Event, d: seq<byte>, o: S.Server)
    requires Won(l, d, o)
    ensures var m := Step(l, e); Dead(m.c) || Won(m, d, o)
  {
    hide S.Process, C.Download, Written, S.ReceiveSegment, C.ReceiveSegment;
    var m := Step(l, e);
    match e
    case ServerCall(i) => WonServerCall(l, i, d, o);
    case ClientCall(dt, timeout, txFull) => WonClientCall(l, dt, timeout, txFull, d, o);
    case LoseRequest(k) => assert forall f :: f in ForServer(m) ==> f in ForServer(l); AbortsIn(ForServer(l), ForServer(m));
    case ToServer => assert forall f :: f in ForServer(m) ==> f in ForServer(l); AbortsIn(ForServer(l), ForServer(m));
    case LoseAnswer(k) =>
    case ToClient =>
  }

  lemma AbortsIn(q: seq<Frame>, r: seq<Frame>)
    requires Aborts(q) && forall f :: f in r ==> f in q
    ensures Aborts(r)
  {
    assert forall i :: 0 <= i < |r| ==> r[i] in r;
  }

  /** A client that has given up, or is done, stays so and reports no success. */
  lemma DeadStep(l: Link, e: Event)
    requires Dead(l.c)
    ensures Dead(Step(l, e).c)
  {
    hide S.Process, S.Receive, C.Download;
    if e.ClientCall? {
      DeadDownload(l.c, e.dt, e.timeout, e.txFull);
    }
  }

  lemma DeadSilent(c: C.Client, dt: uint16, timeout: uint16, txFull: bool)
    requires Dead(c)
    ensures !C.Download(c, dt, timeout, txFull).ret.Ok?
  {
  }

  // ------------------------------------------------------------- from the request on

  lemma AbortsCount(q: seq<Frame>)
    requires Aborts(q)
    ensures Count(q, Fifth) == 0 && Clean(q) && NoEnd(q)
  {
    assert Specifier(ABORT) == 4;
    CountNone(q, Fifth);
  }

  /** What holds of a client that waits for the answer to its request. */
  lemma WaitingTidy(l: Link, d: seq<byte>, z: nat)
    requires Aborts(ForServer(l)) && Calm(l.c, d) && l.c.state.BlDownloadInitiate? && AllMeasured(l, d, z)
    ensures Tidy(l, d, z)
  {
    hide Measured, Calm, Clean, NoEnd;
    AbortsCount(ForServer(l));
  }

  /** The request is lost, or declined. */
  lemma NotAgreed(l: Link, d: seq<byte>, z: nat)
    requires Aborts(ForServer(l)) && Calm(l.c, d) && l.c.state.BlDownloadInitiate? && Aborts(Pending(l)) && l.s.state.Idle?
    ensures Strayed(l, d, z)
  {
    hide Tidy, Clean, NoEnd, Calm, Fifth;
    AbortsCount(Pending(l));
    AbortsCount(ForServer(l));
    CountZero(Pending(l), Fifth);
    NotFifth(l, d, z);
    WaitingTidy(l, d, z);
  }

  lemma NotFifth(l: Link, d: seq<byte>, z: nat)
    requires forall i :: 0 <= i < |Pending(l)| ==> !Fifth(Pending(l)[i])
    ensures AllMeasured(l, d, z)
  {
    hide Fifth;
  }

  /** The server has agreed. */
  lemma AgreedTransfer(l: Link, i: S.Input, d: seq<byte>, o: S.Server)
    requires Asked(l, d, o) && !Dead(l.c) && l.s.rxNew && Agreed(l.s, S.Process(l.s, i), o.arg, |d|) && 0 < |d| && o.arg.stored
    requires Inv(Step(l, ServerCall(i)), d, o)
    ensures Transfer(Step(l, ServerCall(i)), d, o)
  {
    hide S.Process, S.Receive, C.Download, C.Receive, IsRequest, Tidy, Inv, Clean, NoEnd, Fifth;
    var m := Step(l, ServerCall(i));
    assert Pending(m) == [S.Process(l.s, i).sent.value] && ForServer(m) == l.toS;
    WaitingTidy(m, d, o.node.size);
    AbortsCount(l.toS);
  }

  lemma AskedServerOnto(l: Link, i: S.Input, d: seq<byte>, o: S.Server)
    requires Asked(l, d, o) && Named(o) && 0 < |d| && !Dead(l.c)
    ensures var m := Step(l, ServerCall(i)); Asked(m, d, o) || Transfer(m, d, o) || Strayed(m, d, o.node.size)
  {
    hide S.Process, S.Lookup, Agreed, C.Download, S.Receive, C.Receive, FrameIndex, FrameValue, Transfer, Strayed;
    var x := S.Process(l.s, i);
    if l.s.rxNew {
      RequestEffect(l.s, i, o.arg.index, o.arg.sub, |d|, o.arg);
      RequestTaken(l.s, i);
      if Agreed(l.s, x, o.arg, |d|) {
        AgreedFine(l, i, d, o);
        AgreedInvariant(l, i, d, o);
        AgreedTransfer(l, i, d, o);
      } else if !x.s.rxNew {
        var m := Step(l, ServerCall(i));
        assert ForServer(m) == l.toS && Pending(m) == Queue([], x.sent);
        NotAgreed(m, d, o.node.size);
      }
    } else {
      IdleCall(l.s, i);
    }
  }

  lemma AgreedInvariant(l: Link, i: S.Input, d: seq<byte>, o: S.Server)
    requires Agreed(l.s, S.Process(l.s, i), o.arg, |d|) && Fine(Step(l, ServerCall(i)), d, o)
    ensures Inv(Step(l, ServerCall(i)), d, o)
  {
    hide S.Process, S.Receive, C.Download, C.Receive, Inv, Written, NoWrite, Calm;
  }

  lemma AskedOnto(l: Link, e: Event, d: seq<byte>, o: S.Server)
    requires Asked(l, d, o) && Named(o) && 0 < |d| && !Dead(l.c)
    ensures var m := Step(l, e); Asked(m, d, o) || Onto(m, d, o)
  {
    hide S.Process, S.Lookup, IsRequest, C.Download, C.Receive, Transfer, Strayed, Won;
    match e
    case ServerCall(i) => AskedServerOnto(l, i, d, o);
    case LoseRequest(k) => AskedLoses(l, k, d, o);
    case LoseAnswer(k) =>
    case ToServer =>
    case ToClient =>
    case ClientCall(dt, timeout, txFull) =>
      WaitingDownload(l.c, dt, timeout, txFull);
      var f := C.Download(l.c, dt, timeout, txFull).sent;
      if !l.s.rxNew && f.Some? {
        assert Queue(l.toS, f)[1..] == Queue(l.toS[1..], f);
      }
  }

  lemma AskedLoses(l: Link, k: nat, d: seq<byte>, o: S.Server)
    requires Asked(l, d, o) && !Dead(l.c)
    ensures var m := l.(toS := Without(l.toS, k)); Asked(m, d, o) || Strayed(m, d, o.node.size)
  {
    hide IsRequest, Strayed;
    var m := l.(toS := Without(l.toS, k));
    if !l.s.rxNew {
      if k == 0 {
        assert m.toS == l.toS[1..] && ForServer(m) == m.toS && Pending(m) == [];
        NotAgreed(m, d, o.node.size);
      } else {
        assert m.toS[0] == l.toS[0] && m.toS[1..] == Without(l.toS[1..], k - 1);
      }
    }
  }

  lemma WholeStep(l: Link, e: Event, d: seq<byte>, o: S.Server)
    requires (Asked(l, d, o) || Onto(l, d, o)) && Named(o) && (o.arg.access.writeable ==> Slot(o))
    requires Short(d, o.node.size) && 0 < |d|
    ensures var m := Step(l, e); Asked(m, d, o) || Onto(m, d, o)
  {
    hide Asked, Tidy, Inv, Ahead, Strayed, Won, Step, Named, Slot, Short;
    if Dead(l.c) {
      DeadStep(l, e);
    } else if Asked(l, d, o) {
      AskedOnto(l, e, d, o);
    } else if Transfer(l, d, o) {
      TransferStep(l, e, d, o);
    } else if Strayed(l, d, o.node.size) {
      StrayedStep(l, e, d, o.node.size);
    } else {
      WonStep(l, e, d, o);
    }
  }

  lemma {:induction false} WholeOnto(l: Link, run: seq<Event>, d: seq<byte>, o: S.Server)
    requires (Asked(l, d, o) || Onto(l, d, o)) && Named(o) && (o.arg.access.writeable ==> Slot(o))
    requires Short(d, o.node.size) && 0 < |d|
    ensures var m := Whole(l, run); Asked(m, d, o) || Onto(m, d, o)
    decreases |run|
  {
    hide Asked, Onto, Step, Named, Slot, Short;
    if run != [] {
      WholeStep(l, run[0], d, o);
      WholeOnto(Step(l, run[0]), run[1..], d, o);
    }
  }

  /** Only a client that has won reports success. */
  lemma OkWon(l: Link, dt: uint16, timeout: uint16, txFull: bool, d: seq<byte>, o: S.Server)
    requires (Asked(l, d, o) || Onto(l, d, o)) && Short(d, o.node.size) && 0 < |d|
    ensures C.Download(l.c, dt, timeout, txFull).ret.Ok? ==> Won(l, d, o)
  {
    hide C.Download, Transfer, Won, Short, Tidy, Credit;
    if Dead(l.c) {
      DeadSilent(l.c, dt, timeout, txFull);
    } else if Asked(l, d, o) {
      WaitingSilent(l.c, dt, timeout, txFull);
    } else if Transfer(l, d, o) {
      TransferClientCall(l, dt, timeout, txFull, d, o);
    } else if Strayed(l, d, o.node.size) {
      CallCredit(l, dt, timeout, txFull, d, o.node.size);
    }
  }

  lemma WaitingSilent(c: C.Client, dt: uint16, timeout: uint16, txFull: bool)
    requires c.state.BlDownloadInitiate? && !c.rxNew
    ensures !C.Download(c, dt, timeout, txFull).ret.Ok?
  {
  }

  lemma RequestAsked(s: S.Server, c: C.Client, index: uint16, sub: byte, d: seq<byte>, arg: S.Arg)
    requires Ready(s, index, sub, arg) && C.PST < |d| < 0x1_0000_0000
    ensures Asked(RequestSent(s, c, index, sub, d), d, s.(arg := arg)) && Named(s.(arg := arg))
  {
    hide C.InitiateDownload, IsRequest;
    RequestFrame(c, index, sub, d);
    assert RequestSent(s, c, index, sub, d).toS[1..] == [];
  }

  /**
    A block download of d to an object of this server, from the request on and
    over whole runs, whatever frames are lost and whenever the two sides are
    called: when a call of the client returns success, the object holds d.
   */
  lemma OkMeansWritten(s: S.Server, c: C.Client, index: uint16, sub: byte, d: seq<byte>, arg: S.Arg, run: seq<Event>,
                       dt: uint16, timeout: uint16, txFull: bool)
    requires Ready(s, index, sub, arg) && !(index == 0x1003 && sub == 0) && C.PST < |d| < 0x1_0000_0000
    requires Short(d, s.node.size)
    ensures var l := Whole(RequestSent(s, c, index, sub, d), run);
            C.Download(l.c, dt, timeout, txFull).ret.Ok? ==> Written(l.s.node, d, s.(arg := arg))
  {
    hide C.InitiateDownload, S.Lookup, Whole, Written, C.Download, Slot, Short;
    var l, o := RequestSent(s, c, index, sub, d), s.(arg := arg);
    RequestAsked(s, c, index, sub, d, arg);
    if arg.access.writeable {
      FoundSlot(s, index, sub, arg);
    }
    WholeOnto(l, run, d, o);
    OkWon(Whole(l, run), dt, timeout, txFull, d, o);
  }
}
