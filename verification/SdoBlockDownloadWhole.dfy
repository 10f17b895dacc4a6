/**
  Block download over whole runs, that is also after the server has left the
  transfer while frames of it are still under way. A late segment then reaches an
  idle server, which reads its first byte as a command. Up to 224 bytes no such
  byte is a write command, and the dictionary ends untouched or with the whole
  data; from 225 bytes on there is a run that writes to another object.
 */
module SdoBlockDownloadWhole {
  import opened Can
  import opened SdoTypes
  import Crc
  import S = SdoServer
  import C = SdoClient
  import opened SdoCalls
  import opened SdoBlockDownload
  import opened SdoBlockDownloadStart

  /** Every event of the run, whatever state the server is in. */
  function Whole(l: Link, run: seq<Event>): (r: Link)
    decreases |run|
  {
    if run == [] then l else Whole(Step(l, run[0]), run[1..])
  }

  const WHOLE_MAX := 224

  /** To an idle server, neither the start of a download nor that of a block download. */
  predicate NoWrite(b: byte) {
    Specifier(b) != 1 && (Specifier(b) == 6 ==> Bit0(b))
  }

  predicate NoWrites(q: seq<Frame>) {
    forall i :: 0 <= i < |q| ==> NoWrite(q[i][0])
  }

  // -------------------------------------------------------------------- the client

  /** A client in a block download of d, or done with it. */
  predicate Calm(c: C.Client, d: seq<byte>) {
    && c.buf == d
    && (c.state.NotDefined? || c.state.Aborting? || c.state.BlDownloadInitiate? || c.state.BlDownloadInProgress?
        || c.state.BlDownloadAck? || c.state.BlDownloadCrc? || c.state.BlDownloadCrcAck?)
    && (c.state.BlDownloadInProgress? ==> 7 * (c.block.seqno as int) <= c.offset < |d|)
  }

  lemma CalmRx(c: C.Client, d: seq<byte>)
    requires Calm(c, d) && 0 < |d|
    ensures Calm(C.DownloadRx(c).c, d)
  {
    hide Specifier, Bit0, Bit1, FrameIndex;
  }

  lemma SegmentNoWrite(k: byte, done: bool)
    requires k <= 31 || (k <= 32 && done)
    ensures NoWrite(if done && k < 0x80 then k + 0x80 else k)
  {
  }

  lemma EndNoWrite(unused: SegmentLength, crc: uint16)
    ensures NoWrite(C.EndFrame(unused, crc)[0])
  {
  }

  lemma CalmTx(c: C.Client, abort: uint32, d: seq<byte>)
    requires Calm(c, d) && |d| <= WHOLE_MAX
    ensures var x := C.DownloadTx(c, abort); Calm(x.c, d) && (x.sent.Some? ==> NoWrite(x.sent.value[0]))
  {
    hide NoWrite, C.EndFrame, Checksum;
    assert NoWrite(ABORT) by {
      AbortNoWrite();
    }
    if c.state.BlDownloadInProgress? {
      var k := (c.block.seqno + 1) % 0x100;
      SegmentNoWrite(k, c.offset + 7 >= |d|);
    } else if c.state.BlDownloadCrc? {
      EndNoWrite(c.block.unused, Checksum(c.buf));
    }
  }

  lemma AbortNoWrite()
    ensures NoWrite(ABORT)
  {
  }

  /** Whatever it receives, the client sends nothing that starts a write. */
  lemma CalmDownload(c: C.Client, dt: uint16, timeout: uint16, txFull: bool, d: seq<byte>)
    requires Calm(c, d) && 0 < |d| <= WHOLE_MAX
    ensures var x := C.Download(c, dt, timeout, txFull); Calm(x.c, d) && (x.sent.Some? ==> NoWrite(x.sent.value[0]))
  {
    hide NoWrite, C.DownloadRx, C.DownloadTx;
    AbortNoWrite();
    if !c.rxNew {
      CalmTimed(c, dt, timeout, txFull, 0, d);
    } else if c.rx[0] != ABORT {
      CalmRx(c, d);
      var x := C.DownloadRx(c);
      CalmTimed(x.c.(timer := 0, rxNew := false), dt, timeout, txFull, x.abort, d);
    }
  }

  lemma CalmTimed(c: C.Client, dt: uint16, timeout: uint16, txFull: bool, abort: uint32, d: seq<byte>)
    requires Calm(c, d) && |d| <= WHOLE_MAX
    ensures var x := C.DownloadTimed(c, dt, timeout, txFull, abort);
            Calm(x.c, d) && (x.sent.Some? ==> NoWrite(x.sent.value[0]))
  {
    hide NoWrite, C.DownloadTx;
    AbortNoWrite();
    var c1 := if c.timer < timeout then c.(timer := Add16(c.timer, dt)) else c;
    CalmTx(c1, abort, d);
  }

  // -------------------------------------------------------------------- the server

  /** The server is idle or in an upload. */
  predicate Reading(s: S.Server) {
    s.state.Idle? || s.state.UploadSegmented? || s.state.UploadBlInitiate2? || s.state.UploadBlSubblock? || s.state.UploadBlEnd?
  }

  /** The received frame is still that of s, or freed. */
  predicate SameRx(s: S.Server, r: S.Server) {
    r.rx == s.rx && (r.rxNew ==> s.rxNew)
  }

  /** Nothing was written. */
  predicate Kept(s: S.Server, r: S.Server) {
    r.node == s.node && SameRx(s, r) && Reading(r)
  }

  lemma KeptSegment(s: S.Server, i: S.Input)
    requires s.state.UploadSegmented?
    ensures Kept(s, S.SegmentUpload(s, i).s)
  {
    hide S.ReadOd, Specifier, Toggle, Minus16, Blit;
  }

  lemma KeptUpload(s: S.Server)
    ensures Kept(s, S.InitiateUpload(s).s)
    ensures Kept(s, S.InitiateBlockUpload(s).s)
  {
    hide Blit, Checksum;
  }

  lemma KeptSending(s: S.Server)
    requires s.state.UploadBlSubblock?
    ensures Kept(s, S.SendBlockSegment(s).s)
  {
    hide Blit, Minus16;
  }

  lemma KeptStart(s: S.Server)
    ensures Kept(s, S.StartBlockUpload(s).s)
  {
    hide S.SendBlockSegment, Specifier, Subcommand;
    KeptSending(s.(at := 0, sequence := 0, end := false, rxNew := false, state := S.UploadBlSubblock));
  }

  lemma KeptConfirmed(s: S.Server, i: S.Input)
    requires s.state.UploadBlSubblock?
    ensures Kept(s, S.Confirmed(s, i).s)
  {
    hide S.SendBlockSegment, S.Refill, Crc.CrcOf;
    var s1 := s.(blksize := s.rx[2]);
    if !s.arg.stored && s.arg.length < 7 * s1.blksize && !s.arg.last {
      var a := S.Refill(s1, s.arg.length, i.read);
      if a.abort == 0 {
        var n := s.arg.length;
        var more := if n <= a.s.arg.length <= |a.s.buf| then a.s.buf[n..a.s.arg.length] else [];
        KeptNext(a.s.(crc := if s.crcOn then Crc.CrcOf(more, s.crc) else s.crc));
      }
    } else {
      KeptNext(s1);
    }
  }

  lemma KeptNext(s: S.Server)
    requires s.state.UploadBlSubblock?
    ensures Kept(s, S.NextBlock(s).s)
  {
    hide S.SendBlockSegment;
    KeptSending(s.(at := 0, sequence := 0, end := false, rxNew := false));
  }

  lemma KeptSubblock(s: S.Server, i: S.Input)
    requires s.state.UploadBlSubblock?
    ensures Kept(s, S.SubblockUpload(s, i).s)
  {
    hide S.SendBlockSegment, S.Confirmed, S.Shift, Specifier, Subcommand;
    KeptSending(s);
    ShiftKeeps(s, s.rx[1]);
    KeptConfirmed(S.Shift(s, s.rx[1]), i);
  }

  lemma ShiftKeeps(s: S.Server, k: byte)
    ensures var r := S.Shift(s, k); r.node == s.node && r.rx == s.rx && r.rxNew == s.rxNew && r.state == s.state
  {
  }

  lemma KeptAct(s: S.Server, i: S.Input)
    requires Reading(s) && !s.state.Idle?
    ensures Kept(s, S.Act(s, i, s.state).s)
  {
    hide S.SegmentUpload, S.StartBlockUpload, S.SubblockUpload, Specifier, Bit0;
    if s.state.UploadSegmented? {
      KeptSegment(s, i);
    } else if s.state.UploadBlInitiate2? {
      KeptStart(s);
    } else if s.state.UploadBlSubblock? {
      KeptSubblock(s, i);
    }
  }

  /** A request that is not a write leaves the dictionary alone. */
  lemma KeptRequest(s: S.Server, i: S.Input)
    requires s.state.Idle? && NoWrite(s.rx[0])
    ensures Kept(s, S.Start(s, i).s)
  {
    hide S.InitTransfer, S.StartUpload, Specifier, Bit0, FrameIndex, S.OpenBlock, S.Offer, S.InitiateDownload,
      S.SegmentDownload, S.SubblockResponse, S.EndBlockDownload, S.InitiateUpload, S.SegmentUpload,
      S.InitiateBlockUpload, S.StartBlockUpload, S.SubblockUpload, S.EndBlockUpload;
    var a := S.InitTransfer(s, FrameIndex(s.rx), s.rx[3]);
    if a.abort == 0 {
      KeptReads(a.s, i, Specifier(s.rx[0]) == 5);
    }
  }

  lemma KeptReads(s: S.Server, i: S.Input, block: bool)
    requires s.state.Idle?
    ensures Kept(s, S.StartUpload(s, i, block).s)
  {
    hide S.ReadOd, S.InitiateUpload, S.InitiateBlockUpload, S.InitiateDownload, S.SegmentDownload, S.SubblockResponse,
      S.EndBlockDownload, S.SegmentUpload, S.InitiateBlockDownload, S.StartBlockUpload, S.SubblockUpload, S.EndBlockUpload;
    var b := S.ReadOd(s, 0, i.read).s;
    KeptUpload(if b.timer < i.timeout then b.(timer := Add16(b.timer, i.dt)) else b);
  }

  /** A call of a server that is idle or in an upload. */
  lemma KeptProcess(s: S.Server, i: S.Input)
    requires Reading(s) && (s.rxNew ==> NoWrite(s.rx[0]))
    ensures Kept(s, S.Process(s, i).s)
  {
    hide S.Start, S.Act, NoWrite, S.SubblockResponse;
    if i.operational && !i.txFull && (s.rxNew || s.state.UploadBlSubblock?) {
      var s1 := s.(tx := ZERO_FRAME, timer := if s.state.UploadBlSubblock? then s.timer else 0);
      if s.state.Idle? {
        KeptRequest(s1, i);
      } else {
        KeptAct(if s1.timer < i.timeout then s1.(timer := Add16(s1.timer, i.dt)) else s1, i);
      }
    }
  }

  /** A call of a server in the block download. */
  lemma LoadingProcess(s: S.Server, i: S.Input)
    requires s.state.DownloadBlSubblock? || s.state.DownloadBlSubResp? || s.state.DownloadBlEnd?
    ensures SameRx(s, S.Process(s, i).s)
  {
    hide S.Start, S.Timed;
    LoadingTimed(s.(tx := ZERO_FRAME, timer := 0), i, s.state);
    LoadingTimed(s, i, S.Idle);
  }

  lemma LoadingTimed(s: S.Server, i: S.Input, todo: S.State)
    requires todo.Idle? || todo.DownloadBlSubblock? || todo.DownloadBlSubResp? || todo.DownloadBlEnd?
    ensures SameRx(s, S.Timed(s, i, todo).s)
  {
    hide S.SubblockResponse, S.EndBlockDownload;
    var s1 := if s.timer < i.timeout then s.(timer := Add16(s.timer, i.dt)) else s;
    ResponseSameRx(s1, i, false);
    ResponseSameRx(s1, i, s.rx[0] >= 0x80);
    EndSameRx(s1, i);
  }

  lemma ResponseSameRx(s: S.Server, i: S.Input, isLast: bool)
    ensures SameRx(s, S.SubblockResponse(s, i, isLast).s)
  {
    hide S.WriteOd, S.Segments, Crc.CrcOf;
  }

  lemma EndSameRx(s: S.Server, i: S.Input)
    ensures SameRx(s, S.EndBlockDownload(s, i).s)
  {
    hide S.WriteOd, Crc.CrcOf, Specifier, Bit0, BlockUnused, Minus16;
  }

  // -------------------------------------------------------------------- whole runs

  /** In the transfer, or behind it with nothing but d written; no write command is under way. */
  predicate Fine(l: Link, d: seq<byte>, o: S.Server) {
    && NoWrites(l.toS) && Calm(l.c, d) && (l.s.rxNew ==> NoWrite(l.s.rx[0]))
    && (Inv(l, d, o) || (Reading(l.s) && (l.s.node == o.node || Written(l.s.node, d, o))))
  }

  lemma NoWritesQueue(q: seq<Frame>, f: Option<Frame>)
    requires NoWrites(q) && (f.Some? ==> NoWrite(f.value[0]))
    ensures NoWrites(Queue(q, f))
  {
    hide NoWrite;
  }

  lemma NoWritesWithout(q: seq<Frame>, k: nat)
    requires NoWrites(q)
    ensures NoWrites(Without(q, k))
  {
    hide NoWrite;
  }

  /** A frame that starts no write arrives. */
  lemma ReceiveNoWrite(s: S.Server, f: Frame)
    requires NoWrite(f[0]) && (s.rxNew ==> NoWrite(s.rx[0]))
    ensures var r := S.Receive(s, f);
            && (r.rxNew ==> NoWrite(r.rx[0])) && r.node == s.node
            && (Reading(s) ==> Reading(r))
  {
    hide NoWrite, Seqno, Blit;
  }

  lemma CalmReceive(c: C.Client, f: Frame, d: seq<byte>)
    requires Calm(c, d)
    ensures Calm(C.Receive(c, f), d)
  {
  }

  lemma FineServerCall(l: Link, i: S.Input, d: seq<byte>, o: S.Server)
    requires Fine(l, d, o)
    ensures Fine(Step(l, ServerCall(i)), d, o)
  {
    hide S.Process, Written, Calm, NoWrite, C.Download, S.Receive, C.Receive, Inv;
    if Inv(l, d, o) {
      ServerCalls(l, i, d, o);
      LoadingProcess(l.s, i) by {
        InvState(l, d, o);
      }
    } else {
      KeptProcess(l.s, i);
    }
  }

  lemma InvState(l: Link, d: seq<byte>, o: S.Server)
    requires Inv(l, d, o)
    ensures l.s.state.DownloadBlSubblock? || l.s.state.DownloadBlSubResp? || l.s.state.DownloadBlEnd?
  {
  }

  lemma FineStep(l: Link, e: Event, d: seq<byte>, o: S.Server)
    requires Fine(l, d, o) && 0 < |d| <= WHOLE_MAX
    ensures Fine(Step(l, e), d, o)
  {
    hide S.Process, Written, Calm, NoWrite, C.Download, S.Receive, C.Receive, Inv;
    match e
    case ServerCall(i) => FineServerCall(l, i, d, o);
    case LoseRequest(k) =>
      NoWritesWithout(l.toS, k);
      if Inv(l, d, o) { Loses(l, k, d, o); }
    case LoseAnswer(k) =>
      if Inv(l, d, o) { Loses(l, k, d, o); }
    case ToServer =>
      if l.toS != [] {
        ReceiveNoWrite(l.s, l.toS[0]);
        if Inv(l, d, o) { ServerTakes(l, d, o); }
      }
    case ToClient =>
      if l.toC != [] {
        CalmReceive(l.c, l.toC[0], d);
        if Inv(l, d, o) { ClientTakes(l, d, o); }
      }
    case ClientCall(dt, timeout, txFull) =>
      CalmDownload(l.c, dt, timeout, txFull, d);
      NoWritesQueue(l.toS, C.Download(l.c, dt, timeout, txFull).sent);
      if Inv(l, d, o) { ClientCalls(l, dt, timeout, txFull, d, o); }
  }

  // ------------------------------------------------------------- from the request on

  predicate Aborts(q: seq<Frame>) {
    forall i :: 0 <= i < |q| ==> q[i][0] == ABORT
  }

  /** The request is on its way, or with the server; a client that gave up may have sent aborts behind it. */
  predicate Asked(l: Link, d: seq<byte>, o: S.Server) {
    && l.s.state.Idle? && l.s.node == o.node && |l.s.buf| == o.node.size && l.toC == []
    && l.c.buf == d && !l.c.rxNew && (l.c.state.BlDownloadInitiate? || Dead(l.c))
    && (if l.s.rxNew then IsRequest(l.s.rx, o.arg.index, o.arg.sub, |d|) && Aborts(l.toS)
        else l.toS != [] && IsRequest(l.toS[0], o.arg.index, o.arg.sub, |d|) && Aborts(l.toS[1..]))
  }

  /** The object of o, not a domain, is the one the request names. */
  predicate Named(o: S.Server) {
    S.Lookup(o.node, o.arg.index, o.arg.sub) == S.Found(o.arg) && o.arg.stored
  }

  lemma AbortsNoWrites(q: seq<Frame>)
    requires Aborts(q)
    ensures NoWrites(q) && AllLater(q)
  {
    hide NoWrite;
    AbortNoWrite();
    SeqnoOfAbort();
  }

  /** The call in which the server takes up the request, declines it, or puts it off. */
  lemma RequestTaken(s: S.Server, i: S.Input)
    requires s.state.Idle? && s.rxNew && s.rx[0] == 0xC6
    ensures var x := S.Process(s, i); !x.s.rxNew || (x.sent.None? && x.s == s.(timer := x.s.timer))
  {
    hide S.InitTransfer, FrameIndex, S.OpenBlock, S.Offer, S.SubblockResponse, S.StartUpload;
    assert Specifier(s.rx[0]) == 6 && !Bit0(s.rx[0]);
    if i.operational && !i.txFull {
      var s1 := s.(tx := ZERO_FRAME, timer := 0);
      var a := S.InitTransfer(s1, FrameIndex(s.rx), s.rx[3]);
      var s2 := a.s.(timer := Add16(0, i.dt));
      OpenBlockTakes(S.Offer(s2));
    }
  }

  lemma OpenBlockTakes(s: S.Server)
    ensures !S.OpenBlock(s).s.rxNew
  {
  }

  /** The server has agreed: the invariant of the transfer holds, also if the client gave up meanwhile. */
  lemma AgreedFine(l: Link, i: S.Input, d: seq<byte>, o: S.Server)
    requires Asked(l, d, o) && l.s.rxNew && Agreed(l.s, S.Process(l.s, i), o.arg, |d|) && 0 < |d| && o.arg.stored
    ensures Fine(Step(l, ServerCall(i)), d, o)
  {
    hide S.Process, S.Receive, C.Download, C.Receive, NoWrite, IsRequest, Sending, Ack;
    AbortsNoWrites(l.toS);
    var m := Step(l, ServerCall(i));
    assert Pending(m) == [S.Process(l.s, i).sent.value];
    assert Agrees(m.s.buf, 0, d);
    assert Acked(m, d);
  }

  lemma AskedServerCall(l: Link, i: S.Input, d: seq<byte>, o: S.Server)
    requires Asked(l, d, o) && Named(o) && 0 < |d|
    ensures var m := Step(l, ServerCall(i)); Asked(m, d, o) || Fine(m, d, o)
  {
    hide S.Process, S.Lookup, Agreed, NoWrite, Written, C.Download, S.Receive, C.Receive, Inv, FrameIndex, FrameValue;
    if l.s.rxNew {
      RequestEffect(l.s, i, o.arg.index, o.arg.sub, |d|, o.arg);
      RequestTaken(l.s, i);
      if Agreed(l.s, S.Process(l.s, i), o.arg, |d|) {
        AgreedFine(l, i, d, o);
      } else if !S.Process(l.s, i).s.rxNew {
        AbortsNoWrites(l.toS);
      }
    } else {
      IdleCall(l.s, i);
    }
  }

  /** A client that waits for the answer, or gave up, sends nothing but aborts. */
  lemma WaitingDownload(c: C.Client, dt: uint16, timeout: uint16, txFull: bool)
    requires !c.rxNew && (c.state.BlDownloadInitiate? || Dead(c))
    ensures var x := C.Download(c, dt, timeout, txFull);
            && !x.c.rxNew && x.c.buf == c.buf && (x.c.state.BlDownloadInitiate? || Dead(x.c))
            && (x.sent.Some? ==> x.sent.value[0] == ABORT)
  {
  }

  lemma AskedLose(l: Link, k: nat, d: seq<byte>, o: S.Server)
    requires Asked(l, d, o)
    ensures var m := l.(toS := Without(l.toS, k)); Asked(m, d, o) || Fine(m, d, o)
  {
    hide IsRequest, NoWrite, Inv, Written;
    var m := l.(toS := Without(l.toS, k));
    if !l.s.rxNew {
      if k == 0 {
        assert m.toS == l.toS[1..];
        AbortsNoWrites(m.toS);
      } else {
        assert m.toS[0] == l.toS[0] && m.toS[1..] == Without(l.toS[1..], k - 1);
      }
    }
  }

  lemma AskedStep(l: Link, e: Event, d: seq<byte>, o: S.Server)
    requires Asked(l, d, o) && Named(o) && 0 < |d|
    ensures var m := Step(l, e); Asked(m, d, o) || Fine(m, d, o)
  {
    hide S.Process, S.Lookup, IsRequest, Fine, C.Download, C.Receive;
    match e
    case ServerCall(i) => AskedServerCall(l, i, d, o);
    case LoseRequest(k) => AskedLose(l, k, d, o);
    case LoseAnswer(k) =>
    case ToServer =>
    case ToClient =>
    case ClientCall(dt, timeout, txFull) =>
      WaitingDownload(l.c, dt, timeout, txFull);
      var f := C.Download(l.c, dt, timeout, txFull).sent;
      if !l.s.rxNew && f.Some? {
        assert Queue(l.toS, f)[1..] == Queue(l.toS[1..], f);
      }
  }

  lemma {:induction false} WholeFine(l: Link, run: seq<Event>, d: seq<byte>, o: S.Server)
    requires (Asked(l, d, o) || Fine(l, d, o)) && Named(o) && 0 < |d| <= WHOLE_MAX
    ensures var r := Whole(l, run); Asked(r, d, o) || Fine(r, d, o)
    decreases |run|
  {
    hide Asked, Fine, Step, Named;
    if run != [] {
      if Asked(l, d, o) {
        AskedStep(l, run[0], d, o);
      } else {
        FineStep(l, run[0], d, o);
      }
      WholeFine(Step(l, run[0]), run[1..], d, o);
    }
  }

  /** The client has just sent the request of a block download of d. */
  function RequestSent(s: S.Server, c: C.Client, index: uint16, sub: byte, d: seq<byte>): (l: Link)
    requires C.PST < |d| < 0x1_0000_0000
  {
    var x := C.InitiateDownload(c, index, sub, d, true);
    Link(s, x.c, [x.sent.value], [])
  }

  /** An idle server, and an object of it that is not a domain. */
  predicate Ready(s: S.Server, index: uint16, sub: byte, arg: S.Arg) {
    && s.state.Idle? && !s.rxNew && |s.buf| == s.node.size
    && S.Lookup(s.node, index, sub) == S.Found(arg) && arg.stored
  }

  /** The dictionary is untouched, or d is written to the object and nothing else. */
  predicate AllOrNothing(n: S.Node, s: S.Server, d: seq<byte>, arg: S.Arg) {
    n == s.node || Written(n, d, s.(arg := arg))
  }

  /**
    A block download of at most 224 bytes to an object that is not a domain: in
    no run, however long it goes on and whatever is lost, is anything written
    but the whole of the data to that object.
   */
  lemma WholeRunSafe(s: S.Server, c: C.Client, index: uint16, sub: byte, d: seq<byte>, arg: S.Arg, run: seq<Event>)
    requires Ready(s, index, sub, arg) && C.PST < |d| <= WHOLE_MAX
    ensures AllOrNothing(Whole(RequestSent(s, c, index, sub, d), run).s.node, s, d, arg)
  {
    hide S.Lookup, Whole, Written, Inv, C.InitiateDownload, IsRequest;
    RequestFrame(c, index, sub, d);
    var l := RequestSent(s, c, index, sub, d);
    assert l.toS[1..] == [];
    WholeFine(l, run, d, s.(arg := arg));
    FineNode(Whole(l, run), d, s.(arg := arg));
  }

  lemma FineNode(l: Link, d: seq<byte>, o: S.Server)
    requires Asked(l, d, o) || Fine(l, d, o)
    ensures l.s.node == o.node || Written(l.s.node, d, o)
  {
    hide Written;
  }
}
