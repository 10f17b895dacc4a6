/** The steps of an expedited or segmented upload. */
module SdoTransferUp {
  import opened Can
  import opened SdoTypes
  import opened SdoCalls
  import S = SdoServer
  import C = SdoClient
  import B = SdoBlockDownload
  import U = SdoBlockUploadStart
  import opened SdoTransfer
  import opened SdoTransferDown

  lemma UploadFields()
    ensures Specifier(0x40) == 2 && Specifier(0x41) == 2 && !Bit1(0x41)
    ensures Specifier(0x60) == 3 && Toggle(0x60) == 0 && Specifier(0x70) == 3 && Toggle(0x70) == 1
  {
  }

  lemma ExpeditedAnswer(n: nat)
    requires 0 < n <= 4
    ensures var b := 0x43 + 4 * (4 - n); Specifier(b) == 2 && Bit1(b) && Bit0(b) && 4 - ExpeditedUnused(b) == n && b != ABORT
  {
  }

  // ---------------------------------------------------------------------- the request

  /** The server's answer to an upload request for an object it has read into its buffer. */
  lemma UploadAnswer(s: S.Server, w: seq<byte>)
    requires s.arg.length == |w| <= |s.buf| && 0 < |w| && s.buf[..|w|] == w && s.arg.total == |w|
    ensures var x := S.InitiateUpload(s);
            && x.sent.Some? && x.s.node == s.node
            && (if |w| <= 4 then x.s.state.Idle? && !x.s.rxNew && x.sent.value[0] == 0x43 + 4 * (4 - |w|)
                                 && x.sent.value[4..4 + |w|] == w
                else && x.s == s.(tx := x.s.tx, at := 0, sequence := 0, state := S.UploadSegmented, rxNew := false)
                     && x.sent.value[0] == 0x41)
  {
    assert Take(s.buf, |w|) == w;
  }

  lemma WireLength(job: Job)
    requires Proper(job) && job.Up?
    ensures |Wire(job)| == Named(job).arg.length && 0 < |Wire(job)| <= job.room && |Wire(job)| <= job.o.node.size
  {
    hide S.Lookup, U.Wire, S.HasFunction;
    U.WireLength(job.o, job.index, job.sub, Named(job).arg);
  }

  lemma ServeRequest(s: S.Server, c: C.Client, i: S.Input, job: Job) returns (q: Phase)
    requires job.Up? && Proper(job) && AtUp(s, c, s.rx, Asked, job) && s.rxNew && Timely(s, i) && !i.txFull
    ensures var x := S.Process(s, i);
            && x.sent.Some? && !x.s.rxNew && AtUp(x.s, c, x.sent.value, q, job)
            && (q.Decided? || (q.Held? && x.s.at == 0))
  {
    hide S.Process, S.Lookup, S.InitiateUpload, FrameIndex, S.ReadOd, U.Wire, S.Native, S.Stored, Specifier, SegmentAt, S.HasFunction, B.Agrees;
    UploadFields();
    var arg, w := Named(job).arg, Wire(job);
    var s2 := s.(tx := ZERO_FRAME, timer := 0, arg := arg);
    RequestActs(s, i, job.index, job.sub);
    U.StoredLength(s2, job.index, job.sub);
    NoFunction(job, s2);
    U.ReadEffect(s2, i.read);
    U.SameWire(job.o, s2, arg);
    WireLength(job);
    var r := S.ReadOd(s2, 0, i.read).s;
    UploadAnswer(r.(timer := i.dt), w);
    q := if |w| <= 4 then Decided else Held;
  }

  lemma NoFunction(job: Job, s: S.Server)
    requires Proper(job) && job.Up? && s.node == job.o.node && s.arg == Named(job).arg
    ensures !S.HasFunction(s) && s.arg.total == s.arg.length && s.arg.last && s.arg.access.readable && s.arg.stored
  {
    hide S.Lookup;
  }

  // ----------------------------------------------------------------------- segments

  lemma SegmentGoesOut(s: S.Server, w: seq<byte>)
    requires s.state.UploadSegmented? && s.arg.last && s.arg.length == |w| <= |s.buf| && s.buf[..|w|] == w
    requires s.at < |w| && s.sequence <= 1 && s.tx == ZERO_FRAME
    ensures var x := S.SendSegment(s); var n := Min(7, |w| - s.at);
            && x.sent == Some(SegmentAt(w, s.at, s.sequence == 1))
            && x.s == s.(tx := x.s.tx, at := s.at + n, sequence := 1 - s.sequence, rxNew := false,
                         state := if s.at + n == |w| then S.Idle else s.state)
  {
    hide Minus16;
    var n := Min(7, |w| - s.at);
    Minus16Exact(s.arg.length, s.at);
    SameSlice(s.buf, w, s.at, n);
  }

  lemma SameSlice(b: seq<byte>, w: seq<byte>, at: nat, n: nat)
    requires |w| <= |b| && b[..|w|] == w && at + n <= |w|
    ensures b[at..at + n] == w[at..at + n]
  {
    assert b[..|w|][at..at + n] == b[at..at + n];
  }

  lemma UploadCall(s: S.Server, i: S.Input)
    requires s.state.UploadSegmented? && s.rxNew && s.rx[0] != ABORT && Timely(s, i) && !i.txFull
    ensures S.Process(s, i) == S.SegmentUpload(s.(tx := ZERO_FRAME, timer := i.dt), i)
  {
    hide S.SegmentUpload, S.Start, S.SubblockResponse;
  }

  lemma AskedSegment(s: S.Server, i: S.Input)
    requires s.arg.stored && s.sequence <= 1 && s.rx[0] == (if s.sequence == 1 then 0x70 else 0x60)
    ensures S.SegmentUpload(s, i) == S.SendSegment(s)
  {
    hide Specifier, Toggle, S.SendSegment, Minus16;
    UploadFields();
  }

  lemma ServeSegment(s: S.Server, c: C.Client, i: S.Input, job: Job) returns (q: Phase)
    requires job.Up? && Proper(job) && AtUp(s, c, s.rx, Sent, job) && s.rxNew && Timely(s, i) && !i.txFull
    ensures var x := S.Process(s, i);
            && x.sent.Some? && !x.s.rxNew && AtUp(x.s, c, x.sent.value, q, job)
            && (q.Decided? || (q.Held? && x.s.at == s.at + 7))
  {
    hide S.Process, S.Lookup, S.SegmentUpload, S.SendSegment, U.Wire, SegmentAt, S.HasFunction, B.Agrees;
    var w := Wire(job);
    UploadCall(s, i);
    var s1 := s.(tx := ZERO_FRAME, timer := i.dt);
    AskedSegment(s1, i);
    SegmentGoesOut(s1, w);
    q := if s.at + 7 >= |w| then Decided else Held;
  }

  // -------------------------------------------------------------------- the client

  /** Taking a segment. */
  lemma TakeBrought(c: C.Client, w: seq<byte>, at: nat)
    requires c.rxNew && Brings(c, c.rx, w, at)
    ensures var y := C.SegmentRx(c);
            && y.c.block == c.block && y.c.toggle == c.toggle && |y.c.buf| == |c.buf| && y.c.offset == at
            && B.Agrees(y.c.buf, at, w) && y.abort == 0
            && (if at == |w| then y.done && y.length == |w| && y.c.state.NotDefined? && !y.c.rxNew
                else !y.done && y.c.state.UploadRequest?)
    ensures c.rx[0] != ABORT && Specifier(c.rx[0]) == 0
  {
    hide Specifier, Toggle, SegmentUnused, Bit0, SegmentAt;
    var n := Min(7, |w| - c.offset);
    SegmentFields(!c.toggle, n, c.offset + n == |w|);
    SegmentHolds(w, c.offset, !c.toggle);
  }

  /** The client takes an answer after which it has more to ask for. */
  lemma TakeHeldUp(s: S.Server, c: C.Client, job: Job, f: Frame)
    requires job.Up? && Proper(job) && AtUp(s, c, c.rx, Held, job) && c.rxNew
    ensures var y := C.UploadRx(c); var c1 := y.c.(timer := 0, rxNew := false);
            && c.rx[0] != ABORT && !y.done && y.abort == 0 && AtUp(s, c1, f, Ready, job) && c1.block.timer == c.block.timer
  {
    hide C.SegmentRx, Specifier, SegmentAt, S.Lookup, U.Wire, S.HasFunction;
    UploadFields();
    if !c.state.UploadInitiated? {
      TakeBrought(c, Wire(job), s.at);
    }
  }

  lemma SendUp(s: S.Server, c: C.Client, job: Job, f: Frame, dt: uint16, timeout: uint16, abort: uint32)
    requires job.Up? && Proper(job) && AtUp(s, c, f, Ready, job) && !c.rxNew && c.timer + dt < timeout && c.block.timer < timeout / 2
    ensures var x := C.UploadTimed(c, dt, timeout, false, abort);
            x.sent.Some? && x.ret.Waiting? && !x.c.rxNew && AtUp(s, x.c, x.sent.value, Sent, job)
  {
    hide S.Lookup, U.Wire, S.HasFunction, B.Agrees, C.BlockSizeFor;
  }

  /** The client takes the last bytes and reports them. */
  lemma DecideUp(s: S.Server, c: C.Client, job: Job, f: Frame, dt: uint16, timeout: uint16, txFull: bool)
    requires job.Up? && Proper(job) && AtUp(s, c, c.rx, Decided, job) && c.rxNew
    ensures var x := C.Upload(c, dt, timeout, txFull); var w := Wire(job);
            && x.sent.None? && !x.c.rxNew && x.ret.Ok? && x.length == |w| <= |x.c.buf| && x.c.buf[..|w|] == w
            && AtUp(s, x.c, f, Over, job)
  {
    hide C.UploadTimed, C.SegmentRx, Specifier, SegmentAt, Bit0, Bit1, ExpeditedUnused, S.Lookup, U.Wire, S.HasFunction;
    var w := Wire(job);
    if Brings(c, c.rx, w, |w|) {
      TakeBrought(c, w, |w|);
      AllThere(C.SegmentRx(c).c.buf, w);
    } else {
      ExpeditedAnswer(|w|);
    }
  }

  lemma AllThere(b: seq<byte>, w: seq<byte>)
    requires B.Agrees(b, |w|, w)
    ensures |w| <= |b| && b[..|w|] == w
  {
  }

  /** A call that finds nothing to do. */
  lemma WaitUp(c: C.Client, dt: uint16, timeout: uint16, txFull: bool, abort: uint32)
    requires (c.state.UploadInitiated? || c.state.UploadResponse? || (c.state.UploadRequest? && txFull))
    requires c.timer + dt < timeout && c.block.timer < timeout / 2
    ensures var x := C.UploadTimed(c, dt, timeout, txFull, abort);
            x.sent.None? && x.c == c.(timer := x.c.timer) && Underway(x.ret)
  {
  }
}
