/** The steps of an expedited or segmented download. */
module SdoTransferDown {
  import opened Can
  import opened SdoTypes
  import opened SdoCalls
  import Od
  import S = SdoServer
  import C = SdoClient
  import B = SdoBlockDownload
  import D = SdoBlockDownloadStart
  import opened SdoTransfer

  // ---------------------------------------------------------------- frames and fields

  lemma AbortSpecifier()
    ensures Specifier(ABORT) == 4
  {
  }

  lemma ExpeditedFields(n: nat)
    requires 0 < n <= 4
    ensures var b := 0x23 + 4 * (4 - n); Specifier(b) == 1 && Bit1(b) && Bit0(b) && 4 - ExpeditedUnused(b) == n
  {
  }

  /** The fields of the segment that carries n bytes. */
  lemma SegmentFields(toggle: bool, n: nat, done: bool)
    requires 0 < n <= 7
    ensures var b := (if toggle then 0x10 else 0) + 2 * (7 - n) + (if done then 1 else 0);
            && Specifier(b) == 0 && Toggle(b) == (if toggle then 1 else 0) && 7 - SegmentUnused(b) == n && Bit0(b) == done
            && b != ABORT
  {
  }

  lemma SegmentHolds(w: seq<byte>, at: nat, toggle: bool)
    requires at < |w|
    ensures var f, n := SegmentAt(w, at, toggle), Min(7, |w| - at);
            && f[0] == (if toggle then 0x10 else 0) + 2 * (7 - n) + (if at + n == |w| then 1 else 0)
            && f[1..1 + n] == w[at..at + n]
  {
  }

  lemma SegmentNotAbort(d: seq<byte>, at: nat, toggle: bool)
    requires at < |d|
    ensures var f := SegmentAt(d, at, toggle);
            f[0] != ABORT && Specifier(f[0]) == 0 && Toggle(f[0]) == (if toggle then 1 else 0)
  {
    SegmentFields(toggle, Min(7, |d| - at), at + Min(7, |d| - at) == |d|);
  }

  lemma AnswerFields(toggle: bool)
    ensures var b := if toggle then 0x30 else 0x20; Specifier(b) == 1 && Toggle(b) == (if toggle then 1 else 0) && b != ABORT
    ensures Specifier(0x60) == 3
  {
  }

  lemma AbortFields(index: uint16, sub: byte, code: uint32)
    ensures var f := AbortFrame(index, sub, code); f[0] == ABORT && FrameValue(f) == code
  {
    Le32RoundTrip(code);
  }

  // ---------------------------------------------------------------------- the verdict

  /** The verdict on data d for the stored object `arg`: the buffers of the transfer play no part in it. */
  function Judge(n: S.Node, arg: S.Arg, d: seq<byte>, write: uint32): (r: Outcome) {
    var v := S.Native(d, n.bigEndian && arg.access.multibyte);
    if !arg.access.writeable then Outcome(C.ServerAbort, AB_READONLY, n)
    else if arg.length != |d| then Outcome(C.ServerAbort, AB_TYPE_MISMATCH, n)
    else if arg.entry < |n.od| && n.od[arg.entry].hasFunction && write != 0 then Outcome(C.ServerAbort, write, n)
    else if (arg.index == 0x1003 && arg.sub == 0) || !Od.Fits(n.od, arg.entry, arg.sub, v) then Outcome(C.Ok, 0, n)
    else Outcome(C.Ok, 0, n.(od := Od.Set(n.od, arg.entry, arg.sub, v)))
  }

  lemma WriteIs(s: S.Server, d: seq<byte>, write: uint32)
    requires s.arg.stored && |d| < 0x1_0000 && |d| <= |s.buf| && s.buf[..|d|] == d
    ensures var a := S.WriteOd(s, |d|, write); var v := Judge(s.node, s.arg, d, write);
            a.abort == v.abort && a.s.node == v.node && v.ret == (if v.abort == 0 then C.Ok else C.ServerAbort)
  {
    assert s.buf[0..0 + |d|] == d;
    var b := S.SwapAt(s.buf, 0, |d|, S.Swaps(s));
    assert b[..|d|] == S.Native(d, S.Swaps(s));
  }

  /** Without a bus the same. */
  lemma LocalIsJudged(job: Job)
    requires job.Down? && Proper(job) && Named(job).Found? && Named(job).arg.length <= job.o.node.size
    ensures Verdict(job) == Judge(job.o.node, Named(job).arg, job.d, job.write)
  {
    hide S.Lookup, S.WriteOd, Judge;
    assert job.d[..|job.d|] == job.d;
    WriteIs(job.o.(arg := Named(job).arg, buf := job.d), job.d, job.write);
  }

  lemma JudgeAny(n: S.Node, arg: S.Arg, d: seq<byte>, write: uint32, other: uint32)
    requires arg.entry < |n.od| && n.od[arg.entry].hasFunction ==> write == other
    ensures Judge(n, arg, d, write) == Judge(n, arg, d, other)
  {
  }

  /** An outcome as the answer to the frame that ends the transfer. */
  predicate Answers(x: S.Result, v: Outcome, ok: byte, size: nat) {
    && x.s.state.Idle? && !x.s.rxNew && x.s.node == v.node && |x.s.buf| == size && x.sent.Some?
    && (if v.abort != 0 then v.ret.ServerAbort? && x.sent.value[0] == ABORT && FrameValue(x.sent.value) == v.abort
        else v.ret.Ok? && x.sent.value[0] == ok)
  }

  // ---------------------------------------------------------------------- the request

  /** Processing a request is an action on the object found, or a refusal. */
  lemma RequestActs(s: S.Server, i: S.Input, index: uint16, sub: byte)
    requires s.state.Idle? && s.rxNew && Timely(s, i) && !i.txFull && Names(s.rx, index, sub)
    requires Specifier(s.rx[0]) == 1 || Specifier(s.rx[0]) == 2
    ensures var s0 := s.(tx := ZERO_FRAME, timer := 0); var a := S.InitTransfer(s0, index, sub);
            if a.abort != 0 then S.Process(s, i) == S.Abort(a.s, a.abort)
            else if Specifier(s.rx[0]) == 1 then
              S.Process(s, i) == if a.s.arg.access.writeable then S.InitiateDownload(a.s.(timer := i.dt), i) else S.Abort(a.s, AB_READONLY)
            else
              var b := S.ReadOd(a.s, 0, i.read);
              b.abort == 0 ==> S.Process(s, i) == S.InitiateUpload(b.s.(timer := i.dt))
  {
    hide S.InitTransfer, FrameIndex, S.ReadOd, S.InitiateDownload, S.InitiateUpload, S.InitiateBlockDownload, S.InitiateBlockUpload,
      S.SubblockResponse, Specifier, S.Abort;
    AbortSpecifier();
    assert S.Process(s, i) == S.Start(s.(tx := ZERO_FRAME, timer := 0), i);
  }

  /** A download request with all the data in it gets the verdict. */
  lemma ExpeditedJudged(s: S.Server, i: S.Input, d: seq<byte>)
    requires 0 < |d| <= 4 && s.rx[0] == 0x23 + 4 * (4 - |d|) && s.rx[4..8] == C.Padded4(d) && |s.buf| == s.node.size
    requires s.arg.stored
    ensures Answers(S.InitiateDownload(s, i), Judge(s.node, s.arg, d, i.write1), 0x60, |s.buf|)
  {
    hide S.WriteOd, Judge, Specifier, Bit0, Bit1, ExpeditedUnused, FrameValue, AbortFrame;
    ExpeditedFields(|d|);
    var b := Blit(s.buf, 0, s.rx[4..8]);
    assert b[..|d|] == d;
    var s1 := S.Echo(s, 0x60).(buf := b);
    WriteIs(s1, d, i.write1);
    var a := S.WriteOd(s1, |d|, i.write1);
    AbortFields(a.s.arg.index, a.s.arg.sub, a.abort);
  }

  lemma WrongSize(s: S.Server, i: S.Input, d: seq<byte>)
    requires s.rx[0] == 0x21 && FrameValue(s.rx) == |d| != s.arg.length && s.arg.stored && s.arg.access.writeable
    ensures Answers(S.InitiateDownload(s, i), Judge(s.node, s.arg, d, i.write1), 0x60, |s.buf|)
  {
    hide S.WriteOd, FrameValue, AbortFrame;
    assert Bit0(0x21) && !Bit1(0x21);
    AbortFields(s.arg.index, s.arg.sub, AB_TYPE_MISMATCH);
  }

  /** A request for n bytes in segments opens the transfer. */
  lemma SegmentedOpens(s: S.Server, i: S.Input, d: seq<byte>)
    requires s.rx[0] == 0x21 && FrameValue(s.rx) == |d| == s.arg.length && s.arg.stored && s.arg.total == |d|
    ensures var x := S.InitiateDownload(s, i);
            && x.s == s.(tx := x.s.tx, rxNew := false, at := 0, sequence := 0, state := S.DownloadSegmented)
            && x.sent.Some? && x.sent.value[0] == 0x60
  {
    hide S.WriteOd, FrameValue;
    assert Bit0(0x21) && !Bit1(0x21);
  }

  lemma AbortAnswers(s: S.Server, code: uint32, v: Outcome, ok: byte)
    requires v == Outcome(C.ServerAbort, code, s.node) && code != 0
    ensures Answers(S.Abort(s, code), v, ok, |s.buf|)
  {
    hide FrameValue, AbortFrame;
    AbortFields(s.arg.index, s.arg.sub, code);
  }

  /** The answer to the request of the job, in terms of the object found. */
  lemma RequestAnswered(s: S.Server, i: S.Input, job: Job)
    requires job.Down? && Proper(job) && s.state.Idle? && s.node == job.o.node && |s.buf| == job.o.node.size
    requires s.rxNew && Timely(s, i) && !i.txFull && Granted(job, i) && Names(s.rx, job.index, job.sub) && DownloadRequest(s.rx, job.d)
    ensures var x := S.Process(s, i); Answers(x, Verdict(job), 0x60, |s.buf|) || (Opens(x, job) && 4 < |job.d|)
    ensures |job.d| > 4 && Answers(S.Process(s, i), Verdict(job), 0x60, |s.buf|) ==> Verdict(job).abort != 0
  {
    hide S.Process, S.Lookup, Judge, S.InitiateDownload, FrameIndex, FrameValue, Specifier, S.WriteOd, S.HasFunction, Answers, S.Abort;
    RequestActs(s, i, job.index, job.sub);
    MissingAborts(job);
    var s0 := s.(tx := ZERO_FRAME, timer := 0);
    var a := S.InitTransfer(s0, job.index, job.sub);
    if a.abort != 0 {
      AbortAnswers(a.s, a.abort, Verdict(job), 0x60);
    } else {
      var arg := Named(job).arg;
      LocalIsJudged(job);
      JudgeGranted(job, i);
      if !arg.access.writeable {
        ReadOnly(job.o.node, arg, job.d, job.write);
        AbortAnswers(a.s, AB_READONLY, Verdict(job), 0x60);
      } else if |job.d| <= 4 {
        ExpeditedJudged(a.s.(timer := i.dt), i, job.d);
      } else if |job.d| != arg.length {
        WrongSize(a.s.(timer := i.dt), i, job.d);
        OnSize(job.o.node, arg, job.d, job.write);
      } else {
        SegmentedOpens(a.s.(timer := i.dt), i, job.d);
        D.AgreesNothing(s.buf, job.d);
        OpenNotAnswers(S.Process(s, i), Verdict(job));
      }
    }
  }

  lemma MissingAborts(job: Job)
    ensures Named(job).Missing? ==> Named(job).abort != 0
  {
  }

  /** The server waits for the first segment. */
  predicate Opens(x: S.Result, job: Job)
    requires job.Down?
  {
    Filling(x.s, job) && !x.s.rxNew && x.s.at == 0 && x.s.sequence == 0 && x.sent.Some? && x.sent.value[0] == 0x60
  }

  lemma OpenNotAnswers(x: S.Result, v: Outcome)
    requires !x.s.state.Idle?
    ensures forall n :: !Answers(x, v, 0x60, n)
  {
    hide FrameValue;
  }

  lemma JudgeGranted(job: Job, i: S.Input)
    requires job.Down? && Named(job).Found? && Granted(job, i)
    ensures Judge(job.o.node, Named(job).arg, job.d, i.write1) == Judge(job.o.node, Named(job).arg, job.d, job.write)
  {
    JudgeAny(job.o.node, Named(job).arg, job.d, i.write1, job.write);
  }

  lemma ReadOnly(n: S.Node, arg: S.Arg, d: seq<byte>, write: uint32)
    requires !arg.access.writeable
    ensures Judge(n, arg, d, write) == Outcome(C.ServerAbort, AB_READONLY, n)
  {
  }

  lemma OnSize(n: S.Node, arg: S.Arg, d: seq<byte>, write: uint32)
    requires arg.access.writeable && arg.length != |d|
    ensures Judge(n, arg, d, write) == Outcome(C.ServerAbort, AB_TYPE_MISMATCH, n)
  {
  }

  lemma ServeAsked(s: S.Server, c: C.Client, i: S.Input, job: Job) returns (q: Phase)
    requires job.Down? && Proper(job) && AtDown(s, c, s.rx, Asked, job) && s.rxNew && Timely(s, i) && !i.txFull && Granted(job, i)
    ensures var x := S.Process(s, i);
            && x.sent.Some? && !x.s.rxNew && AtDown(x.s, c, x.sent.value, q, job)
            && (q.Decided? || (q.Held? && x.s.at == 0))
  {
    hide S.Process, S.Lookup, FrameIndex, FrameValue, Specifier, LocalDownload, B.Carrying, DownloadRequest, Granted;
    RequestAnswered(s, i, job);
    q := if Answers(S.Process(s, i), Verdict(job), 0x60, |s.buf|) then Decided else Held;
  }

  // ---------------------------------------------------------------------- segments

  /** Taking the bytes of a segment that follow those in the buffer. */
  lemma TakeEffect(s: S.Server, n: nat, i: S.Input, d: seq<byte>, o: S.Server)
    requires B.Carrying(s, d, o) && s.state.DownloadSegmented? && s.sequence <= 1 && o.arg.last
    requires 0 < n <= 7 && s.at + n <= |d| <= s.node.size && s.rx[1..1 + n] == d[s.at..s.at + n]
    requires Bit0(s.rx[0]) == (s.at + n == |d|)
    ensures var x := S.TakeSegment(s, n, i.write1); var ok := if s.sequence == 1 then 0x30 else 0x20;
            && (s.at + n == |d| ==> Answers(x, Judge(o.node, o.arg, d, i.write1), ok, |s.buf|))
            && (s.at + n < |d| ==>
                  && B.Carrying(x.s, d, o) && x.s.state.DownloadSegmented? && x.s.at == s.at + n && x.s.sequence == 1 - s.sequence
                  && !x.s.rxNew && x.sent.Some? && x.sent.value[0] == ok)
  {
    hide Bit0, S.WriteOd, Judge, FrameValue, AbortFrame;
    var b := Blit(s.buf, s.at, s.rx[1..1 + n]);
    assert B.Agrees(b, s.at + n, d);
    if s.at + n == |d| {
      assert b[..|d|] == d;
      var s1 := s.(buf := b, at := s.at + n, arg := s.arg.(last := true));
      WriteIs(s1, d, i.write1);
      var a := S.WriteOd(s1, |d|, i.write1);
      AbortFields(a.s.arg.index, a.s.arg.sub, a.abort);
    }
  }

  lemma SegmentServed(s: S.Server, i: S.Input, d: seq<byte>, o: S.Server)
    requires B.Carrying(s, d, o) && s.state.DownloadSegmented? && s.at < |d| <= s.node.size && s.sequence <= 1 && o.arg.last
    requires s.rx == SegmentAt(d, s.at, s.sequence == 1)
    ensures var x := S.SegmentDownload(s, i); var n := Min(7, |d| - s.at); var ok := if s.sequence == 1 then 0x30 else 0x20;
            && (s.at + n == |d| ==> Answers(x, Judge(o.node, o.arg, d, i.write1), ok, |s.buf|))
            && (s.at + n < |d| ==>
                  && B.Carrying(x.s, d, o) && x.s.state.DownloadSegmented? && x.s.at == s.at + n && x.s.sequence == 1 - s.sequence
                  && !x.s.rxNew && x.sent.Some? && x.sent.value[0] == ok)
  {
    hide S.TakeSegment, Specifier, Toggle, SegmentUnused, Bit0, S.WriteOd, Judge, Answers, SegmentAt, B.Carrying;
    var n := Min(7, |d| - s.at);
    SegmentFields(s.sequence == 1, n, s.at + n == |d|);
    SegmentHolds(d, s.at, s.sequence == 1);
    assert s.arg.length == |d| by {
      CarryingLength(s, d, o);
    }
    assert S.SegmentDownload(s, i) == S.TakeSegment(s, n, i.write1);
    TakeEffect(s, n, i, d, o);
  }

  lemma CarryingLength(s: S.Server, d: seq<byte>, o: S.Server)
    requires B.Carrying(s, d, o)
    ensures s.arg.length == |d| && s.arg == o.arg && s.node == o.node
  {
  }

  lemma SegmentCall(s: S.Server, i: S.Input)
    requires s.state.DownloadSegmented? && s.rxNew && s.rx[0] != ABORT && Timely(s, i) && !i.txFull
    ensures S.Process(s, i) == S.SegmentDownload(s.(tx := ZERO_FRAME, timer := i.dt), i)
  {
    hide S.SegmentDownload, S.Start, S.SubblockResponse;
  }

  lemma ServeSegment(s: S.Server, c: C.Client, i: S.Input, job: Job) returns (q: Phase)
    requires job.Down? && Proper(job) && AtDown(s, c, s.rx, Sent, job) && s.rxNew && Timely(s, i) && !i.txFull && Granted(job, i)
    ensures var x := S.Process(s, i);
            && x.sent.Some? && !x.s.rxNew && AtDown(x.s, c, x.sent.value, q, job)
            && (q.Decided? || (q.Held? && x.s.at == s.at + 7))
  {
    hide S.Process, S.Lookup, FrameValue, B.Agrees, SegmentAt, S.SegmentDownload, Judge, LocalDownload, S.HasFunction;
    var d, o := job.d, Found(job);
    SegmentNotAbort(d, s.at, c.toggle);
    SegmentCall(s, i);
    SegmentServed(s.(tx := ZERO_FRAME, timer := i.dt), i, d, o);
    if s.at + 7 >= |d| {
      q := Decided;
      LocalIsJudged(job);
      JudgeGranted(job, i);
    } else {
      q := Held;
    }
  }

  // -------------------------------------------------------------------- the client

  /** The client takes an answer after which it has more to send. */
  lemma TakeHeldDown(s: S.Server, c: C.Client, job: Job, f: Frame)
    requires job.Down? && Proper(job) && AtDown(s, c, c.rx, Held, job) && c.rxNew
    ensures var y := C.DownloadRx(c);
            c.rx[0] != ABORT && !y.done && y.abort == 0 && AtDown(s, y.c.(timer := 0, rxNew := false), f, Ready, job)
  {
    hide B.Agrees, Specifier, Toggle, S.Lookup, LocalDownload;
    AnswerFields(c.toggle);
  }

  lemma SegmentGoes(c: C.Client, d: seq<byte>, abort: uint32)
    requires c.buf == d && c.offset < |d| < 0x1_0000
    ensures var x := C.SendDownloadSegment(c, abort); var n := Min(7, |d| - c.offset);
            && x.sent == Some(SegmentAt(d, c.offset, c.toggle)) && x.ret.Waiting?
            && x.c == c.(offset := c.offset + n, state := C.DownloadResponse)
  {
    hide Minus16;
    Minus16Exact(|d|, c.offset);
  }

  lemma SendDown(s: S.Server, c: C.Client, job: Job, f: Frame, dt: uint16, timeout: uint16, abort: uint32)
    requires job.Down? && Proper(job) && AtDown(s, c, f, Ready, job) && !c.rxNew && c.timer + dt < timeout
    ensures var x := C.DownloadTimed(c, dt, timeout, false, abort);
            x.sent.Some? && x.ret.Waiting? && !x.c.rxNew && AtDown(s, x.c, x.sent.value, Sent, job)
  {
    hide B.Agrees, S.Lookup, LocalDownload, C.SendDownloadSegment, SegmentAt;
    SegmentGoes(c.(timer := c.timer + dt), job.d, abort);
  }

  /** The client learns the outcome. */
  lemma DecideDown(s: S.Server, c: C.Client, job: Job, f: Frame, dt: uint16, timeout: uint16, txFull: bool)
    requires job.Down? && Proper(job) && AtDown(s, c, c.rx, Decided, job) && c.rxNew
    ensures var x := C.Download(c, dt, timeout, txFull); var v := Verdict(job);
            && x.sent.None? && !x.c.rxNew && x.ret == v.ret && x.abort == v.abort && AtDown(s, x.c, f, Over, job)
  {
    hide C.DownloadTimed, Specifier, Toggle, FrameValue, S.Lookup, LocalDownload;
    AnswerFields(c.toggle);
  }

  /** A call that finds nothing to do. */
  lemma WaitDown(c: C.Client, dt: uint16, timeout: uint16, txFull: bool, abort: uint32)
    requires (c.state.DownloadInitiate? || c.state.DownloadResponse? || txFull) && c.timer + dt < timeout
    ensures var x := C.DownloadTimed(c, dt, timeout, txFull, abort);
            x.sent.None? && x.c == c.(timer := x.c.timer) && Underway(x.ret)
  {
  }
}
