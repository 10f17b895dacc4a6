/**
  Runs of an expedited or segmented transfer in which no timer runs out: every
  event keeps the transfer on its way, every event that is due brings it nearer
  to its end, and the toggle bits of both sides are in step throughout.
 */
module SdoTransferRuns {
  import opened Can
  import opened SdoTypes
  import opened SdoSegments
  import opened SdoCalls
  import S = SdoServer
  import C = SdoClient
  import B = SdoBlockDownload
  import U = SdoBlockUploadStart
  import opened SdoTransfer
  import Down = SdoTransferDown
  import Up = SdoTransferUp

  /** Received frames and timers play no part in where the two sides stand. */
  lemma SidesSame(s: S.Server, r: S.Server, c: C.Client, k: C.Client, f: Frame, p: Phase, job: Job)
    requires Proper(job) && Sides(s, c, f, p, job)
    requires r == s.(rx := r.rx, rxNew := r.rxNew, timer := r.timer, tx := r.tx) && k == c.(rx := k.rx, rxNew := k.rxNew, timer := k.timer)
    ensures Sides(r, k, f, p, job)
  {
    hide S.Lookup, S.HasFunction, LocalDownload, U.Wire, B.Agrees, SegmentAt, FrameIndex, FrameValue, Specifier;
  }

  lemma ServerStates(s: S.Server, c: C.Client, f: Frame, p: Phase, job: Job)
    requires Proper(job) && Sides(s, c, f, p, job)
    ensures (s.state.Idle? || s.state.DownloadSegmented? || s.state.UploadSegmented?) && (p.Over? ==> s.state.Idle?)
    ensures !c.state.BlUploadInProgress? && (p.Over? <==> c.state.NotDefined?)
    ensures p.Held? || p.Ready? || p.Sent? ==> s.at < Size(job)
  {
    hide S.Lookup, S.HasFunction, LocalDownload, U.Wire, B.Agrees, SegmentAt, FrameIndex, FrameValue, Specifier;
  }

  // ----------------------------------------------------------------- the server

  lemma Served(s: S.Server, c: C.Client, p: Phase, i: S.Input, job: Job) returns (q: Phase)
    requires Proper(job) && Sides(s, c, s.rx, p, job) && (p.Asked? || p.Sent?) && s.rxNew && Timely(s, i) && !i.txFull && Granted(job, i)
    ensures var x := S.Process(s, i);
            && x.sent.Some? && !x.s.rxNew && Sides(x.s, c, x.sent.value, q, job)
            && (q.Decided? || (q.Held? && x.s.at == if p.Asked? then 0 else s.at + 7))
  {
    hide S.Process, AtDown, AtUp, Proper, Granted;
    if job.Down? {
      if p.Asked? { q := Down.ServeAsked(s, c, i, job); } else { q := Down.ServeSegment(s, c, i, job); }
    } else {
      if p.Asked? { q := Up.ServeRequest(s, c, i, job); } else { q := Up.ServeSegment(s, c, i, job); }
    }
  }

  /** Only time passes. */
  lemma StillAt(l: Link, r: Link, p: Phase, job: Job)
    requires Proper(job) && At(l, p, job) && !p.Over? && Underway(r.ret)
    requires r == l.(s := l.s.(timer := r.s.timer), c := l.c.(timer := r.c.timer), ret := r.ret, abort := r.abort, length := r.length)
    ensures At(r, p, job) && Left(r, p, job) == Left(l, p, job) && Due(r, p) == Due(l, p)
  {
    hide Sides, Proper, Reported, Underway, Cut, SegmentsFor, Size;
    SidesSame(l.s, r.s, l.c, r.c, Between(l), p, job);
    assert ForServer(r) == ForServer(l) && ForClient(r) == ForClient(l);
  }

  /** The answer is on its way. */
  lemma AnswerUnderWay(l: Link, p: Phase, x: S.Result, q: Phase, job: Job)
    requires Proper(job) && At(l, p, job) && (p.Asked? || p.Sent?) && l.s.rxNew && (q.Held? || q.Decided?)
    requires x.sent.Some? && !x.s.rxNew && Sides(x.s, l.c, x.sent.value, q, job)
    ensures !l.c.rxNew && At(l.(s := x.s, toC := B.Queue(l.toC, x.sent)), q, job)
  {
    hide Sides, Proper, Reported, Underway;
    var r := l.(s := x.s, toC := B.Queue(l.toC, x.sent));
    assert l.toS == [] && l.toC == [] && !l.c.rxNew;
    assert r.toC == [x.sent.value];
    assert ForServer(r) == [] && ForClient(r) == [x.sent.value];
  }

  /** Where a frame that the server has received stands. */
  lemma AtServer(l: Link, p: Phase, job: Job)
    requires Proper(job) && At(l, p, job)
    ensures if l.s.rxNew then (p.Asked? || p.Sent?) && Between(l) == l.s.rx else !Due(l, p).Serve?
    ensures Sides(l.s, l.c, Between(l), p, job)
  {
    hide Sides, Proper, Reported, Underway;
  }

  lemma ServeStep(l: Link, p: Phase, i: S.Input, job: Job) returns (q: Phase)
    requires Proper(job) && At(l, p, job) && InTime(l, ServerCall(i), job)
    ensures var r := Step(l, ServerCall(i), job); At(r, q, job) && Nearer(l, p, r, q, ServerCall(i), job)
  {
    hide S.Process, Sides, Proper, Granted, At, Left, S.Receive, C.Receive, Call, Between;
    var x := S.Process(l.s, i);
    var r := Step(l, ServerCall(i), job);
    q := p;
    AtServer(l, p, job);
    ServerStates(l.s, l.c, Between(l), p, job);
    if l.s.state.Idle? && !l.s.rxNew {
      IdleCall(l.s, i);
      assert r == l;
    } else if l.s.rxNew && !i.txFull {
      q := Served(l.s, l.c, p, i, job);
      AnswerUnderWay(l, p, x, q, job);
      ServedNearer(l, p, r, q, job);
    } else {
      ServerWaits(l.s, i);
      StillWaiting(l, p, job);
      StillAt(l, r, p, job);
    }
  }

  lemma StillWaiting(l: Link, p: Phase, job: Job)
    requires Proper(job) && At(l, p, job) && !(l.s.state.Idle? && !l.s.rxNew)
    ensures !p.Over? && Underway(l.ret)
  {
    hide Sides, Proper, Reported, Underway;
    ServerStates(l.s, l.c, Between(l), p, job);
  }

  lemma ServedNearer(l: Link, p: Phase, r: Link, q: Phase, job: Job)
    requires Proper(job) && (p.Asked? || p.Sent?) && l.s.rxNew && !r.c.rxNew && (p.Sent? ==> l.s.at < Size(job))
    requires q.Decided? || (q.Held? && r.s.at == if p.Asked? then 0 else l.s.at + 7)
    ensures Left(r, q, job) < Left(l, p, job)
  {
    hide Proper, Size, Cut, SegmentsFor;
    if p.Sent? {
      CutNext(Size(job), l.s.at);
    } else {
      CutAll(Size(job));
    }
  }

  lemma CutAll(n: nat)
    ensures Cut(n, 0) == SegmentsFor(n)
  {
  }

  // ------------------------------------------------------------------ frames arrive

  lemma DeliverStep(l: Link, p: Phase, job: Job)
    requires Proper(job) && At(l, p, job)
    ensures var r := Step(l, ToServer, job); At(r, p, job) && Nearer(l, p, r, p, ToServer, job)
  {
    hide S.Process, Sides, Proper, Reported, Underway, Cut, SegmentsFor, Size, S.ReceiveSegment;
    var r := Step(l, ToServer, job);
    ServerStates(l.s, l.c, Between(l), p, job);
    if l.toS != [] {
      assert !l.s.rxNew && l.toS[1..] == [] && Between(l) == l.toS[0];
      assert ForServer(r) == [l.toS[0]] && ForClient(r) == ForClient(l);
      SidesSame(l.s, r.s, l.c, l.c, Between(l), p, job);
    }
  }

  lemma HearStep(l: Link, p: Phase, job: Job)
    requires Proper(job) && At(l, p, job)
    ensures var r := Step(l, ToClient, job); At(r, p, job) && Nearer(l, p, r, p, ToClient, job)
  {
    hide S.Process, Sides, Proper, Reported, Underway, Cut, SegmentsFor, Size, C.ReceiveSegment;
    var r := Step(l, ToClient, job);
    ServerStates(l.s, l.c, Between(l), p, job);
    if l.toC != [] {
      assert !l.c.rxNew && l.toC[1..] == [] && Between(l) == l.toC[0];
      assert ForClient(r) == [l.toC[0]] && ForServer(r) == ForServer(l);
      SidesSame(l.s, l.s, l.c, r.c, Between(l), p, job);
    }
  }

  // ----------------------------------------------------------------- the client

  /** The part of a call behind the reception. */
  function Timed(c: C.Client, job: Job, dt: uint16, timeout: uint16, txFull: bool, abort: uint32): (x: C.Result) {
    if job.Down? then C.DownloadTimed(c, dt, timeout, txFull, abort) else C.UploadTimed(c, dt, timeout, txFull, abort)
  }

  lemma Unread(c: C.Client, job: Job, dt: uint16, timeout: uint16, txFull: bool)
    requires !c.rxNew
    ensures Call(c, job, dt, timeout, txFull) == Timed(c, job, dt, timeout, txFull, 0)
  {
    hide C.DownloadTimed, C.UploadTimed;
  }

  /** A client that waits, or finds no room for its request. */
  lemma Waits(s: S.Server, c: C.Client, f: Frame, p: Phase, job: Job, dt: uint16, timeout: uint16, txFull: bool, abort: uint32)
    requires Proper(job) && Sides(s, c, f, p, job) && !c.rxNew && Prompt(c, job, dt, timeout) && !p.Over?
    requires p.Ready? ==> txFull
    ensures var x := Timed(c, job, dt, timeout, txFull, abort);
            x.sent.None? && x.c == c.(timer := x.c.timer) && Underway(x.ret)
  {
    hide S.Lookup, S.HasFunction, LocalDownload, U.Wire, B.Agrees, SegmentAt, FrameIndex, FrameValue, Specifier, C.DownloadTimed, C.UploadTimed;
    if job.Down? {
      Down.WaitDown(c, dt, timeout, txFull, abort);
    } else {
      Up.WaitUp(c, dt, timeout, txFull, abort);
    }
  }

  /** The next request goes out, if there is room for it. */
  lemma Sends(s: S.Server, c: C.Client, f: Frame, job: Job, dt: uint16, timeout: uint16, abort: uint32)
    requires Proper(job) && Sides(s, c, f, Ready, job) && !c.rxNew && Prompt(c, job, dt, timeout)
    ensures var x := Timed(c, job, dt, timeout, false, abort);
            x.sent.Some? && Underway(x.ret) && !x.c.rxNew && Sides(s, x.c, x.sent.value, Sent, job)
  {
    hide AtDown, AtUp, Proper, C.DownloadTimed, C.UploadTimed;
    if job.Down? {
      Down.SendDown(s, c, job, f, dt, timeout, abort);
    } else {
      Up.SendUp(s, c, job, f, dt, timeout, abort);
    }
  }

  lemma AskReady(l: Link, dt: uint16, timeout: uint16, txFull: bool, abort: uint32, job: Job) returns (q: Phase)
    requires Proper(job) && At(l, Ready, job) && Prompt(l.c, job, dt, timeout)
    ensures var x := Timed(l.c, job, dt, timeout, txFull, abort);
            var r := l.(c := x.c, toS := B.Queue(l.toS, x.sent), ret := x.ret, abort := x.abort, length := x.length);
            At(r, q, job) && (if txFull then q.Ready? && Left(r, q, job) == Left(l, Ready, job) else Left(r, q, job) < Left(l, Ready, job))
  {
    hide Timed, Sides, Proper, Reported, Cut, SegmentsFor, Size, Underway;
    var x := Timed(l.c, job, dt, timeout, txFull, abort);
    var r := l.(c := x.c, toS := B.Queue(l.toS, x.sent), ret := x.ret, abort := x.abort, length := x.length);
    assert !l.c.rxNew && !l.s.rxNew && l.toS == [] && l.toC == [];
    if txFull {
      q := Ready;
      Waits(l.s, l.c, Between(l), Ready, job, dt, timeout, txFull, abort);
      SidesSame(l.s, l.s, l.c, x.c, Between(l), Ready, job);
      assert Between(r) == Between(l);
    } else {
      q := Sent;
      Sends(l.s, l.c, Between(l), job, dt, timeout, abort);
      assert r.toS == [x.sent.value];
    }
  }

  /** The client takes an answer and stands ready. */
  lemma Takes(l: Link, job: Job) returns (y: C.Rx)
    requires Proper(job) && At(l, Held, job) && l.c.rxNew
    ensures y == (if job.Down? then C.DownloadRx(l.c) else C.UploadRx(l.c)) && !y.done && y.abort == 0 && l.c.rx[0] != ABORT
    ensures var c := y.c.(timer := 0, rxNew := false); At(l.(c := c), Ready, job) && c.block.timer == l.c.block.timer
  {
    hide Proper, AtDown, AtUp, Reported, C.DownloadRx, C.UploadRx;
    assert Between(l) == l.c.rx && l.toC == [] && l.toS == [] && !l.s.rxNew;
    if job.Down? {
      y := C.DownloadRx(l.c);
      Down.TakeHeldDown(l.s, l.c, job, ZERO_FRAME);
      BlockKept(l.c);
    } else {
      y := C.UploadRx(l.c);
      Up.TakeHeldUp(l.s, l.c, job, ZERO_FRAME);
    }
    var r := l.(c := y.c.(timer := 0, rxNew := false));
    assert Between(r) == ZERO_FRAME;
  }

  lemma BlockKept(c: C.Client)
    ensures C.DownloadRx(c).c.block.timer == c.block.timer
  {
    hide Specifier, Toggle, FrameIndex, Bit0, Bit1;
  }

  lemma AskHeld(l: Link, dt: uint16, timeout: uint16, txFull: bool, job: Job) returns (q: Phase)
    requires Proper(job) && At(l, Held, job) && l.c.rxNew && Prompt(l.c, job, dt, timeout)
    ensures var r := Step(l, ClientCall(dt, timeout, txFull), job); At(r, q, job) && Left(r, q, job) < Left(l, Held, job)
  {
    hide At, Proper, C.DownloadRx, C.UploadRx, C.DownloadTimed, C.UploadTimed, Cut, Size, SegmentsFor;
    var y := Takes(l, job);
    var m := l.(c := y.c.(timer := 0, rxNew := false));
    q := AskReady(m, dt, timeout, txFull, 0, job);
    NotOver(l, Held, job);
  }

  lemma NotOver(l: Link, p: Phase, job: Job)
    requires Proper(job) && At(l, p, job)
    ensures p.Over? <==> l.c.state.NotDefined?
  {
    hide Sides, Proper, Reported, Underway;
    ServerStates(l.s, l.c, Between(l), p, job);
  }

  lemma AskDecided(l: Link, dt: uint16, timeout: uint16, txFull: bool, job: Job)
    requires Proper(job) && At(l, Decided, job) && l.c.rxNew
    ensures At(Step(l, ClientCall(dt, timeout, txFull), job), Over, job)
  {
    hide AtDown, AtUp, Proper, C.Download, C.Upload, LocalDownload, Wire;
    assert Between(l) == l.c.rx && l.toC == [] && l.toS == [] && !l.s.rxNew;
    NotOver(l, Decided, job);
    if job.Down? {
      Down.DecideDown(l.s, l.c, job, ZERO_FRAME, dt, timeout, txFull);
    } else {
      Up.DecideUp(l.s, l.c, job, ZERO_FRAME, dt, timeout, txFull);
    }
    assert Between(Step(l, ClientCall(dt, timeout, txFull), job)) == ZERO_FRAME;
  }

  lemma AskStep(l: Link, p: Phase, dt: uint16, timeout: uint16, txFull: bool, job: Job) returns (q: Phase)
    requires Proper(job) && At(l, p, job) && InTime(l, ClientCall(dt, timeout, txFull), job)
    ensures var e := ClientCall(dt, timeout, txFull); var r := Step(l, e, job); At(r, q, job) && Nearer(l, p, r, q, e, job)
  {
    hide S.Process, S.Receive, C.Receive, Sides, Proper, Reported, Cut, SegmentsFor, Size, Underway, Timed, Call;
    q := p;
    NotOver(l, p, job);
    if !p.Over? {
      if p.Ready? {
        Unread(l.c, job, dt, timeout, txFull);
        q := AskReady(l, dt, timeout, txFull, 0, job);
      } else if l.c.rxNew {
        if p.Decided? {
          q := Over;
          AskDecided(l, dt, timeout, txFull, job);
        } else {
          q := AskHeld(l, dt, timeout, txFull, job);
        }
      } else {
        AskWaiting(l, p, dt, timeout, txFull, job);
      }
    }
  }

  lemma AskWaiting(l: Link, p: Phase, dt: uint16, timeout: uint16, txFull: bool, job: Job)
    requires Proper(job) && At(l, p, job) && Prompt(l.c, job, dt, timeout) && !p.Over? && !p.Ready? && !l.c.rxNew
    ensures var r := Step(l, ClientCall(dt, timeout, txFull), job);
            At(r, p, job) && Left(r, p, job) == Left(l, p, job) && Due(r, p) == Due(l, p) && !Due(l, p).Ask?
  {
    hide S.Process, S.Receive, C.Receive, Sides, Proper, At, Left, Underway, Timed, Call, Between;
    NotOver(l, p, job);
    Unread(l.c, job, dt, timeout, txFull);
    AtClient(l, p, job);
    Waits(l.s, l.c, Between(l), p, job, dt, timeout, txFull, 0);
    StillAt(l, Step(l, ClientCall(dt, timeout, txFull), job), p, job);
  }

  lemma AtClient(l: Link, p: Phase, job: Job)
    requires Proper(job) && At(l, p, job) && !l.c.rxNew && !p.Ready?
    ensures Sides(l.s, l.c, Between(l), p, job) && !Due(l, p).Ask?
  {
    hide Sides, Proper, Reported, Underway;
  }

  // ------------------------------------------------------------------- whole runs

  lemma StepAt(l: Link, p: Phase, e: Event, job: Job) returns (q: Phase)
    requires Proper(job) && At(l, p, job) && InTime(l, e, job)
    ensures var r := Step(l, e, job); At(r, q, job) && Nearer(l, p, r, q, e, job)
  {
    hide Proper, At, Nearer, Step;
    q := p;
    match e
    case ToServer => DeliverStep(l, p, job);
    case ToClient => HearStep(l, p, job);
    case ServerCall(i) => q := ServeStep(l, p, i, job);
    case ClientCall(dt, timeout, txFull) => q := AskStep(l, p, dt, timeout, txFull, job);
  }

  /** In time, the transfer stays on its way, and nothing leads back. */
  lemma {:induction false} RunAt(l: Link, p: Phase, run: seq<Event>, job: Job) returns (q: Phase)
    requires Proper(job) && At(l, p, job) && AllInTime(l, run, job)
    ensures var r := Run(l, run, job);
            && At(r, q, job)
            && (Left(r, q, job) < Left(l, p, job)
                || (Left(r, q, job) == Left(l, p, job) && Due(r, q) == Due(l, p) && forall e :: e in run ==> !Moves(e, Due(l, p))))
    decreases |run|
  {
    hide Proper, At, Left, Due, Step, InTime, Moves;
    q := p;
    if run != [] {
      var q1 := StepAt(l, p, run[0], job);
      q := RunAt(Step(l, run[0], job), q1, run[1..], job);
      assert forall e :: e in run ==> e == run[0] || e in run[1..];
    }
  }

  /** A stretch of a run in which everybody has a turn, in any order and among whatever else. */
  predicate Fair(run: seq<Event>) {
    && (exists e :: e in run && Moves(e, Serve))
    && (exists e :: e in run && Moves(e, Deliver))
    && (exists e :: e in run && Moves(e, Hear))
    && (exists e :: e in run && Moves(e, Ask))
  }

  function Flat(parts: seq<seq<Event>>): (run: seq<Event>) {
    if parts == [] then [] else parts[0] + Flat(parts[1..])
  }

  lemma {:induction false} RunConcat(l: Link, a: seq<Event>, b: seq<Event>, job: Job)
    ensures Run(l, a + b, job) == Run(Run(l, a, job), b, job)
    ensures AllInTime(l, a + b, job) <==> AllInTime(l, a, job) && AllInTime(Run(l, a, job), b, job)
    decreases |a|
  {
    hide Step, InTime;
    if a == [] {
      assert a + b == b;
    } else {
      assert (a + b)[0] == a[0] && (a + b)[1..] == a[1..] + b;
      RunConcat(Step(l, a[0], job), a[1..], b, job);
    }
  }

  lemma LeftNat(l: Link, p: Phase, job: Job)
    requires Proper(job) && At(l, p, job)
    ensures 0 <= Left(l, p, job) && (Left(l, p, job) == 0 <==> p.Over?)
  {
    hide Sides, Proper, Reported, Underway, Size, Cut, SegmentsFor;
    ServerStates(l.s, l.c, Between(l), p, job);
    if p.Held? || p.Ready? || p.Sent? {
      CutNext(Size(job), l.s.at);
    }
  }

  /** A fair stretch brings the transfer nearer to its end. */
  lemma FairNearer(l: Link, p: Phase, run: seq<Event>, job: Job) returns (q: Phase)
    requires Proper(job) && At(l, p, job) && AllInTime(l, run, job) && Fair(run)
    ensures var r := Run(l, run, job); At(r, q, job) && (if p.Over? then q.Over? else Left(r, q, job) < Left(l, p, job))
  {
    hide Proper, At, Left, Run, AllInTime, Moves;
    q := RunAt(l, p, run, job);
    LeftNat(l, p, job);
    LeftNat(Run(l, run, job), q, job);
  }

  /** After as many fair stretches as there are steps left the transfer is over. */
  lemma {:induction false} FairEnds(l: Link, p: Phase, parts: seq<seq<Event>>, job: Job)
    requires Proper(job) && At(l, p, job) && AllInTime(l, Flat(parts), job) && Left(l, p, job) <= |parts|
    requires forall i :: 0 <= i < |parts| ==> Fair(parts[i])
    ensures At(Run(l, Flat(parts), job), Over, job)
    decreases |parts|
  {
    hide Proper, At, Left, Run, AllInTime, Fair;
    LeftNat(l, p, job);
    if parts == [] {
      NoRun(l, job);
    } else {
      RunConcat(l, parts[0], Flat(parts[1..]), job);
      var q := FairNearer(l, p, parts[0], job);
      LeftNat(Run(l, parts[0], job), q, job);
      FairEnds(Run(l, parts[0], job), q, parts[1..], job);
    }
  }

  lemma NoRun(l: Link, job: Job)
    ensures Run(l, [], job) == l
  {
    hide Step;
  }

  // ----------------------------------------------------------------- from the request on

  /** The client has just sent the request of the job; an upload goes to `room`. */
  function Begun(job: Job, c: C.Client, room: seq<byte>): (l: Link)
    requires Proper(job) && (job.Up? ==> |room| == job.room)
  {
    var x := if job.Down? then C.InitiateDownload(c, job.index, job.sub, job.d, false)
             else C.InitiateUpload(c, job.index, job.sub, room, false);
    Link(job.o, x.c, B.Queue([], x.sent), [], C.Waiting, 0, 0)
  }

  lemma DownloadAsked(c: C.Client, index: uint16, sub: byte, d: seq<byte>)
    requires 0 < |d| < 0x1_0000
    ensures var x := C.InitiateDownload(c, index, sub, d, false);
            && x.sent.Some? && x.c.state.DownloadInitiate? && x.c.buf == d && !x.c.rxNew
            && Names(x.sent.value, index, sub) && DownloadRequest(x.sent.value, d)
  {
    hide C.Request, FrameIndex, FrameValue, C.Padded4, Le32;
    C.RequestFields(index, sub, 0x21, Le32(|d|));
    C.RequestValue(index, sub, 0x21, |d|);
    if |d| <= 4 {
      C.RequestFields(index, sub, 0x23 + 4 * (4 - |d|), C.Padded4(d));
    }
  }

  lemma UploadAsked(c: C.Client, index: uint16, sub: byte, room: seq<byte>)
    requires 4 <= |room|
    ensures var x := C.InitiateUpload(c, index, sub, room, false);
            && x.sent.Some? && Names(x.sent.value, index, sub) && x.sent.value[0] == 0x40
            && x.c.state.UploadInitiated? && x.c.buf == room && !x.c.rxNew
  {
    hide C.Request, FrameIndex;
    C.RequestFields(index, sub, 0x40, [0, 0, 0, 0]);
  }

  lemma StartsAt(job: Job, c: C.Client, room: seq<byte>)
    requires Proper(job) && (job.Up? ==> |room| == job.room)
    ensures At(Begun(job, c, room), Asked, job) && Left(Begun(job, c, room), Asked, job) <= 6 * SegmentsFor(Size(job)) + 4
  {
    hide S.Lookup, S.HasFunction, C.InitiateDownload, C.InitiateUpload, Names, DownloadRequest, U.Wire, LocalDownload, SegmentsFor, Cut;
    var l := Begun(job, c, room);
    if job.Down? {
      DownloadAsked(c, job.index, job.sub, job.d);
    } else {
      UploadAsked(c, job.index, job.sub, room);
    }
    assert ForServer(l) == l.toS && |l.toS| == 1;
  }

  /** A transfer in time is on its way or has its outcome, and a client that is done has reported it. */
  lemma TransferInTime(job: Job, c: C.Client, room: seq<byte>, run: seq<Event>)
    requires Proper(job) && (job.Up? ==> |room| == job.room) && AllInTime(Begun(job, c, room), run, job)
    ensures var l := Run(Begun(job, c, room), run, job);
            if l.c.state.NotDefined? then At(l, Over, job) else Underway(l.ret) && !l.c.state.Aborting?
  {
    hide Proper, At, Run, AllInTime, Begun, Left;
    StartsAt(job, c, room);
    var q := RunAt(Begun(job, c, room), Asked, run, job);
    var l := Run(Begun(job, c, room), run, job);
    NotOver(l, q, job);
    NotAborting(l, q, job);
  }

  lemma NotAborting(l: Link, p: Phase, job: Job)
    requires Proper(job) && At(l, p, job)
    ensures !l.c.state.Aborting? && (!p.Over? ==> Underway(l.ret))
  {
    hide S.Lookup, S.HasFunction, LocalDownload, U.Wire, B.Agrees, SegmentAt, FrameIndex, FrameValue, Specifier;
  }

  /** And it does end: at the latest after six fair stretches for each segment and four more. */
  lemma TransferEnds(job: Job, c: C.Client, room: seq<byte>, parts: seq<seq<Event>>)
    requires Proper(job) && (job.Up? ==> |room| == job.room) && AllInTime(Begun(job, c, room), Flat(parts), job)
    requires (forall k :: 0 <= k < |parts| ==> Fair(parts[k])) && 6 * SegmentsFor(Size(job)) + 4 <= |parts|
    ensures At(Run(Begun(job, c, room), Flat(parts), job), Over, job)
  {
    hide Proper, At, Run, AllInTime, Begun, Left, Fair, Flat, SegmentsFor, Size;
    StartsAt(job, c, room);
    FairEnds(Begun(job, c, room), Asked, parts, job);
  }

  // ---------------------------------------------------------------------- toggle bits

  /** No side finds a frame with the wrong toggle bit, and a client ready to go on stands where the server stands. */
  predicate InStep(l: Link) {
    && (l.s.state.DownloadSegmented? || l.s.state.UploadSegmented? ==>
          forall f :: f in ForServer(l) ==> Toggle(f[0]) == l.s.sequence)
    && (l.c.state.DownloadResponse? ==> forall f :: f in ForClient(l) && f[0] != ABORT ==> (Toggle(f[0]) == 1) == l.c.toggle)
    && (l.c.state.UploadResponse? ==> forall f :: f in ForClient(l) ==> (Toggle(f[0]) == 1) != l.c.toggle)
    && (l.c.state.DownloadRequest? || l.c.state.UploadRequest? ==>
          l.c.offset == l.s.at && l.c.toggle == (l.s.sequence == 1) && l.s.sequence <= 1)
  }

  lemma AtInStep(l: Link, p: Phase, job: Job)
    requires Proper(job) && At(l, p, job)
    ensures InStep(l)
  {
    hide S.Lookup, S.HasFunction, LocalDownload, U.Wire, B.Agrees, SegmentAt, FrameIndex, FrameValue, Specifier, Toggle;
    Up.UploadFields();
    Down.AnswerFields(l.c.toggle);
    if p.Sent? && job.Down? {
      Down.SegmentNotAbort(job.d, l.s.at, l.c.toggle);
    }
    if job.Up? && l.c.state.UploadResponse? && (p.Held? || p.Decided?) {
      Down.SegmentNotAbort(Wire(job), l.c.offset, !l.c.toggle);
    }
  }

  /** In every such run the toggle bits are in step. */
  lemma TogglesInStep(job: Job, c: C.Client, room: seq<byte>, run: seq<Event>)
    requires Proper(job) && (job.Up? ==> |room| == job.room) && AllInTime(Begun(job, c, room), run, job)
    ensures InStep(Run(Begun(job, c, room), run, job))
  {
    hide Proper, At, Run, AllInTime, Begun, Left, InStep;
    StartsAt(job, c, room);
    var q := RunAt(Begun(job, c, room), Asked, run, job);
    AtInStep(Run(Begun(job, c, room), run, job), q, job);
  }
}
