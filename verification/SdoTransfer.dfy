/**
  Expedited and segmented transfer over a bus that loses nothing, with calls of
  either side at any time: one frame is under way or with the side that has to
  answer it, or the client has yet to find room for its next request.
 */
module SdoTransfer {
  import opened Can
  import opened SdoTypes
  import opened SdoSegments
  import opened SdoCalls
  import S = SdoServer
  import C = SdoClient
  import B = SdoBlockDownload
  import U = SdoBlockUploadStart

  /** Server, client, the frames under way, and what the last call of the client returned. */
  datatype Link = Link(s: S.Server, c: C.Client, toS: seq<Frame>, toC: seq<Frame>, ret: C.Return, abort: uint32, length: nat)

  datatype Event = ToServer | ToClient | ServerCall(i: S.Input) | ClientCall(dt: uint16, timeout: uint16, txFull: bool)

  /** A download of d to an object, or an upload of one into a buffer of that size, as asked of server o. */
  datatype Job =
    | Down(o: S.Server, index: uint16, sub: byte, d: seq<byte>, write: uint32)
    | Up(o: S.Server, index: uint16, sub: byte, room: nat)

  function Call(c: C.Client, job: Job, dt: uint16, timeout: uint16, txFull: bool): (x: C.Result) {
    if job.Down? then C.Download(c, dt, timeout, txFull) else C.Upload(c, dt, timeout, txFull)
  }

  /** The application calls the client until it is done. */
  function Step(l: Link, e: Event, job: Job): (r: Link) {
    match e
    case ToServer => if l.toS == [] then l else l.(s := S.Receive(l.s, l.toS[0]), toS := l.toS[1..])
    case ToClient => if l.toC == [] then l else l.(c := C.Receive(l.c, l.toC[0]), toC := l.toC[1..])
    case ServerCall(i) => var x := S.Process(l.s, i); l.(s := x.s, toC := B.Queue(l.toC, x.sent))
    case ClientCall(dt, timeout, txFull) =>
      if l.c.state.NotDefined? then l
      else
        var x := Call(l.c, job, dt, timeout, txFull);
        l.(c := x.c, toS := B.Queue(l.toS, x.sent), ret := x.ret, abort := x.abort, length := x.length)
  }

  function Run(l: Link, run: seq<Event>, job: Job): (r: Link)
    decreases |run|
  {
    if run == [] then l else Run(Step(l, run[0], job), run[1..], job)
  }

  // ------------------------------------------------------------------------- time

  predicate Prompt(c: C.Client, job: Job, dt: uint16, timeout: uint16) {
    (if c.rxNew then 0 else c.timer) + dt < timeout && (job.Up? ==> c.block.timer < timeout / 2)
  }

  /** What the OD function of the object answers to a write, if there is one. */
  predicate Granted(job: Job, i: S.Input) {
    job.Down? && Named(job).Found? && S.HasFunction(job.o.(arg := Named(job).arg)) ==> i.write1 == job.write
  }

  /** No timer reaches its limit in the event. */
  predicate InTime(l: Link, e: Event, job: Job) {
    match e
    case ToServer => true
    case ToClient => true
    case ServerCall(i) => ((l.s.state.Idle? && !l.s.rxNew) || Timely(l.s, i)) && Granted(job, i)
    case ClientCall(dt, timeout, _) => l.c.state.NotDefined? || Prompt(l.c, job, dt, timeout)
  }

  predicate AllInTime(l: Link, run: seq<Event>, job: Job)
    decreases |run|
  {
    run == [] || (InTime(l, run[0], job) && AllInTime(Step(l, run[0], job), run[1..], job))
  }

  // ---------------------------------------------------------------- the two outcomes

  /** How a download ends for the application, and the dictionary it leaves. */
  datatype Outcome = Outcome(ret: C.Return, abort: uint32, node: S.Node)

  /** The server of the own node writes straight from the buffer of the client. */
  function LocalDownload(s: S.Server, index: uint16, sub: byte, d: seq<byte>, write: uint32): (r: Outcome) {
    if !s.state.Idle? then Outcome(C.ClientAbort, 0, s.node)
    else
      var a := S.InitTransfer(s, index, sub);
      if a.abort != 0 then Outcome(C.ServerAbort, a.abort, s.node)
      else
        var b := S.WriteOd(a.s.(buf := d), |d| % 0x1_0000, write);
        if b.abort != 0 then Outcome(C.ServerAbort, b.abort, b.s.node) else Outcome(C.Ok, 0, b.s.node)
  }

  /** The object the job names. */
  function Named(job: Job): (f: S.Found) {
    S.Lookup(job.o.node, job.index, job.sub)
  }

  function Found(job: Job): (o: S.Server)
    requires Named(job).Found?
  {
    job.o.(arg := Named(job).arg)
  }

  /** The outcome of a download, as it would be without a bus. */
  function Verdict(job: Job): (v: Outcome)
    requires job.Down?
  {
    LocalDownload(job.o, job.index, job.sub, job.d, job.write)
  }

  /** The object as it goes over the wire. */
  function Wire(job: Job): (w: seq<byte>)
    requires Named(job).Found?
  {
    U.Wire(job.o, Named(job).arg)
  }

  /** An idle server; a stored object or none; for an upload a readable one without an OD function that fits both buffers. */
  predicate Proper(job: Job) {
    && job.o.state.Idle? && !job.o.rxNew && |job.o.buf| == job.o.node.size && (Named(job).Found? ==> Named(job).arg.stored)
    && (job.Down? ==> 0 < |job.d| < 0x1_0000)
    && (job.Up? ==> && Named(job).Found? && Named(job).arg.access.readable && !S.HasFunction(Found(job))
                    && 0 < Named(job).arg.length <= job.o.node.size && Named(job).arg.length <= job.room && 4 <= job.room)
  }

  // ------------------------------------------------------------------- the phases

  /** The request is asked; an answer is held, with more to come; the next request is ready, or sent; the last answer is given. */
  datatype Phase = Asked | Held | Ready | Sent | Decided | Over

  /** The segment of d at byte `at`. */
  function SegmentAt(d: seq<byte>, at: nat, toggle: bool): (f: Frame)
    requires at < |d|
  {
    var n := Min(7, |d| - at);
    Blit(ZERO_FRAME, 1, d[at..at + n])[0 := (if toggle then 0x10 else 0) + 2 * (7 - n) + (if at + n == |d| then 1 else 0)]
  }

  predicate Names(f: Frame, index: uint16, sub: byte) {
    FrameIndex(f) == index && f[3] == sub
  }

  predicate DownloadRequest(f: Frame, d: seq<byte>) {
    && Specifier(f[0]) == 1
    && (if |d| <= 4 then 0 < |d| && f[0] == 0x23 + 4 * (4 - |d|) && f[4..8] == C.Padded4(d)
        else f[0] == 0x21 && FrameValue(f) == |d|)
  }

  /** The server takes in segments of d. */
  predicate Filling(s: S.Server, job: Job)
    requires job.Down?
  {
    && Named(job).Found? && B.Carrying(s, job.d, Found(job)) && s.state.DownloadSegmented? && s.at < |job.d| <= s.node.size
    && 4 < |job.d| && s.sequence <= 1 && s.arg.last && s.arg.access.writeable
  }

  /** The last answer of a download. */
  predicate DownAnswer(c: C.Client, f: Frame, v: Outcome) {
    if v.abort != 0 then v.ret.ServerAbort? && f[0] == ABORT && FrameValue(f) == v.abort && (c.state.DownloadInitiate? || c.state.DownloadResponse?)
    else && v.ret.Ok?
         && (|| (c.state.DownloadInitiate? && |c.buf| <= 4 && f[0] == 0x60)
             || (c.state.DownloadResponse? && c.offset == |c.buf| && f[0] == (if c.toggle then 0x30 else 0x20)))
  }

  /** Both sides of a download, and the frame f between them. */
  predicate AtDown(s: S.Server, c: C.Client, f: Frame, p: Phase, job: Job)
    requires job.Down?
  {
    var d := job.d;
    && c.buf == d
    && match p
       case Asked =>
         && s.state.Idle? && s.node == job.o.node && |s.buf| == job.o.node.size
         && c.state.DownloadInitiate? && Names(f, job.index, job.sub) && DownloadRequest(f, d)
       case Held =>
         && Filling(s, job)
         && (|| (c.state.DownloadInitiate? && f[0] == 0x60 && s.at == 0 && s.sequence == 0)
             || (&& c.state.DownloadResponse? && c.offset == s.at && f[0] == (if c.toggle then 0x30 else 0x20)
                 && s.sequence == (if c.toggle then 0 else 1)))
       case Ready => Filling(s, job) && c.state.DownloadRequest? && c.offset == s.at && c.toggle == (s.sequence == 1)
       case Sent =>
         && Filling(s, job) && c.state.DownloadResponse? && c.offset == s.at + Min(7, |d| - s.at) && c.toggle == (s.sequence == 1)
         && f == SegmentAt(d, s.at, c.toggle)
       case Decided =>
         s.state.Idle? && s.node == Verdict(job).node && |s.buf| == job.o.node.size && DownAnswer(c, f, Verdict(job))
       case Over => s.state.Idle? && s.node == Verdict(job).node && |s.buf| == job.o.node.size && c.state.NotDefined?
  }

  /** The server holds w in its buffer and sends it in segments. */
  predicate Draining(s: S.Server, job: Job)
    requires job.Up? && Named(job).Found?
  {
    var w := Wire(job);
    && s.node == job.o.node && |s.buf| == s.node.size && s.state.UploadSegmented? && s.arg.stored && s.arg.last
    && s.arg.length == |w| <= |s.buf| && s.buf[..|w|] == w && s.at < |w| <= job.room && s.sequence <= 1
  }

  /** The client has taken w up to its offset, and the frame f brings the bytes up to `at`. */
  predicate Brings(c: C.Client, f: Frame, w: seq<byte>, at: nat) {
    && c.state.UploadResponse? && c.offset < at <= |w| <= |c.buf| && at == c.offset + Min(7, |w| - c.offset)
    && B.Agrees(c.buf, c.offset, w) && f == SegmentAt(w, c.offset, !c.toggle)
  }

  predicate BringsAll(c: C.Client, f: Frame, w: seq<byte>) {
    && |w| <= |c.buf|
    && (|| Brings(c, f, w, |w|)
        || (c.state.UploadInitiated? && 0 < |w| <= 4 && f[0] == 0x43 + 4 * (4 - |w|) && f[4..4 + |w|] == w))
  }

  /** Both sides of an upload, and the frame f between them. */
  predicate AtUp(s: S.Server, c: C.Client, f: Frame, p: Phase, job: Job)
    requires job.Up? && Named(job).Found?
  {
    var w := Wire(job);
    && |c.buf| == job.room
    && match p
       case Asked =>
         && s.state.Idle? && s.node == job.o.node && |s.buf| == job.o.node.size
         && c.state.UploadInitiated? && Names(f, job.index, job.sub) && f[0] == 0x40
       case Held =>
         && Draining(s, job)
         && (|| (c.state.UploadInitiated? && f[0] == 0x41 && s.at == 0 && s.sequence == 0)
             || (Brings(c, f, w, s.at) && c.toggle == (s.sequence == 1)))
       case Ready =>
         && Draining(s, job) && c.state.UploadRequest? && c.offset == s.at && B.Agrees(c.buf, s.at, w)
         && c.toggle == (s.sequence == 1)
       case Sent =>
         && Draining(s, job) && c.state.UploadResponse? && c.offset == s.at && B.Agrees(c.buf, s.at, w)
         && c.toggle == (s.sequence == 0) && f[0] == (if s.sequence == 1 then 0x70 else 0x60)
       case Decided => s.state.Idle? && s.node == job.o.node && BringsAll(c, f, w)
       case Over => s.state.Idle? && s.node == job.o.node && c.state.NotDefined?
  }

  // ------------------------------------------------------------ where the frame is

  /** The frames for the server, and for the client. */
  function ForServer(l: Link): (q: seq<Frame>) {
    (if l.s.rxNew then [l.s.rx] else []) + l.toS
  }

  function ForClient(l: Link): (q: seq<Frame>) {
    (if l.c.rxNew then [l.c.rx] else []) + l.toC
  }

  predicate Placed(l: Link, p: Phase) {
    && |ForServer(l)| == (if p.Asked? || p.Sent? then 1 else 0)
    && |ForClient(l)| == (if p.Held? || p.Decided? then 1 else 0)
  }

  /** The one frame between the two sides. */
  function Between(l: Link): (f: Frame) {
    if ForServer(l) != [] then ForServer(l)[0] else if ForClient(l) != [] then ForClient(l)[0] else ZERO_FRAME
  }

  /** What the last call of the client has returned. */
  predicate Reported(l: Link, job: Job)
    requires Proper(job)
  {
    if job.Down? then l.ret == Verdict(job).ret && l.abort == Verdict(job).abort
    else l.ret.Ok? && l.length == |Wire(job)| <= |l.c.buf| && l.c.buf[..|Wire(job)|] == Wire(job)
  }

  predicate Underway(ret: C.Return) {
    ret.Waiting? || ret.TxFull?
  }

  predicate Sides(s: S.Server, c: C.Client, f: Frame, p: Phase, job: Job)
    requires Proper(job)
  {
    if job.Down? then AtDown(s, c, f, p, job) else AtUp(s, c, f, p, job)
  }

  /** The transfer stands in phase p. */
  predicate At(l: Link, p: Phase, job: Job)
    requires Proper(job)
  {
    && Placed(l, p) && Sides(l.s, l.c, Between(l), p, job)
    && (if p.Over? then Reported(l, job) else Underway(l.ret))
  }

  // ----------------------------------------------------------------- the measure

  datatype Kind = Serve | Deliver | Hear | Ask | Nobody

  /** Whose turn it is. */
  function Due(l: Link, p: Phase): (k: Kind) {
    match p
    case Asked => if l.s.rxNew then Serve else Deliver
    case Held => if l.c.rxNew then Ask else Hear
    case Ready => Ask
    case Sent => if l.s.rxNew then Serve else Deliver
    case Decided => if l.c.rxNew then Ask else Hear
    case Over => Nobody
  }

  /** The event is of that kind, and not held up by a full transmit buffer. */
  predicate Moves(e: Event, k: Kind) {
    match e
    case ServerCall(i) => k.Serve? && !i.txFull
    case ToServer => k.Deliver?
    case ToClient => k.Hear?
    case ClientCall(_, _, txFull) => k.Ask? && !txFull
  }

  /** The bytes to transfer. */
  function Size(job: Job): (n: nat)
    requires Proper(job)
  {
    if job.Down? then |job.d| else |Wire(job)|
  }

  /** Steps still to come, at most. */
  function Left(l: Link, p: Phase, job: Job): (n: int)
    requires Proper(job)
  {
    var n := Size(job);
    var more := Cut(n, l.s.at);
    match p
    case Asked => 6 * SegmentsFor(n) + (if l.s.rxNew then 3 else 4)
    case Held => 6 * more + (if l.c.rxNew then 1 else 2)
    case Ready => 6 * more
    case Sent => 6 * more - (if l.s.rxNew then 2 else 1)
    case Decided => if l.c.rxNew then 1 else 2
    case Over => 0
  }

  /** From l to r the transfer gets nearer to its end, or waits for the same event as before. */
  predicate Nearer(l: Link, p: Phase, r: Link, q: Phase, e: Event, job: Job)
    requires Proper(job)
  {
    Left(r, q, job) < Left(l, p, job)
    || (Left(r, q, job) == Left(l, p, job) && Due(r, q) == Due(l, p) && !Moves(e, Due(l, p)))
  }
}
