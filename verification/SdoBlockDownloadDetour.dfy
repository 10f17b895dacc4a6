/**
  Why 224 bytes is the limit of a block download that is safe over whole runs:
  from 225 bytes on, segment 32 of a block is not the last, and its first byte
  0x20 is the command that starts a segmented download. If the server has timed
  out meanwhile, the next segment 1 of the client ends that download.
 */
module SdoBlockDownloadDetour {
  import opened Can
  import opened SdoTypes
  import Od
  import S = SdoServer
  import C = SdoClient
  import opened SdoBlockDownload
  import opened SdoBlockDownloadStart
  import opened SdoSegments
  import opened SdoBlockDownloadWhole
  import opened SdoBlockDownloadLossless

  /** A call of the server without delay, and one in which the transfer times out. */
  const PROMPT := S.Input(true, false, 0, 1, S.ReadReply(0, [], true, 0), 0, 0)
  const LATE := PROMPT.(dt := 1)
  const CALL := ClientCall(0, 1, false)

  /** The server acknowledges segment 1 because the next ones are late, and then gives up. */
  const OPENING := [ToServer, ServerCall(PROMPT), ToClient, CALL, ToServer, ServerCall(LATE)]
  const GIVING_UP := [CALL, ServerCall(PROMPT), LoseAnswer(1)]
  /** Segment 32 reaches the idle server; its answer is lost. */
  const STRAYING := [ToServer, ServerCall(PROMPT), LoseAnswer(1)]
  /** The client takes the old acknowledgement and goes on with segment 1 of the next block. */
  const CLOSING := [ToClient, CALL, ToServer, ServerCall(PROMPT)]

  /** The client sends k segments, and all are lost. */
  function Lost(k: nat): (run: seq<Event>) {
    if k == 0 then [] else [CALL, LoseRequest(0)] + Lost(k - 1)
  }

  function Detour(): (run: seq<Event>) {
    OPENING + Lost(30) + GIVING_UP + STRAYING + CLOSING
  }

  lemma {:induction false} WholeConcat(l: Link, a: seq<Event>, b: seq<Event>)
    ensures Whole(l, a + b) == Whole(Whole(l, a), b)
    decreases |a|
  {
    hide Step;
    if a == [] {
      assert a + b == b;
    } else {
      assert (a + b)[0] == a[0] && (a + b)[1..] == a[1..] + b;
      WholeConcat(Step(l, a[0]), a[1..], b);
    }
  }

  /** Bytes 217 to 219 of the data read as index and sub-index of another object, of seven bytes. */
  predicate Diverts(s: S.Server, d: seq<byte>, arg: S.Arg, other: S.Arg) {
    && Ready(s, arg.index, arg.sub, arg) && arg.access.writeable && arg.length == |d| && 225 <= |d| <= s.node.size
    && S.Lookup(s.node, FromLe16(d[217], d[218]), d[219]) == S.Found(other)
    && other.stored && other.access.writeable && other.length == 7
    && Writeable(s.(arg := other), PROMPT)
  }

  /** After the opening: the server waits for a new block, its timer run out; the client is in the old one. */
  predicate Opened(l: Link, n: S.Node, d: seq<byte>) {
    && l.s.state.DownloadBlSubblock? && !l.s.rxNew && l.s.sequence == 0 && l.s.timer == 1
    && l.s.node == n && |l.s.buf| == n.size
    && l.toS == [] && Waits(l, d)
  }

  /** The client is in its first block and has not seen the acknowledgement of segment 1. */
  predicate Waits(l: Link, d: seq<byte>) {
    && |l.toC| == 1 && l.toC[0][0] == 0xA2 && l.toC[0][1] == 1 && l.toC[0][2] < 0x80
    && Sender(l.c, d, l.c.block.size) && l.c.acked == 0 && l.c.block.size >= 32 && l.c.timer == 0
  }

  lemma OpeningRun(s: S.Server, c: C.Client, d: seq<byte>, arg: S.Arg, other: S.Arg)
    requires Diverts(s, d, arg, other)
    ensures var l := Whole(RequestSent(s, c, arg.index, arg.sub, d), OPENING);
            Opened(l, s.node, d) && l.c.state.BlDownloadInProgress? && l.c.block.seqno == 1
  {
    hide C.InitiateDownload, S.Process, S.Lookup, C.Receive, C.Download, Writeable, AtOffer, Opened, Whole, IsRequest;
    var l0, o := RequestSent(s, c, arg.index, arg.sub, d), s.(arg := arg);
    RequestFrame(c, arg.index, arg.sub, d);
    var l1 := Step(l0, ToServer);
    assert AtRequest(l1, d, o);
    ServeRequest(l1, PROMPT, d, o);
    var l2 := Step(l1, ServerCall(PROMPT));
    HearStep(l2, Offered, d, o);
    var l3 := Step(l2, ToClient);
    OfferHeard(l2, d, o);
    FirstSegment(l3, d, o);
    assert Whole(l0, OPENING) == Whole(l3, [CALL, ToServer, ServerCall(LATE)]) by {
      WholeThree(l0, ToServer, ServerCall(PROMPT), ToClient, [CALL, ToServer, ServerCall(LATE)]);
      assert OPENING == [ToServer, ServerCall(PROMPT), ToClient] + [CALL, ToServer, ServerCall(LATE)];
    }
    WholeThree(l3, CALL, ToServer, ServerCall(LATE), []);
    WholeNone(Step(Step(Step(l3, CALL), ToServer), ServerCall(LATE)));
    assert [CALL, ToServer, ServerCall(LATE)] + [] == [CALL, ToServer, ServerCall(LATE)];
  }

  lemma OfferHeard(l: Link, d: seq<byte>, o: S.Server)
    requires At(l, Offered, d, o)
    ensures Step(l, ToClient).c.rxNew
  {
    hide Listening, FrameIndex, S.Process, C.Download;
  }

  lemma WholeFirst(l: Link, a: Event, run: seq<Event>)
    ensures Whole(l, [a] + run) == Whole(Step(l, a), run)
  {
    hide Step;
    assert ([a] + run)[1..] == run;
  }

  lemma WholeThree(l: Link, a: Event, b: Event, c: Event, run: seq<Event>)
    ensures Whole(l, [a, b, c] + run) == Whole(Step(Step(Step(l, a), b), c), run)
  {
    hide Step, Whole;
    assert [a, b, c] + run == [a] + ([b] + ([c] + run));
    WholeFirst(l, a, [b] + ([c] + run));
    WholeFirst(Step(l, a), b, [c] + run);
    WholeFirst(Step(Step(l, a), b), c, run);
  }

  lemma WholeNone(l: Link)
    ensures Whole(l, []) == l
  {
    hide Step;
  }

  /** The client sends segment 1, the server takes it and then acknowledges it for lack of more. */
  lemma FirstSegment(l: Link, d: seq<byte>, o: S.Server)
    requires At(l, Offered, d, o) && l.c.rxNew && 225 <= |d|
    ensures var r := Step(Step(Step(l, CALL), ToServer), ServerCall(LATE));
            Opened(r, o.node, d) && r.c.state.BlDownloadInProgress? && r.c.block.seqno == 1
  {
    hide S.Process, S.Receive, C.Receive, C.Download, C.Segment, AtOffer, Sender, Listening;
    OfferFacts(l, d, o);
    FirstSent(l, d, o);
    var f := C.Segment(d, 0, 1);
    var c := C.Download(l.c, 0, 1, false).c;
    assert Step(l, CALL) == Link(l.s, c, [f], []);
    SegmentTaken(l.s, d, o);
    var r := S.Receive(l.s, f);
    assert Step(Step(l, CALL), ToServer) == Link(r, c, [], []);
    ListeningFacts(r, d, o);
    LateAnswer(r);
    assert Step(Link(r, c, [], []), ServerCall(LATE)) == Link(S.Process(r, LATE).s, c, [], [S.Process(r, LATE).sent.value]);
  }

  lemma FirstSent(l: Link, d: seq<byte>, o: S.Server)
    requires At(l, Offered, d, o) && l.c.rxNew && 225 <= |d|
    ensures var x := C.Download(l.c, 0, 1, false); var c := x.c;
            && x.sent == Some(C.Segment(d, 0, 1)) && Sender(c, d, c.block.size) && c.acked == 0 && c.block.size >= 32
            && c.timer == 0 && c.state.BlDownloadInProgress? && c.block.seqno == 1
  {
    hide C.DownloadTimed, C.DownloadRx, AtOffer, Listening, C.Segment, Segs;
    OfferFacts(l, d, o);
    AnswerTaken(l, Offered, d, o);
    var y := C.DownloadRx(l.c);
    ClientSends(y.c.(timer := 0, rxNew := false), 0, 1, y.abort, d, l.s.blksize);
  }

  lemma ListeningFacts(s: S.Server, d: seq<byte>, o: S.Server)
    requires Listening(s, d, o)
    ensures s.state.DownloadBlSubblock? && !s.rxNew && s.arg.stored && s.at < s.node.size && s.node == o.node && |s.buf| == o.node.size
  {
    hide Agrees;
  }

  lemma IdleReceives(s: S.Server, f: Frame)
    requires s.state.Idle? && !s.rxNew
    ensures S.Receive(s, f) == s.(rx := f, rxNew := true)
  {
  }

  lemma OfferFacts(l: Link, d: seq<byte>, o: S.Server)
    requires At(l, Offered, d, o) && l.c.rxNew && 225 <= |d|
    ensures l.toS == [] && l.toC == [] && Listening(l.s, d, o) && Base(l.s) == 0 && l.s.sequence == 0 && 32 <= l.s.blksize
  {
    hide Agrees, FrameIndex;
  }

  lemma LateAnswer(s: S.Server)
    requires s.state.DownloadBlSubblock? && !s.rxNew && s.sequence > 0 && s.timer == 0 && s.arg.stored && s.at < s.node.size
    ensures var x := S.Process(s, LATE); Answered(s, x, false) && x.s.timer == 1
  {
    hide S.SubblockResponse, S.Begin, S.Act;
    ResponseEffect(s.(timer := 1), LATE, false);
    ResponseTimer(s.(timer := 1), LATE);
  }

  lemma ResponseTimer(s: S.Server, i: S.Input)
    requires s.arg.stored && s.at < s.node.size
    ensures S.SubblockResponse(s, i, false).s.timer == s.timer
  {
    hide S.WriteOd, S.Segments;
  }

  /** Segments sent and lost move the client on. */
  lemma {:induction false} LostRun(l: Link, k: nat, n: S.Node, d: seq<byte>)
    requires Opened(l, n, d) && l.c.state.BlDownloadInProgress? && 225 <= |d|
    requires l.c.block.seqno + k <= 31
    ensures var r := Whole(l, Lost(k));
            && Opened(r, n, d) && r.s == l.s && r.toC == l.toC
            && r.c.state.BlDownloadInProgress? && r.c.block.seqno == l.c.block.seqno + k
    decreases k
  {
    hide Step, Opened;
    if k > 0 {
      LostOne(l, n, d);
      var run := Lost(k);
      assert run[1..][1..] == Lost(k - 1);
      assert run[0] == CALL && run[1..][0] == LoseRequest(0);
      LostRun(Step(Step(l, CALL), LoseRequest(0)), k - 1, n, d);
    }
  }

  /** The client in its block sends the next segment. */
  lemma NextSegment(l: Link, d: seq<byte>)
    requires Waits(l, d) && l.c.state.BlDownloadInProgress? && l.c.block.seqno < 32 && 225 <= |d| && l.toS == []
    ensures var m := Step(l, CALL); var k := l.c.block.seqno + 1;
            && m.s == l.s && m.toC == l.toC && m.toS == [C.Segment(d, 0, k)] && Waits(m, d) && m.c.block.seqno == k
            && (k < 32 ==> m.c.state.BlDownloadInProgress?)
  {
    hide C.Segment, C.Download;
    ClientSends(l.c, 0, 1, 0, d, l.c.block.size);
    NothingReceived(l.c, 0, 1, false);
  }

  lemma LostOne(l: Link, n: S.Node, d: seq<byte>)
    requires Opened(l, n, d) && l.c.state.BlDownloadInProgress? && l.c.block.seqno < 31 && 225 <= |d|
    ensures var r := Step(Step(l, CALL), LoseRequest(0));
            && Opened(r, n, d) && r.s == l.s && r.toC == l.toC && r.c.state.BlDownloadInProgress?
            && r.c.block.seqno == l.c.block.seqno + 1
  {
    hide C.Segment, C.Download, Sending;
    NextSegment(l, d);
  }

  /** The server, its timer run out before the first segment of a block, gives up. */
  lemma LateAbort(s: S.Server)
    requires s.state.DownloadBlSubblock? && !s.rxNew && s.sequence == 0 && s.timer == 1
    ensures var x := S.Process(s, PROMPT);
            x.s.state.Idle? && !x.s.rxNew && x.s.node == s.node && x.s.buf == s.buf && x.sent.Some?
  {
    hide S.SubblockResponse, S.Begin, S.Act;
  }

  /** Segment 32 is on its way, the server idle. */
  predicate Astray(l: Link, n: S.Node, d: seq<byte>)
    requires 225 <= |d|
  {
    && l.s.state.Idle? && !l.s.rxNew && l.s.node == n && |l.s.buf| == n.size
    && l.toS == [C.Segment(d, 0, 32)] && Waits(l, d)
  }

  lemma GivingUpRun(l: Link, n: S.Node, d: seq<byte>)
    requires Opened(l, n, d) && l.c.state.BlDownloadInProgress? && l.c.block.seqno == 31 && 225 <= |d|
    ensures Astray(Step(Step(Step(l, CALL), ServerCall(PROMPT)), LoseAnswer(1)), n, d)
  {
    hide C.Segment, C.Download, Sending, S.Process;
    NextSegment(l, d);
    LateAbort(l.s);
    var m := Step(Step(l, CALL), ServerCall(PROMPT));
    assert Without(m.toC, 1) == l.toC;
  }

  /** The idle server takes segment 32 for the start of a segmented download. */
  predicate Caught(l: Link, n: S.Node, other: S.Arg, d: seq<byte>) {
    && l.s.state.DownloadSegmented? && !l.s.rxNew && l.s.at == 0 && l.s.sequence == 0 && l.s.arg == other
    && l.s.node == n && |l.s.buf| == n.size && l.toS == [] && Waits(l, d)
  }

  lemma StartsSegments(s: S.Server, other: S.Arg)
    requires s.state.Idle? && s.rxNew && s.rx[0] == 0x20
    requires S.Lookup(s.node, FrameIndex(s.rx), s.rx[3]) == S.Found(other) && other.access.writeable
    requires other.length <= s.node.size
    ensures var x := S.Process(s, PROMPT);
            && x.s.state.DownloadSegmented? && !x.s.rxNew && x.s.at == 0 && x.s.sequence == 0 && x.s.arg == other
            && x.s.node == s.node && x.s.buf == s.buf && x.sent.Some?
  {
    hide S.Lookup, FrameIndex, S.StartUpload, S.SubblockResponse, S.Expedited;
    assert Specifier(s.rx[0]) == 1;
    assert S.Process(s, PROMPT) == S.Start(s.(tx := ZERO_FRAME, timer := 0), PROMPT);
  }

  lemma StrayingRun(l: Link, n: S.Node, other: S.Arg, d: seq<byte>)
    requires 225 <= |d| && Astray(l, n, d)
    requires S.Lookup(n, FromLe16(d[217], d[218]), d[219]) == S.Found(other) && other.access.writeable && other.length == 7
    ensures Caught(Step(Step(Step(l, ToServer), ServerCall(PROMPT)), LoseAnswer(1)), n, other, d)
  {
    hide C.Download, Sending, S.Process, S.Lookup, S.Receive;
    var f := C.Segment(d, 0, 32);
    assert f[0] == 0x20 && FrameIndex(f) == FromLe16(d[217], d[218]) && f[3] == d[219];
    IdleReceives(l.s, f);
    var s := l.s.(rx := f, rxNew := true);
    assert l.toS[1..] == [];
    StartsSegments(s, other);
    var m := Step(Step(l, ToServer), ServerCall(PROMPT));
    assert Without(m.toC, 1) == l.toC;
  }

  /** The client takes the acknowledgement of segment 1 and starts its next block behind it. */
  lemma NextBlock(l: Link, d: seq<byte>)
    requires Waits(l, d) && 225 <= |d| && l.toS == []
    ensures var m := Step(Step(l, ToClient), CALL); m.s == l.s && m.toS == [C.Segment(d, 7, 1)]
  {
    hide C.DownloadTimed, C.Segment;
    var c := l.c.(rx := l.toC[0], rxNew := true);
    assert C.Receive(l.c, l.toC[0]) == c;
    var y := C.DownloadRx(c);
    assert y.abort == 0 && !y.done && y.c.acked == 7;
    ClientSends(y.c.(timer := 0, rxNew := false), 0, 1, 0, d, y.c.block.size);
  }

  /** That segment is a whole segmented download of seven bytes. */
  lemma EndsSegments(s: S.Server, d: seq<byte>)
    requires s.state.DownloadSegmented? && s.rxNew && s.at == 0 && s.sequence == 0 && s.arg.length == 7
    requires s.rx == C.Segment(d, 7, 1) && 225 <= |d| && |s.buf| == s.node.size && Writeable(s, PROMPT)
    ensures Written(S.Process(s, PROMPT).s.node, d[7..14], s)
  {
    hide S.WriteOd, S.SegmentDownload, S.Process, Writeable, Written;
    assert s.rx[0] == 1 && s.rx[1..8] == d[7..14];
    SegmentCall(s);
    var s1 := s.(tx := ZERO_FRAME, timer := 0);
    OnlySegment(s1);
    var s2 := s1.(buf := Blit(s.buf, 0, d[7..14]), at := 7);
    WriteThrough(s2.(arg := s.arg.(last := true)), PROMPT, d[7..14], s);
  }

  lemma SegmentCall(s: S.Server)
    requires s.state.DownloadSegmented? && s.rxNew && s.rx[0] == 1
    ensures S.Process(s, PROMPT) == S.SegmentDownload(s.(tx := ZERO_FRAME, timer := 0), PROMPT)
  {
    hide S.SegmentDownload, S.SubblockResponse, S.Start;
  }

  lemma OnlySegment(s: S.Server)
    requires s.at == 0 && s.sequence == 0 && s.arg.length == 7 && s.rx[0] == 1
    ensures S.SegmentDownload(s, PROMPT) == S.LastSegment(s.(buf := Blit(s.buf, 0, s.rx[1..8]), at := 7), 0)
  {
    hide S.LastSegment, S.WriteOd, Blit;
    assert Specifier(1) == 0 && Toggle(1) == 0 && SegmentUnused(1) == 0 && Bit0(1);
  }

  lemma ClosingRun(l: Link, n: S.Node, other: S.Arg, d: seq<byte>, o: S.Server)
    requires Caught(l, n, other, d) && 225 <= |d| && other.length == 7
    requires o.node == n && o.arg == other && Writeable(o, PROMPT)
    ensures Written(Step(Step(Step(Step(l, ToClient), CALL), ToServer), ServerCall(PROMPT)).s.node, d[7..14], o)
  {
    hide C.Download, C.Receive, Sending, S.Process, S.Receive, C.Segment, Written, Waits;
    var m := Step(Step(l, ToClient), CALL);
    NextBlock(l, d);
    var f := C.Segment(d, 7, 1);
    SegmentedReceives(l.s, f);
    var s := l.s.(rx := f, rxNew := true);
    assert Step(m, ToServer).s == s;
    WriteableSame(o, s);
    EndsSegments(s, d);
    WrittenSame(S.Process(s, PROMPT).s.node, d[7..14], s, o);
  }

  lemma SegmentedReceives(s: S.Server, f: Frame)
    requires s.state.DownloadSegmented? && !s.rxNew
    ensures S.Receive(s, f) == s.(rx := f, rxNew := true)
  {
  }

  lemma WriteableSame(o: S.Server, p: S.Server)
    requires o.node == p.node && o.arg == p.arg && Writeable(o, PROMPT)
    ensures Writeable(p, PROMPT)
  {
  }

  /** The run writes seven bytes of the data to the other object. */
  lemma DetourRun(s: S.Server, c: C.Client, d: seq<byte>, arg: S.Arg, other: S.Arg)
    requires Diverts(s, d, arg, other)
    ensures Written(Whole(RequestSent(s, c, arg.index, arg.sub, d), Detour()).s.node, d[7..14], s.(arg := other))
  {
    hide Whole, Step, Opened, Written, Writeable, S.Lookup, Astray, Caught, Lost, RequestSent;
    var l0 := RequestSent(s, c, arg.index, arg.sub, d);
    WholeConcat(l0, OPENING + Lost(30) + GIVING_UP + STRAYING, CLOSING);
    WholeConcat(l0, OPENING + Lost(30) + GIVING_UP, STRAYING);
    WholeConcat(l0, OPENING + Lost(30), GIVING_UP);
    WholeConcat(l0, OPENING, Lost(30));
    OpeningRun(s, c, d, arg, other);
    var l1 := Whole(l0, OPENING);
    LostRun(l1, 30, s.node, d);
    var l2 := Whole(l1, Lost(30));
    GivingUpRun(l2, s.node, d);
    Three(l2, CALL, ServerCall(PROMPT), LoseAnswer(1));
    var l3 := Whole(l2, GIVING_UP);
    StrayingRun(l3, s.node, other, d);
    Three(l3, ToServer, ServerCall(PROMPT), LoseAnswer(1));
    var l4 := Whole(l3, STRAYING);
    ClosingRun(l4, s.node, other, d, s.(arg := other));
    WholeFirst(l4, ToClient, [CALL, ToServer, ServerCall(PROMPT)]);
    assert [ToClient] + [CALL, ToServer, ServerCall(PROMPT)] == CLOSING;
    Three(Step(l4, ToClient), CALL, ToServer, ServerCall(PROMPT));
  }

  lemma Three(l: Link, a: Event, b: Event, c: Event)
    ensures Whole(l, [a, b, c]) == Step(Step(Step(l, a), b), c)
  {
    hide Step, Whole;
    WholeThree(l, a, b, c, []);
    assert [a, b, c] + [] == [a, b, c];
    WholeNone(Step(Step(Step(l, a), b), c));
  }

  // ------------------------------------------------------------------- an example

  /** An object of n bytes, and one of seven behind it. */
  function ExampleOd(n: uint16): (od: Od.Dictionary) {
    [Od.Entry(0x2000, Od.Var(Od.OPEN, Some(seq(n, _ => 0))), false),
     Od.Entry(0x2001, Od.Var(Od.OPEN, Some([1, 1, 1, 1, 1, 1, 1])), false)]
  }

  function ExampleServer(n: uint16): (s: S.Server)
    requires 225 <= n
  {
    S.Server(S.Node(n, false, ExampleOd(n)), S.Idle, false, ZERO_FRAME, ZERO_FRAME, 0, ExampleArg(n),
             seq(n, _ => 0), 0, 0, 0, 0, false, false, 0)
  }

  function ExampleArg(n: uint16): (a: S.Arg) {
    S.Arg(0x2000, 0, 0, true, Od.OPEN, n, n, true)
  }

  function OtherArg(): (a: S.Arg) {
    S.Arg(0x2001, 0, 1, true, Od.OPEN, 7, 7, true)
  }

  /** Zeros, but for the index 0x2001 where segment 32 begins. */
  function ExampleData(n: uint16): (d: seq<byte>)
    ensures |d| == n
  {
    seq(n, i => if i == 217 then 0x01 else if i == 218 then 0x20 else 0)
  }

  lemma ExampleDiverts(n: uint16)
    requires 225 <= n
    ensures Diverts(ExampleServer(n), ExampleData(n), ExampleArg(n), OtherArg())
    ensures Ready(ExampleServer(n), 0x2000, 0, ExampleArg(n))
  {
    hide Od.Find;
    var od := ExampleOd(n);
    assert Od.Find(od, 0x2000) == 0 && Od.Find(od, 0x2001) == 1 by {
      assert od[0].index == 0x2000 && od[1].index == 0x2001;
    }
  }

  /** The other object changes, which no block download of the data to the first does. */
  lemma ExampleBreaks(n: uint16, c: C.Client)
    requires 225 <= n
    ensures var s := ExampleServer(n);
            !AllOrNothing(Whole(RequestSent(s, c, 0x2000, 0, ExampleData(n)), Detour()).s.node, s, ExampleData(n), ExampleArg(n))
  {
    hide Whole, Detour, RequestSent, Diverts, Od.Find, Od.Set;
    var s, d := ExampleServer(n), ExampleData(n);
    ExampleDiverts(n);
    DetourRun(s, c, d, ExampleArg(n), OtherArg());
    var v := S.Native(d[7..14], S.Swaps(s.(arg := OtherArg())));
    assert v[0] == 0;
    Od.SetGet(s.node.od, 1, 0, v, 1, 0);
    var w := S.Native(d, S.Swaps(s.(arg := ExampleArg(n))));
    if Od.Fits(s.node.od, 0, 0, w) {
      Od.SetGet(s.node.od, 0, 0, w, 1, 0);
    }
  }

  /** Some run of some block download of n bytes does something else than all or nothing. */
  ghost predicate Fails(n: nat) {
    exists s, c, index, sub, d, arg, run ::
      |d| == n && C.PST < n < 0x1_0000 && Ready(s, index, sub, arg)
      && !AllOrNothing(Whole(RequestSent(s, c, index, sub, d), run).s.node, s, d, arg)
  }

  /** Block download is all or nothing in every run exactly up to 224 bytes. */
  lemma WholeRunLimit(n: nat, c: C.Client)
    requires C.PST < n < 0x1_0000
    ensures Fails(n) <==> n > WHOLE_MAX
  {
    hide Ready, AllOrNothing, Whole, RequestSent, ExampleServer, ExampleData, ExampleArg, Detour, Diverts;
    if n > WHOLE_MAX {
      ExampleBreaks(n, c);
      ExampleDiverts(n);
    } else {
      forall s, c, index, sub, d, arg, run | |d| == n && Ready(s, index, sub, arg)
        ensures AllOrNothing(Whole(RequestSent(s, c, index, sub, d), run).s.node, s, d, arg)
      {
        WholeRunSafe(s, c, index, sub, d, arg, run);
      }
    }
  }
}
