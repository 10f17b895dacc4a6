/**
  Why the report of a block download can be trusted up to 441 bytes only. From
  442 bytes on, the last segment can have number 64, and its first byte 0xC0 is
  the command that starts a block download. If the server has timed out
  meanwhile, it takes that segment for a request, the segment sent again for the
  data, and confirms to the client what it has written to another object.
 */
module SdoBlockDownloadMislead {
  import opened Can
  import opened SdoTypes
  import Od
  import S = SdoServer
  import C = SdoClient
  import opened SdoCalls
  import opened SdoSegments
  import opened SdoBlockDownload
  import opened SdoBlockDownloadStart
  import opened SdoBlockDownloadWhole
  import opened SdoBlockDownloadLossless
  import opened SdoBlockDownloadDetour
  import K = SdoBlockDownloadCredit
  import R = SdoBlockDownloadReport

  /** The byte at which the last segment begins. */
  function LastAt(n: nat): (at: nat)
    requires 0 < n
  {
    7 * (SegmentsFor(n) - 1)
  }

  /** The bytes of the last segment. */
  function Tail(d: seq<byte>): (t: seq<byte>)
    requires 0 < |d|
    ensures 0 < |t| <= 7
  {
    d[LastAt(|d|)..]
  }

  /** The bytes b, behind the first byte of a request, name that object. */
  predicate Names(n: S.Node, b: seq<byte>, other: S.Arg)
    requires |b| == 7
  {
    S.Lookup(n, FromLe16(b[0], b[1]), b[2]) == S.Found(other)
  }

  /** The last segment names another object, of as many bytes as the segment has. */
  predicate Misleads(s: S.Server, d: seq<byte>, arg: S.Arg, other: S.Arg) {
    && Ready(s, arg.index, arg.sub, arg) && arg.access.writeable && arg.length == |d|
    && 442 <= |d| && 7 * SegmentsFor(|d|) <= s.node.size
    && Names(s.node, C.Padded7(d, LastAt(|d|)), other)
    && other.stored && other.access.writeable && other.length == |Tail(d)| && Writeable(s.(arg := other), PROMPT)
  }

  // ---------------------------------------------------------------- the first blocks

  /** The client holds the answer of a server that waits for the next block at byte `at`. */
  predicate Held(l: Link, at: nat, d: seq<byte>, o: S.Server) {
    && l.c.rxNew && l.c.rx[0] != ABORT && !C.DownloadRx(l.c).done && l.s.sequence == 0 && l.s.at == at
    && l.s.blksize == S.Segments(o.node.size - at) && l.toS == []
    && var c := C.DownloadRx(l.c).c.(timer := 0, rxNew := false);
       AtBlock(l.(c := c), d, o) && c.state.BlDownloadInProgress? && c.block.seqno == 0
  }

  /** The segments 1 to k of the block are in. */
  predicate Inside(l: Link, k: byte, base: nat, d: seq<byte>, o: S.Server) {
    && AtBlock(l, d, o) && l.s.sequence == l.c.block.seqno == k && Base(l.s) == base && l.c.state.BlDownloadInProgress?
    && l.c.timer == 0 && l.s.timer == 0 && l.s.blksize == S.Segments(o.node.size - base) && l.toS == []
  }

  /** What is known inside a block. */
  lemma BlockFacts(l: Link, d: seq<byte>, o: S.Server)
    requires AtBlock(l, d, o)
    ensures Listening(l.s, d, o) && Sender(l.c, d, l.s.blksize) && l.c.acked == Base(l.s) && l.toC == []
    ensures !l.c.rxNew && l.c.offset == Base(l.s) + 7 * l.c.block.seqno && l.c.block.seqno < 0x80 && 0 <= Base(l.s)
  {
    hide Agrees, Segs;
  }

  /** Segment k + 1 is under way, and arrives. */
  lemma Arrives(l: Link, k: byte, base: nat, d: seq<byte>, o: S.Server)
    requires k < 0x7F && Listening(l.s, d, o) && l.s.sequence == k && Base(l.s) == base && Sender(l.c, d, l.s.blksize)
    requires l.c.acked == base && l.c.block.seqno == k + 1 && l.c.timer == 0
    requires l.toS == [C.Segment(d, base, k + 1)] && l.toC == []
    requires base + 7 * (k as int + 1) < |d| && k + 1 < l.s.blksize == S.Segments(o.node.size - base)
    ensures Inside(Step(l, ToServer), k + 1, base, d, o)
  {
    hide S.Process, S.Receive, C.Receive, C.Download, C.Segment, S.Segments, Agrees;
    SegmentTaken(l.s, d, o);
    SegsEmpty(d, base, k + 1, k + 1);
    assert l.toS[1..] == [];
  }

  /** The client takes the answer, and segment 1 arrives. */
  lemma Enters(l: Link, at: nat, d: seq<byte>, o: S.Server)
    requires Held(l, at, d, o) && at + 7 < |d| && 1 < S.Segments(o.node.size - at)
    ensures Inside(Step(Step(l, CALL), ToServer), 1, at, d, o)
  {
    hide S.Process, S.Receive, C.Receive, C.DownloadTimed, C.DownloadRx, C.Segment, Listening, S.Segments, Sender, AtBlock,
      Inside;
    var y := C.DownloadRx(l.c);
    var c := y.c.(timer := 0, rxNew := false);
    BlockFacts(l.(c := c), d, o);
    ClientSends(c, 0, 1, y.abort, d, l.s.blksize);
    var m := Step(l, CALL);
    assert m == Link(l.s, C.DownloadTimed(c, 0, 1, false, y.abort).c, [C.Segment(d, at, 1)], []);
    Arrives(m, 0, at, d, o);
  }

  /** One more segment. */
  lemma Advances(l: Link, k: byte, base: nat, d: seq<byte>, o: S.Server)
    requires Inside(l, k, base, d, o) && k < 0x7F && base + 7 * (k as int + 1) < |d| && k + 1 < S.Segments(o.node.size - base)
    ensures Inside(Step(Step(l, CALL), ToServer), k + 1, base, d, o)
  {
    hide S.Process, S.Receive, C.Receive, C.DownloadTimed, C.DownloadRx, C.Segment, Listening, S.Segments, Sender, AtBlock;
    BlockFacts(l, d, o);
    NothingReceived(l.c, 0, 1, false);
    ClientSends(l.c, 0, 1, 0, d, l.s.blksize);
    var m := Step(l, CALL);
    assert m == Link(l.s, C.DownloadTimed(l.c, 0, 1, false, 0).c, [C.Segment(d, base, k + 1)], []);
    Arrives(m, k, base, d, o);
  }

  /** The acknowledgement of k segments, with the room left. */
  predicate AckOf(f: Frame, k: byte, room: int) {
    f[0] == 0xA2 && f[1] == k && f[2] == S.Segments(room)
  }

  /** The server acknowledges the segments that are in, for lack of more. */
  lemma EarlyAck(l: Link, k: byte, base: nat, d: seq<byte>, o: S.Server)
    requires Inside(l, k, base, d, o) && 0 < k
    ensures var m := Step(l, ServerCall(LATE)); var at := base + 7 * (k as int);
            && m.c == l.c && m.toS == [] && |m.toC| == 1 && AckOf(m.toC[0], k, o.node.size - at)
            && Listening(m.s, d, o) && m.s.sequence == 0 && m.s.at == at && m.s.timer == 1
            && m.s.blksize == S.Segments(o.node.size - at)
  {
    hide S.Process, S.Receive, C.Receive, C.Download, S.Segments, Sender, Segs, Agrees;
    LateAnswer(l.s);
    LateDetails(l.s);
    var x := S.Process(l.s, LATE);
    SameCarrying(l.s, x.s, d, o);
  }

  lemma LateDetails(s: S.Server)
    requires s.state.DownloadBlSubblock? && !s.rxNew && s.sequence > 0 && s.timer == 0 && s.arg.stored && s.at < s.node.size
    ensures var x := S.Process(s, LATE);
            && x.s.crcOn == s.crcOn && x.s.crc == s.crc && x.sent.Some?
            && x.s.blksize == x.sent.value[2] == S.Segments(s.node.size - s.at)
  {
    hide S.SubblockResponse, S.Begin, S.Act, S.Segments;
    LateResponse(s.(timer := 1));
  }

  lemma LateResponse(s: S.Server)
    requires s.arg.stored && s.at < s.node.size
    ensures var x := S.SubblockResponse(s, LATE, false);
            && x.s.crcOn == s.crcOn && x.s.crc == s.crc && x.sent.Some?
            && x.s.blksize == x.sent.value[2] == S.Segments(s.node.size - s.at)
  {
    hide S.WriteOd, S.Segments;
  }

  /** A block of one segment, acknowledged early. */
  const ROUND := [CALL, ToServer, ServerCall(LATE), ToClient]

  lemma OneRound(l: Link, at: nat, d: seq<byte>, o: S.Server)
    requires Held(l, at, d, o) && at + 7 < |d| && 1 < S.Segments(o.node.size - at)
    ensures Held(Step(Step(Step(Step(l, CALL), ToServer), ServerCall(LATE)), ToClient), at + 7, d, o)
  {
    hide Step, Listening, S.Segments, Held;
    Enters(l, at, d, o);
    var m := Step(Step(l, CALL), ToServer);
    EarlyAck(m, 1, at, d, o);
    AckHeard(Step(m, ServerCall(LATE)), m.s.blksize, at, d, o) by {
      BlockFacts(m, d, o);
    }
  }

  /** The early acknowledgement reaches the client. */
  lemma AckHeard(l: Link, size: byte, at: nat, d: seq<byte>, o: S.Server)
    requires Listening(l.s, d, o) && l.s.sequence == 0 && l.s.at == at + 7 && l.s.blksize == S.Segments(o.node.size - l.s.at)
    requires Sender(l.c, d, size) && l.c.state.BlDownloadInProgress? && l.c.acked == at && l.c.block.seqno == 1 < size
    requires l.toS == [] && |l.toC| == 1 && AckOf(l.toC[0], 1, o.node.size - l.s.at) && at + 7 < |d|
    ensures Held(Step(l, ToClient), at + 7, d, o)
  {
    hide S.Segments, Agrees;
    assert Specifier(0xA2) == 5 && Bit1(0xA2);
    var m := Step(l, ToClient);
    assert m.toC == [];
    SegsEmpty(d, at + 7, 0, 0);
  }

  const ASKING := [ToServer, ServerCall(PROMPT), ToClient]

  function Rounds(k: nat): (run: seq<Event>) {
    if k == 0 then [] else ROUND + Rounds(k - 1)
  }

  /** k segments are sent and arrive. */
  function Segments(k: nat): (run: seq<Event>) {
    if k == 0 then [] else [CALL, ToServer] + Segments(k - 1)
  }

  lemma AskingRun(s: S.Server, c: C.Client, d: seq<byte>, arg: S.Arg, other: S.Arg)
    requires Misleads(s, d, arg, other)
    ensures Held(Whole(RequestSent(s, c, arg.index, arg.sub, d), ASKING), 0, d, s.(arg := arg))
  {
    hide C.InitiateDownload, S.Process, S.Lookup, C.Receive, C.Download, Writeable, AtOffer, Whole, IsRequest, C.DownloadRx,
      Names;
    var l0, o := RequestSent(s, c, arg.index, arg.sub, d), s.(arg := arg);
    RequestFrame(c, arg.index, arg.sub, d);
    var l1 := Step(l0, ToServer);
    assert AtRequest(l1, d, o);
    ServeRequest(l1, PROMPT, d, o);
    var l2 := Step(l1, ServerCall(PROMPT));
    HearStep(l2, Offered, d, o);
    var l3 := Step(l2, ToClient);
    OfferHeard(l2, d, o);
    AnswerTaken(l3, Offered, d, o);
    OfferSize(l3, d, o);
    Three(l0, ToServer, ServerCall(PROMPT), ToClient);
  }

  lemma OfferSize(l: Link, d: seq<byte>, o: S.Server)
    requires AtOffer(l, d, o)
    ensures l.s.blksize == S.Segments(o.node.size) && l.s.sequence == 0 && l.s.at == 0 && l.toS == []
  {
    hide S.Segments, Listening, FrameIndex;
  }

  lemma {:induction false} RoundsRun(l: Link, k: nat, at: nat, d: seq<byte>, o: S.Server)
    requires Held(l, at, d, o) && at + 7 * k < |d| && at + 7 * k + 14 <= o.node.size
    ensures Held(Whole(l, Rounds(k)), at + 7 * k, d, o)
    decreases k
  {
    hide Held, Step, Whole;
    if k == 0 {
      WholeNone(l);
    } else {
      OneRound(l, at, d, o);
      WholeConcat(l, ROUND, Rounds(k - 1));
      Four(l, CALL, ToServer, ServerCall(LATE), ToClient);
      RoundsRun(Whole(l, ROUND), k - 1, at + 7, d, o);
    }
  }

  lemma Two(l: Link, a: Event, b: Event)
    ensures Whole(l, [a, b]) == Step(Step(l, a), b)
  {
    hide Step, Whole;
    assert [a, b] == [a] + ([b] + []);
    WholeFirst(l, a, [b] + []);
    WholeFirst(Step(l, a), b, []);
    WholeNone(Step(Step(l, a), b));
  }

  lemma Four(l: Link, a: Event, b: Event, c: Event, d: Event)
    ensures Whole(l, [a, b, c, d]) == Step(Step(Step(Step(l, a), b), c), d)
  {
    hide Step, Whole;
    assert [a, b, c, d] == [a, b] + [c, d];
    WholeConcat(l, [a, b], [c, d]);
    Two(l, a, b);
    Two(Step(Step(l, a), b), c, d);
  }

  lemma {:induction false} SegmentsRun(l: Link, k: byte, n: nat, base: nat, d: seq<byte>, o: S.Server)
    requires Inside(l, k, base, d, o) && k + n < 0x40 && base + 7 * (k + n) < |d| && base + 7 * 0x40 <= o.node.size
    ensures Inside(Whole(l, Segments(n)), k + n, base, d, o)
    decreases n
  {
    hide Inside, Step, Whole;
    if n == 0 {
      WholeNone(l);
    } else {
      Advances(l, k, base, d, o);
      WholeConcat(l, [CALL, ToServer], Segments(n - 1));
      Two(l, CALL, ToServer);
      SegmentsRun(Whole(l, [CALL, ToServer]), k + 1, n - 1, base, d, o);
    }
  }

  /** All but one segment of the last block. */
  lemma LoadingRun(l: Link, base: nat, d: seq<byte>, o: S.Server)
    requires Held(l, base, d, o) && base + 7 * 0x3F < |d| && base + 7 * 0x40 <= o.node.size
    ensures Inside(Whole(l, Segments(63)), 63, base, d, o)
  {
    hide Held, Inside, Step, Whole;
    Enters(l, base, d, o);
    WholeConcat(l, [CALL, ToServer], Segments(62));
    Two(l, CALL, ToServer);
    assert Segments(63) == [CALL, ToServer] + Segments(62);
    SegmentsRun(Whole(l, [CALL, ToServer]), 1, 62, base, d, o);
  }

  // -------------------------------------------------------------- the server strays

  /** The client has sent its last segment with number 64, and has not seen the acknowledgement of 63. */
  predicate Behind(l: Link, d: seq<byte>) {
    && 442 <= |d| && |l.toC| == 1 && l.toC[0][0] == 0xA2 && l.toC[0][1] == 63 && l.toC[0][2] < 0x80
    && l.c.buf == d && l.c.state.BlDownloadAck? && !l.c.rxNew && l.c.acked == LastAt(|d|) - 441 && l.c.block.size == 64
  }

  /** The server has given up. */
  const QUITTING := [ServerCall(LATE), ServerCall(PROMPT), LoseAnswer(1), CALL]

  lemma QuittingRun(l: Link, d: seq<byte>, o: S.Server)
    requires 442 <= |d| && Inside(l, 63, LastAt(|d|) - 441, d, o)
    ensures var m := Whole(l, QUITTING);
            && m.s.state.Idle? && !m.s.rxNew && m.s.node == o.node && |m.s.buf| == o.node.size
            && Behind(m, d) && m.toS == [[0xC0] + C.Padded7(d, LastAt(|d|))]
  {
    hide S.Process, C.DownloadTimed, Listening, C.Segment, Whole, AtBlock;
    var base := LastAt(|d|) - 441;
    EarlyAck(l, 63, base, d, o);
    var l1 := Step(l, ServerCall(LATE));
    BlockFacts(l, d, o);
    ListeningFacts(l1.s, d, o);
    LateAbort(l1.s);
    var l2 := Step(l1, ServerCall(PROMPT));
    var l3 := Step(l2, LoseAnswer(1));
    assert l3.toC == l1.toC;
    NothingReceived(l3.c, 0, 1, false);
    ClientSends(l3.c, 0, 1, 0, d, l.s.blksize);
    var l4 := Step(l3, CALL);
    LastSegment64(d);
    Four(l, ServerCall(LATE), ServerCall(PROMPT), LoseAnswer(1), CALL);
  }

  lemma LastSegment64(d: seq<byte>)
    requires 442 <= |d|
    ensures C.Segment(d, LastAt(|d|) - 441, 64) == [0xC0] + C.Padded7(d, LastAt(|d|))
    ensures 441 <= LastAt(|d|) < |d| <= LastAt(|d|) + 7
  {
  }

  /** The idle server takes segment 64 for the request of a block download without size and CRC. */
  lemma StartsBlocks(s: S.Server, other: S.Arg)
    requires s.state.Idle? && s.rxNew && s.rx[0] == 0xC0
    requires S.Lookup(s.node, FrameIndex(s.rx), s.rx[3]) == S.Found(other) && other.access.writeable
    requires other.length <= s.node.size
    ensures var x := S.Process(s, PROMPT);
            && x.s.state.DownloadBlSubblock? && !x.s.rxNew && x.s.at == 0 && x.s.sequence == 0 && x.s.arg == other
            && x.s.node == s.node && x.s.buf == s.buf && !x.s.crcOn && x.sent.Some?
  {
    hide S.Lookup, FrameIndex, S.StartUpload, S.SubblockResponse, S.Segments;
    assert Specifier(s.rx[0]) == 6 && !Bit0(s.rx[0]) && !Bit1(s.rx[0]) && !Bit2(s.rx[0]);
    assert S.Process(s, PROMPT) == S.Start(s.(tx := ZERO_FRAME, timer := 0), PROMPT);
  }

  /** The server expects the last bytes of the data for the other object. */
  predicate Reopened(l: Link, d: seq<byte>, o: S.Server) {
    && Behind(l, d) && l.toS == [] && Carrying(l.s, Tail(d), o)
    && l.s.state.DownloadBlSubblock? && !l.s.rxNew && l.s.at == 0 && l.s.sequence == 0 && !l.s.crcOn
  }

  lemma ReopeningRun(l: Link, d: seq<byte>, o: S.Server)
    requires l.s.state.Idle? && !l.s.rxNew && l.s.node == o.node && |l.s.buf| == o.node.size
    requires o.arg.stored && o.arg.access.writeable
    requires Behind(l, d) && l.toS == [[0xC0] + C.Padded7(d, LastAt(|d|))] && 7 <= o.node.size
    requires Names(o.node, C.Padded7(d, LastAt(|d|)), o.arg) && o.arg.length == |Tail(d)|
    ensures Reopened(Whole(l, STRAYING), d, o)
  {
    hide C.Download, S.Process, S.Lookup, S.Receive, Whole;
    var b := C.Padded7(d, LastAt(|d|));
    var f: Frame := [0xC0] + b;
    assert FrameIndex(f) == FromLe16(b[0], b[1]) && f[3] == b[2];
    IdleReceives(l.s, f);
    var s := l.s.(rx := f, rxNew := true);
    assert l.toS[1..] == [];
    StartsBlocks(s, o.arg);
    var m := Step(Step(l, ToServer), ServerCall(PROMPT));
    assert Without(m.toC, 1) == l.toC;
    Three(l, ToServer, ServerCall(PROMPT), LoseAnswer(1));
  }

  // ------------------------------------------------------------ the client is told of success

  /** The client takes the old acknowledgement and sends the last segment again, now with number 1. */
  lemma GoesBack(l: Link, d: seq<byte>)
    requires Behind(l, d) && l.toS == []
    ensures var m := Step(Step(l, ToClient), CALL);
            && m.s == l.s && m.toS == [C.Segment(d, LastAt(|d|), 1)] && m.toC == [] && LastSent(m.c, d)
  {
    hide C.DownloadTimed, C.Segment;
    LastSegment64(d);
    assert Specifier(0xA2) == 5 && Bit1(0xA2);
    var c := l.c.(rx := l.toC[0], rxNew := true);
    assert C.Receive(l.c, l.toC[0]) == c;
    var y := C.DownloadRx(c);
    assert y.abort == 0 && !y.done && y.c.acked == LastAt(|d|);
    ClientSends(y.c.(timer := 0, rxNew := false), 0, 1, 0, d, y.c.block.size);
  }

  /** The last segment was segment 1 of its block. */
  predicate LastSent(c: C.Client, d: seq<byte>) {
    && 0 < |d| && c.buf == d && c.state.BlDownloadAck? && !c.rxNew && c.block.size == 1 && c.offset == LastAt(|d|) + 7
    && c.block.unused == LastAt(|d|) + 7 - |d|
  }

  lemma TailSegment(d: seq<byte>)
    requires 0 < |d|
    ensures C.Segment(d, LastAt(|d|), 1) == C.Segment(Tail(d), 0, 1)
  {
    assert C.Padded7(d, LastAt(|d|)) == C.Padded7(Tail(d), 0);
  }

  /** The server takes it, and has all it expects. */
  lemma TailTaken(s: S.Server, d: seq<byte>, o: S.Server)
    requires 0 < |d| && Carrying(s, Tail(d), o)
    requires s.state.DownloadBlSubblock? && !s.rxNew && s.at == 0 && s.sequence == 0 && !s.crcOn
    ensures var r := S.Receive(s, C.Segment(d, LastAt(|d|), 1)); var x := S.Process(r, PROMPT);
            && Carrying(x.s, Tail(d), o) && x.s.state.DownloadBlEnd? && !x.s.rxNew && x.s.at == 7 && !x.s.crcOn
            && x.sent.Some? && x.sent.value[0] == 0xA2 && x.sent.value[1] == 1
  {
    hide S.ReceiveSegment, S.Process, Agrees, C.Segment, Answered;
    var f := C.Segment(Tail(d), 0, 1);
    TailSegment(d);
    SegmentLater(Tail(d), 0, 1);
    LiveNumber(f, 0, Tail(d), 1);
    LastBit(Tail(d), 0, 1);
    TakeInOrder(s, f, Tail(d), o);
    TakeDetails(s, f);
    var r := S.Receive(s, f);
    Responds(r, PROMPT);
    AnsweredFacts(r, S.Process(r, PROMPT), true);
    SameCarrying(r, S.Process(r, PROMPT).s, Tail(d), o);
  }

  /** The server has acknowledged the last segment. */
  predicate Nearly(l: Link, d: seq<byte>, o: S.Server) {
    && LastSent(l.c, d) && Carrying(l.s, Tail(d), o) && l.s.state.DownloadBlEnd? && !l.s.rxNew && l.s.at == 7 && !l.s.crcOn
    && l.toS == [] && |l.toC| == 1 && l.toC[0][0] == 0xA2 && l.toC[0][1] == 1
  }

  lemma BackRun(l: Link, d: seq<byte>, o: S.Server)
    requires Reopened(l, d, o)
    ensures Nearly(Whole(l, CLOSING), d, o)
  {
    hide C.Download, C.Receive, S.Process, S.Receive, Whole, C.Segment, Carrying;
    GoesBack(l, d);
    TailTaken(l.s, d, o);
    var m := Step(Step(l, ToClient), CALL);
    assert m.toS[1..] == [];
    Four(l, ToClient, CALL, ToServer, ServerCall(PROMPT));
  }

  /** The client takes it for the acknowledgement of all its data. */
  lemma SendsEnd(l: Link, d: seq<byte>)
    requires LastSent(l.c, d) && l.toS == [] && |l.toC| == 1 && l.toC[0][0] == 0xA2 && l.toC[0][1] == 1
    ensures var m := Step(Step(l, ToClient), CALL);
            && m.s == l.s && m.toS == [C.EndFrame(LastAt(|d|) + 7 - |d|, Checksum(d))] && m.toC == []
            && m.c.state.BlDownloadCrcAck? && !m.c.rxNew
  {
    hide C.EndFrame, Checksum, C.SendBlockSegment, C.SendDownloadSegment;
    assert Specifier(0xA2) == 5 && Bit1(0xA2);
    var c := l.c.(rx := l.toC[0], rxNew := true);
    assert C.Receive(l.c, l.toC[0]) == c;
    assert C.DownloadRx(c).c.state.BlDownloadCrc?;
  }

  /** The server writes the bytes of the last segment, and confirms. */
  lemma TailWritten(s: S.Server, d: seq<byte>, crc: uint16, o: S.Server)
    requires 0 < |d| && Carrying(s, Tail(d), o) && Writeable(o, PROMPT)
    requires s.state.DownloadBlEnd? && s.rxNew && s.at == 7 && !s.crcOn && s.rx == C.EndFrame(LastAt(|d|) + 7 - |d|, crc)
    ensures var x := S.Process(s, PROMPT); Written(x.s.node, Tail(d), o) && x.sent.Some? && x.sent.value[0] == 0xA1
  {
    hide S.EndBlockDownload, Written, Writeable, Agrees, C.EndFrame, S.Process, BlockUnused, Specifier, Bit0;
    var u := LastAt(|d|) + 7 - |d|;
    C.EndFrameFields(u, crc);
    EndTaken(s, PROMPT);
    var s1 := s.(tx := ZERO_FRAME, timer := 0);
    Uncut(s1, u, Tail(d), o);
  }

  lemma Uncut(s: S.Server, u: SegmentLength, t: seq<byte>, o: S.Server)
    requires Carrying(s, t, o) && s.at == 7 && !s.crcOn && Writeable(o, PROMPT) && |t| == 7 - u
    requires Specifier(s.rx[0]) == 6 && Bit0(s.rx[0]) && BlockUnused(s.rx[0]) == u
    ensures var x := S.EndBlockDownload(s, PROMPT); Written(x.s.node, t, o) && x.sent.Some? && x.sent.value[0] == 0xA1
  {
    hide S.WriteOd, Specifier, Bit0, BlockUnused, Written, Minus16, Writeable, Agrees;
    Minus16Exact(7, u);
    AgreesLess(s.buf, 7, |t|, t);
    WriteThrough(s.(at := |t|, arg := s.arg.(last := true)), PROMPT, t, o);
  }

  /** The client is told that all went well. */
  predicate Confirmed(l: Link) {
    l.c.state.BlDownloadCrcAck? && !l.c.rxNew && |l.toC| == 1 && l.toC[0][0] == 0xA1
  }

  lemma EndingRun(l: Link, d: seq<byte>, o: S.Server)
    requires Nearly(l, d, o) && Writeable(o, PROMPT)
    ensures var m := Whole(l, CLOSING); Confirmed(m) && Written(m.s.node, Tail(d), o)
  {
    hide C.Download, C.Receive, S.Process, Whole, Carrying, Written, C.EndFrame, Checksum, Writeable;
    SendsEnd(l, d);
    var m := Step(Step(l, ToClient), CALL);
    var f := m.toS[0];
    var s := l.s.(rx := f, rxNew := true);
    assert Step(m, ToServer) == m.(s := s, toS := []);
    StillCarrying(l.s, s, Tail(d), o);
    TailWritten(s, d, Checksum(d), o);
    Four(l, ToClient, CALL, ToServer, ServerCall(PROMPT));
  }

  lemma StillCarrying(s: S.Server, r: S.Server, d: seq<byte>, o: S.Server)
    requires Carrying(s, d, o) && r == s.(rx := r.rx, rxNew := r.rxNew)
    ensures Carrying(r, d, o)
  {
    hide Agrees;
  }

  lemma ConfirmedOk(l: Link)
    requires Confirmed(l)
    ensures var m := Step(l, ToClient); m.s == l.s && C.Download(m.c, 0, 1, false).ret.Ok?
  {
    hide C.DownloadTimed;
    assert Specifier(0xA1) == 5 && Bit0(0xA1);
  }

  // ------------------------------------------------------------------- the whole run

  function Mislead(n: nat): (run: seq<Event>)
    requires 442 <= n
  {
    ASKING + Rounds(SegmentsFor(n) - 64) + Segments(63) + QUITTING + STRAYING + CLOSING + CLOSING + [ToClient]
  }

  /**
    From 442 bytes on: in this run the client reports success, the server has
    written the bytes of the last segment to the object these bytes name.
   */
  lemma MisleadRun(s: S.Server, c: C.Client, d: seq<byte>, arg: S.Arg, other: S.Arg)
    requires Misleads(s, d, arg, other)
    ensures var l := Whole(RequestSent(s, c, arg.index, arg.sub, d), Mislead(|d|));
            C.Download(l.c, 0, 1, false).ret.Ok? && Written(l.s.node, Tail(d), s.(arg := other))
  {
    hide Whole, Step, Held, Inside, Behind, Reopened, Nearly, Confirmed, Written, Writeable, Names, RequestSent, Rounds, Segments, Ready,
      C.Download;
    var l0, n := RequestSent(s, c, arg.index, arg.sub, d), |d|;
    var o, p := s.(arg := arg), s.(arg := other);
    var r1 := ASKING + Rounds(SegmentsFor(n) - 64);
    var r2 := r1 + Segments(63);
    WholeConcat(l0, r2 + QUITTING + STRAYING + CLOSING + CLOSING, [ToClient]);
    WholeConcat(l0, r2 + QUITTING + STRAYING + CLOSING, CLOSING);
    WholeConcat(l0, r2 + QUITTING + STRAYING, CLOSING);
    WholeConcat(l0, r2 + QUITTING, STRAYING);
    WholeConcat(l0, r2, QUITTING);
    WholeConcat(l0, r1, Segments(63));
    WholeConcat(l0, ASKING, Rounds(SegmentsFor(n) - 64));
    LastSegment64(d);
    AskingRun(s, c, d, arg, other);
    var l1 := Whole(l0, ASKING);
    RoundsRun(l1, SegmentsFor(n) - 64, 0, d, o);
    var l2 := Whole(l1, Rounds(SegmentsFor(n) - 64));
    LoadingRun(l2, LastAt(n) - 441, d, o);
    var l3 := Whole(l2, Segments(63));
    QuittingRun(l3, d, o);
    var l4 := Whole(l3, QUITTING);
    ReopeningRun(l4, d, p);
    var l5 := Whole(l4, STRAYING);
    BackRun(l5, d, p);
    var l6 := Whole(l5, CLOSING);
    EndingRun(l6, d, p);
    var l7 := Whole(l6, CLOSING);
    ConfirmedOk(l7);
    WholeFirst(l7, ToClient, []);
    assert [ToClient] + [] == [ToClient];
    WholeNone(Step(l7, ToClient));
  }

  // ------------------------------------------------------------------------ the limit

  /** An object of n bytes, and one of as many bytes as a last segment of it has. */
  function Objects(n: uint16, m: uint16): (od: Od.Dictionary) {
    [Od.Entry(0x0001, Od.Var(Od.OPEN, Some(seq(m, _ => 2))), false),
     Od.Entry(0x2000, Od.Var(Od.OPEN, Some(seq(n, _ => 0))), false)]
  }

  function LimitServer(n: uint16, size: S.BufferSize): (s: S.Server)
    requires 0 < n
  {
    S.Server(S.Node(size, false, Objects(n, n - LastAt(n))), S.Idle, false, ZERO_FRAME, ZERO_FRAME, 0, LimitArg(n),
             seq(size, _ => 0), 0, 0, 0, 0, false, false, 0)
  }

  function LimitArg(n: uint16): (a: S.Arg) {
    S.Arg(0x2000, 0, 1, true, Od.OPEN, n, n, true)
  }

  function NextArg(n: uint16): (a: S.Arg)
    requires 0 < n
  {
    S.Arg(0x0001, 0, 0, true, Od.OPEN, n - LastAt(n), n - LastAt(n), true)
  }

  /** Zeros, but for the index 0x0001 where the last segment begins. */
  function LimitData(n: uint16): (d: seq<byte>)
    requires 0 < n
    ensures |d| == n
  {
    seq(n, i => if i == LastAt(n) then 1 else 0)
  }

  lemma LimitMisleads(n: uint16, size: S.BufferSize)
    requires 442 <= n && 7 * SegmentsFor(n) <= size
    ensures Misleads(LimitServer(n, size), LimitData(n), LimitArg(n), NextArg(n))
  {
    hide Od.Find;
    var od := Objects(n, n - LastAt(n));
    assert Od.Find(od, 0x0001) == 0 && Od.Find(od, 0x2000) == 1 by {
      assert od[0].index == 0x0001 && od[1].index == 0x2000;
    }
    var b := C.Padded7(LimitData(n), LastAt(n));
    assert b[0] == 1 && b[1] == 0 && b[2] == 0;
  }

  /** The object of the transfer keeps its value, and the other one changes. */
  lemma LimitUnwritten(n: uint16, size: S.BufferSize, m: S.Node)
    requires 442 <= n && 7 * SegmentsFor(n) <= size && Written(m, Tail(LimitData(n)), LimitServer(n, size).(arg := NextArg(n)))
    ensures !Written(m, LimitData(n), LimitServer(n, size).(arg := LimitArg(n)))
  {
    hide Od.Find, Od.Set, SegmentsFor;
    var s, d := LimitServer(n, size), LimitData(n);
    var v := S.Native(Tail(d), S.Swaps(s.(arg := NextArg(n))));
    assert v[0] == 1;
    Od.SetGet(s.node.od, 0, 0, v, 0, 0);
    var w := S.Native(d, S.Swaps(s.(arg := LimitArg(n))));
    if Od.Fits(s.node.od, 1, 0, w) {
      Od.SetGet(s.node.od, 1, 0, w, 0, 0);
    }
  }

  /** Some block download of n bytes to a server with that buffer is reported as a success, with the data not written. */
  ghost predicate Misreported(n: nat, size: nat) {
    exists s: S.Server, c, index, sub, d, arg, run, dt, timeout, txFull ::
      && |d| == n && C.PST < n < 0x1_0000_0000 && s.node.size == size
      && Ready(s, index, sub, arg) && !(index == 0x1003 && sub == 0)
      && ReportsWrongly(RequestSent(s, c, index, sub, d), run, dt, timeout, txFull, d, s.(arg := arg))
  }

  predicate ReportsWrongly(l: Link, run: seq<Event>, dt: uint16, timeout: uint16, txFull: bool, d: seq<byte>, o: S.Server) {
    C.Download(Whole(l, run).c, dt, timeout, txFull).ret.Ok? && !Written(Whole(l, run).s.node, d, o)
  }

  /**
    A report of success can be wrong exactly if the data has more than 441 bytes
    and the server's buffer has room for its last segment as a whole.
   */
  lemma ReportLimit(n: nat, size: S.BufferSize, c: C.Client)
    requires C.PST < n < 0x1_0000_0000
    ensures Misreported(n, size) <==> K.REPORT_MAX < n && 7 * SegmentsFor(n) <= size
  {
    hide Ready, Whole, RequestSent, LimitServer, LimitData, LimitArg, NextArg, Mislead, Misleads, ReportsWrongly, Tail;
    if K.REPORT_MAX < n && 7 * SegmentsFor(n) <= size {
      LimitCrossed(n, size, c);
    } else {
      forall s: S.Server, c, index, sub, d, arg, run, dt, timeout, txFull
        | |d| == n && s.node.size == size && Ready(s, index, sub, arg) && !(index == 0x1003 && sub == 0)
        ensures !ReportsWrongly(RequestSent(s, c, index, sub, d), run, dt, timeout, txFull, d, s.(arg := arg))
      {
        Truthful(s, c, index, sub, d, arg, run, dt, timeout, txFull);
      }
    }
  }

  lemma Truthful(s: S.Server, c: C.Client, index: uint16, sub: byte, d: seq<byte>, arg: S.Arg, run: seq<Event>,
                 dt: uint16, timeout: uint16, txFull: bool)
    requires Ready(s, index, sub, arg) && !(index == 0x1003 && sub == 0) && C.PST < |d| < 0x1_0000_0000 && K.Short(d, s.node.size)
    ensures !ReportsWrongly(RequestSent(s, c, index, sub, d), run, dt, timeout, txFull, d, s.(arg := arg))
  {
    hide Ready, Whole, RequestSent, K.Short, Written, C.Download;
    R.OkMeansWritten(s, c, index, sub, d, arg, run, dt, timeout, txFull);
  }

  lemma LimitCrossed(n: nat, size: S.BufferSize, c: C.Client)
    requires K.REPORT_MAX < n && 7 * SegmentsFor(n) <= size
    ensures Misreported(n, size)
  {
    hide Whole, RequestSent, Mislead, C.Download, Od.Find, S.Lookup, Tail, Written, LimitData, Objects, Writeable, Names;
    var s, d, arg := LimitServer(n, size), LimitData(n), LimitArg(n);
    LimitMisleads(n, size);
    MisleadRun(s, c, d, arg, NextArg(n));
    LimitUnwritten(n, size, Whole(RequestSent(s, c, 0x2000, 0, d), Mislead(n)).s.node);
    assert ReportsWrongly(RequestSent(s, c, 0x2000, 0, d), Mislead(n), 0, 1, false, d, s.(arg := arg));
  }
}
