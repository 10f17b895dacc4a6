/**
  Block download over a bus that delivers in order but may lose any frame in
  either direction: the server's buffer is always a prefix of the client's
  zero-padded data, and the object ends unchanged or equal to the whole data.
 */
module SdoBlockDownload {
  import opened Can
  import opened SdoTypes
  import Crc
  import Od
  import S = SdoServer
  import C = SdoClient

  /** Server, client, and the frames under way in each direction. */
  datatype Link = Link(s: S.Server, c: C.Client, toS: seq<Frame>, toC: seq<Frame>)

  datatype Event =
    | LoseRequest(k: nat) | LoseAnswer(k: nat)
    | ToServer | ToClient
    | ServerCall(i: S.Input) | ClientCall(dt: uint16, timeout: uint16, txFull: bool)

  function Without(q: seq<Frame>, k: nat): (r: seq<Frame>) {
    if k < |q| then q[..k] + q[k + 1..] else q
  }

  function Queue(q: seq<Frame>, f: Option<Frame>): (r: seq<Frame>) {
    if f.Some? then q + [f.value] else q
  }

  function Step(l: Link, e: Event): (r: Link) {
    match e
    case LoseRequest(k) => l.(toS := Without(l.toS, k))
    case LoseAnswer(k) => l.(toC := Without(l.toC, k))
    case ToServer => if l.toS == [] then l else l.(s := S.Receive(l.s, l.toS[0]), toS := l.toS[1..])
    case ToClient => if l.toC == [] then l else l.(c := C.Receive(l.c, l.toC[0]), toC := l.toC[1..])
    case ServerCall(i) => var x := S.Process(l.s, i); l.(s := x.s, toC := Queue(l.toC, x.sent))
    case ClientCall(dt, timeout, txFull) =>
      var x := C.Download(l.c, dt, timeout, txFull); l.(c := x.c, toS := Queue(l.toS, x.sent))
  }

  /** A run, up to the moment the server leaves the transfer. */
  function Run(l: Link, run: seq<Event>): (r: Link)
    decreases |run|
  {
    if run == [] || l.s.state.Idle? then l else Run(Step(l, run[0]), run[1..])
  }

  // ------------------------------------------------------------ the data in transit

  /** The first n bytes of b are those of the zero-padded data. */
  predicate Agrees(b: seq<byte>, n: nat, d: seq<byte>) {
    n <= |b| && forall i :: 0 <= i < n ==> b[i] == (if i < |d| then d[i] else 0)
  }

  /** The server carries data d for an object of that length; dictionary and object are still those of `o`. */
  predicate Carrying(s: S.Server, d: seq<byte>, o: S.Server) {
    && s.node == o.node && s.arg == o.arg && o.arg.stored && o.arg.length == |d| && |s.buf| == o.node.size
    && Agrees(s.buf, s.at, d)
  }

  /** Not the first segment of a block, which alone is taken when no segment was yet. */
  predicate Later(f: Frame) {
    Seqno(f[0]) != 1
  }

  predicate AllLater(q: seq<Frame>) {
    forall i :: 0 <= i < |q| ==> Later(q[i])
  }

  /** An abort, or one of the first n segments of the block at `base`. */
  predicate Live(f: Frame, base: int, d: seq<byte>, n: int) {
    f[0] == ABORT || (base >= 0 && 0 < Seqno(f[0]) <= n && f == C.Segment(d, base, Seqno(f[0])))
  }

  /** Left-over frames of earlier blocks, none a first segment, before the frames of the block at `base`. */
  predicate Flow(q: seq<Frame>, base: int, d: seq<byte>, n: int, started: bool)
    decreases |q|
  {
    q == []
    || (!started && Later(q[0]) && Flow(q[1..], base, d, n, false))
    || (Live(q[0], base, d, n) && (started ==> Later(q[0])) && Flow(q[1..], base, d, n, true))
  }

  lemma {:induction false} FlowStarted(q: seq<Frame>, base: int, d: seq<byte>, n: int)
    requires Flow(q, base, d, n, true)
    ensures Flow(q, base, d, n, false) && AllLater(q)
    decreases |q|
  {
    if q != [] {
      FlowStarted(q[1..], base, d, n);
      assert forall i :: 0 < i < |q| ==> q[i] == q[1..][i - 1];
    }
  }

  lemma {:induction false} FlowMore(q: seq<Frame>, base: int, d: seq<byte>, n: int, m: int, started: bool)
    requires Flow(q, base, d, n, started) && n <= m
    ensures Flow(q, base, d, m, started)
    decreases |q|
  {
    hide C.Segment, Seqno;
    if q != [] {
      if !started && Later(q[0]) && Flow(q[1..], base, d, n, false) {
        FlowMore(q[1..], base, d, n, m, false);
      } else {
        FlowMore(q[1..], base, d, n, m, true);
      }
    }
  }

  lemma {:induction false} FlowLater(q: seq<Frame>, base: int, d: seq<byte>, n: int)
    requires AllLater(q)
    ensures Flow(q, base, d, n, false)
    decreases |q|
  {
    if q != [] {
      FlowLater(q[1..], base, d, n);
    }
  }

  lemma {:induction false} FlowLose(q: seq<Frame>, base: int, d: seq<byte>, n: int, started: bool, k: nat)
    requires Flow(q, base, d, n, started)
    ensures Flow(Without(q, k), base, d, n, started)
    decreases |q|
  {
    hide Live, Later;
    if k < |q| {
      var r := Without(q, k);
      var stale := !started && Later(q[0]) && Flow(q[1..], base, d, n, false);
      if k == 0 {
        assert r == q[1..];
        if !stale && !started {
          FlowStarted(r, base, d, n);
        }
      } else {
        assert r[0] == q[0] && r[1..] == Without(q[1..], k - 1);
        FlowLose(q[1..], base, d, n, !stale, k - 1);
      }
    }
  }

  /** A segment of the block, or an abort, joins the end. */
  lemma {:induction false} FlowAppend(q: seq<Frame>, base: int, d: seq<byte>, n: int, started: bool, f: Frame)
    requires Flow(q, base, d, n, started) && Live(f, base, d, n)
    requires Later(f) || (AllLater(q) && !started)
    ensures Flow(q + [f], base, d, n, started)
    decreases |q|
  {
    hide Live, Later;
    var r := q + [f];
    if q == [] {
      assert r[1..] == [];
    } else {
      assert r[0] == q[0] && r[1..] == q[1..] + [f];
      assert AllLater(q) ==> AllLater(q[1..]);
      if !Later(f) {
        FlowLater(q[1..], base, d, n);
      }
      if !started && Later(q[0]) && Flow(q[1..], base, d, n, false) {
        FlowAppend(q[1..], base, d, n, false, f);
      } else {
        FlowAppend(q[1..], base, d, n, true, f);
      }
    }
  }

  lemma LaterQueue(q: seq<Frame>, f: Option<Frame>)
    requires AllLater(q) && (f.Some? ==> Later(f.value))
    ensures AllLater(Queue(q, f))
  {
    hide Later;
  }

  lemma LaterWithout(q: seq<Frame>, k: nat)
    requires AllLater(q)
    ensures AllLater(Without(q, k))
  {
    hide Later;
  }

  // ------------------------------------------------------------------ the invariant

  /** The client has given up; only aborts may follow. */
  predicate Dead(c: C.Client) {
    c.state.NotDefined? || c.state.Aborting?
  }

  /** The client sends, or has sent, the segments of the block at `acked`. */
  predicate Sending(c: C.Client, d: seq<byte>) {
    var b := c.block;
    && c.buf == d && c.offset == c.acked + 7 * b.seqno && b.seqno < 0x80 && b.size < 0x80
    && (c.state.BlDownloadInProgress? || c.state.BlDownloadAck?)
    && (c.state.BlDownloadInProgress? ==> c.offset < |d| && (b.seqno == 0 || b.seqno < b.size))
    && (c.state.BlDownloadAck? ==> b.seqno == b.size || (b.size == 0 && b.seqno == 1))
  }

  /** Where the block begins whose segments the server counts. */
  function Base(s: S.Server): (n: int) {
    s.at - 7 * (s.sequence as int)
  }

  /** The highest segment number the client may have sent in this block. */
  function Sent(c: C.Client): (n: int) {
    if Dead(c) then 0x7F else c.block.seqno
  }

  /** Client and server are in the same block. */
  predicate InBlock(l: Link, d: seq<byte>) {
    && Flow(l.toS, Base(l.s), d, Sent(l.c), l.s.sequence > 0)
    && (Dead(l.c)
        || (&& Sending(l.c, d) && l.c.acked == Base(l.s) && l.s.sequence <= l.c.block.seqno
            && (l.c.block.seqno == 0 ==> AllLater(l.toS))
            && !l.c.rxNew && l.toC == []))
  }

  /** The frames on the way to the client. */
  function Pending(l: Link): (q: seq<Frame>) {
    (if l.c.rxNew then [l.c.rx] else []) + l.toC
  }

  /** The acknowledgement that moves the client to byte `at`. */
  predicate Ack(f: Frame, c: C.Client, at: nat) {
    f[0] == 0xA2 && 0 < f[1] <= c.block.seqno && c.acked + 7 * (f[1] as int) == at && f[2] < 0x80
  }

  /** The answer to the request. */
  predicate Accept(f: Frame) {
    f[0] == 0xA4 && f[4] < 0x80
  }

  /** The server has acknowledged a block, or the request, and waits for the first segment of the next. */
  predicate Acked(l: Link, d: seq<byte>) {
    && AllLater(l.toS)
    && (Dead(l.c)
        || (&& |Pending(l)| <= 1
            && ((l.c.state.BlDownloadInitiate? && l.c.buf == d && l.s.at == 0
                 && forall f :: f in Pending(l) ==> Accept(f))
                || (Sending(l.c, d) && l.c.block.seqno > 0 && forall f :: f in Pending(l) ==> Ack(f, l.c, l.s.at)))))
  }

  /** The server still expects data. */
  predicate Open(s: S.Server, d: seq<byte>) {
    s.at < |d| && |d| <= s.node.size && 0 <= Base(s) && s.sequence < 0x80
  }

  predicate Inv(l: Link, d: seq<byte>, o: S.Server) {
    && Carrying(l.s, d, o)
    && (l.s.state.DownloadBlSubblock? || l.s.state.DownloadBlSubResp? || l.s.state.DownloadBlEnd?)
    && (l.s.state.DownloadBlSubblock? ==>
          !l.s.rxNew && Open(l.s, d) && (InBlock(l, d) || (l.s.sequence == 0 && Acked(l, d))))
    && (l.s.state.DownloadBlSubResp? ==>
          l.s.rxNew && l.s.at >= 7 && (l.s.rx[0] >= 0x80 || (Open(l.s, d) && l.s.sequence > 0 && InBlock(l, d))))
    && (l.s.state.DownloadBlEnd? ==> l.s.at >= 7)
  }

  /** The object of `o` holds d in the byte order of the processor, all else is as it was. */
  predicate Written(n: S.Node, d: seq<byte>, o: S.Server) {
    var v := S.Native(d, S.Swaps(o));
    Od.Fits(o.node.od, o.arg.entry, o.arg.sub, v)
    && n == o.node.(od := Od.Set(o.node.od, o.arg.entry, o.arg.sub, v))
  }

  /** How the transfer may end: nothing written, or all of it. */
  predicate Ended(s: S.Server, d: seq<byte>, o: S.Server) {
    s.state.Idle? && (s.node == o.node || Written(s.node, d, o))
  }

  predicate Good(l: Link, d: seq<byte>, o: S.Server) {
    Inv(l, d, o) || Ended(l.s, d, o)
  }

  // --------------------------------------------------------------- server receives

  /** A segment in order: its bytes follow those already there. */
  lemma TakeInOrder(s: S.Server, f: Frame, d: seq<byte>, o: S.Server)
    requires Carrying(s, d, o) && s.state.DownloadBlSubblock? && !s.rxNew && Open(s, d)
    requires Live(f, Base(s), d, 0x7F) && Seqno(f[0]) == s.sequence + 1
    ensures var r := S.ReceiveSegment(s, f);
            && Carrying(r, d, o) && (r.rx[0] < 0x80 ==> Base(r) == Base(s) && Open(r, d))
            && r.sequence == s.sequence + 1 && r.rx[0] == f[0] && r.at >= 7
            && ((r.state.DownloadBlSubResp? && r.rxNew) || (r.state.DownloadBlSubblock? && !r.rxNew && r.rx[0] < 0x80))
  {
    hide Seqno;
    var r := S.ReceiveSegment(s, f);
    var n := Room(s.at, s.node.size);
    assert f[0] != ABORT by {
      SeqnoOfAbort();
    }
    assert f[1..] == C.Padded7(d, s.at);
    assert r.at == s.at + n && r.buf == Blit(s.buf, s.at, f[1..1 + n]);
    assert forall i :: 0 <= i < n ==> f[1..1 + n][i] == f[1..][i];
  }

  lemma SeqnoOfAbort()
    ensures Seqno(ABORT) == 0
  {
  }

  /** A frame out of order changes nothing but the state and the copy of its first byte. */
  lemma OutOfOrder(s: S.Server, f: Frame)
    requires Seqno(f[0]) != s.sequence + 1
    ensures var r := S.ReceiveSegment(s, f);
            && r == s.(rx := r.rx, timer := 0, state := r.state, rxNew := r.rxNew) && r.rx[0] == f[0]
            && (if s.sequence == 0 || Seqno(f[0]) == s.sequence
                then r.state == s.state && r.rxNew == s.rxNew
                else r.state.DownloadBlSubResp? && r.rxNew)
  {
    hide Seqno;
  }

  lemma ServerTakes(l: Link, d: seq<byte>, o: S.Server)
    requires Inv(l, d, o) && l.toS != []
    ensures Inv(Step(l, ToServer), d, o)
  {
    hide S.ReceiveSegment, S.Process, C.Receive, C.Download, Carrying, Live, Later;
    var f, rest := l.toS[0], l.toS[1..];
    if l.s.state.DownloadBlSubblock? {
      if InBlock(l, d) {
        ServerTakesInBlock(l, d, o);
      } else {
        LaterMeans(f);
        OutOfOrder(l.s, f);
        SameCarrying(l.s, S.ReceiveSegment(l.s, f), d, o);
        assert AllLater(rest);
      }
    } else if l.s.state.DownloadBlSubResp? {
      if l.s.rx[0] < 0x80 {
        FlowRest(l.toS, Base(l.s), d, Sent(l.c));
      }
    } else {
      SameCarrying(l.s, S.Receive(l.s, f), d, o);
    }
  }

  lemma LaterMeans(f: Frame)
    ensures Later(f) <==> Seqno(f[0]) != 1
  {
  }

  lemma SameCarrying(s: S.Server, r: S.Server, d: seq<byte>, o: S.Server)
    requires Carrying(s, d, o) && r.node == s.node && r.arg == s.arg && r.buf == s.buf && r.at == s.at
    ensures Carrying(r, d, o)
  {
  }

  lemma FlowRest(q: seq<Frame>, base: int, d: seq<byte>, n: int)
    requires Flow(q, base, d, n, true) && q != []
    ensures Flow(q[1..], base, d, n, true) && Live(q[0], base, d, n) && Later(q[0]) && AllLater(q[1..])
  {
    FlowStarted(q, base, d, n);
  }

  lemma ServerTakesInBlock(l: Link, d: seq<byte>, o: S.Server)
    requires Carrying(l.s, d, o) && l.s.state.DownloadBlSubblock? && !l.s.rxNew && Open(l.s, d) && InBlock(l, d)
    requires l.toS != []
    ensures Inv(l.(s := S.ReceiveSegment(l.s, l.toS[0]), toS := l.toS[1..]), d, o)
  {
    hide S.ReceiveSegment, Carrying, Live, Later, Seqno;
    var f, rest := l.toS[0], l.toS[1..];
    var r := S.ReceiveSegment(l.s, f);
    var base, n := Base(l.s), Sent(l.c);
    LaterMeans(f);
    if Seqno(f[0]) == l.s.sequence + 1 {
      if l.s.sequence > 0 {
        FlowRest(l.toS, base, d, n);
      }
      assert Live(f, base, d, n) && Flow(rest, base, d, n, true);
      LiveNumber(f, base, d, n);
      TakeInOrder(l.s, f, d, o);
    } else {
      OutOfOrder(l.s, f);
      SameCarrying(l.s, r, d, o);
      if l.s.sequence > 0 {
        FlowRest(l.toS, base, d, n);
      } else if !Flow(rest, base, d, n, false) {
        FlowStarted(rest, base, d, n);
      }
    }
  }

  lemma LiveNumber(f: Frame, base: int, d: seq<byte>, n: int)
    requires Live(f, base, d, n) && n < 0x80
    ensures Seqno(f[0]) > 0 ==> Seqno(f[0]) <= n
    ensures Live(f, base, d, 0x7F)
  {
    SeqnoOfAbort();
  }

  // ------------------------------------------------------------------ server calls

  /** A call that leaves the transfer untouched, or gives it up with nothing written. */
  predicate Quiet(s: S.Server, x: S.Result) {
    (x.sent.None? && x.s == s.(timer := x.s.timer)) || (x.s.state.Idle? && x.s.node == s.node)
  }

  /** The acknowledgement of the segments counted so far. */
  predicate Answered(s: S.Server, x: S.Result, isLast: bool) {
    && x.s.node == s.node && x.s.arg == s.arg && x.s.buf == s.buf && x.s.at == s.at && x.s.sequence == 0 && !x.s.rxNew
    && (if isLast then x.s.state.DownloadBlEnd? else x.s.state.DownloadBlSubblock?)
    && x.sent.Some? && x.sent.value[0] == 0xA2 && x.sent.value[1] == s.sequence && x.sent.value[2] < 0x80
  }

  lemma ResponseEffect(s: S.Server, i: S.Input, isLast: bool)
    requires s.arg.stored && (isLast || s.at < s.node.size)
    ensures Answered(s, S.SubblockResponse(s, i, isLast), isLast)
  {
    hide S.WriteOd;
  }

  lemma CallListening(s: S.Server, i: S.Input)
    requires s.state.DownloadBlSubblock? && !s.rxNew && s.arg.stored && s.at < s.node.size
    ensures var x := S.Process(s, i); Quiet(s, x) || (s.sequence > 0 && Answered(s, x, false))
  {
    hide S.SubblockResponse, S.Begin, S.Act;
    if i.operational {
      var s1 := if s.timer < i.timeout then s.(timer := Add16(s.timer, i.dt)) else s;
      ResponseEffect(s1, i, false);
    }
  }

  lemma CallResponding(s: S.Server, i: S.Input)
    requires s.state.DownloadBlSubResp? && s.rxNew && s.arg.stored && (s.rx[0] < 0x80 ==> s.at < s.node.size)
    ensures var x := S.Process(s, i); Quiet(s, x) || Answered(s, x, s.rx[0] >= 0x80)
  {
    hide S.SubblockResponse, S.Start;
    if i.operational && !i.txFull && s.rx[0] != ABORT && Add16(0, i.dt) < i.timeout {
      ResponseEffect(s.(tx := ZERO_FRAME, timer := Add16(0, i.dt)), i, s.rx[0] >= 0x80);
    }
  }

  /** Whatever frame ends the transfer, the object keeps its value or takes all of d. */
  lemma CallEnding(s: S.Server, i: S.Input, d: seq<byte>, o: S.Server)
    requires s.state.DownloadBlEnd? && Carrying(s, d, o) && s.at >= 7
    ensures var x := S.Process(s, i); Ended(x.s, d, o) || (x.s == s.(timer := x.s.timer) && x.sent.None?)
  {
    hide S.EndBlockDownload, S.Start, Ended;
    if i.operational {
      if s.rxNew && !i.txFull && s.rx[0] != ABORT && Add16(0, i.dt) < i.timeout {
        EndEffect(s.(tx := ZERO_FRAME, timer := Add16(0, i.dt)), i, d, o);
      } else {
        CallNotEnding(s, i, d, o);
      }
    } else {
      IdleEnded(s, S.Process(s, i).s, d, o);
    }
  }

  lemma IdleEnded(s: S.Server, r: S.Server, d: seq<byte>, o: S.Server)
    requires s.node == o.node && r.node == s.node && r.state.Idle?
    ensures Ended(r, d, o)
  {
  }

  lemma CallNotEnding(s: S.Server, i: S.Input, d: seq<byte>, o: S.Server)
    requires s.state.DownloadBlEnd? && Carrying(s, d, o) && i.operational
    requires !(s.rxNew && !i.txFull && s.rx[0] != ABORT && Add16(0, i.dt) < i.timeout)
    ensures var x := S.Process(s, i); Ended(x.s, d, o) || (x.s == s.(timer := x.s.timer) && x.sent.None?)
  {
    hide S.Act, S.Start, S.SubblockResponse, Ended;
    var x := S.Process(s, i);
    if x.s.state.Idle? {
      IdleEnded(s, x.s, d, o);
    }
  }

  lemma EndEffect(s: S.Server, i: S.Input, d: seq<byte>, o: S.Server)
    requires Carrying(s, d, o) && s.at >= 7
    ensures Ended(S.EndBlockDownload(s, i).s, d, o)
  {
    hide S.WriteOd, Crc.CrcOf, Specifier, Bit0, BlockUnused, Agrees, Written, Minus16;
    var at := s.at - BlockUnused(s.rx[0]);
    Minus16Exact(s.at, BlockUnused(s.rx[0]));
    var s1 := s.(at := at, crc := if s.crcOn then Crc.CrcOf(Take(s.buf, at), s.crc) else s.crc,
                 arg := s.arg.(last := true));
    AgreesLess(s.buf, s.at, at, d);
    WriteEnded(s1, at, i.write1, d, o);
  }

  lemma AgreesLess(b: seq<byte>, n: nat, m: nat, d: seq<byte>)
    requires Agrees(b, n, d) && m <= n
    ensures Agrees(b, m, d) && m <= |b|
  {
  }

  /** Only data of the full length is written, and then the buffer holds d. */
  lemma WriteEnded(s: S.Server, n: uint16, abort: uint32, d: seq<byte>, o: S.Server)
    requires s.node == o.node && s.arg == o.arg.(last := true) && o.arg.stored && o.arg.length == |d|
    requires |s.buf| == o.node.size && n <= |s.buf| && Agrees(s.buf, n, d)
    ensures var a := S.WriteOd(s, n, abort); a.s.node == o.node || (a.abort == 0 && Written(a.s.node, d, o))
  {
    if s.arg.length == n {
      assert s.buf[..n] == d;
      var b := S.SwapAt(s.buf, 0, n, S.Swaps(s));
      assert b[..n] == S.Native(d, S.Swaps(s));
    }
  }

  /** The server's answer to a block puts it in front of the next one. */
  lemma AnsweredAcked(l: Link, x: S.Result, d: seq<byte>, o: S.Server)
    requires InBlock(l, d) && Open(l.s, d) && l.s.sequence > 0 && Answered(l.s, x, false)
    ensures Acked(l.(s := x.s, toC := Queue(l.toC, x.sent)), d)
  {
    hide Flow, Later;
    FlowStarted(l.toS, Base(l.s), d, Sent(l.c));
    var m := l.(s := x.s, toC := Queue(l.toC, x.sent));
    if !Dead(l.c) {
      assert Pending(m) == [x.sent.value];
    }
  }

  lemma SameServer(l: Link, s: S.Server, d: seq<byte>, o: S.Server)
    requires Inv(l, d, o) && s == l.s.(timer := s.timer)
    ensures Inv(l.(s := s), d, o)
  {
    hide Flow, Later, Sending, Dead, Ack, Accept, Agrees;
  }

  lemma ServerCalls(l: Link, i: S.Input, d: seq<byte>, o: S.Server)
    requires Inv(l, d, o)
    ensures Good(Step(l, ServerCall(i)), d, o)
  {
    hide S.Process, InBlock, Acked, C.Download, Agrees, Written;
    var x := S.Process(l.s, i);
    var m := l.(s := x.s, toC := Queue(l.toC, x.sent));
    assert Step(l, ServerCall(i)) == m;
    if l.s.state.DownloadBlEnd? {
      CallEnding(l.s, i, d, o);
      if !Ended(x.s, d, o) {
        SameServer(l, x.s, d, o);
      }
    } else {
      if l.s.state.DownloadBlSubblock? {
        CallListening(l.s, i);
      } else {
        CallResponding(l.s, i);
      }
      if Quiet(l.s, x) {
        if !x.s.state.Idle? {
          SameServer(l, x.s, d, o);
        }
      } else {
        ServerAnswers(l, x, d, o);
      }
    }
  }

  lemma ServerAnswers(l: Link, x: S.Result, d: seq<byte>, o: S.Server)
    requires Inv(l, d, o) && (l.s.state.DownloadBlSubblock? ==> l.s.sequence > 0)
    requires l.s.state.DownloadBlSubblock? || l.s.state.DownloadBlSubResp?
    requires Answered(l.s, x, l.s.state.DownloadBlSubResp? && l.s.rx[0] >= 0x80)
    ensures Inv(l.(s := x.s, toC := Queue(l.toC, x.sent)), d, o)
  {
    hide InBlock, Acked, Agrees;
    if x.s.state.DownloadBlSubblock? {
      AnsweredAcked(l, x, d, o);
    }
  }

  // ------------------------------------------------------------------ client calls

  /** Sending one segment moves the client on in its block. */
  lemma SendEffect(c: C.Client, abort: uint32, d: seq<byte>)
    requires Sending(c, d) && c.state.BlDownloadInProgress?
    ensures var x := C.SendBlockSegment(c, abort);
            && Sending(x.c, d) && x.c.acked == c.acked && x.c.block.seqno == c.block.seqno + 1 && x.c.rxNew == c.rxNew
            && x.c.rx == c.rx
            && x.sent == Some(C.Segment(d, c.acked, x.c.block.seqno))
  {
  }

  /** What the part of a download call behind the reception does to a client in a block. */
  lemma TimedEffect(c: C.Client, dt: uint16, timeout: uint16, txFull: bool, abort: uint32, d: seq<byte>)
    requires Sending(c, d)
    ensures var x := C.DownloadTimed(c, dt, timeout, txFull, abort);
            || (Dead(x.c) && x.sent.Some? && x.sent.value[0] == ABORT)
            || (x.c == c.(timer := x.c.timer) && x.sent.None?)
            || (Sending(x.c, d) && x.c.acked == c.acked && x.c.block.seqno == c.block.seqno + 1 && x.c.rxNew == c.rxNew
                && x.c.rx == c.rx && x.sent == Some(C.Segment(d, c.acked, x.c.block.seqno)))
  {
    hide C.SendBlockSegment, C.Segment;
    var c1 := if c.timer < timeout then c.(timer := Add16(c.timer, dt)) else c;
    if c.state.BlDownloadInProgress? {
      SendEffect(c1, abort, d);
    }
  }

  lemma DeadTimed(c: C.Client, dt: uint16, timeout: uint16, txFull: bool, abort: uint32)
    requires Dead(c)
    ensures var x := C.DownloadTimed(c, dt, timeout, txFull, abort);
            Dead(x.c) && (x.sent.Some? ==> x.sent.value[0] == ABORT)
  {
  }

  lemma DeadDownload(c: C.Client, dt: uint16, timeout: uint16, txFull: bool)
    requires Dead(c)
    ensures var x := C.Download(c, dt, timeout, txFull);
            Dead(x.c) && (x.sent.Some? ==> x.sent.value[0] == ABORT)
  {
    hide C.DownloadTimed;
    DeadTimed(c, dt, timeout, txFull, 0);
    DeadTimed(c.(state := C.Aborting, timer := 0, rxNew := false), dt, timeout, txFull, AB_CMD);
  }

  lemma SegmentLater(d: seq<byte>, base: nat, k: byte)
    requires 0 < k < 0x80
    ensures var f := C.Segment(d, base, k); Seqno(f[0]) == k && Live(f, base, d, k) && (k != 1 ==> Later(f))
  {
  }

  lemma AbortLater(f: Frame, base: int, d: seq<byte>, n: int)
    requires f[0] == ABORT
    ensures Live(f, base, d, n) && Later(f)
  {
    SeqnoOfAbort();
  }

  /** A client gives up, in the block of the server or behind it. */
  lemma DeadInBlock(l: Link, c: C.Client, f: Option<Frame>, d: seq<byte>)
    requires Dead(c) && (f.Some? ==> f.value[0] == ABORT) && InBlock(l, d)
    ensures InBlock(l.(c := c, toS := Queue(l.toS, f)), d)
  {
    hide Live, Later, Flow;
    FlowMore(l.toS, Base(l.s), d, Sent(l.c), 0x7F, l.s.sequence > 0);
    if f.Some? {
      AbortLater(f.value, Base(l.s), d, 0x7F);
      FlowAppend(l.toS, Base(l.s), d, 0x7F, l.s.sequence > 0, f.value);
    }
  }

  lemma DeadAcked(l: Link, c: C.Client, f: Option<Frame>, d: seq<byte>)
    requires Dead(c) && (f.Some? ==> f.value[0] == ABORT) && Acked(l, d)
    ensures Acked(l.(c := c, toS := Queue(l.toS, f)), d)
  {
    hide Later, Sending, Ack, Accept;
    if f.Some? {
      AbortLater(f.value, 0, d, 0);
    }
    LaterQueue(l.toS, f);
  }

  /** A call of a client in the block of the server, behind the reception. */
  lemma BlockCall(l: Link, dt: uint16, timeout: uint16, txFull: bool, abort: uint32, d: seq<byte>)
    requires InBlock(l, d) && !Dead(l.c)
    ensures var x := C.DownloadTimed(l.c, dt, timeout, txFull, abort);
            InBlock(l.(c := x.c, toS := Queue(l.toS, x.sent)), d)
  {
    hide C.DownloadTimed, Flow, Live, Later, C.Segment;
    var x := C.DownloadTimed(l.c, dt, timeout, txFull, abort);
    TimedEffect(l.c, dt, timeout, txFull, abort, d);
    if Dead(x.c) {
      DeadInBlock(l, x.c, x.sent, d);
    } else if x.sent.Some? {
      var k, base, started := x.c.block.seqno, Base(l.s), l.s.sequence > 0;
      SegmentLater(d, base, k);
      FlowMore(l.toS, base, d, k - 1, k, started);
      FlowAppend(l.toS, base, d, k, started, x.sent.value);
    } else {
      assert Queue(l.toS, x.sent) == l.toS;
    }
  }

  /** A call of a client still in the block that the server has acknowledged. */
  lemma OldBlockCall(l: Link, dt: uint16, timeout: uint16, txFull: bool, d: seq<byte>)
    requires Acked(l, d) && Sending(l.c, d) && !l.c.rxNew
    ensures var x := C.DownloadTimed(l.c, dt, timeout, txFull, 0);
            Acked(l.(c := x.c, toS := Queue(l.toS, x.sent)), d)
  {
    hide C.DownloadTimed, Live, Later, C.Segment;
    var x := C.DownloadTimed(l.c, dt, timeout, txFull, 0);
    TimedEffect(l.c, dt, timeout, txFull, 0, d);
    if Dead(x.c) {
      DeadAcked(l, x.c, x.sent, d);
    } else {
      if x.sent.Some? {
        SegmentLater(d, l.c.acked, x.c.block.seqno);
      }
      LaterQueue(l.toS, x.sent);
      var m := l.(c := x.c, toS := Queue(l.toS, x.sent));
      assert Pending(m) == Pending(l);
    }
  }

  lemma InitiateCall(l: Link, dt: uint16, timeout: uint16, txFull: bool, d: seq<byte>)
    requires Acked(l, d) && l.c.state.BlDownloadInitiate? && !l.c.rxNew
    ensures var x := C.DownloadTimed(l.c, dt, timeout, txFull, 0);
            Acked(l.(c := x.c, toS := Queue(l.toS, x.sent)), d)
  {
    hide Later;
    var x := C.DownloadTimed(l.c, dt, timeout, txFull, 0);
    if x.sent.Some? {
      AbortLater(x.sent.value, 0, d, 0);
    }
    LaterQueue(l.toS, x.sent);
    var m := l.(c := x.c, toS := Queue(l.toS, x.sent));
    assert Pending(m) == Pending(l);
  }

  /** Taking the acknowledgement brings the client to the block of the server. */
  lemma TakeAck(l: Link, d: seq<byte>)
    requires Acked(l, d) && !Dead(l.c) && l.c.rxNew && l.s.sequence == 0 && l.s.at < |d|
    ensures l.c.rx[0] != ABORT && !C.DownloadRx(l.c).done
    ensures var y := C.DownloadRx(l.c); var c := y.c.(timer := 0, rxNew := false);
            Dead(c) || InBlock(l.(c := c), d)
  {
    hide Live, Later;
    assert l.c.rx in Pending(l) && l.toC == [] by {
      assert Pending(l)[0] == l.c.rx;
    }
    FlowLater(l.toS, Base(l.s), d, 0);
  }

  lemma ClientCalls(l: Link, dt: uint16, timeout: uint16, txFull: bool, d: seq<byte>, o: S.Server)
    requires Inv(l, d, o)
    ensures Inv(Step(l, ClientCall(dt, timeout, txFull)), d, o)
  {
    hide C.Download, InBlock, Acked, Agrees, S.Process;
    var x := C.Download(l.c, dt, timeout, txFull);
    if l.s.state.DownloadBlEnd? || (l.s.rx[0] >= 0x80 && l.s.state.DownloadBlSubResp?) {
    } else if InBlock(l, d) {
      InBlockCall(l, dt, timeout, txFull, d);
    } else {
      AckedCall(l, dt, timeout, txFull, d);
    }
  }

  lemma InBlockCall(l: Link, dt: uint16, timeout: uint16, txFull: bool, d: seq<byte>)
    requires InBlock(l, d)
    ensures var x := C.Download(l.c, dt, timeout, txFull);
            InBlock(l.(c := x.c, toS := Queue(l.toS, x.sent)), d)
  {
    hide C.DownloadTimed, C.DownloadRx, Flow;
    if Dead(l.c) {
      hide C.Download;
      DeadDownload(l.c, dt, timeout, txFull);
      var x := C.Download(l.c, dt, timeout, txFull);
      DeadInBlock(l, x.c, x.sent, d);
    } else {
      BlockCall(l, dt, timeout, txFull, 0, d);
    }
  }

  lemma AckedCall(l: Link, dt: uint16, timeout: uint16, txFull: bool, d: seq<byte>)
    requires Acked(l, d) && l.s.sequence == 0 && l.s.at < |d|
    ensures var x := C.Download(l.c, dt, timeout, txFull);
            var m := l.(c := x.c, toS := Queue(l.toS, x.sent));
            InBlock(m, d) || Acked(m, d)
  {
    hide C.DownloadTimed, C.DownloadRx, Sending, Ack, Accept, InBlock, Later;
    var x := C.Download(l.c, dt, timeout, txFull);
    if Dead(l.c) {
      DeadDownload(l.c, dt, timeout, txFull);
      DeadAcked(l, x.c, x.sent, d);
    } else if !l.c.rxNew {
      if l.c.state.BlDownloadInitiate? {
        InitiateCall(l, dt, timeout, txFull, d);
      } else {
        OldBlockCall(l, dt, timeout, txFull, d);
      }
    } else {
      TakeAck(l, d);
      var y := C.DownloadRx(l.c);
      var c := y.c.(timer := 0, rxNew := false);
      if Dead(c) {
        DeadTimed(c, dt, timeout, txFull, y.abort);
        DeadAcked(l, x.c, x.sent, d);
      } else {
        BlockCall(l.(c := c), dt, timeout, txFull, y.abort, d);
      }
    }
  }

  // ------------------------------------------------------------------- whole runs

  lemma ClientTakes(l: Link, d: seq<byte>, o: S.Server)
    requires Inv(l, d, o) && l.toC != []
    ensures Inv(Step(l, ToClient), d, o)
  {
    hide Flow, Later, Agrees, S.Process, C.Download;
    var m := Step(l, ToClient);
    if !Dead(l.c) && l.s.state.DownloadBlSubblock? && Acked(l, d) {
      assert !l.c.rxNew;
      assert Pending(m) == Pending(l);
    }
  }

  lemma Loses(l: Link, k: nat, d: seq<byte>, o: S.Server)
    requires Inv(l, d, o)
    ensures Inv(l.(toS := Without(l.toS, k)), d, o)
    ensures Inv(l.(toC := Without(l.toC, k)), d, o)
  {
    hide Flow, Later, Agrees, Sending, Dead, Ack, Accept, Base;
    if InBlock(l, d) {
      FlowLose(l.toS, Base(l.s), d, Sent(l.c), l.s.sequence > 0, k);
    }
    if AllLater(l.toS) {
      LaterWithout(l.toS, k);
    }
    var m := l.(toC := Without(l.toC, k));
    assert |Pending(m)| <= |Pending(l)|;
    assert forall f :: f in Pending(m) ==> f in Pending(l);
  }

  lemma StepGood(l: Link, e: Event, d: seq<byte>, o: S.Server)
    requires Inv(l, d, o)
    ensures Good(Step(l, e), d, o)
  {
    hide Inv, Ended, S.Process, S.Receive, C.Receive, C.Download;
    match e
    case LoseRequest(k) => Loses(l, k, d, o);
    case LoseAnswer(k) => Loses(l, k, d, o);
    case ToServer => if l.toS != [] { ServerTakes(l, d, o); }
    case ToClient => if l.toC != [] { ClientTakes(l, d, o); }
    case ServerCall(i) => ServerCalls(l, i, d, o);
    case ClientCall(dt, timeout, txFull) => ClientCalls(l, dt, timeout, txFull, d, o);
  }

  /** Go-back-N is safe: in every run the buffer holds a prefix of the data, and the end is all or nothing. */
  lemma {:induction false} BlockDownloadSafe(l: Link, run: seq<Event>, d: seq<byte>, o: S.Server)
    requires Good(l, d, o)
    ensures Good(Run(l, run), d, o)
    decreases |run|
  {
    hide Inv, Step;
    if run != [] && !l.s.state.Idle? {
      StepGood(l, run[0], d, o);
      BlockDownloadSafe(Step(l, run[0]), run[1..], d, o);
    }
  }
}
