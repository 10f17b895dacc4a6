/**
  The client of a block download over whole runs, that is also when the server
  has left the transfer and reads late segments as requests. The answers under
  way and the answers such a server can still give are counted: to be told that
  all went well, the client would need one more.
 */
module SdoBlockDownloadCredit {
  import opened Can
  import opened SdoTypes
  import S = SdoServer
  import C = SdoClient
  import opened SdoBlockDownload
  import opened SdoBlockDownloadStart
  import opened SdoBlockDownloadWhole
  import opened SdoBlockDownloadAstray

  /** Up to that length, no last segment of the client starts a block download. */
  const REPORT_MAX := 441

  // ----------------------------------------------------------------- frames counted

  function Count(q: seq<Frame>, p: Frame -> bool): (n: nat) {
    if q == [] then 0 else (if p(q[0]) then 1 else 0) + Count(q[1..], p)
  }

  lemma {:induction false} CountAppend(q: seq<Frame>, p: Frame -> bool, f: Frame)
    ensures Count(q + [f], p) == Count(q, p) + (if p(f) then 1 else 0)
    decreases |q|
  {
    if q == [] {
      assert (q + [f])[1..] == [];
    } else {
      assert (q + [f])[1..] == q[1..] + [f] && (q + [f])[0] == q[0];
      CountAppend(q[1..], p, f);
    }
  }

  lemma {:induction false} CountLose(q: seq<Frame>, p: Frame -> bool, k: nat)
    ensures Count(Without(q, k), p) <= Count(q, p)
    decreases |q|
  {
    if k < |q| {
      var r := Without(q, k);
      if k == 0 {
        assert r == q[1..];
      } else {
        assert r[0] == q[0] && r[1..] == Without(q[1..], k - 1);
        CountLose(q[1..], p, k - 1);
      }
    }
  }

  lemma {:induction false} CountNone(q: seq<Frame>, p: Frame -> bool)
    requires forall i :: 0 <= i < |q| ==> !p(q[i])
    ensures Count(q, p) == 0
    decreases |q|
  {
    if q != [] {
      CountNone(q[1..], p);
    }
  }

  /** From the first segment with number 1 on. */
  function Fresh(q: seq<Frame>): (r: seq<Frame>) {
    if q == [] || !Later(q[0]) then q else Fresh(q[1..])
  }

  lemma {:induction false} FreshAppend(q: seq<Frame>, f: Frame)
    ensures Fresh(q + [f]) == if AllLater(q) && Later(f) then [] else Fresh(q) + [f]
    ensures AllLater(q) <==> Fresh(q) == []
    decreases |q|
  {
    if q == [] {
      assert [f][1..] == [] && q + [f] == [f];
    } else {
      assert (q + [f])[1..] == q[1..] + [f] && (q + [f])[0] == q[0];
      FreshAppend(q[1..], f);
      assert AllLater(q) <==> Later(q[0]) && AllLater(q[1..]);
    }
  }

  lemma {:induction false} FreshLose(q: seq<Frame>, p: Frame -> bool, k: nat)
    ensures Count(Fresh(Without(q, k)), p) <= Count(Fresh(q), p)
    decreases |q|
  {
    if k < |q| {
      var r := Without(q, k);
      if k == 0 {
        assert r == q[1..];
        if !Later(q[0]) {
          FreshCount(r, p);
        }
      } else {
        assert r[0] == q[0] && r[1..] == Without(q[1..], k - 1);
        if Later(q[0]) {
          FreshLose(q[1..], p, k - 1);
        } else {
          CountLose(q, p, k);
        }
      }
    }
  }

  lemma {:induction false} FreshCount(q: seq<Frame>, p: Frame -> bool)
    ensures Count(Fresh(q), p) <= Count(q, p)
    decreases |q|
  {
    if q != [] && Later(q[0]) {
      FreshCount(q[1..], p);
    }
  }

  /** The frames on the way to the server. */
  function ForServer(l: Link): (q: seq<Frame>) {
    (if l.s.rxNew then [l.s.rx] else []) + l.toS
  }

  // ------------------------------------------------------------- what the client sends

  /** The data is short, or the server with z bytes of buffer has no room for its last segment as a whole. */
  predicate Short(d: seq<byte>, z: nat) {
    |d| <= REPORT_MAX || z < 7 * SegmentsFor(|d|)
  }

  /** In the second case the last segment is in a block of its own. */
  predicate Narrow(c: C.Client, d: seq<byte>, z: nat) {
    || |d| <= REPORT_MAX
    || (c.state.BlDownloadInProgress? || c.state.BlDownloadAck? ==>
          && Sending(c, d) && c.acked % 7 == 0 && (c.state.BlDownloadInProgress? ==> c.acked + 7 * c.block.size <= z)
          && (c.offset >= |d| ==> c.offset < |d| + 7 && c.block.seqno == c.block.size))
  }

  /** An answer that keeps it so. */
  predicate Measured(f: Frame, c: C.Client, d: seq<byte>, z: nat) {
    || |d| <= REPORT_MAX || !Fifth(f)
    || (&& (c.state.BlDownloadInitiate? ==> f[4] < 0x80 && 7 * f[4] <= z)
        && (c.state.BlDownloadInProgress? || c.state.BlDownloadAck? ==>
              || (c.offset >= |d| && f[1] == c.block.size)
              || (f[2] < 0x80 && 0 < f[1] <= c.block.seqno && c.acked + 7 * (f[1] as int) + 7 * (f[2] as int) <= z)))
  }

  /** The end of the transfer, as the server in it reads it. */
  predicate Final(f: Frame) {
    Specifier(f[0]) == 6 && Bit0(f[0])
  }

  /** Neither a request nor the end. */
  predicate Plain(f: Frame) {
    Specifier(f[0]) != 6
  }

  /** What a call of a client that has received nothing does. */
  predicate Moved(c: C.Client, x: C.Result, d: seq<byte>) {
    || (Dead(x.c) && (x.sent.Some? ==> x.sent.value[0] == ABORT))
    || (x.c == c.(timer := x.c.timer) && x.sent.None?)
    || (&& c.state.BlDownloadInProgress? && x.sent.Some? && Plain(x.sent.value) && !x.c.rxNew
        && (Fifth(x.sent.value) ==> x.c.state.BlDownloadAck? && x.c.offset >= |d| && |d| <= REPORT_MAX)
        && (x.c.state.BlDownloadAck? || x.c.state.BlDownloadInProgress?))
    || (c.state.BlDownloadCrc? && x.c.state.BlDownloadCrcAck? && !x.c.rxNew && x.sent.Some? && Final(x.sent.value))
  }

  /** The number of the last segment. */
  lemma LastNumber(c: C.Client, d: seq<byte>, z: nat)
    requires Calm(c, d) && c.state.BlDownloadInProgress? && Narrow(c, d, z) && Short(d, z)
    ensures c.block.seqno < 0x7F
    ensures c.offset + 7 >= |d| ==> c.block.seqno == 0 || (|d| <= REPORT_MAX && c.block.seqno < 63)
  {
  }

  lemma NumberPlain(k: byte, done: bool)
    requires k < 0x80 && (done ==> k < 0x40)
    ensures var b := if done then k + 0x80 else k; Specifier(b) != 6 && (Specifier(b) == 5 ==> done && 1 < k)
  {
  }

  lemma SegmentPlain(c: C.Client, abort: uint32, d: seq<byte>, z: nat)
    requires Calm(c, d) && c.state.BlDownloadInProgress? && !c.rxNew && Narrow(c, d, z) && Short(d, z)
    ensures var x := C.SendBlockSegment(c, abort); Moved(c, x, d) && !x.ret.Ok?
  {
    hide C.Padded7, Specifier, Narrow, Short;
    LastNumber(c, d, z);
    NumberPlain(c.block.seqno + 1, c.offset + 7 >= |d|);
  }

  lemma TimedMoved(c: C.Client, dt: uint16, timeout: uint16, txFull: bool, abort: uint32, d: seq<byte>, z: nat)
    requires Calm(c, d) && !c.rxNew && Narrow(c, d, z) && Short(d, z)
    ensures var x := C.DownloadTimed(c, dt, timeout, txFull, abort); Moved(c, x, d) && !x.ret.Ok?
  {
    hide C.SendBlockSegment, C.EndFrame, Checksum, Fifth, Plain, Final, Short, SegmentsFor;
    var c1 := if c.timer < timeout then c.(timer := Add16(c.timer, dt)) else c;
    if c.state.BlDownloadInProgress? {
      SegmentPlain(c1, abort, d, z);
    } else if c.state.BlDownloadCrc? {
      EndIsFinal(c1.block.unused, Checksum(c1.buf));
    }
  }

  lemma EndIsFinal(unused: SegmentLength, crc: uint16)
    ensures Final(C.EndFrame(unused, crc)) && !Fifth(C.EndFrame(unused, crc))
  {
    C.EndFrameFields(unused, crc);
  }

  /** What a frame does to the client: nothing but an answer of block download lets it go on. */
  lemma TakeMoved(c: C.Client, d: seq<byte>)
    requires Calm(c, d) && c.rxNew
    ensures var y := C.DownloadRx(c);
            && (y.done ==> Fifth(c.rx) && c.state.BlDownloadCrcAck? && Dead(y.c))
            && (!Dead(y.c) ==>
                  && Fifth(c.rx) && (c.state.BlDownloadInitiate? || c.state.BlDownloadInProgress? || c.state.BlDownloadAck?)
                  && (y.c.state.BlDownloadInProgress? || y.c.state.BlDownloadCrc?))
  {
    hide Bit0, Bit1, FrameIndex;
  }

  /** The block the client then begins. */
  lemma TakeNarrow(c: C.Client, d: seq<byte>, z: nat)
    requires Calm(c, d) && c.rxNew && Narrow(c, d, z) && Measured(c.rx, c, d, z) && 0 < |d|
    ensures Narrow(C.DownloadRx(c).c.(timer := 0, rxNew := false), d, z)
  {
    hide Bit0, Bit1, FrameIndex;
    if |d| > REPORT_MAX {
      TakeMoved(c, d);
    }
  }

  /** The client goes on in its block, and later answers to it are still fit for it. */
  lemma TimedNarrow(c: C.Client, dt: uint16, timeout: uint16, txFull: bool, abort: uint32, d: seq<byte>, z: nat)
    requires Calm(c, d) && !c.rxNew && Narrow(c, d, z)
    ensures var x := C.DownloadTimed(c, dt, timeout, txFull, abort);
            Narrow(x.c, d, z) && forall f :: Measured(f, c, d, z) ==> Measured(f, x.c, d, z)
  {
    hide C.EndFrame, Checksum, C.Padded7, Fifth;
  }

  // ------------------------------------------------------------- the end comes last

  predicate NoEnd(q: seq<Frame>) {
    forall i :: 0 <= i < |q| ==> !Final(q[i])
  }

  /** Behind the end of the transfer there are only aborts. */
  predicate EndsLast(q: seq<Frame>)
    decreases |q|
  {
    q == [] || (if Final(q[0]) then Aborts(q[1..]) else EndsLast(q[1..]))
  }

  lemma {:induction false} NoEndLast(q: seq<Frame>)
    requires NoEnd(q)
    ensures EndsLast(q) && forall f :: EndsLast(q + [f])
    decreases |q|
  {
    hide Final;
    if q != [] {
      NoEndLast(q[1..]);
    }
    forall f
      ensures EndsLast(q + [f])
    {
      if q == [] {
        assert (q + [f])[1..] == [];
      } else {
        assert (q + [f])[1..] == q[1..] + [f] && (q + [f])[0] == q[0];
      }
    }
  }

  lemma {:induction false} AbortLast(q: seq<Frame>, f: Frame)
    requires EndsLast(q) && f[0] == ABORT
    ensures EndsLast(q + [f])
    decreases |q|
  {
    hide Final;
    var r := q + [f];
    if q == [] {
      assert r[1..] == [];
    } else {
      assert r[1..] == q[1..] + [f] && r[0] == q[0];
      if !Final(q[0]) {
        AbortLast(q[1..], f);
      }
    }
  }

  lemma {:induction false} LoseLast(q: seq<Frame>, k: nat)
    requires EndsLast(q)
    ensures EndsLast(Without(q, k))
    decreases |q|
  {
    hide Final;
    if k < |q| {
      var r := Without(q, k);
      if k == 0 {
        assert r == q[1..];
        if Final(q[0]) {
          AbortsLast(r);
        }
      } else {
        assert r[0] == q[0] && r[1..] == Without(q[1..], k - 1);
        if !Final(q[0]) {
          LoseLast(q[1..], k - 1);
        }
      }
    }
  }

  lemma AbortsLast(q: seq<Frame>)
    requires Aborts(q)
    ensures EndsLast(q) && NoEnd(q)
  {
    assert Specifier(ABORT) == 4;
    NoEndLast(q);
  }

  // ----------------------------------------------------------------- the invariants

  predicate Clean(q: seq<Frame>) {
    forall i :: 0 <= i < |q| ==> !Sixth(q[i])
  }

  predicate Ordered(l: Link) {
    if l.c.state.BlDownloadCrcAck? || Dead(l.c) then EndsLast(ForServer(l)) else NoEnd(ForServer(l))
  }

  predicate AllMeasured(l: Link, d: seq<byte>, z: nat) {
    forall i :: 0 <= i < |Pending(l)| ==> Measured(Pending(l)[i], l.c, d, z)
  }

  /** What holds of the client and of all it sends, whatever the server does. */
  predicate Tidy(l: Link, d: seq<byte>, z: nat) {
    && Calm(l.c, d) && Narrow(l.c, d, z) && Clean(ForServer(l)) && Ordered(l) && AllMeasured(l, d, z)
    && (|d| <= REPORT_MAX || Count(ForServer(l), Fifth) == 0)
  }

  /** Answers under way, and answers the server may still give. */
  predicate Credit(l: Link) {
    var p, q := Count(Pending(l), Fifth), Count(ForServer(l), Fifth);
    var u := Supply(l.s, q);
    match l.c.state
    case BlDownloadInitiate => p <= 1 && Level(l.s) == 0 && q == 0
    case BlDownloadInProgress => p + u == 0 || (p <= 1 && Level(l.s) == 0 && q == 0)
    case BlDownloadAck => p + u <= 1
    case BlDownloadCrc => p + u == 0
    case BlDownloadCrcAck => p + u == 0
    case _ => true
  }

  // ----------------------------------------------------------------- client calls

  /** The link after the client has taken the frame it holds. */
  function Taken(l: Link): (m: Link) {
    l.(c := C.DownloadRx(l.c).c.(timer := 0, rxNew := false))
  }

  lemma PendingTaken(l: Link)
    requires l.c.rxNew
    ensures Pending(l)[0] == l.c.rx && Pending(l)[1..] == l.toC && Pending(Taken(l)) == l.toC
  {
    hide C.DownloadRx;
  }

  lemma {:induction false} CountZero(q: seq<Frame>, p: Frame -> bool)
    requires Count(q, p) == 0
    ensures forall i :: 0 <= i < |q| ==> !p(q[i])
    decreases |q|
  {
    if q != [] {
      CountZero(q[1..], p);
    }
  }

  /** No answer is left that could come too late. */
  lemma TakenMeasured(l: Link, d: seq<byte>, z: nat)
    requires Tidy(l, d, z) && l.c.rxNew && (Dead(l.c) || Count(Pending(l), Fifth) <= 1)
    ensures AllMeasured(Taken(l), d, z)
  {
    hide C.DownloadRx, Narrow, Calm, EndsLast, NoEnd, Sixth, Fifth;
    PendingTaken(l);
    TakeMoved(l.c, d);
    var m := Taken(l);
    if !Dead(m.c) {
      CountZero(l.toC, Fifth) by {
        assert Count(Pending(l), Fifth) == 1 + Count(l.toC, Fifth);
      }
    }
  }

  lemma TakenOrdered(l: Link, d: seq<byte>)
    requires Calm(l.c, d) && Ordered(l) && l.c.rxNew
    ensures Ordered(Taken(l))
  {
    hide C.DownloadRx, Calm, EndsLast, NoEnd, Fifth;
    TakeMoved(l.c, d);
    assert ForServer(Taken(l)) == ForServer(l);
    if NoEnd(ForServer(l)) {
      NoEndLast(ForServer(l));
    }
  }

  lemma TakenTidy(l: Link, d: seq<byte>, z: nat)
    requires Tidy(l, d, z) && l.c.rxNew && 0 < |d| && (Dead(l.c) || Count(Pending(l), Fifth) <= 1)
    ensures Tidy(Taken(l), d, z)
  {
    hide C.DownloadRx, Narrow, Measured, Calm, Fifth, Sixth, Count, EndsLast, NoEnd;
    TakeNarrow(l.c, d, z) by {
      assert Pending(l)[0] == l.c.rx;
    }
    CalmRx(l.c, d);
    CalmFreed(C.DownloadRx(l.c).c, d);
    assert ForServer(Taken(l)) == ForServer(l);
    TakenMeasured(l, d, z);
    TakenOrdered(l, d);
  }

  lemma CalmFreed(c: C.Client, d: seq<byte>)
    requires Calm(c, d)
    ensures Calm(c.(timer := 0, rxNew := false), d)
  {
  }

  lemma TakenCredit(l: Link, d: seq<byte>)
    requires Calm(l.c, d) && Credit(l) && l.c.rxNew
    ensures Credit(Taken(l)) && (l.c.state.BlDownloadCrcAck? ==> !Fifth(l.c.rx))
  {
    hide C.DownloadRx, Calm, Fifth;
    PendingTaken(l);
    TakeMoved(l.c, d);
    assert ForServer(Taken(l)) == ForServer(l);
    assert Count(Pending(l), Fifth) == (if Fifth(l.c.rx) then 1 else 0) + Count(l.toC, Fifth);
  }

  /** The link after a call of a client that holds no frame. */
  function After(l: Link, x: C.Result): (m: Link) {
    l.(c := x.c, toS := Queue(l.toS, x.sent))
  }

  lemma ForServerSent(l: Link, x: C.Result)
    ensures ForServer(After(l, x)) == Queue(ForServer(l), x.sent)
  {
    if x.sent.Some? {
      assert ForServer(After(l, x)) == ForServer(l) + [x.sent.value];
    }
  }

  lemma SentOrdered(l: Link, x: C.Result, d: seq<byte>)
    requires Ordered(l) && Moved(l.c, x, d) && !l.c.rxNew
    ensures Ordered(After(l, x))
  {
    hide EndsLast, Fifth;
    ForServerSent(l, x);
    var q := ForServer(l);
    assert Specifier(ABORT) == 4;
    if NoEnd(q) {
      NoEndLast(q);
    }
    if x.sent.Some? && x.sent.value[0] == ABORT && EndsLast(q) {
      AbortLast(q, x.sent.value);
    }
  }

  lemma TimedCalm(c: C.Client, dt: uint16, timeout: uint16, txFull: bool, abort: uint32, d: seq<byte>)
    requires Calm(c, d) && !c.rxNew
    ensures var x := C.DownloadTimed(c, dt, timeout, txFull, abort); Calm(x.c, d) && !x.c.rxNew
  {
    hide C.EndFrame, Checksum, C.Padded7;
  }

  lemma SentTidy(l: Link, dt: uint16, timeout: uint16, txFull: bool, abort: uint32, d: seq<byte>, z: nat)
    requires Tidy(l, d, z) && !l.c.rxNew && Short(d, z)
    ensures Tidy(After(l, C.DownloadTimed(l.c, dt, timeout, txFull, abort)), d, z)
  {
    hide C.DownloadTimed, Narrow, Measured, Calm, Count, EndsLast, NoEnd, Short;
    var x := C.DownloadTimed(l.c, dt, timeout, txFull, abort);
    TimedMoved(l.c, dt, timeout, txFull, abort, d, z);
    TimedNarrow(l.c, dt, timeout, txFull, abort, d, z);
    TimedCalm(l.c, dt, timeout, txFull, abort, d);
    SentOrdered(l, x, d);
    ForServerSent(l, x);
    var m := After(l, x);
    assert Pending(m) == Pending(l);
    assert Specifier(ABORT) == 4;
    if x.sent.Some? {
      CountAppend(ForServer(l), Fifth, x.sent.value);
    }
  }

  lemma SentCredit(l: Link, x: C.Result, d: seq<byte>)
    requires Calm(l.c, d) && Credit(l) && !l.c.rxNew && Moved(l.c, x, d) && !x.c.rxNew
    ensures Credit(After(l, x))
  {
    hide Calm, Plain;
    ForServerSent(l, x);
    var m := After(l, x);
    assert Pending(m) == Pending(l);
    if x.sent.Some? {
      CountAppend(ForServer(l), Fifth, x.sent.value);
    }
  }

  /** A call of the client keeps the count, and does not report success. */
  lemma CallCredit(l: Link, dt: uint16, timeout: uint16, txFull: bool, d: seq<byte>, z: nat)
    requires Tidy(l, d, z) && Credit(l) && Short(d, z) && 0 < |d|
    ensures var m := Step(l, ClientCall(dt, timeout, txFull)); Tidy(m, d, z) && Credit(m)
    ensures !C.Download(l.c, dt, timeout, txFull).ret.Ok?
  {
    hide C.DownloadTimed, C.DownloadRx, Tidy, Credit, Short, S.Process, S.Receive, C.Receive;
    var x := C.Download(l.c, dt, timeout, txFull);
    var m := Step(l, ClientCall(dt, timeout, txFull));
    TidyCalm(l, d, z);
    CreditOne(l, d);
    if !l.c.rxNew {
      TimedMoved(l.c, dt, timeout, txFull, 0, d, z);
      TimedCalm(l.c, dt, timeout, txFull, 0, d);
      SentTidy(l, dt, timeout, txFull, 0, d, z);
      SentCredit(l, x, d);
    } else if l.c.rx[0] == ABORT {
      GivenUp(l, m, d, z);
    } else {
      TakenTidy(l, d, z);
      TakenCredit(l, d);
      TakeMoved(l.c, d);
      var y, t := C.DownloadRx(l.c), Taken(l);
      assert !y.done;
      TidyCalm(t, d, z);
      TimedMoved(t.c, dt, timeout, txFull, y.abort, d, z);
      TimedCalm(t.c, dt, timeout, txFull, y.abort, d);
      SentTidy(t, dt, timeout, txFull, y.abort, d, z);
      SentCredit(t, C.DownloadTimed(t.c, dt, timeout, txFull, y.abort), d);
    }
  }

  lemma TidyCalm(l: Link, d: seq<byte>, z: nat)
    requires Tidy(l, d, z)
    ensures Calm(l.c, d) && Narrow(l.c, d, z)
  {
    hide Calm, Narrow, Measured, Sixth, Fifth, EndsLast, NoEnd;
  }

  /** At most one answer is under way. */
  lemma CreditOne(l: Link, d: seq<byte>)
    requires Credit(l) && Calm(l.c, d)
    ensures Dead(l.c) || Count(Pending(l), Fifth) <= 1
  {
  }

  /** The client is done, one way or the other. */
  lemma GivenUp(l: Link, m: Link, d: seq<byte>, z: nat)
    requires Tidy(l, d, z) && m == l.(c := m.c) && m.c.state.NotDefined? && !m.c.rxNew && m.c.buf == l.c.buf
    ensures Tidy(m, d, z) && Credit(m)
  {
    hide Sixth, Fifth, EndsLast, NoEnd, Sending;
    assert ForServer(m) == ForServer(l);
    if NoEnd(ForServer(l)) {
      NoEndLast(ForServer(l));
    }
  }

  // ------------------------------------------------------------------ frames get lost

  lemma CleanLess(q: seq<Frame>, r: seq<Frame>)
    requires Clean(q) && forall f :: f in r ==> f in q
    ensures Clean(r) && (NoEnd(q) ==> NoEnd(r))
  {
    hide Sixth, Final;
    assert forall i :: 0 <= i < |r| ==> r[i] in r;
  }

  /** A command less. */
  lemma FewerCommands(l: Link, m: Link, k: nat, d: seq<byte>, z: nat)
    requires Tidy(l, d, z) && m.c == l.c && m.toC == l.toC && ForServer(m) == Without(ForServer(l), k)
    ensures Tidy(m, d, z) && (Credit(l) && Level(m.s) == Level(l.s) ==> Credit(m))
  {
    hide Narrow, Calm, Measured, Fifth, EndsLast, Clean, NoEnd, Without, ForServer;
    var q := ForServer(l);
    CountLose(q, Fifth, k);
    assert Pending(m) == Pending(l);
    CleanLess(q, Without(q, k)) by {
      WithoutIn(q, k);
    }
    if EndsLast(q) {
      LoseLast(q, k);
    }
  }

  lemma WithoutIn(q: seq<Frame>, k: nat)
    ensures forall f :: f in Without(q, k) ==> f in q
  {
  }

  /** An answer less. */
  lemma FewerAnswers(l: Link, m: Link, k: nat, d: seq<byte>, z: nat)
    requires Tidy(l, d, z) && m.s == l.s && m.toS == l.toS && Pending(m) == Without(Pending(l), k)
    requires m.c == l.c.(rx := m.c.rx, rxNew := m.c.rxNew)
    ensures Tidy(m, d, z) && (Credit(l) ==> Credit(m))
  {
    hide Measured, Sixth, Fifth, Final, EndsLast, NoEnd;
    CountLose(Pending(l), Fifth, k);
    assert ForServer(m) == ForServer(l);
    assert forall f :: f in Pending(m) ==> f in Pending(l);
    assert forall i :: 0 <= i < |Pending(m)| ==> Pending(m)[i] in Pending(m);
    SameMeasured(l, m, d, z);
  }

  lemma SameMeasured(l: Link, m: Link, d: seq<byte>, z: nat)
    requires m.c == l.c.(rx := m.c.rx, rxNew := m.c.rxNew)
    ensures forall f :: Measured(f, l.c, d, z) ==> Measured(f, m.c, d, z)
  {
    hide Fifth;
  }

  // ------------------------------------------------------- the server has left unwritten

  /** The server has left the transfer, or never was in it. */
  predicate Strayed(l: Link, d: seq<byte>, z: nat) {
    && !Dead(l.c) && Wandering(l.s) && Stream(l.s) && Tidy(l, d, z) && Credit(l) && (|d| <= REPORT_MAX || Level(l.s) == 0)
  }

  /** The frame the server holds is no request of a block download. */
  lemma HeldCommand(l: Link, d: seq<byte>, z: nat)
    requires Tidy(l, d, z) && l.s.rxNew
    ensures !Sixth(l.s.rx) && (Fifth(l.s.rx) ==> 1 <= Count(ForServer(l), Fifth))
  {
    hide Narrow, Calm, Measured, Sixth, Fifth, EndsLast, NoEnd;
    assert ForServer(l)[0] == l.s.rx;
  }

  lemma CreditSupply(l: Link, d: seq<byte>)
    requires Credit(l) && !Dead(l.c) && Calm(l.c, d)
    ensures Supply(l.s, Count(ForServer(l), Fifth)) <= 1
  {
  }

  /** A call of the server leaves the frame it holds, or uses it up. */
  lemma Consumed(l: Link, s: S.Server) returns (k: nat)
    requires s.rx == l.s.rx && (s.rxNew ==> l.s.rxNew)
    ensures var m := l.(s := s);
            && ForServer(m) == Without(ForServer(l), k)
            && Count(ForServer(m), Fifth)
               == Count(ForServer(l), Fifth) - (if l.s.rxNew && !s.rxNew && Fifth(l.s.rx) then 1 else 0)
  {
    hide Fifth;
    if l.s.rxNew && !s.rxNew {
      k := 0;
      assert ForServer(l)[0] == l.s.rx && ForServer(l)[1..] == l.toS;
      assert ForServer(l.(s := s)) == l.toS;
    } else {
      k := |ForServer(l)|;
    }
  }

  /** An answer joins the others. */
  lemma AnswerQueued(l: Link, f: Option<Frame>, d: seq<byte>, z: nat)
    requires Tidy(l, d, z) && (f.Some? ==> Measured(f.value, l.c, d, z))
    ensures var m := l.(toC := Queue(l.toC, f));
            && Tidy(m, d, z) && ForServer(m) == ForServer(l)
            && Count(Pending(m), Fifth) == Count(Pending(l), Fifth) + (if f.Some? && Fifth(f.value) then 1 else 0)
  {
    hide Narrow, Calm, Measured, Sixth, Fifth, EndsLast, NoEnd;
    var m := l.(toC := Queue(l.toC, f));
    assert Pending(m) == Queue(Pending(l), f);
    if f.Some? {
      CountAppend(Pending(l), Fifth, f.value);
    }
  }

  lemma CreditOnward(l: Link, m: Link, x: S.Result)
    requires Credit(l) && m.c == l.c && m.s == x.s && !Dead(l.c)
    requires var q := Count(ForServer(l), Fifth); var r := Used(l.s, x);
             && Onward(l.s, x, q, r) && Count(ForServer(m), Fifth) == q - r
             && Count(Pending(m), Fifth) == Count(Pending(l), Fifth) + (if Mute(x) then 0 else 1)
    ensures Credit(m)
  {
    hide Fifth, Stream, Wandering, Level, Count;
  }

  lemma StrayedServerCall(l: Link, i: S.Input, d: seq<byte>, z: nat)
    requires Strayed(l, d, z)
    ensures Strayed(Step(l, ServerCall(i)), d, z)
  {
    hide S.Process, Fifth, Sixth, Stream, Wandering, Tidy, Credit, C.Download, S.Receive, C.Receive, Level;
    var q := Count(ForServer(l), Fifth);
    var x := S.Process(l.s, i);
    TidyCalm(l, d, z);
    if l.s.rxNew {
      HeldCommand(l, d, z);
    }
    CreditSupply(l, d);
    AstrayCall(l.s, i, q);
    var k := Consumed(l, x.s);
    var n := l.(s := x.s);
    FewerCommands(l, n, k, d, z);
    CrampedMute(l, x, d, z);
    AnswerQueued(n, x.sent, d, z);
    CreditOnward(l, Step(l, ServerCall(i)), x);
  }

  /** Where the last segment has a block of its own, there is no command of block upload. */
  lemma CrampedMute(l: Link, x: S.Result, d: seq<byte>, z: nat)
    requires Strayed(l, d, z) && Onward(l.s, x, Count(ForServer(l), Fifth), Used(l.s, x))
    ensures x.sent.Some? ==> Measured(x.sent.value, l.c, d, z)
    ensures |d| <= REPORT_MAX || Level(x.s) == 0
  {
    hide Fifth, Sixth, Stream, Wandering, Calm, Narrow, EndsLast, NoEnd, Credit;
  }

  lemma StrayedReceives(l: Link, d: seq<byte>, z: nat)
    requires Strayed(l, d, z)
    ensures Strayed(Step(l, ToServer), d, z)
  {
    hide S.Process, Fifth, Sixth, Tidy, Credit, C.Download, C.Receive, S.ReceiveSegment;
    if l.toS != [] {
      var m := Step(l, ToServer);
      if l.s.rxNew {
        assert ForServer(m) == Without(ForServer(l), 1);
        FewerCommands(l, m, 1, d, z);
      } else {
        assert ForServer(m) == ForServer(l) == Without(ForServer(l), |ForServer(l)|);
        FewerCommands(l, m, |ForServer(l)|, d, z);
      }
    }
  }

  /** A frame arrives at the client. */
  lemma Heard(l: Link, d: seq<byte>, z: nat)
    requires Tidy(l, d, z) && !Dead(l.c)
    ensures var m := Step(l, ToClient);
            Tidy(m, d, z) && (Credit(l) ==> Credit(m)) && !Dead(m.c) && m.s == l.s && m.toS == l.toS && m.c.state == l.c.state
  {
    hide S.Process, Fifth, Sixth, Tidy, Credit, C.Download, S.Receive, C.ReceiveSegment;
    TidyCalm(l, d, z);
    if l.toC != [] {
      var m := Step(l, ToClient);
      if l.c.rxNew {
        assert Pending(m) == Without(Pending(l), 1);
        FewerAnswers(l, m, 1, d, z);
      } else {
        assert Pending(m) == Pending(l) == Without(Pending(l), |Pending(l)|);
        FewerAnswers(l, m, |Pending(l)|, d, z);
      }
    }
  }

  /** A frame lost behind the first one, or the first one. */
  lemma WithoutBehind(q: seq<Frame>, f: Frame, k: nat)
    ensures [f] + Without(q, k) == Without([f] + q, k + 1)
  {
    if k < |q| {
      assert ([f] + q)[..k + 1] == [f] + q[..k] && ([f] + q)[k + 2..] == q[k + 1..];
    }
  }

  /** Any frame gets lost. */
  lemma Lost(l: Link, k: nat, d: seq<byte>, z: nat)
    requires Tidy(l, d, z)
    ensures var m := l.(toS := Without(l.toS, k)); Tidy(m, d, z) && (Credit(l) ==> Credit(m))
    ensures var m := l.(toC := Without(l.toC, k)); Tidy(m, d, z) && (Credit(l) ==> Credit(m))
  {
    hide Tidy, Credit, Without;
    var m := l.(toS := Without(l.toS, k));
    WithoutBehind(l.toS, l.s.rx, k);
    FewerCommands(l, m, if l.s.rxNew then k + 1 else k, d, z) by {
      assert [] + l.toS == l.toS && [] + m.toS == m.toS;
    }
    var n := l.(toC := Without(l.toC, k));
    WithoutBehind(l.toC, l.c.rx, k);
    FewerAnswers(l, n, if l.c.rxNew then k + 1 else k, d, z) by {
      assert [] + l.toC == l.toC && [] + n.toC == n.toC;
    }
  }

  lemma StrayedStep(l: Link, e: Event, d: seq<byte>, z: nat)
    requires Strayed(l, d, z) && Short(d, z) && 0 < |d|
    ensures var m := Step(l, e); Dead(m.c) || Strayed(m, d, z)
  {
    hide S.Process, S.Receive, C.Download, C.Receive, Tidy, Credit, Wandering, Stream, Short, Level;
    match e
    case LoseRequest(k) => Lost(l, k, d, z);
    case LoseAnswer(k) => Lost(l, k, d, z);
    case ToServer => StrayedReceives(l, d, z);
    case ToClient => Heard(l, d, z);
    case ServerCall(i) => StrayedServerCall(l, i, d, z);
    case ClientCall(dt, timeout, txFull) => CallCredit(l, dt, timeout, txFull, d, z);
  }
}
