/**
  Block upload over a bus that may lose any frame of the server: the client's
  buffer is always a prefix of the zero-padded object, and a reported success
  means the right size and the right bytes, also when the server has left the
  transfer and reads the frames of the client as requests. Each frame of the
  client arrives and is processed before the client is called again, and no
  confirmation forced by the block timer overtakes a first segment.
 */
module SdoBlockUpload {
  import opened Can
  import opened SdoTypes
  import S = SdoServer
  import C = SdoClient
  import opened SdoServerSafe
  import opened SdoCalls
  import B = SdoBlockDownload
  import opened SdoSegments

  /** The last return code of the client and the size it reported. */
  datatype Link = Link(s: S.Server, c: C.Client, toC: seq<Frame>, ret: C.Return, length: nat)

  datatype Event = LoseAnswer(k: nat) | ToClient | ServerCall(i: S.Input) | ClientCall(dt: uint16, txFull: bool)

  /** The call finds the time for a block used up. */
  predicate Expires(c: C.Client, dt: uint16, timeout: uint16) {
    c.state.BlUploadInProgress? && !c.rxNew && Add16(c.block.timer, dt) >= timeout / 2
  }

  /** The time for a block was used up, but the confirmation could not be sent yet. */
  predicate Late(c: C.Client, timeout: uint16) {
    c.state.BlUploadAck? && c.block.timer >= timeout / 2
  }

  predicate Confirms(x: C.Result) {
    x.sent.Some? && x.sent.value[0] == 0xA2
  }

  /** The client is called when the server is done with its last frame. */
  predicate MayCall(l: Link) {
    !l.s.rxNew && !l.c.state.NotDefined?
  }

  /** A confirmation forced by the block timer leaves while a first segment is under way. */
  predicate Forced(l: Link, e: Event, timeout: uint16) {
    && e.ClientCall? && MayCall(l) && (Expires(l.c, e.dt, timeout) || Late(l.c, timeout))
    && Confirms(C.Upload(l.c, e.dt, timeout, e.txFull)) && !B.AllLater(l.toC)
  }

  /** And the server is in the transfer. */
  predicate Overtakes(l: Link, e: Event, timeout: uint16) {
    Forced(l, e, timeout) && !l.s.state.Idle?
  }

  /** Read as a request, the frame names an object without any bytes. */
  predicate NamesEmpty(s: S.Server, f: Frame) {
    var x := S.Lookup(s.node, FrameIndex(f), f[3]);
    x.Found? && x.arg.length == 0 && x.arg.access.readable && !S.HasFunction(s.(arg := x.arg))
  }

  /** The server has left the transfer, and its answer looks like a segment. */
  predicate Mistakes(l: Link, e: Event, timeout: uint16) {
    Forced(l, e, timeout) && l.s.state.Idle? && NamesEmpty(l.s, C.Upload(l.c, e.dt, timeout, e.txFull).sent.value)
  }

  /** A frame of the client reaches the server. */
  function Deliver(s: S.Server, f: Option<Frame>): (r: S.Server) {
    if f.None? then s else S.Receive(s, f.value)
  }

  function Step(l: Link, e: Event, timeout: uint16): (r: Link) {
    match e
    case LoseAnswer(k) => l.(toC := B.Without(l.toC, k))
    case ToClient => if l.toC == [] then l else l.(c := C.Receive(l.c, l.toC[0]), toC := l.toC[1..])
    case ServerCall(i) => var x := S.Process(l.s, i); l.(s := x.s, toC := B.Queue(l.toC, x.sent))
    case ClientCall(dt, txFull) =>
      if !MayCall(l) then l
      else
        var x := C.Upload(l.c, dt, timeout, txFull);
        l.(c := x.c, s := Deliver(l.s, x.sent), ret := x.ret, length := x.length)
  }

  function Run(l: Link, run: seq<Event>, timeout: uint16): (r: Link)
    decreases |run|
  {
    if run == [] then l else Run(Step(l, run[0], timeout), run[1..], timeout)
  }

  /** No confirmation of the run overtakes a first segment, to a server in the transfer or to one that would answer it. */
  predicate Smooth(l: Link, run: seq<Event>, timeout: uint16)
    decreases |run|
  {
    || run == []
    || (!Overtakes(l, run[0], timeout) && !Mistakes(l, run[0], timeout) && Smooth(Step(l, run[0], timeout), run[1..], timeout))
  }

  // ------------------------------------------------------------- frames on their way

  predicate IsAbort(f: Frame) {
    f[0] == ABORT
  }

  predicate AllAborts(q: seq<Frame>) {
    forall i :: 0 <= i < |q| ==> IsAbort(q[i])
  }

  /** What an idle server answers to a frame of the client: an abort, or the value of an object without any bytes. */
  predicate IsEcho(f: Frame) {
    IsAbort(f) || f[0] == 0x53
  }

  predicate AllEchoes(q: seq<Frame>) {
    forall i :: 0 <= i < |q| ==> IsEcho(q[i])
  }

  /** Segment number k > p, k <= hi, of the block at `base` of w. */
  predicate Live(f: Frame, base: int, w: seq<byte>, p: int, hi: int) {
    var k := Seqno(f[0]);
    base >= 0 && p < k <= hi && 0 < k && base + 7 * (k - 1) < |w| && f == C.Segment(w, base, k)
  }

  /** Segments of one block in ascending order, then aborts. */
  predicate Chain(q: seq<Frame>, base: int, w: seq<byte>, p: int, hi: int)
    decreases |q|
  {
    AllAborts(q) || (Live(q[0], base, w, p, hi) && Chain(q[1..], base, w, Seqno(q[0][0]), hi))
  }

  /** Left-over segments of earlier blocks, none a first one, and then a chain. */
  predicate Flow(q: seq<Frame>, base: int, w: seq<byte>, hi: int)
    decreases |q|
  {
    Chain(q, base, w, 0, hi) || (q != [] && B.Later(q[0]) && Flow(q[1..], base, w, hi))
  }

  lemma AbortsRest(q: seq<Frame>)
    requires AllAborts(q) && q != []
    ensures AllAborts(q[1..]) && IsAbort(q[0])
  {
  }

  lemma {:induction false} ChainLater(q: seq<Frame>, base: int, w: seq<byte>, p: int, hi: int)
    requires Chain(q, base, w, p, hi) && p > 0
    ensures B.AllLater(q)
    decreases |q|
  {
    if AllAborts(q) {
      forall i | 0 <= i < |q|
        ensures B.Later(q[i])
      {
        B.SeqnoOfAbort();
      }
    } else {
      ChainLater(q[1..], base, w, Seqno(q[0][0]), hi);
      assert forall i :: 0 < i < |q| ==> q[i] == q[1..][i - 1];
    }
  }

  /** No segment follows the last one. */
  lemma ChainEnds(q: seq<Frame>, base: int, w: seq<byte>, p: int, hi: int)
    requires Chain(q, base, w, p, hi) && base + 7 * p >= |w|
    ensures AllAborts(q)
  {
  }

  lemma {:induction false} ChainWeaken(q: seq<Frame>, base: int, w: seq<byte>, p: int, hi: int, p0: int, hi1: int)
    requires Chain(q, base, w, p, hi) && p0 <= p && hi <= hi1
    ensures Chain(q, base, w, p0, hi1)
    decreases |q|
  {
    hide Seqno, C.Segment;
    if !AllAborts(q) {
      ChainWeaken(q[1..], base, w, Seqno(q[0][0]), hi, Seqno(q[0][0]), hi1);
    }
  }

  lemma {:induction false} FlowWeaken(q: seq<Frame>, base: int, w: seq<byte>, hi: int, hi1: int)
    requires Flow(q, base, w, hi) && hi <= hi1
    ensures Flow(q, base, w, hi1)
    decreases |q|
  {
    hide B.Later;
    if Chain(q, base, w, 0, hi) {
      ChainWeaken(q, base, w, 0, hi, 0, hi1);
    } else {
      FlowWeaken(q[1..], base, w, hi, hi1);
    }
  }

  lemma {:induction false} FlowLater(q: seq<Frame>, base: int, w: seq<byte>, hi: int)
    requires B.AllLater(q)
    ensures Flow(q, base, w, hi)
    decreases |q|
  {
    if q != [] {
      FlowLater(q[1..], base, w, hi);
    }
  }

  lemma {:induction false} ChainLose(q: seq<Frame>, base: int, w: seq<byte>, p: int, hi: int, k: nat)
    requires Chain(q, base, w, p, hi)
    ensures Chain(B.Without(q, k), base, w, p, hi)
    decreases |q|
  {
    hide Live, IsAbort;
    var r := B.Without(q, k);
    if k < |q| && !AllAborts(q) {
      if k == 0 {
        assert r == q[1..];
        LiveNumber(q[0], base, w, p, hi);
        ChainWeaken(r, base, w, Seqno(q[0][0]), hi, p, hi);
      } else {
        assert r[0] == q[0] && r[1..] == B.Without(q[1..], k - 1);
        ChainLose(q[1..], base, w, Seqno(q[0][0]), hi, k - 1);
      }
    }
  }

  lemma LiveNumber(f: Frame, base: int, w: seq<byte>, p: int, hi: int)
    requires Live(f, base, w, p, hi)
    ensures p < Seqno(f[0]) <= hi && 0 < Seqno(f[0])
  {
  }

  lemma {:induction false} FlowLose(q: seq<Frame>, base: int, w: seq<byte>, hi: int, k: nat)
    requires Flow(q, base, w, hi)
    ensures Flow(B.Without(q, k), base, w, hi)
    decreases |q|
  {
    hide B.Later, Chain;
    var r := B.Without(q, k);
    if Chain(q, base, w, 0, hi) {
      ChainLose(q, base, w, 0, hi, k);
    } else if k < |q| {
      if k == 0 {
        assert r == q[1..];
      } else {
        assert r[0] == q[0] && r[1..] == B.Without(q[1..], k - 1);
        FlowLose(q[1..], base, w, hi, k - 1);
      }
    }
  }

  predicate NoAborts(q: seq<Frame>) {
    forall i :: 0 <= i < |q| ==> !IsAbort(q[i])
  }

  /** The next segment of the block joins the end. */
  lemma {:induction false} ChainAppend(q: seq<Frame>, base: int, w: seq<byte>, p: int, hi: int, f: Frame)
    requires Chain(q, base, w, p, hi) && NoAborts(q) && p <= hi && Live(f, base, w, hi, hi + 1)
    ensures Chain(q + [f], base, w, p, hi + 1)
    decreases |q|
  {
    hide IsAbort, Live;
    var r := q + [f];
    if q == [] {
      assert r[1..] == [] && r[0] == f;
      assert Live(f, base, w, p, hi + 1) by {
        LiveFrom(f, base, w, hi, p, hi + 1);
      }
      assert AllAborts([]);
      assert Chain(r[1..], base, w, Seqno(f[0]), hi + 1);
    } else {
      assert !IsAbort(q[0]);
      assert r[0] == q[0] && r[1..] == q[1..] + [f];
      LiveNumber(q[0], base, w, p, hi);
      LiveFrom(q[0], base, w, p, p, hi);
      ChainAppend(q[1..], base, w, Seqno(q[0][0]), hi, f);
    }
  }

  lemma LiveFrom(f: Frame, base: int, w: seq<byte>, p: int, p0: int, hi: int)
    requires Live(f, base, w, p, hi) && p0 <= p
    ensures forall h :: h >= hi ==> Live(f, base, w, p0, h)
  {
    hide Seqno, C.Segment;
  }

  lemma {:induction false} ChainAbort(q: seq<Frame>, base: int, w: seq<byte>, p: int, hi: int, f: Frame)
    requires Chain(q, base, w, p, hi) && IsAbort(f)
    ensures Chain(q + [f], base, w, p, hi)
    decreases |q|
  {
    hide IsAbort, Live;
    var r := q + [f];
    if !AllAborts(q) {
      assert r[0] == q[0] && r[1..] == q[1..] + [f];
      ChainAbort(q[1..], base, w, Seqno(q[0][0]), hi, f);
    }
  }

  lemma {:induction false} FlowAppend(q: seq<Frame>, base: int, w: seq<byte>, hi: int, f: Frame)
    requires Flow(q, base, w, hi) && 0 <= hi
    requires (NoAborts(q) && Live(f, base, w, hi, hi + 1)) || IsAbort(f)
    ensures Flow(q + [f], base, w, if IsAbort(f) then hi else hi + 1)
    decreases |q|
  {
    hide IsAbort, Live, B.Later, Chain;
    if Chain(q, base, w, 0, hi) {
      if IsAbort(f) {
        ChainAbort(q, base, w, 0, hi, f);
      } else {
        ChainAppend(q, base, w, 0, hi, f);
      }
    } else {
      assert (q + [f])[0] == q[0] && (q + [f])[1..] == q[1..] + [f];
      FlowAppend(q[1..], base, w, hi, f);
    }
  }

  // ------------------------------------------------------------------ the invariant

  /** The frames on the way to the client. */
  function Pending(c: C.Client, toC: seq<Frame>): (q: seq<Frame>) {
    (if c.rxNew then [c.rx] else []) + toC
  }

  /** The answer to the request: n bytes will follow. */
  predicate IsAccept(f: Frame, n: nat) {
    f[0] == 0xC6 && FrameValue(f) == n
  }

  /** The end of the transfer of w. */
  predicate IsEnd(f: Frame, w: seq<byte>) {
    && Specifier(f[0]) == 6 && f[0] != ABORT && BlockUnused(f[0]) == 7 * SegmentsFor(|w|) - |w|
    && FromLe16(f[1], f[2]) == Checksum(w)
  }

  predicate Single(q: seq<Frame>) {
    forall i :: 0 < i < |q| ==> IsAbort(q[i])
  }

  /** The client's buffer holds a prefix of w, and it knows the size. */
  predicate Taking(c: C.Client, w: seq<byte>) {
    && B.Agrees(c.buf, c.block.received, w) && c.block.dataSize == |w| <= |c.buf| && c.block.crcOn
    && c.block.seqno < 0x80 && c.block.size < 0x80 && Roomy(c)
  }

  /** The user's buffer holds a block, as the client demands, and its size is a 32-bit number. */
  predicate Roomy(c: C.Client) {
    7 * C.BLOCK_SIZE_MAX <= |c.buf| < 0x1_0000_0000
  }

  /** More is to come; everything received so far is whole segments. */
  predicate Partial(c: C.Client, w: seq<byte>) {
    Taking(c, w) && c.block.received < |w| && c.block.received % 7 == 0 && 0 <= Base(c)
  }

  /** Where the block begins whose segments the client counts. */
  function Base(c: C.Client): (n: int) {
    c.block.received - 7 * (c.block.seqno as int)
  }

  /** All segments are in, cut off at the end of the user's buffer. */
  predicate Complete(c: C.Client, w: seq<byte>) {
    Taking(c, w) && c.block.received == Min(7 * SegmentsFor(|w|), |c.buf|)
  }

  predicate InBlock(c: C.Client, toC: seq<Frame>, w: seq<byte>, hi: int) {
    Partial(c, w) && c.block.seqno <= hi
    && (if c.block.seqno == 0 then Flow(toC, Base(c), w, hi) else Chain(toC, Base(c), w, c.block.seqno, hi))
  }

  predicate ClientInv(c: C.Client, toC: seq<Frame>, w: seq<byte>, hi: int, timeout: uint16) {
    && (!c.state.NotDefined? && !c.state.BlUploadAck? ==> c.block.timer < timeout / 2)
    && match c.state
       case NotDefined => true
       case Aborting => true
       case BlUploadInitiate =>
         && Single(Pending(c, toC)) && c.block.size == C.BLOCK_SIZE_MAX && c.block.seqno == 0 && Roomy(c)
         && forall f :: f in Pending(c, toC) ==> IsAbort(f) || IsAccept(f, |w|)
       case BlUploadInitiateAck =>
         && Taking(c, w) && c.block.received == 0 && AllAborts(Pending(c, toC)) && c.block.size == C.BLOCK_SIZE_MAX
       case BlUploadInProgress => !c.rxNew && InBlock(c, toC, w, hi)
       case BlUploadSubEnd =>
         && c.rxNew && Taking(c, w) && (IsAbort(c.rx)
             || (if c.block.received < |w| then Partial(c, w) && B.AllLater(toC) && 0 < c.block.seqno <= hi
                 else Complete(c, w) && AllAborts(toC) && c.rx[0] >= 0x80))
       case BlUploadAck =>
         && Partial(c, w) && c.block.seqno <= hi
         && (if c.block.timer < timeout / 2 then B.AllLater(toC) && 0 < c.block.seqno else InBlock(c, toC, w, hi))
       case BlUploadAckLast => Complete(c, w) && AllAborts(Pending(c, toC))
       case BlUploadCrc =>
         && Complete(c, w)
         && (AllEchoes(Pending(c, toC))
             || (Single(Pending(c, toC)) && forall f :: f in Pending(c, toC) ==> IsAbort(f) || IsEnd(f, w)))
       case BlUploadEnd =>
         && B.Agrees(c.buf, c.block.received, w) && |w| <= |c.buf|
         && (7 * SegmentsFor(|w|) <= |c.buf| ==> c.block.received == |w|)
       case _ => false
  }

  /** What is left of w in the server's buffer. */
  predicate Serving(s: S.Server, w: seq<byte>) {
    && |s.buf| == s.node.size && s.arg.length <= |w| && s.arg.length <= s.node.size && s.arg.last && 0 < s.arg.length
    && s.buf[..s.arg.length] == w[|w| - s.arg.length..] && s.crcOn && s.crc == Checksum(w)
  }

  function ServerBase(s: S.Server, w: seq<byte>): (n: int) {
    |w| - s.arg.length
  }

  /** The client has received the last segment, so the server has sent it. */
  predicate AllSent(s: S.Server, c: C.Client) {
    s.end && c.block.seqno == s.sequence
  }

  predicate ServerInv(s: S.Server, c: C.Client, toC: seq<Frame>, w: seq<byte>) {
    if s.state.Idle? then s.rxNew ==> IsLate(s.rx) && (B.Dead(c) || !NamesEmpty(s, s.rx) || Stalls(c, toC))
    else
      (&& NoAborts(toC)
        && (if s.state.UploadBlInitiate2? then
              && Serving(s, w) && s.arg.length == |w| && s.blksize == C.BLOCK_SIZE_MAX
              && (if !s.rxNew then B.Dead(c) || c.state.BlUploadInitiate? || c.state.BlUploadInitiateAck?
                  else (IsAbort(s.rx) && B.Dead(c)) || Started(s.rx, c, toC))
            else if s.state.UploadBlSubblock? then
              && Serving(s, w) && SendingBlock(s, w)
              && (if !s.rxNew then B.Dead(c) || SameBlock(s, c, w)
                  else (IsAbort(s.rx) && B.Dead(c)) || Confirming(s, c, toC, w))
            else
              s.state.UploadBlEnd? && (B.Dead(c) || c.state.BlUploadCrc? || c.state.BlUploadEnd?)))
  }

  /** A frame of the client that does not request anything. */
  predicate IsLate(f: Frame) {
    IsAbort(f) || ((f[0] == 0xA1 || f[0] == 0xA2 || f[0] == 0xA3) && f[5] == 0)
  }

  /** Nothing that comes takes the client further. */
  predicate Stalls(c: C.Client, toC: seq<Frame>) {
    || (c.state.BlUploadInProgress? && c.block.seqno == 0 && B.AllLater(toC))
    || (c.state.BlUploadCrc? && AllEchoes(Pending(c, toC)))
  }

  /** The state of a block, with the length of the last segment once it is sent. */
  predicate SendingBlock(s: S.Server, w: seq<byte>) {
    && Sending(s) && s.blksize < 0x80 && ServerBase(s, w) % 7 == 0
    && (s.end ==> s.lastLen == s.arg.length - 7 * (s.sequence as int - 1))
  }

  predicate Started(f: Frame, c: C.Client, toC: seq<Frame>) {
    f[0] == 0xA3 && c.state.BlUploadInProgress? && c.block.seqno == 0 && c.block.received == 0 && toC == []
  }

  /** Client and server are in the same block. */
  predicate SameBlock(s: S.Server, c: C.Client, w: seq<byte>) {
    || ((c.state.BlUploadInProgress? || c.state.BlUploadAck?) && Base(c) == ServerBase(s, w))
    || (c.state.BlUploadSubEnd? && (c.block.received < |w| ==> Base(c) == ServerBase(s, w))
        && (c.block.received >= |w| ==> AllSent(s, c)))
    || (c.state.BlUploadAckLast? && AllSent(s, c))
  }

  /** A confirmation has reached the server, and the client has moved on. */
  predicate Confirming(s: S.Server, c: C.Client, toC: seq<Frame>, w: seq<byte>) {
    && s.rx[0] == 0xA2 && s.rx[1] <= s.sequence
    && (|| (c.state.BlUploadInProgress? && c.block.seqno == 0 && B.AllLater(toC) && s.rx[2] < 0x80
            && c.block.received == ServerBase(s, w) + 7 * (s.rx[1] as int))
        || (c.state.BlUploadCrc? && s.end && s.rx[1] == s.sequence && !c.rxNew && toC == []))
  }

  /** The segments the server may have sent in the client's block. */
  function Hi(s: S.Server): (n: int) {
    if s.state.UploadBlSubblock? && !s.rxNew then s.sequence else 0x7F
  }

  /** The buffer has room for n bytes, but not for the last segment as a whole. */
  predicate Clipped(n: nat, room: nat) {
    n <= room < 7 * SegmentsFor(n)
  }

  /** On success the size and the bytes are those of the object, unless the last segment was cut off. */
  predicate RightResult(l: Link, w: seq<byte>) {
    l.ret.Ok? && l.c.state.NotDefined? && !Clipped(|w|, |l.c.buf|) ==> l.length == |w| && Take(l.c.buf, |w|) == w
  }

  predicate Inv(l: Link, w: seq<byte>, timeout: uint16) {
    && 0 < |w| && ClientInv(l.c, l.toC, w, Hi(l.s), timeout) && ServerInv(l.s, l.c, l.toC, w) && RightResult(l, w)
  }

  // --------------------------------------------------------------- client receives

  /** The next segment: its bytes follow those already there. */
  lemma TakeInOrder(c: C.Client, f: Frame, w: seq<byte>, hi: int)
    requires Partial(c, w) && c.state.BlUploadInProgress? && !c.rxNew
    requires Live(f, Base(c), w, c.block.seqno, hi) && Seqno(f[0]) == c.block.seqno + 1
    ensures var r := C.ReceiveSegment(c, f);
            && r.block.seqno == c.block.seqno + 1 && r.block.timer == 0 && r.rx[0] == f[0] && f[0] != ABORT
            && (if f[0] >= 0x80 then Complete(r, w) && r.state.BlUploadSubEnd? && r.rxNew && Base(c) + 7 * (r.block.seqno as int) >= |w|
                else && Partial(r, w) && Base(r) == Base(c)
                     && ((r.state.BlUploadInProgress? && !r.rxNew) || (r.state.BlUploadSubEnd? && r.rxNew)))
  {
    hide Seqno;
    var r := C.ReceiveSegment(c, f);
    var n := Room(c.block.received, |c.buf|);
    assert f[1..] == C.Padded7(w, c.block.received);
    assert forall i :: 0 <= i < n ==> f[1..1 + n][i] == f[1..][i];
    assert f[0] != ABORT by {
      B.SeqnoOfAbort();
    }
    if f[0] >= 0x80 {
      SegmentsAt(c.block.received, |w|);
    }
  }

  lemma OutOfOrder(c: C.Client, f: Frame)
    requires Seqno(f[0]) != c.block.seqno + 1
    ensures var r := C.ReceiveSegment(c, f);
            && r == c.(rx := r.rx, timer := 0, state := r.state, rxNew := r.rxNew, block := c.block.(timer := 0))
            && r.rx[0] == f[0]
            && (if c.block.seqno == 0 || Seqno(f[0]) == c.block.seqno
                then r.state == c.state && r.rxNew == c.rxNew
                else r.state.BlUploadSubEnd? && r.rxNew)
  {
    hide Seqno;
  }

  /** The client in a block takes the first frame under way. */
  lemma BlockReceives(c: C.Client, toC: seq<Frame>, w: seq<byte>, hi: int, timeout: uint16)
    requires c.state.BlUploadInProgress? && !c.rxNew && InBlock(c, toC, w, hi) && toC != [] && hi < 0x80 && 2 <= timeout
    ensures ClientInv(C.ReceiveSegment(c, toC[0]), toC[1..], w, hi, timeout)
    ensures var r := C.ReceiveSegment(c, toC[0]);
            && (r.state.BlUploadInProgress? || r.state.BlUploadSubEnd?)
            && (r.block.received < |w| ==> Base(r) == Base(c))
            && (r.block.received >= |w| ==>
                  r.state.BlUploadSubEnd? && Base(c) + 7 * (r.block.seqno as int) >= |w| && 0 < r.block.seqno <= hi)
            && (B.Later(toC[0]) && c.block.seqno == 0 ==> r == c.(rx := r.rx, timer := 0, block := c.block.(timer := 0)))
  {
    hide C.ReceiveSegment, Live, IsAbort, Seqno, Partial, Complete;
    var f, rest := toC[0], toC[1..];
    var p := c.block.seqno;
    B.LaterMeans(f);
    var r := C.ReceiveSegment(c, f);
    PartialFacts(c, w);
    if Seqno(f[0]) == p + 1 {
      NextIsLive(c, toC, w, hi);
      LiveNumber(f, Base(c), w, p, hi);
      TakeInOrder(c, f, w, hi);
      if f[0] >= 0x80 {
        ChainEnds(rest, Base(c), w, r.block.seqno, hi);
        CompleteFacts(r, w);
      } else {
        PartialFacts(r, w);
        if r.state.BlUploadSubEnd? {
          ChainLater(rest, Base(c), w, r.block.seqno, hi);
        }
      }
    } else {
      OutOfOrder(c, f);
      SamePartial(c, r, w);
      PartialFacts(r, w);
      SkipFrame(c, toC, w, hi);
    }
  }

  lemma PartialFacts(c: C.Client, w: seq<byte>)
    requires Partial(c, w)
    ensures Taking(c, w) && c.block.received < |w| && 0 <= Base(c) && c.block.seqno < 0x80
  {
  }

  lemma CompleteFacts(c: C.Client, w: seq<byte>)
    requires Complete(c, w)
    ensures Taking(c, w) && c.block.received >= |w| && c.block.seqno < 0x80
  {
  }

  lemma SamePartial(c: C.Client, r: C.Client, w: seq<byte>)
    requires Partial(c, w) && r.buf == c.buf && r.block == c.block.(timer := r.block.timer)
    ensures Partial(r, w) && Base(r) == Base(c)
  {
  }

  /** A frame that is the next segment belongs to the client's block, and the rest follows it. */
  lemma NextIsLive(c: C.Client, toC: seq<Frame>, w: seq<byte>, hi: int)
    requires InBlock(c, toC, w, hi) && toC != [] && Seqno(toC[0][0]) == c.block.seqno + 1
    ensures Live(toC[0], Base(c), w, c.block.seqno, hi) && Chain(toC[1..], Base(c), w, c.block.seqno + 1, hi)
  {
    hide Live, C.ReceiveSegment, Partial;
    B.SeqnoOfAbort();
    assert !IsAbort(toC[0]);
    B.LaterMeans(toC[0]);
  }

  /** The frames behind the first. */
  lemma SkipFrame(c: C.Client, toC: seq<Frame>, w: seq<byte>, hi: int)
    requires InBlock(c, toC, w, hi) && toC != []
    ensures if c.block.seqno == 0 then Flow(toC[1..], Base(c), w, hi)
            else Chain(toC[1..], Base(c), w, c.block.seqno, hi) && B.AllLater(toC[1..])
  {
    hide Live, Partial;
    var rest, p := toC[1..], c.block.seqno;
    if Chain(toC, Base(c), w, p, hi) {
      if AllAborts(toC) {
        AbortsRest(toC);
      } else {
        LiveNumber(toC[0], Base(c), w, p, hi);
        ChainWeaken(rest, Base(c), w, Seqno(toC[0][0]), hi, p, hi);
      }
      if p > 0 {
        ChainLater(rest, Base(c), w, p, hi);
      }
    }
  }

  lemma PendingMoves(c: C.Client, toC: seq<Frame>)
    requires toC != [] && !c.rxNew
    ensures Pending(c.(rx := toC[0], rxNew := true), toC[1..]) == Pending(c, toC)
  {
  }

  lemma PendingDrops(c: C.Client, toC: seq<Frame>)
    requires toC != [] && c.rxNew
    ensures Single(Pending(c, toC)) ==> Single(Pending(c, toC[1..]))
    ensures AllAborts(Pending(c, toC)) ==> AllAborts(Pending(c, toC[1..]))
    ensures AllEchoes(Pending(c, toC)) ==> AllEchoes(Pending(c, toC[1..]))
    ensures forall f :: f in Pending(c, toC[1..]) ==> f in Pending(c, toC)
  {
    hide IsAbort, IsEcho;
    var q, r := Pending(c, toC), Pending(c, toC[1..]);
    assert r[0] == q[0] && forall i :: 0 < i < |r| ==> r[i] == q[i + 1];
  }

  lemma ClientReceives(c: C.Client, toC: seq<Frame>, w: seq<byte>, hi: int, timeout: uint16)
    requires ClientInv(c, toC, w, hi, timeout) && toC != [] && hi < 0x80 && 2 <= timeout
    ensures ClientInv(C.Receive(c, toC[0]), toC[1..], w, hi, timeout)
  {
    hide C.ReceiveSegment, Partial, Complete, Taking, InBlock, IsAbort, IsAccept, IsEnd, B.Later, Single, AllAborts, AllEchoes,
      B.Agrees, Pending;
    if c.state.BlUploadInProgress? {
      BlockReceives(c, toC, w, hi, timeout);
    } else if !c.state.NotDefined? {
      if Late(c, timeout) {
        SkipFrame(c, toC, w, hi);
        StillInBlock(c, C.Receive(c, toC[0]), toC, w, hi);
      }
      if c.rxNew {
        PendingDrops(c, toC);
        RestOf(toC);
      } else {
        PendingMoves(c, toC);
        RestOf(toC);
        MovedClient(c, c.(rx := toC[0], rxNew := true), w);
      }
    }
  }

  lemma StillInBlock(c: C.Client, r: C.Client, toC: seq<Frame>, w: seq<byte>, hi: int)
    requires InBlock(c, toC, w, hi) && toC != [] && r.block == c.block && r.buf == c.buf
    requires if c.block.seqno == 0 then Flow(toC[1..], Base(c), w, hi) else Chain(toC[1..], Base(c), w, c.block.seqno, hi)
    ensures InBlock(r, toC[1..], w, hi)
  {
    hide Flow, Chain, B.Agrees;
  }

  lemma RestOf(toC: seq<Frame>)
    requires toC != []
    ensures AllAborts(toC) ==> AllAborts(toC[1..])
    ensures B.AllLater(toC) ==> B.AllLater(toC[1..])
  {
    hide IsAbort, B.Later;
  }

  lemma MovedClient(c: C.Client, r: C.Client, w: seq<byte>)
    requires r.block == c.block && r.buf == c.buf
    ensures Taking(c, w) == Taking(r, w) && Partial(c, w) == Partial(r, w) && Complete(c, w) == Complete(r, w)
  {
  }

  lemma ToClientInv(l: Link, w: seq<byte>, timeout: uint16)
    requires Inv(l, w, timeout) && l.toC != [] && 2 <= timeout
    ensures Inv(Step(l, ToClient, timeout), w, timeout)
  {
    hide C.ReceiveSegment, Partial, Complete, InBlock, IsAbort, B.Later, B.Agrees, ClientInv, S.Process, C.Upload, Serving,
      IsEnd, IsAccept, Stalls, NamesEmpty, IsLate;
    ClientReceives(l.c, l.toC, w, Hi(l.s), timeout);
    var m := Step(l, ToClient, timeout);
    if l.c.state.BlUploadInProgress? {
      ProgressFacts(l.c, l.toC, w, Hi(l.s), timeout);
      BlockReceives(l.c, l.toC, w, Hi(l.s), timeout);
      if l.s.state.UploadBlSubblock? && !l.s.rxNew && m.c.block.received >= |w| {
        LastSent(l.s, w, Base(l.c), m.c.block.seqno);
      }
    }
    RestOf(l.toC);
    if l.s.state.Idle? && Stalls(l.c, l.toC) {
      StillStalls(l.c, l.toC, w, timeout);
    }
  }

  lemma StillStalls(c: C.Client, toC: seq<Frame>, w: seq<byte>, timeout: uint16)
    requires Stalls(c, toC) && ClientInv(c, toC, w, 0x7F, timeout) && toC != [] && 2 <= timeout
    ensures Stalls(C.Receive(c, toC[0]), toC[1..])
  {
    hide C.ReceiveSegment, InBlock, B.Later, IsEcho, Pending, Complete;
    RestOf(toC);
    if c.state.BlUploadInProgress? {
      BlockReceives(c, toC, w, 0x7F, timeout);
    } else if c.rxNew {
      PendingDrops(c, toC);
    } else {
      PendingMoves(c, toC);
    }
  }

  lemma ProgressFacts(c: C.Client, toC: seq<Frame>, w: seq<byte>, hi: int, timeout: uint16)
    requires ClientInv(c, toC, w, hi, timeout) && c.state.BlUploadInProgress?
    ensures !c.rxNew && InBlock(c, toC, w, hi) && c.block.received < |w|
  {
  }

  /** If the last byte of w is in segment k and the server has sent it, the server has sent all. */
  lemma LastSent(s: S.Server, w: seq<byte>, base: int, k: int)
    requires Serving(s, w) && Sending(s) && base == ServerBase(s, w) && base + 7 * k >= |w| && 0 < k <= s.sequence
    ensures s.end && k == s.sequence
  {
  }

  // ------------------------------------------------------------------ server calls

  /** The first segment still to be sent goes out. */
  lemma SegmentSent(s: S.Server, w: seq<byte>)
    requires Serving(s, w) && SendingBlock(s, w) && s.sequence < s.blksize && !s.end && s.tx == ZERO_FRAME
    ensures var x := S.SendBlockSegment(s);
            && x.sent == Some(C.Segment(w, ServerBase(s, w), s.sequence + 1))
            && Serving(x.s, w) && SendingBlock(x.s, w) && ServerBase(x.s, w) == ServerBase(s, w)
            && x.s.sequence == s.sequence + 1 && x.s.state == s.state && x.s.rxNew == s.rxNew
  {
    hide S.SendBlockSegment, C.Segment, Checksum;
    SendBlockEffect(s);
    SegmentFrame(s, w);
  }

  lemma SegmentFrame(s: S.Server, w: seq<byte>)
    requires Serving(s, w) && SendingBlock(s, w) && s.sequence < s.blksize && !s.end && s.tx == ZERO_FRAME
    ensures S.SendBlockSegment(s).sent == Some(C.Segment(w, ServerBase(s, w), s.sequence + 1))
  {
    hide S.SendBlockSegment, Checksum;
    var n := Min(7, s.arg.length - s.at);
    SentFrame(s);
    BufferIs(s, w);
    SegmentBytes(s.buf[s.at..s.at + n], w, ServerBase(s, w) + s.at);
  }

  lemma SentFrame(s: S.Server)
    requires s.at <= s.arg.length <= |s.buf| && s.sequence < s.blksize && !s.end && s.tx == ZERO_FRAME && s.blksize < 0x80
    ensures var n := Min(7, s.arg.length - s.at); var k := s.sequence + 1;
            S.SendBlockSegment(s).sent
            == Some(Blit(ZERO_FRAME, 1, s.buf[s.at..s.at + n])
                    [0 := if s.arg.last && s.at + n == s.arg.length then k + 0x80 else k])
  {
    assert Minus16(s.arg.length, s.at) == s.arg.length - s.at;
  }

  /** The bytes of a segment frame, padded with the zeros of a cleared buffer. */
  lemma SegmentBytes(d: seq<byte>, w: seq<byte>, at: nat)
    requires at <= |w| && |d| == Min(7, |w| - at) && forall i :: 0 <= i < |d| ==> d[i] == w[at + i]
    ensures forall b: byte :: Blit(ZERO_FRAME, 1, d)[0 := b] == [b] + C.Padded7(w, at)
  {
    forall b: byte
      ensures Blit(ZERO_FRAME, 1, d)[0 := b] == [b] + C.Padded7(w, at)
    {
      var f, g := Blit(ZERO_FRAME, 1, d)[0 := b], [b] + C.Padded7(w, at);
      assert |f| == |g| && forall i :: 0 <= i < 8 ==> f[i] == g[i];
    }
  }

  lemma BufferIs(s: S.Server, w: seq<byte>)
    requires Serving(s, w)
    ensures forall i :: 0 <= i < s.arg.length ==> s.buf[i] == w[ServerBase(s, w) + i]
  {
    hide Checksum;
    var v := w[|w| - s.arg.length..];
    assert forall i :: 0 <= i < s.arg.length ==> s.buf[..s.arg.length][i] == s.buf[i] && v[i] == w[|w| - s.arg.length + i];
  }

  /** Acknowledged segments leave the buffer. */
  lemma ShiftServes(s: S.Server, k: nat, w: seq<byte>)
    requires Serving(s, w) && 7 * k < s.arg.length
    ensures var r := S.Shift(s, k);
            Serving(r, w) && ServerBase(r, w) == ServerBase(s, w) + 7 * k
            && r == s.(buf := r.buf, arg := s.arg.(length := s.arg.length - 7 * k))
  {
    hide Checksum, Blit;
    var n := 7 * k;
    var r := S.Shift(s, k);
    assert r.buf == Blit(s.buf, 0, s.buf[n..s.arg.length]);
    MovedDown(s.buf, n, s.arg.length);
    assert s.buf[n..s.arg.length] == s.buf[..s.arg.length][n..];
    assert w[|w| - s.arg.length..][n..] == w[|w| - r.arg.length..];
  }

  /** The call gives the transfer up, with an abort frame or silently. */
  predicate Leaves(x: S.Result) {
    x.s.state.Idle? && !x.s.rxNew && (x.sent.Some? ==> IsAbort(x.sent.value))
  }

  predicate NothingDone(s: S.Server, x: S.Result) {
    x.sent.None? && x.s == s.(timer := x.s.timer, tx := x.s.tx)
  }

  /** A call in one of the waiting states without a new frame. */
  lemma CallWaiting(s: S.Server, i: S.Input)
    requires (s.state.UploadBlInitiate2? || s.state.UploadBlEnd?) && !s.rxNew
    ensures var x := S.Process(s, i); Leaves(x) || NothingDone(s, x)
  {
    hide S.Begin, S.Act, S.SubblockResponse;
  }

  lemma CallEnd(s: S.Server, i: S.Input)
    requires s.state.UploadBlEnd?
    ensures var x := S.Process(s, i); Leaves(x) || NothingDone(s, x)
  {
    hide S.Start, S.SubblockResponse;
  }

  /** The client's start frame, or its abort, is processed. */
  lemma CallStart(s: S.Server, i: S.Input, w: seq<byte>)
    requires s.state.UploadBlInitiate2? && s.rxNew && (s.rx[0] == 0xA3 || IsAbort(s.rx))
    requires Serving(s, w) && s.arg.length == |w| && s.blksize == C.BLOCK_SIZE_MAX
    ensures var x := S.Process(s, i);
            Leaves(x) || NothingDone(s, x) || (!IsAbort(s.rx) && FirstSegment(s, x, w, 0))
  {
    hide S.Start, S.SendBlockSegment, Serving, S.SubblockResponse, C.Segment;
    assert Specifier(0xA3) == 5 && Subcommand(0xA3) == 3;
    var s2 := s.(tx := ZERO_FRAME, timer := Add16(0, i.dt), at := 0, sequence := 0, end := false, rxNew := false,
                 state := S.UploadBlSubblock);
    assert Serving(s2, w) && ServerBase(s2, w) == 0 && SendingBlock(s2, w) by {
      SameServing(s, s2, w);
    }
    SegmentSent(s2, w);
  }

  lemma SameServing(s: S.Server, r: S.Server, w: seq<byte>)
    requires Serving(s, w) && r.node == s.node && r.arg == s.arg && r.buf == s.buf && r.crc == s.crc && r.crcOn == s.crcOn
    ensures Serving(r, w) && 0 < r.arg.length <= |w|
  {
  }

  /** A new block at `base`, its first segment sent. */
  predicate FirstSegment(s: S.Server, x: S.Result, w: seq<byte>, base: nat) {
    && x.sent == Some(C.Segment(w, base, 1)) && x.s.state.UploadBlSubblock? && !x.s.rxNew
    && Serving(x.s, w) && SendingBlock(x.s, w) && ServerBase(x.s, w) == base && x.s.sequence == 1
  }

  /** The next segment of the block is sent. */
  predicate NextSegment(s: S.Server, x: S.Result, w: seq<byte>) {
    && s.sequence < 0x7F && 0 <= ServerBase(s, w) && x.sent == Some(C.Segment(w, ServerBase(s, w), s.sequence + 1))
    && x.s.state.UploadBlSubblock? && !x.s.rxNew
    && Serving(x.s, w) && SendingBlock(x.s, w) && ServerBase(x.s, w) == ServerBase(s, w) && x.s.sequence == s.sequence + 1
    && ServerBase(s, w) + 7 * (s.sequence as int) < |w|
  }

  lemma CallBlock(s: S.Server, i: S.Input, w: seq<byte>)
    requires s.state.UploadBlSubblock? && !s.rxNew && Serving(s, w) && SendingBlock(s, w)
    ensures var x := S.Process(s, i); Leaves(x) || NothingDone(s, x) || NextSegment(s, x, w)
  {
    hide S.Start, S.SendBlockSegment, S.SubblockResponse, C.Segment, S.Confirmed, Serving, SendingBlock;
    var t := if s.timer < i.timeout then Add16(s.timer, i.dt) else s.timer;
    var s1 := s.(tx := ZERO_FRAME, timer := t);
    SameServing(s, s1, w);
    SameBlockState(s, s1, w);
    if s.sequence == s.blksize || s.end {
      NothingToSend(s1);
    } else {
      BlockFacts(s, w);
      SegmentSent(s1, w);
    }
  }

  lemma SameBlockState(s: S.Server, r: S.Server, w: seq<byte>)
    requires SendingBlock(s, w) && r == s.(tx := r.tx, timer := r.timer, rx := r.rx, rxNew := r.rxNew)
    ensures SendingBlock(r, w)
  {
  }

  lemma BlockFacts(s: S.Server, w: seq<byte>)
    requires Serving(s, w) && SendingBlock(s, w) && !s.end && s.sequence != s.blksize
    ensures s.sequence < s.blksize < 0x80 && ServerBase(s, w) + 7 * (s.sequence as int) < |w|
  {
  }

  /** The server has sent the end of the transfer. */
  predicate EndSent(x: S.Result, w: seq<byte>) {
    x.s.state.UploadBlEnd? && !x.s.rxNew && x.sent.Some? && IsEnd(x.sent.value, w)
  }

  /** A new block at `base` in which nothing can be sent. */
  predicate EmptyBlock(x: S.Result, w: seq<byte>, base: nat) {
    && x.sent.None? && x.s.state.UploadBlSubblock? && !x.s.rxNew
    && Serving(x.s, w) && SendingBlock(x.s, w) && ServerBase(x.s, w) == base && x.s.sequence == 0
  }

  lemma EndFrameIs(s: S.Server, w: seq<byte>, f: Frame)
    requires Serving(s, w) && SendingBlock(s, w) && s.end
    requires f[0] == 0xC1 + 4 * (7 - s.lastLen) && f[1] == s.crc % 0x100 && f[2] == s.crc / 0x100
    ensures IsEnd(f, w)
  {
    hide Checksum;
    var b := ServerBase(s, w);
    SegmentsAt(b + 7 * (s.sequence as int - 1), |w|);
    EndCommand(7 - s.lastLen);
  }

  lemma EndCommand(u: SegmentLength)
    ensures var c := 0xC1 + 4 * u; Specifier(c) == 6 && BlockUnused(c) == u && c != ABORT
  {
  }

  lemma ConfirmEffect(s: S.Server, i: S.Input, w: seq<byte>)
    requires s.state.UploadBlSubblock? && s.rxNew && Serving(s, w) && SendingBlock(s, w) && s.tx == ZERO_FRAME
    requires s.rx[0] == 0xA2 && s.rx[1] <= s.sequence && ((s.end && s.rx[1] == s.sequence) || s.rx[2] < 0x80)
    ensures var x := S.SubblockUpload(s, i); var base := ServerBase(s, w) + 7 * (s.rx[1] as int);
            if s.end && s.rx[1] == s.sequence then EndSent(x, w)
            else FirstSegment(s, x, w, base) || EmptyBlock(x, w, base)
  {
    hide S.SendBlockSegment, S.Refill, C.Segment, Checksum, IsEnd, S.Shift;
    assert Specifier(0xA2) == 5 && Subcommand(0xA2) == 2;
    if s.end && s.rx[1] == s.sequence {
      EndFrameIs(s, w, S.SubblockUpload(s, i).sent.value);
    } else {
      var k: nat := s.rx[1];
      ShiftServes(s, k, w);
      var s2 := S.Shift(s, k).(blksize := s.rx[2], at := 0, sequence := 0, end := false, rxNew := false);
      assert S.SubblockUpload(s, i) == S.SendBlockSegment(s2);
      if s2.blksize == 0 {
        NothingToSend(s2);
      } else {
        SegmentSent(s2, w);
      }
    }
  }

  lemma CallConfirm(s: S.Server, i: S.Input, w: seq<byte>)
    requires s.state.UploadBlSubblock? && s.rxNew && Serving(s, w) && SendingBlock(s, w)
    requires IsAbort(s.rx)
             || (s.rx[0] == 0xA2 && s.rx[1] <= s.sequence && ((s.end && s.rx[1] == s.sequence) || s.rx[2] < 0x80))
    ensures var x := S.Process(s, i); var base := ServerBase(s, w) + 7 * (s.rx[1] as int);
            || Leaves(x) || NothingDone(s, x)
            || (!IsAbort(s.rx) && (if s.end && s.rx[1] == s.sequence then EndSent(x, w)
                                   else FirstSegment(s, x, w, base) || EmptyBlock(x, w, base)))
  {
    hide S.Start, S.SubblockUpload, S.SubblockResponse, C.Segment, Serving, SendingBlock;
    var t := if s.timer < i.timeout then Add16(s.timer, i.dt) else s.timer;
    var s1 := s.(tx := ZERO_FRAME, timer := t);
    SameServing(s, s1, w);
    SameBlockState(s, s1, w);
    if !IsAbort(s.rx) {
      ConfirmEffect(s1, i, w);
    }
  }

  lemma PendingQueue(c: C.Client, toC: seq<Frame>, f: Frame)
    ensures Pending(c, toC + [f]) == Pending(c, toC) + [f]
  {
  }

  /** The server leaves the transfer, with or without an abort frame. */
  lemma AbortQueued(c: C.Client, toC: seq<Frame>, w: seq<byte>, hi: int, timeout: uint16, f: Option<Frame>)
    requires ClientInv(c, toC, w, hi, timeout) && 0 <= hi < 0x80 && (f.Some? ==> IsAbort(f.value))
    ensures ClientInv(c, B.Queue(toC, f), w, 0x7F, timeout)
  {
    hide IsAbort, Partial, Complete, Taking, IsAccept, IsEnd, B.Later, B.Agrees, Flow, Chain, Pending, Base;
    if c.state.BlUploadInProgress? || Late(c, timeout) {
      if c.block.seqno == 0 {
        FlowWeaken(toC, Base(c), w, hi, 0x7F);
      } else {
        ChainWeaken(toC, Base(c), w, c.block.seqno, hi, c.block.seqno, 0x7F);
      }
    }
    if f.Some? {
      PendingQueue(c, toC, f.value);
      AbortIsLater(f.value);
      if c.state.BlUploadInProgress? || Late(c, timeout) {
        if c.block.seqno == 0 {
          FlowAppend(toC, Base(c), w, 0x7F, f.value);
        } else {
          ChainAbort(toC, Base(c), w, c.block.seqno, 0x7F, f.value);
        }
      }
    }
  }

  lemma AbortIsLater(f: Frame)
    requires IsAbort(f)
    ensures B.Later(f)
  {
    B.SeqnoOfAbort();
  }

  /** The next segment joins the frames of the block the client is in. */
  lemma SegmentQueued(c: C.Client, toC: seq<Frame>, w: seq<byte>, hi: int, timeout: uint16, f: Frame)
    requires ClientInv(c, toC, w, hi, timeout) && 0 <= hi < 0x7F && NoAborts(toC)
    requires c.state.BlUploadInProgress? || c.state.BlUploadAck? || (c.state.BlUploadSubEnd? && c.block.received < |w|)
    requires Live(f, Base(c), w, hi, hi + 1) && Seqno(f[0]) == hi + 1 && !IsAbort(f)
    ensures ClientInv(c, toC + [f], w, hi + 1, timeout)
  {
    hide IsAbort, Partial, Complete, Taking, IsAccept, IsEnd, B.Later, B.Agrees, Flow, Chain, Base, Live;
    B.LaterMeans(f);
    if c.state.BlUploadInProgress? || Late(c, timeout) {
      if c.block.seqno == 0 {
        FlowAppend(toC, Base(c), w, hi, f);
      } else {
        ChainAppend(toC, Base(c), w, c.block.seqno, hi, f);
      }
    }
  }

  lemma SegmentIsLive(w: seq<byte>, base: nat, k: byte)
    requires 0 < k < 0x80 && base + 7 * (k as int - 1) < |w|
    ensures var f := C.Segment(w, base, k); Live(f, base, w, k - 1, k) && Seqno(f[0]) == k && !IsAbort(f)
  {
    B.SegmentLater(w, base, k);
    B.SeqnoOfAbort();
  }

  lemma NewBlock(c: C.Client, toC: seq<Frame>, w: seq<byte>, hi: int, timeout: uint16, f: Option<Frame>)
    requires ClientInv(c, toC, w, hi, timeout) && c.state.BlUploadInProgress? && c.block.seqno == 0 && B.AllLater(toC)
    requires NoAborts(toC) && (f.Some? ==> f == Some(C.Segment(w, c.block.received, 1)))
    ensures ClientInv(c, B.Queue(toC, f), w, if f.Some? then 1 else 0, timeout) && NoAborts(B.Queue(toC, f))
  {
    hide IsAbort, Partial, Complete, Taking, IsAccept, IsEnd, B.Later, B.Agrees, Flow, Chain, Live, C.Segment;
    PartialFacts(c, w);
    FlowLater(toC, Base(c), w, 0);
    if f.Some? {
      SegmentIsLive(w, c.block.received, 1);
      FlowAppend(toC, Base(c), w, 0, f.value);
    }
  }

  /** An idle server answers a late frame with an abort, unless it names an object without any bytes. */
  lemma IdleAnswers(s: S.Server, i: S.Input)
    requires s.state.Idle? && s.rxNew && IsLate(s.rx)
    ensures var x := S.Process(s, i);
            || NothingDone(s, x)
            || (&& x.s.state.Idle? && !x.s.rxNew
                && (x.sent.Some? ==> IsEcho(x.sent.value) && (!NamesEmpty(s, s.rx) ==> IsAbort(x.sent.value))))
  {
    hide S.Start, S.SubblockResponse, S.Act, NamesEmpty;
    if i.operational && !i.txFull && !IsAbort(s.rx) {
      assert S.Process(s, i) == S.Start(s.(tx := ZERO_FRAME, timer := 0), i);
      LateStarts(s, i);
    }
  }

  lemma InitFinds(s: S.Server, index: uint16, sub: byte)
    ensures var a := S.InitTransfer(s, index, sub); a.abort == 0 ==> S.Lookup(s.node, index, sub) == S.Found(a.s.arg)
  {
  }

  lemma LateStarts(s: S.Server, i: S.Input)
    requires s.state.Idle? && IsLate(s.rx) && !IsAbort(s.rx)
    ensures var x := S.Start(s.(tx := ZERO_FRAME, timer := 0), i);
            && x.s.state.Idle? && !x.s.rxNew && x.sent.Some? && IsEcho(x.sent.value)
            && (!NamesEmpty(s, s.rx) ==> IsAbort(x.sent.value))
  {
    hide S.Lookup, FrameIndex, S.StartUpload, S.Timed;
    assert Specifier(0xA1) == 5 && Specifier(0xA2) == 5 && Specifier(0xA3) == 5;
    var s1 := s.(tx := ZERO_FRAME, timer := 0);
    var a := S.InitTransfer(s1, FrameIndex(s.rx), s.rx[3]);
    if a.abort == 0 {
      assert S.Start(s1, i) == S.StartUpload(a.s, i, true);
      IdleReads(a.s, i);
      InitFinds(s1, FrameIndex(s.rx), s.rx[3]);
      assert S.HasFunction(a.s) == S.HasFunction(s.(arg := a.s.arg));
    }
  }

  lemma IdleReads(s: S.Server, i: S.Input)
    requires s.state.Idle? && IsLate(s.rx) && !IsAbort(s.rx)
    ensures var x := S.StartUpload(s, i, true);
            && x.s.state.Idle? && !x.s.rxNew && x.sent.Some? && IsEcho(x.sent.value)
            && (!(s.arg.length == 0 && s.arg.access.readable && !S.HasFunction(s)) ==> IsAbort(x.sent.value))
  {
    hide S.SubblockResponse, S.ReadOd, S.InitiateUpload, S.InitiateBlockUpload, S.HasFunction;
    var a := S.ReadOd(s, 0, i.read);
    ReadLength(s, i.read);
    var t := if a.s.timer < i.timeout then a.s.(timer := Add16(a.s.timer, i.dt)) else a.s;
    NotAnnounced(t);
    if a.s.arg.length == 0 {
      EmptySent(t);
    }
  }

  lemma ReadLength(s: S.Server, r: S.ReadReply)
    ensures var a := S.ReadOd(s, 0, r);
            && (a.abort == 0 && a.s.arg.length == 0 ==> s.arg.length == 0 && s.arg.access.readable && !S.HasFunction(s))
            && a.s.rx == s.rx && a.s.state == s.state
  {
    hide Blit, S.SwapAt, S.Stored, S.Swaps;
  }

  lemma NotAnnounced(s: S.Server)
    requires s.rx[0] == 0xA1 || s.rx[0] == 0xA2 || s.rx[0] == 0xA3
    ensures var x := S.InitiateBlockUpload(s); x.s.state.Idle? && !x.s.rxNew && x.sent.Some? && IsAbort(x.sent.value)
  {
    hide Checksum, Blit, Le32;
    assert Subcommand(0xA1) == 1 && Subcommand(0xA2) == 2 && Subcommand(0xA3) == 3;
  }

  lemma EmptySent(s: S.Server)
    requires s.arg.length == 0
    ensures var x := S.InitiateUpload(s); x.s.state.Idle? && !x.s.rxNew && x.sent.Some? && x.sent.value[0] == 0x53
  {
    hide Le32;
  }

  lemma EchoQueued(c: C.Client, toC: seq<Frame>, w: seq<byte>, timeout: uint16, f: Frame)
    requires ClientInv(c, toC, w, 0x7F, timeout) && (B.Dead(c) || Stalls(c, toC)) && IsEcho(f)
    ensures ClientInv(c, toC + [f], w, 0x7F, timeout)
  {
    hide IsAbort, Partial, Complete, Taking, IsAccept, IsEnd, B.Later, B.Agrees, Flow, Chain, Base;
    if c.state.BlUploadInProgress? {
      EchoIsLater(f);
      FlowLater(toC + [f], Base(c), w, 0x7F);
    } else if c.state.BlUploadCrc? {
      PendingQueue(c, toC, f);
    }
  }

  lemma EchoIsLater(f: Frame)
    requires IsEcho(f)
    ensures B.Later(f)
  {
    B.SeqnoOfAbort();
    assert Seqno(0x53) == 0x53;
  }

  lemma IdleCallInv(l: Link, i: S.Input, w: seq<byte>, timeout: uint16)
    requires Inv(l, w, timeout) && l.s.state.Idle?
    ensures Inv(Step(l, ServerCall(i), timeout), w, timeout)
  {
    hide S.Process, C.Upload, ClientInv, IsAbort, IsEcho, IsLate, B.Later, NamesEmpty, C.Receive, Deliver;
    if !l.s.rxNew {
      IdleCall(l.s, i);
    } else {
      IdleAnswers(l.s, i);
      var x := S.Process(l.s, i);
      if NothingDone(l.s, x) {
        SameInv(l, x.s, w, timeout);
      } else if x.sent.Some? {
        if IsAbort(x.sent.value) {
          AbortQueued(l.c, l.toC, w, 0x7F, timeout, x.sent);
        } else {
          EchoQueued(l.c, l.toC, w, timeout, x.sent.value);
        }
      }
    }
  }

  lemma ServerCallInv(l: Link, i: S.Input, w: seq<byte>, timeout: uint16)
    requires Inv(l, w, timeout)
    ensures Inv(Step(l, ServerCall(i), timeout), w, timeout)
  {
    hide S.Process, C.Upload, ClientInv, Serving, SendingBlock, IsAbort, B.Later, IsEnd, IsAccept, C.Segment;
    if l.s.state.Idle? {
      IdleCallInv(l, i, w, timeout);
    } else {
      var x := S.Process(l.s, i);
      if l.s.state.UploadBlEnd? {
        CallEnd(l.s, i);
      } else if l.s.state.UploadBlInitiate2? {
        if l.s.rxNew { CallStart(l.s, i, w); } else { CallWaiting(l.s, i); }
      } else {
        if l.s.rxNew { CallConfirm(l.s, i, w); } else { CallBlock(l.s, i, w); }
      }
      if Leaves(x) {
        HiBound(l, w);
        AbortQueued(l.c, l.toC, w, Hi(l.s), timeout, x.sent);
      } else if NothingDone(l.s, x) {
        assert B.Queue(l.toC, x.sent) == l.toC;
        SameInv(l, x.s, w, timeout);
      } else {
        ServerGoesOn(l, x, w, timeout);
      }
    }
  }

  lemma SameInv(l: Link, s: S.Server, w: seq<byte>, timeout: uint16)
    requires Inv(l, w, timeout) && s == l.s.(timer := s.timer, tx := s.tx)
    ensures Inv(l.(s := s), w, timeout)
  {
    hide ClientInv, IsAbort, B.Later, Checksum;
  }

  lemma HiBound(l: Link, w: seq<byte>)
    requires ServerInv(l.s, l.c, l.toC, w)
    ensures 0 <= Hi(l.s) < 0x80
  {
    hide Serving, IsAbort, B.Later;
  }

  lemma ServerGoesOn(l: Link, x: S.Result, w: seq<byte>, timeout: uint16)
    requires Inv(l, w, timeout) && !l.s.state.Idle?
    requires if l.s.state.UploadBlInitiate2? then l.s.rxNew && !IsAbort(l.s.rx) && FirstSegment(l.s, x, w, 0)
             else && l.s.state.UploadBlSubblock?
                  && (if !l.s.rxNew then NextSegment(l.s, x, w)
                      else && !IsAbort(l.s.rx)
                           && (if l.s.end && l.s.rx[1] == l.s.sequence then EndSent(x, w)
                               else var base := ServerBase(l.s, w) + 7 * (l.s.rx[1] as int);
                                    base >= 0 && (FirstSegment(l.s, x, w, base) || EmptyBlock(x, w, base))))
    ensures Inv(l.(s := x.s, toC := B.Queue(l.toC, x.sent)), w, timeout)
  {
    hide ClientInv, Serving, SendingBlock, IsAbort, B.Later, IsEnd, IsAccept, C.Segment, Live;
    if l.s.state.UploadBlInitiate2? || (l.s.rxNew && !(l.s.end && l.s.rx[1] == l.s.sequence)) {
      ServerStartsBlock(l, x, w, timeout);
    } else if l.s.rxNew {
      ServerEnds(l, x, w, timeout);
    } else {
      ServerSends(l, x, w, timeout);
    }
  }

  lemma ServerStartsBlock(l: Link, x: S.Result, w: seq<byte>, timeout: uint16)
    requires Inv(l, w, timeout) && l.s.rxNew && !IsAbort(l.s.rx)
    requires l.s.state.UploadBlInitiate2? || (l.s.state.UploadBlSubblock? && !(l.s.end && l.s.rx[1] == l.s.sequence))
    requires var base := if l.s.state.UploadBlInitiate2? then 0 else ServerBase(l.s, w) + 7 * (l.s.rx[1] as int);
             base >= 0 && (FirstSegment(l.s, x, w, base) || EmptyBlock(x, w, base))
    ensures Inv(l.(s := x.s, toC := B.Queue(l.toC, x.sent)), w, timeout)
  {
    hide ClientInv, Serving, SendingBlock, IsAbort, B.Later, IsEnd, IsAccept, C.Segment;
    NewBlock(l.c, l.toC, w, Hi(l.s), timeout, x.sent);
  }

  lemma ServerEnds(l: Link, x: S.Result, w: seq<byte>, timeout: uint16)
    requires Inv(l, w, timeout) && l.s.state.UploadBlSubblock? && l.s.rxNew && !IsAbort(l.s.rx)
    requires l.s.end && l.s.rx[1] == l.s.sequence && EndSent(x, w)
    ensures Inv(l.(s := x.s, toC := B.Queue(l.toC, x.sent)), w, timeout)
  {
    hide Serving, SendingBlock, B.Later, IsEnd, IsAccept, Taking, B.Agrees, Flow, Chain;
    assert !IsAbort(x.sent.value) by {
      EndNotAbort(x.sent.value, w);
    }
    if l.c.state.BlUploadInProgress? {
      assert false by {
        EndMeansAll(l, w, timeout);
      }
    }
    var m := l.(s := x.s, toC := B.Queue(l.toC, x.sent));
    assert Pending(m.c, m.toC) == [x.sent.value];
  }

  lemma EndNotAbort(f: Frame, w: seq<byte>)
    requires IsEnd(f, w)
    ensures !IsAbort(f)
  {
  }

  /** A client that has moved on to a new block has not confirmed the last segment. */
  lemma EndMeansAll(l: Link, w: seq<byte>, timeout: uint16)
    requires Inv(l, w, timeout) && l.s.state.UploadBlSubblock? && l.s.rxNew && !IsAbort(l.s.rx)
    requires l.s.end && l.s.rx[1] == l.s.sequence
    ensures !l.c.state.BlUploadInProgress?
  {
    hide B.Later, B.Agrees, Flow, Chain, Checksum;
  }

  lemma ServerSends(l: Link, x: S.Result, w: seq<byte>, timeout: uint16)
    requires Inv(l, w, timeout) && l.s.state.UploadBlSubblock? && !l.s.rxNew && NextSegment(l.s, x, w)
    ensures Inv(l.(s := x.s, toC := B.Queue(l.toC, x.sent)), w, timeout)
  {
    hide ClientInv, Serving, IsAbort, B.Later, IsEnd, IsAccept, C.Segment, Live, Sending;
    var k := l.s.sequence + 1;
    SegmentIsLive(w, ServerBase(l.s, w), k);
    if B.Dead(l.c) {
      DeadAny(l.c, l.toC, l.toC + [x.sent.value], w, Hi(l.s), k, timeout);
    } else {
      NotAllSent(l.s, w);
      SegmentQueued(l.c, l.toC, w, l.s.sequence, timeout, x.sent.value);
    }
  }

  lemma DeadAny(c: C.Client, toC: seq<Frame>, q: seq<Frame>, w: seq<byte>, hi: int, hi1: int, timeout: uint16)
    requires ClientInv(c, toC, w, hi, timeout) && B.Dead(c)
    ensures ClientInv(c, q, w, hi1, timeout)
  {
  }

  lemma NotAllSent(s: S.Server, w: seq<byte>)
    requires Serving(s, w) && SendingBlock(s, w) && ServerBase(s, w) + 7 * (s.sequence as int) < |w|
    ensures !s.end
  {
  }

  // ------------------------------------------------------------------ client calls

  /** The effect of a frame the client has received. */
  lemma RxInv(l: Link, w: seq<byte>, timeout: uint16)
    requires Inv(l, w, timeout) && l.c.rxNew && !l.s.rxNew && l.c.rx[0] != ABORT && !l.c.state.NotDefined? && !Late(l.c, timeout)
    ensures var y := C.UploadRx(l.c);
            && !y.done && !y.c.state.NotDefined? && !y.c.state.BlUploadInProgress? && !Late(y.c, timeout)
            && Inv(l.(c := y.c.(timer := 0, rxNew := false)), w, timeout)
  {
    hide C.UploadRx, ClientInv, ServerInv;
    RxClient(l.c, l.toC, w, Hi(l.s), timeout);
    RxServer(l.s, l.c, l.toC, w, timeout);
  }

  lemma RxClient(c: C.Client, toC: seq<Frame>, w: seq<byte>, hi: int, timeout: uint16)
    requires ClientInv(c, toC, w, hi, timeout) && c.rxNew && !IsAbort(c.rx) && !c.state.NotDefined? && !Late(c, timeout) && 0 < |w|
    ensures var y := C.UploadRx(c);
            && !y.done && !y.c.state.NotDefined? && !y.c.state.BlUploadInProgress? && !Late(y.c, timeout)
            && ClientInv(y.c.(timer := 0, rxNew := false), toC, w, hi, timeout)
  {
    hide B.Later, B.Agrees, Checksum, Flow, Chain, FrameIndex, C.CrcRx, C.BlockInitiateRx;
    assert c.rx in Pending(c, toC) by {
      assert Pending(c, toC)[0] == c.rx;
    }
    assert Specifier(0xC6) == 6;
    if c.state.BlUploadInitiate? {
      AcceptRx(c, toC, w);
    } else if c.state.BlUploadCrc? && IsEnd(c.rx, w) {
      EndRx(c, w);
    } else if c.state.BlUploadCrc? {
      assert Specifier(0x53) == 2;
      assert IsEcho(c.rx);
    }
  }

  lemma AcceptRx(c: C.Client, toC: seq<Frame>, w: seq<byte>)
    requires c.rxNew && IsAccept(c.rx, |w|) && Single(Pending(c, toC))
    requires c.block.size == C.BLOCK_SIZE_MAX && c.block.seqno == 0 && Roomy(c)
    ensures var y := C.BlockInitiateRx(c); var r := y.c.(timer := 0, rxNew := false);
            && !y.done && (r.state.Aborting? || r.state.BlUploadInitiateAck?) && r.block.timer == c.block.timer
            && r.block.size == C.BLOCK_SIZE_MAX && AllAborts(Pending(r, toC))
            && (r.state.BlUploadInitiateAck? ==> Taking(r, w) && r.block.received == 0)
  {
    hide FrameIndex, FrameValue, IsAbort;
    var q := Pending(c, toC);
    assert forall i :: 0 <= i < |toC| ==> q[i + 1] == toC[i];
    assert Bit1(0xC6) && Bit2(0xC6);
  }

  lemma EndRx(c: C.Client, w: seq<byte>)
    requires Complete(c, w) && IsEnd(c.rx, w) && 0 < |w|
    ensures var y := C.CrcRx(c); var r := y.c;
            && !y.done && (r.state.Aborting? || r.state.BlUploadEnd?) && r.block.timer == c.block.timer && r.buf == c.buf
            && (r.state.BlUploadEnd? ==>
                  && B.Agrees(r.buf, r.block.received, w) && |w| <= |r.buf|
                  && (7 * SegmentsFor(|w|) <= |r.buf| ==> r.block.received == |w|))
  {
    hide Checksum, Specifier, BlockUnused, FromLe16;
    var u := BlockUnused(c.rx[0]);
    var n := c.block.received;
    assert u < 7 && u <= n && n - u < 0x1_0000_0000 by {
      CompleteSize(c, w);
    }
    B.AgreesLess(c.buf, n, n - u, w);
  }

  lemma CompleteSize(c: C.Client, w: seq<byte>)
    requires Complete(c, w) && 0 < |w|
    ensures 7 * SegmentsFor(|w|) - |w| < 7 && 7 * SegmentsFor(|w|) - |w| <= c.block.received < 0x1_0000_0000
  {
  }

  lemma RxServer(s: S.Server, c: C.Client, toC: seq<Frame>, w: seq<byte>, timeout: uint16)
    requires ServerInv(s, c, toC, w) && ClientInv(c, toC, w, Hi(s), timeout)
    requires c.rxNew && !s.rxNew && !IsAbort(c.rx) && !c.state.NotDefined?
    ensures ServerInv(s, C.UploadRx(c).c.(timer := 0, rxNew := false), toC, w)
  {
    hide B.Later, B.Agrees, Checksum, Flow, Chain, FrameIndex, Serving, SendingBlock, IsEnd;
    assert c.rx in Pending(c, toC) by {
      assert Pending(c, toC)[0] == c.rx;
    }
    assert Specifier(0xC6) == 6;
  }

  /** What a call of the client sends and becomes, reception aside. */
  lemma TimedInv(l: Link, dt: uint16, txFull: bool, abort: uint32, w: seq<byte>, timeout: uint16)
    requires Inv(l, w, timeout) && !l.c.rxNew && MayCall(l) && 2 <= timeout
    requires var x := C.UploadTimed(l.c, dt, timeout, txFull, abort);
             (Expires(l.c, dt, timeout) || Late(l.c, timeout)) && Confirms(x) ==>
               B.AllLater(l.toC) || (l.s.state.Idle? && !NamesEmpty(l.s, x.sent.value))
    ensures var x := C.UploadTimed(l.c, dt, timeout, txFull, abort);
            Inv(l.(c := x.c, s := Deliver(l.s, x.sent), ret := x.ret, length := x.length), w, timeout)
  {
    hide C.UploadTx, Inv, C.TimeOut;
    var c1 := if l.c.timer < timeout then C.Tick(l.c, dt) else l.c;
    var x := C.UploadTimed(l.c, dt, timeout, txFull, abort);
    if c1.timer >= timeout {
      TimeOutInv(l, c1, w, timeout);
    } else if Expires(l.c, dt, timeout) || Late(l.c, timeout) {
      var c2 := c1.(state := C.BlUploadAck);
      if txFull {
        LateInv(l, c1, w, timeout);
        SameResult(l.(c := c2), C.TxFull, 0, w, timeout);
      } else {
        ConfirmSent(c2, abort);
        if B.AllLater(l.toC) {
          ExpiredInv(l, c1, abort, w, timeout);
        } else {
          GoneInv(l, c1, abort, w, timeout);
        }
      }
    } else {
      TickInv(l, c1, dt, w, timeout);
      if !txFull {
        TxInv(l.(c := c1), abort, w, timeout);
      } else {
        SameResult(l.(c := c1), C.TxFull, 0, w, timeout);
      }
    }
  }

  lemma ConfirmSent(c: C.Client, abort: uint32)
    requires c.state.BlUploadAck?
    ensures Confirms(C.UploadTx(c, abort))
  {
    hide C.BlockSizeFor;
  }

  /** The confirmation has to wait for the transmit buffer. */
  lemma LateInv(l: Link, c1: C.Client, w: seq<byte>, timeout: uint16)
    requires Inv(l, w, timeout) && !l.s.rxNew && !l.c.rxNew && (l.c.state.BlUploadInProgress? || Late(l.c, timeout))
    requires c1 == l.c.(timer := c1.timer, block := l.c.block.(timer := c1.block.timer)) && c1.block.timer >= timeout / 2
    ensures Inv(l.(c := c1.(state := C.BlUploadAck)), w, timeout)
  {
    hide B.Agrees, Checksum, Flow, Chain, Serving, SendingBlock, B.Later, IsAbort;
  }

  lemma SameResult(l: Link, ret: C.Return, length: nat, w: seq<byte>, timeout: uint16)
    requires Inv(l, w, timeout) && (!ret.Ok? || !l.c.state.NotDefined?)
    ensures Inv(l.(ret := ret, length := length), w, timeout)
  {
    hide ClientInv, ServerInv;
  }

  /** Any frame reaching a server that waits for one is kept. */
  lemma Delivered(s: S.Server, f: Frame)
    requires !s.rxNew && (s.state.Idle? || s.state.UploadBlInitiate2? || s.state.UploadBlSubblock? || s.state.UploadBlEnd?)
    ensures Deliver(s, Some(f)) == s.(rx := f, rxNew := true)
  {
  }

  /** The client gives up and says so. */
  lemma GiveUp(l: Link, c: C.Client, f: Frame, ret: C.Return, w: seq<byte>, timeout: uint16)
    requires Inv(l, w, timeout) && !l.s.rxNew && c.state.NotDefined? && IsAbort(f) && !ret.Ok?
    ensures Inv(l.(c := c, s := Deliver(l.s, Some(f)), ret := ret, length := 0), w, timeout)
  {
    hide B.Later, B.Agrees, Checksum, Flow, Chain, Serving, SendingBlock;
    if !l.s.state.Idle? {
      Delivered(l.s, f);
      StillServing(l.s, f, w);
    }
  }

  lemma StillServing(s: S.Server, f: Frame, w: seq<byte>)
    ensures Serving(s, w) ==> Serving(s.(rx := f, rxNew := true), w)
    ensures SendingBlock(s, w) ==> SendingBlock(s.(rx := f, rxNew := true), w)
  {
  }

  lemma TimeOutInv(l: Link, c: C.Client, w: seq<byte>, timeout: uint16)
    requires Inv(l, w, timeout) && !l.s.rxNew
    ensures var x := C.TimeOut(c);
            Inv(l.(c := x.c, s := Deliver(l.s, x.sent), ret := x.ret, length := x.length), w, timeout)
  {
    hide Inv, Deliver;
    var x := C.TimeOut(c);
    GiveUp(l, x.c, x.sent.value, x.ret, w, timeout);
  }

  lemma TickInv(l: Link, c: C.Client, dt: uint16, w: seq<byte>, timeout: uint16)
    requires Inv(l, w, timeout) && !l.c.rxNew && !Expires(l.c, dt, timeout) && (c == C.Tick(l.c, dt) || c == l.c)
    requires 2 <= timeout && !l.c.state.NotDefined? && !Late(l.c, timeout)
    ensures Inv(l.(c := c), w, timeout) && c.block.timer < timeout / 2 && c.state == l.c.state && c.rxNew == l.c.rxNew
  {
    hide B.Later, B.Agrees, Checksum, Flow, Chain, Sending, Serving, IsEnd, IsAccept;
  }

  /** A confirmation goes out: the client waits for the next block behind what it has. */
  lemma ConfirmInv(l: Link, abort: uint32, w: seq<byte>, timeout: uint16)
    requires 0 < |w| && !l.s.rxNew && !l.c.rxNew && l.c.state.BlUploadAck? && Partial(l.c, w) && B.AllLater(l.toC) && 2 <= timeout
    requires l.s.state.Idle? || (ServerInv(l.s, l.c, l.toC, w) && l.s.state.UploadBlSubblock? && l.c.block.seqno <= l.s.sequence)
    ensures var x := C.SendConfirm(l.c, abort);
            Inv(l.(c := x.c, s := Deliver(l.s, x.sent), ret := x.ret, length := x.length), w, timeout)
  {
    hide B.Later, B.Agrees, Checksum, Flow, Chain, SendingBlock, Serving;
    var x := C.SendConfirm(l.c, abort);
    assert x.c.state.BlUploadInProgress? && x.c.block.seqno == 0 && x.sent.value[0] == 0xA2;
    FlowLater(l.toC, x.c.block.received, w, 0x7F);
    if !l.s.state.Idle? {
      Delivered(l.s, x.sent.value);
      StillServing(l.s, x.sent.value, w);
    }
  }

  lemma ExpiredInv(l: Link, c1: C.Client, abort: uint32, w: seq<byte>, timeout: uint16)
    requires Inv(l, w, timeout) && !l.s.rxNew && !l.c.rxNew && (l.c.state.BlUploadInProgress? || l.c.state.BlUploadAck?)
    requires B.AllLater(l.toC) && 2 <= timeout
    requires c1 == l.c.(timer := c1.timer, block := l.c.block.(timer := c1.block.timer))
    ensures var x := C.UploadTx(c1.(state := C.BlUploadAck), abort);
            Inv(l.(c := x.c, s := Deliver(l.s, x.sent), ret := x.ret, length := x.length), w, timeout)
  {
    hide B.Agrees, Checksum, Flow, Chain, Sending, Serving, C.SendConfirm, B.Later;
    ConfirmInv(l.(c := c1.(state := C.BlUploadAck)), abort, w, timeout);
  }

  /** The server has left, and will answer the confirmation with an abort. The first segment on its way stays the next one. */
  lemma GoneInv(l: Link, c1: C.Client, abort: uint32, w: seq<byte>, timeout: uint16)
    requires Inv(l, w, timeout) && !l.s.rxNew && l.s.state.Idle? && !l.c.rxNew && 2 <= timeout && !B.AllLater(l.toC)
    requires l.c.state.BlUploadInProgress? || Late(l.c, timeout)
    requires c1 == l.c.(timer := c1.timer, block := l.c.block.(timer := c1.block.timer))
    requires !NamesEmpty(l.s, C.UploadTx(c1.(state := C.BlUploadAck), abort).sent.value)
    ensures var x := C.UploadTx(c1.(state := C.BlUploadAck), abort);
            Inv(l.(c := x.c, s := Deliver(l.s, x.sent), ret := x.ret, length := x.length), w, timeout)
  {
    hide B.Agrees, Checksum, Flow, Chain, B.AllLater, NamesEmpty;
    if l.c.block.seqno > 0 {
      ChainLater(l.toC, Base(l.c), w, l.c.block.seqno, Hi(l.s));
    }
    Delivered(l.s, C.UploadTx(c1.(state := C.BlUploadAck), abort).sent.value);
    SameEmpty(l.s, C.UploadTx(c1.(state := C.BlUploadAck), abort).sent.value);
  }

  lemma SameEmpty(s: S.Server, f: Frame)
    ensures NamesEmpty(s.(rx := f, rxNew := true), f) == NamesEmpty(s, f)
  {
  }

  /** The client asks for the first block. */
  lemma StartInv(l: Link, abort: uint32, w: seq<byte>, timeout: uint16)
    requires Inv(l, w, timeout) && !l.s.rxNew && !l.c.rxNew && l.c.state.BlUploadInitiateAck? && 2 <= timeout
    ensures var x := C.UploadTx(l.c, abort);
            Inv(l.(c := x.c, s := Deliver(l.s, x.sent), ret := x.ret, length := x.length), w, timeout)
  {
    hide ClientInv, IsAbort, B.Later, Serving, C.UploadTx, Sending, SegmentsFor, NamesEmpty;
    StartClient(l.c, l.toC, w, Hi(l.s), timeout, abort);
    var x := C.UploadTx(l.c, abort);
    Delivered(l.s, x.sent.value);
    if l.s.state.Idle? {
      AbortsLater(l.toC);
    } else {
      NeitherNor(l.toC);
      StillServing(l.s, x.sent.value, w);
    }
  }

  lemma AbortsLater(q: seq<Frame>)
    requires AllAborts(q)
    ensures B.AllLater(q)
  {
    B.SeqnoOfAbort();
  }

  lemma StartClient(c: C.Client, toC: seq<Frame>, w: seq<byte>, hi: int, timeout: uint16, abort: uint32)
    requires ClientInv(c, toC, w, hi, timeout) && !c.rxNew && c.state.BlUploadInitiateAck? && 2 <= timeout && 0 < |w|
    ensures var x := C.UploadTx(c, abort);
            && ClientInv(x.c, toC, w, 0x7F, timeout) && AllAborts(toC) && x.ret.UploadInProgress? && x.length == 0
            && x.c.state.BlUploadInProgress? && x.c.block.seqno == 0 && x.c.block.received == 0
            && x.sent.Some? && x.sent.value[0] == 0xA3 && x.sent.value[5] == 0
  {
    hide B.Later, Checksum, IsAbort, Flow, Chain, C.SendConfirm, SegmentsFor;
    var x := C.UploadTx(c, abort);
    assert Pending(c, toC) == toC;
    FlowAborts(toC, 0, w, 0x7F);
    assert Base(x.c) == 0;
  }

  lemma FlowAborts(q: seq<Frame>, base: int, w: seq<byte>, hi: int)
    requires AllAborts(q)
    ensures Flow(q, base, w, hi)
  {
  }

  lemma NeitherNor(q: seq<Frame>)
    ensures AllAborts(q) && NoAborts(q) ==> q == []
  {
    if q != [] {
      assert IsAbort(q[0]) || !IsAbort(q[0]);
    }
  }

  /** The last segment is confirmed. */
  lemma LastConfirmInv(l: Link, abort: uint32, w: seq<byte>, timeout: uint16)
    requires Inv(l, w, timeout) && !l.s.rxNew && !l.c.rxNew && l.c.state.BlUploadAckLast? && 2 <= timeout
    ensures var x := C.UploadTx(l.c, abort);
            Inv(l.(c := x.c, s := Deliver(l.s, x.sent), ret := x.ret, length := x.length), w, timeout)
  {
    hide B.Later, B.Agrees, Checksum, Serving, SendingBlock, IsAbort, IsEnd, Flow, Chain, C.SendConfirm, SegmentsFor;
    var x := C.UploadTx(l.c, abort);
    assert Pending(l.c, l.toC) == l.toC == Pending(x.c, l.toC);
    if !l.s.state.Idle? {
      NeitherNor(l.toC);
      Delivered(l.s, x.sent.value);
      StillServing(l.s, x.sent.value, w);
    }
  }

  /** The end is acknowledged and the result reported. */
  lemma FinishInv(l: Link, abort: uint32, w: seq<byte>, timeout: uint16)
    requires Inv(l, w, timeout) && !l.s.rxNew && !l.c.rxNew && l.c.state.BlUploadEnd? && 2 <= timeout
    ensures var x := C.UploadTx(l.c, abort);
            Inv(l.(c := x.c, s := Deliver(l.s, x.sent), ret := x.ret, length := x.length), w, timeout)
  {
    hide B.Later, Checksum, Serving, SendingBlock, IsAbort, IsEnd, Flow, Chain, C.SendConfirm, SegmentsFor;
    var x := C.UploadTx(l.c, abort);
    if 7 * SegmentsFor(|w|) <= |l.c.buf| {
      assert Take(l.c.buf, |w|) == w;
    }
    if !l.s.state.Idle? {
      Delivered(l.s, x.sent.value);
    }
  }

  lemma TxInv(l: Link, abort: uint32, w: seq<byte>, timeout: uint16)
    requires Inv(l, w, timeout) && !l.s.rxNew && !l.c.rxNew && !l.c.state.NotDefined? && !Late(l.c, timeout) && 2 <= timeout
    ensures var x := C.UploadTx(l.c, abort);
            Inv(l.(c := x.c, s := Deliver(l.s, x.sent), ret := x.ret, length := x.length), w, timeout)
  {
    hide Inv, Deliver, C.SendConfirm;
    var x := C.UploadTx(l.c, abort);
    if l.c.state.Aborting? {
      GiveUp(l, x.c, x.sent.value, x.ret, w, timeout);
    } else if l.c.state.BlUploadInitiateAck? {
      StartInv(l, abort, w, timeout);
    } else if l.c.state.BlUploadAckLast? {
      LastConfirmInv(l, abort, w, timeout);
    } else if l.c.state.BlUploadEnd? {
      FinishInv(l, abort, w, timeout);
    } else if l.c.state.BlUploadAck? {
      AckFacts(l, w, timeout);
      ConfirmInv(l, abort, w, timeout);
    } else {
      OtherStates(l, w, timeout);
      NothingSent(l.s);
      SameResult(l, x.ret, 0, w, timeout);
    }
  }

  lemma NothingSent(s: S.Server)
    ensures Deliver(s, None) == s
  {
  }

  lemma AckFacts(l: Link, w: seq<byte>, timeout: uint16)
    requires Inv(l, w, timeout) && !l.s.rxNew && l.c.state.BlUploadAck? && !Late(l.c, timeout)
    ensures 0 < |w| && Partial(l.c, w) && B.AllLater(l.toC)
    ensures l.s.state.Idle?
            || (ServerInv(l.s, l.c, l.toC, w) && l.s.state.UploadBlSubblock? && l.c.block.seqno <= l.s.sequence)
  {
    hide B.Later, B.Agrees, Checksum, Serving, SendingBlock, IsAbort, IsEnd, Flow, Chain;
  }

  lemma OtherStates(l: Link, w: seq<byte>, timeout: uint16)
    requires Inv(l, w, timeout) && !l.c.state.NotDefined? && !l.c.state.Aborting? && !l.c.state.BlUploadInitiateAck?
    requires !l.c.state.BlUploadAckLast? && !l.c.state.BlUploadEnd? && !l.c.state.BlUploadAck?
    ensures l.c.state.BlUploadInitiate? || l.c.state.BlUploadInProgress? || l.c.state.BlUploadSubEnd? || l.c.state.BlUploadCrc?
  {
    hide B.Later, B.Agrees, Checksum, ServerInv, IsAbort, IsEnd, Flow, Chain;
  }

  lemma ClientCallInv(l: Link, dt: uint16, txFull: bool, w: seq<byte>, timeout: uint16)
    requires Inv(l, w, timeout) && !Overtakes(l, ClientCall(dt, txFull), timeout) && !Mistakes(l, ClientCall(dt, txFull), timeout)
    requires 2 <= timeout
    ensures Inv(Step(l, ClientCall(dt, txFull), timeout), w, timeout)
  {
    hide Inv, Deliver, C.UploadTimed, C.UploadRx, S.Process, C.Receive, B.Later;
    if MayCall(l) {
      if !l.c.rxNew {
        TimedInv(l, dt, txFull, 0, w, timeout);
      } else if l.c.rx[0] == ABORT {
        AbortedInv(l, C.Upload(l.c, dt, timeout, txFull).c, w, timeout);
        NothingSent(l.s);
      } else if Late(l.c, timeout) {
        LateRx(l.c, dt, timeout, txFull);
        FreedInv(l, w, timeout);
        TimedInv(l.(c := l.c.(timer := 0, rxNew := false)), dt, txFull, AB_CMD, w, timeout);
      } else {
        RxInv(l, w, timeout);
        var y := C.UploadRx(l.c);
        TimedInv(l.(c := y.c.(timer := 0, rxNew := false)), dt, txFull, y.abort, w, timeout);
      }
    }
  }

  /** A frame that comes while the confirmation waits is dropped. */
  lemma LateRx(c: C.Client, dt: uint16, timeout: uint16, txFull: bool)
    requires Late(c, timeout) && c.rxNew && c.rx[0] != ABORT
    ensures C.Upload(c, dt, timeout, txFull) == C.UploadTimed(c.(timer := 0, rxNew := false), dt, timeout, txFull, AB_CMD)
  {
    hide C.UploadTx;
  }

  lemma FreedInv(l: Link, w: seq<byte>, timeout: uint16)
    requires Inv(l, w, timeout) && l.c.state.BlUploadAck?
    ensures Inv(l.(c := l.c.(timer := 0, rxNew := false)), w, timeout)
  {
    hide B.Agrees, Checksum, Flow, Chain, Serving, SendingBlock, B.Later, IsAbort;
  }

  /** The client learns that the server gave up. */
  lemma AbortedInv(l: Link, c: C.Client, w: seq<byte>, timeout: uint16)
    requires Inv(l, w, timeout) && !l.s.rxNew && c.state.NotDefined?
    ensures Inv(l.(c := c, ret := C.ServerAbort, length := 0), w, timeout)
  {
    hide B.Later, B.Agrees, Checksum, Flow, Chain, Serving, SendingBlock, IsAbort;
  }

  lemma LoseInv(l: Link, k: nat, w: seq<byte>, timeout: uint16)
    requires Inv(l, w, timeout)
    ensures Inv(l.(toC := B.Without(l.toC, k)), w, timeout)
  {
    hide ClientInv, IsAbort, IsEcho, B.Later, Serving, SendingBlock, Base, B.Agrees, Partial, NamesEmpty;
    LoseClient(l.c, l.toC, k, w, Hi(l.s), timeout);
    LoseKinds(l.toC, k);
    LosePending(l.c, l.toC, k);
  }

  lemma LoseKinds(q: seq<Frame>, k: nat)
    ensures NoAborts(q) ==> NoAborts(B.Without(q, k))
    ensures AllAborts(q) ==> AllAborts(B.Without(q, k))
    ensures B.AllLater(q) ==> B.AllLater(B.Without(q, k))
  {
    hide IsAbort, B.Later;
  }

  lemma LoseClient(c: C.Client, toC: seq<Frame>, k: nat, w: seq<byte>, hi: int, timeout: uint16)
    requires ClientInv(c, toC, w, hi, timeout)
    ensures ClientInv(c, B.Without(toC, k), w, hi, timeout)
  {
    hide IsAbort, IsAccept, IsEnd, IsEcho, B.Later, B.Agrees, Flow, Chain, Base, Partial, Complete, Taking;
    LoseKinds(toC, k);
    LosePending(c, toC, k);
    if c.state.BlUploadInProgress? || Late(c, timeout) {
      if c.block.seqno == 0 {
        FlowLose(toC, Base(c), w, hi, k);
      } else {
        ChainLose(toC, Base(c), w, c.block.seqno, hi, k);
      }
    }
  }

  lemma LosePending(c: C.Client, toC: seq<Frame>, k: nat)
    ensures Single(Pending(c, toC)) ==> Single(Pending(c, B.Without(toC, k)))
    ensures AllAborts(Pending(c, toC)) ==> AllAborts(Pending(c, B.Without(toC, k)))
    ensures AllEchoes(Pending(c, toC)) ==> AllEchoes(Pending(c, B.Without(toC, k)))
    ensures forall f :: f in Pending(c, B.Without(toC, k)) ==> f in Pending(c, toC)
  {
    hide IsAbort, IsEcho;
    var q, r := Pending(c, toC), Pending(c, B.Without(toC, k));
    var m := if c.rxNew then k + 1 else k;
    if k < |toC| {
      forall i | 0 <= i < |r|
        ensures Single(q) && 0 < i ==> IsAbort(r[i])
        ensures AllAborts(q) ==> IsAbort(r[i])
        ensures AllEchoes(q) ==> IsEcho(r[i])
        ensures r[i] in q
      {
        assert r[i] == (if i < m then q[i] else q[i + 1]);
      }
    } else {
      assert r == q;
    }
  }

  lemma StepInv(l: Link, e: Event, w: seq<byte>, timeout: uint16)
    requires Inv(l, w, timeout) && !Overtakes(l, e, timeout) && !Mistakes(l, e, timeout) && 2 <= timeout
    ensures Inv(Step(l, e, timeout), w, timeout)
  {
    hide Inv, S.Process, C.Receive, C.Upload, Deliver, MayCall, Overtakes, Mistakes;
    match e
    case LoseAnswer(k) => LoseInv(l, k, w, timeout);
    case ToClient => if l.toC != [] { ToClientInv(l, w, timeout); }
    case ServerCall(i) => ServerCallInv(l, i, w, timeout);
    case ClientCall(dt, txFull) => ClientCallInv(l, dt, txFull, w, timeout);
  }

  lemma {:induction false} RunInv(l: Link, run: seq<Event>, w: seq<byte>, timeout: uint16)
    requires Inv(l, w, timeout) && Smooth(l, run, timeout) && 2 <= timeout
    ensures Inv(Run(l, run, timeout), w, timeout)
    decreases |run|
  {
    hide Inv, Step, Overtakes, Mistakes;
    if run != [] {
      StepInv(l, run[0], w, timeout);
      RunInv(Step(l, run[0], timeout), run[1..], w, timeout);
    }
  }
}
