/**
  Block upload over a bus that loses nothing, in any order of calls and with any
  number of segments under way, as long as no timer runs out: neither side
  aborts, and the transfer ends with the object. Only if the user's buffer cuts
  off the last segment it fails, or reports too small a size when the checksums
  happen to agree.

  The server holds w. What the client is taking in is called v: the same bytes,
  unless an overtaken segment has got into them earlier.
 */
module SdoBlockUploadLossless {
  import opened Can
  import opened SdoTypes
  import S = SdoServer
  import C = SdoClient
  import V = SdoServerSafe
  import B = SdoBlockDownload
  import opened SdoBlockUpload
  import opened SdoSegments

  // -------------------------------------------------------------- segments under way

  /** The client's data is the server's from byte `base` on. */
  predicate Kin(w: seq<byte>, v: seq<byte>, base: int) {
    |w| == |v| && (forall i :: 0 <= base <= i < |w| ==> w[i] == v[i]) && Checksum(w) == Checksum(v)
  }

  lemma SameSegment(w: seq<byte>, v: seq<byte>, base: nat, k: byte)
    requires 0 < k < 0x80 && Kin(w, v, base + 7 * (k as int - 1))
    ensures C.Segment(w, base, k) == C.Segment(v, base, k)
  {
    hide Checksum;
    assert C.Padded7(w, base + 7 * (k as int - 1)) == C.Padded7(v, base + 7 * (k as int - 1));
  }

  lemma KinLater(w: seq<byte>, v: seq<byte>, base: int, later: int)
    requires Kin(w, v, base) && 0 <= base <= later
    ensures Kin(w, v, later)
  {
    hide Checksum;
  }

  // -------------------------------------------------------------- the server's part

  /** The call comes before the server's timer runs out; a frame to answer resets it, except in a block. */
  predicate Timely(s: S.Server, i: S.Input) {
    i.operational && (if s.rxNew && !i.txFull && !s.state.UploadBlSubblock? then 0 else s.timer) + i.dt < i.timeout
  }

  /** Nothing but time passes. */
  predicate Still(s: S.Server, x: S.Result) {
    x.sent.None? && x.s == s.(timer := x.s.timer, tx := x.s.tx) && x.s.timer < 0xFFFF
  }

  /** No frame to answer, or no room for the answer. */
  lemma WaitsInTime(s: S.Server, i: S.Input)
    requires s.state.UploadBlInitiate2? || s.state.UploadBlEnd? || s.state.UploadBlSubblock?
    requires Timely(s, i) && (i.txFull || (!s.rxNew && !s.state.UploadBlSubblock?))
    ensures Still(s, S.Process(s, i))
  {
    hide S.Begin, S.Act, S.SubblockResponse;
  }

  /** All segments of the block are sent. */
  lemma SentAll(s: S.Server, i: S.Input)
    requires s.state.UploadBlSubblock? && !s.rxNew && Timely(s, i) && (s.sequence == s.blksize || s.end)
    ensures Still(s, S.Process(s, i))
  {
    hide S.Start, S.SendBlockSegment, S.SubblockResponse, S.Confirmed, S.Shift;
    var s1 := s.(tx := ZERO_FRAME, timer := Add16(s.timer, i.dt));
    V.NothingToSend(s1);
  }

  /** The server is to send segment q + 1 of the block at `base`. */
  predicate ToSend(s: S.Server, w: seq<byte>, base: int, q: int, size: int) {
    && s.state.UploadBlSubblock? && !s.rxNew && Serving(s, w) && SendingBlock(s, w) && ServerBase(s, w) == base
    && !s.end && s.sequence == q < s.blksize == size
  }

  /** It has sent segment q, which may have been the last of all. */
  predicate HasSent(x: S.Result, w: seq<byte>, base: nat, q: byte, size: int)
    requires 0 < q < 0x80
  {
    && x.sent == Some(C.Segment(w, base, q))
    && x.s.state.UploadBlSubblock? && !x.s.rxNew && Serving(x.s, w) && SendingBlock(x.s, w) && ServerBase(x.s, w) == base
    && x.s.sequence == q && x.s.timer == 0 && (x.s.end <==> base + 7 * (q as int) >= |w|) && (!x.s.end ==> x.s.blksize == size)
    && q <= size
  }

  lemma SendsNext(s: S.Server, w: seq<byte>, base: nat, q: byte, size: int)
    requires ToSend(s, w, base, q, size) && s.tx == ZERO_FRAME
    ensures q < 0x7F && HasSent(S.SendBlockSegment(s), w, base, q + 1, size)
  {
    hide S.SendBlockSegment, C.Segment, Checksum;
    SegmentSent(s, w);
    V.SendBlockEffect(s);
  }

  lemma StartSends(s: S.Server, i: S.Input, w: seq<byte>)
    requires s.state.UploadBlInitiate2? && s.rxNew && s.rx[0] == 0xA3 && Serving(s, w) && s.arg.length == |w|
    requires s.blksize == C.BLOCK_SIZE_MAX && Timely(s, i) && !i.txFull
    ensures HasSent(S.Process(s, i), w, 0, 1, C.BLOCK_SIZE_MAX)
  {
    hide S.Start, S.SendBlockSegment, Serving, S.SubblockResponse, C.Segment, HasSent;
    assert Specifier(0xA3) == 5 && Subcommand(0xA3) == 3;
    var s2 := s.(tx := ZERO_FRAME, timer := Add16(0, i.dt), at := 0, sequence := 0, end := false, rxNew := false,
                 state := S.UploadBlSubblock);
    assert Serving(s2, w) && ServerBase(s2, w) == 0 && SendingBlock(s2, w) by {
      SameServing(s, s2, w);
    }
    SendsNext(s2, w, 0, 0, C.BLOCK_SIZE_MAX);
  }

  lemma BlockSends(s: S.Server, i: S.Input, w: seq<byte>, base: nat, q: byte, size: int)
    requires ToSend(s, w, base, q, size) && Timely(s, i) && !i.txFull
    ensures q < 0x7F && HasSent(S.Process(s, i), w, base, q + 1, size)
  {
    hide S.Start, S.SendBlockSegment, S.SubblockResponse, C.Segment, S.Confirmed, Serving, SendingBlock, HasSent;
    var s1 := s.(tx := ZERO_FRAME, timer := Add16(s.timer, i.dt));
    SameServing(s, s1, w);
    SameBlockState(s, s1, w);
    SendsNext(s1, w, base, q, size);
  }

  lemma ConfirmSends(s: S.Server, i: S.Input, w: seq<byte>)
    requires s.state.UploadBlSubblock? && s.rxNew && s.rx[0] == 0xA2 && s.rx[1] <= s.sequence && 0 < s.rx[2] < 0x80
    requires Serving(s, w) && SendingBlock(s, w) && !(s.end && s.rx[1] == s.sequence) && Timely(s, i) && !i.txFull
    ensures HasSent(S.Process(s, i), w, ServerBase(s, w) + 7 * (s.rx[1] as int), 1, s.rx[2])
  {
    hide S.Start, S.SubblockUpload, S.SubblockResponse, C.Segment, HasSent, Serving;
    var s1 := s.(tx := ZERO_FRAME, timer := Add16(s.timer, i.dt));
    SameServing(s, s1, w);
    assert S.Process(s, i) == S.SubblockUpload(s1, i);
    NewBlockSends(s1, i, w);
  }

  lemma NewBlockSends(s: S.Server, i: S.Input, w: seq<byte>)
    requires s.rxNew && s.rx[0] == 0xA2 && s.rx[1] <= s.sequence && 0 < s.rx[2] < 0x80 && s.tx == ZERO_FRAME
    requires s.state.UploadBlSubblock? && Serving(s, w) && SendingBlock(s, w) && !(s.end && s.rx[1] == s.sequence)
    ensures HasSent(S.SubblockUpload(s, i), w, ServerBase(s, w) + 7 * (s.rx[1] as int), 1, s.rx[2])
  {
    hide S.SendBlockSegment, S.Refill, C.Segment, Checksum, S.Shift, HasSent;
    assert Specifier(0xA2) == 5 && Subcommand(0xA2) == 2;
    var k: nat := s.rx[1];
    ShiftServes(s, k, w);
    var s2 := S.Shift(s, k).(blksize := s.rx[2], at := 0, sequence := 0, end := false, rxNew := false);
    assert S.SubblockUpload(s, i) == S.SendBlockSegment(s2);
    SendsNext(s2, w, ServerBase(s, w) + 7 * k, 0, s.rx[2]);
  }

  lemma EndAnswered(s: S.Server, i: S.Input, w: seq<byte>)
    requires s.state.UploadBlSubblock? && s.rxNew && s.rx[0] == 0xA2 && s.rx[1] == s.sequence && s.end
    requires Serving(s, w) && SendingBlock(s, w) && Timely(s, i) && !i.txFull
    ensures var x := S.Process(s, i); EndSent(x, w) && x.s.timer < 0xFFFF
  {
    hide S.Start, S.SubblockUpload, S.SubblockResponse, EndSent, Serving;
    var s1 := s.(tx := ZERO_FRAME, timer := Add16(s.timer, i.dt));
    SameServing(s, s1, w);
    assert S.Process(s, i) == S.SubblockUpload(s1, i);
    ConfirmEffect(s1, i, w);
    EndTimer(s1, i);
  }

  lemma EndTimer(s: S.Server, i: S.Input)
    requires s.rxNew && s.rx[0] == 0xA2 && s.rx[1] == s.sequence == s.blksize && s.end
    ensures S.SubblockUpload(s, i).s.timer == s.timer
  {
    hide S.Confirmed, S.Shift;
    assert Specifier(0xA2) == 5 && Subcommand(0xA2) == 2;
  }

  // -------------------------------------------------------------- the client's part

  /** The call comes before the client's timers run out; a frame resets one, and that for a block runs in a block only. */
  predicate Prompt(c: C.Client, dt: uint16, timeout: uint16) {
    (if c.rxNew then 0 else c.timer) + dt < timeout && c.block.timer + (if c.state.BlUploadInProgress? then dt else 0) < timeout / 2
  }

  /** The timers of the client have not run out. */
  predicate Ticks(c: C.Client, timeout: uint16) {
    2 <= timeout && c.timer < timeout && c.block.timer < timeout / 2
  }

  lemma TakeDetails(c: C.Client, f: Frame)
    requires Seqno(f[0]) == c.block.seqno + 1
    ensures var r := C.ReceiveSegment(c, f);
            && r.timer == 0 && r.block.timer == 0 && r.block.size == c.block.size && |r.buf| == |c.buf|
            && (r.state.BlUploadSubEnd? <==>
                  c.state.BlUploadSubEnd? || r.block.received >= |c.buf| || f[0] >= 0x80 || r.block.seqno >= c.block.size)
  {
    hide Seqno, Blit;
  }

  /** The client in a block that has room for another segment. */
  predicate Listening(c: C.Client, v: seq<byte>) {
    c.state.BlUploadInProgress? && !c.rxNew && Partial(c, v) && c.block.seqno < c.block.size < 0x80
  }

  /** The next segment is taken. */
  lemma NextTaken(c: C.Client, v: seq<byte>)
    requires Listening(c, v)
    ensures c.block.seqno < 0x7F && 0 <= Base(c)
    ensures var f := C.Segment(v, Base(c), c.block.seqno + 1); var r := C.Receive(c, f);
            && r.block.seqno == c.block.seqno + 1 && r.rx[0] == f[0] && f[0] != ABORT && r.timer == 0 && r.block.timer == 0
            && r.block.size == c.block.size && |r.buf| == |c.buf|
            && (f[0] >= 0x80 <==> c.block.received + 7 >= |v|)
            && (if f[0] >= 0x80 then Complete(r, v) && r.state.BlUploadSubEnd? && r.rxNew
                else && Partial(r, v) && Base(r) == Base(c)
                     && (if r.block.seqno < c.block.size then r.state.BlUploadInProgress? && !r.rxNew
                         else r.state.BlUploadSubEnd? && r.rxNew))
  {
    hide C.ReceiveSegment, C.Segment, B.Agrees;
    var f := C.Segment(v, Base(c), c.block.seqno + 1);
    LastBit(v, Base(c), c.block.seqno + 1);
    TakeInOrder(c, f, v, 0x7F) by {
      LiveHere(f, Base(c), v, c.block.seqno);
    }
    TakeDetails(c, f);
  }

  lemma LiveHere(f: Frame, base: int, w: seq<byte>, q: byte)
    requires 0 <= base && q < 0x7F && f == C.Segment(w, base, q + 1) && base + 7 * (q as int) < |w|
    ensures Live(f, base, w, q, 0x7F)
  {
    LastBit(w, base, q + 1);
  }

  /** A call that finds no frame where one is awaited only lets time pass. */
  lemma CallWaits(c: C.Client, dt: uint16, timeout: uint16, txFull: bool)
    requires c.state.BlUploadInitiate? || c.state.BlUploadInProgress? || c.state.BlUploadCrc?
    requires !c.rxNew && Prompt(c, dt, timeout)
    ensures var x := C.Upload(c, dt, timeout, txFull);
            && x.sent.None? && !x.ret.Ok?
            && x.c == c.(timer := x.c.timer, block := c.block.(timer := x.c.block.timer)) && Ticks(x.c, timeout)
  {
  }

  /** The client knows the size and asks for the first block. */
  lemma CallStarts(c: C.Client, v: seq<byte>, dt: uint16, timeout: uint16, txFull: bool)
    requires c.state.BlUploadInitiateAck? && !c.rxNew && Taking(c, v) && c.block.received == 0 && 0 < |v|
    requires c.block.size == C.BLOCK_SIZE_MAX && Prompt(c, dt, timeout)
    ensures var x := C.Upload(c, dt, timeout, txFull);
            && !x.ret.Ok? && Ticks(x.c, timeout) && x.c.buf == c.buf
            && (if txFull then x.sent.None? && x.c == c.(timer := x.c.timer)
                else && x.sent == Some(ZERO_FRAME[0 := 0xA3]) && Listening(x.c, v) && x.c.block.seqno == 0
                     && x.c.block.received == 0 && x.c.block.size == C.BLOCK_SIZE_MAX)
  {
    hide B.Agrees;
  }

  /** The announcement is taken. */
  lemma CallAccepts(c: C.Client, v: seq<byte>, dt: uint16, timeout: uint16, txFull: bool)
    requires c.state.BlUploadInitiate? && c.rxNew && IsAccept(c.rx, |v|) && FrameIndex(c.rx) == c.index && c.rx[3] == c.sub
    requires c.block.size == C.BLOCK_SIZE_MAX && c.block.seqno == 0 && Prompt(c, dt, timeout)
    requires 0 < |v| <= |c.buf| && Roomy(c)
    ensures var c1 := c.(state := C.BlUploadInitiateAck, timer := 0, rxNew := false,
                         block := c.block.(crcOn := true, dataSize := |v|, received := 0));
            && Taking(c1, v) && C.Upload(c, dt, timeout, txFull) == C.Upload(c1, dt, timeout, txFull)
  {
    hide FrameIndex, FrameValue, C.UploadTimed;
    assert Specifier(0xC6) == 6 && Bit1(0xC6) && Bit2(0xC6);
  }

  /** At the end of a block the client confirms all of it and asks for the next. */
  lemma CallConfirms(c: C.Client, v: seq<byte>, dt: uint16, timeout: uint16, txFull: bool)
    requires c.state.BlUploadAck? && !c.rxNew && Partial(c, v) && Prompt(c, dt, timeout)
    ensures var x := C.Upload(c, dt, timeout, txFull);
            && !x.ret.Ok? && Ticks(x.c, timeout) && x.c.buf == c.buf
            && (if txFull then x.sent.None? && x.c == c.(timer := x.c.timer)
                else && Listening(x.c, v) && x.c.block.seqno == 0 && x.c.block.received == c.block.received
                     && x.sent == Some(C.Confirm(c.block.seqno, x.c.block.size)))
  {
    hide C.Confirm, B.Agrees;
    NextSize(|v| - c.block.received);
  }

  lemma NextSize(n: nat)
    requires 0 < n
    ensures 0 < C.BlockSizeFor(n) < 0x80
  {
  }

  lemma CallEndsBlock(c: C.Client, v: seq<byte>, dt: uint16, timeout: uint16, txFull: bool)
    requires c.state.BlUploadSubEnd? && c.rxNew && c.rx[0] < 0x80 && Partial(c, v)
    ensures C.Upload(c, dt, timeout, txFull)
            == C.Upload(c.(state := C.BlUploadAck, timer := 0, rxNew := false), dt, timeout, txFull)
  {
    hide C.UploadTimed, B.Agrees;
  }

  /** After the last segment the client confirms and waits for the end. */
  lemma CallConfirmsLast(c: C.Client, v: seq<byte>, dt: uint16, timeout: uint16, txFull: bool)
    requires c.state.BlUploadAckLast? && !c.rxNew && Complete(c, v) && Prompt(c, dt, timeout)
    ensures var x := C.Upload(c, dt, timeout, txFull);
            && !x.ret.Ok? && Ticks(x.c, timeout) && x.c.buf == c.buf
            && (if txFull then x.sent.None? && x.c == c.(timer := x.c.timer)
                else && x.c.state.BlUploadCrc? && !x.c.rxNew && Complete(x.c, v)
                     && x.sent == Some(C.Confirm(c.block.seqno, c.block.size)))
  {
    hide C.Confirm, B.Agrees;
  }

  lemma CallEndsLast(c: C.Client, v: seq<byte>, dt: uint16, timeout: uint16, txFull: bool)
    requires c.state.BlUploadSubEnd? && c.rxNew && c.rx[0] >= 0x80 && c.rx[0] != ABORT && Complete(c, v)
    ensures C.Upload(c, dt, timeout, txFull)
            == C.Upload(c.(state := C.BlUploadAckLast, timer := 0, rxNew := false), dt, timeout, txFull)
  {
    hide C.UploadTimed, B.Agrees;
  }

  // ------------------------------------------------------------------ the outcome

  /** The size the client reports, if it accepts the checksum. */
  function ReportedSize(n: nat, room: nat): (k: int) {
    Min(7 * SegmentsFor(n), room) - (7 * SegmentsFor(n) - n)
  }

  lemma ReportedSizeBounds(n: nat, room: nat)
    requires 0 < n <= room && 7 <= room
    ensures 0 <= ReportedSize(n, room) <= n && (ReportedSize(n, room) == n <==> !Clipped(n, room))
  {
  }

  /** What the client holds of v has the checksum of v. */
  predicate Accepted(v: seq<byte>, room: nat)
    requires 0 < |v| <= room && 7 <= room
  {
    ReportedSizeBounds(|v|, room);
    Checksum(v[..ReportedSize(|v|, room)]) == Checksum(v)
  }

  /** Success with that many bytes if their checksum is that of the object, else the client aborts. */
  predicate Outcome(m: Link, v: seq<byte>, room: nat)
    requires 0 < |v| <= room && 7 <= room
  {
    ReportedSizeBounds(|v|, room);
    var k := ReportedSize(|v|, room);
    if Accepted(v, room)
    then m.ret.Ok? && m.length == k && |m.c.buf| == room && m.c.buf[..k] == v[..k]
    else m.ret.ClientAbort?
  }

  lemma AgreesPrefix(b: seq<byte>, k: nat, w: seq<byte>)
    requires B.Agrees(b, k, w) && k <= |w|
    ensures b[..k] == w[..k]
  {
  }

  /** The end frame has been taken, with what the client makes of it. */
  predicate Settled(c: C.Client, v: seq<byte>, room: nat)
    requires 0 < |v| <= room && 7 <= room
  {
    ReportedSizeBounds(|v|, room);
    var k := ReportedSize(|v|, room);
    && !c.rxNew && |c.buf| == room
    && (if Accepted(v, room) then c.state.BlUploadEnd? && c.block.received == k && c.buf[..k] == v[..k]
        else c.state.Aborting?)
  }

  /** The client compares the checksum of the bytes it takes to be the object. */
  lemma CallTakesEnd(c: C.Client, w: seq<byte>, v: seq<byte>, dt: uint16, timeout: uint16, txFull: bool)
    requires c.state.BlUploadCrc? && c.rxNew && IsEnd(c.rx, w) && Complete(c, v) && 0 < |v| && Kin(w, v, |w|)
    ensures |v| <= |c.buf| && 7 <= |c.buf|
    ensures var y := C.CrcRx(c); var c1 := y.c.(timer := 0, rxNew := false);
            && Settled(c1, v, |c.buf|) && c1.block.timer == c.block.timer
            && C.Upload(c, dt, timeout, txFull) == C.UploadTimed(c1, dt, timeout, txFull, y.abort)
  {
    hide C.UploadTimed, Settled, C.CrcRx, B.Agrees, Checksum, BlockUnused, FromLe16, SegmentsFor;
    EndTaken(c, w, v);
  }

  lemma EndTaken(c: C.Client, w: seq<byte>, v: seq<byte>)
    requires IsEnd(c.rx, w) && Complete(c, v) && 0 < |v| && Kin(w, v, |w|)
    ensures |v| <= |c.buf| && 7 <= |c.buf|
    ensures var y := C.CrcRx(c);
            && !y.done && Settled(y.c.(timer := 0, rxNew := false), v, |c.buf|) && y.c.block.timer == c.block.timer
  {
    hide Checksum, Specifier, BlockUnused, FromLe16, SegmentsFor, B.Agrees, Clipped;
    var k := ReportedSize(|v|, |c.buf|);
    ReportedSizeBounds(|v|, |c.buf|);
    CompleteSize(c, v);
    assert Take(c.buf, k) == c.buf[..k] == v[..k] by {
      B.AgreesLess(c.buf, c.block.received, k, v);
      AgreesPrefix(c.buf, k, v);
    }
  }

  /** The last frame of the client, if there is room to send it. */
  lemma CallSettles(c: C.Client, v: seq<byte>, room: nat, dt: uint16, timeout: uint16, txFull: bool, abort: uint32)
    requires 0 < |v| <= room && 7 <= room && Settled(c, v, room) && Prompt(c, dt, timeout)
    ensures var x := C.UploadTimed(c, dt, timeout, txFull, abort);
            if txFull then !x.ret.Ok? && x.sent.None? && x.c == c.(timer := x.c.timer) && Ticks(x.c, timeout)
            else x.c.state.NotDefined? && x.sent.Some? && |x.c.buf| == room
                 && forall s: S.Server, q: seq<Frame> :: Outcome(Link(s, x.c, q, x.ret, x.length), v, room)
  {
    hide Accepted, ReportedSize, AbortFrame, C.SendConfirm;
  }

  // ------------------------------------------------------------------- the phases

  /** Where a transfer stands. */
  datatype Phase =
    | Announcing | Starting | Asked | InBlock | Full | Confirmed | LastIn | LastConfirmed | Ending | Settling | Over

  predicate IsAnnounced(s: S.Server, w: seq<byte>) {
    s.state.UploadBlInitiate2? && Serving(s, w) && s.arg.length == |w| && s.blksize == C.BLOCK_SIZE_MAX
  }

  predicate InSubblock(s: S.Server, w: seq<byte>) {
    s.state.UploadBlSubblock? && Serving(s, w) && SendingBlock(s, w)
  }

  predicate AtStart(l: Link, p: Phase, w: seq<byte>, v: seq<byte>) {
    && IsAnnounced(l.s, w) && Kin(w, v, 0)
    && match p
       case Announcing =>
         && !l.s.rxNew && l.c.state.BlUploadInitiate? && l.c.block.size == C.BLOCK_SIZE_MAX && l.c.block.seqno == 0
         && Roomy(l.c) && |v| <= |l.c.buf| && |Pending(l.c, l.toC)| == 1
         && var f := Pending(l.c, l.toC)[0]; IsAccept(f, |v|) && FrameIndex(f) == l.c.index && f[3] == l.c.sub
       case Starting =>
         && !l.s.rxNew && l.c.state.BlUploadInitiateAck? && !l.c.rxNew && Taking(l.c, v) && l.c.block.received == 0
         && l.c.block.size == C.BLOCK_SIZE_MAX && l.toC == []
       case Asked =>
         && l.s.rxNew && l.s.rx[0] == 0xA3 && Listening(l.c, v) && l.c.block.seqno == 0 && l.c.block.received == 0
         && l.c.block.size == C.BLOCK_SIZE_MAX && l.toC == []
       case _ => false
  }

  predicate AtBlock(l: Link, p: Phase, w: seq<byte>, v: seq<byte>) {
    && InSubblock(l.s, w)
    && match p
       case InBlock =>
         && !l.s.rxNew && Listening(l.c, v) && Base(l.c) == ServerBase(l.s, w) && Kin(w, v, l.c.block.received)
         && l.c.block.seqno <= l.s.sequence <= l.c.block.size
         && l.toC == Segs(w, Base(l.c), l.c.block.seqno, l.s.sequence)
         && (l.s.end <==> ServerBase(l.s, w) + 7 * (l.s.sequence as int) >= |w|) && (!l.s.end ==> l.s.blksize == l.c.block.size)
       case Full =>
         && !l.s.rxNew && Partial(l.c, v) && Base(l.c) == ServerBase(l.s, w) && Kin(w, v, l.c.block.received)
         && l.s.sequence == l.c.block.seqno == l.s.blksize && !l.s.end && l.toC == []
         && ((l.c.state.BlUploadSubEnd? && l.c.rxNew && l.c.rx[0] < 0x80) || (l.c.state.BlUploadAck? && !l.c.rxNew))
       case Confirmed =>
         && l.s.rxNew && l.s.rx[0] == 0xA2 && l.s.rx[1] == l.s.sequence && l.s.rx[2] == l.c.block.size && !l.s.end
         && Listening(l.c, v) && l.c.block.seqno == 0 && Kin(w, v, l.c.block.received) && l.toC == []
         && l.c.block.received == ServerBase(l.s, w) + 7 * (l.s.sequence as int)
       case LastIn =>
         && !l.s.rxNew && l.s.end && l.s.sequence == l.c.block.seqno && Complete(l.c, v) && Kin(w, v, |w|) && l.toC == []
         && ((l.c.state.BlUploadSubEnd? && l.c.rxNew && l.c.rx[0] >= 0x80 && l.c.rx[0] != ABORT)
             || (l.c.state.BlUploadAckLast? && !l.c.rxNew))
       case LastConfirmed =>
         && l.s.rxNew && l.s.rx[0] == 0xA2 && l.s.rx[1] == l.s.sequence && l.s.end && Kin(w, v, |w|)
         && l.c.state.BlUploadCrc? && !l.c.rxNew && Complete(l.c, v) && l.toC == []
       case _ => false
  }

  predicate AtEnd(l: Link, p: Phase, w: seq<byte>, v: seq<byte>)
    requires 0 < |v| <= |l.c.buf| && 7 <= |l.c.buf|
  {
    && l.s.state.UploadBlEnd? && !l.s.rxNew && Kin(w, v, |w|)
    && (p.Ending? ==> l.c.state.BlUploadCrc? && Complete(l.c, v) && |Pending(l.c, l.toC)| == 1 && IsEnd(Pending(l.c, l.toC)[0], w))
    && (p.Settling? ==> Settled(l.c, v, |l.c.buf|) && l.toC == [])
  }

  /** The transfer of v stands in phase p, with no timer run out. */
  predicate At(l: Link, p: Phase, w: seq<byte>, v: seq<byte>, room: nat, timeout: uint16) {
    && 0 < |v| <= room && 7 <= room && |l.c.buf| == room && 2 <= timeout
    && (if p.Over? then l.c.state.NotDefined? && Outcome(l, v, room)
        else
          && Ticks(l.c, timeout) && l.s.timer < 0xFFFF
          && (if p.Announcing? || p.Starting? || p.Asked? then AtStart(l, p, w, v)
              else if p.Ending? || p.Settling? then AtEnd(l, p, w, v)
              else AtBlock(l, p, w, v)))
  }

  // ----------------------------------------------------------------- the measure

  datatype Kind = Serve | Hear | Ask | Nobody

  /** Whose turn it is. */
  function Due(l: Link, p: Phase): (k: Kind) {
    match p
    case Announcing => if l.c.rxNew then Ask else Hear
    case Starting => Ask
    case Asked => Serve
    case InBlock => if l.toC == [] then Serve else Hear
    case Full => Ask
    case Confirmed => Serve
    case LastIn => Ask
    case LastConfirmed => Serve
    case Ending => if l.c.rxNew then Ask else Hear
    case Settling => Ask
    case Over => Nobody
  }

  /** The event is of that kind, and not held up by a full transmit buffer. */
  predicate Moves(e: Event, k: Kind) {
    match e
    case ServerCall(i) => k.Serve? && !i.txFull
    case ToClient => k.Hear?
    case ClientCall(_, txFull) => k.Ask? && !txFull
    case LoseAnswer(_) => false
  }

  /** Steps still to come, at most. */
  function Left(l: Link, p: Phase, w: seq<byte>): (n: nat) {
    var unsent := Cut(|w|, ServerBase(l.s, w) + 7 * (l.s.sequence as int));
    var missing := Cut(|w|, l.c.block.received);
    match p
    case Announcing => 24 * SegmentsFor(|w|) + (if l.c.rxNew then 9 else 10)
    case Starting => 24 * SegmentsFor(|w|) + 8
    case Asked => 24 * SegmentsFor(|w|) + 7
    case InBlock => 12 * (unsent + missing)
    case Full => 12 * (unsent + missing) + (if l.c.rxNew then 3 else 2)
    case Confirmed => 12 * (unsent + missing) + 1
    case LastIn => if l.c.rxNew then 6 else 5
    case LastConfirmed => 4
    case Ending => if l.c.rxNew then 2 else 3
    case Settling => 1
    case Over => 0
  }

  /** From l to r the transfer gets nearer to its end, or waits for the same event as before. */
  predicate Nearer(l: Link, p: Phase, r: Link, q: Phase, e: Event, w: seq<byte>) {
    Left(r, q, w) < Left(l, p, w) || (Left(r, q, w) == Left(l, p, w) && Due(r, q) == Due(l, p) && !Moves(e, Due(l, p)))
  }
}
