/**
  What holds of the SDO client in every run, whatever frames arrive and whenever
  it is called: no byte is stored behind the user's buffer, and the bytes over
  which the CRC is taken lie in it. It takes that no server announces a size of
  one to six bytes, and no upload call a timeout of 1.
 */
module SdoClientSafe {
  import opened Can
  import opened SdoTypes
  import opened SdoClient

  /** A client, and whether an upload lasts: one was started, and no call has ended it since. */
  datatype User = User(c: Client, up: bool)

  datatype Event =
    | StartsDownload(index: uint16, sub: byte, d: seq<byte>, useBlock: bool)
    | StartsUpload(index: uint16, sub: byte, room: seq<byte>, useBlock: bool)
    | Arrives(f: Frame)
    | Downloads(dt: uint16, timeout: uint16, txFull: bool)
    | Uploads(dt: uint16, timeout: uint16, txFull: bool)

  /** What the application keeps to: 32-bit sizes, and upload calls while an upload lasts. */
  predicate Proper(u: User, e: Event) {
    match e
    case StartsDownload(_, _, d, _) => |d| < 0x1_0000_0000
    case StartsUpload(_, _, room, _) => |room| < 0x1_0000_0000
    case Arrives(_) => true
    case Downloads(_, _, _) => true
    case Uploads(_, _, _) => u.up
  }

  function Step(u: User, e: Event): (r: User)
    requires Proper(u, e)
  {
    match e
    case StartsDownload(index, sub, d, useBlock) =>
      User(InitiateDownload(u.c, index, sub, d, useBlock).c, u.up && |d| == 0)
    case StartsUpload(index, sub, room, useBlock) =>
      var x := InitiateUpload(u.c, index, sub, room, useBlock);
      User(x.c, if |room| < 4 then u.up else x.ret.Ok?)
    case Arrives(f) => User(Receive(u.c, f), u.up)
    case Downloads(dt, timeout, txFull) => Called(u, Download(u.c, dt, timeout, txFull).c)
    case Uploads(dt, timeout, txFull) => Called(u, Upload(u.c, dt, timeout, txFull).c)
  }

  /** A call may end the transfer. */
  function Called(u: User, c: Client): (r: User) {
    User(c, u.up && !c.state.NotDefined?)
  }

  // ------------------------------------------------------------------ the invariant

  /** In a block: some room is left, and at least one whole segment is in once one is counted. */
  predicate Midway(c: Client) {
    7 <= |c.buf| && c.block.received < |c.buf| && (c.block.seqno == 0 || 7 <= c.block.received)
  }

  /** At least one segment is in, and all that is in lies in the buffer. */
  predicate Filled(c: Client) {
    7 <= c.block.received <= |c.buf|
  }

  /** The server has announced no size, or at least a whole segment. */
  predicate Sized(c: Client) {
    c.block.dataSize == 0 || 7 <= c.block.dataSize
  }

  predicate Blockwise(c: Client) {
    || c.state.BlUploadInitiateAck? || c.state.BlUploadInProgress? || c.state.BlUploadSubEnd?
    || c.state.BlUploadAck? || c.state.BlUploadAckLast? || c.state.BlUploadCrc?
  }

  /** The block timer has run, so that a call may confirm at any time: there is something to confirm, and room for more. */
  predicate Running(c: Client) {
    Sized(c) && 7 <= |c.buf| && c.block.received < |c.buf|
  }

  predicate Safe(u: User) {
    var c := u.c;
    && |c.buf| < 0x1_0000_0000
    && (c.state.DownloadRequest? || c.state.DownloadResponse? ==> c.offset <= |c.buf|)
    && (c.state.UploadInitiated? || c.state.BlUploadInitiate? ==> 4 <= |c.buf|)
    && (Blockwise(c) ==> Sized(c) && u.up)
    && (c.state.BlUploadInitiateAck? ==> 7 <= |c.buf| && c.block.received == 0)
    && (c.state.BlUploadInProgress? ==> !c.rxNew && Midway(c))
    && (c.state.BlUploadSubEnd? ==> c.rxNew)
    && (c.state.BlUploadAck? ==> 7 <= |c.buf| && c.block.received < |c.buf|)
    && (c.state.BlUploadSubEnd? || c.state.BlUploadAckLast? || c.state.BlUploadCrc? ==> Filled(c))
    && (u.up ==> && (c.state.BlUploadInitiate? ==> 7 <= |c.buf|) && (c.block.timer > 0 ==> Running(c)))
    && (c.state.NotDefined? ==> !u.up)
  }

  /** The stores and lengths of the next step, none of which leaves the user's buffer. */
  predicate InRange(c: Client) {
    && (c.state.DownloadRequest? ==> c.offset <= |c.buf|)
    && (c.state.UploadInitiated? || c.state.BlUploadInitiate? ==> 4 <= |c.buf|)
    && (c.state.BlUploadInProgress? ==> c.block.received < |c.buf|)
    && (c.state.BlUploadCrc? ==> BlockUnused(c.rx[0]) <= c.block.received <= |c.buf|)
  }

  lemma SafeInRange(u: User)
    requires Safe(u)
    ensures InRange(u.c)
  {
  }

  /** The size the next upload call takes from an announcement of the server. */
  function Announced(c: Client): (n: Option<uint32>) {
    if c.state.BlUploadInitiate? && c.rxNew && Specifier(c.rx[0]) == 6
    then Some(if Bit1(c.rx[0]) then FrameValue(c.rx) else 0)
    else None
  }

  /** The condition on an upload call: no timeout of 1, and no announcement of one to six bytes. */
  predicate Benign(c: Client, timeout: uint16) {
    timeout == 0 || (2 <= timeout && (Announced(c).Some? ==> Announced(c).value == 0 || 7 <= Announced(c).value))
  }

  // ------------------------------------------------------------------- reception

  lemma AcceptSafe(u: User, f: Frame)
    requires Safe(u) && u.c.state.BlUploadInProgress? && u.c.block.seqno < 0x80 && u.c.block.timer == 0
    ensures Safe(u.(c := AcceptSegment(u.c, f)))
  {
    hide Blit;
  }

  lemma ReceiveSafe(u: User, f: Frame)
    requires Safe(u)
    ensures Safe(u.(c := Receive(u.c, f)))
  {
    hide AcceptSegment;
    var c := u.c;
    var c1 := c.(rx := c.rx[0 := f[0]], timer := 0, block := c.block.(timer := 0));
    if c.state.BlUploadInProgress? && Seqno(f[0]) == c.block.seqno + 1 {
      AcceptSafe(u.(c := c1), f);
    }
  }

  // -------------------------------------------------------------------- starting

  lemma StartDownloadSafe(u: User, index: uint16, sub: byte, d: seq<byte>, useBlock: bool)
    requires Safe(u) && |d| < 0x1_0000_0000
    ensures Safe(User(InitiateDownload(u.c, index, sub, d, useBlock).c, u.up && |d| == 0))
  {
    hide Request, Padded4, Le32;
  }

  lemma StartUploadSafe(u: User, index: uint16, sub: byte, room: seq<byte>, useBlock: bool)
    requires Safe(u) && |room| < 0x1_0000_0000
    ensures var x := InitiateUpload(u.c, index, sub, room, useBlock); Safe(User(x.c, if |room| < 4 then u.up else x.ret.Ok?))
  {
    hide Request;
  }

  // -------------------------------------------------------------------- download

  /** The states of a download, in which only the offset of a segmented one matters, and the ends of any transfer. */
  predicate Outside(c: Client) {
    || c.state.NotDefined? || c.state.Aborting? || c.state.DownloadInitiate? || c.state.BlDownloadInitiate?
    || c.state.BlDownloadInProgress? || c.state.BlDownloadAck? || c.state.BlDownloadCrc? || c.state.BlDownloadCrcAck?
    || ((c.state.DownloadRequest? || c.state.DownloadResponse?) && c.offset <= |c.buf|)
  }

  /** Numbers of segments aside. */
  predicate SameBlock(b: Block, r: Block) {
    r.dataSize == b.dataSize && r.received == b.received && r.timer == b.timer
  }

  /** Leaving a transfer, or going on in a download, keeps the client safe. */
  lemma OutsideSafe(u: User, c: Client)
    requires Safe(u) && Outside(c) && c.buf == u.c.buf && SameBlock(u.c.block, c.block)
    ensures Safe(Called(u, c))
  {
  }

  lemma DownloadRxSafe(u: User)
    requires Safe(u)
    ensures Safe(Called(u, DownloadRx(u.c).c))
  {
    hide Specifier, Toggle, Bit0, Bit1, FrameIndex, Safe;
    SafeOffset(u);
    OutsideSafe(u, DownloadRx(u.c).c);
  }

  lemma SafeOffset(u: User)
    requires Safe(u)
    ensures u.c.state.DownloadResponse? || u.c.state.DownloadRequest? ==> u.c.offset <= |u.c.buf|
  {
  }

  /** A frame is freed, or only time passes. */
  lemma FreedSafe(u: User, c: Client)
    requires Safe(u) && c == u.c.(timer := c.timer, rxNew := c.rxNew) && (u.c.state.BlUploadSubEnd? || !u.c.rxNew ==> c.rxNew == u.c.rxNew)
    ensures Safe(u.(c := c))
  {
  }

  lemma DownloadTxSafe(u: User, abort: uint32)
    requires Safe(u)
    ensures Safe(Called(u, DownloadTx(u.c, abort).c))
  {
    hide AbortFrame, Blit, Padded7, EndFrame, Checksum, Minus16, Safe;
    SafeOffset(u);
    var c := DownloadTx(u.c, abort).c;
    if u.c.state.DownloadRequest? {
      TailFits(|u.c.buf|, u.c.offset);
    }
    if Outside(c) {
      OutsideSafe(u, c);
    } else {
      StillSafe(u);
    }
  }

  lemma StillSafe(u: User)
    requires Safe(u)
    ensures Called(u, u.c) == u
  {
  }

  /** The length of the next segment, taken modulo 2^16, is within what is left. */
  lemma TailFits(size: nat, offset: nat)
    requires offset <= size
    ensures offset + Min(7, Minus16(size, offset)) <= size
  {
  }

  lemma DownloadTimedSafe(u: User, dt: uint16, timeout: uint16, txFull: bool, abort: uint32)
    requires Safe(u)
    ensures Safe(Called(u, DownloadTimed(u.c, dt, timeout, txFull, abort).c))
  {
    hide DownloadTx, AbortFrame, Safe;
    var c := if u.c.timer < timeout then u.c.(timer := Add16(u.c.timer, dt)) else u.c;
    FreedSafe(u, c);
    if c.timer >= timeout {
      OutsideSafe(u, TimeOut(c).c);
    } else {
      StillSafe(u.(c := c));
      DownloadTxSafe(u.(c := c), abort);
    }
  }

  lemma DownloadSafe(u: User, dt: uint16, timeout: uint16, txFull: bool)
    requires Safe(u)
    ensures Safe(Called(u, Download(u.c, dt, timeout, txFull).c))
  {
    hide DownloadRx, DownloadTimed, FrameValue, Safe;
    if !u.c.rxNew {
      DownloadTimedSafe(u, dt, timeout, txFull, 0);
    } else if u.c.rx[0] == ABORT {
      OutsideSafe(u, u.c.(state := NotDefined, rxNew := false));
    } else {
      DownloadRxSafe(u);
      var x := DownloadRx(u.c);
      if !x.done {
        var v := Called(u, x.c);
        RxLeaves(u.c);
        FreedSafe(v, x.c.(timer := 0, rxNew := false));
        DownloadTimedSafe(v.(c := x.c.(timer := 0, rxNew := false)), dt, timeout, txFull, x.abort);
      }
    }
  }

  lemma RxLeaves(c: Client)
    ensures !DownloadRx(c).c.state.BlUploadSubEnd? && (DownloadRx(c).c.state.NotDefined? ==> DownloadRx(c).done)
  {
    hide Specifier, Toggle, Bit0, Bit1, FrameIndex;
  }

  // ---------------------------------------------------------------------- upload

  lemma InitiateRxSafe(u: User)
    requires Safe(u) && u.up && !Blockwise(u.c)
    ensures Safe(Called(u, InitiateRx(u.c).c))
  {
    hide Bit0, Bit1, ExpeditedUnused, Blit;
  }

  lemma SegmentRxSafe(u: User)
    requires Safe(u) && u.up && u.c.state.UploadResponse?
    ensures Safe(Called(u, SegmentRx(u.c).c))
  {
    hide Bit0, Toggle, SegmentUnused, Blit;
  }

  lemma BlockRxSafe(u: User)
    requires Safe(u) && u.up && u.c.state.BlUploadInitiate?
    requires var n := if Bit1(u.c.rx[0]) then FrameValue(u.c.rx) else 0; n == 0 || 7 <= n
    ensures Safe(Called(u, BlockInitiateRx(u.c).c))
  {
    hide Bit1, Bit2, FrameIndex, FrameValue;
  }

  lemma SubEndRxSafe(u: User)
    requires Safe(u) && u.c.state.BlUploadSubEnd?
    ensures Safe(Called(u, SubEndRx(u.c).c))
  {
  }

  lemma CrcRxSafe(u: User)
    requires Safe(u) && u.c.state.BlUploadCrc?
    ensures Safe(Called(u, CrcRx(u.c).c))
  {
    hide BlockUnused, FromLe16, Checksum;
  }

  /** What a frame leaves is safe. */
  lemma UploadRxSafe(u: User, timeout: uint16)
    requires Safe(u) && u.up && u.c.rxNew && Benign(u.c, timeout) && 2 <= timeout
    ensures Safe(Called(u, UploadRx(u.c).c))
  {
    hide Specifier, InitiateRx, SegmentRx, BlockInitiateRx, SubEndRx, CrcRx, Safe, FrameValue, Bit1;
    OutsideSafe(u, u.c.(state := Aborting));
    match u.c.state
    case UploadInitiated => InitiateRxSafe(u);
    case UploadResponse => SegmentRxSafe(u);
    case BlUploadInitiate =>
      InitiateRxSafe(u);
      if Specifier(u.c.rx[0]) == 6 { BlockRxSafe(u); }
    case BlUploadInProgress => StillSafe(u);
    case BlUploadSubEnd => SubEndRxSafe(u);
    case BlUploadCrc => CrcRxSafe(u);
    case _ =>
  }

  lemma UploadTxSafe(u: User, abort: uint32)
    requires Safe(u) && u.up && !u.c.rxNew
    ensures Safe(Called(u, UploadTx(u.c, abort).c))
  {
    hide AbortFrame, Confirm, BlockSizeFor;
  }

  lemma TickSafe(u: User, dt: uint16)
    requires Safe(u)
    ensures Safe(u.(c := Tick(u.c, dt)))
  {
  }

  /** The part of an upload call behind the reception. */
  lemma UploadTimedSafe(u: User, dt: uint16, timeout: uint16, txFull: bool, abort: uint32)
    requires Safe(u) && u.up && !u.c.rxNew && timeout != 1
    ensures Safe(Called(u, UploadTimed(u.c, dt, timeout, txFull, abort).c))
  {
    hide UploadTx, AbortFrame, Safe;
    var c1 := if u.c.timer < timeout then Tick(u.c, dt) else u.c;
    TickSafe(u, dt);
    if c1.timer >= timeout {
      OutsideSafe(u.(c := c1), TimeOut(c1).c);
    } else {
      var c2 := if c1.block.timer >= timeout / 2 then c1.(state := BlUploadAck) else c1;
      ExpiredSafe(u.(c := c1), timeout);
      StillSafe(u.(c := c2));
      UploadTxSafe(u.(c := c2), abort);
    }
  }

  /** A block timer run out leads to a confirmation, from wherever. */
  lemma ExpiredSafe(u: User, timeout: uint16)
    requires Safe(u) && u.up && 2 <= timeout
    ensures u.c.block.timer >= timeout / 2 ==> Safe(u.(c := u.c.(state := BlUploadAck)))
  {
  }

  lemma UploadSafe(u: User, dt: uint16, timeout: uint16, txFull: bool)
    requires Safe(u) && u.up && Benign(u.c, timeout)
    ensures Safe(Called(u, Upload(u.c, dt, timeout, txFull).c))
  {
    hide UploadRx, UploadTimed, FrameValue, Safe, Announced;
    NotOver(u);
    if !u.c.rxNew {
      UploadTimedSafe(u, dt, timeout, txFull, 0);
    } else if u.c.rx[0] == ABORT {
      OutsideSafe(u, u.c.(state := NotDefined, rxNew := false));
    } else if timeout == 0 {
      AtOnce(u, dt, txFull);
    } else {
      UploadRxSafe(u, timeout);
      var x := UploadRx(u.c);
      if !x.done {
        var v := Called(u, x.c);
        UploadRxShape(u.c);
        FreedSafe(v, x.c.(timer := 0, rxNew := false));
        UploadTimedSafe(v.(c := x.c.(timer := 0, rxNew := false)), dt, timeout, txFull, x.abort);
      }
    }
  }

  lemma NotOver(u: User)
    requires Safe(u) && u.up
    ensures !u.c.state.NotDefined?
  {
  }

  /** A frame ends the transfer, or leads to a state other than the end of a block. */
  predicate Shape(c: Client, x: Rx) {
    |x.c.buf| == |c.buf| && (x.done <==> x.c.state.NotDefined?) && !x.c.state.BlUploadSubEnd?
  }

  lemma SegmentShape(c: Client)
    ensures Shape(c, InitiateRx(c)) && Shape(c, SegmentRx(c))
  {
    hide Toggle, Bit0, Bit1, SegmentUnused, ExpeditedUnused;
  }

  lemma BlockShape(c: Client)
    ensures Shape(c, BlockInitiateRx(c)) && Shape(c, SubEndRx(c)) && Shape(c, CrcRx(c))
  {
    hide Bit1, Bit2, FrameIndex, FrameValue, Checksum, BlockUnused, FromLe16;
  }

  lemma UploadRxShape(c: Client)
    requires !c.state.NotDefined?
    ensures Shape(c, UploadRx(c))
  {
    hide Specifier, InitiateRx, SegmentRx, BlockInitiateRx, SubEndRx, CrcRx;
    SegmentShape(c);
    BlockShape(c);
  }

  /** With a timeout of zero every call ends the transfer. */
  lemma AtOnce(u: User, dt: uint16, txFull: bool)
    requires Safe(u) && u.c.rxNew && !u.c.state.NotDefined?
    ensures Safe(Called(u, Upload(u.c, dt, 0, txFull).c))
  {
    hide AbortFrame, FrameValue, UploadRx;
    UploadRxShape(u.c);
  }

  // ------------------------------------------------------------------ whole runs

  predicate ProperRun(u: User, run: seq<Event>)
    decreases |run|
  {
    run == [] || (Proper(u, run[0]) && ProperRun(Step(u, run[0]), run[1..]))
  }

  function Run(u: User, run: seq<Event>): (r: User)
    requires ProperRun(u, run)
    decreases |run|
  {
    if run == [] then u else Run(Step(u, run[0]), run[1..])
  }

  /** Every upload call of the run is benign. */
  predicate BenignRun(u: User, run: seq<Event>)
    requires ProperRun(u, run)
    decreases |run|
  {
    run == [] || ((run[0].Uploads? ==> Benign(u.c, run[0].timeout)) && BenignRun(Step(u, run[0]), run[1..]))
  }

  lemma StepSafe(u: User, e: Event)
    requires Safe(u) && Proper(u, e) && (e.Uploads? ==> Benign(u.c, e.timeout))
    ensures Safe(Step(u, e))
  {
    hide Safe, Receive, Download, Upload, InitiateDownload, InitiateUpload, Benign;
    match e
    case StartsDownload(index, sub, d, useBlock) => StartDownloadSafe(u, index, sub, d, useBlock);
    case StartsUpload(index, sub, room, useBlock) => StartUploadSafe(u, index, sub, room, useBlock);
    case Arrives(f) => ReceiveSafe(u, f);
    case Downloads(dt, timeout, txFull) => DownloadSafe(u, dt, timeout, txFull);
    case Uploads(dt, timeout, txFull) => UploadSafe(u, dt, timeout, txFull);
  }

  /** From any safe state, after any frames and calls of the application, nothing leaves the user's buffer. */
  lemma {:induction false} RunSafe(u: User, run: seq<Event>)
    requires Safe(u) && ProperRun(u, run) && BenignRun(u, run)
    ensures Safe(Run(u, run)) && InRange(Run(u, run).c)
    decreases |run|
  {
    hide Safe, InRange, Proper, Step, Benign;
    if run == [] {
      SafeInRange(u);
    } else {
      StepSafe(u, run[0]);
      RunSafe(Step(u, run[0]), run[1..]);
    }
  }

  // ------------------------------------------------- where the block timer misleads

  /** Every upload call has that timeout, and every size announced is n. */
  predicate Uniform(u: User, run: seq<Event>, n: uint32, timeout: uint16)
    requires ProperRun(u, run)
    decreases |run|
  {
    run == []
    || (&& (run[0].Uploads? ==> run[0].timeout == timeout && (Announced(u.c).Some? ==> Announced(u.c).value == n))
        && Uniform(Step(u, run[0]), run[1..], n, timeout))
  }

  lemma {:induction false} RunConcat(u: User, a: seq<Event>, b: seq<Event>, n: uint32, timeout: uint16)
    requires ProperRun(u, a) && ProperRun(Run(u, a), b)
    ensures ProperRun(u, a + b) && Run(u, a + b) == Run(Run(u, a), b)
    ensures Uniform(u, a, n, timeout) && Uniform(Run(u, a), b, n, timeout) ==> Uniform(u, a + b, n, timeout)
    decreases |a|
  {
    hide Step, Proper, Announced;
    if a == [] {
      assert a + b == b;
    } else {
      assert (a + b)[0] == a[0] && (a + b)[1..] == a[1..] + b;
      RunConcat(Step(u, a[0]), a[1..], b, n, timeout);
    }
  }

  lemma RunOne(u: User, e: Event, n: uint32, timeout: uint16)
    requires Proper(u, e)
    ensures ProperRun(u, [e]) && Run(u, [e]) == Step(u, e)
    ensures (e.Uploads? ==> e.timeout == timeout && Announced(u.c).None?) ==> Uniform(u, [e], n, timeout)
  {
    hide Step, Proper, Announced;
    assert [e][1..] == [];
  }

  /** The end of the transfer, with `unused` bytes and the CRC of what is then left of the seven bytes received. */
  function EndOf(buf: seq<byte>, unused: SegmentLength): (f: Frame) {
    EndFrame(unused, Checksum(Take(buf, 7 - unused)))
  }

  /** The block timer runs out, and the transfer is ended twice. */
  function Twice(buf: seq<byte>, n: uint32, timeout: uint16): (run: seq<Event>)
    requires n <= 7
  {
    [Uploads(timeout / 2, timeout, false), Arrives(EndOf(buf, 7 - n)), Uploads(0, timeout, false), Arrives(ZERO_FRAME[0 := 0xDD])]
  }

  /** The client waits for the end of the transfer, with n bytes left and the block timer run out. */
  predicate Waits(c: Client, n: uint32, received: nat, timeout: uint16) {
    && c.state.BlUploadCrc? && !c.rxNew && c.block.dataSize == n && c.block.received == received && c.block.timer == timeout / 2
    && c.timer < timeout
  }

  lemma EndsEarly(c: Client, n: uint32, timeout: uint16)
    requires c.state.BlUploadInProgress? && !c.rxNew && c.block.dataSize == n <= c.block.received && c.timer == c.block.timer == 0
    requires 0 < n && 2 <= timeout
    ensures var x := Upload(c, timeout / 2, timeout, false); Waits(x.c, n, c.block.received, timeout) && x.c.buf == c.buf
  {
    hide Confirm, BlockSizeFor;
  }

  lemma EndTaken(c: Client, n: uint32, timeout: uint16)
    requires Waits(c, n, 7, timeout) && 1 <= n <= 6 && 2 <= timeout
    ensures var d := c.(rx := EndOf(c.buf, 7 - n), rxNew := true);
            Receive(c, EndOf(c.buf, 7 - n)) == d && Announced(d).None? && Waits(Upload(d, 0, timeout, false).c, n, n, timeout)
  {
    hide EndOf, UploadRx, Confirm, Announced;
    var f := EndOf(c.buf, 7 - n);
    var d := c.(rx := f, rxNew := true);
    EarlyEnd(d, 7 - n);
    assert Announced(d).None? by {
      NotAnnounced(d);
    }
  }

  lemma NotAnnounced(c: Client)
    requires !c.state.BlUploadInitiate?
    ensures Announced(c).None?
  {
  }

  /** The end frame leaves the bytes that are not unused. */
  lemma EarlyEnd(c: Client, unused: SegmentLength)
    requires c.state.BlUploadCrc? && c.block.received == 7 && c.rx == EndOf(c.buf, unused)
    ensures c.rx[0] != ABORT && UploadRx(c) == Go(c.(block := c.block.(received := 7 - unused), state := BlUploadEnd))
  {
    hide Checksum, Specifier, BlockUnused, FromLe16, EndFrame, Bit0;
    EndFrameFields(unused, Checksum(Take(c.buf, 7 - unused)));
  }

  /**
    One to six bytes were announced, one segment has come, and the block timer
    runs out: the client confirms and waits for the end with the timer still run
    out. The end frame is then taken for the end of a block, and after a second
    one the length of the data is below zero.
   */
  lemma EndTakenTwice(u: User, n: uint32, timeout: uint16)
    requires u.up && u.c.state.BlUploadInProgress? && !u.c.rxNew && u.c.block.dataSize == n && u.c.block.received == 7
    requires u.c.timer == u.c.block.timer == 0 && 1 <= n <= 6 && 2 <= timeout
    ensures var run := Twice(u.c.buf, n, timeout);
            ProperRun(u, run) && Uniform(u, run, n, timeout) && !InRange(Run(u, run).c)
  {
    hide EndOf, Upload, Receive, Announced, Uniform, Run, ProperRun;
    var run := Twice(u.c.buf, n, timeout);
    EndsEarly(u.c, n, timeout);
    NotAnnounced(u.c);
    var u1 := Step(u, run[0]);
    var u2 := Step(u1, run[1]);
    EndTaken(u1.c, n, timeout);
    var u3 := Step(u2, run[2]);
    var u4 := Step(u3, run[3]);
    assert !InRange(u4.c) by {
      TooMuch(u3.c, n, timeout);
    }
    RunOne(u, run[0], n, timeout);
    RunOne(u1, run[1], n, timeout);
    RunOne(u2, run[2], n, timeout);
    RunOne(u3, run[3], n, timeout);
    RunConcat(u, [run[0]], [run[1]], n, timeout);
    RunConcat(u, [run[0]] + [run[1]], [run[2]], n, timeout);
    RunConcat(u, [run[0]] + [run[1]] + [run[2]], [run[3]], n, timeout);
    assert run == [run[0]] + [run[1]] + [run[2]] + [run[3]];
  }

  lemma TooMuch(c: Client, n: uint32, timeout: uint16)
    requires Waits(c, n, n, timeout) && n <= 6
    ensures !InRange(Receive(c, ZERO_FRAME[0 := 0xDD]))
  {
    assert BlockUnused(0xDD) == 7;
  }

  // ------------------------------------------------------------------- the exact limit

  const FRESH := User(Client(NotDefined, false, ZERO_FRAME, 0, 0, [], 0, 0, false, 0, Block(0, 0, 0, 0, 0, 0, false)), false)

  function Ample(): (b: seq<byte>)
    ensures |b| == 7 * BLOCK_SIZE_MAX
  {
    seq(7 * BLOCK_SIZE_MAX, _ => 0)
  }

  /** The answer to the request of a block upload of object 0: n bytes will follow. */
  function Announcement(n: uint32): (f: Frame) {
    Request(0, 0, 0xC6, Le32(n))
  }

  /** A block upload is started, n bytes are announced, and one segment comes. */
  function Opening(n: uint32, timeout: uint16): (run: seq<Event>) {
    [StartsUpload(0, 0, Ample(), true), Arrives(Announcement(n)), Uploads(0, timeout, false), Arrives(ZERO_FRAME[0 := 1])]
  }

  lemma Starts(u: User)
    ensures var r := Step(u, StartsUpload(0, 0, Ample(), true)); var c := r.c;
            && r.up && c.state.BlUploadInitiate? && !c.rxNew && c.buf == Ample() && c.index == 0 && c.sub == 0
            && c.timer == c.block.timer == 0 && c.block.seqno == 0 && c.block.size == BLOCK_SIZE_MAX
            && c.block.received == u.c.block.received && c.block.dataSize == u.c.block.dataSize
  {
    hide Request;
  }

  lemma AnnouncementTaken(c: Client, n: uint32, timeout: uint16)
    requires c.state.BlUploadInitiate? && !c.rxNew && c.buf == Ample() && c.index == 0 && c.sub == 0
    requires c.timer == c.block.timer == 0 && c.block.size == BLOCK_SIZE_MAX && n <= 6 && 2 <= timeout
    ensures var d := c.(rx := Announcement(n), rxNew := true);
            && Receive(c, Announcement(n)) == d && Announced(d) == Some(n)
            && (var e := Upload(d, 0, timeout, false).c;
                && e.state.BlUploadInProgress? && !e.rxNew && e.buf == Ample() && e.timer == e.block.timer == 0
                && e.block.dataSize == n && e.block.received == 0 && e.block.seqno == 0 && e.block.size == BLOCK_SIZE_MAX)
  {
    hide Request, FrameIndex, FrameValue, Le32;
    RequestFields(0, 0, 0xC6, Le32(n));
    RequestValue(0, 0, 0xC6, n);
    assert Specifier(0xC6) == 6 && Bit1(0xC6);
  }

  lemma FirstTaken(c: Client)
    requires c.state.BlUploadInProgress? && !c.rxNew && c.buf == Ample() && c.block.received == 0 && c.block.seqno == 0
    requires c.block.size == BLOCK_SIZE_MAX
    ensures var d := Receive(c, ZERO_FRAME[0 := 1]);
            && d.state.BlUploadInProgress? && !d.rxNew && |d.buf| == |Ample()| && d.timer == d.block.timer == 0
            && d.block.dataSize == c.block.dataSize && d.block.received == 7
  {
    assert Seqno(1) == 1;
  }

  lemma OpeningRun(n: uint32, timeout: uint16)
    requires n <= 6 && 2 <= timeout
    ensures ProperRun(FRESH, Opening(n, timeout)) && Uniform(FRESH, Opening(n, timeout), n, timeout)
    ensures var r := Run(FRESH, Opening(n, timeout));
            && r.up && r.c.state.BlUploadInProgress? && !r.c.rxNew && r.c.timer == r.c.block.timer == 0
            && r.c.block.dataSize == n && r.c.block.received == 7
  {
    hide Announcement, Upload, Receive, Announced, InitiateUpload;
    var run := Opening(n, timeout);
    Starts(FRESH);
    var u1 := Step(FRESH, run[0]);
    AnnouncementTaken(u1.c, n, timeout);
    var u2 := Step(u1, run[1]);
    var u3 := Step(u2, run[2]);
    FirstTaken(u3.c);
    var u4 := Step(u3, run[3]);
    assert run[1..][0] == run[1] && run[1..][1..][0] == run[2] && run[1..][1..][1..][0] == run[3] && run[1..][1..][1..][1..] == [];
    assert ProperRun(u3, run[1..][1..][1..]) && Run(u3, run[1..][1..][1..]) == u4 && Uniform(u3, run[1..][1..][1..], n, timeout);
    assert ProperRun(u2, run[1..][1..]) && Run(u2, run[1..][1..]) == u4 && Uniform(u2, run[1..][1..], n, timeout);
    assert ProperRun(u1, run[1..]) && Run(u1, run[1..]) == u4 && Uniform(u1, run[1..], n, timeout);
  }

  /** A block upload with a segment, and then another upload, into four bytes. */
  function Second(): (run: seq<Event>) {
    [StartsUpload(0, 0, Ample(), true), Uploads(0, 1, false), Arrives(ZERO_FRAME[0 := 1]),
     StartsUpload(0, 0, [0, 0, 0, 0], false), Uploads(0, 1, false)]
  }

  /** With a timeout of 1 a call confirms before the server has answered, with the byte count of the transfer before. */
  lemma StartsMidway(c: Client)
    requires !c.rxNew && c.timer == c.block.timer == 0 && c.block.dataSize == 0
    ensures var d := Upload(c, 0, 1, false).c;
            && d.state.BlUploadInProgress? && !d.rxNew && d.buf == c.buf && d.block.received == c.block.received
            && d.block.seqno == 0 && d.block.size == c.block.size && d.block.dataSize == 0
  {
    hide Confirm;
  }

  lemma MidwayRun(n: uint32)
    ensures ProperRun(FRESH, Second()) && Uniform(FRESH, Second(), n, 1) && !InRange(Run(FRESH, Second()).c)
  {
    hide Upload, Receive, Announced, InitiateUpload;
    var run := Second();
    Starts(FRESH);
    var u1 := Step(FRESH, run[0]);
    StartsMidway(u1.c);
    var u2 := Step(u1, run[1]);
    FirstTaken(u2.c);
    var u3 := Step(u2, run[2]);
    SmallRoom(u3);
    var u4 := Step(u3, run[3]);
    StartsMidway(u4.c);
    var u5 := Step(u4, run[4]);
    NothingAnnounced(u1.c);
    NothingAnnounced(u4.c);
    assert run[1..][0] == run[1] && run[1..][1..][0] == run[2] && run[1..][1..][1..][0] == run[3];
    assert run[1..][1..][1..][1..][0] == run[4] && run[1..][1..][1..][1..][1..] == [];
    assert ProperRun(u4, run[1..][1..][1..][1..]) && Run(u4, run[1..][1..][1..][1..]) == u5
           && Uniform(u4, run[1..][1..][1..][1..], n, 1);
    assert ProperRun(u3, run[1..][1..][1..]) && Run(u3, run[1..][1..][1..]) == u5 && Uniform(u3, run[1..][1..][1..], n, 1);
    assert ProperRun(u2, run[1..][1..]) && Run(u2, run[1..][1..]) == u5 && Uniform(u2, run[1..][1..], n, 1);
    assert ProperRun(u1, run[1..]) && Run(u1, run[1..]) == u5 && Uniform(u1, run[1..], n, 1);
  }

  lemma SmallRoom(u: User)
    ensures var r := Step(u, StartsUpload(0, 0, [0, 0, 0, 0], false));
            && r.up && !r.c.rxNew && |r.c.buf| == 4 && r.c.timer == r.c.block.timer == 0 && r.c.state.UploadInitiated?
            && r.c.block.received == u.c.block.received && r.c.block.dataSize == u.c.block.dataSize
  {
    hide Request;
  }

  lemma NothingAnnounced(c: Client)
    requires !c.rxNew
    ensures Announced(c).None?
  {
  }

  /** Some run with that timeout, in which the servers announce n bytes each time, leaves the user's buffer. */
  ghost predicate Strays(n: uint32, timeout: uint16) {
    exists run :: ProperRun(FRESH, run) && Uniform(FRESH, run, n, timeout) && !InRange(Run(FRESH, run).c)
  }

  lemma {:induction false} UniformBenign(u: User, run: seq<Event>, n: uint32, timeout: uint16)
    requires ProperRun(u, run) && Uniform(u, run, n, timeout) && (timeout == 0 || (2 <= timeout && (n == 0 || 7 <= n)))
    ensures BenignRun(u, run)
    decreases |run|
  {
    hide Step, Announced;
    if run != [] {
      UniformBenign(Step(u, run[0]), run[1..], n, timeout);
    }
  }

  /** The client keeps to the user's buffer exactly if the timeout is not 1 and the size announced not one to six bytes. */
  lemma BufferLimit(n: uint32, timeout: uint16)
    ensures Strays(n, timeout) <==> timeout == 1 || (2 <= timeout && 1 <= n <= 6)
  {
    hide ProperRun, Uniform, Run, InRange, BenignRun, Opening, Twice, Second;
    if timeout == 1 {
      MidwayRun(n);
    } else if 2 <= timeout && 1 <= n <= 6 {
      OpeningRun(n, timeout);
      var u := Run(FRESH, Opening(n, timeout));
      EndTakenTwice(u, n, timeout);
      RunConcat(FRESH, Opening(n, timeout), Twice(u.c.buf, n, timeout), n, timeout);
    } else {
      forall run | ProperRun(FRESH, run) && Uniform(FRESH, run, n, timeout)
        ensures InRange(Run(FRESH, run).c)
      {
        UniformBenign(FRESH, run, n, timeout);
        RunSafe(FRESH, run);
      }
    }
  }
}
