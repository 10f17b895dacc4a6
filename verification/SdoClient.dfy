/**
  The SDO client of stack/CO_SDOmaster.c: starting a transfer, one receive call
  and one download or upload call as functions from client state to client state.
 */
module SdoClient {
  import opened Can
  import opened SdoTypes

  datatype State =
    | NotDefined | Aborting
    | DownloadInitiate | DownloadRequest | DownloadResponse
    | UploadInitiated | UploadRequest | UploadResponse
    | BlDownloadInitiate | BlDownloadInProgress | BlDownloadAck | BlDownloadCrc | BlDownloadCrcAck
    | BlUploadInitiate | BlUploadInitiateAck | BlUploadInProgress | BlUploadSubEnd
    | BlUploadAck | BlUploadAckLast | BlUploadCrc | BlUploadEnd

  /** What a call reports to the application. */
  datatype Return =
    | Ok | Waiting | DownloadInProgress | UploadInProgress | TxFull
    | WrongArguments | ServerAbort | ClientAbort | TimedOut

  /**
    The user's buffer is `buf`: the data to download, or the room for the data
    to upload. `toggle` is the toggle bit of the next segment.
   */
  datatype Client = Client(
    state: State, rxNew: bool, rx: Frame, index: uint16, sub: byte, buf: seq<byte>,
    offset: nat, acked: nat, toggle: bool, timer: uint16, block: Block)

  /** Block transfer: size announced by the server, bytes received, timer, segment numbers. */
  datatype Block = Block(
    dataSize: uint32, received: nat, timer: uint16, seqno: byte, size: byte, unused: SegmentLength, crcOn: bool)

  datatype Result = Result(c: Client, sent: Option<Frame>, ret: Return, abort: uint32, length: nat)

  const PST: byte := 21
  const BLOCK_SIZE_MAX: byte := 127

  // ------------------------------------------------------------------- reception

  /** A frame of the server arrives. */
  function Receive(c: Client, f: Frame): (r: Client) {
    if c.rxNew || c.state.NotDefined? then c
    else if !c.state.BlUploadInProgress? then c.(rx := f, rxNew := true)
    else ReceiveSegment(c, f)
  }

  /** A block segment goes straight into the user's buffer if it is the next one. */
  function ReceiveSegment(c: Client, f: Frame): (r: Client) {
    var b := c.block.(timer := 0);
    var c1 := c.(rx := c.rx[0 := f[0]], timer := 0, block := b);
    var seqno := Seqno(f[0]);
    if seqno == b.seqno + 1 then AcceptSegment(c1, f)
    else if seqno == b.seqno || b.seqno == 0 then c1
    else c1.(state := BlUploadSubEnd, rxNew := true)
  }

  /** The sub-block ends with a full buffer, the last segment of all or the last of the block. */
  function AcceptSegment(c: Client, f: Frame): (r: Client)
    requires c.block.seqno < 0xFF
  {
    var b := c.block;
    var n := Room(b.received, |c.buf|);
    var c1 := c.(buf := Blit(c.buf, b.received, f[1..1 + n]), block := b.(seqno := b.seqno + 1, received := b.received + n));
    if c1.block.received >= |c.buf| || f[0] >= 0x80 || c1.block.seqno >= b.size
    then c1.(state := BlUploadSubEnd, rxNew := true)
    else c1
  }

  // --------------------------------------------------------------------- starting

  function Request(index: uint16, sub: byte, command: byte, tail: seq<byte>): (f: Frame)
    requires |tail| == 4
  {
    [command] + Le16(index) + [sub] + tail
  }

  lemma RequestFields(index: uint16, sub: byte, command: byte, tail: seq<byte>)
    requires |tail| == 4
    ensures var f := Request(index, sub, command, tail);
            f[0] == command && FrameIndex(f) == index && f[3] == sub && f[4..8] == tail
  {
    hide Le16, FromLe16;
    Le16RoundTrip(index);
  }

  lemma RequestValue(index: uint16, sub: byte, command: byte, n: uint32)
    ensures FrameValue(Request(index, sub, command, Le32(n))) == n
  {
    hide Le16, Le32, FromLe32;
    Le32RoundTrip(n);
  }

  /** Four data bytes of an expedited request. */
  function Padded4(d: seq<byte>): (r: seq<byte>)
    ensures |r| == 4
  {
    seq(4, i requires 0 <= i < 4 => if i < |d| then d[i] else 0)
  }

  /** Start the download of d, which is not empty, to another node. */
  function InitiateDownload(c: Client, index: uint16, sub: byte, d: seq<byte>, useBlock: bool): (r: Result)
    requires |d| < 0x1_0000_0000
  {
    if |d| == 0 then Result(c, None, WrongArguments, 0, 0)
    else
      var c1 := c.(buf := d, index := index, sub := sub, rxNew := false, timer := 0);
      if |d| <= 4 then
        Result(c1.(state := DownloadInitiate), Some(Request(index, sub, 0x23 + 4 * (4 - |d|), Padded4(d))), Ok, 0, 0)
      else if |d| > PST && useBlock then
        Result(c1.(state := BlDownloadInitiate), Some(Request(index, sub, 0xC6, Le32(|d|))), Ok, 0, 0)
      else
        Result(c1.(state := DownloadInitiate), Some(Request(index, sub, 0x21, Le32(|d|))), Ok, 0, 0)
  }

  /** Start an upload from another node into a buffer. */
  function InitiateUpload(c: Client, index: uint16, sub: byte, room: seq<byte>, useBlock: bool): (r: Result) {
    if |room| < 4 then Result(c, None, WrongArguments, 0, 0)
    else
      var c1 := c.(buf := room, index := index, sub := sub);
      if !useBlock then
        Result(c1.(state := UploadInitiated, rxNew := false, timer := 0, block := c.block.(timer := 0)),
               Some(Request(index, sub, 0x40, [0, 0, 0, 0])), Ok, 0, 0)
      else
        var c2 := c1.(state := BlUploadInitiate, block := c.block.(size := BLOCK_SIZE_MAX));
        if 7 * BLOCK_SIZE_MAX > |room| then Result(c2, None, WrongArguments, 0, 0)
        else
          Result(c2.(rxNew := false, timer := 0, block := c2.block.(seqno := 0, timer := 0)),
                 Some(Request(index, sub, 0xA4, [BLOCK_SIZE_MAX, PST, 0, 0])), Ok, 0, 0)
  }

  // ---------------------------------------------------------------------- download

  /** The effect of a received frame: a new state, an abort code, or the end of the transfer. */
  datatype Rx = Rx(c: Client, abort: uint32, done: bool, length: nat)

  function Fail(c: Client, code: uint32): (r: Rx) {
    Rx(c.(state := Aborting), code, false, 0)
  }

  function Go(c: Client): (r: Rx) {
    Rx(c, 0, false, 0)
  }

  function Done(c: Client, length: nat): (r: Rx) {
    Rx(c.(state := NotDefined, rxNew := false), 0, true, length)
  }

  function DownloadRx(c: Client): (r: Rx) {
    var scs := Specifier(c.rx[0]);
    match c.state
    case DownloadInitiate =>
      if scs != 3 then Fail(c, AB_CMD)
      else if |c.buf| <= 4 then Done(c, 0)
      else Go(c.(offset := 0, toggle := false, state := DownloadRequest))
    case DownloadResponse =>
      if scs != 1 then Fail(c, AB_CMD)
      else if (Toggle(c.rx[0]) == 1) != c.toggle then Fail(c, AB_TOGGLE_BIT)
      else if c.offset == |c.buf| then Done(c.(toggle := !c.toggle), 0)
      else Go(c.(toggle := !c.toggle, state := DownloadRequest))
    case BlDownloadInitiate =>
      if scs != 5 then Fail(c, AB_CMD)
      else if FrameIndex(c.rx) != c.index || c.rx[3] != c.sub then Fail(c, AB_PRAM_INCOMPAT)
      else Go(c.(block := c.block.(size := c.rx[4], seqno := 0), offset := 0, acked := 0, state := BlDownloadInProgress))
    case BlDownloadInProgress => BlockAck(c)
    case BlDownloadAck => BlockAck(c)
    case BlDownloadCrcAck =>
      if scs != 5 || !Bit0(c.rx[0]) then Fail(c, AB_CMD) else Done(c.(timer := 0), 0)
    case _ => Fail(c, AB_CMD)
  }

  /** The server confirms rx[1] segments and offers the next block size: go on or go back. */
  function BlockAck(c: Client): (r: Rx) {
    if Specifier(c.rx[0]) != 5 || !Bit1(c.rx[0]) then Fail(c, AB_CMD)
    else
      var acked: nat := if c.rx[1] != c.block.size then c.acked + 7 * (c.rx[1] as int) else c.offset;
      Go(c.(acked := acked, offset := acked, block := c.block.(size := c.rx[2], seqno := 0),
            state := if acked >= |c.buf| then BlDownloadCrc else BlDownloadInProgress))
  }

  function Download(c: Client, dt: uint16, timeout: uint16, txFull: bool): (r: Result) {
    if !c.rxNew then DownloadTimed(c, dt, timeout, txFull, 0)
    else if c.rx[0] == ABORT then
      Result(c.(state := NotDefined, rxNew := false), None, ServerAbort, FrameValue(c.rx), 0)
    else
      var x := DownloadRx(c);
      if x.done then Result(x.c, None, Ok, 0, 0)
      else DownloadTimed(x.c.(timer := 0, rxNew := false), dt, timeout, txFull, x.abort)
  }

  function DownloadTimed(c: Client, dt: uint16, timeout: uint16, txFull: bool, abort: uint32): (r: Result) {
    var c1 := if c.timer < timeout then c.(timer := Add16(c.timer, dt)) else c;
    if c1.timer >= timeout then TimeOut(c1)
    else if txFull then Result(c1, None, TxFull, abort, 0)
    else DownloadTx(c1, abort)
  }

  function TimeOut(c: Client): (r: Result) {
    Result(c.(state := NotDefined, rxNew := false), Some(AbortFrame(c.index, c.sub, AB_TIMEOUT)), TimedOut, AB_TIMEOUT, 0)
  }

  function SendAbort(c: Client, abort: uint32): (r: Result) {
    Result(c.(state := NotDefined, rxNew := false), Some(AbortFrame(c.index, c.sub, abort)), ClientAbort, abort, 0)
  }

  function DownloadTx(c: Client, abort: uint32): (r: Result) {
    match c.state
    case Aborting => SendAbort(c, abort)
    case DownloadRequest => SendDownloadSegment(c, abort)
    case BlDownloadInProgress => SendBlockSegment(c, abort)
    case BlDownloadCrc => SendBlockEnd(c, abort)
    case _ => Result(c, None, Waiting, abort, 0)
  }

  /** Seven data bytes of a segment, zero behind the end of the data. */
  function Padded7(d: seq<byte>, at: nat): (r: seq<byte>)
    ensures |r| == 7
    ensures forall i :: 0 <= i < 7 ==> r[i] == (if at + i < |d| then d[at + i] else 0)
  {
    seq(7, i requires 0 <= i < 7 => if at + i < |d| then d[at + i] else 0)
  }

  function SendDownloadSegment(c: Client, abort: uint32): (r: Result) {
    var n := Min(7, Minus16(|c.buf|, c.offset));
    var done := c.offset + n == |c.buf|;
    var command := (if c.toggle then 0x10 else 0) + 2 * (7 - n) + (if done then 1 else 0);
    var data := if c.offset + n <= |c.buf| then c.buf[c.offset..c.offset + n] else [];
    Result(c.(offset := c.offset + n, state := DownloadResponse), Some(Blit(ZERO_FRAME, 1, data)[0 := command]), Waiting, abort, 0)
  }

  /** Segment number k of a block that starts at byte `from` of the data. */
  function Segment(d: seq<byte>, from: nat, k: byte): (f: Frame)
    requires 0 < k < 0x80
  {
    [if from + 7 * (k as int) >= |d| then k + 0x80 else k] + Padded7(d, from + 7 * (k as int - 1))
  }

  function SendBlockSegment(c: Client, abort: uint32): (r: Result) {
    var k := (c.block.seqno + 1) % 0x100;
    var done := c.offset + 7 >= |c.buf|;
    var unused := if done && c.offset <= |c.buf| then c.offset + 7 - |c.buf| else if done then 7 else 0;
    var full := k >= c.block.size;
    var c1 := c.(offset := c.offset + 7, timer := 0,
                 block := c.block.(seqno := k, unused := unused, size := if done then k else c.block.size),
                 state := if full || done then BlDownloadAck else BlDownloadInProgress);
    var f: Frame := [if done && k < 0x80 then k + 0x80 else k] + Padded7(c.buf, c.offset);
    Result(c1, Some(f), if full || done then Waiting else DownloadInProgress, abort, 0)
  }

  /** The end of a block download: unused bytes of the last segment and the CRC. */
  function EndFrame(unused: SegmentLength, crc: uint16): (f: Frame) {
    ZERO_FRAME[0 := 0xC1 + 4 * unused][1 := crc % 0x100][2 := crc / 0x100]
  }

  lemma EndFrameFields(unused: SegmentLength, crc: uint16)
    ensures var f := EndFrame(unused, crc);
            && Specifier(f[0]) == 6 && Bit0(f[0]) && BlockUnused(f[0]) == unused && FromLe16(f[1], f[2]) == crc
            && f[0] != ABORT
  {
  }

  function SendBlockEnd(c: Client, abort: uint32): (r: Result) {
    Result(c.(timer := 0, state := BlDownloadCrcAck), Some(EndFrame(c.block.unused, Checksum(c.buf))), Waiting, abort, 0)
  }

  // ------------------------------------------------------------------------ upload

  function UploadRx(c: Client): (r: Rx) {
    var scs := Specifier(c.rx[0]);
    match c.state
    case UploadInitiated => if scs != 2 then Fail(c, AB_CMD) else InitiateRx(c)
    case UploadResponse => if scs != 0 then Fail(c, AB_CMD) else SegmentRx(c)
    case BlUploadInitiate =>
      if scs == 6 then BlockInitiateRx(c)
      else if scs == 2 then InitiateRx(c)
      else Fail(c, AB_CMD)
    case BlUploadInProgress => Go(c)
    case BlUploadSubEnd => SubEndRx(c)
    case BlUploadCrc => if scs != 6 then Fail(c, AB_GENERAL) else CrcRx(c)
    case _ => Fail(c, AB_CMD)
  }

  /** The answer to an upload request: all data at once, or the start of segments. */
  function InitiateRx(c: Client): (r: Rx) {
    if Bit1(c.rx[0]) then
      var n := if Bit0(c.rx[0]) then 4 - ExpeditedUnused(c.rx[0]) else 4;
      Done(c.(buf := Blit(c.buf, 0, c.rx[4..4 + n])), n)
    else Go(c.(offset := 0, toggle := false, state := UploadRequest))
  }

  function SegmentRx(c: Client): (r: Rx) {
    var n := 7 - SegmentUnused(c.rx[0]);
    if (Toggle(c.rx[0]) == 1) == c.toggle then Fail(c, AB_TOGGLE_BIT)
    else if c.offset + n > |c.buf| then Fail(c, AB_OUT_OF_MEM)
    else
      var c1 := c.(buf := Blit(c.buf, c.offset, c.rx[1..1 + n]), offset := c.offset + n);
      if Bit0(c.rx[0]) then Done(c1, c1.offset) else Go(c1.(state := UploadRequest))
  }

  function BlockInitiateRx(c: Client): (r: Rx) {
    var size := if Bit1(c.rx[0]) then FrameValue(c.rx) else 0;
    var c1 := c.(state := BlUploadInitiateAck,
                 block := c.block.(crcOn := Bit2(c.rx[0]), dataSize := size, received := 0));
    if size > |c.buf| then Fail(c1, AB_OUT_OF_MEM)
    else if FrameIndex(c.rx) != c.index || c.rx[3] != c.sub then Fail(c1, AB_PRAM_INCOMPAT)
    else Go(c1)
  }

  /** A sub-block has ended: with the last segment, a full buffer, a full block or a gap. */
  function SubEndRx(c: Client): (r: Rx) {
    if c.rx[0] >= 0x80 then
      if c.block.dataSize != 0 && c.block.dataSize > c.block.received then Fail(c, AB_TYPE_MISMATCH)
      else Go(c.(state := BlUploadAckLast))
    else if c.block.received >= |c.buf| then Fail(c, AB_OUT_OF_MEM)
    else Go(c.(state := BlUploadAck))
  }

  function CrcRx(c: Client): (r: Rx) {
    var n: nat := (c.block.received - BlockUnused(c.rx[0])) % 0x1_0000_0000;
    var c1 := c.(block := c.block.(received := n), state := BlUploadEnd);
    if c.block.crcOn && FromLe16(c.rx[1], c.rx[2]) != Checksum(Take(c.buf, n)) then Fail(c1, AB_CRC)
    else Go(c1)
  }

  function Upload(c: Client, dt: uint16, timeout: uint16, txFull: bool): (r: Result) {
    if !c.rxNew then UploadTimed(c, dt, timeout, txFull, 0)
    else if c.rx[0] == ABORT then
      Result(c.(state := NotDefined, rxNew := false), None, ServerAbort, FrameValue(c.rx), 0)
    else
      var x := UploadRx(c);
      if x.done then Result(x.c, None, Ok, 0, x.length)
      else UploadTimed(x.c.(timer := 0, rxNew := false), dt, timeout, txFull, x.abort)
  }

  function UploadTimed(c: Client, dt: uint16, timeout: uint16, txFull: bool, abort: uint32): (r: Result) {
    var c1 := if c.timer < timeout then Tick(c, dt) else c;
    if c1.timer >= timeout then TimeOut(c1)
    else
      var c2 := if c1.block.timer >= timeout / 2 then c1.(state := BlUploadAck) else c1;
      if txFull then Result(c2, None, TxFull, abort, 0)
      else UploadTx(c2, abort)
  }

  function Tick(c: Client, dt: uint16): (r: Client) {
    var c1 := c.(timer := Add16(c.timer, dt));
    if c.state.BlUploadInProgress? then c1.(block := c.block.(timer := Add16(c.block.timer, dt))) else c1
  }

  function UploadTx(c: Client, abort: uint32): (r: Result) {
    match c.state
    case Aborting => SendAbort(c, abort)
    case UploadRequest =>
      Result(c.(state := UploadResponse, toggle := !c.toggle),
             Some(ZERO_FRAME[0 := if c.toggle then 0x70 else 0x60]), Waiting, abort, 0)
    case BlUploadInitiateAck =>
      Result(c.(state := BlUploadInProgress, block := c.block.(timer := 0, seqno := 0)),
             Some(ZERO_FRAME[0 := 0xA3]), UploadInProgress, abort, 0)
    case BlUploadAckLast =>
      Result(c.(state := BlUploadCrc, block := c.block.(timer := 0, seqno := 0)),
             Some(Confirm(c.block.seqno, c.block.size)), Waiting, abort, 0)
    case BlUploadAck => SendConfirm(c, abort)
    case BlUploadEnd =>
      Result(c.(state := NotDefined), Some(ZERO_FRAME[0 := 0xA1]), Ok, abort, c.block.received)
    case BlUploadInProgress => Result(c, None, UploadInProgress, abort, 0)
    case _ => Result(c, None, Waiting, abort, 0)
  }

  /** The confirmation of a block: segments received in order, size of the next block. */
  function Confirm(seqno: byte, size: byte): (f: Frame) {
    ZERO_FRAME[0 := 0xA2][1 := seqno][2 := size]
  }

  /** The size of the next block, for n bytes still missing. */
  function BlockSizeFor(n: nat): (b: byte) {
    if n / 7 >= BLOCK_SIZE_MAX then BLOCK_SIZE_MAX else if n % 7 == 0 then n / 7 else n / 7 + 1
  }

  function SendConfirm(c: Client, abort: uint32): (r: Result) {
    var b := c.block;
    if b.dataSize != 0 && b.received >= b.dataSize then
      Result(c.(block := b.(size := 0), state := BlUploadCrc), Some(Confirm(b.seqno, 0)), Waiting, abort, 0)
    else
      var size := if b.dataSize != 0 then BlockSizeFor(b.dataSize - b.received) else b.size;
      Result(c.(block := b.(size := size, seqno := 0, timer := 0), state := BlUploadInProgress),
             Some(Confirm(b.seqno, size)), UploadInProgress, abort, 0)
  }
}
