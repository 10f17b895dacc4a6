/**
  The SDO server of stack/CO_SDO.c: one receive call and one process call as
  functions from server state to server state. The calls to the application's OD
  functions are inputs: each process call is given the answers such a function
  would return.
 */
module SdoServer {
  import opened Can
  import opened SdoTypes
  import Crc
  import Od

  datatype State =
    | Idle
    | DownloadInitiate | DownloadSegmented
    | DownloadBlInitiate | DownloadBlSubblock | DownloadBlSubResp | DownloadBlEnd
    | UploadInitiate | UploadSegmented
    | UploadBlInitiate | UploadBlInitiate2 | UploadBlSubblock | UploadBlEnd

  type BufferSize = n: int | 7 <= n < 0x1_0000 witness 7

  /** What is fixed at start-up, and the Object Dictionary. */
  datatype Node = Node(size: BufferSize, bigEndian: bool, od: Od.Dictionary)

  /** The object in transfer; `stored` says that it is not a domain. */
  datatype Arg = Arg(
    index: uint16, sub: byte, entry: uint16, stored: bool, access: Od.Access,
    length: uint16, total: uint32, last: bool)

  datatype Server = Server(
    node: Node, state: State, rxNew: bool, rx: Frame, tx: Frame, timer: uint16, arg: Arg,
    buf: seq<byte>, at: uint16, sequence: byte, blksize: byte,
    crc: uint16, crcOn: bool, end: bool, lastLen: SegmentLength)

  /** What an OD function answers to a read: an abort code, or data with its flags. */
  datatype ReadReply = ReadReply(abort: uint32, data: seq<byte>, last: bool, total: uint32)

  /** One process call; a call needs at most one read and two writes. */
  datatype Input = Input(
    operational: bool, txFull: bool, dt: uint16, timeout: uint16,
    read: ReadReply, write1: uint32, write2: uint32)

  datatype Result = Result(s: Server, sent: Option<Frame>, ret: int)

  datatype Access = Access(s: Server, abort: uint32)

  // ------------------------------------------------------------------ byte order

  /** A value in the byte order of the processor, from its order on the wire, and back. */
  function Native(b: seq<byte>, swap: bool): (r: seq<byte>)
    ensures |r| == |b|
  {
    if swap then Reverse(b) else b
  }

  predicate Swaps(s: Server) {
    s.node.bigEndian && s.arg.access.multibyte
  }

  /** Bytes from..from+n of b brought into the other order. */
  function SwapAt(b: seq<byte>, from: nat, n: nat, swap: bool): (r: seq<byte>)
    ensures |r| == |b|
  {
    if swap && from + n <= |b| then Blit(b, from, Reverse(b[from..from + n])) else b
  }

  // ------------------------------------------------------------------ reception

  /** A frame of the client arrives. */
  function Receive(s: Server, f: Frame): (r: Server) {
    if s.rxNew then s
    else if !s.state.DownloadBlSubblock? then s.(rx := f, rxNew := true)
    else ReceiveSegment(s, f)
  }

  /** A block segment goes straight into the buffer if it is the next one. */
  function ReceiveSegment(s: Server, f: Frame): (r: Server) {
    var s1 := s.(rx := s.rx[0 := f[0]], timer := 0);
    var seqno := Seqno(f[0]);
    if seqno == s.sequence + 1 then AcceptSegment(s1, f)
    else if seqno == s.sequence || s.sequence == 0 then s1
    else s1.(state := DownloadBlSubResp, rxNew := true)
  }

  /** The sub-block ends with a full buffer, the last segment of all or the last of the block. */
  function AcceptSegment(s: Server, f: Frame): (r: Server)
    requires s.sequence < 0xFF
  {
    var n := Room(s.at, s.node.size);
    var s1 := s.(sequence := s.sequence + 1, buf := Blit(s.buf, s.at, f[1..1 + n]), at := (s.at + n) % 0x1_0000);
    if s1.at >= s.node.size || f[0] >= 0x80 || s1.sequence >= s.blksize
    then s1.(state := DownloadBlSubResp, rxNew := true)
    else s1
  }

  // ---------------------------------------------------------- object dictionary

  /** Everything but the dictionary, the contents of the buffer and the argument of the transfer stays. */
  predicate SameTransfer(s: Server, r: Server) {
    && r.node.size == s.node.size && |r.buf| == |s.buf| && r.state == s.state && r.rxNew == s.rxNew && r.rx == s.rx && r.tx == s.tx
    && r.at == s.at && r.sequence == s.sequence && r.blksize == s.blksize && r.end == s.end && r.timer == s.timer
  }

  /** The object a request names. */
  datatype Found = Found(arg: Arg) | Missing(entry: uint16, abort: uint32)

  function Lookup(n: Node, index: uint16, sub: byte): (r: Found)
    ensures r.Found? ==>
      && r.arg.index == index && r.arg.sub == sub && r.arg.last
      && Od.HasSlot(n.od, r.arg.entry, sub) && n.od[r.arg.entry].index == index
      && r.arg.stored == Od.Get(n.od, r.arg.entry, sub).Some?
      && (r.arg.stored ==> r.arg.length == |Od.Get(n.od, r.arg.entry, sub).value|)
      && (!r.arg.stored ==> r.arg.length == n.size)
      && r.arg.total == (if r.arg.stored then r.arg.length else 0)
  {
    var e := Od.Find(n.od, index);
    if e == Od.NOT_FOUND then Missing(e, AB_NOT_EXIST)
    else
      var o := n.od[e].obj;
      if !Od.HasSub(o, sub) then Missing(e, AB_SUB_UNKNOWN)
      else
        var stored := Od.Storage(o, sub).Some?;
        var length := Od.Length(o, sub, n.size);
        Found(Arg(index, sub, e, stored, Od.AccessOf(o, index, sub), length, if stored then length else 0, true))
  }

  function InitTransfer(s: Server, index: uint16, sub: byte): (r: Access)
    ensures SameTransfer(s, r.s) && r.s.buf == s.buf && r.s.node == s.node
    ensures r.abort == 0 ==> r.s.arg.length <= s.node.size
  {
    match Lookup(s.node, index, sub)
    case Missing(e, abort) => Access(s.(arg := s.arg.(index := index, sub := sub, entry := e)), abort)
    case Found(arg) => Access(s.(arg := arg), if arg.length > s.node.size then AB_DEVICE_INCOMPAT else 0)
  }

  predicate HasFunction(s: Server) {
    s.arg.entry < |s.node.od| && s.node.od[s.arg.entry].hasFunction
  }

  /** The stored bytes of the object in transfer. */
  function Stored(s: Server): (d: seq<byte>) {
    if Od.HasSlot(s.node.od, s.arg.entry, s.arg.sub) && Od.Get(s.node.od, s.arg.entry, s.arg.sub).Some?
    then Od.Get(s.node.od, s.arg.entry, s.arg.sub).value
    else []
  }

  function ReadOd(s: Server, from: nat, r: ReadReply): (a: Access)
    ensures SameTransfer(s, a.s) && a.s.node == s.node
    ensures a.s.arg.stored == s.arg.stored && a.s.arg.entry == s.arg.entry && a.s.arg.sub == s.arg.sub
    ensures a.abort == 0 ==> (a.s.arg.length == |r.data| && 0 < |r.data| <= s.node.size)
                             || (s.arg.stored && a.s.arg == s.arg)
  {
    if !s.arg.access.readable then Access(s, AB_WRITEONLY)
    else if !s.arg.stored && !HasFunction(s) then Access(s, AB_DEVICE_INCOMPAT)
    else
      var s1 := if s.arg.stored then s.(buf := Blit(s.buf, from, Stored(s))) else s;
      if !HasFunction(s) then Access(AfterRead(s1, from), 0)
      else if r.abort != 0 then Access(s1, r.abort)
      else if |r.data| == 0 || |r.data| > s.node.size then Access(s1, AB_DEVICE_INCOMPAT)
      else
        var s2 := s1.(buf := Blit(s1.buf, from, r.data), arg := s.arg.(length := |r.data|, last := r.last, total := r.total));
        Access(AfterRead(s2, from), 0)
  }

  function AfterRead(s: Server, from: nat): (r: Server) {
    s.(buf := SwapAt(s.buf, from, s.arg.length, Swaps(s)))
  }

  function WriteOd(s: Server, n: uint16, abort: uint32): (a: Access)
    ensures SameTransfer(s, a.s)
  {
    if !s.arg.access.writeable then Access(s, AB_READONLY)
    else if s.arg.stored && s.arg.length != n then Access(s, AB_TYPE_MISMATCH)
    else
      var s1 := s.(arg := s.arg.(length := n), buf := SwapAt(s.buf, 0, n, Swaps(s)));
      if HasFunction(s) && abort != 0 then Access(s1, abort)
      else Access(Store(s1, n), 0)
  }

  /** Copy the buffer into the dictionary; 0x1003,0 is writeable from the network only. */
  function Store(s: Server, n: uint16): (r: Server) {
    if s.arg.stored && !(s.arg.index == 0x1003 && s.arg.sub == 0) && Od.Fits(s.node.od, s.arg.entry, s.arg.sub, Take(s.buf, n))
    then s.(node := s.node.(od := Od.Set(s.node.od, s.arg.entry, s.arg.sub, Take(s.buf, n))))
    else s
  }

  // ------------------------------------------------------------------ processing

  function Abort(s: Server, code: uint32): (r: Result) {
    var f := AbortFrame(s.arg.index, s.arg.sub, code);
    Result(s.(tx := f, state := Idle, rxNew := false), Some(f), -1)
  }

  /** Free the receive buffer and send the prepared answer. */
  function Reply(s: Server): (r: Result) {
    Result(s.(rxNew := false), Some(s.tx), if s.state.Idle? then 0 else 1)
  }

  function Process(s: Server, i: Input): (r: Result) {
    if s.state.Idle? && !s.rxNew then Result(s, None, 0)
    else if !i.operational then Result(s.(state := Idle, rxNew := false), None, 0)
    else if !i.txFull && (s.rxNew || s.state.UploadBlSubblock?) then Begin(s, i)
    else Timed(s, i, Idle)
  }

  function Begin(s: Server, i: Input): (r: Result) {
    var s1 := s.(tx := ZERO_FRAME, timer := if s.state.UploadBlSubblock? then s.timer else 0);
    if s.rxNew && s.rx[0] == ABORT then Result(s1.(state := Idle, rxNew := false), None, -1)
    else if !s.state.Idle? then Timed(s1, i, s.state)
    else Start(s1, i)
  }

  /** A request to an idle server. */
  function Start(s: Server, i: Input): (r: Result) {
    var ccs := Specifier(s.rx[0]);
    if ccs != 1 && ccs != 2 && ccs != 6 && ccs != 5 then Abort(s, AB_CMD)
    else
      var a := InitTransfer(s, FrameIndex(s.rx), s.rx[3]);
      if a.abort != 0 then Abort(a.s, a.abort)
      else if ccs == 1 || ccs == 6 then
        if !a.s.arg.access.writeable then Abort(a.s, AB_READONLY)
        else Timed(a.s, i, if ccs == 1 then DownloadInitiate else DownloadBlInitiate)
      else StartUpload(a.s, i, ccs == 5)
  }

  /** The object is read; a block upload is only worth it above the client's threshold. */
  function StartUpload(s: Server, i: Input, block: bool): (r: Result) {
    var b := ReadOd(s, 0, i.read);
    if b.abort != 0 then Abort(b.s, b.abort)
    else Timed(b.s, i, if block && b.s.arg.length > s.rx[5] then UploadBlInitiate else UploadInitiate)
  }

  /** Advance the timer, then act unless there is nothing to do or the transfer timed out. */
  function Timed(s: Server, i: Input, todo: State): (r: Result) {
    var s1 := if s.timer < i.timeout then s.(timer := Add16(s.timer, i.dt)) else s;
    if s1.timer >= i.timeout then
      if s.state.DownloadBlSubblock? && s.sequence != 0 && !i.txFull
      then SubblockResponse(s1, i, false)
      else Abort(s1, AB_TIMEOUT)
    else if todo.Idle? then Result(s1, None, 0)
    else Act(s1, i, todo)
  }

  function Act(s: Server, i: Input, todo: State): (r: Result)
    requires !todo.Idle?
  {
    match todo
    case DownloadInitiate => InitiateDownload(s, i)
    case DownloadSegmented => SegmentDownload(s, i)
    case DownloadBlInitiate => InitiateBlockDownload(s)
    case DownloadBlSubblock => Result(s.(rxNew := false), None, if s.state.Idle? then 0 else 1)
    case DownloadBlSubResp => SubblockResponse(s, i, s.rx[0] >= 0x80)
    case DownloadBlEnd => EndBlockDownload(s, i)
    case UploadInitiate => InitiateUpload(s)
    case UploadSegmented => SegmentUpload(s, i)
    case UploadBlInitiate => InitiateBlockUpload(s)
    case UploadBlInitiate2 => StartBlockUpload(s)
    case UploadBlSubblock => SubblockUpload(s, i)
    case UploadBlEnd => EndBlockUpload(s)
  }

  // -------------------------------------------------------------------- download

  function Echo(s: Server, command: byte): (r: Server) {
    s.(tx := s.tx[0 := command][1 := s.rx[1]][2 := s.rx[2]][3 := s.rx[3]])
  }

  function InitiateDownload(s: Server, i: Input): (r: Result) {
    var s1 := Echo(s, 0x60);
    if Bit1(s.rx[0]) then Expedited(s1, i) else OpenSegments(s1)
  }

  /** All the data is in the request. */
  function Expedited(s: Server, i: Input): (r: Result) {
    var n := if Bit0(s.rx[0]) then 4 - ExpeditedUnused(s.rx[0]) else s.arg.length;
    var a := WriteOd(s.(buf := Blit(s.buf, 0, s.rx[4..8])), n, i.write1);
    if a.abort != 0 then Abort(a.s, a.abort) else Reply(a.s.(state := Idle))
  }

  /** The data will follow in segments; its size is checked if it is given. */
  function OpenSegments(s: Server): (r: Result) {
    var s1 := if Bit0(s.rx[0]) then s.(arg := s.arg.(total := FrameValue(s.rx))) else s;
    if Bit0(s.rx[0]) && s1.arg.total != s.arg.length && s.arg.stored then Abort(s1, AB_TYPE_MISMATCH)
    else Reply(s1.(at := 0, sequence := 0, state := DownloadSegmented))
  }

  function SegmentDownload(s: Server, i: Input): (r: Result) {
    if Specifier(s.rx[0]) != 0 then Abort(s, AB_CMD)
    else if Toggle(s.rx[0]) != s.sequence then Abort(s, AB_TOGGLE_BIT)
    else
      var n := 7 - SegmentUnused(s.rx[0]);
      if s.at + n > s.arg.length then
        if s.arg.stored then Abort(s, AB_DATA_LONG)
        else
          var a := WriteOd(s.(arg := s.arg.(last := false)), s.at, i.write1);
          if a.abort != 0 then Abort(a.s, a.abort)
          else TakeSegment(a.s.(arg := a.s.arg.(length := s.node.size), at := 0), n, i.write2)
      else TakeSegment(s, n, i.write1)
  }

  /** Put the n bytes of a segment into the buffer; the last segment writes the object. */
  function TakeSegment(s: Server, n: nat, write: uint32): (r: Result)
    requires n <= 7
  {
    var s1 := s.(buf := Blit(s.buf, s.at, s.rx[1..1 + n]), at := (s.at + n) % 0x1_0000);
    if Bit0(s.rx[0]) then LastSegment(s1, write) else AnswerSegment(s1)
  }

  function LastSegment(s: Server, write: uint32): (r: Result) {
    var a := WriteOd(s.(arg := s.arg.(last := true)), s.at, write);
    if a.abort != 0 then Abort(a.s, a.abort) else AnswerSegment(a.s.(state := Idle))
  }

  function AnswerSegment(s: Server): (r: Result) {
    Reply(s.(tx := s.tx[0 := if s.sequence != 0 then 0x30 else 0x20], sequence := if s.sequence != 0 then 0 else 1))
  }

  /** The number of segments that fit n free bytes. */
  function Segments(n: int): (b: byte) {
    if n > 7 * 127 then 127 else if n < 0 then 0 else n / 7
  }

  function InitiateBlockDownload(s: Server): (r: Result) {
    if Specifier(s.rx[0]) != 6 || Bit0(s.rx[0]) then Abort(s, AB_CMD) else OpenBlock(Offer(s))
  }

  /** The block size and the use of a CRC are settled. */
  function Offer(s: Server): (r: Server) {
    var e := Echo(s, 0xA4);
    e.(tx := e.tx[4 := Segments(s.node.size)], blksize := Segments(s.node.size), crcOn := Bit2(s.rx[0]), crc := 0)
  }

  function OpenBlock(s: Server): (r: Result) {
    var s1 := if Bit1(s.rx[0]) then s.(arg := s.arg.(total := FrameValue(s.rx))) else s;
    if Bit1(s.rx[0]) && s1.arg.total != s.arg.length && s.arg.stored then Abort(s1, AB_TYPE_MISMATCH)
    else Reply(s1.(at := 0, sequence := 0, state := DownloadBlSubblock))
  }

  /** Acknowledge the segments of a sub-block received in order; `isLast` if the last segment of all was seen. */
  function SubblockResponse(s: Server, i: Input, isLast: bool): (r: Result) {
    var s1 := s.(tx := s.tx[0 := 0xA2][1 := s.sequence], sequence := 0);
    if !s.arg.stored && s.at != 0 && !isLast then FlushSubblock(s1, i) else NextSubblock(s1, isLast)
  }

  /** Hand the buffer to a domain to make room. */
  function FlushSubblock(s: Server, i: Input): (r: Result) {
    var s1 := s.(crc := if s.crcOn then Crc.CrcOf(Take(s.buf, s.at), s.crc) else s.crc, arg := s.arg.(last := false));
    var a := WriteOd(s1, s.at, i.write1);
    if a.abort != 0 then Abort(a.s, a.abort)
    else NextSubblock(a.s.(arg := a.s.arg.(length := s.node.size), at := 0), false)
  }

  function NextSubblock(s: Server, isLast: bool): (r: Result) {
    var s1 := s.(blksize := Segments(s.node.size - s.at), tx := s.tx[2 := Segments(s.node.size - s.at)]);
    if isLast then Reply(s1.(state := DownloadBlEnd))
    else if s.at >= s.node.size then Abort(s1, AB_DEVICE_INCOMPAT)
    else Reply(s1.(state := DownloadBlSubblock))
  }

  function EndBlockDownload(s: Server, i: Input): (r: Result) {
    if Specifier(s.rx[0]) != 6 || !Bit0(s.rx[0]) then Abort(s, AB_CMD)
    else CheckBlock(s.(at := Minus16(s.at, BlockUnused(s.rx[0]))), i)
  }

  function CheckBlock(s: Server, i: Input): (r: Result) {
    var s1 := s.(crc := if s.crcOn then Crc.CrcOf(Take(s.buf, s.at), s.crc) else s.crc);
    if s.crcOn && s1.crc != FromLe16(s.rx[1], s.rx[2]) then Abort(s1, AB_CRC) else CommitBlock(s1, i)
  }

  function CommitBlock(s: Server, i: Input): (r: Result) {
    var a := WriteOd(s.(arg := s.arg.(last := true)), s.at, i.write1);
    if a.abort != 0 then Abort(a.s, a.abort) else Reply(a.s.(tx := a.s.tx[0 := 0xA1], state := Idle))
  }

  // ---------------------------------------------------------------------- upload

  function InitiateUpload(s: Server): (r: Result) {
    if s.arg.length <= 4 then ExpeditedUpload(s) else OpenUpload(s)
  }

  /** Up to four bytes fit the answer. */
  function ExpeditedUpload(s: Server): (r: Result)
    requires s.arg.length <= 4
  {
    var e := Echo(s, 0x43 + 4 * (4 - s.arg.length));
    Reply(e.(tx := Blit(e.tx, 4, Take(s.buf, s.arg.length)), state := Idle))
  }

  /** More will be asked for in segments; the size is announced if it is known. */
  function OpenUpload(s: Server): (r: Result) {
    var e := Echo(s, if s.arg.total != 0 then 0x41 else 0x40);
    Reply(e.(tx := if s.arg.total != 0 then Blit(e.tx, 4, Le32(s.arg.total)) else e.tx,
             at := 0, sequence := 0, state := UploadSegmented))
  }

  /** Bytes 1..7 of the answer are the next n bytes of the buffer. */
  function FillSegment(s: Server, n: nat): (r: Server)
    requires n <= 7
  {
    var d := if s.at + n <= |s.buf| then s.buf[s.at..s.at + n] else [];
    s.(tx := Blit(s.tx, 1, d), at := (s.at + n) % 0x1_0000)
  }

  function SegmentUpload(s: Server, i: Input): (r: Result) {
    if Specifier(s.rx[0]) != 3 then Abort(s, AB_CMD)
    else if Toggle(s.rx[0]) != s.sequence then Abort(s, AB_TOGGLE_BIT)
    else if !s.arg.stored && Minus16(s.arg.length, s.at) < 7 && !s.arg.last then RefillSegment(s, i)
    else SendSegment(s)
  }

  /** The few bytes left of a domain move to the front, and more is read behind them. */
  function RefillSegment(s: Server, i: Input): (r: Result)
    requires !s.arg.stored
  {
    var n := Minus16(s.arg.length, s.at);
    var a := Refill(s.(buf := Blit(s.buf, 0, Take(s.buf[Min(s.at, |s.buf|)..], n))), n, i.read);
    if a.abort != 0 then Abort(a.s, a.abort) else SendSegment(a.s.(at := 0))
  }

  /** Ask the OD function for more data behind the n bytes already at the start of the buffer. */
  function Refill(s: Server, n: nat, r: ReadReply): (a: Access)
    requires !s.arg.stored
    ensures SameTransfer(s, a.s) && a.s.node == s.node
    ensures a.abort == 0 && n + |r.data| <= s.node.size ==> n < a.s.arg.length == n + |r.data|
  {
    var whole := if Od.HasSlot(s.node.od, s.arg.entry, s.arg.sub) then Od.Length(s.node.od[s.arg.entry].obj, s.arg.sub, s.node.size) else 0;
    var a := ReadOd(s.(arg := s.arg.(length := Minus16(whole, n))), n, r);
    if a.abort != 0 then a else Access(a.s.(arg := a.s.arg.(length := (a.s.arg.length + n) % 0x1_0000)), 0)
  }

  function SendSegment(s: Server): (r: Result) {
    var n := Min(7, Minus16(s.arg.length, s.at));
    Reply(Labelled(FillSegment(s, n), n))
  }

  /** The segment just filled gets its command byte; the last one of all ends the transfer. */
  function Labelled(s: Server, n: SegmentLength): (r: Server) {
    var done := s.at == s.arg.length && s.arg.last;
    var command := (if s.sequence != 0 then 0x10 else 0) + 2 * (7 - n) + (if done then 1 else 0);
    s.(tx := s.tx[0 := command], sequence := if s.sequence != 0 then 0 else 1, state := if done then Idle else s.state)
  }

  function InitiateBlockUpload(s: Server): (r: Result) {
    AnnounceBlock(Prepare(s))
  }

  /** The CRC of the data and the block size the client asks for. */
  function Prepare(s: Server): (r: Server) {
    var on := Bit2(s.rx[0]);
    Echo(s, if s.arg.total != 0 then 0xC6 else 0xC4)
    .(crcOn := on, crc := if on then Checksum(Take(s.buf, s.arg.length)) else 0, blksize := s.rx[4])
  }

  function AnnounceBlock(s: Server): (r: Result) {
    if Subcommand(s.rx[0]) != 0 then Abort(s, AB_CMD)
    else if s.blksize < 1 || s.blksize > 127 || (7 * s.blksize > s.arg.length && !s.arg.last) then Abort(s, AB_BLOCK_SIZE)
    else Reply(s.(tx := if s.arg.total != 0 then Blit(s.tx, 4, Le32(s.arg.total)) else s.tx, state := UploadBlInitiate2))
  }

  function StartBlockUpload(s: Server): (r: Result) {
    if Specifier(s.rx[0]) != 5 || Subcommand(s.rx[0]) != 3 then Abort(s, AB_CMD)
    else SendBlockSegment(s.(at := 0, sequence := 0, end := false, rxNew := false, state := UploadBlSubblock))
  }

  function SubblockUpload(s: Server, i: Input): (r: Result) {
    if !s.rxNew then SendBlockSegment(s)
    else if Specifier(s.rx[0]) != 5 || Subcommand(s.rx[0]) != 2 then Abort(s, AB_CMD)
    else if s.rx[1] > s.sequence then Abort(s, AB_SEQ_NUM)
    else if s.end && s.rx[1] == s.blksize then EndUpload(s)
    else Confirmed(Shift(s, s.rx[1]), i)
  }

  /** All is confirmed: the unused bytes of the last segment and the CRC. */
  function EndUpload(s: Server): (r: Result) {
    var f := if s.crcOn then s.tx[1 := s.crc % 0x100][2 := s.crc / 0x100] else s.tx;
    Reply(s.(tx := f[0 := 0xC1 + 4 * (7 - s.lastLen)], state := UploadBlEnd))
  }

  /** Drop the k acknowledged segments from the front of the buffer. */
  function Shift(s: Server, k: nat): (r: Server) {
    var n: nat := 7 * k;
    var rest := if n <= s.arg.length <= |s.buf| then s.buf[n..s.arg.length] else [];
    s.(buf := Blit(s.buf, 0, rest), arg := s.arg.(length := Minus16(s.arg.length, n)))
  }

  /** The next sub-block, after a refill if a domain has too little buffered. */
  function Confirmed(s: Server, i: Input): (r: Result) {
    var s1 := s.(blksize := s.rx[2]);
    if !s.arg.stored && s.arg.length < 7 * s1.blksize && !s.arg.last then
      var n := s.arg.length;
      var a := Refill(s1, n, i.read);
      if a.abort != 0 then Abort(a.s, a.abort)
      else
        var more := if n <= a.s.arg.length <= |a.s.buf| then a.s.buf[n..a.s.arg.length] else [];
        NextBlock(a.s.(crc := if s.crcOn then Crc.CrcOf(more, s.crc) else s.crc))
    else NextBlock(s1)
  }

  function NextBlock(s: Server): (r: Result) {
    if 7 * s.blksize > s.arg.length && !s.arg.last then Abort(s, AB_BLOCK_SIZE)
    else SendBlockSegment(s.(at := 0, sequence := 0, end := false, rxNew := false))
  }

  /** Send the next segment of the block unless all were sent. */
  function SendBlockSegment(s: Server): (r: Result) {
    if s.sequence == s.blksize || s.end then Result(s, None, 1)
    else
      var n := Min(7, Minus16(s.arg.length, s.at));
      var s1 := Numbered(FillSegment(s.(timer := 0), n), n);
      Result(s1, Some(s1.tx), 1)
  }

  /** The segment just filled gets its number, and the mark of the last one. */
  function Numbered(s: Server, n: SegmentLength): (r: Server) {
    var q := (s.sequence + 1) % 0x100;
    var done := s.at == s.arg.length && s.arg.last;
    var s1 := s.(tx := s.tx[0 := if done && q < 0x80 then q + 0x80 else q], sequence := q);
    if done then s1.(lastLen := n, blksize := q, end := true) else s1
  }

  function EndBlockUpload(s: Server): (r: Result) {
    if Specifier(s.rx[0]) != 5 || !Bit0(s.rx[0]) then Abort(s, AB_CMD)
    else Result(s.(state := Idle, rxNew := false), None, 0)
  }
}
