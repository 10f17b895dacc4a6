/**
  The SDO server of stack/CO_SDO.c as an object whose fields and data buffer
  are updated in place, call by call, and loop by loop. Every method is proved
  to take the object from one state of module SdoServer to the next.
 */
module SdoServerEndpoint {
  import opened Can
  import opened SdoTypes
  import Crc
  import Od
  import opened S = SdoServer
  import opened SdoServerSafe

  /** A stretch turned round byte by byte is the stretch swapped. */
  lemma Mirrored(was: seq<byte>, now: seq<byte>, from: nat, n: nat)
    requires from + n <= |was| == |now|
    requires forall k :: from <= k < from + n ==> now[k] == was[2 * from + n - 1 - k]
    requires forall k :: 0 <= k < |was| && !(from <= k < from + n) ==> now[k] == was[k]
    ensures now == SwapAt(was, from, n, true)
  {
    var piece := was[from..from + n];
    var r := SwapAt(was, from, n, true);
    forall k | 0 <= k < |was|
      ensures now[k] == r[k]
    {
      if from <= k < from + n {
        assert r[k] == Reverse(piece)[k - from] == piece[n - 1 - (k - from)];
      }
    }
  }

  class Endpoint {
    const size: BufferSize
    const bigEndian: bool
    var od: Od.Dictionary
    var state: State
    var rxNew: bool
    var rx: Frame
    var tx: Frame
    var timer: uint16
    var arg: Arg
    const data: array<byte>
    var at: uint16
    var sequence: byte
    var blksize: byte
    var crc: uint16
    var crcOn: bool
    var end: bool
    var lastLen: SegmentLength

    ghost function View(): (s: Server)
      reads this, data
    {
      Server(Node(size, bigEndian, od), state, rxNew, rx, tx, timer, arg, data[..], at, sequence, blksize, crc, crcOn, end,
             lastLen)
    }

    ghost predicate Valid()
      reads this, data
    {
      data.Length == size && Safe(View())
    }

    constructor (size: BufferSize, bigEndian: bool, od: Od.Dictionary)
      ensures Valid() && fresh(data) && this.od == od && state.Idle? && !rxNew
      ensures this.size == size && this.bigEndian == bigEndian
    {
      this.size := size;
      this.bigEndian := bigEndian;
      this.od := od;
      state := Idle;
      rxNew := false;
      rx := ZERO_FRAME;
      tx := ZERO_FRAME;
      timer := 0;
      arg := Arg(0, 0, 0, false, Od.Access(false, false, false, false, false, false), 0, 0, true);
      data := new byte[size](_ => 0);
      at, sequence, blksize, crc, crcOn, end, lastLen := 0, 0, 0, 0, false, false, 0;
    }

    // ----------------------------------------------------------------- reception

    /** The bytes of a segment go into the buffer until it is full; `full` says so. */
    method CopySegment(f: Frame) returns (full: bool)
      requires data.Length == size && at < size
      modifies this`at, data
      ensures full == (at >= size)
      ensures at == old(at) + Room(old(at), size)
      ensures data[..] == Blit(old(data[..]), old(at), f[1..1 + Room(old(at), size)])
    {
      ghost var was, start := data[..], at;
      full := false;
      var i := 1;
      while i < 8 && !full
        invariant 1 <= i <= 8 && at == start + i - 1 <= size
        invariant full == (at >= size)
        invariant data[..] == Blit(was, start, f[1..i])
        decreases 8 - i
      {
        data[at] := f[i];
        at := at + 1;
        i := i + 1;
        full := at >= size;
      }
    }

    method Receive(f: Frame)
      requires Valid()
      modifies this, data
      ensures View() == S.Receive(old(View()), f) && Valid()
    {
      ReceiveSafe(View(), f);
      if !rxNew {
        if !state.DownloadBlSubblock? {
          rx := f;
          rxNew := true;
        } else {
          ReceiveBlock(f);
        }
      }
    }

    method ReceiveBlock(f: Frame)
      requires data.Length == size && at < size && state.DownloadBlSubblock? && !rxNew
      modifies this, data
      ensures View() == ReceiveSegment(old(View()), f)
    {
      hide Seqno, AcceptSegment;
      rx := rx[0 := f[0]];
      timer := 0;
      var seqno := Seqno(f[0]);
      if seqno == sequence + 1 {
        Accept(f);
      } else if seqno != sequence && sequence != 0 {
        state := DownloadBlSubResp;
        rxNew := true;
      }
    }

    method Accept(f: Frame)
      requires data.Length == size && at < size && sequence < 0xFF
      modifies this, data
      ensures View() == AcceptSegment(old(View()), f)
    {
      hide Blit, Room;
      sequence := sequence + 1;
      var full := CopySegment(f);
      if full || f[0] >= 0x80 || sequence >= blksize {
        state := DownloadBlSubResp;
        rxNew := true;
      }
    }

    // --------------------------------------------------------- object dictionary

    /** Copy bytes into the buffer one by one. */
    method CopyIn(from: nat, d: seq<byte>)
      requires from + |d| <= data.Length
      modifies data
      ensures data[..] == Blit(old(data[..]), from, d)
    {
      ghost var was := data[..];
      var i := 0;
      while i < |d|
        invariant 0 <= i <= |d|
        invariant data[..] == Blit(was, from, d[..i])
      {
        data[from + i] := d[i];
        i := i + 1;
      }
      assert d[..i] == d;
    }

    /** Reverse a stretch of the buffer in place, from both ends to the middle. */
    method SwapBytes(from: nat, n: nat)
      requires from + n <= data.Length
      modifies data
      ensures data[..] == SwapAt(old(data[..]), from, n, true)
    {
      ghost var was := data[..];
      var i := 0;
      while i < n / 2
        invariant 0 <= i <= n / 2
        invariant forall k :: from <= k < from + i ==> data[k] == was[2 * from + n - 1 - k]
        invariant forall k :: from + n - i <= k < from + n ==> data[k] == was[2 * from + n - 1 - k]
        invariant forall k :: from + i <= k < from + n - i ==> data[k] == was[k]
        invariant forall k :: 0 <= k < data.Length && !(from <= k < from + n) ==> data[k] == was[k]
      {
        data[from + i], data[from + n - 1 - i] := data[from + n - 1 - i], data[from + i];
        i := i + 1;
      }
      Mirrored(was, data[..], from, n);
    }

    /** Find the object and set up the argument of the transfer. */
    method BeginTransfer(index: uint16, sub: byte) returns (abort: uint32)
      modifies this`arg
      ensures Access(View(), abort) == InitTransfer(old(View()), index, sub)
      ensures abort == 0 ==> arg.length <= size && (arg.stored ==> |S.Stored(View())| == arg.length)
    {
      var e, _ := Od.FindEntry(od, index);
      if e == Od.NOT_FOUND {
        arg := arg.(index := index, sub := sub, entry := e);
        return AB_NOT_EXIST;
      }
      var o := od[e].obj;
      if sub > Od.MaxSub(o) && !Od.NoData(o) {
        arg := arg.(index := index, sub := sub, entry := e);
        return AB_SUB_UNKNOWN;
      }
      var stored := Od.Storage(o, sub).Some?;
      var length := Od.Length(o, sub, size);
      arg := Arg(index, sub, e, stored, Od.AccessOf(o, index, sub), length, if stored then length else 0, true);
      abort := if length > size then AB_DEVICE_INCOMPAT else 0;
    }

    /** Read the object into the buffer from position `from` on. */
    method Read(from: nat, r: ReadReply) returns (abort: uint32)
      requires data.Length == size
      requires arg.stored ==> from + |S.Stored(View())| <= size && from + arg.length <= size
      requires HasFunction(View()) ==> from + |r.data| <= size
      modifies this`arg, data
      ensures Access(View(), abort) == ReadOd(old(View()), from, r)
    {
      hide Blit, Reverse;
      if !arg.access.readable {
        return AB_WRITEONLY;
      }
      var called := arg.entry < |od| && od[arg.entry].hasFunction;
      if arg.stored {
        var stored := if Od.HasSlot(od, arg.entry, arg.sub) && Od.Get(od, arg.entry, arg.sub).Some?
                      then Od.Get(od, arg.entry, arg.sub).value else [];
        CopyIn(from, stored);
      } else if !called {
        return AB_DEVICE_INCOMPAT;
      }
      if called {
        if r.abort != 0 {
          return r.abort;
        }
        if |r.data| == 0 || |r.data| > size {
          return AB_DEVICE_INCOMPAT;
        }
        CopyIn(from, r.data);
        arg := arg.(length := |r.data|, last := r.last, total := r.total);
      }
      if bigEndian && arg.access.multibyte {
        SwapBytes(from, arg.length);
      }
      abort := 0;
    }

    /** Write n bytes of the buffer to the object. */
    method Write(n: uint16, reply: uint32) returns (abort: uint32)
      requires data.Length == size && n <= size
      modifies this`arg, this`od, data
      ensures Access(View(), abort) == WriteOd(old(View()), n, reply)
    {
      hide Blit, Reverse;
      if !arg.access.writeable {
        return AB_READONLY;
      }
      if arg.stored && arg.length != n {
        return AB_TYPE_MISMATCH;
      }
      arg := arg.(length := n);
      if bigEndian && arg.access.multibyte {
        SwapBytes(0, n);
      }
      if arg.entry < |od| && od[arg.entry].hasFunction && reply != 0 {
        return reply;
      }
      if arg.stored && !(arg.index == 0x1003 && arg.sub == 0) && Od.Fits(od, arg.entry, arg.sub, data[..n]) {
        od := Od.Set(od, arg.entry, arg.sub, data[..n]);
      }
      abort := 0;
    }

    // ----------------------------------------------------------------- answering

    method Fail(code: uint32) returns (sent: Option<Frame>, ret: int)
      modifies this`tx, this`state, this`rxNew
      ensures Result(View(), sent, ret) == Abort(old(View()), code)
    {
      hide AbortFrame;
      tx := AbortFrame(arg.index, arg.sub, code);
      state := Idle;
      rxNew := false;
      sent, ret := Some(tx), -1;
    }

    method Answer() returns (sent: Option<Frame>, ret: int)
      modifies this`rxNew
      ensures Result(View(), sent, ret) == Reply(old(View()))
    {
      rxNew := false;
      sent, ret := Some(tx), if state.Idle? then 0 else 1;
    }

    /** The answer names the object of the request. */
    method DoEcho(command: byte)
      modifies this`tx
      ensures View() == Echo(old(View()), command)
    {
      tx := tx[0 := command][1 := rx[1]][2 := rx[2]][3 := rx[3]];
    }

    // ------------------------------------------------------------------ download

    method DoInitiateDownload(i: Input) returns (sent: Option<Frame>, ret: int)
      requires data.Length == size && arg.length <= size
      modifies this, data
      ensures Result(View(), sent, ret) == InitiateDownload(old(View()), i)
    {
      hide Expedited, OpenSegments, Bit1, Echo;
      DoEcho(0x60);
      assert View().rx == old(View()).rx;
      if Bit1(rx[0]) {
        sent, ret := DoExpedited(i);
      } else {
        sent, ret := DoOpenSegments();
      }
    }

    method DoExpedited(i: Input) returns (sent: Option<Frame>, ret: int)
      requires data.Length == size && arg.length <= size
      modifies this, data
      ensures Result(View(), sent, ret) == Expedited(old(View()), i)
    {
      hide WriteOd, Blit, Bit0, ExpeditedUnused, SameTransfer, AbortFrame;
      var n := if Bit0(rx[0]) then 4 - ExpeditedUnused(rx[0]) else arg.length;
      CopyIn(0, rx[4..8]);
      var abort := Write(n, i.write1);
      if abort != 0 {
        sent, ret := Fail(abort);
      } else {
        state := Idle;
        sent, ret := Answer();
      }
    }

    method DoOpenSegments() returns (sent: Option<Frame>, ret: int)
      modifies this
      ensures Result(View(), sent, ret) == OpenSegments(old(View()))
    {
      hide Bit0, FrameValue, AbortFrame;
      if Bit0(rx[0]) {
        arg := arg.(total := FrameValue(rx));
        if arg.total != arg.length && arg.stored {
          sent, ret := Fail(AB_TYPE_MISMATCH);
          return;
        }
      }
      at := 0;
      sequence := 0;
      state := DownloadSegmented;
      sent, ret := Answer();
    }

    method DoTakeSegment(n: nat, reply: uint32) returns (sent: Option<Frame>, ret: int)
      requires n <= 7 && data.Length == size && at + n <= size
      modifies this, data
      ensures Result(View(), sent, ret) == TakeSegment(old(View()), n, reply)
    {
      hide LastSegment, AnswerSegment, Blit, Bit0;
      CopyIn(at, rx[1..1 + n]);
      at := at + n;
      if Bit0(rx[0]) {
        sent, ret := DoLastSegment(reply);
      } else {
        sent, ret := DoAnswerSegment();
      }
    }

    method DoLastSegment(reply: uint32) returns (sent: Option<Frame>, ret: int)
      requires data.Length == size && at <= size
      modifies this, data
      ensures Result(View(), sent, ret) == LastSegment(old(View()), reply)
    {
      hide WriteOd, SameTransfer, AbortFrame, AnswerSegment;
      arg := arg.(last := true);
      var abort := Write(at, reply);
      if abort != 0 {
        sent, ret := Fail(abort);
      } else {
        state := Idle;
        sent, ret := DoAnswerSegment();
      }
    }

    method DoAnswerSegment() returns (sent: Option<Frame>, ret: int)
      modifies this
      ensures Result(View(), sent, ret) == AnswerSegment(old(View()))
    {
      tx := tx[0 := if sequence != 0 then 0x30 else 0x20];
      sequence := if sequence != 0 then 0 else 1;
      sent, ret := Answer();
    }

    method DoSegmentDownload(i: Input) returns (sent: Option<Frame>, ret: int)
      requires data.Length == size && at <= arg.length <= size
      modifies this, data
      ensures Result(View(), sent, ret) == SegmentDownload(old(View()), i)
    {
      hide WriteOd, TakeSegment, Specifier, Toggle, SegmentUnused, SameTransfer, AbortFrame;
      if Specifier(rx[0]) != 0 {
        sent, ret := Fail(AB_CMD);
        return;
      }
      if Toggle(rx[0]) != sequence {
        sent, ret := Fail(AB_TOGGLE_BIT);
        return;
      }
      var n := 7 - SegmentUnused(rx[0]);
      var reply := i.write1;
      if at + n > arg.length {
        if arg.stored {
          sent, ret := Fail(AB_DATA_LONG);
          return;
        }
        arg := arg.(last := false);
        var abort := Write(at, i.write1);
        if abort != 0 {
          sent, ret := Fail(abort);
          return;
        }
        arg := arg.(length := size);
        at := 0;
        reply := i.write2;
      }
      sent, ret := DoTakeSegment(n, reply);
    }

    method DoInitiateBlockDownload() returns (sent: Option<Frame>, ret: int)
      modifies this
      ensures Result(View(), sent, ret) == InitiateBlockDownload(old(View()))
    {
      hide Specifier, Bit0, OpenBlock, Offer;
      if Specifier(rx[0]) != 6 || Bit0(rx[0]) {
        sent, ret := Fail(AB_CMD);
      } else {
        DoOffer();
        sent, ret := DoOpenBlock();
      }
    }

    method DoOffer()
      modifies this`tx, this`blksize, this`crcOn, this`crc
      ensures View() == Offer(old(View()))
    {
      hide Bit2, Segments, Echo;
      DoEcho(0xA4);
      blksize := Segments(size);
      tx := tx[4 := blksize];
      crcOn := Bit2(rx[0]);
      crc := 0;
    }

    method DoOpenBlock() returns (sent: Option<Frame>, ret: int)
      modifies this
      ensures Result(View(), sent, ret) == OpenBlock(old(View()))
    {
      hide Bit1, FrameValue, AbortFrame;
      if Bit1(rx[0]) {
        arg := arg.(total := FrameValue(rx));
        if arg.total != arg.length && arg.stored {
          sent, ret := Fail(AB_TYPE_MISMATCH);
          return;
        }
      }
      at := 0;
      sequence := 0;
      state := DownloadBlSubblock;
      sent, ret := Answer();
    }

    method DoSubblockResponse(i: Input, isLast: bool) returns (sent: Option<Frame>, ret: int)
      requires data.Length == size && at <= size
      modifies this, data
      ensures Result(View(), sent, ret) == SubblockResponse(old(View()), i, isLast)
    {
      hide FlushSubblock, NextSubblock;
      var q := sequence;
      tx := tx[0 := 0xA2][1 := q];
      sequence := 0;
      if !arg.stored && at != 0 && !isLast {
        sent, ret := DoFlushSubblock(i);
      } else {
        sent, ret := DoNextSubblock(isLast);
      }
    }

    method DoFlushSubblock(i: Input) returns (sent: Option<Frame>, ret: int)
      requires data.Length == size && at <= size
      modifies this, data
      ensures Result(View(), sent, ret) == FlushSubblock(old(View()), i)
    {
      hide WriteOd, SameTransfer, AbortFrame, NextSubblock, Crc.CrcOf;
      if crcOn {
        crc := Crc.Crc16(data[..at], crc);
      }
      arg := arg.(last := false);
      var abort := Write(at, i.write1);
      if abort != 0 {
        sent, ret := Fail(abort);
      } else {
        arg := arg.(length := size);
        at := 0;
        sent, ret := DoNextSubblock(false);
      }
    }

    method DoNextSubblock(isLast: bool) returns (sent: Option<Frame>, ret: int)
      modifies this
      ensures Result(View(), sent, ret) == NextSubblock(old(View()), isLast)
    {
      hide AbortFrame, Segments;
      blksize := Segments(size - at);
      tx := tx[2 := blksize];
      if isLast {
        state := DownloadBlEnd;
        sent, ret := Answer();
      } else if at >= size {
        sent, ret := Fail(AB_DEVICE_INCOMPAT);
      } else {
        state := DownloadBlSubblock;
        sent, ret := Answer();
      }
    }

    method DoEndBlockDownload(i: Input) returns (sent: Option<Frame>, ret: int)
      requires data.Length == size && 7 <= at <= size
      modifies this, data
      ensures Result(View(), sent, ret) == EndBlockDownload(old(View()), i)
    {
      hide AbortFrame, CheckBlock, Specifier, Bit0, BlockUnused;
      if Specifier(rx[0]) != 6 || !Bit0(rx[0]) {
        sent, ret := Fail(AB_CMD);
      } else {
        at := at - BlockUnused(rx[0]);
        sent, ret := DoCheckBlock(i);
      }
    }

    method DoCheckBlock(i: Input) returns (sent: Option<Frame>, ret: int)
      requires data.Length == size && at <= size
      modifies this, data
      ensures Result(View(), sent, ret) == CheckBlock(old(View()), i)
    {
      hide AbortFrame, Crc.CrcOf, FromLe16, CommitBlock;
      if crcOn {
        crc := Crc.Crc16(data[..at], crc);
      }
      if crcOn && crc != FromLe16(rx[1], rx[2]) {
        sent, ret := Fail(AB_CRC);
      } else {
        sent, ret := DoCommitBlock(i);
      }
    }

    method DoCommitBlock(i: Input) returns (sent: Option<Frame>, ret: int)
      requires data.Length == size && at <= size
      modifies this, data
      ensures Result(View(), sent, ret) == CommitBlock(old(View()), i)
    {
      hide WriteOd, SameTransfer, AbortFrame;
      arg := arg.(last := true);
      var abort := Write(at, i.write1);
      if abort != 0 {
        sent, ret := Fail(abort);
      } else {
        tx := tx[0 := 0xA1];
        state := Idle;
        sent, ret := Answer();
      }
    }

    // -------------------------------------------------------------------- upload

    method DoInitiateUpload() returns (sent: Option<Frame>, ret: int)
      requires data.Length == size && arg.length <= size
      modifies this
      ensures Result(View(), sent, ret) == InitiateUpload(old(View()))
    {
      hide ExpeditedUpload, OpenUpload;
      if arg.length <= 4 {
        sent, ret := DoExpeditedUpload();
      } else {
        sent, ret := DoOpenUpload();
      }
    }

    method DoExpeditedUpload() returns (sent: Option<Frame>, ret: int)
      requires data.Length == size && arg.length <= 4
      modifies this
      ensures Result(View(), sent, ret) == ExpeditedUpload(old(View()))
    {
      hide Blit, Echo;
      DoEcho(0x43 + 4 * (4 - arg.length));
      tx := Blit(tx, 4, data[..arg.length]);
      state := Idle;
      sent, ret := Answer();
    }

    method DoOpenUpload() returns (sent: Option<Frame>, ret: int)
      modifies this
      ensures Result(View(), sent, ret) == OpenUpload(old(View()))
    {
      hide Blit, Le32, Echo;
      DoEcho(if arg.total != 0 then 0x41 else 0x40);
      if arg.total != 0 {
        tx := Blit(tx, 4, Le32(arg.total));
      }
      at := 0;
      sequence := 0;
      state := UploadSegmented;
      sent, ret := Answer();
    }

    /** The next n bytes of the buffer go into the answer one by one. */
    method Fill(n: nat)
      requires n <= 7 && data.Length == size && at + n <= size
      modifies this`tx, this`at
      ensures View() == FillSegment(old(View()), n)
    {
      ghost var s := View();
      var i := 0;
      while i < n
        invariant 0 <= i <= n && at == s.at + i
        invariant tx == Blit(s.tx, 1, s.buf[s.at..s.at + i])
      {
        tx := tx[i + 1 := data[at]];
        at := at + 1;
        i := i + 1;
      }
    }

    method DoSendSegment() returns (sent: Option<Frame>, ret: int)
      requires data.Length == size && at <= arg.length <= size
      modifies this
      ensures Result(View(), sent, ret) == SendSegment(old(View()))
    {
      hide FillSegment, Minus16, Labelled;
      Minus16Exact(arg.length, at);
      var n := if arg.length - at > 7 then 7 else arg.length - at;
      Fill(n);
      DoLabel(n);
      sent, ret := Answer();
    }

    method DoLabel(n: SegmentLength)
      modifies this`tx, this`sequence, this`state
      ensures View() == Labelled(old(View()), n)
    {
      var done := at == arg.length && arg.last;
      tx := tx[0 := (if sequence != 0 then 0x10 else 0) + 2 * (7 - n) + (if done then 1 else 0)];
      sequence := if sequence != 0 then 0 else 1;
      if done {
        state := Idle;
      }
    }

    /** Ask the OD function for more behind the n bytes at the start of the buffer. */
    method DoRefill(n: nat, r: ReadReply) returns (abort: uint32)
      requires data.Length == size && !arg.stored && n + |r.data| <= size
      modifies this`arg, data
      ensures Access(View(), abort) == Refill(old(View()), n, r)
    {
      hide ReadOd;
      var whole := if Od.HasSlot(od, arg.entry, arg.sub) then Od.Length(od[arg.entry].obj, arg.sub, size) else 0;
      arg := arg.(length := Minus16(whole, n));
      abort := Read(n, r);
      if abort == 0 {
        arg := arg.(length := (arg.length + n) % 0x1_0000);
      }
    }

    method DoSegmentUpload(i: Input) returns (sent: Option<Frame>, ret: int)
      requires data.Length == size && at <= arg.length <= size && arg.length - at + |i.read.data| <= size
      modifies this, data
      ensures Result(View(), sent, ret) == SegmentUpload(old(View()), i)
    {
      hide RefillSegment, SendSegment, Specifier, Toggle, AbortFrame;
      if Specifier(rx[0]) != 3 {
        sent, ret := Fail(AB_CMD);
      } else if Toggle(rx[0]) != sequence {
        sent, ret := Fail(AB_TOGGLE_BIT);
      } else if !arg.stored && arg.length - at < 7 && !arg.last {
        sent, ret := DoRefillSegment(i);
      } else {
        sent, ret := DoSendSegment();
      }
    }

    method DoRefillSegment(i: Input) returns (sent: Option<Frame>, ret: int)
      requires data.Length == size && at <= arg.length <= size && arg.length - at + |i.read.data| <= size && !arg.stored
      modifies this, data
      ensures Result(View(), sent, ret) == RefillSegment(old(View()), i)
    {
      hide Refill, SendSegment, AbortFrame, Blit, SameTransfer;
      var n := arg.length - at;
      assert data[at..at + n] == Take(data[..][at..], n);
      CopyIn(0, data[at..at + n]);
      var abort := DoRefill(n, i.read);
      if abort != 0 {
        sent, ret := Fail(abort);
      } else {
        at := 0;
        sent, ret := DoSendSegment();
      }
    }

    method DoInitiateBlockUpload() returns (sent: Option<Frame>, ret: int)
      requires data.Length == size && arg.length <= size
      modifies this
      ensures Result(View(), sent, ret) == InitiateBlockUpload(old(View()))
    {
      hide Prepare, AnnounceBlock;
      DoPrepare();
      sent, ret := DoAnnounceBlock();
    }

    method DoPrepare()
      requires data.Length == size && arg.length <= size
      modifies this`tx, this`crcOn, this`crc, this`blksize
      ensures View() == Prepare(old(View()))
    {
      hide Crc.CrcOf, Bit2, Echo;
      DoEcho(if arg.total != 0 then 0xC6 else 0xC4);
      crcOn := Bit2(rx[0]);
      if crcOn {
        crc := Crc.Crc16(data[..arg.length], 0);
      } else {
        crc := 0;
      }
      blksize := rx[4];
    }

    method DoAnnounceBlock() returns (sent: Option<Frame>, ret: int)
      modifies this
      ensures Result(View(), sent, ret) == AnnounceBlock(old(View()))
    {
      hide Subcommand, AbortFrame, Le32, Blit;
      if Subcommand(rx[0]) != 0 {
        sent, ret := Fail(AB_CMD);
      } else if blksize < 1 || blksize > 127 || (7 * (blksize as int) > arg.length && !arg.last) {
        sent, ret := Fail(AB_BLOCK_SIZE);
      } else {
        if arg.total != 0 {
          tx := Blit(tx, 4, Le32(arg.total));
        }
        state := UploadBlInitiate2;
        sent, ret := Answer();
      }
    }

    method DoStartBlockUpload() returns (sent: Option<Frame>, ret: int)
      requires data.Length == size && arg.length <= size
      modifies this
      ensures Result(View(), sent, ret) == StartBlockUpload(old(View()))
    {
      hide SendBlockSegment, Specifier, Subcommand, AbortFrame;
      if Specifier(rx[0]) != 5 || Subcommand(rx[0]) != 3 {
        sent, ret := Fail(AB_CMD);
      } else {
        at := 0;
        sequence := 0;
        end := false;
        rxNew := false;
        state := UploadBlSubblock;
        sent, ret := DoSendBlockSegment();
      }
    }

    /** Send the next segment of the block unless all were sent. */
    method DoSendBlockSegment() returns (sent: Option<Frame>, ret: int)
      requires data.Length == size && at <= arg.length <= size
      modifies this
      ensures Result(View(), sent, ret) == SendBlockSegment(old(View()))
    {
      hide FillSegment, Numbered;
      sent, ret := None, 1;
      if sequence != blksize && !end {
        timer := 0;
        var n := if arg.length - at > 7 then 7 else arg.length - at;
        Fill(n);
        DoNumber(n);
        sent := Some(tx);
      }
    }

    method DoNumber(n: SegmentLength)
      modifies this`tx, this`sequence, this`lastLen, this`blksize, this`end
      ensures View() == Numbered(old(View()), n)
    {
      var q := (sequence + 1) % 0x100;
      var done := at == arg.length && arg.last;
      tx := tx[0 := if done && q < 0x80 then q + 0x80 else q];
      sequence := q;
      if done {
        lastLen := n;
        blksize := q;
        end := true;
      }
    }

    /** Move the bytes behind the k acknowledged segments down to the front, one by one. */
    method DoShift(k: nat)
      requires data.Length == size && 7 * k <= arg.length <= size
      modifies this`arg, data
      ensures View() == Shift(old(View()), k) && arg.length == old(arg.length) - 7 * k
    {
      hide Blit;
      ghost var was := data[..];
      var n := 7 * k;
      MoveDown(n, arg.length);
      arg := arg.(length := arg.length - n);
    }

    method MoveDown(n: nat, m: nat)
      requires n <= m <= data.Length
      modifies data
      ensures data[..] == Blit(old(data[..]), 0, old(data[n..m]))
    {
      ghost var was := data[..];
      var i := 0;
      while i < m - n
        invariant 0 <= i <= m - n
        invariant forall k :: 0 <= k < i ==> data[k] == was[n + k]
        invariant forall k :: i <= k < data.Length ==> data[k] == was[k]
      {
        data[i] := data[n + i];
        i := i + 1;
      }
    }

    method DoSubblockUpload(i: Input) returns (sent: Option<Frame>, ret: int)
      requires Valid() && Respects(View(), i) && state.UploadBlSubblock?
      modifies this, data
      ensures Result(View(), sent, ret) == SubblockUpload(old(View()), i)
    {
      hide SendBlockSegment, Confirmed, Shift, Specifier, Subcommand, AbortFrame, EndUpload;
      SafeInRange(View());
      if !rxNew {
        sent, ret := DoSendBlockSegment();
      } else if Specifier(rx[0]) != 5 || Subcommand(rx[0]) != 2 {
        sent, ret := Fail(AB_CMD);
      } else if rx[1] > sequence {
        sent, ret := Fail(AB_SEQ_NUM);
      } else if end && rx[1] == blksize {
        sent, ret := DoEndUpload();
      } else {
        DoShift(rx[1]);
        sent, ret := DoConfirmed(i);
      }
    }

    method DoEndUpload() returns (sent: Option<Frame>, ret: int)
      modifies this
      ensures Result(View(), sent, ret) == EndUpload(old(View()))
    {
      if crcOn {
        tx := tx[1 := crc % 0x100][2 := crc / 0x100];
      }
      tx := tx[0 := 0xC1 + 4 * (7 - lastLen)];
      state := UploadBlEnd;
      sent, ret := Answer();
    }

    method DoConfirmed(i: Input) returns (sent: Option<Frame>, ret: int)
      requires data.Length == size && arg.length + |i.read.data| <= size
      modifies this, data
      ensures Result(View(), sent, ret) == Confirmed(old(View()), i)
    {
      hide Refill, NextBlock, Crc.CrcOf, AbortFrame, SameTransfer;
      blksize := rx[2];
      if !arg.stored && arg.length < 7 * (blksize as int) && !arg.last {
        var n := arg.length;
        var abort := DoRefill(n, i.read);
        if abort != 0 {
          sent, ret := Fail(abort);
          return;
        }
        if crcOn {
          crc := Crc.Crc16(data[n..arg.length], crc);
        }
      }
      sent, ret := DoNextBlock();
    }

    method DoNextBlock() returns (sent: Option<Frame>, ret: int)
      requires data.Length == size && arg.length <= size
      modifies this
      ensures Result(View(), sent, ret) == NextBlock(old(View()))
    {
      hide SendBlockSegment, AbortFrame;
      if 7 * (blksize as int) > arg.length && !arg.last {
        sent, ret := Fail(AB_BLOCK_SIZE);
      } else {
        at := 0;
        sequence := 0;
        end := false;
        rxNew := false;
        sent, ret := DoSendBlockSegment();
      }
    }

    method DoEndBlockUpload() returns (sent: Option<Frame>, ret: int)
      modifies this
      ensures Result(View(), sent, ret) == EndBlockUpload(old(View()))
    {
      hide Specifier, Bit0, AbortFrame;
      if Specifier(rx[0]) != 5 || !Bit0(rx[0]) {
        sent, ret := Fail(AB_CMD);
      } else {
        state := Idle;
        rxNew := false;
        sent, ret := None, 0;
      }
    }

    // ---------------------------------------------------------------- processing

    method DoAct(i: Input, todo: State) returns (sent: Option<Frame>, ret: int)
      requires data.Length == size && !todo.Idle?
      requires if state.Idle?
               then arg.length <= size && (todo.DownloadInitiate? || todo.DownloadBlInitiate? || todo.UploadInitiate? || todo.UploadBlInitiate?)
               else Valid() && todo == state && !state.DownloadBlSubblock? && Respects(View(), i)
      modifies this, data
      ensures Result(View(), sent, ret) == Act(old(View()), i, todo)
    {
      hide InitiateDownload, SegmentDownload, InitiateBlockDownload, SubblockResponse, EndBlockDownload, InitiateUpload,
        SegmentUpload, InitiateBlockUpload, StartBlockUpload, SubblockUpload, EndBlockUpload, BlockFits, Sending;
      match todo
      case DownloadInitiate => sent, ret := DoInitiateDownload(i);
      case DownloadSegmented => sent, ret := DoSegmentDownload(i);
      case DownloadBlInitiate => sent, ret := DoInitiateBlockDownload();
      case DownloadBlSubResp => sent, ret := DoSubblockResponse(i, rx[0] >= 0x80);
      case DownloadBlEnd => sent, ret := DoEndBlockDownload(i);
      case UploadInitiate => sent, ret := DoInitiateUpload();
      case UploadSegmented => sent, ret := DoSegmentUpload(i);
      case UploadBlInitiate => sent, ret := DoInitiateBlockUpload();
      case UploadBlInitiate2 => sent, ret := DoStartBlockUpload();
      case UploadBlSubblock => sent, ret := DoSubblockUpload(i);
      case UploadBlEnd => sent, ret := DoEndBlockUpload();
    }

    /** Advance the timer, then act unless there is nothing to do or the transfer timed out. */
    method DoTimed(i: Input, todo: State) returns (sent: Option<Frame>, ret: int)
      requires data.Length == size
      requires if todo.Idle? then Valid()
               else if state.Idle?
               then arg.length <= size && (todo.DownloadInitiate? || todo.DownloadBlInitiate? || todo.UploadInitiate? || todo.UploadBlInitiate?)
               else Valid() && todo == state && !state.DownloadBlSubblock? && Respects(View(), i)
      modifies this, data
      ensures Result(View(), sent, ret) == Timed(old(View()), i, todo)
    {
      hide Act, SubblockResponse, BlockFits, Sending, AbortFrame, Respects;
      ghost var s := View();
      if timer < i.timeout {
        timer := Add16(timer, i.dt);
      }
      if Safe(s) {
        SameSafe(s, View());
      }
      if timer >= i.timeout {
        if state.DownloadBlSubblock? && sequence != 0 && !i.txFull {
          sent, ret := DoSubblockResponse(i, false);
        } else {
          sent, ret := Fail(AB_TIMEOUT);
        }
      } else if todo.Idle? {
        sent, ret := None, 0;
      } else {
        sent, ret := DoAct(i, todo);
      }
    }

    /** A request to an idle server. */
    method DoStart(i: Input) returns (sent: Option<Frame>, ret: int)
      requires data.Length == size && state.Idle? && |i.read.data| <= size
      modifies this, data
      ensures Result(View(), sent, ret) == Start(old(View()), i)
    {
      hide InitTransfer, StartUpload, Timed, Specifier, FrameIndex, AbortFrame, SameTransfer, S.Stored;
      var ccs := Specifier(rx[0]);
      if ccs != 1 && ccs != 2 && ccs != 6 && ccs != 5 {
        sent, ret := Fail(AB_CMD);
        return;
      }
      var abort := BeginTransfer(FrameIndex(rx), rx[3]);
      if abort != 0 {
        sent, ret := Fail(abort);
      } else if ccs == 1 || ccs == 6 {
        if !arg.access.writeable {
          sent, ret := Fail(AB_READONLY);
        } else {
          sent, ret := DoTimed(i, if ccs == 1 then DownloadInitiate else DownloadBlInitiate);
        }
      } else {
        sent, ret := DoStartUpload(i, ccs == 5);
      }
    }

    method DoStartUpload(i: Input, block: bool) returns (sent: Option<Frame>, ret: int)
      requires data.Length == size && state.Idle? && |i.read.data| <= size
      requires arg.length <= size && (arg.stored ==> |S.Stored(View())| == arg.length)
      modifies this, data
      ensures Result(View(), sent, ret) == StartUpload(old(View()), i, block)
    {
      hide ReadOd, Timed, AbortFrame, SameTransfer, S.Stored;
      var abort := Read(0, i.read);
      if abort != 0 {
        sent, ret := Fail(abort);
      } else {
        sent, ret := DoTimed(i, if block && arg.length > rx[5] then UploadBlInitiate else UploadInitiate);
      }
    }

    /** One process call. */
    method Process(i: Input) returns (sent: Option<Frame>, ret: int)
      requires Valid() && Respects(View(), i)
      modifies this, data
      ensures Result(View(), sent, ret) == S.Process(old(View()), i) && Valid()
    {
      hide Timed, Start, Safe, Respects;
      ProcessSafe(View(), i);
      sent, ret := None, 0;
      if state.Idle? && !rxNew {
      } else if !i.operational {
        state := Idle;
        rxNew := false;
      } else if !i.txFull && (rxNew || state.UploadBlSubblock?) {
        sent, ret := DoBegin(i);
      } else {
        sent, ret := DoTimed(i, Idle);
      }
    }

    method DoBegin(i: Input) returns (sent: Option<Frame>, ret: int)
      requires Valid() && Respects(View(), i) && (rxNew || state.UploadBlSubblock?)
      modifies this, data
      ensures Result(View(), sent, ret) == Begin(old(View()), i)
    {
      hide Timed, Start, BlockFits, Sending;
      ghost var s := View();
      tx := ZERO_FRAME;
      if !state.UploadBlSubblock? {
        timer := 0;
      }
      SameSafe(s, View());
      if rxNew && rx[0] == ABORT {
        state := Idle;
        rxNew := false;
        sent, ret := None, -1;
      } else if !state.Idle? {
        sent, ret := DoTimed(i, state);
      } else {
        sent, ret := DoStart(i);
      }
    }
  }
}
