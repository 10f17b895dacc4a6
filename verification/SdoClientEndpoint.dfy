/**
  The SDO client of stack/CO_SDOmaster.c as an object whose fields and whose
  user's buffer are updated in place, call by call. Every method is proved to
  take the object from one state of module SdoClient to the next.
 */
module SdoClientEndpoint {
  import opened Can
  import opened SdoTypes
  import Crc
  import opened C = SdoClient
  import opened SdoClientSafe

  class Endpoint {
    var state: State
    var rxNew: bool
    var rx: Frame
    var index: uint16
    var sub: byte
    var buffer: array<byte>
    var offset: nat
    var acked: nat
    var toggle: bool
    var timer: uint16
    var block: Block
    /** An upload was started, and no call has ended it since. */
    ghost var uploading: bool

    ghost function View(): (c: Client)
      reads this, buffer
    {
      Client(state, rxNew, rx, index, sub, buffer[..], offset, acked, toggle, timer, block)
    }

    /** Nothing will leave the user's buffer. */
    ghost predicate Valid()
      reads this, buffer
    {
      Safe(User(View(), uploading))
    }

    constructor ()
      ensures Valid() && state.NotDefined? && !rxNew && !uploading && fresh(buffer)
    {
      state := NotDefined;
      uploading := false;
      rxNew := false;
      rx := ZERO_FRAME;
      index, sub, offset, acked, toggle, timer := 0, 0, 0, 0, false, 0;
      buffer := new byte[0];
      block := Block(0, 0, 0, 0, 0, 0, false);
    }

    // ----------------------------------------------------------------- reception

    method Receive(f: Frame)
      requires Valid()
      modifies this, buffer
      ensures Valid() && View() == C.Receive(old(View()), f) && buffer == old(buffer) && uploading == old(uploading)
    {
      hide ReceiveSegment, Safe;
      SafeInRange(User(View(), uploading));
      ReceiveSafe(User(View(), uploading), f);
      ghost var lasts := uploading;
      if !rxNew && !state.NotDefined? {
        if !state.BlUploadInProgress? {
          rx := f;
          rxNew := true;
        } else {
          ReceiveBlock(f);
        }
      }
      uploading := lasts;
    }

    method ReceiveBlock(f: Frame)
      requires block.received < buffer.Length
      modifies this, buffer
      ensures View() == ReceiveSegment(old(View()), f) && buffer == old(buffer)
    {
      hide Seqno, Blit, AcceptSegment;
      rx := rx[0 := f[0]];
      timer := 0;
      block := block.(timer := 0);
      var seqno := Seqno(f[0]);
      if seqno == block.seqno + 1 {
        Accept(f);
      } else if seqno != block.seqno && block.seqno != 0 {
        state := BlUploadSubEnd;
        rxNew := true;
      }
    }

    /** The bytes of the segment go into the user's buffer until it is full. */
    method Accept(f: Frame)
      requires block.received < buffer.Length && block.seqno < 0xFF
      modifies this`block, this`state, this`rxNew, buffer
      ensures View() == AcceptSegment(old(View()), f)
    {
      hide Blit, Room;
      var n := CopySegment(f, block.received);
      block := block.(seqno := block.seqno + 1, received := block.received + n);
      if block.received >= buffer.Length || f[0] >= 0x80 || block.seqno >= block.size {
        state := BlUploadSubEnd;
        rxNew := true;
      }
    }

    method CopySegment(f: Frame, start: nat) returns (n: nat)
      requires start < buffer.Length
      modifies buffer
      ensures n == Room(start, buffer.Length) && n <= 7
      ensures buffer[..] == Blit(old(buffer[..]), start, f[1..1 + n])
    {
      ghost var was := buffer[..];
      n := 0;
      while n < 7 && start + n < buffer.Length
        invariant 0 <= n <= 7 && start + n <= buffer.Length
        invariant buffer[..] == Blit(was, start, f[1..1 + n])
      {
        buffer[start + n] := f[1 + n];
        n := n + 1;
      }
    }

    // ------------------------------------------------------------------ starting

    method InitiateDownload(index: uint16, sub: byte, data: array<byte>, useBlock: bool)
      returns (sent: Option<Frame>, ret: Return)
      requires data.Length < 0x1_0000_0000
      requires Valid()
      modifies this
      ensures Valid() && C.InitiateDownload(old(View()), index, sub, data[..], useBlock) == Result(View(), sent, ret, 0, 0)
      ensures data.Length > 0 ==> buffer == data
      ensures uploading == (old(uploading) && data.Length == 0)
    {
      hide Le32, Padded4, Request, Safe;
      StartDownloadSafe(User(View(), uploading), index, sub, data[..], useBlock);
      if data.Length == 0 {
        return None, WrongArguments;
      }
      uploading := false;
      buffer := data;
      this.index := index;
      this.sub := sub;
      rxNew := false;
      timer := 0;
      if data.Length <= 4 {
        sent := Some(Request(index, sub, 0x23 + 4 * (4 - data.Length), Padded4(data[..])));
        state := DownloadInitiate;
      } else if data.Length > PST as int && useBlock {
        sent := Some(Request(index, sub, 0xC6, Le32(data.Length)));
        state := BlDownloadInitiate;
      } else {
        sent := Some(Request(index, sub, 0x21, Le32(data.Length)));
        state := DownloadInitiate;
      }
      ret := Ok;
    }

    /** A block upload into less than one block is refused, but leaves its buffer and its state behind. */
    method InitiateUpload(index: uint16, sub: byte, room: array<byte>, useBlock: bool)
      returns (sent: Option<Frame>, ret: Return)
      requires Valid() && room.Length < 0x1_0000_0000
      modifies this
      ensures C.InitiateUpload(old(View()), index, sub, room[..], useBlock) == Result(View(), sent, ret, 0, 0)
      ensures room.Length >= 4 ==> buffer == room
      ensures Valid() && uploading == if room.Length < 4 then old(uploading) else ret.Ok?
    {
      hide Request, Safe;
      ghost var x := C.InitiateUpload(View(), index, sub, room[..], useBlock);
      StartUploadSafe(User(View(), uploading), index, sub, room[..], useBlock);
      if room.Length < 4 {
        return None, WrongArguments;
      }
      buffer := room;
      this.index := index;
      this.sub := sub;
      if useBlock {
        state := BlUploadInitiate;
        block := block.(size := BLOCK_SIZE_MAX);
        if 7 * (BLOCK_SIZE_MAX as int) > room.Length {
          uploading := false;
          assert View() == x.c;
          return None, WrongArguments;
        }
        sent := Some(Request(index, sub, 0xA4, [BLOCK_SIZE_MAX, PST, 0, 0]));
        block := block.(seqno := 0);
      } else {
        state := UploadInitiated;
        sent := Some(Request(index, sub, 0x40, [0, 0, 0, 0]));
      }
      rxNew := false;
      timer := 0;
      block := block.(timer := 0);
      ret := Ok;
      uploading := true;
      assert View() == x.c;
    }

    // ------------------------------------------------------------------ download

    method DoFail(code: uint32) returns (abort: uint32, done: bool, length: nat)
      modifies this`state
      ensures Rx(View(), abort, done, length) == Fail(old(View()), code)
    {
      state := Aborting;
      abort, done, length := code, false, 0;
    }

    method DoDone(n: nat) returns (abort: uint32, done: bool, length: nat)
      modifies this`state, this`rxNew
      ensures Rx(View(), abort, done, length) == Done(old(View()), n)
    {
      state := NotDefined;
      rxNew := false;
      abort, done, length := 0, true, n;
    }

    /** The effect of a received frame on a download. */
    method TakeDownload() returns (abort: uint32, done: bool, length: nat)
      modifies this
      ensures Rx(View(), abort, done, length) == DownloadRx(old(View())) && buffer == old(buffer)
    {
      hide Specifier, Toggle, Bit0, FrameIndex, BlockAck;
      var scs := Specifier(rx[0]);
      abort, done, length := 0, false, 0;
      if state.DownloadInitiate? {
        if scs != 3 {
          abort, done, length := DoFail(AB_CMD);
        } else if buffer.Length <= 4 {
          abort, done, length := DoDone(0);
        } else {
          offset := 0;
          toggle := false;
          state := DownloadRequest;
        }
      } else if state.DownloadResponse? {
        if scs != 1 {
          abort, done, length := DoFail(AB_CMD);
        } else if (Toggle(rx[0]) == 1) != toggle {
          abort, done, length := DoFail(AB_TOGGLE_BIT);
        } else {
          toggle := !toggle;
          if offset == buffer.Length {
            abort, done, length := DoDone(0);
          } else {
            state := DownloadRequest;
          }
        }
      } else if state.BlDownloadInitiate? {
        if scs != 5 {
          abort, done, length := DoFail(AB_CMD);
        } else if FrameIndex(rx) != index || rx[3] != sub {
          abort, done, length := DoFail(AB_PRAM_INCOMPAT);
        } else {
          block := block.(size := rx[4], seqno := 0);
          offset := 0;
          acked := 0;
          state := BlDownloadInProgress;
        }
      } else if state.BlDownloadInProgress? || state.BlDownloadAck? {
        abort, done, length := TakeBlockAck();
      } else if state.BlDownloadCrcAck? {
        if scs != 5 || !Bit0(rx[0]) {
          abort, done, length := DoFail(AB_CMD);
        } else {
          timer := 0;
          abort, done, length := DoDone(0);
        }
      } else {
        abort, done, length := DoFail(AB_CMD);
      }
    }

    method TakeBlockAck() returns (abort: uint32, done: bool, length: nat)
      modifies this
      ensures Rx(View(), abort, done, length) == BlockAck(old(View())) && buffer == old(buffer)
    {
      hide Specifier, Bit1;
      abort, done, length := 0, false, 0;
      if Specifier(rx[0]) != 5 || !Bit1(rx[0]) {
        abort, done, length := DoFail(AB_CMD);
      } else {
        if rx[1] != block.size {
          acked := acked + 7 * (rx[1] as int);
          offset := acked;
        } else {
          acked := offset;
        }
        block := block.(size := rx[2], seqno := 0);
        state := if offset >= buffer.Length then BlDownloadCrc else BlDownloadInProgress;
      }
    }

    method DoTimeOut() returns (sent: Option<Frame>, ret: Return, abort: uint32, length: nat)
      modifies this`state, this`rxNew
      ensures Result(View(), sent, ret, abort, length) == TimeOut(old(View()))
    {
      hide AbortFrame;
      abort, length := AB_TIMEOUT, 0;
      sent, ret := Some(AbortFrame(index, sub, abort)), TimedOut;
      state := NotDefined;
      rxNew := false;
    }

    method DoSendAbort(code: uint32) returns (sent: Option<Frame>, ret: Return, abort: uint32, length: nat)
      modifies this`state, this`rxNew
      ensures Result(View(), sent, ret, abort, length) == SendAbort(old(View()), code)
    {
      hide AbortFrame;
      abort, length := code, 0;
      sent, ret := Some(AbortFrame(index, sub, code)), ClientAbort;
      state := NotDefined;
      rxNew := false;
    }

    /** The next seven bytes of the user's buffer behind a command byte, one by one. */
    method NextBytes(from: nat) returns (d: seq<byte>)
      ensures d == Padded7(buffer[..], from)
    {
      hide Padded7;
      d := [];
      while |d| < 7
        invariant |d| <= 7 && d == Padded7(buffer[..], from)[..|d|]
      {
        d := d + [if from + |d| < buffer.Length then buffer[from + |d|] else 0];
      }
    }

    method DoSendBlockSegment(code: uint32) returns (sent: Option<Frame>, ret: Return, abort: uint32, length: nat)
      modifies this
      ensures Result(View(), sent, ret, abort, length) == SendBlockSegment(old(View()), code) && buffer == old(buffer)
    {
      hide Padded7;
      abort, length := code, 0;
      var k := (block.seqno + 1) % 0x100;
      var full := k >= block.size;
      var d := NextBytes(offset);
      var done := offset + 7 >= buffer.Length;
      var unused := if done && offset <= buffer.Length then offset + 7 - buffer.Length else if done then 7 else 0;
      offset := offset + 7;
      timer := 0;
      block := block.(seqno := k, unused := unused, size := if done then k else block.size);
      state := if full || done then BlDownloadAck else BlDownloadInProgress;
      sent := Some([if done && k < 0x80 then k + 0x80 else k] + d);
      ret := if full || done then Waiting else DownloadInProgress;
    }

    method DoSendDownloadSegment(code: uint32) returns (sent: Option<Frame>, ret: Return, abort: uint32, length: nat)
      modifies this
      ensures Result(View(), sent, ret, abort, length) == SendDownloadSegment(old(View()), code) && buffer == old(buffer)
    {
      hide Blit;
      abort, length, ret := code, 0, Waiting;
      var n := Min(7, Minus16(buffer.Length, offset));
      var done := offset + n == buffer.Length;
      var data := if offset + n <= buffer.Length then buffer[offset..offset + n] else [];
      var command := (if toggle then 0x10 else 0) + 2 * (7 - n) + (if done then 1 else 0);
      sent := Some(Blit(ZERO_FRAME, 1, data)[0 := command]);
      offset := offset + n;
      state := DownloadResponse;
    }

    method SendDownload(code: uint32) returns (sent: Option<Frame>, ret: Return, abort: uint32, length: nat)
      modifies this
      ensures Result(View(), sent, ret, abort, length) == DownloadTx(old(View()), code) && buffer == old(buffer)
    {
      hide SendAbort, SendDownloadSegment, SendBlockSegment, Checksum, EndFrame;
      if state.Aborting? {
        sent, ret, abort, length := DoSendAbort(code);
      } else if state.DownloadRequest? {
        sent, ret, abort, length := DoSendDownloadSegment(code);
      } else if state.BlDownloadInProgress? {
        sent, ret, abort, length := DoSendBlockSegment(code);
      } else if state.BlDownloadCrc? {
        var crc := ChecksumOf();
        sent := Some(EndFrame(block.unused, crc));
        timer := 0;
        state := BlDownloadCrcAck;
        ret, abort, length := Waiting, code, 0;
      } else {
        sent, ret, abort, length := None, Waiting, code, 0;
      }
    }

    method ChecksumOf() returns (crc: uint16)
      ensures crc == Checksum(buffer[..])
    {
      hide Crc.CrcOf;
      crc := Crc.Crc16(buffer[..], 0);
    }

    /** One download call to another node. */
    method Download(dt: uint16, timeout: uint16, txFull: bool)
      returns (sent: Option<Frame>, ret: Return, abort: uint32, length: nat)
      requires Valid()
      modifies this
      ensures Result(View(), sent, ret, abort, length) == C.Download(old(View()), dt, timeout, txFull)
      ensures Valid() && buffer == old(buffer) && uploading == (old(uploading) && !state.NotDefined?)
    {
      hide DownloadRx, DownloadTimed, FrameValue, Safe;
      DownloadSafe(User(View(), uploading), dt, timeout, txFull);
      ghost var lasts := uploading;
      sent, ret, abort, length := None, Ok, 0, 0;
      if rxNew {
        if rx[0] == ABORT {
          abort := FrameValue(rx);
          state := NotDefined;
          rxNew := false;
          ret := ServerAbort;
          uploading := false;
          return;
        }
        var done;
        abort, done, length := TakeDownload();
        if done {
          abort, length := 0, 0;
          uploading := lasts && !state.NotDefined?;
          return;
        }
        timer := 0;
        rxNew := false;
      }
      sent, ret, abort, length := TimeDownload(dt, timeout, txFull, abort);
      uploading := lasts && !state.NotDefined?;
    }

    method TimeDownload(dt: uint16, timeout: uint16, txFull: bool, code: uint32)
      returns (sent: Option<Frame>, ret: Return, abort: uint32, length: nat)
      modifies this
      ensures Result(View(), sent, ret, abort, length) == DownloadTimed(old(View()), dt, timeout, txFull, code)
      ensures buffer == old(buffer)
    {
      hide DownloadTx, TimeOut;
      if timer < timeout {
        timer := Add16(timer, dt);
      }
      if timer >= timeout {
        sent, ret, abort, length := DoTimeOut();
      } else if txFull {
        sent, ret, abort, length := None, TxFull, code, 0;
      } else {
        sent, ret, abort, length := SendDownload(code);
      }
    }

    // -------------------------------------------------------------------- upload

    /** Bytes of a frame go into the user's buffer one by one. */
    method CopyIn(from: nat, d: seq<byte>)
      requires from + |d| <= buffer.Length
      modifies buffer
      ensures buffer[..] == Blit(old(buffer[..]), from, d)
    {
      ghost var was := buffer[..];
      var i := 0;
      while i < |d|
        invariant 0 <= i <= |d|
        invariant buffer[..] == Blit(was, from, d[..i])
      {
        buffer[from + i] := d[i];
        i := i + 1;
      }
      assert d[..i] == d;
    }

    method TakeInitiate() returns (abort: uint32, done: bool, length: nat)
      requires 4 <= buffer.Length
      modifies this, buffer
      ensures Rx(View(), abort, done, length) == InitiateRx(old(View())) && buffer == old(buffer)
    {
      hide Bit0, Bit1, ExpeditedUnused, Blit;
      abort, done, length := 0, false, 0;
      if Bit1(rx[0]) {
        var n := if Bit0(rx[0]) then 4 - ExpeditedUnused(rx[0]) else 4;
        CopyIn(0, rx[4..4 + n]);
        abort, done, length := DoDone(n);
      } else {
        offset := 0;
        toggle := false;
        state := UploadRequest;
      }
    }

    method TakeSegment() returns (abort: uint32, done: bool, length: nat)
      modifies this, buffer
      ensures Rx(View(), abort, done, length) == SegmentRx(old(View())) && buffer == old(buffer)
    {
      hide Bit0, Toggle, SegmentUnused, Blit;
      abort, done, length := 0, false, 0;
      var n := 7 - SegmentUnused(rx[0]);
      if (Toggle(rx[0]) == 1) == toggle {
        abort, done, length := DoFail(AB_TOGGLE_BIT);
      } else if offset + n > buffer.Length {
        abort, done, length := DoFail(AB_OUT_OF_MEM);
      } else {
        CopyIn(offset, rx[1..1 + n]);
        offset := offset + n;
        if Bit0(rx[0]) {
          abort, done, length := DoDone(offset);
        } else {
          state := UploadRequest;
        }
      }
    }

    method TakeBlockInitiate() returns (abort: uint32, done: bool, length: nat)
      modifies this
      ensures Rx(View(), abort, done, length) == BlockInitiateRx(old(View())) && buffer == old(buffer)
    {
      hide Bit1, Bit2, FrameIndex, FrameValue;
      abort, done, length := 0, false, 0;
      var size := if Bit1(rx[0]) then FrameValue(rx) else 0;
      state := BlUploadInitiateAck;
      block := block.(crcOn := Bit2(rx[0]), dataSize := size, received := 0);
      if size > buffer.Length {
        abort, done, length := DoFail(AB_OUT_OF_MEM);
      } else if FrameIndex(rx) != index || rx[3] != sub {
        abort, done, length := DoFail(AB_PRAM_INCOMPAT);
      }
    }

    method TakeSubEnd() returns (abort: uint32, done: bool, length: nat)
      modifies this
      ensures Rx(View(), abort, done, length) == SubEndRx(old(View())) && buffer == old(buffer)
    {
      abort, done, length := 0, false, 0;
      if rx[0] >= 0x80 {
        if block.dataSize != 0 && block.dataSize > block.received {
          abort, done, length := DoFail(AB_TYPE_MISMATCH);
        } else {
          state := BlUploadAckLast;
        }
      } else if block.received >= buffer.Length {
        abort, done, length := DoFail(AB_OUT_OF_MEM);
      } else {
        state := BlUploadAck;
      }
    }

    method TakeEnd() returns (abort: uint32, done: bool, length: nat)
      requires 7 <= block.received <= buffer.Length < 0x1_0000_0000
      modifies this
      ensures Rx(View(), abort, done, length) == CrcRx(old(View())) && buffer == old(buffer)
    {
      hide Crc.CrcOf, BlockUnused, FromLe16;
      abort, done, length := 0, false, 0;
      var n := block.received - BlockUnused(rx[0]);
      block := block.(received := n);
      state := BlUploadEnd;
      if block.crcOn {
        var crc := Crc.Crc16(buffer[..n], 0);
        if FromLe16(rx[1], rx[2]) != crc {
          abort, done, length := DoFail(AB_CRC);
        }
      }
    }

    /** The effect of a received frame on an upload. */
    method TakeUpload() returns (abort: uint32, done: bool, length: nat)
      requires Valid()
      modifies this, buffer
      ensures Rx(View(), abort, done, length) == UploadRx(old(View())) && buffer == old(buffer)
    {
      hide Specifier, InitiateRx, SegmentRx, BlockInitiateRx, SubEndRx, CrcRx;
      var scs := Specifier(rx[0]);
      abort, done, length := 0, false, 0;
      if state.UploadInitiated? && scs == 2 {
        abort, done, length := TakeInitiate();
      } else if state.UploadResponse? && scs == 0 {
        abort, done, length := TakeSegment();
      } else if state.BlUploadInitiate? && scs == 6 {
        abort, done, length := TakeBlockInitiate();
      } else if state.BlUploadInitiate? && scs == 2 {
        abort, done, length := TakeInitiate();
      } else if state.BlUploadInProgress? {
      } else if state.BlUploadSubEnd? {
        abort, done, length := TakeSubEnd();
      } else if state.BlUploadCrc? && scs == 6 {
        abort, done, length := TakeEnd();
      } else {
        abort, done, length := DoFail(if state.BlUploadCrc? then AB_GENERAL else AB_CMD);
      }
    }

    method DoSendConfirm(code: uint32) returns (sent: Option<Frame>, ret: Return, abort: uint32, length: nat)
      modifies this
      ensures Result(View(), sent, ret, abort, length) == SendConfirm(old(View()), code) && buffer == old(buffer)
    {
      hide Confirm, BlockSizeFor;
      abort, length := code, 0;
      var p := block.seqno;
      if block.dataSize != 0 && block.received >= block.dataSize {
        block := block.(size := 0);
        state := BlUploadCrc;
        sent, ret := Some(Confirm(p, 0)), Waiting;
      } else {
        var size := if block.dataSize != 0 then BlockSizeFor(block.dataSize - block.received) else block.size;
        block := block.(size := size, seqno := 0, timer := 0);
        state := BlUploadInProgress;
        sent, ret := Some(Confirm(p, size)), UploadInProgress;
      }
    }

    method SendUpload(code: uint32) returns (sent: Option<Frame>, ret: Return, abort: uint32, length: nat)
      modifies this
      ensures Result(View(), sent, ret, abort, length) == UploadTx(old(View()), code) && buffer == old(buffer)
    {
      hide SendAbort, SendConfirm, Confirm;
      sent, ret, abort, length := None, Waiting, code, 0;
      if state.Aborting? {
        sent, ret, abort, length := DoSendAbort(code);
      } else if state.UploadRequest? {
        sent := Some(ZERO_FRAME[0 := if toggle then 0x70 else 0x60]);
        state := UploadResponse;
        toggle := !toggle;
      } else if state.BlUploadInitiateAck? {
        sent, ret := Some(ZERO_FRAME[0 := 0xA3]), UploadInProgress;
        block := block.(timer := 0, seqno := 0);
        state := BlUploadInProgress;
      } else if state.BlUploadAckLast? {
        sent := Some(Confirm(block.seqno, block.size));
        block := block.(timer := 0, seqno := 0);
        state := BlUploadCrc;
      } else if state.BlUploadAck? {
        sent, ret, abort, length := DoSendConfirm(code);
      } else if state.BlUploadEnd? {
        sent, ret, length := Some(ZERO_FRAME[0 := 0xA1]), Ok, block.received;
        state := NotDefined;
      } else if state.BlUploadInProgress? {
        ret := UploadInProgress;
      }
    }

    /** One upload call from another node, while an upload lasts; what is not benign may lead out of the buffer later. */
    method Upload(dt: uint16, timeout: uint16, txFull: bool)
      returns (sent: Option<Frame>, ret: Return, abort: uint32, length: nat)
      requires Valid() && uploading
      modifies this, buffer
      ensures Result(View(), sent, ret, abort, length) == C.Upload(old(View()), dt, timeout, txFull)
      ensures buffer == old(buffer) && uploading == !state.NotDefined?
      ensures Benign(old(View()), timeout) ==> Valid()
    {
      hide UploadRx, UploadTimed, FrameValue, Safe, Benign;
      if Benign(View(), timeout) {
        UploadSafe(User(View(), uploading), dt, timeout, txFull);
      }
      sent, ret, abort, length := None, Ok, 0, 0;
      if rxNew {
        if rx[0] == ABORT {
          abort := FrameValue(rx);
          state := NotDefined;
          rxNew := false;
          ret := ServerAbort;
          uploading := false;
          return;
        }
        var done;
        abort, done, length := TakeUpload();
        if done {
          abort := 0;
          uploading := !state.NotDefined?;
          return;
        }
        timer := 0;
        rxNew := false;
      }
      sent, ret, abort, length := TimeUpload(dt, timeout, txFull, abort);
      uploading := !state.NotDefined?;
    }

    method TimeUpload(dt: uint16, timeout: uint16, txFull: bool, code: uint32)
      returns (sent: Option<Frame>, ret: Return, abort: uint32, length: nat)
      modifies this
      ensures Result(View(), sent, ret, abort, length) == UploadTimed(old(View()), dt, timeout, txFull, code)
      ensures buffer == old(buffer)
    {
      hide UploadTx, TimeOut;
      if timer < timeout {
        timer := Add16(timer, dt);
        if state.BlUploadInProgress? {
          block := block.(timer := Add16(block.timer, dt));
        }
      }
      if timer >= timeout {
        sent, ret, abort, length := DoTimeOut();
        return;
      }
      if block.timer >= timeout / 2 {
        state := BlUploadAck;
      }
      if txFull {
        sent, ret, abort, length := None, TxFull, code, 0;
      } else {
        sent, ret, abort, length := SendUpload(code);
      }
    }
  }
}
