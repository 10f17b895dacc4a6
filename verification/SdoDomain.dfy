/**
  Block upload of a domain, whose data an OD function produces chunk by chunk:
  however acknowledgements and refills cut the stream, nothing is lost,
  repeated or reordered, and the running CRC is that of the stream.
 */
module SdoDomain {
  import opened Can
  import opened SdoTypes
  import Crc
  import Od
  import opened SdoServer
  import opened SdoServerSafe

  /** A server with the bytes acknowledged by the client and the bytes produced by the OD function so far. */
  datatype Stream = Stream(s: Server, acked: seq<byte>, produced: seq<byte>)

  predicate InUpload(s: Server) {
    s.state.UploadBlInitiate2? || s.state.UploadBlSubblock? || s.state.UploadBlEnd?
  }

  /** Acknowledged and buffered bytes are what was produced, and the CRC is theirs. */
  predicate Conserved(t: Stream) {
    && Safe(t.s) && InUpload(t.s) && t.s.arg.length <= t.s.node.size
    && t.acked + t.s.buf[..t.s.arg.length] == t.produced
    && (t.s.crcOn ==> t.s.crc == Checksum(t.produced))
  }

  /** The call takes a confirmation of segments and goes on with the next block. */
  predicate Confirms(s: Server, r: Server) {
    s.state.UploadBlSubblock? && s.rxNew && r.state.UploadBlSubblock? && !r.rxNew
  }

  /** Too little is left for the next block, so the OD function is asked for more. */
  predicate Asks(s: Server) {
    var left := s.arg.length - 7 * (s.rx[1] as int);
    !s.arg.stored && left < 7 * (s.rx[2] as int) && !s.arg.last
  }

  function Track(t: Stream, e: Event): (r: Stream) {
    var s := Step(t.s, e);
    if e.Processed? && Confirms(t.s, s) then
      Stream(s, t.acked + Take(t.s.buf, 7 * (t.s.rx[1] as int)),
             if Asks(t.s) then t.produced + Native(e.i.read.data, Swaps(t.s)) else t.produced)
    else t.(s := s)
  }

  /** A run, up to the moment the server leaves the upload. */
  function TrackRun(t: Stream, run: seq<Event>): (r: Stream)
    decreases |run|
  {
    if run == [] || !InUpload(t.s) then t else TrackRun(Track(t, run[0]), run[1..])
  }

  // ------------------------------------------------------------------- the pieces

  /** A chunk copied behind n bytes and brought into wire order. */
  lemma ChunkBytes(b: seq<byte>, n: nat, d: seq<byte>, swap: bool)
    requires n + |d| <= |b|
    ensures var c := SwapAt(Blit(b, n, d), n, |d|, swap); c[..n] == b[..n] && c[n..n + |d|] == Native(d, swap)
  {
    var e := Blit(b, n, d);
    assert e[n..n + |d|] == d && e[..n] == b[..n];
  }

  /** What a refill does to the buffer. */
  lemma RefillBuffer(s: Server, n: nat, r: ReadReply)
    requires !s.arg.stored && n + |r.data| <= s.node.size == |s.buf|
    ensures var a := Refill(s, n, r);
            a.abort == 0 ==>
              && a.s.arg.length == n + |r.data| && a.s.crc == s.crc && a.s.crcOn == s.crcOn
              && a.s.buf[..n] == s.buf[..n] && a.s.buf[n..a.s.arg.length] == Native(r.data, Swaps(s))
  {
    hide Od.Length, Od.HasSlot, Blit, SwapAt, Native;
    ChunkBytes(s.buf, n, r.data, Swaps(s));
  }

  /** Sending a segment leaves the stream alone. */
  lemma SendConserves(s: Server)
    requires s.at <= s.arg.length && (s.sequence == s.blksize || s.end || s.sequence < s.blksize)
    ensures var r := SendBlockSegment(s).s;
            r.buf == s.buf && r.arg == s.arg && r.crc == s.crc && r.crcOn == s.crcOn && r.state == s.state && r.rxNew == s.rxNew
  {
    hide SendBlockSegment;
    if s.sequence == s.blksize || s.end {
      NothingToSend(s);
    } else {
      SendBlockEffect(s);
    }
  }

  lemma NextBlockConserves(s: Server)
    requires s.state.UploadBlSubblock?
    ensures var r := NextBlock(s).s;
            r.state.Idle? || (r.buf == s.buf && r.arg == s.arg && r.crc == s.crc && r.crcOn == s.crcOn && r.state == s.state && !r.rxNew)
  {
    hide SendBlockSegment;
    SendConserves(s.(at := 0, sequence := 0, end := false, rxNew := false));
  }

  /** A chunk read behind the bytes in the buffer joins the stream. */
  lemma ChunkJoins(s: Server, r: ReadReply, produced: seq<byte>, acked: seq<byte>)
    requires !s.arg.stored && |s.buf| == s.node.size && s.arg.length + |r.data| <= s.node.size
    requires acked + s.buf[..s.arg.length] == produced && (s.crcOn ==> s.crc == Checksum(produced))
    ensures var n := s.arg.length; var a := Refill(s, n, r); var p := produced + Native(r.data, Swaps(s));
            a.abort == 0 ==>
              && n <= a.s.arg.length <= |a.s.buf| && acked + a.s.buf[..a.s.arg.length] == p
              && (s.crcOn ==> Crc.CrcOf(a.s.buf[n..a.s.arg.length], s.crc) == Checksum(p)) && a.s.crcOn == s.crcOn
              && (!s.crcOn ==> a.s.crc == s.crc)
  {
    hide Refill, Crc.CrcOf, Native;
    var n := s.arg.length;
    RefillBuffer(s, n, r);
    var a := Refill(s, n, r);
    if a.abort == 0 {
      var more := a.s.buf[n..a.s.arg.length];
      Crc.CrcConcat(produced, more, 0);
      assert a.s.buf[..a.s.arg.length] == s.buf[..n] + more;
    }
  }

  /** The rest of the buffer, and a chunk behind it if one is asked for. */
  lemma ConfirmedConserves(s: Server, i: Input, produced: seq<byte>, acked: seq<byte>)
    requires s.state.UploadBlSubblock? && |s.buf| == s.node.size && s.arg.length + |i.read.data| <= s.node.size
    requires acked + s.buf[..s.arg.length] == produced && (s.crcOn ==> s.crc == Checksum(produced))
    ensures var r := Confirmed(s, i).s;
            var asked := !s.arg.stored && s.arg.length < 7 * (s.rx[2] as int) && !s.arg.last;
            var p := if asked then produced + Native(i.read.data, Swaps(s)) else produced;
            r.state.Idle?
            || (&& r.state.UploadBlSubblock? && !r.rxNew && r.arg.length <= |r.buf|
                && acked + r.buf[..r.arg.length] == p && (r.crcOn ==> r.crc == Checksum(p)))
  {
    hide NextBlock, Refill, Checksum, Crc.CrcOf, Native;
    var s1 := s.(blksize := s.rx[2]);
    if !s.arg.stored && s.arg.length < 7 * (s.rx[2] as int) && !s.arg.last {
      var n := s.arg.length;
      ChunkJoins(s1, i.read, produced, acked);
      var a := Refill(s1, n, i.read);
      if a.abort == 0 {
        var more := a.s.buf[n..a.s.arg.length];
        NextBlockConserves(a.s.(crc := if s.crcOn then Crc.CrcOf(more, s.crc) else s.crc));
      }
    } else {
      NextBlockConserves(s1);
    }
  }

  lemma ShiftConserves(s: Server, k: nat, acked: seq<byte>, produced: seq<byte>)
    requires s.arg.length <= |s.buf| && 7 * k <= s.arg.length && acked + s.buf[..s.arg.length] == produced
    ensures var r := Shift(s, k);
            && r.arg == s.arg.(length := s.arg.length - 7 * k) && r == s.(buf := r.buf, arg := r.arg) && |r.buf| == |s.buf|
            && (acked + s.buf[..7 * k]) + r.buf[..r.arg.length] == produced
  {
    hide Blit;
    var n: nat := 7 * k;
    var r := Shift(s, k);
    MovedDown(s.buf, n, s.arg.length);
    assert s.buf[..s.arg.length] == s.buf[..n] + s.buf[n..s.arg.length];
  }

  /** One step of the sub-block state. */
  lemma SubblockConserves(t: Stream, i: Input)
    requires Conserved(t) && t.s.state.UploadBlSubblock? && Respects(t.s, i)
    ensures var r := SubblockUpload(t.s, i).s;
            || r.state.Idle?
            || (r.state.UploadBlEnd? && r.buf == t.s.buf && r.arg == t.s.arg && r.crc == t.s.crc && r.crcOn == t.s.crcOn)
            || (&& r.state.UploadBlSubblock? && !r.rxNew && r.arg.length <= |r.buf|
                && (if t.s.rxNew then
                      var p := if Asks(t.s) then t.produced + Native(i.read.data, Swaps(t.s)) else t.produced;
                      && (t.acked + Take(t.s.buf, 7 * (t.s.rx[1] as int))) + r.buf[..r.arg.length] == p
                      && (r.crcOn ==> r.crc == Checksum(p))
                    else r.buf == t.s.buf && r.arg == t.s.arg && r.crc == t.s.crc && r.crcOn == t.s.crcOn))
  {
    hide Confirmed, SendBlockSegment, Shift, Specifier, Subcommand, Checksum, Crc.CrcOf;
    var s := t.s;
    if !s.rxNew {
      SendConserves(s);
    } else if s.rx[1] <= s.sequence && !(s.end && s.rx[1] == s.blksize) {
      SafeInRange(s);
      var k: nat := s.rx[1];
      ShiftConserves(s, k, t.acked, t.produced);
      ConfirmedConserves(Shift(s, k), i, t.produced, t.acked + s.buf[..7 * k]);
    }
  }

  /** Data, length and CRC are as they were. */
  predicate SameData(s: Server, r: Server) {
    r.buf == s.buf && r.arg == s.arg && r.crc == s.crc && r.crcOn == s.crcOn
  }

  /** A call outside the sub-block state leaves the upload or leaves the stream alone. */
  lemma OtherCalls(s: Server, i: Input)
    requires InUpload(s) && !s.state.UploadBlSubblock? && Safe(s)
    ensures var r := Process(s, i).s; !InUpload(r) || SameData(s, r)
  {
    hide Start, SubblockResponse, SendBlockSegment, Sending;
    if s.state.UploadBlInitiate2? {
      SendConserves(s.(tx := ZERO_FRAME, timer := Add16(0, i.dt), at := 0, sequence := 0, end := false, rxNew := false,
                       state := UploadBlSubblock));
    }
  }

  lemma SubblockCall(s: Server, i: Input)
    requires s.state.UploadBlSubblock?
    ensures var x := Process(s, i);
            var s1 := s.(tx := ZERO_FRAME, timer := if s.timer < i.timeout then Add16(s.timer, i.dt) else s.timer);
            || x.s.state.Idle?
            || x.s == s.(timer := x.s.timer)
            || x == SubblockUpload(s1, i)
  {
    hide Start, SubblockResponse, SubblockUpload;
  }

  lemma ProcessConserves(t: Stream, i: Input)
    requires Conserved(t) && Respects(t.s, i)
    ensures var r := Track(t, Processed(i)); !InUpload(r.s) || Conserved(r)
  {
    hide Process, SubblockUpload, Safe, Checksum, Native;
    var s := t.s;
    var r := Process(s, i).s;
    ProcessSafe(s, i);
    BufferSize(s);
    BufferSize(r);
    if !s.state.UploadBlSubblock? {
      OtherCalls(s, i);
    } else {
      SubblockCall(s, i);
      if InUpload(r) && !(r == s.(timer := r.timer)) {
        var s1 := s.(tx := ZERO_FRAME, timer := if s.timer < i.timeout then Add16(s.timer, i.dt) else s.timer);
        SameSafe(s, s1);
        SubblockConserves(t.(s := s1), i);
      }
    }
  }

  lemma BufferSize(s: Server)
    requires Safe(s)
    ensures |s.buf| == s.node.size
  {
  }

  lemma ReceiveConserves(t: Stream, f: Frame)
    requires Conserved(t)
    ensures Conserved(Track(t, Arrives(f)))
  {
    hide Process, Safe, Checksum;
    ReceiveSafe(t.s, f);
  }

  /** Along the upload every OD function keeps to the room it is offered. */
  predicate PoliteStream(t: Stream, run: seq<Event>)
    decreases |run|
  {
    run == [] || !InUpload(t.s)
    || ((run[0].Processed? ==> Respects(t.s, run[0].i)) && PoliteStream(Track(t, run[0]), run[1..]))
  }

  /** In every reachable state of the upload the stream is conserved. */
  lemma {:induction false} StreamConserved(t: Stream, run: seq<Event>)
    requires Conserved(t) && PoliteStream(t, run)
    ensures var r := TrackRun(t, run); !InUpload(r.s) || Conserved(r)
    decreases |run|
  {
    hide Conserved, Track, Respects;
    if run != [] && InUpload(t.s) {
      match run[0]
      case Arrives(f) =>
        ReceiveConserves(t, f);
        StreamConserved(Track(t, run[0]), run[1..]);
      case Processed(i) =>
        ProcessConserves(t, i);
        if InUpload(Track(t, run[0]).s) {
          StreamConserved(Track(t, run[0]), run[1..]);
        }
    }
  }

  lemma ReadChunk(s: Server, r: ReadReply)
    requires !s.arg.stored && |s.buf| == s.node.size
    ensures var a := ReadOd(s, 0, r);
            a.abort == 0 ==>
              a.s.arg.length == |r.data| <= |a.s.buf| && a.s.buf[..|r.data|] == Native(r.data, Swaps(s))
  {
    hide Blit, SwapAt, Native;
    if |r.data| <= |s.buf| {
      ChunkBytes(s.buf, 0, r.data, Swaps(s));
    }
  }

  lemma Announce(s: Server)
    requires s.arg.length <= |s.buf|
    ensures var r := InitiateBlockUpload(s).s;
            r.state.UploadBlInitiate2? ==>
              r.buf == s.buf && r.arg == s.arg && (r.crcOn ==> r.crc == Checksum(s.buf[..s.arg.length]))
  {
    hide Checksum, Bit2, Subcommand, Le32;
  }

  lemma OtherRequests(s: Server, i: Input)
    ensures !InitiateDownload(s, i).s.state.UploadBlInitiate2? && !InitiateBlockDownload(s).s.state.UploadBlInitiate2?
    ensures !InitiateUpload(s).s.state.UploadBlInitiate2?
  {
    hide WriteOd, Blit, Bit0, Bit1, Bit2, FrameValue, Specifier, Segments, Take, Le32;
  }

  /** The upload starts with the first chunk of the domain in the buffer, and nothing acknowledged. */
  lemma StreamStarts(s: Server, i: Input, arg: Arg)
    requires Safe(s) && s.state.Idle? && s.rxNew && Lookup(s.node, FrameIndex(s.rx), s.rx[3]) == Found(arg) && !arg.stored
    ensures var r := Process(s, i).s;
            r.state.UploadBlInitiate2? ==>
              Conserved(Stream(r, [], Native(i.read.data, s.node.bigEndian && arg.access.multibyte)))
  {
    hide Process, Safe, Checksum, ReadOd, Native;
    BufferSize(s);
    var r := Process(s, i).s;
    if r.state.UploadBlInitiate2? {
      var s1 := s.(tx := ZERO_FRAME, timer := 0, arg := arg);
      var a := ReadOd(s1, 0, i.read);
      RequestIs(s, i, arg);
      ProcessSafe(s, i);
      ReadChunk(s1, i.read);
      Announce(a.s.(timer := Add16(0, i.dt)));
      BufferSize(r);
    }
  }

  lemma RequestIs(s: Server, i: Input, arg: Arg)
    requires s.state.Idle? && s.rxNew && Lookup(s.node, FrameIndex(s.rx), s.rx[3]) == Found(arg)
    requires Process(s, i).s.state.UploadBlInitiate2?
    ensures var a := ReadOd(s.(tx := ZERO_FRAME, timer := 0, arg := arg), 0, i.read);
            a.abort == 0 && Process(s, i) == InitiateBlockUpload(a.s.(timer := Add16(0, i.dt)))
  {
    hide Start, Lookup, FrameIndex, ReadOd, InitiateBlockUpload, Act, SubblockResponse;
    var s0 := s.(tx := ZERO_FRAME, timer := 0);
    assert Process(s, i) == Start(s0, i);
    StartIs(s0, i, arg);
  }

  lemma StartIs(s: Server, i: Input, arg: Arg)
    requires s.state.Idle? && s.timer == 0 && Lookup(s.node, FrameIndex(s.rx), s.rx[3]) == Found(arg)
    requires Start(s, i).s.state.UploadBlInitiate2?
    ensures var a := ReadOd(s.(arg := arg), 0, i.read);
            a.abort == 0 && Start(s, i) == InitiateBlockUpload(a.s.(timer := Add16(0, i.dt)))
  {
    hide Lookup, FrameIndex, ReadOd, Timed, Specifier;
    var s1 := s.(arg := arg);
    var a := ReadOd(s1, 0, i.read);
    FirstIs(s1, i);
    FirstIs(a.s, i);
  }

  lemma FirstIs(s: Server, i: Input)
    requires s.state.Idle? && s.timer == 0
    ensures !Timed(s, i, DownloadInitiate).s.state.UploadBlInitiate2?
    ensures !Timed(s, i, DownloadBlInitiate).s.state.UploadBlInitiate2?
    ensures !Timed(s, i, UploadInitiate).s.state.UploadBlInitiate2?
    ensures var x := Timed(s, i, UploadBlInitiate);
            x.s.state.UploadBlInitiate2? ==> x == InitiateBlockUpload(s.(timer := Add16(0, i.dt)))
  {
    hide InitiateBlockUpload, InitiateDownload, InitiateUpload, InitiateBlockDownload, SubblockResponse;
    OtherRequests(s.(timer := Add16(0, i.dt)), i);
  }
}
