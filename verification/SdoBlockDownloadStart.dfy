/** Block download from the request on, and what the end of the transfer does. */
module SdoBlockDownloadStart {
  import opened Can
  import opened SdoTypes
  import Od
  import S = SdoServer
  import C = SdoClient
  import opened SdoBlockDownload

  /** An idle server has just received the request of a block download of d. */
  function Requested(s: S.Server, c: C.Client, index: uint16, sub: byte, d: seq<byte>): (l: Link)
    requires C.PST < |d| < 0x1_0000_0000
  {
    var x := C.InitiateDownload(c, index, sub, d, true);
    Link(S.Receive(s, x.sent.value), x.c, [], [])
  }

  /** The frame that asks for a block download of n bytes. */
  predicate IsRequest(f: Frame, index: uint16, sub: byte, n: nat) {
    f[0] == 0xC6 && FrameIndex(f) == index && f[3] == sub && FrameValue(f) == n
  }

  lemma RequestFrame(c: C.Client, index: uint16, sub: byte, d: seq<byte>)
    requires C.PST < |d| < 0x1_0000_0000
    ensures var x := C.InitiateDownload(c, index, sub, d, true);
            && x.sent.Some? && IsRequest(x.sent.value, index, sub, |d|)
            && x.c.state.BlDownloadInitiate? && x.c.buf == d && !x.c.rxNew && x.c.index == index && x.c.sub == sub
  {
    hide C.Request, FrameIndex, FrameValue, C.Padded4, Le32;
    C.RequestFields(index, sub, 0xC6, Le32(|d|));
    C.RequestValue(index, sub, 0xC6, |d|);
  }

  /** The server agreed to receive n bytes for the object `arg`. */
  predicate Agreed(s: S.Server, x: S.Result, arg: S.Arg, n: nat) {
    && x.s.state.DownloadBlSubblock? && !x.s.rxNew && x.s.at == 0 && x.s.sequence == 0
    && x.s.node == s.node && x.s.buf == s.buf && x.s.arg == arg && arg.length == n <= s.node.size
    && arg.access.writeable && x.s.crcOn && x.s.crc == 0 && x.s.blksize == S.Segments(s.node.size)
    && x.sent.Some? && x.sent.value[0] == 0xA4 && x.sent.value[1] == s.rx[1] && x.sent.value[2] == s.rx[2]
    && x.sent.value[3] == s.rx[3] && x.sent.value[4] == x.s.blksize
  }

  /** The server declines unless the object takes exactly n bytes. */
  lemma RequestEffect(s: S.Server, i: S.Input, index: uint16, sub: byte, n: nat, arg: S.Arg)
    requires s.state.Idle? && s.rxNew && IsRequest(s.rx, index, sub, n)
    requires S.Lookup(s.node, index, sub) == S.Found(arg) && arg.stored
    ensures var x := S.Process(s, i);
            || (x.s.state.Idle? && x.s.node == s.node && (x.sent.Some? ==> x.sent.value[0] == ABORT))
            || Agreed(s, x, arg, n)
    ensures i.operational && !i.txFull && i.dt < i.timeout && arg.access.writeable && arg.length == n <= s.node.size
            ==> Agreed(s, S.Process(s, i), arg, n)
  {
    hide S.ReadOd, FrameIndex, FrameValue, S.Lookup, S.Segments, S.InitiateBlockDownload, S.SubblockResponse;
    var s1 := s.(tx := ZERO_FRAME, timer := 0, arg := arg);
    InitiateEffect(s1.(timer := Add16(0, i.dt)), n);
    assert Specifier(s.rx[0]) == 6;
    if !i.operational || i.txFull {
      assert S.Process(s, i).s.state.Idle? && S.Process(s, i).s.node == s.node;
    } else {
      assert S.Process(s, i) == S.Start(s.(tx := ZERO_FRAME, timer := 0), i);
    }
  }

  lemma InitiateEffect(s: S.Server, n: nat)
    requires s.rx[0] == 0xC6 && FrameValue(s.rx) == n && s.arg.stored && s.arg.total == s.arg.length
    ensures var x := S.InitiateBlockDownload(s);
            && x.s.node == s.node
            && (if s.arg.length != n then x.s.state.Idle? && x.sent.Some? && x.sent.value[0] == ABORT else
                && x.s.state.DownloadBlSubblock? && !x.s.rxNew && x.s.at == 0 && x.s.sequence == 0
                && x.s.buf == s.buf && x.s.arg == s.arg
                && x.s.crcOn && x.s.crc == 0 && x.s.blksize == S.Segments(s.node.size)
                && x.sent.Some? && x.sent.value[0] == 0xA4 && x.sent.value[1] == s.rx[1] && x.sent.value[2] == s.rx[2]
                && x.sent.value[3] == s.rx[3] && x.sent.value[4] == x.s.blksize)
  {
    hide FrameValue, S.Segments;
  }

  /** An agreement is the start of the invariant, the answer being on its way. */
  lemma AgreedInv(s: S.Server, x: S.Result, arg: S.Arg, c: C.Client, d: seq<byte>)
    requires Agreed(s, x, arg, |d|) && arg.stored && |s.buf| == s.node.size && 0 < |d|
    requires c.state.BlDownloadInitiate? && c.buf == d && !c.rxNew
    ensures Inv(Link(x.s, c, [], [x.sent.value]), d, x.s)
  {
    var l := Link(x.s, c, [], [x.sent.value]);
    assert Pending(l) == [x.sent.value];
  }

  /**
    A block download of d to an object of this server that is not a domain, from
    the request to the end of the transfer, whatever frames are lost and
    whenever the two sides are called: the buffer holds a prefix of the padded
    data, and the dictionary is untouched until it holds the whole data.
   */
  lemma BlockDownload(s: S.Server, c: C.Client, index: uint16, sub: byte, d: seq<byte>, arg: S.Arg,
                      i: S.Input, run: seq<Event>)
    requires s.state.Idle? && !s.rxNew && |s.buf| == s.node.size && C.PST < |d| < 0x1_0000_0000
    requires S.Lookup(s.node, index, sub) == S.Found(arg) && arg.stored
    ensures var l := Step(Requested(s, c, index, sub, d), ServerCall(i)); var r := Run(l, run).s;
            if r.state.Idle? then r.node == s.node || Written(r.node, d, s.(arg := arg))
            else r.node == s.node && Agrees(r.buf, r.at, d)
  {
    hide C.InitiateDownload, S.Process, S.Lookup, Run, Agrees, Written, Flow, Later;
    var x := C.InitiateDownload(c, index, sub, d, true);
    RequestFrame(c, index, sub, d);
    var s1 := S.Receive(s, x.sent.value);
    RequestEffect(s1, i, index, sub, |d|, arg);
    var l := Step(Requested(s, c, index, sub, d), ServerCall(i));
    if l.s.state.Idle? {
      IdleRun(l, run);
    } else {
      var y := S.Process(s1, i);
      AgreedInv(s1, y, arg, x.c, d);
      assert l == Link(y.s, x.c, [], [y.sent.value]);
      BlockDownloadSafe(l, run, d, y.s);
      WrittenSame(Run(l, run).s.node, d, y.s, s.(arg := arg));
    }
  }

  lemma IdleRun(l: Link, run: seq<Event>)
    requires l.s.state.Idle?
    ensures Run(l, run) == l
  {
  }

  lemma WrittenSame(n: S.Node, d: seq<byte>, o: S.Server, p: S.Server)
    requires o.node == p.node && o.arg == p.arg
    ensures Written(n, d, o) == Written(n, d, p)
  {
  }

  // ------------------------------------------------------------- segments and the end

  lemma TakeDetails(s: S.Server, f: Frame)
    requires Seqno(f[0]) == s.sequence + 1 && s.at < s.node.size
    ensures var r := S.ReceiveSegment(s, f);
            && r.at == Min(s.at + 7, s.node.size) && r.timer == 0 && r.crc == s.crc && r.crcOn == s.crcOn
            && r.blksize == s.blksize
            && (r.state.DownloadBlSubResp? <==>
                  s.state.DownloadBlSubResp? || r.at >= s.node.size || f[0] >= 0x80 || s.sequence + 1 >= s.blksize)
  {
    hide Seqno;
  }

  lemma AnsweredSame(s: S.Server, r: S.Server, x: S.Result, isLast: bool)
    requires Answered(s, x, isLast) && s == r.(tx := s.tx, timer := s.timer)
    ensures Answered(r, x, isLast)
  {
  }

  lemma ResponseDetails(s: S.Server, i: S.Input, isLast: bool)
    requires s.arg.stored && (isLast || s.at < s.node.size)
    ensures var x := S.SubblockResponse(s, i, isLast);
            x.s.crcOn == s.crcOn && x.s.crc == s.crc && x.sent.Some? && x.s.blksize == x.sent.value[2]
  {
    hide S.WriteOd, S.Segments;
  }

  /** The object of o holds bytes that a write replaces; the number of errors can be set to zero only. */
  predicate Slot(o: S.Server) {
    && o.arg.stored && !(o.arg.index == 0x1003 && o.arg.sub == 0)
    && Od.HasSlot(o.node.od, o.arg.entry, o.arg.sub) && Od.Get(o.node.od, o.arg.entry, o.arg.sub).Some?
    && |Od.Get(o.node.od, o.arg.entry, o.arg.sub).value| == o.arg.length
    && (o.node.od[o.arg.entry].obj.Array? ==> o.arg.sub > 0)
  }

  /** A write to the object of o goes through. */
  predicate Writeable(o: S.Server, i: S.Input) {
    Slot(o) && o.arg.access.writeable && (S.HasFunction(o) ==> i.write1 == 0)
  }

  lemma FoundSlot(s: S.Server, index: uint16, sub: byte, arg: S.Arg)
    requires S.Lookup(s.node, index, sub) == S.Found(arg) && arg.stored && arg.access.writeable && !(index == 0x1003 && sub == 0)
    ensures Slot(s.(arg := arg))
  {
  }

  lemma FoundWriteable(s: S.Server, index: uint16, sub: byte, arg: S.Arg, i: S.Input)
    requires S.Lookup(s.node, index, sub) == S.Found(arg) && arg.stored && arg.access.writeable
    requires !(index == 0x1003 && sub == 0)
    requires S.HasFunction(s.(arg := arg)) ==> i.write1 == 0
    ensures Writeable(s.(arg := arg), i)
  {
  }

  lemma WriteThrough(s: S.Server, i: S.Input, d: seq<byte>, o: S.Server)
    requires s.node == o.node && s.arg == o.arg.(last := true) && o.arg.length == |d| && |s.buf| == o.node.size
    requires |d| <= |s.buf| && Agrees(s.buf, |d|, d) && Writeable(o, i)
    ensures var a := S.WriteOd(s, |d|, i.write1); a.abort == 0 && Written(a.s.node, d, o)
  {
    assert s.buf[..|d|] == d;
    var b := S.SwapAt(s.buf, 0, |d|, S.Swaps(s));
    assert b[..|d|] == S.Native(d, S.Swaps(s));
  }

  /** The end frame: all of the data is written, or a part cut off at the end of the buffer is refused. */
  lemma EndOutcome(s: S.Server, i: S.Input, d: seq<byte>, o: S.Server)
    requires Carrying(s, d, o) && Writeable(o, i) && s.crcOn && s.crc == 0 && 7 <= s.at
    requires s.rx == C.EndFrame(7 * SegmentsFor(|d|) - |d|, Checksum(d)) && 0 < |d|
    requires s.at == Min(7 * SegmentsFor(|d|), s.node.size)
    ensures var x := S.EndBlockDownload(s, i);
            && x.s.state.Idle? && x.sent.Some?
            && (if 7 * SegmentsFor(|d|) <= s.node.size then Written(x.s.node, d, o) && x.sent.value[0] == 0xA1
                else x.s.node == o.node && x.sent.value[0] == ABORT)
  {
    hide S.WriteOd, Crc.CrcOf, Specifier, Bit0, BlockUnused, FromLe16, Written, Minus16, C.EndFrame, SegmentsFor, Writeable, Agrees;
    var u := 7 * SegmentsFor(|d|) - |d|;
    assert 0 <= u < 7 by {
      SegmentsForCovers(|d|);
    }
    C.EndFrameFields(u, Checksum(d));
    var at := s.at - u;
    Minus16Exact(s.at, u);
    AgreesLess(s.buf, s.at, at, d);
    var s1 := s.(at := at, crc := Crc.CrcOf(Take(s.buf, at), s.crc));
    if at == |d| {
      assert Take(s.buf, at) == d by {
        AgreesAll(s.buf, d);
      }
      WriteThrough(s1.(arg := s.arg.(last := true)), i, d, o);
    } else {
      ShortWrite(s1.(arg := s.arg.(last := true)), at, i.write1);
    }
  }

  lemma SegmentsForCovers(n: nat)
    ensures 0 <= 7 * SegmentsFor(n) - n < 7
  {
  }

  lemma AgreesAll(b: seq<byte>, d: seq<byte>)
    requires |d| <= |b| && Agrees(b, |d|, d)
    ensures Take(b, |d|) == d
  {
  }

  lemma ShortWrite(s: S.Server, n: uint16, abort: uint32)
    requires s.arg.stored && s.arg.length != n
    ensures var a := S.WriteOd(s, n, abort); a.abort != 0 && a.s == s
  {
  }

  lemma AgreesNothing(b: seq<byte>, d: seq<byte>)
    ensures Agrees(b, 0, d)
  {
  }
}
