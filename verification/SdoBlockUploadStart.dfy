/** Block upload from the request on. */
module SdoBlockUploadStart {
  import opened Can
  import opened SdoTypes
  import S = SdoServer
  import C = SdoClient
  import B = SdoBlockDownload
  import opened SdoCalls
  import opened SdoBlockUpload

  /** The object as it goes over the wire. */
  function Wire(s: S.Server, arg: S.Arg): (w: seq<byte>) {
    S.Native(S.Stored(s.(arg := arg)), S.Swaps(s.(arg := arg)))
  }

  /** Reading a stored object without an OD function puts it at the start of the buffer in wire order. */
  lemma ReadEffect(s: S.Server, r: S.ReadReply)
    requires s.arg.stored && s.arg.access.readable && !S.HasFunction(s) && |S.Stored(s)| == s.arg.length <= |s.buf|
    ensures var a := S.ReadOd(s, 0, r);
            && a.abort == 0 && a.s == s.(buf := a.s.buf) && |a.s.buf| == |s.buf|
            && a.s.buf[..s.arg.length] == S.Native(S.Stored(s), S.Swaps(s))
  {
    var d, n := S.Stored(s), s.arg.length;
    var b := Blit(s.buf, 0, d);
    assert b[0..0 + n] == d;
    var a := S.SwapAt(b, 0, n, S.Swaps(s));
    assert a[..n] == S.Native(d, S.Swaps(s));
  }

  predicate IsRequest(f: Frame, index: uint16, sub: byte) {
    f[0] == 0xA4 && FrameIndex(f) == index && f[3] == sub && f[4] == C.BLOCK_SIZE_MAX && f[5] == C.PST
  }

  lemma RequestFrame(c: C.Client, index: uint16, sub: byte, room: seq<byte>)
    requires 7 * C.BLOCK_SIZE_MAX <= |room|
    ensures var x := C.InitiateUpload(c, index, sub, room, true);
            && x.sent.Some? && IsRequest(x.sent.value, index, sub)
            && x.c.state.BlUploadInitiate? && x.c.buf == room && !x.c.rxNew && x.c.block.timer == 0
            && x.c.block.size == C.BLOCK_SIZE_MAX && x.c.block.seqno == 0
  {
    hide C.Request, FrameIndex;
    C.RequestFields(index, sub, 0xA4, [C.BLOCK_SIZE_MAX, C.PST, 0, 0]);
    assert forall f: Frame :: f[4..8][0] == f[4] && f[4..8][1] == f[5];
  }

  /** The server holds the object w in its buffer and has announced it. */
  predicate Announced(x: S.Result, w: seq<byte>) {
    && x.s.state.UploadBlInitiate2? && !x.s.rxNew && Serving(x.s, w) && x.s.arg.length == |w|
    && x.s.blksize == C.BLOCK_SIZE_MAX && x.sent.Some? && IsAccept(x.sent.value, |w|)
  }

  lemma AnnounceEffect(s: S.Server, w: seq<byte>)
    requires s.rx[0] == 0xA4 && s.rx[4] == C.BLOCK_SIZE_MAX && s.arg.last && s.arg.total == s.arg.length == |w|
    requires 0 < |w| <= s.node.size == |s.buf| && s.buf[..|w|] == w
    ensures Announced(S.InitiateBlockUpload(s), w)
  {
    hide Checksum, Le32, FromLe32;
    assert Bit2(0xA4) && Subcommand(0xA4) == 0;
    assert Take(s.buf, s.arg.length) == w;
    Le32RoundTrip(|w|);
    assert w[0..] == w;
  }

  /** The announcement names the object of the request. */
  lemma AnnounceEcho(s: S.Server, w: seq<byte>)
    requires Announced(S.InitiateBlockUpload(s), w)
    ensures var x := S.InitiateBlockUpload(s);
            FrameIndex(x.sent.value) == FrameIndex(s.rx) && x.sent.value[3] == s.rx[3] && x.s.timer == s.timer
  {
    hide Checksum, Serving;
  }

  /** The server answers a request in this call. */
  predicate Answers(i: S.Input) {
    i.operational && !i.txFull && i.dt < i.timeout
  }

  /** An object larger than the protocol switch threshold is announced, unless the call finds no time or no room to. */
  lemma RequestEffect(s: S.Server, i: S.Input, index: uint16, sub: byte, arg: S.Arg)
    requires s.state.Idle? && s.rxNew && IsRequest(s.rx, index, sub) && |s.buf| == s.node.size
    requires S.Lookup(s.node, index, sub) == S.Found(arg) && arg.stored && arg.access.readable
    requires !S.HasFunction(s.(arg := arg)) && C.PST < arg.length
    ensures var x := S.Process(s, i);
            if Answers(i) && arg.length <= s.node.size
            then && Announced(x, Wire(s, arg)) && FrameIndex(x.sent.value) == index && x.sent.value[3] == sub
                 && x.s.timer < 0xFFFF
            else Leaves(x) || x == S.Result(s.(timer := x.s.timer), None, 0)
  {
    hide S.Lookup, FrameIndex, S.ReadOd, S.InitiateBlockUpload, S.SubblockResponse, Announced, S.Native, S.Stored;
    assert Specifier(0xA4) == 5;
    var s1 := s.(tx := ZERO_FRAME, timer := 0, arg := arg);
    if Answers(i) && arg.length <= s.node.size {
      StoredLength(s1, index, sub);
      ReadEffect(s1, i.read);
      var a := S.ReadOd(s1, 0, i.read);
      SameWire(s, s1, arg);
      AnnounceEffect(a.s.(timer := i.dt), Wire(s, arg));
      AnnounceEcho(a.s.(timer := i.dt), Wire(s, arg));
      assert S.Process(s, i) == S.Start(s.(tx := ZERO_FRAME, timer := 0), i);
    }
  }

  lemma SameWire(s: S.Server, r: S.Server, arg: S.Arg)
    requires r.node == s.node && r.arg == arg
    ensures S.Native(S.Stored(r), S.Swaps(r)) == Wire(s, arg)
  {
  }

  lemma StoredLength(s: S.Server, index: uint16, sub: byte)
    requires S.Lookup(s.node, index, sub) == S.Found(s.arg) && s.arg.stored
    ensures |S.Stored(s)| == s.arg.length
  {
  }

  lemma AnnouncedInv(x: S.Result, c: C.Client, w: seq<byte>, timeout: uint16)
    requires Announced(x, w) && 0 < |w| && 2 <= timeout
    requires c.state.BlUploadInitiate? && !c.rxNew && c.block.timer == 0 && c.block.size == C.BLOCK_SIZE_MAX && c.block.seqno == 0
    requires Roomy(c)
    ensures Inv(Link(x.s, c, B.Queue([], x.sent), C.Ok, 0), w, timeout)
  {
    hide Serving;
    var q := [x.sent.value];
    assert B.Queue([], x.sent) == q && Pending(c, q) == q;
  }

  /** A server that declines sends an abort or nothing. */
  lemma DeclinedInv(x: S.Result, c: C.Client, w: seq<byte>, timeout: uint16)
    requires Leaves(x) && 0 < |w| && 2 <= timeout
    requires c.state.BlUploadInitiate? && !c.rxNew && c.block.timer == 0 && c.block.size == C.BLOCK_SIZE_MAX && c.block.seqno == 0
    requires Roomy(c)
    ensures Inv(Link(x.s, c, B.Queue([], x.sent), C.Ok, 0), w, timeout)
  {
    var q := B.Queue([], x.sent);
    assert Pending(c, q) == q;
  }

  /** The client is taking in the object. */
  predicate Transferring(c: C.Client) {
    || c.state.BlUploadInProgress? || c.state.BlUploadSubEnd? || c.state.BlUploadAck? || c.state.BlUploadAckLast?
    || c.state.BlUploadCrc? || c.state.BlUploadEnd?
  }

  lemma PrefixAlways(c: C.Client, toC: seq<Frame>, w: seq<byte>, hi: int, timeout: uint16)
    requires ClientInv(c, toC, w, hi, timeout) && Transferring(c)
    ensures B.Agrees(c.buf, c.block.received, w)
  {
  }

  /** An idle server, and a readable stored object of n bytes, large enough for a block upload. */
  predicate Ready(s: S.Server, index: uint16, sub: byte, arg: S.Arg, n: nat) {
    && s.state.Idle? && !s.rxNew && |s.buf| == s.node.size
    && S.Lookup(s.node, index, sub) == S.Found(arg) && arg.stored && arg.access.readable
    && !S.HasFunction(s.(arg := arg)) && C.PST < arg.length == n
  }

  /** The request of the client has reached the server, which has been called once. */
  function Requested(s: S.Server, c: C.Client, index: uint16, sub: byte, room: seq<byte>, i: S.Input): (l: Link)
    requires 7 * C.BLOCK_SIZE_MAX <= |room|
  {
    var x := C.InitiateUpload(c, index, sub, room, true);
    var y := S.Process(S.Receive(s, x.sent.value), i);
    Link(y.s, x.c, B.Queue([], y.sent), C.Ok, 0)
  }

  lemma RequestedInv(s: S.Server, c: C.Client, index: uint16, sub: byte, room: seq<byte>, arg: S.Arg, i: S.Input, timeout: uint16)
    requires Ready(s, index, sub, arg, arg.length) && 7 * C.BLOCK_SIZE_MAX <= |room| < 0x1_0000_0000 && 2 <= timeout
    ensures var l := Requested(s, c, index, sub, room, i);
            && |l.c.buf| == |room| && (l.s.state.Idle? || l.s.timer < 0xFFFF)
            && (Inv(l, Wire(s, arg), timeout) || Waiting(l, s, c, index, sub, room))
  {
    hide C.InitiateUpload, S.Process, S.Lookup, Inv, Wire, Announced;
    RequestFrame(c, index, sub, room);
    var x := C.InitiateUpload(c, index, sub, room, true);
    var s1 := S.Receive(s, x.sent.value);
    RequestEffect(s1, i, index, sub, arg);
    WireSame(s, s1, arg);
    WireLength(s, index, sub, arg);
    var y := S.Process(s1, i);
    if Answers(i) && arg.length <= s.node.size {
      AnnouncedInv(y, x.c, Wire(s, arg), timeout);
    } else if Leaves(y) {
      DeclinedInv(y, x.c, Wire(s, arg), timeout);
    }
  }

  // --------------------------------------------------------------------- whole runs

  lemma ProcessTimer(s: S.Server, i: S.Input)
    requires s.state.UploadBlInitiate2? || s.state.UploadBlSubblock? || s.state.UploadBlEnd?
    requires (s.state.UploadBlSubblock? ==> s.arg.last) && s.timer < 0xFFFF
    ensures var x := S.Process(s, i); x.s.state.Idle? || x.s.timer < 0xFFFF
  {
    hide S.StartBlockUpload, S.SubblockUpload, S.EndBlockUpload, S.SubblockResponse, S.Start;
    var s0 := if i.txFull || !(s.rxNew || s.state.UploadBlSubblock?) then s
              else s.(tx := ZERO_FRAME, timer := if s.state.UploadBlSubblock? then s.timer else 0);
    var s1 := s0.(timer := if s0.timer < i.timeout then Add16(s0.timer, i.dt) else s0.timer);
    ActTimer(s1, i);
  }

  lemma ActTimer(s: S.Server, i: S.Input)
    requires (s.state.UploadBlInitiate2? || s.state.UploadBlSubblock? || s.state.UploadBlEnd?) && (s.state.UploadBlSubblock? ==> s.arg.last)
    ensures var x := S.Act(s, i, s.state); x.s.state.Idle? || x.s.timer <= s.timer
  {
    hide S.Refill, Specifier, Subcommand, Bit0;
  }

  lemma ServerStates(l: Link, w: seq<byte>, timeout: uint16)
    requires Inv(l, w, timeout) && !l.s.state.Idle?
    ensures l.s.state.UploadBlInitiate2? || l.s.state.UploadBlSubblock? || l.s.state.UploadBlEnd?
    ensures l.s.state.UploadBlSubblock? ==> l.s.arg.last
  {
    hide ClientInv, IsAbort, SendingBlock, Checksum, SameBlock, Confirming, Started;
  }

  lemma StepTimer(l: Link, e: Event, w: seq<byte>, timeout: uint16)
    requires Inv(l, w, timeout) && (l.s.state.Idle? || l.s.timer < 0xFFFF)
    ensures var m := Step(l, e, timeout); m.s.state.Idle? || m.s.timer < 0xFFFF
  {
    hide ClientInv, S.Process, C.Upload, C.Receive;
    if !l.s.state.Idle? {
      ServerStates(l, w, timeout);
    }
    if e.ServerCall? {
      if !l.s.state.Idle? {
        ProcessTimer(l.s, e.i);
      } else if l.s.rxNew {
        IdleAnswers(l.s, e.i);
      } else {
        IdleCall(l.s, e.i);
      }
    }
  }

  /** A server in a transfer is not at the end of its time. */
  lemma {:induction false} RunTimer(l: Link, run: seq<Event>, w: seq<byte>, timeout: uint16)
    requires Inv(l, w, timeout) && Smooth(l, run, timeout) && 2 <= timeout && (l.s.state.Idle? || l.s.timer < 0xFFFF)
    ensures var m := Run(l, run, timeout); m.s.state.Idle? || m.s.timer < 0xFFFF
    decreases |run|
  {
    hide Inv, S.Process, C.Upload, C.Receive, Overtakes, Mistakes, Deliver;
    if run != [] {
      var m := Step(l, run[0], timeout);
      StepInv(l, run[0], w, timeout);
      StepTimer(l, run[0], w, timeout);
      RunTimer(m, run[1..], w, timeout);
    }
  }

  /** The server has put the request off. */
  predicate Waiting(l: Link, s: S.Server, c: C.Client, index: uint16, sub: byte, room: seq<byte>)
    requires 7 * C.BLOCK_SIZE_MAX <= |room|
  {
    var x := C.InitiateUpload(c, index, sub, room, true);
    l == Link(S.Receive(s.(timer := l.s.timer), x.sent.value), x.c, [], C.Ok, 0) && s.state.Idle? && !s.rxNew
  }

  /** Until it takes the request up, nothing happens. */
  lemma WaitingCalm(l: Link, e: Event, s: S.Server, c: C.Client, index: uint16, sub: byte, room: seq<byte>, timeout: uint16)
    requires 7 * C.BLOCK_SIZE_MAX <= |room|
    ensures Waiting(l, s, c, index, sub, room) ==>
              && !Overtakes(l, e, timeout) && !Mistakes(l, e, timeout)
              && Step(l, e, timeout) == (if e.ServerCall? then Requested(s.(timer := l.s.timer), c, index, sub, room, e.i) else l)
  {
    hide C.InitiateUpload, S.Process, C.Upload;
  }

  /** From the request on, whenever the server takes it up. */
  lemma {:induction false} StartRun(s: S.Server, c: C.Client, index: uint16, sub: byte, room: seq<byte>, arg: S.Arg,
                                    i: S.Input, run: seq<Event>, timeout: uint16)
    requires Ready(s, index, sub, arg, arg.length) && 7 * C.BLOCK_SIZE_MAX <= |room| < 0x1_0000_0000 && 2 <= timeout
    requires Smooth(Requested(s, c, index, sub, room, i), run, timeout)
    ensures var m := Run(Requested(s, c, index, sub, room, i), run, timeout);
            || Waiting(m, s, c, index, sub, room)
            || (Inv(m, Wire(s, arg), timeout) && (m.s.state.Idle? || m.s.timer < 0xFFFF))
    decreases |run|
  {
    hide Requested, Waiting, Inv, Step, Wire, Ready, Overtakes, Mistakes;
    var l := Requested(s, c, index, sub, room, i);
    RequestedInv(s, c, index, sub, room, arg, i, timeout);
    if !Waiting(l, s, c, index, sub, room) {
      RunInv(l, run, Wire(s, arg), timeout);
      RunTimer(l, run, Wire(s, arg), timeout);
    } else if run != [] {
      WaitingCalm(l, run[0], s, c, index, sub, room, timeout);
      if run[0].ServerCall? {
        var s1 := s.(timer := l.s.timer);
        SameReady(s, s1, index, sub, arg);
        StartRun(s1, c, index, sub, room, arg, run[0].i, run[1..], timeout);
        SameWaiting(Run(l, run, timeout), s, s1, c, index, sub, room);
      } else {
        StartRun(s, c, index, sub, room, arg, i, run[1..], timeout);
      }
    }
  }

  lemma SameReady(s: S.Server, r: S.Server, index: uint16, sub: byte, arg: S.Arg)
    requires Ready(s, index, sub, arg, arg.length) && r == s.(timer := r.timer)
    ensures Ready(r, index, sub, arg, arg.length) && Wire(r, arg) == Wire(s, arg)
  {
    hide S.Lookup;
  }

  lemma SameWaiting(l: Link, s: S.Server, r: S.Server, c: C.Client, index: uint16, sub: byte, room: seq<byte>)
    requires 7 * C.BLOCK_SIZE_MAX <= |room| && r == s.(timer := r.timer)
    ensures Waiting(l, r, c, index, sub, room) ==> Waiting(l, s, c, index, sub, room)
  {
    hide C.InitiateUpload;
  }

  /**
    A block upload of a stored object, from the request on, whatever frames of
    the server are lost: the client's buffer always holds a prefix of the padded
    object, and if the client reports success it reports the object's size and
    holds the object's bytes, unless its buffer cut off the last segment.
   */
  lemma BlockUpload(s: S.Server, c: C.Client, index: uint16, sub: byte, room: seq<byte>, arg: S.Arg,
                    i: S.Input, run: seq<Event>, timeout: uint16)
    requires Ready(s, index, sub, arg, arg.length) && 7 * C.BLOCK_SIZE_MAX <= |room| < 0x1_0000_0000 && 2 <= timeout
    requires Smooth(Requested(s, c, index, sub, room, i), run, timeout)
    ensures var m := Run(Requested(s, c, index, sub, room, i), run, timeout); var w := Wire(s, arg);
            && (Transferring(m.c) ==> B.Agrees(m.c.buf, m.c.block.received, w))
            && RightResult(m, w) && |m.c.buf| == |room|
  {
    hide Requested, Run, B.Agrees, ClientInv, ServerInv, Wire, RightResult, Ready;
    var w := Wire(s, arg);
    var l := Requested(s, c, index, sub, room, i);
    RequestedInv(s, c, index, sub, room, arg, i, timeout);
    StartRun(s, c, index, sub, room, arg, i, run, timeout);
    RunRoom(l, run, timeout);
    var m := Run(l, run, timeout);
    WaitingClient(m, s, c, index, sub, room, w);
    if Transferring(m.c) {
      PrefixAlways(m.c, m.toC, w, Hi(m.s), timeout);
    }
  }

  lemma WaitingClient(l: Link, s: S.Server, c: C.Client, index: uint16, sub: byte, room: seq<byte>, w: seq<byte>)
    requires 7 * C.BLOCK_SIZE_MAX <= |room|
    ensures Waiting(l, s, c, index, sub, room) ==> !Transferring(l.c) && RightResult(l, w)
  {
    hide C.InitiateUpload;
    RequestFrame(c, index, sub, room);
  }

  /** The user's buffer keeps its size. */
  lemma UploadRoom(c: C.Client, dt: uint16, timeout: uint16, txFull: bool)
    ensures |C.Upload(c, dt, timeout, txFull).c.buf| == |c.buf|
  {
    hide C.UploadTimed, C.UploadRx;
    RxRoom(c);
    TimedRoom(c, dt, timeout, txFull, 0);
    var x := C.UploadRx(c);
    TimedRoom(x.c.(timer := 0, rxNew := false), dt, timeout, txFull, x.abort);
  }

  lemma RxRoom(c: C.Client)
    ensures |C.UploadRx(c).c.buf| == |c.buf|
  {
    hide Specifier, Bit0, Bit1, Bit2, Toggle, SegmentUnused, BlockUnused, ExpeditedUnused, Checksum, FrameIndex, FrameValue, FromLe16;
  }

  lemma TimedRoom(c: C.Client, dt: uint16, timeout: uint16, txFull: bool, abort: uint32)
    ensures C.UploadTimed(c, dt, timeout, txFull, abort).c.buf == c.buf
  {
    hide C.BlockSizeFor, C.Confirm;
  }

  lemma ReceiveRoom(c: C.Client, f: Frame)
    ensures |C.Receive(c, f).buf| == |c.buf|
  {
    hide Seqno;
  }

  lemma {:induction false} RunRoom(l: Link, run: seq<Event>, timeout: uint16)
    ensures |Run(l, run, timeout).c.buf| == |l.c.buf|
    decreases |run|
  {
    hide S.Process, C.Upload, C.Receive, Deliver, MayCall;
    if run != [] {
      match run[0] {
        case ToClient => if l.toC != [] { ReceiveRoom(l.c, l.toC[0]); }
        case ClientCall(dt, txFull) => UploadRoom(l.c, dt, timeout, txFull);
        case _ =>
      }
      RunRoom(Step(l, run[0], timeout), run[1..], timeout);
    }
  }

  lemma WireLength(s: S.Server, index: uint16, sub: byte, arg: S.Arg)
    requires S.Lookup(s.node, index, sub) == S.Found(arg) && arg.stored
    ensures |Wire(s, arg)| == arg.length
  {
    hide S.Lookup;
    StoredLength(s.(arg := arg), index, sub);
  }

  lemma WireSame(s: S.Server, r: S.Server, arg: S.Arg)
    requires r.node == s.node
    ensures Wire(r, arg) == Wire(s, arg)
  {
  }
}
