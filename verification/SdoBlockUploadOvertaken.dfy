/**
  Block upload where a confirmation forced by the block timer overtakes a first
  segment. The server starts the block again, so that segment is under way
  twice, and the second copy can be taken for the first segment of the block
  behind it. From every such call on the transfer can go wrong, and the checksum
  does not always tell.
 */
module SdoBlockUploadOvertaken {
  import opened Can
  import opened SdoTypes
  import S = SdoServer
  import C = SdoClient
  import B = SdoBlockDownload
  import opened SdoBlockUpload
  import opened SdoBlockUploadStart
  import opened SdoBlockUploadLossless
  import opened SdoSegments
  import opened SdoBlockUploadRuns

  // ------------------------------------------------------------- a segment twice

  /** The server has been asked to go on at byte r. */
  predicate Asking(s: S.Server, w: seq<byte>, r: nat, size: byte) {
    && InSubblock(s, w) && s.rxNew && s.rx[0] == 0xA2 && s.rx[1] <= s.sequence && s.rx[2] == size && s.timer < 0xFFFF
    && ServerBase(s, w) + 7 * (s.rx[1] as int) == r && !(s.end && s.rx[1] == s.sequence)
  }

  /** The client waits for segment 1 at byte r. */
  predicate Awaiting(c: C.Client, w: seq<byte>, r: nat, timeout: uint16) {
    && Listening(c, w) && c.block.seqno == 0 && c.block.received == r && c.timer < timeout
    && c.block.size == C.BlockSizeFor(|w| - r)
  }

  /** The client waits for byte r, which the server is asked for, and segment 1 of byte b is still under way. */
  predicate Overtaken(l: Link, w: seq<byte>, b: nat, r: nat, timeout: uint16) {
    2 <= timeout && r < |w| && l.toC == [C.Segment(w, b, 1)] && Awaiting(l.c, w, r, timeout) && Asking(l.s, w, r, l.c.block.size)
  }

  /** A call that confirms because the time for the block is used up. */
  lemma ForcedConfirm(c: C.Client, w: seq<byte>, dt: uint16, timeout: uint16, txFull: bool, abort: uint32)
    requires !c.rxNew && Partial(c, w) && 2 <= timeout && (Expires(c, dt, timeout) || Late(c, timeout))
    requires Confirms(C.UploadTimed(c, dt, timeout, txFull, abort))
    ensures var x := C.UploadTimed(c, dt, timeout, txFull, abort);
            Awaiting(x.c, w, c.block.received, timeout) && x.sent == Some(C.Confirm(c.block.seqno, x.c.block.size))
  {
    hide B.Agrees, C.BlockSizeFor;
    NextSize(|w| - c.block.received);
  }

  lemma ConfirmForced(c: C.Client, dt: uint16, timeout: uint16)
    requires c.state.BlUploadInProgress? && !c.rxNew && c.timer + dt < timeout && timeout / 2 <= c.block.timer + dt < 0x1_0000
    ensures Expires(c, dt, timeout) && Confirms(C.Upload(c, dt, timeout, false))
  {
    hide C.BlockSizeFor;
  }

  lemma ConfirmAsks(s: S.Server, w: seq<byte>, k: byte, size: byte)
    requires InSubblock(s, w) && !s.rxNew && k <= s.sequence && !(s.end && k == s.sequence) && s.timer < 0xFFFF
    ensures 0 <= ServerBase(s, w)
    ensures Asking(Deliver(s, Some(C.Confirm(k, size))), w, ServerBase(s, w) + 7 * (k as int), size)
  {
    hide Serving, SendingBlock;
    var r := s.(rx := C.Confirm(k, size), rxNew := true);
    ConfirmDelivered(s, k, size);
    SameSubblock(s, r, w);
    BaseNat(s, w);
  }

  lemma BaseNat(s: S.Server, w: seq<byte>)
    requires InSubblock(s, w)
    ensures 0 <= ServerBase(s, w)
  {
    hide Checksum;
  }

  /** The server sends segment 1 at byte r. */
  lemma AskedSends(l: Link, w: seq<byte>, b: nat, r: nat, timeout: uint16)
    requires Overtaken(l, w, b, r, timeout)
    ensures var x := S.Process(l.s, PROMPT); var m := Step(l, ServerCall(PROMPT), timeout);
            HasSent(x, w, r, 1, l.c.block.size) && m == l.(s := x.s, toC := [C.Segment(w, b, 1), C.Segment(w, r, 1)])
  {
    hide S.Process, C.Segment, Serving, SendingBlock, Listening, C.BlockSizeFor, HasSent;
    ListeningSize(l.c, w);
    ConfirmSends(l.s, PROMPT, w);
    assert S.Process(l.s, PROMPT).sent == Some(C.Segment(w, r, 1)) by {
      HasSentMeans(S.Process(l.s, PROMPT), w, r, 1, l.c.block.size);
    }
  }

  lemma ListeningSize(c: C.Client, w: seq<byte>)
    requires Listening(c, w)
    ensures 0 < c.block.size < 0x80
  {
    hide B.Agrees;
  }

  /** Segment 1 is taken, and the time for the block runs out. */
  function Slip(timeout: uint16): (run: seq<Event>) {
    [ServerCall(PROMPT), ToClient, ClientCall(timeout / 2, false)]
  }

  /** The client takes segment 1 while a copy of it is sent. */
  lemma FirstTaken(c: C.Client, w: seq<byte>, b: nat, timeout: uint16)
    requires Awaiting(c, w, b, timeout) && b + 7 < |w|
    ensures var r := C.Receive(c, C.Segment(w, b, 1));
            && r.state.BlUploadInProgress? && !r.rxNew && Partial(r, w) && r.block.seqno == 1 && r.block.received == b + 7
            && r.timer == 0 && r.block.timer == 0 && r.block.size == c.block.size
  {
    hide C.Receive, C.Segment, B.Agrees;
    NextTaken(c, w);
    TwoMissing(|w| - b);
  }

  lemma TwoMissing(n: nat)
    requires 7 < n
    ensures 2 <= C.BlockSizeFor(n)
  {
  }

  /** The client moves on by a segment, and so does the server; the copy stays under way. */
  lemma Slips(l: Link, w: seq<byte>, b: nat, timeout: uint16)
    requires Overtaken(l, w, b, b, timeout) && b + 7 < |w|
    ensures Overtaken(Run(l, Slip(timeout), timeout), w, b, b + 7, timeout)
  {
    hide S.Process, C.Segment, C.Upload, C.Receive, Serving, SendingBlock, Listening, C.BlockSizeFor, HasSent, Partial, Asking, Awaiting;
    var l1 := Step(l, ServerCall(PROMPT), timeout);
    AskedSends(l, w, b, b, timeout);
    var l2 := Step(l1, ToClient, timeout);
    assert l2 == l1.(c := C.Receive(l.c, C.Segment(w, b, 1)), toC := [C.Segment(w, b, 1)]);
    FirstTaken(l.c, w, b, timeout);
    SentOne(S.Process(l.s, PROMPT), w, b, l.c.block.size);
    var l3 := Step(l2, ClientCall(timeout / 2, false), timeout);
    ConfirmForced(l2.c, timeout / 2, timeout);
    OvertakingCall(l2.c, w, timeout / 2, timeout, false);
    ConfirmAsks(l2.s, w, 1, l3.c.block.size);
    RunThree(l, Slip(timeout), timeout);
  }

  lemma SentOne(x: S.Result, w: seq<byte>, b: nat, size: int)
    requires HasSent(x, w, b, 1, size) && b + 7 < |w|
    ensures InSubblock(x.s, w) && ServerBase(x.s, w) == b && !x.s.rxNew && x.s.sequence == 1 && !x.s.end && x.s.timer == 0
  {
    hide Serving, C.Segment;
  }

  lemma RunThree(l: Link, run: seq<Event>, timeout: uint16)
    requires |run| == 3
    ensures Run(l, run, timeout) == Step(Step(Step(l, run[0], timeout), run[1], timeout), run[2], timeout)
  {
    hide Step;
    assert run[1..][0] == run[1] && run[1..][1..][0] == run[2] && run[1..][1..][1..] == [];
    var l1 := Step(l, run[0], timeout);
    assert Run(l1, run[1..], timeout) == Run(Step(l1, run[1], timeout), run[1..][1..], timeout);
  }

  /** The client stores the copy behind the segment itself. */
  lemma CopyTaken(c: C.Client, w: seq<byte>, b: nat, timeout: uint16, i: nat)
    requires Awaiting(c, w, b + 7, timeout) && i < 7 && b + 7 + i < |w| && w[b + i] != w[b + 7 + i]
    ensures var r := C.Receive(c, C.Segment(w, b, 1));
            && Transferring(r) && r.block.received <= |r.buf| && b + 7 + i < r.block.received
            && r.buf[b + 7 + i] == w[b + i]
  {
    hide C.BlockSizeFor, Seqno;
    var f := C.Segment(w, b, 1);
    LastBit(w, b, 1);
    assert f[1 + i] == w[b + i];
  }

  lemma Disagrees(c: C.Client, w: seq<byte>, k: nat, x: byte)
    requires c.block.received <= |c.buf| && k < |w| && k < c.block.received && c.buf[k] == x != w[k]
    ensures !B.Agrees(c.buf, c.block.received, w)
  {
  }

  /** Bytes of the object that the client holds are not those of the server. */
  predicate Broken(l: Link, w: seq<byte>) {
    Transferring(l.c) && !B.Agrees(l.c.buf, l.c.block.received, w)
  }

  /** Two neighbouring segments with the same bytes are the same frame. */
  lemma SameFrame(w: seq<byte>, b: nat)
    requires b + 14 < |w| && w[b..b + 7] == w[b + 7..b + 14]
    ensures C.Segment(w, b, 1) == C.Segment(w, b + 7, 1)
  {
    assert C.Padded7(w, b) == w[b..b + 7] && C.Padded7(w, b + 7) == w[b + 7..b + 14];
  }

  predicate LosesNothing(run: seq<Event>) {
    forall e :: e in run ==> !e.LoseAnswer?
  }

  /** Sooner or later the copies do not fit, if some byte differs from the seventh behind it. */
  lemma {:induction false} CopiesBreak(l: Link, w: seq<byte>, b: nat, timeout: uint16, j: nat) returns (run: seq<Event>)
    requires Overtaken(l, w, b, b, timeout) && b <= j && j + 7 < |w| && w[j] != w[j + 7]
    ensures Broken(Run(l, run, timeout), w) && LosesNothing(run)
    decreases |w| - b
  {
    hide C.Segment, Overtaken, Step, Broken, Run;
    Slips(l, w, b, timeout);
    var m := Run(l, Slip(timeout), timeout);
    if j < b + 7 || w[b..b + 7] != w[b + 7..b + 14] {
      var i := Differing(w, b, j);
      CopyBreaks(m, w, b, timeout, i);
      run := Slip(timeout) + [ToClient];
      RunConcat(l, Slip(timeout), [ToClient], timeout);
      RunOne(m, ToClient, timeout);
    } else {
      SameFrame(w, b);
      NextOvertaken(m, w, b, timeout);
      var rest := CopiesBreak(m, w, b + 7, timeout, j);
      run := Slip(timeout) + rest;
      RunConcat(l, Slip(timeout), rest, timeout);
    }
  }

  lemma Differing(w: seq<byte>, b: nat, j: nat) returns (i: nat)
    requires b <= j && j + 7 < |w| && w[j] != w[j + 7] && (j < b + 7 || w[b..b + 7] != w[b + 7..b + 14])
    ensures i < 7 && b + 7 + i < |w| && w[b + i] != w[b + 7 + i]
  {
    if j < b + 7 {
      i := j - b;
    } else {
      i :| 0 <= i < 7 && w[b..b + 7][i] != w[b + 7..b + 14][i];
    }
  }

  lemma NextOvertaken(l: Link, w: seq<byte>, b: nat, timeout: uint16)
    requires Overtaken(l, w, b, b + 7, timeout) && C.Segment(w, b, 1) == C.Segment(w, b + 7, 1)
    ensures Overtaken(l, w, b + 7, b + 7, timeout)
  {
    hide C.Segment, Asking, Awaiting;
  }

  lemma RunOne(l: Link, e: Event, timeout: uint16)
    ensures Run(l, [e], timeout) == Step(l, e, timeout)
  {
    hide Step;
    assert [e][1..] == [];
  }

  lemma CopyBreaks(l: Link, w: seq<byte>, b: nat, timeout: uint16, i: nat)
    requires Overtaken(l, w, b, b + 7, timeout) && i < 7 && b + 7 + i < |w| && w[b + i] != w[b + 7 + i]
    ensures Broken(Step(l, ToClient, timeout), w)
  {
    hide C.Segment, C.Receive, Asking, Awaiting, Transferring, B.Agrees;
    CopyTaken(l.c, w, b, timeout, i);
    Disagrees(C.Receive(l.c, C.Segment(w, b, 1)), w, b + 7 + i, w[b + i]);
  }

  // ------------------------------------------------------- from the overtaking call on

  /** A first segment under way belongs to the client's block. */
  lemma {:induction false} FlowFirst(q: seq<Frame>, base: int, w: seq<byte>, hi: int) returns (k: nat)
    requires Flow(q, base, w, hi) && !B.AllLater(q)
    ensures 0 <= base && 1 <= hi && k < |q| && q[k] == C.Segment(w, base, 1)
    decreases |q|
  {
    hide C.Segment, Seqno, IsAbort;
    if Chain(q, base, w, 0, hi) {
      k := 0;
      NotAborts(q);
      LiveNumber(q[0], base, w, 0, hi);
      if B.Later(q[0]) {
        NoneFirst(q, base, w, hi);
        assert false;
      }
    } else {
      assert !B.AllLater(q[1..]) by {
        assert forall i :: 0 < i < |q| ==> q[i] == q[1..][i - 1];
      }
      k := FlowFirst(q[1..], base, w, hi);
      k := k + 1;
    }
  }

  lemma NoneFirst(q: seq<Frame>, base: int, w: seq<byte>, hi: int)
    requires Chain(q, base, w, 0, hi) && !AllAborts(q) && B.Later(q[0])
    ensures B.AllLater(q)
  {
    hide Seqno, C.Segment, IsAbort;
    ChainLater(q[1..], base, w, Seqno(q[0][0]), hi);
    assert forall i :: 0 < i < |q| ==> q[i] == q[1..][i - 1];
  }

  lemma NotAborts(q: seq<Frame>)
    requires !B.AllLater(q)
    ensures !AllAborts(q) && q != []
  {
    B.SeqnoOfAbort();
  }

  /** All frames but one get lost. */
  lemma {:induction false} KeepOne(l: Link, k: nat, timeout: uint16) returns (run: seq<Event>)
    requires k < |l.toC|
    ensures Run(l, run, timeout) == l.(toC := [l.toC[k]])
    decreases |l.toC|
  {
    if |l.toC| == 1 {
      run := [];
    } else {
      var j: nat := if k == 0 then 1 else 0;
      var m := Step(l, LoseAnswer(j), timeout);
      run := KeepOne(m, if k == 0 then 0 else k - 1, timeout);
      run := [LoseAnswer(j)] + run;
    }
  }

  /** The client and the server at the overtaking call. */
  lemma AtCall(l: Link, e: Event, w: seq<byte>, timeout: uint16) returns (k: nat)
    requires Inv(l, w, timeout) && Overtakes(l, e, timeout) && 2 <= timeout
    ensures Partial(l.c, w) && l.c.block.seqno == 0 && InSubblock(l.s, w) && ServerBase(l.s, w) == l.c.block.received
    ensures !l.s.rxNew && 0 < l.s.sequence && k < |l.toC| && l.toC[k] == C.Segment(w, l.c.block.received, 1)
  {
    hide B.AllLater, Flow, Chain, Serving, SendingBlock, B.Agrees, C.Upload, C.Segment, IsAbort;
    assert SdoBlockUpload.InBlock(l.c, l.toC, w, Hi(l.s));
    if l.c.block.seqno != 0 {
      ChainLater(l.toC, Base(l.c), w, l.c.block.seqno, Hi(l.s));
      assert false;
    }
    k := FlowFirst(l.toC, Base(l.c), w, Hi(l.s));
  }

  /** The overtaking call, and the loss of all but the first segment. */
  lemma CallOvertakes(l: Link, e: Event, w: seq<byte>, timeout: uint16) returns (run: seq<Event>)
    requires Inv(l, w, timeout) && Overtakes(l, e, timeout) && 2 <= timeout && l.s.timer < 0xFFFF
    ensures var b := l.c.block.received; Overtaken(Run(l, [e] + run, timeout), w, b, b, timeout)
  {
    hide Inv, B.AllLater, Serving, SendingBlock, Partial, C.Upload, C.Segment, Asking, Awaiting, Run, InSubblock;
    var k := AtCall(l, e, w, timeout);
    var m := Step(l, e, timeout);
    OvertakingCall(l.c, w, e.dt, timeout, e.txFull);
    ConfirmAsks(l.s, w, 0, m.c.block.size);
    run := KeepOne(m, k, timeout);
    RunConcat(l, [e], run, timeout);
    RunOne(l, e, timeout);
    assert l.c.block.received < |w| by {
      PartialFacts(l.c, w);
    }
  }

  lemma OvertakingCall(c: C.Client, w: seq<byte>, dt: uint16, timeout: uint16, txFull: bool)
    requires Partial(c, w) && 2 <= timeout && (Expires(c, dt, timeout) || Late(c, timeout))
    requires Confirms(C.Upload(c, dt, timeout, txFull))
    ensures var x := C.Upload(c, dt, timeout, txFull);
            && Awaiting(x.c, w, c.block.received, timeout) && x.sent == Some(C.Confirm(c.block.seqno, x.c.block.size))
  {
    hide C.UploadTimed, Awaiting, Partial;
    if !c.rxNew {
      ForcedConfirm(c, w, dt, timeout, txFull, 0);
    } else if c.rx[0] != ABORT {
      LateRx(c, dt, timeout, txFull);
      SamePartial(c, c.(timer := 0, rxNew := false), w);
      ForcedConfirm(c.(timer := 0, rxNew := false), w, dt, timeout, txFull, AB_CMD);
    }
  }

  // ------------------------------------------------------------- from the request on

  /**
    Wherever a confirmation forced by the block timer overtakes a first segment,
    with the server still in the transfer, the transfer can go on so that the
    client holds wrong bytes: unless from there on every byte is the same as the
    seventh behind it.
   */
  lemma OvertakenFails(s: S.Server, c: C.Client, index: uint16, sub: byte, room: seq<byte>, arg: S.Arg,
                       i: S.Input, run: seq<Event>, e: Event, timeout: uint16, j: nat) returns (rest: seq<Event>)
    requires Ready(s, index, sub, arg, arg.length) && 7 * C.BLOCK_SIZE_MAX <= |room| < 0x1_0000_0000 && 2 <= timeout
    requires Smooth(Requested(s, c, index, sub, room, i), run, timeout)
    requires var l := Run(Requested(s, c, index, sub, room, i), run, timeout); var w := Wire(s, arg);
             && Overtakes(l, e, timeout)
             && l.c.block.received <= j && j + 7 < |w| && w[j] != w[j + 7]
    ensures Broken(Run(Requested(s, c, index, sub, room, i), run + ([e] + rest), timeout), Wire(s, arg))
  {
    hide Requested, Run, Wire, Ready, Inv, Forced, Overtaken, Broken, Smooth, Mistakes;
    var l0, w := Requested(s, c, index, sub, room, i), Wire(s, arg);
    StartRun(s, c, index, sub, room, arg, i, run, timeout);
    var l := Run(l0, run, timeout);
    WaitingCalm(l, e, s, c, index, sub, room, timeout);
    var lose := CallOvertakes(l, e, w, timeout);
    var m := Run(l, [e] + lose, timeout);
    var more := CopiesBreak(m, w, l.c.block.received, timeout, j);
    rest := lose + more;
    RunConcat(l, [e] + lose, more, timeout);
    assert [e] + rest == ([e] + lose) + more;
    RunConcat(l0, run, [e] + rest, timeout);
  }

  // ------------------------------------------------------------ a server that has left

  lemma EmptyAnswered(s: S.Server, i: S.Input)
    requires s.state.Idle? && s.rxNew && s.rx[0] == 0xA2 && s.rx[5] == 0 && NamesEmpty(s, s.rx) && Answers(i)
    ensures var x := S.Process(s, i); x.sent.Some? && x.sent.value[0] == 0x53 && x.sent.value[1] == s.rx[1]
  {
    hide S.Lookup, FrameIndex, S.StartUpload, S.SubblockResponse;
    assert Specifier(0xA2) == 5;
    var s1 := s.(tx := ZERO_FRAME, timer := 0);
    var a := S.InitTransfer(s1, FrameIndex(s.rx), s.rx[3]);
    assert S.Process(s, i) == S.Start(s1, i) == S.StartUpload(a.s, i, true);
    EmptyRead(a.s, i);
  }

  lemma EmptyRead(s: S.Server, i: S.Input)
    requires s.state.Idle? && s.rx[5] == 0 && s.timer == 0 && Answers(i)
    requires s.arg.length == 0 && s.arg.stored && s.arg.access.readable && !S.HasFunction(s)
    ensures var x := S.StartUpload(s, i, true); x.sent.Some? && x.sent.value[0] == 0x53 && x.sent.value[1] == s.rx[1]
  {
    hide S.SubblockResponse, S.InitiateBlockUpload, Blit, S.SwapAt, S.Stored;
  }

  /** The client takes the answer for segment 83. */
  lemma EchoTaken(c: C.Client, f: Frame, w: seq<byte>)
    requires Partial(c, w) && c.state.BlUploadInProgress? && !c.rxNew && c.block.seqno == 82
    requires f[0] == 0x53 && f[1] != w[c.block.received]
    ensures var r := C.Receive(c, f); Transferring(r) && !B.Agrees(r.buf, r.block.received, w)
  {
    assert Seqno(0x53) == 83;
    var r := C.Receive(c, f);
    assert r.buf[c.block.received] == f[1];
  }

  /**
    Why a confirmation must not overtake a first segment either when the server
    has left and the confirmation names an object without any bytes: with 82
    segments taken meanwhile, the answer is stored as the next one.
   */
  lemma MistakenFails(l: Link, i: S.Input, w: seq<byte>, timeout: uint16)
    requires l.s.state.Idle? && l.s.rxNew && l.s.rx[0] == 0xA2 && l.s.rx[5] == 0 && NamesEmpty(l.s, l.s.rx) && Answers(i)
    requires Partial(l.c, w) && l.c.state.BlUploadInProgress? && !l.c.rxNew && l.c.block.seqno == 82 && l.toC == []
    requires l.s.rx[1] != w[l.c.block.received]
    ensures Broken(Run(l, [ServerCall(i), ToClient], timeout), w)
  {
    hide S.Process, C.Receive, NamesEmpty, Partial, B.Agrees, Run, Transferring;
    EmptyAnswered(l.s, i);
    var m := Step(l, ServerCall(i), timeout);
    EchoTaken(l.c, m.toC[0], w);
    RunConcat(l, [ServerCall(i)], [ToClient], timeout);
    RunOne(l, ServerCall(i), timeout);
    RunOne(m, ToClient, timeout);
    assert [ServerCall(i)] + [ToClient] == [ServerCall(i), ToClient];
  }

  // ------------------------------------------------------------------ nothing is lost

  /** The first segment is sent, and the time for the block is used up before it arrives. */
  function Overtaking(timeout: uint16): (run: seq<Event>) {
    [ToClient, ClientCall(0, false), ServerCall(PROMPT), ClientCall(timeout / 2, false)]
  }

  /** The client takes the announcement and asks for the first block. */
  lemma FirstAsked(l: Link, w: seq<byte>, room: nat, timeout: uint16)
    requires At(l, Announcing, w, w, room, timeout) && l.c.rxNew
    ensures var m := Step(l, ClientCall(0, false), timeout);
            At(m, Asked, w, w, room, timeout) && m.c.timer == m.c.block.timer == 0
  {
    hide Kin, Serving, B.Agrees, C.Upload, S.Process, At, C.Receive, Deliver, Listening, IsAccept, FrameIndex, Taking, Roomy;
    StartFacts(l, Announcing, w, w, room, timeout);
    assert l.toC == [] && Pending(l.c, l.toC)[0] == l.c.rx;
    CallAccepts(l.c, w, 0, timeout, false);
    var c := l.c.(state := C.BlUploadInitiateAck, timer := 0, rxNew := false,
                  block := l.c.block.(crcOn := true, dataSize := |w|, received := 0));
    CallStarts(c, w, 0, timeout, false);
    StartTimers(c, timeout);
    HasAsked(l, C.Upload(l.c, 0, timeout, false), w, w, room, timeout);
  }

  lemma FirstSent(l: Link, w: seq<byte>, room: nat, timeout: uint16)
    requires At(l, Asked, w, w, room, timeout) && 7 < |w|
    ensures var m := Step(l, ServerCall(PROMPT), timeout);
            && m.toC == [C.Segment(w, 0, 1)] && m.c == l.c && Partial(m.c, w) && m.c.state.BlUploadInProgress? && !m.c.rxNew
            && m.c.block.seqno == 0 && m.c.block.received == 0 && Ticks(m.c, timeout)
            && InSubblock(m.s, w) && ServerBase(m.s, w) == 0 && !m.s.rxNew && m.s.sequence == 1 && !m.s.end && m.s.timer == 0
  {
    hide S.Process, Kin, Serving, SendingBlock, B.Agrees, C.Segment, At, HasSent;
    StartFacts(l, Asked, w, w, room, timeout);
    StartSends(l.s, PROMPT, w);
    var x := S.Process(l.s, PROMPT);
    HasSentMeans(x, w, 0, 1, C.BLOCK_SIZE_MAX);
    SentOne(x, w, 0, C.BLOCK_SIZE_MAX);
  }

  lemma StartTimers(c: C.Client, timeout: uint16)
    requires c.state.BlUploadInitiateAck? && !c.rxNew && c.timer == 0 && c.block.timer < timeout / 2
    ensures var x := C.Upload(c, 0, timeout, false); x.c.timer == x.c.block.timer == 0
  {
  }

  lemma StartOvertaken(l: Link, w: seq<byte>, room: nat, timeout: uint16)
    requires At(l, Announcing, w, w, room, timeout) && 7 < |w| && l.toC != []
    ensures Overtaken(Run(l, Overtaking(timeout), timeout), w, 0, 0, timeout)
  {
    hide At, Partial, C.Segment, C.Upload, S.Process, InSubblock, Ticks, Run, Asking, Awaiting;
    HearFrame(l, Announcing, w, w, room, timeout);
    var l1 := Step(l, ToClient, timeout);
    Heard(l, w, room, timeout);
    FirstAsked(l1, w, room, timeout);
    var l2 := Step(l1, ClientCall(0, false), timeout);
    FirstSent(l2, w, room, timeout);
    var l3 := Step(l2, ServerCall(PROMPT), timeout);
    var l4 := Step(l3, ClientCall(timeout / 2, false), timeout);
    ConfirmForced(l3.c, timeout / 2, timeout);
    OvertakingCall(l3.c, w, timeout / 2, timeout, false);
    ConfirmAsks(l3.s, w, 0, l4.c.block.size);
    RunFour(l, Overtaking(timeout), timeout);
  }

  lemma Heard(l: Link, w: seq<byte>, room: nat, timeout: uint16)
    requires At(l, Announcing, w, w, room, timeout) && l.toC != []
    ensures var m := Step(l, ToClient, timeout); m.c.rxNew && 2 <= timeout
  {
    hide Kin, Serving, IsAccept, FrameIndex, C.ReceiveSegment;
  }

  lemma RunFour(l: Link, run: seq<Event>, timeout: uint16)
    requires |run| == 4
    ensures Run(l, run, timeout) == Step(Step(Step(Step(l, run[0], timeout), run[1], timeout), run[2], timeout), run[3], timeout)
  {
    hide Step;
    RunThree(Step(l, run[0], timeout), run[1..], timeout);
  }

  lemma RequestUnderWay(s: S.Server, c: C.Client, index: uint16, sub: byte, room: seq<byte>, arg: S.Arg, i: S.Input, timeout: uint16)
    requires Ready(s, index, sub, arg, arg.length) && arg.length <= s.node.size && arg.length <= |room| && Answers(i) && 2 <= timeout
    requires 7 * C.BLOCK_SIZE_MAX <= |room| < 0x1_0000_0000
    ensures Requested(s, c, index, sub, room, i).toC != []
  {
    hide C.InitiateUpload, S.Process, S.Lookup, Wire, Serving, FrameIndex, IsAccept;
    RequestFrame(c, index, sub, room);
    var x := C.InitiateUpload(c, index, sub, room, true);
    RequestEffect(S.Receive(s, x.sent.value), i, index, sub, arg);
  }

  /** Nothing is lost, and yet the client comes to hold wrong bytes, if some byte differs from the seventh behind it. */
  lemma LosslessRunFails(s: S.Server, c: C.Client, index: uint16, sub: byte, room: seq<byte>, arg: S.Arg,
                         i: S.Input, timeout: uint16, j: nat) returns (run: seq<Event>)
    requires Ready(s, index, sub, arg, arg.length) && arg.length <= s.node.size && arg.length <= |room| && Answers(i) && 2 <= timeout
    requires 7 * C.BLOCK_SIZE_MAX <= |room| < 0x1_0000_0000
    requires var w := Wire(s, arg); j + 7 < |w| && w[j] != w[j + 7]
    ensures LosesNothing(run) && Broken(Run(Requested(s, c, index, sub, room, i), run, timeout), Wire(s, arg))
  {
    hide Requested, Run, Wire, Ready, At, Overtaken, Broken;
    var l, w := Requested(s, c, index, sub, room, i), Wire(s, arg);
    ReadyLong(s, index, sub, arg);
    StartsAt(s, c, index, sub, room, arg, i, timeout);
    RequestUnderWay(s, c, index, sub, room, arg, i, timeout);
    StartOvertaken(l, w, |room|, timeout);
    var m := Run(l, Overtaking(timeout), timeout);
    var rest := CopiesBreak(m, w, 0, timeout, j);
    run := Overtaking(timeout) + rest;
    RunConcat(l, Overtaking(timeout), rest, timeout);
  }

  // ---------------------------------------------------------------- a wrong success

  /** The object with its first segment in place of the second. */
  function Doubled(w: seq<byte>): (v: seq<byte>)
    requires 14 <= |w|
  {
    w[..7] + w[..7] + w[14..]
  }

  lemma DoubledKin(w: seq<byte>)
    requires 14 < |w| && Checksum(Doubled(w)) == Checksum(w)
    ensures Kin(w, Doubled(w), 14) && C.Segment(w, 0, 1) == C.Segment(Doubled(w), 7, 1)
  {
    hide Checksum, C.Segment;
    SameSecond(w, Doubled(w));
  }

  lemma SameSecond(w: seq<byte>, v: seq<byte>)
    requires 14 < |w| == |v| && v[7..14] == w[..7]
    ensures C.Segment(w, 0, 1) == C.Segment(v, 7, 1)
  {
    assert C.Padded7(w, 0) == w[..7] && C.Padded7(v, 7) == v[7..14];
  }

  lemma AwaitingOther(c: C.Client, w: seq<byte>, timeout: uint16)
    requires Awaiting(c, w, 7, timeout) && 14 < |w|
    ensures Awaiting(c, Doubled(w), 7, timeout)
  {
    hide C.BlockSizeFor;
    assert forall k :: 0 <= k < 7 ==> Doubled(w)[k] == w[k];
  }

  /** The copy goes into the buffer, and the segment it stands for is taken for a repetition. */
  const MISTAKE := [ServerCall(PROMPT), ToClient, ToClient]

  lemma SecondIgnored(c: C.Client, w: seq<byte>, v: seq<byte>, timeout: uint16)
    requires c.state.BlUploadInProgress? && !c.rxNew && Partial(c, v) && c.block.seqno == 1
    ensures var r := C.Receive(c, C.Segment(w, 7, 1));
            && r.state.BlUploadInProgress? && !r.rxNew && Partial(r, v) && r.timer == 0 && |r.buf| == |c.buf|
            && r.block == c.block.(timer := 0)
  {
    hide C.Segment, B.Agrees;
    LastBit(w, 7, 1);
    OutOfOrder(c, C.Segment(w, 7, 1));
    SamePartial(c, C.ReceiveSegment(c, C.Segment(w, 7, 1)), v);
  }

  lemma Mistaken(l: Link, w: seq<byte>, timeout: uint16)
    requires Overtaken(l, w, 0, 7, timeout) && 14 < |w| <= |l.c.buf| && Checksum(Doubled(w)) == Checksum(w)
    ensures At(Run(l, MISTAKE, timeout), InBlock, w, Doubled(w), |l.c.buf|, timeout)
  {
    hide S.Process, C.Segment, C.Receive, C.Upload, InSubblock, Partial, Kin, HasSent, Run, At, Awaiting, Asking;
    var v := Doubled(w);
    AskedSends(l, w, 0, 7, timeout);
    var l1 := Step(l, ServerCall(PROMPT), timeout);
    DoubledKin(w);
    AwaitingOther(l.c, w, timeout);
    FirstTaken(l.c, v, 7, timeout);
    var l2 := Step(l1, ToClient, timeout);
    assert l2.c == C.Receive(l.c, C.Segment(v, 7, 1)) && l2.toC == [C.Segment(w, 7, 1)];
    SecondIgnored(l2.c, w, v, timeout);
    ReceiveRoom(l.c, C.Segment(v, 7, 1));
    var l3 := Step(l2, ToClient, timeout);
    assert l3.c == C.Receive(l2.c, C.Segment(w, 7, 1)) && l3.toC == [];
    SizeTwo(l.c, w, 7, timeout);
    SentOne(S.Process(l.s, PROMPT), w, 7, l.c.block.size);
    BlockSize(S.Process(l.s, PROMPT), w, l.c.block.size);
    InStepAgain(l3, w, v, timeout);
    RunThree(l, MISTAKE, timeout);
  }

  lemma BlockSize(x: S.Result, w: seq<byte>, size: int)
    requires HasSent(x, w, 7, 1, size) && 14 < |w|
    ensures x.s.blksize == size
  {
    hide Serving, C.Segment;
  }

  lemma SizeTwo(c: C.Client, w: seq<byte>, r: nat, timeout: uint16)
    requires Awaiting(c, w, r, timeout) && r + 7 < |w|
    ensures 2 <= c.block.size < 0x80
  {
    hide B.Agrees, C.BlockSizeFor;
    TwoMissing(|w| - r);
  }

  lemma InStepAgain(l: Link, w: seq<byte>, v: seq<byte>, timeout: uint16)
    requires 14 < |w| == |v| <= |l.c.buf| && 2 <= timeout && l.toC == [] && Kin(w, v, 14)
    requires InSubblock(l.s, w) && ServerBase(l.s, w) == 7 && !l.s.rxNew && l.s.sequence == 1 && !l.s.end && l.s.timer == 0
    requires l.s.blksize == l.c.block.size && 2 <= l.c.block.size < 0x80
    requires l.c.state.BlUploadInProgress? && !l.c.rxNew && Partial(l.c, v) && l.c.timer == 0 && l.c.block.timer == 0
    requires l.c.block.seqno == 1 && l.c.block.received == 14
    ensures At(l, InBlock, w, v, |l.c.buf|, timeout)
  {
    hide InSubblock, Kin, B.Agrees, C.Segment;
    assert Segs(w, 7, 1, 1) == [];
  }

  lemma MistakenOutcome(m: Link, w: seq<byte>, v: seq<byte>, room: nat, timeout: uint16)
    requires At(m, Over, w, v, room, timeout) && !Clipped(|v|, room)
    ensures m.c.state.NotDefined? && m.ret.Ok? && m.length == |v| && |m.c.buf| == room >= |v| && m.c.buf[..|v|] == v
  {
    hide Clipped, Checksum, ReportedSize;
    OverOutcome(m, w, v, room, timeout);
    ReportedSizeBounds(|v|, room);
    assert v[..|v|] == v;
  }

  /**
    A block upload in which nothing is lost reports success with the object's
    first segment in place of its second, if that leaves the checksum as it is.
   */
  lemma WrongSuccess(s: S.Server, c: C.Client, index: uint16, sub: byte, room: seq<byte>, arg: S.Arg,
                     i: S.Input, timeout: uint16) returns (run: seq<Event>)
    requires Ready(s, index, sub, arg, arg.length) && arg.length <= s.node.size && arg.length <= |room| && Answers(i) && 2 <= timeout
    requires 7 * C.BLOCK_SIZE_MAX <= |room| < 0x1_0000_0000 && !Clipped(arg.length, |room|)
    requires var w := Wire(s, arg); 14 < |w| && Checksum(Doubled(w)) == Checksum(w)
    ensures LosesNothing(run)
    ensures var m := Run(Requested(s, c, index, sub, room, i), run, timeout); var w := Wire(s, arg);
            && m.c.state.NotDefined? && m.ret.Ok? && m.length == |w| == arg.length <= |m.c.buf|
            && m.c.buf[..|w|] == Doubled(w)
  {
    hide Requested, Run, Wire, Ready, At, Overtaken, Clipped, Checksum, Doubled, AllInTime;
    var l, w := Requested(s, c, index, sub, room, i), Wire(s, arg);
    ReadyLong(s, index, sub, arg);
    StartsAt(s, c, index, sub, room, arg, i, timeout);
    RequestUnderWay(s, c, index, sub, room, arg, i, timeout);
    StartOvertaken(l, w, |room|, timeout);
    var a, b := Overtaking(timeout) + Slip(timeout), MISTAKE;
    var l1 := Run(l, Overtaking(timeout), timeout);
    Slips(l1, w, 0, timeout);
    RunConcat(l, Overtaking(timeout), Slip(timeout), timeout);
    var l2 := Run(l, a, timeout);
    RequestRoom(s, c, index, sub, room, arg, i, a, timeout);
    Mistaken(l2, w, timeout);
    RunConcat(l, a, b, timeout);
    var l3 := Run(l, a + b, timeout);
    DoubledLength(w);
    var rest := Finish(l3, InBlock, w, Doubled(w), |room|, timeout);
    InTimeLossless(l3, rest, timeout);
    run := (a + b) + rest;
    RunConcat(l, a + b, rest, timeout);
    MistakenOutcome(Run(l, run, timeout), w, Doubled(w), |room|, timeout);
  }

  lemma DoubledLength(w: seq<byte>)
    requires 14 <= |w|
    ensures |Doubled(w)| == |w|
  {
  }

  lemma RequestRoom(s: S.Server, c: C.Client, index: uint16, sub: byte, room: seq<byte>, arg: S.Arg, i: S.Input,
                    run: seq<Event>, timeout: uint16)
    requires Ready(s, index, sub, arg, arg.length) && 7 * C.BLOCK_SIZE_MAX <= |room| < 0x1_0000_0000 && 2 <= timeout
    ensures |Run(Requested(s, c, index, sub, room, i), run, timeout).c.buf| == |room|
  {
    hide Requested, Run, Ready, Inv;
    RequestedInv(s, c, index, sub, room, arg, i, timeout);
    RunRoom(Requested(s, c, index, sub, room, i), run, timeout);
  }

  lemma {:induction false} InTimeLossless(l: Link, run: seq<Event>, timeout: uint16)
    requires AllInTime(l, run, timeout)
    ensures LosesNothing(run)
    decreases |run|
  {
    hide Step, Timely, Prompt;
    if run != [] {
      InTimeLossless(Step(l, run[0], timeout), run[1..], timeout);
      assert forall e :: e in run ==> e == run[0] || e in run[1..];
    }
  }
}
