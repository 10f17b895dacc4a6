/** Whole runs of a block download in which nothing is lost: what the client reports, and that it ends. */
module SdoBlockDownloadRuns {
  import opened Can
  import opened SdoTypes
  import S = SdoServer
  import C = SdoClient
  import opened SdoSegments
  import opened SdoCalls
  import opened SdoBlockDownload
  import opened SdoBlockDownloadStart
  import opened SdoBlockDownloadWhole
  import opened SdoBlockDownloadLossless

  /** The application calls the client until it is done. */
  function Play(l: Link, e: Event): (r: Link) {
    if e.ClientCall? && l.c.state.NotDefined? then l else Step(l, e)
  }

  function PlayAll(l: Link, run: seq<Event>): (r: Link)
    decreases |run|
  {
    if run == [] then l else PlayAll(Play(l, run[0]), run[1..])
  }

  /** What the calls of the client return. */
  function Reports(l: Link, run: seq<Event>): (rets: seq<C.Return>)
    decreases |run|
  {
    if run == [] then []
    else
      (if run[0].ClientCall? && !l.c.state.NotDefined?
       then [C.Download(l.c, run[0].dt, run[0].timeout, run[0].txFull).ret] else [])
      + Reports(Play(l, run[0]), run[1..])
  }

  /** The event loses nothing, and comes before a timer runs out. */
  predicate InTime(l: Link, e: Event) {
    match e
    case LoseRequest(_) => false
    case LoseAnswer(_) => false
    case ToServer => true
    case ToClient => true
    case ServerCall(i) => (l.s.state.Idle? && !l.s.rxNew) || Timely(l.s, i)
    case ClientCall(dt, timeout, _) => l.c.state.NotDefined? || Prompt(l.c, dt, timeout)
  }

  predicate AllInTime(l: Link, run: seq<Event>)
    decreases |run|
  {
    run == [] || (InTime(l, run[0]) && AllInTime(Play(l, run[0]), run[1..]))
  }

  /** No OD function of the object refuses the data. */
  predicate AllGranted(o: S.Server, run: seq<Event>) {
    forall e :: e in run && e.ServerCall? ==> Granted(o, e.i)
  }

  lemma OverIff(l: Link, p: Phase, d: seq<byte>, o: S.Server)
    requires At(l, p, d, o)
    ensures p.Over? <==> l.c.state.NotDefined?
  {
    hide Agrees, Open, Segs, IsRequest, FrameIndex, Written, EndOf, SegmentsFor, Carrying, AllIn;
  }

  lemma StepAt(l: Link, p: Phase, e: Event, d: seq<byte>, o: S.Server) returns (q: Phase)
    requires At(l, p, d, o) && InTime(l, e) && Fresh(o, d) && (e.ServerCall? ==> Granted(o, e.i))
    ensures var r := Play(l, e); At(r, q, d, o) && Nearer(l, p, r, q, e, d)
    ensures e.ClientCall? && !p.Over? ==> Returns(q, C.Download(l.c, e.dt, e.timeout, e.txFull).ret, d, o.node.size)
    ensures !e.ClientCall? || p.Over? ==> (q.Over? <==> p.Over?)
  {
    hide At, Nearer, Step, Fresh, Granted, Returns, C.Download;
    OverIff(l, p, d, o);
    match e
    case ServerCall(i) =>
      q := ServeStep(l, p, i, d, o);
      OverIff(Step(l, e), q, d, o);
    case ToServer =>
      q := DeliverStep(l, p, d, o);
      OverIff(Step(l, e), q, d, o);
    case ToClient =>
      HearStep(l, p, d, o);
      q := p;
    case ClientCall(dt, timeout, txFull) =>
      if p.Over? {
        q := p;
        NobodyMoves(l, e, d);
      } else {
        q := AskStep(l, p, dt, timeout, txFull, d, o);
      }
  }

  lemma NobodyMoves(l: Link, e: Event, d: seq<byte>)
    ensures Nearer(l, Over, l, Over, e, d)
  {
  }

  /** Everything reported is that the transfer goes on, or the verdict. */
  predicate OnlyVerdict(rets: seq<C.Return>, ret: C.Return) {
    forall r :: r in rets ==> Underway(r) || r == ret
  }

  /** In time, the transfer stays on its way, and nothing leads back. */
  lemma {:induction false} RunAt(l: Link, p: Phase, run: seq<Event>, d: seq<byte>, o: S.Server) returns (q: Phase)
    requires At(l, p, d, o) && AllInTime(l, run) && Fresh(o, d) && AllGranted(o, run)
    ensures var r := PlayAll(l, run);
            && At(r, q, d, o)
            && (Left(r, q, d) < Left(l, p, d)
                || (Left(r, q, d) == Left(l, p, d) && Due(r, q) == Due(l, p) && forall e :: e in run ==> !Moves(e, Due(l, p))))
    ensures var rets := Reports(l, run); var ret := Verdict(d, o.node.size);
            OnlyVerdict(rets, ret) && (q.Over? && !p.Over? ==> ret in rets) && (p.Over? ==> q.Over?)
    decreases |run|
  {
    hide At, Left, Due, Play, InTime, Moves, Fresh, Granted, C.Download, Underway, Verdict;
    q := p;
    if run != [] {
      assert run[0] in run;
      var q1 := StepAt(l, p, run[0], d, o);
      OverIff(l, p, d, o);
      q := RunAt(Play(l, run[0]), q1, run[1..], d, o);
      assert forall e :: e in run ==> e == run[0] || e in run[1..];
    }
  }

  /** A stretch of a run in which everybody has a turn, in any order and among whatever else. */
  predicate Fair(run: seq<Event>) {
    && (exists e :: e in run && Moves(e, Serve))
    && (exists e :: e in run && Moves(e, Deliver))
    && (exists e :: e in run && Moves(e, Hear))
    && (exists e :: e in run && Moves(e, Ask))
  }

  function Flat(parts: seq<seq<Event>>): (run: seq<Event>) {
    if parts == [] then [] else parts[0] + Flat(parts[1..])
  }

  lemma {:induction false} PlayConcat(l: Link, a: seq<Event>, b: seq<Event>)
    ensures PlayAll(l, a + b) == PlayAll(PlayAll(l, a), b)
    ensures AllInTime(l, a + b) <==> AllInTime(l, a) && AllInTime(PlayAll(l, a), b)
    decreases |a|
  {
    hide Play, InTime;
    if a == [] {
      assert a + b == b;
    } else {
      assert (a + b)[0] == a[0] && (a + b)[1..] == a[1..] + b;
      PlayConcat(Play(l, a[0]), a[1..], b);
    }
  }

  /** A fair stretch brings the transfer nearer to its end. */
  lemma FairNearer(l: Link, p: Phase, run: seq<Event>, d: seq<byte>, o: S.Server) returns (q: Phase)
    requires At(l, p, d, o) && AllInTime(l, run) && Fresh(o, d) && AllGranted(o, run) && Fair(run)
    ensures var r := PlayAll(l, run);
            At(r, q, d, o) && (p.Over? ==> q.Over?) && (!p.Over? ==> Left(r, q, d) < Left(l, p, d))
  {
    hide At, Left, PlayAll, AllInTime, Moves, Fresh, Reports;
    q := RunAt(l, p, run, d, o);
  }

  /** After as many fair stretches as there are steps left the transfer is over. */
  lemma {:induction false} FairEnds(l: Link, p: Phase, parts: seq<seq<Event>>, d: seq<byte>, o: S.Server)
    requires At(l, p, d, o) && AllInTime(l, Flat(parts)) && Fresh(o, d) && AllGranted(o, Flat(parts)) && Left(l, p, d) <= |parts|
    requires forall i :: 0 <= i < |parts| ==> Fair(parts[i])
    ensures At(PlayAll(l, Flat(parts)), Over, d, o)
    decreases |parts|
  {
    hide At, Left, PlayAll, AllInTime, Fair, Fresh, Granted;
    if parts == [] {
      NoneLeft(l, p, d, o);
      NoRun(l);
    } else {
      PlayConcat(l, parts[0], Flat(parts[1..]));
      var q := FairNearer(l, p, parts[0], d, o);
      var r := PlayAll(l, parts[0]);
      if p.Over? {
        OverLeft(r, d);
      }
      FairEnds(r, q, parts[1..], d, o);
    }
  }

  lemma NoRun(l: Link)
    ensures PlayAll(l, []) == l
  {
    hide Play;
  }

  lemma OverLeft(l: Link, d: seq<byte>)
    ensures Left(l, Over, d) == 0
  {
  }

  lemma NoneLeft(l: Link, p: Phase, d: seq<byte>, o: S.Server)
    requires At(l, p, d, o)
    ensures Left(l, p, d) == 0 ==> p.Over?
  {
    hide Agrees, Segs, IsRequest, FrameIndex, Written, EndOf, AllIn, Cut, SegmentsFor;
    if p.Loading? {
      CutNext(|d|, l.s.at);
    }
  }

  // --------------------------------------------------------------- from the request on

  lemma StartsAt(s: S.Server, c: C.Client, index: uint16, sub: byte, d: seq<byte>, arg: S.Arg)
    requires Ready(s, index, sub, arg) && C.PST < |d| <= s.node.size && s.node.size < 0x1_0000
    ensures At(RequestSent(s, c, index, sub, d), Asked, d, s.(arg := arg))
  {
    hide S.Lookup, C.InitiateDownload, IsRequest;
    RequestFrame(c, index, sub, d);
  }

  /** A writeable object of the length of the data that is not the number of errors. */
  predicate Takes(s: S.Server, index: uint16, sub: byte, arg: S.Arg, d: seq<byte>) {
    Ready(s, index, sub, arg) && arg.access.writeable && C.PST < |d| == arg.length <= s.node.size && !(index == 0x1003 && sub == 0)
  }

  lemma TakesFresh(s: S.Server, index: uint16, sub: byte, arg: S.Arg, d: seq<byte>)
    requires Takes(s, index, sub, arg, d)
    ensures Ready(s, index, sub, arg) && C.PST < |d| <= s.node.size < 0x1_0000 && Fresh(s.(arg := arg), d)
  {
  }

  /**
    A block download in which nothing is lost and no timer runs out, in any
    order of calls: the client never gives up, all it reports before the end is
    that the transfer goes on, and the only end is success with the data
    written, or, if whole segments do not fit the server's buffer, an abort of
    the server with nothing written.
   */
  lemma LosslessBlockDownload(s: S.Server, c: C.Client, index: uint16, sub: byte, d: seq<byte>, arg: S.Arg, run: seq<Event>)
    requires Takes(s, index, sub, arg, d) && AllGranted(s.(arg := arg), run)
    requires AllInTime(RequestSent(s, c, index, sub, d), run)
    ensures var l := RequestSent(s, c, index, sub, d); var m := PlayAll(l, run); var ret := Verdict(d, s.node.size);
            && OnlyVerdict(Reports(l, run), ret) && !m.c.state.Aborting?
            && (m.c.state.NotDefined? ==> ret in Reports(l, run) && Final(m.s, d, s.(arg := arg)))
            && (Fits(d, s.node.size) && m.s.state.Idle? ==>
                  AtRequest(m, d, s.(arg := arg)) || Written(m.s.node, d, s.(arg := arg)))
  {
    hide RequestSent, PlayAll, AllInTime, At, Ready, Reports, Final, Fresh, Verdict, Written, AtRequest, Fits, Takes;
    TakesFresh(s, index, sub, arg, d);
    var l, o := RequestSent(s, c, index, sub, d), s.(arg := arg);
    StartsAt(s, c, index, sub, d, arg);
    var q := RunAt(l, Asked, run, d, o);
    OverIff(PlayAll(l, run), q, d, o);
    Outcome(PlayAll(l, run), q, d, o);
  }

  lemma Outcome(l: Link, p: Phase, d: seq<byte>, o: S.Server)
    requires At(l, p, d, o)
    ensures !l.c.state.Aborting? && (p.Over? ==> Final(l.s, d, o))
    ensures Fits(d, o.node.size) && l.s.state.Idle? ==> AtRequest(l, d, o) || Written(l.s.node, d, o)
  {
    hide Agrees, Segs, IsRequest, FrameIndex, Written, EndOf, AllIn, Open, Carrying, SegmentsFor;
  }

  lemma StartLeft(l: Link, d: seq<byte>)
    ensures Left(l, Asked, d) <= 24 * SegmentsFor(|d|) + 4
  {
  }

  /** And it does end: at the latest after 24 fair stretches for each segment and four more. */
  lemma LosslessDownloadEnds(s: S.Server, c: C.Client, index: uint16, sub: byte, d: seq<byte>, arg: S.Arg, parts: seq<seq<Event>>)
    requires Takes(s, index, sub, arg, d) && AllGranted(s.(arg := arg), Flat(parts))
    requires AllInTime(RequestSent(s, c, index, sub, d), Flat(parts))
    requires (forall k :: 0 <= k < |parts| ==> Fair(parts[k])) && 24 * SegmentsFor(|d|) + 4 <= |parts|
    ensures PlayAll(RequestSent(s, c, index, sub, d), Flat(parts)).c.state.NotDefined?
  {
    hide RequestSent, PlayAll, AllInTime, At, Ready, Fresh, Fair, Flat, Takes, Left;
    TakesFresh(s, index, sub, arg, d);
    var l, o := RequestSent(s, c, index, sub, d), s.(arg := arg);
    StartsAt(s, c, index, sub, d, arg);
    StartLeft(l, d);
    FairEnds(l, Asked, parts, d, o);
    OverIff(PlayAll(l, Flat(parts)), Over, d, o);
  }
}
