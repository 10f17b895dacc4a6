/**
  What expedited and segmented transfers in time amount to: a download followed
  by an upload of the same object returns exactly the bytes written, in both byte
  orders, and a download over the bus ends like one that bypasses it.
 */
module SdoRoundTrip {
  import opened Can
  import opened SdoTypes
  import Od
  import S = SdoServer
  import C = SdoClient
  import B = SdoBlockDownload
  import D = SdoBlockDownloadStart
  import U = SdoBlockUploadStart
  import opened SdoTransfer
  import opened SdoTransferDown
  import opened SdoTransferRuns

  // ------------------------------------------------------------------- without a bus

  /**
    A download to the own node bypasses the bus. With an idle server and an
    object that is not a domain it ends like a remote expedited or segmented
    download in time: same report, same abort code, same dictionary. This holds
    whatever the request and its verdict.
   */
  lemma LocalRefinesRemote(s: S.Server, c: C.Client, index: uint16, sub: byte, d: seq<byte>, write: uint32, run: seq<Event>)
    requires var job := Down(s, index, sub, d, write); Proper(job) && AllInTime(Begun(job, c, []), run, job)
    ensures var job := Down(s, index, sub, d, write); var l := Run(Begun(job, c, []), run, job);
            l.c.state.NotDefined? ==> LocalDownload(s, index, sub, d, write) == Outcome(l.ret, l.abort, l.s.node)
  {
    hide Proper, Begun, Run, AllInTime, LocalDownload;
    var job := Down(s, index, sub, d, write);
    TransferInTime(job, c, [], run);
    var l := Run(Begun(job, c, []), run, job);
    if l.c.state.NotDefined? {
      DownloadOver(l, job);
    }
  }

  lemma DownloadOver(l: Link, job: Job)
    requires Proper(job) && job.Down? && At(l, Over, job)
    ensures l.s.node == Verdict(job).node && l.ret == Verdict(job).ret && l.abort == Verdict(job).abort
    ensures l.s.state.Idle? && !l.s.rxNew && |l.s.buf| == job.o.node.size
  {
    hide LocalDownload, S.Lookup, S.HasFunction;
  }

  lemma UploadOver(l: Link, job: Job)
    requires Proper(job) && job.Up? && At(l, Over, job)
    ensures l.s.node == job.o.node && l.ret.Ok? && l.length == |Wire(job)| <= |l.c.buf| && l.c.buf[..|Wire(job)|] == Wire(job)
  {
    hide S.Lookup, S.HasFunction, U.Wire;
  }

  // ---------------------------------------------------------------------- round trip

  /** A stored object of the length of the data without an OD function, that can be written and read. */
  predicate Plain(s: S.Server, index: uint16, sub: byte, arg: S.Arg, n: nat) {
    && s.state.Idle? && !s.rxNew && |s.buf| == s.node.size && 0 < n == arg.length <= s.node.size
    && S.Lookup(s.node, index, sub) == S.Found(arg) && arg.stored && arg.access.readable && arg.access.writeable
    && !S.HasFunction(s.(arg := arg)) && !(index == 0x1003 && sub == 0)
  }

  lemma JudgeWrites(o: S.Server, d: seq<byte>, write: uint32)
    requires D.Slot(o) && o.arg.access.writeable && o.arg.length == |d| && !S.HasFunction(o)
    ensures var v := Judge(o.node, o.arg, d, write); v.ret.Ok? && v.abort == 0 && B.Written(v.node, d, o)
  {
  }

  lemma PlainWritten(s: S.Server, index: uint16, sub: byte, arg: S.Arg, d: seq<byte>)
    requires Plain(s, index, sub, arg, |d|)
    ensures var job := Down(s, index, sub, d, 0);
            Proper(job) && Verdict(job).ret.Ok? && B.Written(Verdict(job).node, d, s.(arg := arg)) && D.Slot(s.(arg := arg))
  {
    hide S.Lookup, S.HasFunction, LocalDownload, Judge, B.Written, D.Slot;
    var job := Down(s, index, sub, d, 0);
    D.FoundSlot(s, index, sub, arg);
    LocalIsJudged(job);
    JudgeWrites(s.(arg := arg), d, 0);
  }

  /** A write changes neither where an object is found nor its length and attributes. */
  lemma FoundAfterWrite(n: S.Node, d: seq<byte>, o: S.Server, index: uint16, sub: byte)
    requires S.Lookup(o.node, index, sub) == S.Found(o.arg) && B.Written(n, d, o) && D.Slot(o) && |d| == o.arg.length
    ensures S.Lookup(n, index, sub) == S.Found(o.arg) && n.size == o.node.size && n.bigEndian == o.node.bigEndian
    ensures Od.HasSlot(n.od, o.arg.entry, sub) && n.od[o.arg.entry].hasFunction == o.node.od[o.arg.entry].hasFunction
    ensures Od.Get(n.od, o.arg.entry, sub) == Some(S.Native(d, S.Swaps(o)))
  {
    var e, v := o.arg.entry, S.Native(d, S.Swaps(o));
    var obj := o.node.od[e].obj;
    Od.SetGet(o.node.od, e, sub, v, e, sub);
    Od.PutGet(obj, sub, v, sub, index, n.size);
    Od.SameFind(o.node.od, n.od, index);
  }

  /** What was written in the order of the processor is read in the order of the wire. */
  lemma WireIs(s: S.Server, arg: S.Arg, d: seq<byte>, o: S.Server, sub: byte)
    requires arg == o.arg && arg.sub == sub && Od.HasSlot(s.node.od, arg.entry, sub)
    requires Od.Get(s.node.od, arg.entry, sub) == Some(S.Native(d, S.Swaps(o))) && s.node.bigEndian == o.node.bigEndian
    requires arg.entry < |o.node.od| && s.node.od[arg.entry].hasFunction == o.node.od[arg.entry].hasFunction
    ensures U.Wire(s, arg) == d
    ensures S.HasFunction(s.(arg := arg)) == S.HasFunction(o)
  {
    assert Reverse(Reverse(d)) == d;
  }

  /** After the download an upload is possible, and finds d. */
  lemma UploadFinds(s: S.Server, index: uint16, sub: byte, arg: S.Arg, d: seq<byte>, r: S.Server, room: nat)
    requires Plain(s, index, sub, arg, |d|) && B.Written(r.node, d, s.(arg := arg)) && D.Slot(s.(arg := arg))
    requires r.state.Idle? && !r.rxNew && |r.buf| == s.node.size && |d| <= room && 4 <= room
    ensures var job := Up(r, index, sub, room); Proper(job) && Wire(job) == d
  {
    hide S.Lookup, S.HasFunction, B.Written, D.Slot, U.Wire;
    var o := s.(arg := arg);
    FoundAfterWrite(r.node, d, o, index, sub);
    EntryExists(o);
    WireIs(r, arg, d, o, sub);
  }

  lemma EntryExists(o: S.Server)
    requires D.Slot(o)
    ensures o.arg.entry < |o.node.od|
  {
  }

  /**
    Download of d to such an object and upload of it again, both in time and in
    any order of calls: the download ends with d written, and for every length
    up to the size of the server's buffer the upload ends with d.
   */
  lemma RoundTrip(s: S.Server, c: C.Client, index: uint16, sub: byte, d: seq<byte>, arg: S.Arg, room: seq<byte>,
                  a: seq<Event>, b: seq<Event>)
    requires Plain(s, index, sub, arg, |d|) && |d| <= |room| && 4 <= |room|
    ensures Proper(Down(s, index, sub, d, 0))
    ensures var down := Down(s, index, sub, d, 0); var m := Run(Begun(down, c, []), a, down);
            AllInTime(Begun(down, c, []), a, down) && m.c.state.NotDefined? ==>
              && m.ret.Ok? && B.Written(m.s.node, d, s.(arg := arg))
              && var up := Up(m.s, index, sub, |room|);
                 && Proper(up)
                 && var n := Run(Begun(up, m.c, room), b, up);
                    AllInTime(Begun(up, m.c, room), b, up) && n.c.state.NotDefined? ==>
                      n.ret.Ok? && n.length == |d| && Take(n.c.buf, |d|) == d && n.s.node == m.s.node
  {
    hide Plain, Proper, Begun, Run, AllInTime, LocalDownload, B.Written, At, Wire, D.Slot;
    var down := Down(s, index, sub, d, 0);
    PlainWritten(s, index, sub, arg, d);
    var m := Run(Begun(down, c, []), a, down);
    if AllInTime(Begun(down, c, []), a, down) && m.c.state.NotDefined? {
      TransferInTime(down, c, [], a);
      DownloadOver(m, down);
      UploadFinds(s, index, sub, arg, d, m.s, |room|);
      var up := Up(m.s, index, sub, |room|);
      var n := Run(Begun(up, m.c, room), b, up);
      if AllInTime(Begun(up, m.c, room), b, up) && n.c.state.NotDefined? {
        TransferInTime(up, m.c, room, b);
        UploadOver(n, up);
      }
    }
  }
}
