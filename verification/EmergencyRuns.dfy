/** What holds of the emergency object over whole runs of reports, resets, history accesses and process calls. */
module EmergencyRuns {
  import opened Can
  import opened Emergency

  datatype Event =
    | Reported(bit: byte, code: uint16, info: uint32)
    | WasReset(bit: byte, info: uint32)
    | HistoryWrite(sub: byte, value: byte)
    | Processed(i: Input)

  function Step(d: Desk, e: Event): (r: Result) {
    match e
    case Reported(bit, code, info) => Result(Report(d, bit, code, info), None)
    case WasReset(bit, info) => Result(Reset(d, bit, info), None)
    case HistoryWrite(sub, value) => Result(WriteHistory(d, sub, value).0, None)
    case Processed(i) => Process(d, i)
  }

  function Run(d: Desk, run: seq<Event>): (r: Desk)
    decreases |run|
  {
    if run == [] then d else Run(Step(d, run[0]).d, run[1..])
  }

  /** The messages sent in a run, in order. */
  function Sent(d: Desk, run: seq<Event>): (s: seq<Frame>)
    decreases |run|
  {
    if run == [] then []
    else
      var x := Step(d, run[0]);
      (if x.sent.Some? then [x.sent.value] else []) + Sent(x.d, run[1..])
  }

  // -------------------------------------------------------------- first in, first out

  /** The message a report makes, if it is a new error of a supported kind. */
  function ReportOffers(d: Desk, bit: byte, code: uint16, info: uint32): (m: Option<Frame>) {
    if bit / 8 < d.statusBytes && bit !in d.status then Some(Message(code, bit, info)) else None
  }

  function ResetOffers(d: Desk, bit: byte, info: uint32): (m: Option<Frame>) {
    if bit / 8 < d.statusBytes && bit in d.status then Some(Message(0, bit, info)) else None
  }

  /** An offered message is accepted unless ten are waiting. */
  function Accept(d: Desk, m: Option<Frame>): (s: seq<Frame>) {
    if m.Some? && |d.queue| < CAPACITY then [m.value] else []
  }

  /** The messages accepted in one step: by a call, by the wrong-report check, or about the overflow itself. */
  function Accepted(d: Desk, e: Event): (s: seq<Frame>) {
    match e
    case Reported(bit, code, info) => Accept(d, ReportOffers(d, bit, code, info))
    case WasReset(bit, info) => Accept(d, ResetOffers(d, bit, info))
    case HistoryWrite(_, _) => []
    case Processed(i) =>
      var first := if d.wrong != 0 then Accept(d, ReportOffers(d, WRONG_REPORT, SOFTWARE_INTERNAL, d.wrong)) else [];
      var d1 := Prepare(d, i);
      if !MaySend(d1, i) then first
      else
        var d2 := d1.(queue := d1.queue[1..]);
        first + Accept(d2, if d1.overflow then ReportOffers(d2, BUFFER_FULL, GENERIC, 0) else ResetOffers(d2, BUFFER_FULL, 0))
  }

  function AllAccepted(d: Desk, run: seq<Event>): (s: seq<Frame>)
    decreases |run|
  {
    if run == [] then [] else Accepted(d, run[0]) + AllAccepted(Step(d, run[0]).d, run[1..])
  }

  /** A message without the error register, which is filled in when it is sent. */
  function Plain(m: Frame): (r: Frame) {
    m[2 := 0]
  }

  function PlainAll(s: seq<Frame>): (r: seq<Frame>)
    ensures |r| == |s| && forall i :: 0 <= i < |s| ==> r[i] == Plain(s[i])
  {
    seq(|s|, i requires 0 <= i < |s| => Plain(s[i]))
  }

  /** At most ten messages wait, the register byte of each still zero, and only a full queue overflows. */
  predicate Sane(d: Desk) {
    && |d.queue| <= CAPACITY && (d.overflow ==> |d.queue| == CAPACITY)
    && (forall i :: 0 <= i < |d.queue| ==> d.queue[i][2] == 0)
    && 6 <= d.statusBytes && 0 < d.historySize && |d.history| <= d.historySize
  }

  lemma MessagePlain(code: uint16, bit: byte, info: uint32)
    ensures Message(code, bit, info)[2] == 0
  {
  }

  lemma ReportStep(d: Desk, bit: byte, code: uint16, info: uint32)
    requires Sane(d)
    ensures var r := Report(d, bit, code, info);
            && Sane(r) && r.queue == d.queue + Accept(d, ReportOffers(d, bit, code, info))
            && (r.overflow <==> d.overflow || (ReportOffers(d, bit, code, info).Some? && |d.queue| == CAPACITY))
            && r.history == d.history && r.statusBytes == d.statusBytes
  {
    hide Message;
    MessagePlain(code, bit, info);
  }

  lemma ResetStep(d: Desk, bit: byte, info: uint32)
    requires Sane(d)
    ensures var r := Reset(d, bit, info);
            && Sane(r) && r.queue == d.queue + Accept(d, ResetOffers(d, bit, info))
            && (r.overflow <==> d.overflow || (ResetOffers(d, bit, info).Some? && |d.queue| == CAPACITY))
            && r.history == d.history && r.statusBytes == d.statusBytes
  {
    hide Message;
    MessagePlain(0, bit, info);
  }

  lemma PrepareStep(d: Desk, i: Input)
    requires Sane(d)
    ensures var r := Prepare(d, i);
            var first := if d.wrong != 0 then Accept(d, ReportOffers(d, WRONG_REPORT, SOFTWARE_INTERNAL, d.wrong)) else [];
            Sane(r) && r.queue == d.queue + first && r.history == d.history && (d.overflow ==> r.overflow)
  {
    hide Report, Register, ReportOffers;
    ReportStep(d, WRONG_REPORT, SOFTWARE_INTERNAL, d.wrong);
  }

  lemma SendStep(d: Desk)
    requires Sane(d) && d.queue != []
    ensures var x := SendOldest(d); var d2 := d.(queue := d.queue[1..]);
            && Sane(x.d) && x.sent.Some? && Plain(x.sent.value) == d.queue[0]
            && x.d.queue == d2.queue + Accept(d2, if d.overflow then ReportOffers(d2, BUFFER_FULL, GENERIC, 0) else ResetOffers(d2, BUFFER_FULL, 0))
            && x.d.history == Push(d.history, Entry(x.sent.value), d.historySize)
            && (d.overflow <==> BUFFER_FULL in x.d.status) && !x.d.overflow
  {
    hide Push, Entry, Message;
    var d1 := d.(queue := d.queue[1..], inhibit := 0, overflow := false);
    if d.overflow {
      ReportStep(d1, BUFFER_FULL, GENERIC, 0);
    } else {
      ResetStep(d1, BUFFER_FULL, 0);
    }
  }

  lemma StepConserves(d: Desk, e: Event)
    requires Sane(d)
    ensures var x := Step(d, e);
            && Sane(x.d)
            && (if x.sent.Some? then [Plain(x.sent.value)] else []) + x.d.queue == d.queue + Accepted(d, e)
  {
    hide Report, Reset, Process, ReportOffers, ResetOffers, Accept, Plain, Sane, WriteHistory;
    match e
    case Reported(bit, code, info) => ReportStep(d, bit, code, info);
    case WasReset(bit, info) => ResetStep(d, bit, info);
    case HistoryWrite(sub, value) => HistoryStep(d, sub, value);
    case Processed(i) => ProcessConserves(d, i);
  }

  lemma ProcessConserves(d: Desk, i: Input)
    requires Sane(d)
    ensures var x := Process(d, i);
            && Sane(x.d)
            && (if x.sent.Some? then [Plain(x.sent.value)] else []) + x.d.queue == d.queue + Accepted(d, Processed(i))
  {
    hide Prepare, SendOldest, ReportOffers, ResetOffers, Accept, Plain, Sane;
    PrepareStep(d, i);
    var d1 := Prepare(d, i);
    if MaySend(d1, i) {
      SendStep(d1);
      var x := SendOldest(d1);
      var first := if d.wrong != 0 then Accept(d, ReportOffers(d, WRONG_REPORT, SOFTWARE_INTERNAL, d.wrong)) else [];
      var d2 := d1.(queue := d1.queue[1..]);
      var more := Accept(d2, if d1.overflow then ReportOffers(d2, BUFFER_FULL, GENERIC, 0) else ResetOffers(d2, BUFFER_FULL, 0));
      Rearranged(Plain(x.sent.value), d1.queue, d.queue, first, more);
    }
  }

  lemma Rearranged(m: Frame, q: seq<Frame>, before: seq<Frame>, first: seq<Frame>, more: seq<Frame>)
    requires q != [] && m == q[0] && q == before + first
    ensures [m] + (q[1..] + more) == before + (first + more)
  {
  }

  lemma HistoryStep(d: Desk, sub: byte, value: byte)
    requires Sane(d)
    ensures var r := WriteHistory(d, sub, value).0; Sane(r) && r.queue == d.queue && r.overflow == d.overflow
  {
  }

  /** Every message sent or still waiting was accepted, in this order, and none is lost on the way. */
  lemma {:induction false} FirstInFirstOut(d: Desk, run: seq<Event>)
    requires Sane(d)
    ensures Sane(Run(d, run))
    ensures PlainAll(Sent(d, run)) + Run(d, run).queue == d.queue + AllAccepted(d, run)
    decreases |run|
  {
    hide Step, Accepted, Sane, Plain;
    if run != [] {
      var x := Step(d, run[0]);
      StepConserves(d, run[0]);
      FirstInFirstOut(x.d, run[1..]);
      var now := if x.sent.Some? then [x.sent.value] else [];
      var later, queue, more := Sent(x.d, run[1..]), Run(d, run).queue, AllAccepted(x.d, run[1..]);
      assert PlainAll(now + later) == PlainAll(now) + PlainAll(later);
      assert PlainAll(now) + x.d.queue == d.queue + Accepted(d, run[0]);
      assert (PlainAll(now) + PlainAll(later)) + queue == PlainAll(now) + (x.d.queue + more);
      assert PlainAll(now) + (x.d.queue + more) == (PlainAll(now) + x.d.queue) + more;
    }
  }

  // ------------------------------------------------------------------------ overflow

  /** The message an event brings up before anything is sent in it. */
  function FirstOffer(d: Desk, e: Event): (m: Option<Frame>) {
    match e
    case Reported(bit, code, info) => ReportOffers(d, bit, code, info)
    case WasReset(bit, info) => ResetOffers(d, bit, info)
    case HistoryWrite(_, _) => None
    case Processed(_) => if d.wrong != 0 then ReportOffers(d, WRONG_REPORT, SOFTWARE_INTERNAL, d.wrong) else None
  }

  function Offer(m: Option<Frame>): (s: seq<Frame>) {
    if m.Some? then [m.value] else []
  }

  /** Every message an event brings up, whether there is room for it or not. */
  function Offered(d: Desk, e: Event): (s: seq<Frame>) {
    if e.Processed? && MaySend(Prepare(d, e.i), e.i) then
      var d1 := Prepare(d, e.i);
      var d2 := d1.(queue := d1.queue[1..]);
      Offer(FirstOffer(d, e))
      + Offer(if d1.overflow then ReportOffers(d2, BUFFER_FULL, GENERIC, 0) else ResetOffers(d2, BUFFER_FULL, 0))
    else Offer(FirstOffer(d, e))
  }

  function AllOffered(d: Desk, run: seq<Event>): (s: seq<Frame>)
    decreases |run|
  {
    if run == [] then [] else Offered(d, run[0]) + AllOffered(Step(d, run[0]).d, run[1..])
  }

  /** Some event of the run brings up a message while ten are waiting. */
  predicate OffersWhileFull(d: Desk, run: seq<Event>)
    decreases |run|
  {
    run != [] && ((FirstOffer(d, run[0]).Some? && |d.queue| == CAPACITY) || OffersWhileFull(Step(d, run[0]).d, run[1..]))
  }

  /** One event drops its message exactly if ten are waiting, and the drop is noted or, if something is sent, reported. */
  lemma StepDrops(d: Desk, e: Event)
    requires Sane(d)
    ensures |Accepted(d, e)| <= |Offered(d, e)|
    ensures |Accepted(d, e)| < |Offered(d, e)| <==> FirstOffer(d, e).Some? && |d.queue| == CAPACITY
    ensures var x := Step(d, e);
            FirstOffer(d, e).Some? && |d.queue| == CAPACITY ==>
              if x.sent.None? then x.d.overflow else BUFFER_FULL in x.d.status
  {
    hide Report, Reset, Prepare, SendOldest, Sane, ReportOffers, ResetOffers, Message;
    assert |d.queue| <= CAPACITY by {
      SaneQueue(d);
    }
    match e
    case Reported(bit, code, info) => ReportStep(d, bit, code, info);
    case WasReset(bit, info) => ResetStep(d, bit, info);
    case HistoryWrite(_, _) =>
    case Processed(i) =>
      PrepareDrops(d, i);
      PrepareStep(d, i);
      var d1 := Prepare(d, i);
      SaneQueue(d1);
      if MaySend(d1, i) {
        SendStep(d1);
      }
  }

  lemma SaneQueue(d: Desk)
    requires Sane(d)
    ensures |d.queue| <= CAPACITY
  {
  }

  lemma PrepareDrops(d: Desk, i: Input)
    requires Sane(d)
    ensures FirstOffer(d, Processed(i)).Some? && |d.queue| == CAPACITY ==> Prepare(d, i).overflow
  {
    hide Report, Register, ReportOffers;
    ReportStep(d, WRONG_REPORT, SOFTWARE_INTERNAL, d.wrong);
  }

  /** In every run of reports, resets and process calls a message is dropped exactly if it comes up while ten are waiting. */
  lemma {:induction false} DroppedOnlyWhenFull(d: Desk, run: seq<Event>)
    requires Sane(d)
    ensures if OffersWhileFull(d, run) then |AllAccepted(d, run)| < |AllOffered(d, run)|
            else AllAccepted(d, run) == AllOffered(d, run)
    decreases |run|
  {
    hide Step, Accepted, Offered, Sane, FirstOffer;
    if run != [] {
      StepDrops(d, run[0]);
      StepConserves(d, run[0]);
      DroppedOnlyWhenFull(Step(d, run[0]).d, run[1..]);
      if |Accepted(d, run[0])| == |Offered(d, run[0])| {
        AllTaken(d, run[0]);
      }
    }
  }

  lemma AllTaken(d: Desk, e: Event)
    requires Sane(d) && |Accepted(d, e)| == |Offered(d, e)|
    ensures Accepted(d, e) == Offered(d, e)
  {
    hide Report, Reset, Prepare, SendOldest, Sane, ReportOffers, ResetOffers, Message, MaySend;
  }

  predicate SendsNothing(d: Desk, run: seq<Event>)
    decreases |run|
  {
    run == [] || (Step(d, run[0]).sent.None? && SendsNothing(Step(d, run[0]).d, run[1..]))
  }

  lemma OverflowKept(d: Desk, e: Event)
    requires Sane(d) && d.overflow && Step(d, e).sent.None?
    ensures Step(d, e).d.overflow
  {
    hide Report, Reset, Prepare, SendOldest, Sane;
    match e
    case Reported(bit, code, info) => ReportStep(d, bit, code, info);
    case WasReset(bit, info) => ResetStep(d, bit, info);
    case HistoryWrite(sub, value) => HistoryStep(d, sub, value);
    case Processed(i) =>
      PrepareStep(d, i);
      if MaySend(Prepare(d, i), i) {
        SendStep(Prepare(d, i));
      }
  }

  lemma {:induction false} OverflowStays(d: Desk, run: seq<Event>)
    requires Sane(d) && d.overflow && SendsNothing(d, run)
    ensures Sane(Run(d, run)) && Run(d, run).overflow
    decreases |run|
  {
    hide Step, Sane;
    if run != [] {
      OverflowKept(d, run[0]);
      StepConserves(d, run[0]);
      OverflowStays(Step(d, run[0]).d, run[1..]);
    }
  }

  /** After a drop, whatever happens, the next transmission leaves the overflow error set. */
  lemma DropIsReported(d: Desk, run: seq<Event>, i: Input)
    requires Sane(d) && d.overflow && SendsNothing(d, run) && Process(Run(d, run), i).sent.Some?
    ensures BUFFER_FULL in Process(Run(d, run), i).d.status
  {
    hide Prepare, SendOldest, Sane;
    OverflowStays(d, run);
    var r := Run(d, run);
    PrepareStep(r, i);
    SendStep(Prepare(r, i));
  }

  // ------------------------------------------------------------------------- history

  /** The entries sent since the history was last cleared, newest first, in front of those there before. */
  function SentSince(d: Desk, run: seq<Event>, before: seq<uint32>): (h: seq<uint32>)
    decreases |run|
  {
    if run == [] then before
    else
      var x := Step(d, run[0]);
      var now := if run[0].HistoryWrite? && run[0].sub == 0 && run[0].value == 0 then []
                 else if x.sent.Some? then [Entry(x.sent.value)] + before
                 else before;
      SentSince(x.d, run[1..], now)
  }

  function Newest(h: seq<uint32>, size: nat): (r: seq<uint32>) {
    if |h| <= size then h else h[..size]
  }

  lemma PushNewest(h: seq<uint32>, v: uint32, size: nat)
    requires 0 < size
    ensures Push(Newest(h, size), v, size) == Newest([v] + h, size)
  {
  }

  lemma StepHistory(d: Desk, e: Event)
    requires Sane(d)
    ensures var x := Step(d, e);
            && x.d.historySize == d.historySize
            && x.d.history == (if e.HistoryWrite? && e.sub == 0 && e.value == 0 then []
                               else if x.sent.Some? then Push(d.history, Entry(x.sent.value), d.historySize)
                               else d.history)
  {
    hide Register, Entry, Push, Message;
    match e
    case Reported(bit, code, info) =>
    case WasReset(bit, info) =>
    case HistoryWrite(sub, value) =>
    case Processed(i) =>
      PrepareStep(d, i);
      var d1 := Prepare(d, i);
      if MaySend(d1, i) {
        SendStep(d1);
      }
  }

  /** The error history always lists the most recent entries sent since it was cleared, newest first. */
  lemma {:induction false} HistoryIsNewest(d: Desk, run: seq<Event>, before: seq<uint32>)
    requires Sane(d) && d.history == Newest(before, d.historySize)
    ensures Run(d, run).history == Newest(SentSince(d, run, before), d.historySize)
    decreases |run|
  {
    hide Step, Push, Entry;
    if run != [] {
      var x := Step(d, run[0]);
      StepHistory(d, run[0]);
      StepConserves(d, run[0]);
      if run[0].HistoryWrite? && run[0].sub == 0 && run[0].value == 0 {
        HistoryIsNewest(x.d, run[1..], []);
      } else if x.sent.Some? {
        PushNewest(before, Entry(x.sent.value), d.historySize);
        HistoryIsNewest(x.d, run[1..], [Entry(x.sent.value)] + before);
      } else {
        HistoryIsNewest(x.d, run[1..], before);
      }
    }
  }
}
