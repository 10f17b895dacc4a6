/**
  SYNC and synchronous PDOs (stack/CO_SYNC.c, stack/CO_PDO.c): the toggle that
  switches the two receive buffers of an RPDO, and the count of SYNCs that
  paces a cyclic TPDO.
 */
module PdoSync {
  import opened Can

  // ---------------------------------------------------------------------- SYNC

  datatype Sync = Sync(
    toggle: bool, rxNew: bool, counter: byte, timer: uint32, inWindow: bool,
    producer: bool, period: uint32, overflow: byte, receiveError: uint16)

  /** A SYNC frame with `dlc` data bytes, the first of them `b`, arrives at an active node. */
  function SyncReceive(y: Sync, dlc: byte, b: byte, active: bool): (r: Sync) {
    if !active then y
    else
      var y1 := if y.overflow == 0 then
                  if dlc == 0 then y.(rxNew := true) else y.(receiveError := 0x100 + dlc)
                else
                  if dlc == 1 then y.(counter := b, rxNew := true) else y.(receiveError := 0x200 + dlc);
      if y1.rxNew then y1.(toggle := !y1.toggle) else y1
  }

  datatype SyncResult = SyncResult(y: Sync, ret: int, sent: Option<byte>)

  /** The counter of the next SYNC of a producer. */
  function NextCounter(c: byte, overflow: byte): (n: byte) {
    var n := (c + 1) % 0x100;
    if n > overflow then 1 else n
  }

  /** One process call: 1 if a SYNC was received or produced, 2 when the window closes. */
  function SyncProcess(y: Sync, dt: uint32, window: uint32, active: bool): (r: SyncResult) {
    var y0 := y.(receiveError := 0);
    if !active then SyncResult(y0.(rxNew := false), 0, None)
    else
      var later := (y.timer + dt) % 0x1_0000_0000;
      var y1 := y0.(timer := if y.rxNew then 0 else if later > y.timer then later else y.timer, rxNew := false);
      if y.producer && y.period != 0 && y1.timer >= y.period then
        var c := NextCounter(y.counter, y.overflow);
        Window(y1.(counter := c, timer := 0, toggle := !y.toggle), window, 1, Some(c))
      else Window(y1, window, if y.rxNew then 1 else 0, None)
  }

  function Window(y: Sync, window: uint32, ret: int, sent: Option<byte>): (r: SyncResult) {
    if window != 0 && y.timer > window then SyncResult(y.(inWindow := false), if y.inWindow then 2 else ret, sent)
    else SyncResult(y.(inWindow := true), ret, sent)
  }

  // ---------------------------------------------------------- synchronous RPDO

  datatype Rpdo = Rpdo(data0: Frame, data1: Frame, new0: bool, new1: bool)

  /** A frame arrives: into the second buffer while the SYNC toggle is set. */
  function RpdoReceive(r: Rpdo, f: Frame, accepts: bool, synchronous: bool, toggle: bool): (q: Rpdo) {
    if !accepts then r
    else if synchronous && toggle then r.(data1 := f, new1 := true)
    else r.(data0 := f, new0 := true)
  }

  datatype RpdoResult = RpdoResult(r: Rpdo, copied: Option<Frame>)

  /** The relevant buffer is the one not being filled; a new frame in it goes to the mapped objects. */
  function RpdoProcess(r: Rpdo, on: bool, synchronous: bool, toggle: bool, syncWas: bool): (q: RpdoResult) {
    if !on then RpdoResult(r.(new0 := false, new1 := false), None)
    else if synchronous && !syncWas then RpdoResult(r, None)
    else if synchronous && !toggle then RpdoResult(r.(new1 := false), if r.new1 then Some(r.data1) else None)
    else RpdoResult(r.(new0 := false), if r.new0 then Some(r.data0) else None)
  }

  /** A node with a synchronous RPDO, which follows the SYNC of another node or makes it. */
  datatype Unit = Unit(y: Sync, r: Rpdo)

  datatype Event = SyncFrame(counter: byte) | PdoFrame(f: Frame) | Call(dt: uint32, window: uint32)

  datatype Outcome = Outcome(u: Unit, copied: Option<Frame>)

  function Length(y: Sync): (dlc: byte) {
    if y.overflow == 0 then 0 else 1
  }

  /** The node is operational and the RPDO valid throughout. */
  function Step(u: Unit, e: Event): (o: Outcome) {
    match e
    case SyncFrame(c) => Outcome(u.(y := SyncReceive(u.y, Length(u.y), c, true)), None)
    case PdoFrame(f) => Outcome(u.(r := RpdoReceive(u.r, f, true, true, u.y.toggle)), None)
    case Call(dt, window) =>
      var x := SyncProcess(u.y, dt, window, true);
      var q := RpdoProcess(u.r, true, true, x.y.toggle, x.ret == 1);
      Outcome(Unit(x.y, q.r), q.copied)
  }

  function Run(u: Unit, run: seq<Event>): (r: Unit)
    decreases |run|
  {
    if run == [] then u else Run(Step(u, run[0]).u, run[1..])
  }

  /** Each SYNC is processed before the next SYNC frame. */
  predicate Orderly(u: Unit, run: seq<Event>)
    decreases |run|
  {
    run == [] || ((run[0].SyncFrame? ==> !u.y.rxNew) && Orderly(Step(u, run[0]).u, run[1..]))
  }

  // ----------------------------------------------------- what should be visible

  /** What an event is for the RPDO: a SYNC heard, a call that makes a SYNC itself, a frame, or a plain call. */
  datatype Mark = Heard | Made | Data(f: Frame) | Called

  function MarkOf(u: Unit, e: Event): (m: Mark) {
    match e
    case SyncFrame(_) => Heard
    case PdoFrame(f) => Data(f)
    case Call(dt, window) => if SyncProcess(u.y, dt, window, true).sent.Some? then Made else Called
  }

  predicate IsSync(m: Mark) {
    m.Heard? || m.Made?
  }

  /** The last frame of the current window, the last one of the window before, and whether that one is due. */
  datatype Windows = Windows(current: Option<Frame>, before: Option<Frame>, due: bool)

  /** A SYNC closes the window; one the node makes is processed on the spot. */
  function Observe(w: Windows, m: Mark): (r: Windows) {
    match m
    case Heard => Windows(None, w.current, true)
    case Made => Windows(None, w.current, false)
    case Data(f) => w.(current := Some(f))
    case Called => w.(due := false)
  }

  function Visible(w: Windows, m: Mark): (f: Option<Frame>) {
    if m.Made? then w.current else if m.Called? && w.due then w.before else None
  }

  function ObserveRun(u: Unit, w: Windows, run: seq<Event>): (r: Windows)
    decreases |run|
  {
    if run == [] then w else ObserveRun(Step(u, run[0]).u, Observe(w, MarkOf(u, run[0])), run[1..])
  }

  function Buffered(data: Frame, isNew: bool): (f: Option<Frame>) {
    if isNew then Some(data) else None
  }

  /** The buffer being filled holds the current window, the other one what is due. */
  predicate Related(u: Unit, w: Windows) {
    var first, second := Buffered(u.r.data0, u.r.new0), Buffered(u.r.data1, u.r.new1);
    && u.y.rxNew == w.due
    && w.current == (if u.y.toggle then second else first)
    && (if u.y.toggle then first else second) == (if w.due then w.before else None)
  }

  /** Every event keeps the two in step, and a call copies exactly what is due. */
  lemma StepRelated(u: Unit, w: Windows, e: Event)
    requires Related(u, w) && (e.SyncFrame? ==> !u.y.rxNew)
    ensures var o := Step(u, e); Related(o.u, Observe(w, MarkOf(u, e))) && o.copied == Visible(w, MarkOf(u, e))
  {
  }

  lemma {:induction false} RunRelated(u: Unit, w: Windows, run: seq<Event>)
    requires Related(u, w) && Orderly(u, run)
    ensures Related(Run(u, run), ObserveRun(u, w, run))
    decreases |run|
  {
    hide Related, Step, MarkOf;
    if run != [] {
      assert run[0].SyncFrame? ==> !u.y.rxNew;
      StepRelated(u, w, run[0]);
      RunRelated(Step(u, run[0]).u, Observe(w, MarkOf(u, run[0])), run[1..]);
    }
  }

  // ------------------------------------------------------------------ the theorem

  /** No event of the run is a SYNC, heard or made. */
  predicate NoSync(u: Unit, run: seq<Event>)
    decreases |run|
  {
    run == [] || (!IsSync(MarkOf(u, run[0])) && NoSync(Step(u, run[0]).u, run[1..]))
  }

  predicate NoCall(run: seq<Event>) {
    forall i :: 0 <= i < |run| ==> !run[i].Call?
  }

  /** The last RPDO frame of a stretch of the run, `before` if there is none. */
  function LastPdo(run: seq<Event>, before: Option<Frame>): (f: Option<Frame>)
    decreases |run|
  {
    if run == [] then before
    else LastPdo(run[1..], if run[0].PdoFrame? then Some(run[0].f) else before)
  }

  lemma {:induction false} RunConcat(u: Unit, w: Windows, a: seq<Event>, b: seq<Event>)
    ensures Run(u, a + b) == Run(Run(u, a), b)
    ensures ObserveRun(u, w, a + b) == ObserveRun(Run(u, a), ObserveRun(u, w, a), b)
    ensures Orderly(u, a + b) ==> Orderly(u, a) && Orderly(Run(u, a), b)
    decreases |a|
  {
    hide Step, MarkOf, Observe;
    if a == [] {
      assert a + b == b;
    } else {
      assert (a + b)[0] == a[0] && (a + b)[1..] == a[1..] + b;
      RunConcat(Step(u, a[0]).u, Observe(w, MarkOf(u, a[0])), a[1..], b);
    }
  }

  /** Between SYNCs the current window collects the last frame, and what was before stays. */
  lemma {:induction false} WithinWindow(u: Unit, w: Windows, run: seq<Event>)
    requires NoSync(u, run)
    ensures var r := ObserveRun(u, w, run);
            && r.before == w.before && r.current == LastPdo(run, w.current)
            && (NoCall(run) || !w.due ==> r.due == w.due)
    decreases |run|
  {
    hide Step;
    if run != [] {
      WithinWindow(Step(u, run[0]).u, Observe(w, MarkOf(u, run[0])), run[1..]);
    }
  }

  lemma ObserveOne(u: Unit, w: Windows, e: Event)
    ensures Run(u, [e]) == Step(u, e).u && ObserveRun(u, w, [e]) == Observe(w, MarkOf(u, e))
  {
    hide Step, MarkOf, Observe;
    assert [e][1..] == [];
  }

  /** After a SYNC and a stretch without one the current window is what that stretch received. */
  lemma WindowIs(u: Unit, w: Windows, pre: seq<Event>, a: Event, mid: seq<Event>)
    requires Related(u, w) && Orderly(u, pre + [a] + mid)
    requires IsSync(MarkOf(Run(u, pre), a)) && NoSync(Run(u, pre + [a]), mid)
    ensures var r := Run(u, pre + [a] + mid); var v := ObserveRun(u, w, pre + [a] + mid);
            Related(r, v) && v.current == LastPdo(mid, None)
  {
    hide Related, Step, Orderly, LastPdo, MarkOf, NoSync;
    RunRelated(u, w, pre + [a] + mid);
    RunConcat(u, w, pre + [a], mid);
    RunConcat(u, w, pre, [a]);
    ObserveOne(Run(u, pre), ObserveRun(u, w, pre), a);
    WithinWindow(Run(u, pre + [a]), ObserveRun(u, w, pre + [a]), mid);
  }

  /**
    In a run where each SYNC is processed before the next, SYNCs heard or made:
    a call that makes a SYNC, or else the first call after a SYNC heard, copies
    exactly the last RPDO received between the SYNC before and this one. Frames
    that arrive after the SYNC are not copied by it.
   */
  lemma DoubleBuffering(u: Unit, w: Windows, pre: seq<Event>, a: Event, mid: seq<Event>, b: Event, post: seq<Event>, call: Event)
    requires Related(u, w) && Orderly(u, pre + [a] + mid + [b] + post) && call.Call?
    requires IsSync(MarkOf(Run(u, pre), a)) && NoSync(Run(u, pre + [a]), mid)
    requires NoSync(Run(u, pre + [a] + mid + [b]), post) && NoCall(post)
    ensures var v := Run(u, pre + [a] + mid);
            && (MarkOf(v, b).Made? ==> Step(v, b).copied == LastPdo(mid, None))
            && (MarkOf(v, b).Heard? ==>
                  Step(Run(u, pre + [a] + mid + [b] + post), call).copied == LastPdo(mid, None))
  {
    hide Related, Step, Orderly, LastPdo, MarkOf, NoSync;
    RunConcat(u, w, pre + [a] + mid + [b], post);
    RunConcat(u, w, pre + [a] + mid, [b]);
    WindowIs(u, w, pre, a, mid);
    var v, x := Run(u, pre + [a] + mid), ObserveRun(u, w, pre + [a] + mid);
    FirstOrderly(v, b);
    StepRelated(v, x, b);
    if MarkOf(v, b).Heard? {
      ObserveOne(v, x, b);
      var v1, x1 := Run(u, pre + [a] + mid + [b]), ObserveRun(u, w, pre + [a] + mid + [b]);
      WithinWindow(v1, x1, post);
      RunRelated(v1, x1, post);
      var v2, x2 := Run(v1, post), ObserveRun(v1, x1, post);
      StepRelated(v2, x2, call);
      DueCall(v2, x2, call);
    }
  }

  lemma FirstOrderly(u: Unit, e: Event)
    ensures Orderly(u, [e]) ==> (e.SyncFrame? ==> !u.y.rxNew)
  {
    hide Step;
  }

  /** A call that finds a SYNC heard makes none. */
  lemma DueCall(u: Unit, w: Windows, call: Event)
    requires Related(u, w) && w.due && call.Call?
    ensures MarkOf(u, call).Called?
  {
  }

  /** Between that call and the next SYNC nothing is copied, whatever arrives. */
  lemma NothingEarly(u: Unit, w: Windows, pre: seq<Event>, first: Event, rest: seq<Event>, call: Event)
    requires Related(u, w) && Orderly(u, pre + [first] + rest) && first.Call? && call.Call?
    requires NoSync(Run(u, pre + [first]), rest) && !IsSync(MarkOf(Run(u, pre + [first] + rest), call))
    ensures Step(Run(u, pre + [first] + rest), call).copied.None?
  {
    hide Related, Step, Orderly, MarkOf, NoSync;
    RunRelated(u, w, pre + [first] + rest);
    RunConcat(u, w, pre + [first], rest);
    RunConcat(u, w, pre, [first]);
    ObserveOne(Run(u, pre), ObserveRun(u, w, pre), first);
    CallDone(Run(u, pre), ObserveRun(u, w, pre), first);
    WithinWindow(Run(u, pre + [first]), ObserveRun(u, w, pre + [first]), rest);
    StepRelated(Run(u, pre + [first] + rest), ObserveRun(u, w, pre + [first] + rest), call);
  }

  lemma CallDone(u: Unit, w: Windows, call: Event)
    requires call.Call?
    ensures !Observe(w, MarkOf(u, call)).due
  {
  }

  // --------------------------------------------------------------------- TPDO

  /** The communication parameters of a TPDO. */
  datatype Par = Par(kind: byte, inhibitTime: uint16, eventTimer: uint16, syncStart: byte)

  datatype Tpdo = Tpdo(sendRequest: bool, syncCounter: byte, inhibit: uint32, event: uint32)

  datatype TpdoResult = TpdoResult(t: Tpdo, sent: bool)

  /** The inputs of a process call; `accepted` tells whether the driver takes a frame. */
  datatype TpdoInput = TpdoInput(on: bool, syncWas: bool, overflow: byte, counter: byte, dt: uint32, accepted: bool)

  function Less(timer: uint32, dt: uint32): (r: uint32) {
    if timer > dt then timer - dt else 0
  }

  function Timers(t: Tpdo, dt: uint32): (r: Tpdo) {
    t.(inhibit := Less(t.inhibit, dt), event := Less(t.event, dt))
  }

  function TpdoProcess(t: Tpdo, p: Par, i: TpdoInput): (r: TpdoResult) {
    var x := if !i.on then TpdoResult(t.(sendRequest := p.kind >= 254), false)
             else if p.kind >= 253 then EventTpdo(t, p, i)
             else if !i.syncWas then TpdoResult(t, false)
             else if p.kind == 0 then TpdoResult(t.(sendRequest := false), t.sendRequest)
             else CyclicTpdo(t, p, i);
    TpdoResult(Timers(x.t, i.dt), x.sent)
  }

  /** By request or event timer, not before the inhibit time is over. */
  function EventTpdo(t: Tpdo, p: Par, i: TpdoInput): (r: TpdoResult) {
    if t.inhibit == 0 && (t.sendRequest || (p.eventTimer != 0 && t.event == 0)) then
      var t1 := t.(sendRequest := false);
      TpdoResult(if i.accepted then t1.(inhibit := p.inhibitTime * 100, event := p.eventTimer * 1000) else t1, true)
    else TpdoResult(t, false)
  }

  /** Every N-th SYNC; 255 marks the start, 254 the wait for the start value. */
  function CyclicTpdo(t: Tpdo, p: Par, i: TpdoInput): (r: TpdoResult)
    requires 0 < p.kind
  {
    var c := if t.syncCounter != 255 then t.syncCounter
             else if i.overflow != 0 && p.syncStart != 0 then 254
             else p.kind;
    if c == 254 then
      if i.counter == p.syncStart then TpdoResult(t.(syncCounter := p.kind, sendRequest := false), true)
      else TpdoResult(t.(syncCounter := 254), false)
    else if c == 1 then TpdoResult(t.(syncCounter := p.kind, sendRequest := false), true)
    else TpdoResult(t.(syncCounter := (c - 1) % 0x100), false)
  }

  // ------------------------------------------------------------- cyclic sending

  /** The process calls of a run in operational state, told apart by whether a SYNC was just received. */
  datatype Tick = Tick(syncWas: bool, dt: uint32, accepted: bool)

  /** The number of SYNCs in a run. */
  function Syncs(calls: seq<Tick>): (n: nat)
    decreases |calls|
  {
    if calls == [] then 0 else Syncs(calls[..|calls| - 1]) + (if calls[|calls| - 1].syncWas then 1 else 0)
  }

  /** The counter value of SYNC number k of a producer that starts from reset. */
  function ProducerCounter(k: nat, overflow: byte): (c: byte) {
    if k == 0 then 0 else NextCounter(ProducerCounter(k - 1, overflow), overflow)
  }

  /** It cycles through 1..overflow. */
  lemma {:induction false} ProducerCycles(k: nat, overflow: byte)
    requires 0 < overflow < 255
    ensures k > 0 ==> ProducerCounter(k, overflow) == (k - 1) % overflow + 1
    decreases k
  {
    if k > 1 {
      ProducerCycles(k - 1, overflow);
      NextModulo(k - 2, overflow);
    }
  }

  lemma NextModulo(a: nat, m: nat)
    requires 0 < m
    ensures (a + 1) % m == (if a % m == m - 1 then 0 else a % m + 1)
  {
    var q, r := a / m, a % m;
    assert a == m * q + r;
    if r == m - 1 {
      assert a + 1 == m * (q + 1);
      Modulo(q + 1, m, 0);
    } else {
      Modulo(q, m, r + 1);
    }
  }

  lemma Modulo(q: nat, m: nat, r: nat)
    requires r < m
    ensures (m * q + r) % m == r
  {
    var x := m * q + r;
    var q2, r2 := x / m, x % m;
    assert m * q2 + r2 == m * q + r;
    assert m * (q - q2) == m * q - m * q2 && m * (q2 - q) == m * q2 - m * q;
    if q > q2 {
      AtLeast(m, q - q2);
    } else if q < q2 {
      AtLeast(m, q2 - q);
    }
  }

  lemma {:induction false} AtLeast(m: nat, d: nat)
    requires 0 < d
    ensures m * d >= m
  {
    if d > 1 {
      AtLeast(m, d - 1);
      assert m * d == m * (d - 1) + m;
    }
  }

  /** The inputs of one operational call; the k-th SYNC carries the producer's counter. */
  function CallInput(c: Tick, k: nat, overflow: byte): (i: TpdoInput) {
    TpdoInput(true, c.syncWas, overflow, ProducerCounter(k, overflow), c.dt, c.accepted)
  }

  /** The TPDO after a run of calls. */
  function TpdoRun(t: Tpdo, p: Par, overflow: byte, calls: seq<Tick>): (r: Tpdo)
    decreases |calls|
  {
    if calls == [] then t
    else
      var init := calls[..|calls| - 1];
      TpdoProcess(TpdoRun(t, p, overflow, init), p, CallInput(calls[|calls| - 1], Syncs(calls), overflow)).t
  }

  /** The next call of a run sends. */
  predicate Sends(t: Tpdo, p: Par, overflow: byte, calls: seq<Tick>, next: Tick) {
    TpdoProcess(TpdoRun(t, p, overflow, calls), p, CallInput(next, Syncs(calls + [next]), overflow)).sent
  }

  /** SYNCs still to come before a cyclic TPDO of period n is sent, after k SYNCs. */
  function Left(k: nat, n: nat): (c: nat)
    requires 0 < n
    ensures 0 < c <= n
  {
    if k == 0 then n else if Left(k - 1, n) == 1 then n else Left(k - 1, n) - 1
  }

  lemma {:induction false} LeftIs(k: nat, n: nat)
    requires 0 < n
    ensures Left(k, n) == n - k % n
  {
    if k == 0 {
      Modulo(0, n, 0);
    } else {
      LeftIs(k - 1, n);
      NextModulo(k - 1, n);
    }
  }

  /** It is the turn of SYNC k + 1 exactly if n divides k + 1. */
  lemma TurnMeans(k: nat, n: nat)
    requires 0 < n
    ensures Left(k, n) == 1 <==> (k + 1) % n == 0
  {
    hide Left;
    LeftIs(k, n);
    NextModulo(k, n);
  }

  lemma {:induction false} CyclicState(t: Tpdo, p: Par, overflow: byte, calls: seq<Tick>)
    requires t.syncCounter == 255 && 0 < p.kind < 253 && (overflow == 0 || p.syncStart == 0)
    ensures var c := TpdoRun(t, p, overflow, calls).syncCounter; var k := Syncs(calls);
            if k == 0 then c == 255 else c == Left(k, p.kind)
    decreases |calls|
  {
    hide ProducerCounter, Timers;
    if calls != [] {
      var init := calls[..|calls| - 1];
      CyclicState(t, p, overflow, init);
      SameCounter(calls[|calls| - 1].dt);
    }
  }

  lemma SameCounter(dt: uint32)
    ensures forall q: Tpdo :: Timers(q, dt).syncCounter == q.syncCounter
  {
  }

  lemma SyncsAppend(calls: seq<Tick>, c: Tick)
    ensures Syncs(calls + [c]) == Syncs(calls) + (if c.syncWas then 1 else 0)
  {
    assert (calls + [c])[..|calls|] == calls;
  }

  /** Transmission type N without a start value: sent exactly at SYNCs N, 2N, 3N and so on. */
  lemma CyclicSends(t: Tpdo, p: Par, overflow: byte, calls: seq<Tick>, next: Tick)
    requires t.syncCounter == 255 && 0 < p.kind < 253 && (overflow == 0 || p.syncStart == 0)
    ensures Sends(t, p, overflow, calls, next) <==> next.syncWas && Syncs(calls + [next]) % p.kind == 0
  {
    hide ProducerCounter, Timers, TpdoRun, Syncs;
    CyclicState(t, p, overflow, calls);
    SyncsAppend(calls, next);
    TurnMeans(Syncs(calls), p.kind);
    TurnMeans(0, p.kind);
  }

  /** With a start value: wait for the SYNC that carries it, then every N-th. */
  lemma {:induction false} StartState(t: Tpdo, p: Par, overflow: byte, calls: seq<Tick>)
    requires t.syncCounter == 255 && 0 < p.kind < 253 && 0 < p.syncStart <= overflow < 255
    ensures var c := TpdoRun(t, p, overflow, calls).syncCounter; var k := Syncs(calls);
            if k < p.syncStart then c == 254 || (c == 255 && k == 0) else c == Left(k - p.syncStart, p.kind)
    decreases |calls|
  {
    hide ProducerCounter, Timers;
    if calls != [] {
      var init := calls[..|calls| - 1];
      var k := Syncs(init);
      StartState(t, p, overflow, init);
      SameCounter(calls[|calls| - 1].dt);
      if k < p.syncStart {
        FirstMatch(k + 1, overflow, p.syncStart);
      }
    }
  }

  /** Among the first s SYNCs only number s carries counter s. */
  lemma FirstMatch(k: nat, overflow: byte, s: byte)
    requires 0 < k <= s <= overflow < 255
    ensures ProducerCounter(k, overflow) == s <==> k == s
  {
    ProducerCycles(k, overflow);
    Modulo(0, overflow, k - 1);
  }

  /** Start value s and a counter that cycles through 1..overflow from reset: sent exactly at SYNCs s, s + N, s + 2N and so on. */
  lemma StartSends(t: Tpdo, p: Par, overflow: byte, calls: seq<Tick>, next: Tick)
    requires t.syncCounter == 255 && 0 < p.kind < 253 && 0 < p.syncStart <= overflow < 255
    ensures var k := Syncs(calls + [next]);
            Sends(t, p, overflow, calls, next) <==> next.syncWas && k >= p.syncStart && (k - p.syncStart) % p.kind == 0
  {
    hide ProducerCounter, Timers, TpdoRun, Syncs;
    StartState(t, p, overflow, calls);
    SyncsAppend(calls, next);
    var k := Syncs(calls);
    if k >= p.syncStart {
      TurnMeans(k - p.syncStart, p.kind);
    } else {
      FirstMatch(k + 1, overflow, p.syncStart);
      Modulo(0, p.kind, 0);
    }
  }

  // -------------------------------------------------------------- the SYNC producer

  /** One call of a node: the SYNC object, then the TPDO. */
  datatype NodeCall = NodeCall(dt: uint32, window: uint32, accepted: bool)

  datatype Node = Node(y: Sync, t: Tpdo)

  datatype NodeResult = NodeResult(n: Node, made: Option<byte>, sent: bool)

  function NodeStep(n: Node, p: Par, c: NodeCall): (r: NodeResult) {
    var x := SyncProcess(n.y, c.dt, c.window, true);
    var z := TpdoProcess(n.t, p, TpdoInput(true, x.ret == 1, x.y.overflow, x.y.counter, c.dt, c.accepted));
    NodeResult(Node(x.y, z.t), x.sent, z.sent)
  }

  function NodeRun(n: Node, p: Par, calls: seq<NodeCall>): (r: Node)
    decreases |calls|
  {
    if calls == [] then n else NodeStep(NodeRun(n, p, calls[..|calls| - 1]), p, calls[|calls| - 1]).n
  }

  /** The counters of the SYNCs the node has made. */
  function MadeBy(n: Node, p: Par, calls: seq<NodeCall>): (s: seq<byte>)
    decreases |calls|
  {
    if calls == [] then []
    else
      var init := calls[..|calls| - 1];
      var x := NodeStep(NodeRun(n, p, init), p, calls[|calls| - 1]);
      MadeBy(n, p, init) + (if x.made.Some? then [x.made.value] else [])
  }

  /** A SYNC producer after reset that hears no SYNC of another node. */
  predicate Producing(y: Sync) {
    y.producer && !y.rxNew && 0 < y.overflow < 255
  }

  /** The calls as the TPDO sees them. */
  function TicksOf(n: Node, p: Par, calls: seq<NodeCall>): (ticks: seq<Tick>)
    decreases |calls|
  {
    if calls == [] then []
    else
      var init, c := calls[..|calls| - 1], calls[|calls| - 1];
      TicksOf(n, p, init) + [Tick(NodeStep(NodeRun(n, p, init), p, c).made.Some?, c.dt, c.accepted)]
  }

  lemma ProducerCall(y: Sync, dt: uint32, window: uint32)
    requires Producing(y)
    ensures var x := SyncProcess(y, dt, window, true);
            && Producing(x.y) && x.y.overflow == y.overflow && (x.ret == 1 <==> x.sent.Some?)
            && (if x.sent.Some? then x.sent.value == x.y.counter == NextCounter(y.counter, y.overflow)
                else x.y.counter == y.counter)
  {
    hide NextCounter;
  }

  /** SYNC number k of a producer carries the k-th value of the cycle 1..overflow, and its TPDO runs as the count of SYNCs says. */
  lemma {:induction false} ProducerRun(n: Node, p: Par, calls: seq<NodeCall>)
    requires Producing(n.y) && n.y.counter == 0
    ensures var r := NodeRun(n, p, calls); var s := MadeBy(n, p, calls); var ticks := TicksOf(n, p, calls);
            && Producing(r.y) && r.y.overflow == n.y.overflow && r.y.counter == ProducerCounter(|s|, n.y.overflow)
            && (forall k :: 0 <= k < |s| ==> s[k] == k % n.y.overflow + 1)
            && Syncs(ticks) == |s| && r.t == TpdoRun(n.t, p, n.y.overflow, ticks)
    decreases |calls|
  {
    hide SyncProcess, TpdoProcess, ProducerCounter, NextCounter, Producing;
    ResetCounter(n.y.overflow);
    if calls != [] {
      var init, c := calls[..|calls| - 1], calls[|calls| - 1];
      ProducerRun(n, p, init);
      var q, k := NodeRun(n, p, init), |MadeBy(n, p, init)|;
      ProducerCall(q.y, c.dt, c.window);
      var x := NodeStep(q, p, c);
      CounterStep(k, n.y.overflow, n.y);
      SyncsAppend(TicksOf(n, p, init), Tick(x.made.Some?, c.dt, c.accepted));
      TpdoRunAppend(n.t, p, n.y.overflow, TicksOf(n, p, init), Tick(x.made.Some?, c.dt, c.accepted));
    }
  }

  lemma ResetCounter(overflow: byte)
    ensures ProducerCounter(0, overflow) == 0
  {
  }

  lemma CounterStep(k: nat, overflow: byte, y: Sync)
    requires Producing(y) && y.overflow == overflow
    ensures ProducerCounter(k + 1, overflow) == NextCounter(ProducerCounter(k, overflow), overflow) == k % overflow + 1
  {
    ProducerCycles(k + 1, overflow);
  }

  lemma TpdoRunAppend(t: Tpdo, p: Par, overflow: byte, ticks: seq<Tick>, c: Tick)
    ensures TpdoRun(t, p, overflow, ticks + [c])
            == TpdoProcess(TpdoRun(t, p, overflow, ticks), p, CallInput(c, Syncs(ticks + [c]), overflow)).t
  {
    hide TpdoProcess, CallInput, Syncs;
    assert (ticks + [c])[..|ticks|] == ticks;
  }

  /** A node that makes the SYNCs itself: its TPDO with start value s is sent exactly at SYNCs s, s + N, s + 2N and so on. */
  lemma ProducerStartSends(n: Node, p: Par, calls: seq<NodeCall>, next: NodeCall)
    requires Producing(n.y) && n.y.counter == 0
    requires n.t.syncCounter == 255 && 0 < p.kind < 253 && 0 < p.syncStart <= n.y.overflow
    ensures var x := NodeStep(NodeRun(n, p, calls), p, next); var k := |MadeBy(n, p, calls)| + 1;
            x.sent <==> x.made.Some? && k >= p.syncStart && (k - p.syncStart) % p.kind == 0
  {
    hide SyncProcess, TpdoProcess, ProducerCounter, NextCounter, TicksOf, Syncs, TpdoRun, NodeRun, MadeBy;
    ProducerRun(n, p, calls);
    var q, ticks := NodeRun(n, p, calls), TicksOf(n, p, calls);
    ProducerCall(q.y, next.dt, next.window);
    var x := NodeStep(q, p, next);
    var tick := Tick(x.made.Some?, next.dt, next.accepted);
    StartSends(n.t, p, n.y.overflow, ticks, tick);
    SyncsAppend(ticks, tick);
    CounterStep(|MadeBy(n, p, calls)|, n.y.overflow, n.y);
  }
}
