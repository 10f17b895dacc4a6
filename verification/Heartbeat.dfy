/**
  Heartbeat consumer of stack/CO_HBconsumer.c and the producer part of
  stack/CO_NMT_Heartbeat.c: a timeout is never reported too early, and never at
  all for a producer that is fast enough.
 */
module Heartbeat {
  import opened Can

  const INITIALIZING: byte := 0
  const OPERATIONAL: byte := 5

  datatype HbState = Unconfigured | Unknown | Active | Timeout

  datatype Monitored = Monitored(time: uint16, rxNew: bool, nmt: byte, hb: HbState, timer: uint16)

  /** A heartbeat or boot-up frame of the node arrives. */
  function Receive(n: Monitored, nmt: byte): (r: Monitored) {
    n.(nmt := nmt, rxNew := true)
  }

  /** A channel is used if both node and time are given. */
  function Configure(n: Monitored, nodeId: byte, time: uint16): (r: Monitored) {
    if nodeId != 0 && time != 0 then n.(time := time, nmt := INITIALIZING, hb := Unknown)
    else n.(time := 0, nmt := INITIALIZING, hb := Unconfigured)
  }

  /** The state of one node after its turn in a process call, and the time step left for the nodes after it. */
  datatype Turn = Turn(n: Monitored, dt: uint16, timedOut: bool, wasReset: bool)

  /** Take a received frame: a heartbeat restarts the timer, and with it the time step of the whole call. */
  function Take(n: Monitored, dt: uint16): (t: Turn) {
    if !n.rxNew then Turn(n, dt, false, false)
    else if n.nmt == INITIALIZING then Turn(n.(rxNew := false), dt, false, false)
    else Turn(n.(rxNew := false, hb := Active, timer := 0), 0, false, false)
  }

  function ProcessNode(n: Monitored, dt: uint16): (t: Turn) {
    if n.time == 0 then Turn(n, dt, false, false)
    else
      var t := Take(n, dt);
      var m := if t.n.timer < n.time then t.n.(timer := Add16(t.n.timer, t.dt)) else t.n;
      if m.hb.Unconfigured? || m.hb.Unknown? then Turn(m, t.dt, false, false)
      else if m.timer >= n.time then Turn(m.(nmt := INITIALIZING, hb := Timeout), t.dt, true, false)
      else if m.nmt == INITIALIZING then Turn(m.(hb := Unknown), t.dt, false, true)
      else Turn(m, t.dt, false, false)
  }

  function Silence(n: Monitored): (r: Monitored) {
    n.(nmt := INITIALIZING, rxNew := false, hb := if n.hb.Unconfigured? then Unconfigured else Unknown)
  }

  /** The time step that is left when the turn of node i comes. */
  function StepAt(nodes: seq<Monitored>, dt: uint16, i: nat): (d: uint16)
    requires i <= |nodes|
  {
    if i == 0 then dt else ProcessNode(nodes[i - 1], StepAt(nodes, dt, i - 1)).dt
  }

  /** One process call over all monitored nodes. */
  function Process(nodes: seq<Monitored>, active: bool, dt: uint16): (r: seq<Monitored>)
    ensures |r| == |nodes|
  {
    seq(|nodes|, i requires 0 <= i < |nodes| =>
      if active then ProcessNode(nodes[i], StepAt(nodes, dt, i)).n else Silence(nodes[i]))
  }

  /** Some node before i times out in this call. */
  predicate AnyTimedOut(nodes: seq<Monitored>, dt: uint16, i: nat)
    requires i <= |nodes|
  {
    i > 0 && (AnyTimedOut(nodes, dt, i - 1) || ProcessNode(nodes[i - 1], StepAt(nodes, dt, i - 1)).timedOut)
  }

  predicate AnyReset(nodes: seq<Monitored>, dt: uint16, i: nat)
    requires i <= |nodes|
  {
    i > 0 && (AnyReset(nodes, dt, i - 1) || ProcessNode(nodes[i - 1], StepAt(nodes, dt, i - 1)).wasReset)
  }

  /** Every node is either not monitored or reported to be operational. */
  predicate AllOperational(nodes: seq<Monitored>) {
    forall i :: 0 <= i < |nodes| && nodes[i].time > 0 ==> nodes[i].nmt == OPERATIONAL
  }

  class Consumer {
    const nodes: array<Monitored>
    var allOperational: bool

    constructor (n: nat)
      ensures nodes.Length == n && fresh(nodes)
    {
      nodes := new Monitored[n](_ => Monitored(0, false, INITIALIZING, Unconfigured, 0));
      allOperational := false;
    }

    method OnReceive(i: nat, dlc: nat, nmt: byte)
      requires i < nodes.Length
      modifies nodes
      ensures nodes[..] == old(nodes[..])[i := if dlc == 1 then Receive(old(nodes[i]), nmt) else old(nodes[i])]
    {
      if dlc == 1 {
        nodes[i] := Receive(nodes[i], nmt);
      }
    }

    /** One process call; says whether some node timed out and whether some node was reset. */
    method DoProcess(active: bool, timeDifference: uint16) returns (timeoutActive: bool, resetActive: bool)
      modifies this, nodes
      ensures nodes[..] == Process(old(nodes[..]), active, timeDifference)
      ensures allOperational == (active && AllOperational(nodes[..]))
      ensures timeoutActive == (active && AnyTimedOut(old(nodes[..]), timeDifference, nodes.Length))
      ensures resetActive == (active && AnyReset(old(nodes[..]), timeDifference, nodes.Length))
    {
      timeoutActive, resetActive := false, false;
      if active {
        timeoutActive, resetActive := ProcessActive(timeDifference);
      } else {
        ghost var was := nodes[..];
        var i := 0;
        while i < nodes.Length
          invariant 0 <= i <= nodes.Length
          invariant forall k :: i <= k < nodes.Length ==> nodes[k] == was[k]
          invariant forall k :: 0 <= k < i ==> nodes[k] == Silence(was[k])
        {
          nodes[i] := Silence(nodes[i]);
          i := i + 1;
        }
        allOperational := false;
      }
    }

    /** Node by node; a heartbeat sets the time step to zero for the nodes behind it. */
    method ProcessActive(timeDifference: uint16) returns (timeoutActive: bool, resetActive: bool)
      modifies this, nodes
      ensures nodes[..] == Process(old(nodes[..]), true, timeDifference)
      ensures allOperational == AllOperational(nodes[..])
      ensures timeoutActive == AnyTimedOut(old(nodes[..]), timeDifference, nodes.Length)
      ensures resetActive == AnyReset(old(nodes[..]), timeDifference, nodes.Length)
    {
      hide ProcessNode;
      ghost var was := nodes[..];
      var all, dt, i := true, timeDifference, 0;
      timeoutActive, resetActive := false, false;
      while i < nodes.Length
        invariant 0 <= i <= nodes.Length
        invariant dt == StepAt(was, timeDifference, i)
        invariant forall k :: i <= k < nodes.Length ==> nodes[k] == was[k]
        invariant forall k :: 0 <= k < i ==> nodes[k] == ProcessNode(was[k], StepAt(was, timeDifference, k)).n
        invariant all == (forall k :: 0 <= k < i && nodes[k].time > 0 ==> nodes[k].nmt == OPERATIONAL)
        invariant timeoutActive == AnyTimedOut(was, timeDifference, i)
        invariant resetActive == AnyReset(was, timeDifference, i)
      {
        var t := ProcessNode(nodes[i], dt);
        nodes[i] := t.n;
        dt := t.dt;
        timeoutActive := timeoutActive || t.timedOut;
        resetActive := resetActive || t.wasReset;
        if t.n.time > 0 && t.n.nmt != OPERATIONAL {
          all := false;
        }
        i := i + 1;
      }
      allOperational := all;
    }
  }

  // --------------------------------------------------------------- never too early

  /** A process call treats a node with the whole time step or with none of it. */
  lemma {:induction false} StepWholeOrNone(nodes: seq<Monitored>, dt: uint16, i: nat)
    requires i <= |nodes|
    ensures StepAt(nodes, dt, i) == dt || StepAt(nodes, dt, i) == 0
  {
    if i > 0 {
      StepWholeOrNone(nodes, dt, i - 1);
    }
  }

  datatype Event = Arrives(i: nat, nmt: byte) | Called(active: bool, dt: uint16)

  /** The nodes with, for each, the time that has really passed since the call that took its last heartbeat. */
  datatype Watch = Watch(nodes: seq<Monitored>, since: seq<nat>)

  predicate TakesHeartbeat(n: Monitored) {
    n.time > 0 && n.rxNew && n.nmt != INITIALIZING
  }

  function Step(w: Watch, e: Event): (r: Watch)
    requires |w.since| == |w.nodes|
    ensures |r.since| == |r.nodes| == |w.nodes|
  {
    match e
    case Arrives(i, nmt) => if i < |w.nodes| then w.(nodes := w.nodes[i := Receive(w.nodes[i], nmt)]) else w
    case Called(active, dt) =>
      Watch(Process(w.nodes, active, dt),
            seq(|w.nodes|, i requires 0 <= i < |w.nodes| =>
              if active && TakesHeartbeat(w.nodes[i]) then 0 else w.since[i] + dt))
  }

  function Run(w: Watch, run: seq<Event>): (r: Watch)
    requires |w.since| == |w.nodes|
    ensures |r.since| == |r.nodes| == |w.nodes|
    decreases |run|
  {
    if run == [] then w else Run(Step(w, run[0]), run[1..])
  }

  /** The timer of a node that can time out never runs ahead of the time that has passed. */
  predicate NotAhead(w: Watch) {
    |w.since| == |w.nodes|
    && forall i :: 0 <= i < |w.nodes| ==> Honest(w.nodes[i], w.since[i])
  }

  predicate Honest(n: Monitored, since: nat) {
    && ((n.hb.Active? || n.hb.Timeout?) ==> n.timer <= since)
    && (n.hb.Timeout? ==> n.timer >= n.time)
  }

  lemma NodeHonest(n: Monitored, dt: uint16, z: uint16, since: nat)
    requires Honest(n, since) && (z == dt || z == 0)
    ensures Honest(ProcessNode(n, z).n, if TakesHeartbeat(n) then 0 else since + dt)
  {
  }

  lemma StepHonest(w: Watch, e: Event)
    requires NotAhead(w)
    ensures NotAhead(Step(w, e))
  {
    hide ProcessNode;
    var r := Step(w, e);
    if e.Called? {
      forall i | 0 <= i < |w.nodes|
        ensures Honest(r.nodes[i], r.since[i])
      {
        StepWholeOrNone(w.nodes, e.dt, i);
        NodeHonest(w.nodes[i], e.dt, StepAt(w.nodes, e.dt, i), w.since[i]);
      }
    }
  }

  /** In every run a node in timeout has really been without a heartbeat for its configured time. */
  lemma {:induction false} NeverTooEarly(w: Watch, run: seq<Event>, i: nat)
    requires NotAhead(w) && i < |w.nodes|
    ensures var r := Run(w, run); NotAhead(r) && (r.nodes[i].hb.Timeout? ==> r.since[i] >= r.nodes[i].time)
    decreases |run|
  {
    hide Step, Honest;
    if run == [] {
      HonestTimeout(w.nodes[i], w.since[i]);
    } else {
      StepHonest(w, run[0]);
      NeverTooEarly(Step(w, run[0]), run[1..], i);
    }
  }

  lemma HonestTimeout(n: Monitored, since: nat)
    requires Honest(n, since)
    ensures n.hb.Timeout? ==> since >= n.time
  {
  }

  // ------------------------------------------------------------- no false timeout

  const PRE_OPERATIONAL: byte := 127

  /** The producer's timer and the operating state it reports. */
  datatype Nmt = Nmt(timer: uint16, state: byte)

  datatype Beat = Beat(n: Nmt, sent: Option<byte>)

  /** The producer part of an NMT process call: the boot-up message, or a heartbeat whenever the heartbeat time is over. */
  function Produce(n: Nmt, dt: uint16, hbTime: uint16, firstHbTime: uint16, autoStart: bool): (b: Beat) {
    var t := Add16(n.timer, dt);
    if n.state == INITIALIZING then
      Beat(Nmt(if hbTime > firstHbTime then hbTime - firstHbTime else 0, if autoStart then OPERATIONAL else PRE_OPERATIONAL),
           Some(INITIALIZING))
    else if hbTime != 0 && t >= hbTime then Beat(n.(timer := 0), Some(n.state))
    else Beat(n.(timer := t), None)
  }

  class Producer {
    var timer: uint16
    var state: byte

    method DoProduce(dt: uint16, hbTime: uint16, firstHbTime: uint16, autoStart: bool) returns (sent: Option<byte>)
      modifies this
      ensures Beat(Nmt(timer, state), sent) == Produce(old(Nmt(timer, state)), dt, hbTime, firstHbTime, autoStart)
    {
      timer, sent := Add16(timer, dt), None;
      if (hbTime != 0 && timer >= hbTime) || state == INITIALIZING {
        timer, sent := 0, Some(state);
        if state == INITIALIZING {
          timer := if hbTime > firstHbTime then hbTime - firstHbTime else 0;
          state := if autoStart then OPERATIONAL else PRE_OPERATIONAL;
        }
      }
    }
  }

  /** The number of ticks of length d that cover the heartbeat time. */
  function TicksFor(hbTime: nat, d: nat): (k: nat)
    requires 0 < d
  {
    (hbTime + d - 1) / d
  }

  lemma TicksCover(hbTime: nat, d: nat)
    requires 0 < d && 0 < hbTime
    ensures var k := TicksFor(hbTime, d); 0 < k && d * (k - 1) < hbTime <= d * k
  {
    var k := TicksFor(hbTime, d);
    var r := (hbTime + d - 1) % d;
    assert hbTime + d - 1 == d * k + r;
    assert d * (k - 1) == d * k - d;
  }

  /**
    A producer that is called every d, and a consumer that monitors it as node j
    among others; `lastBeat` is the time of its last frame.
   */
  datatype Pair = Pair(
    nodes: seq<Monitored>, timer: uint16, ticks: nat,
    now: nat, lastTick: nat, lastBeat: nat, lastCall: nat)

  /** The producer's next call, in the state nmt; a call of the consumer at time `at`; a frame of another node. */
  datatype Move = Tick(nmt: byte) | Call(at: nat, active: bool) | Other(i: nat, nmt: byte)

  /**
    The fixed quantities: tick length, heartbeat time and time of the first
    heartbeat, the producer's place at the consumer, whether it may boot again,
    and the longest time between two calls of the consumer.
   */
  datatype Setup = Setup(d: uint16, hbTime: uint16, firstHbTime: uint16, j: nat, boots: bool, gap: uint16)

  predicate May(x: Pair, m: Move, s: Setup) {
    match m
    case Tick(nmt) => s.boots || nmt != INITIALIZING
    case Call(at, _) => x.now <= at <= x.lastTick + s.d && at - x.lastCall <= s.gap
    case Other(i, _) => i != s.j && i < |x.nodes|
  }

  function Go(x: Pair, m: Move, s: Setup): (r: Pair)
    requires s.j < |x.nodes| && May(x, m, s) && x.lastCall <= x.now
    ensures |r.nodes| == |x.nodes|
  {
    match m
    case Tick(nmt) =>
      var b := Produce(Nmt(x.timer, nmt), s.d, s.hbTime, s.firstHbTime, true);
      var time := x.lastTick + s.d;
      if b.sent.Some?
      then x.(nodes := x.nodes[s.j := Receive(x.nodes[s.j], b.sent.value)], timer := b.n.timer, ticks := 0,
              now := Later(x.now, time), lastTick := time, lastBeat := time)
      else x.(timer := b.n.timer, ticks := x.ticks + 1, now := Later(x.now, time), lastTick := time)
    case Call(at, active) => x.(nodes := Process(x.nodes, active, at - x.lastCall), now := at, lastCall := at)
    case Other(i, nmt) => x.(nodes := x.nodes[i := Receive(x.nodes[i], nmt)])
  }

  function Later(a: nat, b: nat): (c: nat) {
    if a < b then b else a
  }

  /** The producer's clock: after boot-up the timer may start ahead of the time that has passed. */
  predicate Ticking(x: Pair, s: Setup) {
    && x.lastTick == x.lastBeat + s.d * x.ticks && x.timer <= s.hbTime
    && (x.ticks > 0 ==> s.d * x.ticks <= x.timer < s.hbTime)
    && x.lastTick <= x.now <= x.lastTick + s.d && x.lastCall <= x.now
  }

  /** A boot-up message waits to be taken. */
  predicate BootWaits(n: Monitored) {
    n.rxNew && n.nmt == INITIALIZING
  }

  /** The consumer's clock for node j is behind the last heartbeat it has taken, and is `longest` at most when a frame waits. */
  predicate InTime(n: Monitored, lastBeat: nat, lastCall: nat, longest: nat) {
    && (n.hb.Unknown? || n.hb.Active?)
    && (n.hb.Active? && n.rxNew ==> n.timer <= longest)
    && (n.hb.Active? && !n.rxNew ==> n.timer <= lastCall - lastBeat && n.nmt != INITIALIZING)
  }

  /** The longest time between two frames of the producer. */
  function Longest(s: Setup): (n: nat)
    requires 0 < s.d
  {
    s.d * TicksFor(s.hbTime, s.d)
  }

  /** Heartbeats come, and are waited for, at compatible intervals; a boot-up message must be taken in time. */
  predicate Compatible(s: Setup, time: uint16) {
    && 0 < s.d && 0 < s.hbTime && s.hbTime + s.d < 0x1_0000
    && Longest(s) + (if s.boots then s.gap else 0) < time
  }

  predicate Inv(x: Pair, s: Setup) {
    && s.j < |x.nodes| && Compatible(s, x.nodes[s.j].time) && Ticking(x, s)
    && InTime(x.nodes[s.j], x.lastBeat, x.lastCall, Longest(s))
    && (!s.boots ==> !BootWaits(x.nodes[s.j]))
  }

  /** Between two frames of the producer less than the consumer's time passes. */
  lemma GapIsShort(x: Pair, s: Setup)
    requires 0 < s.d && 0 < s.hbTime && Ticking(x, s)
    ensures x.lastTick + s.d - x.lastBeat <= Longest(s)
  {
    hide TicksFor;
    var k := TicksFor(s.hbTime, s.d);
    TicksCover(s.hbTime, s.d);
    if x.ticks >= k {
      MulGrows(s.d, k, x.ticks);
    } else {
      MulGrows(s.d, x.ticks + 1, k);
      assert s.d * (x.ticks + 1) == s.d * x.ticks + s.d;
    }
  }

  lemma {:induction false} MulGrows(d: nat, a: nat, b: nat)
    requires a <= b
    ensures d * a <= d * b
    decreases b - a
  {
    if a < b {
      MulGrows(d, a + 1, b);
      assert d * (a + 1) == d * a + d;
    }
  }

  lemma TickTicking(x: Pair, nmt: byte, s: Setup)
    requires s.j < |x.nodes| && Compatible(s, x.nodes[s.j].time) && Ticking(x, s) && May(x, Tick(nmt), s)
    ensures Ticking(Go(x, Tick(nmt), s), s)
  {
    hide Longest;
    assert s.d * (x.ticks + 1) == s.d * x.ticks + s.d;
    assert s.d * 0 == 0;
    if x.ticks == 0 {
      assert s.d * x.ticks == 0;
    }
  }

  lemma TickInv(x: Pair, nmt: byte, s: Setup)
    requires Inv(x, s) && May(x, Tick(nmt), s)
    ensures Inv(Go(x, Tick(nmt), s), s)
  {
    hide Longest, Ticking;
    TickTicking(x, nmt, s);
    GapIsShort(x, s);
    TickingMeans(x, s);
  }

  lemma TickingMeans(x: Pair, s: Setup)
    requires Ticking(x, s)
    ensures x.lastCall <= x.now <= x.lastTick + s.d && x.lastBeat <= x.lastTick
  {
  }

  lemma CallInv(x: Pair, at: nat, active: bool, s: Setup)
    requires Inv(x, s) && May(x, Call(at, active), s)
    ensures Inv(Go(x, Call(at, active), s), s)
    ensures !ProcessNode(x.nodes[s.j], StepAt(x.nodes, at - x.lastCall, s.j)).timedOut
  {
    hide Longest, StepAt, ProcessNode, InTime, Silence, Ticking;
    InvMeans(x, s);
    var dt := at - x.lastCall;
    StepWholeOrNone(x.nodes, dt, s.j);
    GapIsShort(x, s);
    TickingCall(x, at, Process(x.nodes, active, dt), s);
    var n, z := x.nodes[s.j], StepAt(x.nodes, dt, s.j);
    TakenInTime(n, z, x.lastBeat, x.lastCall, at, Longest(s));
  }

  lemma TickingCall(x: Pair, at: nat, nodes: seq<Monitored>, s: Setup)
    requires Ticking(x, s) && x.now <= at <= x.lastTick + s.d
    ensures Ticking(x.(nodes := nodes, now := at, lastCall := at), s) && x.lastBeat <= at && x.lastCall <= at
  {
  }

  /** A node is in time after its turn in an active call, and after an inactive one. */
  lemma TakenInTime(n: Monitored, z: uint16, lastBeat: nat, lastCall: nat, at: nat, longest: nat)
    requires InTime(n, lastBeat, lastCall, longest) && lastBeat <= at && lastCall <= at && z <= at - lastCall
    requires at - lastBeat < n.time && (BootWaits(n) ==> longest + z < n.time)
    ensures var t := ProcessNode(n, z);
            !t.timedOut && t.n.time == n.time && InTime(t.n, lastBeat, at, longest) && !BootWaits(t.n)
    ensures Silence(n).time == n.time && InTime(Silence(n), lastBeat, at, longest) && !BootWaits(Silence(n))
  {
  }

  /**
    If the ticks that cover the heartbeat time are shorter than the consumer's
    time, no call ever reports a timeout of the producer; nor if the producer
    boots again, provided a consumer call fits in between as well.
   */
  lemma {:induction false} NoFalseTimeout(x: Pair, run: seq<Move>, s: Setup)
    requires Inv(x, s) && Allowed(x, run, s)
    ensures NoTimeout(x, run, s)
    decreases |run|
  {
    hide Inv, ProcessNode, StepAt;
    InvMeans(x, s);
    if run != [] {
      var m := run[0];
      if m.Tick? {
        TickInv(x, m.nmt, s);
      } else if m.Call? {
        CallInv(x, m.at, m.active, s);
      } else {
        OtherInv(x, m.i, m.nmt, s);
      }
      NoFalseTimeout(Go(x, m, s), run[1..], s);
    }
  }

  lemma InvMeans(x: Pair, s: Setup)
    requires Inv(x, s)
    ensures s.j < |x.nodes| && !x.nodes[s.j].hb.Timeout? && x.lastCall <= x.now
  {
    hide Longest;
  }

  lemma OtherInv(x: Pair, i: nat, nmt: byte, s: Setup)
    requires Inv(x, s) && May(x, Other(i, nmt), s)
    ensures Inv(Go(x, Other(i, nmt), s), s)
  {
    hide Longest;
  }

  /** Every move of the run is possible when its turn comes. */
  predicate Allowed(x: Pair, run: seq<Move>, s: Setup)
    decreases |run|
  {
    run == [] || (s.j < |x.nodes| && x.lastCall <= x.now && May(x, run[0], s) && Allowed(Go(x, run[0], s), run[1..], s))
  }

  /** No call of the run reports a timeout of node j, and the node never is in timeout. */
  predicate NoTimeout(x: Pair, run: seq<Move>, s: Setup)
    decreases |run|
  {
    s.j < |x.nodes| && !x.nodes[s.j].hb.Timeout?
    && (run != [] && x.lastCall <= x.now && May(x, run[0], s) ==>
          && (run[0].Call? ==> !ProcessNode(x.nodes[s.j], StepAt(x.nodes, run[0].at - x.lastCall, s.j)).timedOut)
          && NoTimeout(Go(x, run[0], s), run[1..], s))
  }
}
