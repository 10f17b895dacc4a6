/**
  Commissioning a network: scan, assign a node ID, deselect, repeat. Slaves with
  distinct addresses receive consecutive node IDs in the order of their addresses,
  and nobody else is touched.
 */
module LssEnumeration {
  import opened Can
  import opened LssTypes
  import opened LssSlave
  import opened LssMaster
  import opened LssNetwork
  import opened LssFastscan

  /** Call the configure command until it no longer waits. */
  function ConfigureRun(net: Net, nid: byte, dts: seq<uint16>): (r: (Net, Return))
    decreases |dts|
  {
    if dts == [] then (net, WaitSlave)
    else
      var st := ConfigureNodeId(net.master, nid, dts[0], net.found);
      var n := Carry(net, st);
      if st.ret != WaitSlave then (n, st.ret) else ConfigureRun(n, nid, dts[1..])
  }

  /** The times at which the commands of one round are called. */
  datatype Plan = Plan(scan: seq<uint16>, config: seq<uint16>)

  function ScanAll(): (args: FastscanArgs) {
    FastscanArgs(ALL_SCAN, ZERO_ADDRESS)
  }

  /** One round: select a node by a full scan, give it the node ID, deselect. */
  function Assign(net: Net, nid: byte, plan: Plan): (r: (Net, bool)) {
    var (n1, r1) := FastscanRun(net, ScanAll(), plan.scan);
    if r1 != ScanFinished then (n1, false)
    else
      var (n2, r2) := ConfigureRun(n1, nid, plan.config);
      if r2 != Ok then (n2, false) else (Carry(n2, Deselect(n2.master, n2.found)), true)
  }

  /** Rounds with consecutive node IDs, until one fails. */
  function Enumerate(net: Net, nid: nat, plans: seq<Plan>): (r: Net)
    requires nid + |plans| <= 0x80
    decreases |plans|
  {
    if plans == [] then net
    else
      var (n, ok) := Assign(net, nid, plans[0]);
      if ok then Enumerate(n, nid + 1, plans[1..]) else n
  }

  // --------------------------------------------------- configuring and deselecting

  lemma ConfigureAtSlave(s: Slave, f: Frame)
    requires f[0] == CFG_NODE_ID && NodeIdValid(f[1])
    ensures LssSlave.Receive(s, 8, f) ==
            if s.state == Configuration
            then Reaction(s.(pendingNodeId := f[1]), Some(ShortFrame(CFG_NODE_ID, 0)))
            else Reaction(s, None)
  {
  }

  ghost predicate Configured(s0: seq<Slave>, s: seq<Slave>, nid: byte) {
    |s| == |s0| && forall i :: 0 <= i < |s| ==>
      (s[i] == if s0[i].state == Configuration then s0[i].(pendingNodeId := nid) else s0[i])
  }

  lemma ConfigureFrame(net: Net, f: Frame, c: int)
    requires f[0] == CFG_NODE_ID && NodeIdValid(f[1])
    requires !net.master.rxNew && net.master.command != Idle
    requires 0 <= c < |net.slaves| && net.slaves[c].state == Configuration
    ensures var t := Transmit(net, f);
            && Configured(net.slaves, t.slaves, f[1])
            && t == net.(slaves := t.slaves, sent := net.sent + 1,
                         master := net.master.(rxNew := true, rx := ShortFrame(CFG_NODE_ID, 0)))
  {
    var rs := React(net.slaves, f);
    forall i | 0 <= i < |rs|
      ensures rs[i] == if net.slaves[i].state == Configuration
                       then Reaction(net.slaves[i].(pendingNodeId := f[1]), Some(ShortFrame(CFG_NODE_ID, 0)))
                       else Reaction(net.slaves[i], None)
    {
      ConfigureAtSlave(net.slaves[i], f);
    }
    assert rs[c].reply.Some?;
    DeliverReplies(net.master, rs, ShortFrame(CFG_NODE_ID, 0));
  }

  /** With a node selected, the command succeeds at its second call and reaches only selected nodes. */
  lemma ConfigureSelected(net: Net, nid: byte, dts: seq<uint16>, c: int)
    requires net.master.state == CfgSelective && net.master.command == Idle && NodeIdValid(nid)
    requires 0 <= c < |net.slaves| && net.slaves[c].state == Configuration
    requires |dts| >= 2
    ensures var (n, ret) := ConfigureRun(net, nid, dts);
            && ret == Ok
            && Configured(net.slaves, n.slaves, nid)
            && n.master.command == Idle && n.master.state == CfgSelective && n.master.timeout == net.master.timeout
  {
    var f := ShortFrame(CFG_NODE_ID, nid);
    var m := net.master.(command := CfgNodeId, timer := 0, rxNew := false);
    SendOne(net.(master := m), f);
    ConfigureFrame(net.(master := m), f, c);
    var n1 := Transmit(net.(master := m), f);
    assert ConfigureRun(net, nid, dts) == ConfigureRun(n1, nid, dts[1..]);
    assert Carry(n1, ConfigureNodeId(n1.master, nid, dts[1], n1.found)).slaves == n1.slaves;
  }

  lemma DeselectAtSlave(s: Slave, f: Frame)
    requires f[0] == SWITCH_STATE_GLOBAL && f[1] == 0
    ensures LssSlave.Receive(s, 8, f) == Reaction(s.(state := Waiting, select := ZERO_ADDRESS), None)
  {
  }

  ghost predicate Deselected(s0: seq<Slave>, s: seq<Slave>) {
    |s| == |s0| && forall i :: 0 <= i < |s| ==> s[i] == s0[i].(state := Waiting, select := ZERO_ADDRESS)
  }

  /** Deselecting always leads to a clean state, on the bus and in the master. */
  lemma DeselectAll(net: Net)
    ensures var n := Carry(net, Deselect(net.master, net.found));
            && Deselected(net.slaves, n.slaves)
            && n.master.state == MasterWaiting && n.master.command == Idle && n.master.timeout == net.master.timeout
  {
    var f := ShortFrame(SWITCH_STATE_GLOBAL, 0);
    var n := net.(master := Deselect(net.master, net.found).master);
    SendOne(n, f);
    forall i | 0 <= i < |net.slaves|
      ensures React(net.slaves, f)[i] == Reaction(net.slaves[i].(state := Waiting, select := ZERO_ADDRESS), None)
    {
      DeselectAtSlave(net.slaves[i], f);
    }
    DeliverKept(n.master, React(net.slaves, f));
  }

  // ------------------------------------------------------------------- one round

  /** A master at rest, no slave selected, participants with distinct addresses. */
  ghost predicate Ready(net: Net) {
    && net.master.state == MasterWaiting && net.master.command == Idle
    && (forall i :: 0 <= i < |net.slaves| ==> net.slaves[i].state == Waiting)
    && Distinct(net.slaves)
  }

  ghost predicate Distinct(s: seq<Slave>) {
    forall i, j :: i in Participants(s) && j in Participants(s) && i != j ==> s[i].address != s[j].address
  }

  /** The calls of a round last long enough. */
  predicate LongEnough(plan: Plan, timeout: uint16) {
    && |plan.scan| >= 2 + PartCalls(ALL_SCAN, 0)
    && (forall i :: 0 <= i < |plan.scan| ==> plan.scan[i] >= timeout)
    && |plan.config| >= 2
  }

  /** Apart from its scan position and its selection buffer, a slave differs only in its node ID. */
  predicate OnlyNodeId(a: Slave, b: Slave, nid: byte) {
    b == a.(pendingNodeId := nid, fastscanPos := b.fastscanPos, select := b.select)
  }

  /** Slave m got the node ID, and nothing else happened. */
  ghost predicate Assigned(s0: seq<Slave>, s: seq<Slave>, m: int, nid: byte) {
    |s| == |s0| && forall i :: 0 <= i < |s| ==>
      OnlyNodeId(s0[i], s[i], if i == m then nid else s0[i].pendingNodeId)
  }

  ghost predicate SmallestParticipant(s: seq<Slave>, m: int) {
    m in Participants(s) && forall j :: j in Participants(s) && j != m ==> Less(s[m].address, s[j].address)
  }

  lemma UniqueSurvivor(s: seq<Slave>) returns (m: int)
    requires Any(Survivors(s, ScanAll(), 4)) && Distinct(s)
    ensures SmallestParticipant(s, m)
    ensures forall j :: j in Survivors(s, ScanAll(), 4) <==> j == m
  {
    hide Less, Survivors;
    m :| m in Survivors(s, ScanAll(), 4);
    forall j | j in Participants(s) && j != m
      ensures Less(s[m].address, s[j].address) && j !in Survivors(s, ScanAll(), 4)
    {
      SurvivorsSmallest(s, ScanAll(), m, j);
    }
  }

  /** A scan ends with an answer exactly when somebody participates. */
  lemma SurvivorsOfAll(s: seq<Slave>)
    ensures Any(Participants(s)) <==> Any(Survivors(s, ScanAll(), 4))
  {
    SurvivorsShrink(s, ScanAll(), 0, 4);
    if Any(Participants(s)) {
      SomeSurvivor(s, 4);
    }
  }

  lemma {:induction false} SomeSurvivor(s: seq<Slave>, k: nat)
    requires k <= 4 && Any(Participants(s))
    ensures Any(Survivors(s, ScanAll(), k))
  {
    if k > 0 {
      SomeSurvivor(s, k - 1);
      var m := SmallestExists(s, k - 1, Survivors(s, ScanAll(), k - 1));
      assert m in Survivors(s, ScanAll(), k);
    }
  }

  lemma ScanRound(net: Net, plan: Plan) returns (m: int)
    requires Ready(net) && LongEnough(plan, net.master.timeout) && Any(Participants(net.slaves))
    ensures SmallestParticipant(net.slaves, m)
    ensures var (n, ret) := FastscanRun(net, ScanAll(), plan.scan);
            && ret == ScanFinished && Selected(net.slaves, n.slaves, {m})
            && n.master.command == Idle && n.master.state == CfgSelective && n.master.timeout == net.master.timeout
  {
    hide FastscanRun, FoundUpTo, PartCalls, Cost, Less, Survivors, Eligible;
    AllScanAccepted();
    FastscanSelects(net, ScanAll(), plan.scan);
    FastscanEnds(net, ScanAll(), plan.scan);
    SurvivorsOfAll(net.slaves);
    m := UniqueSurvivor(net.slaves);
    assert Survivors(net.slaves, ScanAll(), 4) == {m};
  }

  /** One round gives the ID to the smallest participant, and only to it. */
  lemma AssignSmallest(net: Net, nid: byte, plan: Plan) returns (m: int)
    requires Ready(net) && LongEnough(plan, net.master.timeout) && Any(Participants(net.slaves))
    requires 1 <= nid <= 0x7F
    ensures SmallestParticipant(net.slaves, m)
    ensures var (n, ok) := Assign(net, nid, plan);
            && ok && Assigned(net.slaves, n.slaves, m, nid)
            && n.master.state == MasterWaiting && n.master.command == Idle && n.master.timeout == net.master.timeout
            && forall i :: 0 <= i < |n.slaves| ==> n.slaves[i].state == Waiting
  {
    hide FastscanRun, ConfigureRun, Carry, Deselect, Less;
    m := ScanRound(net, plan);
    var n1 := FastscanRun(net, ScanAll(), plan.scan).0;
    ConfigureSelected(n1, nid, plan.config, m);
    DeselectAll(ConfigureRun(n1, nid, plan.config).0);
  }

  // ------------------------------------------------------------------ all rounds

  /** The participants with a smaller address. */
  ghost function Before(s: seq<Slave>, i: int): (c: set<int>)
    requires 0 <= i < |s|
  {
    set j | j in Participants(s) && Less(s[j].address, s[i].address)
  }

  lemma LessIrreflexive(a: Address)
    ensures !Less(a, a)
  {
  }

  lemma LessAsymmetric(a: Address, b: Address)
    requires Less(a, b)
    ensures !Less(b, a)
  {
    var k: Sub :| LessAt(a, b, k);
    forall l: Sub ensures !LessAt(b, a, l) {
    }
  }

  /** After a round the same slaves, without the one served, wait for theirs. */
  lemma RoundShrinks(s0: seq<Slave>, s: seq<Slave>, m: int, nid: byte)
    requires Assigned(s0, s, m, nid) && SmallestParticipant(s0, m) && 1 <= nid <= 0x7F
    ensures Participants(s) == Participants(s0) - {m}
    ensures Before(s0, m) == {}
    ensures forall i :: i in Participants(s) ==> 0 <= i < |s0| && m in Before(s0, i) && Before(s, i) == Before(s0, i) - {m}
  {
    hide Less;
    LessIrreflexive(s0[m].address);
    forall j | j in Before(s0, m) ensures false {
      LessAsymmetric(s0[m].address, s0[j].address);
    }
    assert Participants(s) == Participants(s0) - {m};
  }

  /** Who has which node ID after some rounds. */
  ghost predicate Enumerated(s0: seq<Slave>, s: seq<Slave>, nid: nat, rounds: nat)
    requires 1 <= nid && nid + rounds <= 0x80
  {
    |s| == |s0| && forall i :: 0 <= i < |s| ==>
      OnlyNodeId(s0[i], s[i],
        if i in Participants(s0) && |Before(s0, i)| < rounds then nid + |Before(s0, i)| else s0[i].pendingNodeId)
  }

  lemma EnumeratedStep(s0: seq<Slave>, s1: seq<Slave>, s: seq<Slave>, m: int, nid: nat, rounds: nat)
    requires 1 <= nid && 0 < rounds && nid + rounds <= 0x80
    requires Assigned(s0, s1, m, nid) && SmallestParticipant(s0, m)
    requires Enumerated(s1, s, nid + 1, rounds - 1)
    ensures Enumerated(s0, s, nid, rounds)
  {
    hide Less, Eligible;
    RoundShrinks(s0, s1, m, nid);
    forall i | 0 <= i < |s|
      ensures OnlyNodeId(s0[i], s[i],
        if i in Participants(s0) && |Before(s0, i)| < rounds then nid + |Before(s0, i)| else s0[i].pendingNodeId)
    {
      if i in Participants(s1) {
        RemoveOne(Before(s0, i), m);
      } else if i == m {
        assert |Before(s0, i)| == 0;
      }
    }
  }

  lemma RemoveOne(c: set<int>, m: int)
    requires m in c
    ensures |c - {m}| == |c| - 1
  {
  }

  /** Main result: after r rounds the r smallest participants own the next r node IDs, in order. */
  lemma {:induction false} EnumerationInOrder(net: Net, nid: nat, plans: seq<Plan>)
    requires Ready(net) && 1 <= nid && nid + |plans| <= 0x80
    requires |plans| <= |Participants(net.slaves)|
    requires forall k :: 0 <= k < |plans| ==> LongEnough(plans[k], net.master.timeout)
    ensures var n := Enumerate(net, nid, plans);
            && Enumerated(net.slaves, n.slaves, nid, |plans|)
            && Ready(n)
            && |Participants(n.slaves)| == |Participants(net.slaves)| - |plans|
    decreases |plans|
  {
    hide Assign, LongEnough, Participants, Enumerated, Ready;
    if plans == [] {
      EnumeratedNone(net.slaves, nid);
    } else {
      var m := FirstRound(net, nid, plans[0]);
      var n1 := Assign(net, nid, plans[0]).0;
      EnumerationInOrder(n1, nid + 1, plans[1..]);
      EnumeratedStep(net.slaves, n1.slaves, Enumerate(n1, nid + 1, plans[1..]).slaves, m, nid, |plans|);
    }
  }

  lemma EnumeratedNone(s: seq<Slave>, nid: nat)
    requires 1 <= nid <= 0x80
    ensures Enumerated(s, s, nid, 0)
  {
  }

  lemma FirstRound(net: Net, nid: byte, plan: Plan) returns (m: int)
    requires Ready(net) && LongEnough(plan, net.master.timeout) && 1 <= nid <= 0x7F
    requires |Participants(net.slaves)| > 0
    ensures SmallestParticipant(net.slaves, m)
    ensures var (n, ok) := Assign(net, nid, plan);
            && ok && Ready(n) && Assigned(net.slaves, n.slaves, m, nid)
            && n.master.timeout == net.master.timeout
            && |Participants(n.slaves)| == |Participants(net.slaves)| - 1
  {
    hide Assign, LongEnough, Less, Eligible;
    assert Any(Participants(net.slaves)) by {
      var i :| i in Participants(net.slaves);
    }
    m := AssignSmallest(net, nid, plan);
    var n := Assign(net, nid, plan).0;
    RoundShrinks(net.slaves, n.slaves, m, nid);
    RemoveOne(Participants(net.slaves), m);
  }

  /** When every participant has its node ID, the next scan finds nobody, and says so once it is called long enough. */
  lemma EnumerationComplete(net: Net, nid: nat, plans: seq<Plan>, dts: seq<uint16>)
    requires Ready(net) && 1 <= nid && nid + |plans| <= 0x80
    requires |plans| == |Participants(net.slaves)|
    requires forall k :: 0 <= k < |plans| ==> LongEnough(plans[k], net.master.timeout)
    ensures var n := Enumerate(net, nid, plans);
            && FastscanRun(n, ScanAll(), dts).1 in {WaitSlave, ScanNoAck}
            && (LongEnough(Plan(dts, [0, 0]), n.master.timeout) ==> FastscanRun(n, ScanAll(), dts).1 == ScanNoAck)
  {
    hide Enumerate, FastscanRun, Enumerated, LongEnough, Survivors, Cost, FoundUpTo, Selected;
    EnumerationInOrder(net, nid, plans);
    var n := Enumerate(net, nid, plans);
    AllScanAccepted();
    FastscanSelects(n, ScanAll(), dts);
    SurvivorsOfAll(n.slaves);
    if LongEnough(Plan(dts, [0, 0]), n.master.timeout) {
      NextScanEnds(n, dts);
    }
  }

  lemma NextScanEnds(net: Net, dts: seq<uint16>)
    requires Ready(net) && LongEnough(Plan(dts, [0, 0]), net.master.timeout)
    ensures FastscanRun(net, ScanAll(), dts).1 != WaitSlave
  {
    hide FastscanRun, PartCalls;
    AllScanAccepted();
    FastscanEnds(net, ScanAll(), dts);
  }
}
