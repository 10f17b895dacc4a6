/**
  One LSS master and any number of LSS slaves on a reliable broadcast bus: every
  frame of the master reaches every slave, and the answers are at the master
  before its next call. Time between the calls is arbitrary.
 */
module LssNetwork {
  import opened Can
  import opened LssBits
  import opened LssTypes
  import opened S = LssSlave
  import opened M = LssMaster

  /** The bus with its nodes, the scan result so far and the number of transfers. */
  datatype Net = Net(master: Master, slaves: seq<Slave>, found: Address, sent: nat)

  function React(slaves: seq<Slave>, f: Frame): (rs: seq<Reaction>)
    ensures |rs| == |slaves|
    ensures forall i :: 0 <= i < |rs| ==> rs[i] == S.Receive(slaves[i], 8, f)
  {
    seq(|slaves|, i requires 0 <= i < |slaves| => S.Receive(slaves[i], 8, f))
  }

  function SlavesOf(rs: seq<Reaction>): (s: seq<Slave>)
    ensures |s| == |rs| && forall i :: 0 <= i < |s| ==> s[i] == rs[i].slave
  {
    seq(|rs|, i requires 0 <= i < |rs| => rs[i].slave)
  }

  /** The answers arrive one after the other. */
  function Deliver(m: Master, rs: seq<Reaction>): (r: Master)
    decreases |rs|
  {
    if rs == [] then m
    else Deliver(if rs[0].reply.Some? then M.Receive(m, 8, rs[0].reply.value) else m, rs[1..])
  }

  function Transmit(net: Net, f: Frame): (r: Net) {
    var rs := React(net.slaves, f);
    net.(slaves := SlavesOf(rs), master := Deliver(net.master, rs), sent := net.sent + 1)
  }

  function TransmitAll(net: Net, tx: seq<Frame>): (r: Net)
    decreases |tx|
  {
    if tx == [] then net else TransmitAll(Transmit(net, tx[0]), tx[1..])
  }

  /** Carry a command's frames over the bus. */
  function Carry(net: Net, st: Step): (r: Net) {
    TransmitAll(net.(master := st.master, found := st.found), st.tx)
  }

  function FastscanCall(net: Net, args: FastscanArgs, dt: uint16): (r: (Net, Return)) {
    var st := IdentifyFastscan(net.master, args, dt, net.found);
    (Carry(net, st), st.ret)
  }

  /** Call Fastscan until it no longer waits, or until the given times are used up. */
  function FastscanRun(net: Net, args: FastscanArgs, dts: seq<uint16>): (r: (Net, Return))
    decreases |dts|
  {
    if dts == [] then (net, WaitSlave)
    else
      var (n, ret) := FastscanCall(net, args, dts[0]);
      if ret != WaitSlave then (n, ret) else FastscanRun(n, args, dts[1..])
  }

  // ---------------------------------------------- which slaves should be selected

  /** The eligible slaves: those that take part in Fastscan. */
  ghost function Participants(s: seq<Slave>): (c: set<int>) {
    set i | 0 <= i < |s| && Eligible(s[i])
  }

  ghost predicate Any(c: set<int>) {
    exists i :: i in c
  }

  /** The reference filter: a scanned part keeps the smallest value, a matched one equality. */
  ghost function KeepPart(s: seq<Slave>, args: FastscanArgs, k: Sub, c: set<int>): (d: set<int>)
    ensures d <= c
  {
    match args.scan[k]
    case Skip => c
    case Match => set i | i in c && 0 <= i < |s| && s[i].address[k] == args.match_[k]
    case Scan => set i | i in c && 0 <= i < |s| && Smallest(s, k, c, i)
  }

  ghost predicate Smallest(s: seq<Slave>, k: Sub, c: set<int>, i: int)
    requires 0 <= i < |s|
  {
    forall j :: j in c && 0 <= j < |s| ==> s[i].address[k] <= s[j].address[k]
  }

  /** The slaves left after the first k parts. */
  ghost function Survivors(s: seq<Slave>, args: FastscanArgs, k: nat): (c: set<int>)
    requires k <= 4
    ensures c <= Participants(s)
  {
    if k == 0 then Participants(s) else KeepPart(s, args, k - 1, Survivors(s, args, k - 1))
  }

  lemma {:induction false} SurvivorsSkip(s: seq<Slave>, args: FastscanArgs, j: nat, k: nat)
    requires j <= k <= 4
    requires forall i :: j <= i < k ==> args.scan[i] == Skip
    ensures Survivors(s, args, j) == Survivors(s, args, k)
    decreases k - j
  {
    if j < k {
      SurvivorsSkip(s, args, j, k - 1);
    }
  }

  /** Among the slaves of c below index n there is one whose part k is smallest. */
  lemma {:induction false} SmallestBelow(s: seq<Slave>, k: Sub, c: set<int>, n: nat) returns (m: int)
    requires n <= |s| && exists i :: i in c && 0 <= i < n
    ensures m in c && 0 <= m < n
    ensures forall j :: j in c && 0 <= j < n ==> s[m].address[k] <= s[j].address[k]
  {
    if exists i :: i in c && 0 <= i < n - 1 {
      m := SmallestBelow(s, k, c, n - 1);
      if n - 1 in c && s[n - 1].address[k] < s[m].address[k] {
        m := n - 1;
      }
    } else {
      m := n - 1;
    }
  }

  lemma SmallestExists(s: seq<Slave>, k: Sub, c: set<int>) returns (m: int)
    requires Any(c) && c <= Participants(s)
    ensures m in c && 0 <= m < |s| && Smallest(s, k, c, m)
  {
    m := SmallestBelow(s, k, c, |s|);
  }

  // -------------------------------------------------------- one frame on the bus

  /** Every slave either keeps silent or answers g. */
  predicate OnlyReply(rs: seq<Reaction>, g: Frame) {
    forall i :: 0 <= i < |rs| ==> rs[i].reply == None || rs[i].reply == Some(g)
  }

  predicate Replied(rs: seq<Reaction>) {
    exists i :: 0 <= i < |rs| && rs[i].reply.Some?
  }

  lemma {:induction false} DeliverKept(m: Master, rs: seq<Reaction>)
    requires m.rxNew || m.command == Idle || !Replied(rs)
    ensures Deliver(m, rs) == m
    decreases |rs|
  {
    if rs != [] {
      assert Replied(rs[1..]) ==> Replied(rs) by {
        if Replied(rs[1..]) {
          var i :| 0 <= i < |rs[1..]| && rs[1..][i].reply.Some?;
          assert rs[i + 1].reply.Some?;
        }
      }
      DeliverKept(m, rs[1..]);
    }
  }

  /** Silence is the only "no", and one answer looks like many. */
  lemma {:induction false} DeliverReplies(m: Master, rs: seq<Reaction>, g: Frame)
    requires !m.rxNew && m.command != Idle
    requires OnlyReply(rs, g)
    ensures Deliver(m, rs) == if Replied(rs) then m.(rxNew := true, rx := g) else m
    decreases |rs|
  {
    if !Replied(rs) {
      DeliverKept(m, rs);
    } else if rs[0].reply.Some? {
      DeliverKept(m.(rxNew := true, rx := g), rs[1..]);
    } else {
      var i :| 0 <= i < |rs| && rs[i].reply.Some?;
      assert rs[1..][i - 1].reply.Some?;
      DeliverReplies(m, rs[1..], g);
    }
  }

  /** The slaves in c wait at part `sub`, the other participants at an earlier one. */
  ghost predicate SlavesAt(s0: seq<Slave>, s: seq<Slave>, c: set<int>, sub: Sub) {
    && |s| == |s0|
    && forall i :: 0 <= i < |s| ==>
        if Eligible(s0[i]) then
          && s[i] == s0[i].(fastscanPos := s[i].fastscanPos)
          && (if i in c then s[i].fastscanPos == sub else s[i].fastscanPos < sub)
        else s[i] == s0[i]
  }

  /** Exactly the slaves in c entered configuration; the others differ at most in their scan position. */
  ghost predicate Selected(s0: seq<Slave>, s: seq<Slave>, c: set<int>) {
    && |s| == |s0|
    && forall i :: 0 <= i < |s| ==>
        if i in c then s[i] == s0[i].(state := Configuration, fastscanPos := 0)
        else if Eligible(s0[i]) then s[i] == s0[i].(fastscanPos := s[i].fastscanPos)
        else s[i] == s0[i]
  }

  /** The slaves of c whose part `sub` agrees with id from `bit` upwards. */
  ghost function Matching(s0: seq<Slave>, c: set<int>, sub: Sub, id: uint32, bit: Bit): (d: set<int>) {
    set i | i in c && 0 <= i < |s0| && HighBitsEqual(s0[i].address[sub], id, bit)
  }

  predicate IsConfirm(f: Frame) {
    f[0] == IDENT_FASTSCAN && f[5] == CONFIRM && f[6] == 0 && f[7] == 0
  }

  lemma ConfirmAtSlave(s: Slave, f: Frame)
    requires IsConfirm(f)
    ensures S.Receive(s, 8, f) ==
            if Eligible(s) then Reaction(s.(fastscanPos := 0), Some(ACK)) else Reaction(s, None)
  {
  }

  lemma ConfirmReactions(s: seq<Slave>, f: Frame)
    requires IsConfirm(f)
    ensures var rs := React(s, f);
            && OnlyReply(rs, ACK)
            && (Replied(rs) <==> Any(Participants(s)))
            && SlavesAt(s, SlavesOf(rs), Participants(s), 0)
  {
    var rs := React(s, f);
    forall i | 0 <= i < |s|
      ensures rs[i] == if Eligible(s[i]) then Reaction(s[i].(fastscanPos := 0), Some(ACK)) else Reaction(s[i], None)
    {
      ConfirmAtSlave(s[i], f);
    }
    if Any(Participants(s)) {
      var i :| i in Participants(s);
      assert rs[i].reply == Some(ACK);
    }
    if Replied(rs) {
      var i :| 0 <= i < |rs| && rs[i].reply.Some?;
      assert i in Participants(s);
    }
  }

  /** The confirm frame brings every participant to the vendor ID and is acknowledged by all of them. */
  lemma ConfirmFrame(net: Net, f: Frame)
    requires IsConfirm(f)
    requires !net.master.rxNew && net.master.command != Idle
    ensures var t := Transmit(net, f); var c := Participants(net.slaves);
            && SlavesAt(net.slaves, t.slaves, c, 0)
            && t == net.(slaves := t.slaves, sent := net.sent + 1,
                         master := if Any(c) then net.master.(rxNew := true, rx := ACK) else net.master)
  {
    ConfirmReactions(net.slaves, f);
    DeliverReplies(net.master, React(net.slaves, f), ACK);
  }

  /** How one slave answers a scan or verify frame for part `sub`. */
  lemma FrameAtSlave(s0: Slave, s: Slave, inC: bool, id: uint32, bit: Bit, sub: Sub, next: Sub)
    requires if Eligible(s0) then
               && s == s0.(fastscanPos := s.fastscanPos)
               && (if inC then s.fastscanPos == sub else s.fastscanPos < sub)
             else s == s0 && !inC
    ensures var r := S.Receive(s, 8, FsFrame(id, bit, sub, next));
            if inC && HighBitsEqual(s0.address[sub], id, bit)
            then r.reply == Some(ACK)
              && r.slave == s.(fastscanPos := next,
                               state := if bit == BIT0 && next < sub then Configuration else s.state)
            else r == Reaction(s, None)
  {
  }

  lemma ScanReactions(s0: seq<Slave>, s: seq<Slave>, c: set<int>, id: uint32, bit: Bit, sub: Sub, next: Sub)
    requires SlavesAt(s0, s, c, sub) && c <= Participants(s0)
    ensures var rs := React(s, FsFrame(id, bit, sub, next));
            && OnlyReply(rs, ACK)
            && (Replied(rs) <==> Any(Matching(s0, c, sub, id, bit)))
            && forall i :: 0 <= i < |s| ==>
                (rs[i].slave ==
                 if i in Matching(s0, c, sub, id, bit)
                 then s[i].(fastscanPos := next,
                            state := if bit == BIT0 && next < sub then Configuration else s[i].state)
                 else s[i])
  {
    var rs := React(s, FsFrame(id, bit, sub, next));
    var d := Matching(s0, c, sub, id, bit);
    forall i | 0 <= i < |s|
      ensures if i in d
              then rs[i].reply == Some(ACK)
                && rs[i].slave == s[i].(fastscanPos := next,
                     state := if bit == BIT0 && next < sub then Configuration else s[i].state)
              else rs[i] == Reaction(s[i], None)
    {
      FrameAtSlave(s0[i], s[i], i in c, id, bit, sub, next);
    }
    if Any(d) {
      var i :| i in d;
      assert rs[i].reply == Some(ACK);
    }
  }

  /** A scan frame changes no slave; it asks whether some candidate agrees on the high bits. */
  lemma ScanFrame(net: Net, s0: seq<Slave>, c: set<int>, id: uint32, bit: Bit, sub: Sub)
    requires !net.master.rxNew && net.master.command != Idle
    requires SlavesAt(s0, net.slaves, c, sub) && c <= Participants(s0)
    ensures Transmit(net, FsFrame(id, bit, sub, sub)) ==
            net.(sent := net.sent + 1,
                 master := if Any(Matching(s0, c, sub, id, bit))
                           then net.master.(rxNew := true, rx := ACK) else net.master)
  {
    ScanReactions(s0, net.slaves, c, id, bit, sub, sub);
    var rs := React(net.slaves, FsFrame(id, bit, sub, sub));
    DeliverReplies(net.master, rs, ACK);
    assert SlavesOf(rs) == net.slaves;
  }

  /** A verify frame moves exactly the candidates with that value on to the next part. */
  lemma VerifyFrame(net: Net, s0: seq<Slave>, c: set<int>, id: uint32, sub: Sub, next: Sub)
    requires !net.master.rxNew && net.master.command != Idle
    requires SlavesAt(s0, net.slaves, c, sub) && c <= Participants(s0)
    requires sub < next || (next == 0 && 0 < sub)
    ensures var t := Transmit(net, FsFrame(id, BIT0, sub, next));
            var d := Matching(s0, c, sub, id, BIT0);
            && (if next == 0 then Selected(s0, t.slaves, d) else SlavesAt(s0, t.slaves, d, next))
            && t == net.(slaves := t.slaves, sent := net.sent + 1,
                         master := if Any(d) then net.master.(rxNew := true, rx := ACK) else net.master)
  {
    ScanReactions(s0, net.slaves, c, id, BIT0, sub, next);
    DeliverReplies(net.master, React(net.slaves, FsFrame(id, BIT0, sub, next)), ACK);
  }

  // ------------------------------------------------------- the search for one part

  /** The bus answers as the smallest candidate alone would. */
  lemma MatchingAsSmallest(s0: seq<Slave>, c: set<int>, sub: Sub, m: int, id: uint32, bit: Bit)
    requires c <= Participants(s0) && m in c && Smallest(s0, sub, c, m)
    requires Narrowed(s0[m].address[sub], id, bit)
    ensures Any(Matching(s0, c, sub, id, bit)) <==> HighBitsEqual(s0[m].address[sub], id, bit)
  {
    var d := Matching(s0, c, sub, id, bit);
    if Any(d) {
      var i :| i in d;
      NarrowedAck(s0[m].address[sub], s0[i].address[sub], id, bit);
    }
    if HighBitsEqual(s0[m].address[sub], id, bit) {
      assert m in d;
    }
  }

  // --------------------------------------------------- selection by a known address

  /** What the four frames of the selective service do to one slave. */
  function AfterSelect(s: Slave, a: Address): (r: Slave) {
    if s.state == Waiting
    then s.(select := a, state := if s.address == a then Configuration else Waiting) else s
  }

  /** Does the slave answer the last of the four frames? */
  predicate AnswersSelect(s: Slave, a: Address) {
    s.state == Waiting && s.address == a
  }

  /** The slave after the first k frames. */
  function SelectBuffer(s: Slave, a: Address, k: nat): (r: Slave)
    requires k <= 3
  {
    if s.state != Waiting then s
    else if k == 0 then s
    else if k == 1 then s.(select := s.select[0 := a[0]])
    else if k == 2 then s.(select := s.select[0 := a[0]][1 := a[1]])
    else s.(select := s.select[0 := a[0]][1 := a[1]][2 := a[2]])
  }

  lemma SelectFrameAtSlave(s: Slave, a: Address, k: nat)
    requires k < 4
    ensures var r := S.Receive(SelectBuffer(s, a, if k < 3 then k else 3), 8, SelectFrames(a)[k]);
            if k < 3 then r == Reaction(SelectBuffer(s, a, k + 1), None)
            else r == Reaction(AfterSelect(s, a), if AnswersSelect(s, a) then Some(ShortFrame(SEL_RESPONSE, 0)) else None)
  {
    hide ValueFrame;
    if k == 3 && s.state == Waiting {
      var b := SelectBuffer(s, a, 3).select[3 := a[3]];
      assert b == a;
    }
  }

  /** One silent frame of the selection reaches all slaves. */
  lemma SelectFrameSilent(net: Net, s0: seq<Slave>, a: Address, k: nat)
    requires k < 3 && |net.slaves| == |s0|
    requires forall i :: 0 <= i < |s0| ==> net.slaves[i] == SelectBuffer(s0[i], a, k)
    ensures var t := Transmit(net, SelectFrames(a)[k]);
            && t == net.(slaves := t.slaves, sent := net.sent + 1)
            && |t.slaves| == |s0| && forall i :: 0 <= i < |s0| ==> t.slaves[i] == SelectBuffer(s0[i], a, k + 1)
  {
    hide SelectFrames, S.Receive, SelectBuffer, AfterSelect;
    var rs := React(net.slaves, SelectFrames(a)[k]);
    forall i | 0 <= i < |rs|
      ensures rs[i] == Reaction(SelectBuffer(s0[i], a, k + 1), None)
    {
      SelectFrameAtSlave(s0[i], a, k);
    }
    DeliverKept(net.master, rs);
  }

  /** The last frame is answered by exactly the slaves that become selected. */
  lemma SelectFrameAnswered(net: Net, s0: seq<Slave>, a: Address)
    requires |net.slaves| == |s0| && net.master.command != Idle && !net.master.rxNew
    requires forall i :: 0 <= i < |s0| ==> net.slaves[i] == SelectBuffer(s0[i], a, 3)
    ensures var t := Transmit(net, SelectFrames(a)[3]);
            && |t.slaves| == |s0| && (forall i :: 0 <= i < |s0| ==> t.slaves[i] == AfterSelect(s0[i], a))
            && t.master == (if exists i :: 0 <= i < |s0| && AnswersSelect(s0[i], a)
                            then net.master.(rxNew := true, rx := ShortFrame(SEL_RESPONSE, 0)) else net.master)
  {
    hide SelectFrames, S.Receive, SelectBuffer, AfterSelect;
    var g := ShortFrame(SEL_RESPONSE, 0);
    var rs := React(net.slaves, SelectFrames(a)[3]);
    forall i | 0 <= i < |rs|
      ensures rs[i] == Reaction(AfterSelect(s0[i], a), if AnswersSelect(s0[i], a) then Some(g) else None)
    {
      SelectFrameAtSlave(s0[i], a, 3);
    }
    DeliverReplies(net.master, rs, g);
  }

  /** Selecting by address puts exactly the waiting slaves with that address into
      configuration, and the second call confirms it exactly when there is one. */
  lemma SelectByAddress(net: Net, a: Address, dt: uint16, dt2: uint16)
    requires net.master.state == MasterWaiting && net.master.command == Idle
    ensures var st := Select(net.master, Some(a), dt, net.found);
            var n := Carry(net, st);
            && st.ret == WaitSlave
            && |n.slaves| == |net.slaves|
            && (forall i :: 0 <= i < |n.slaves| ==> n.slaves[i] == AfterSelect(net.slaves[i], a))
            && (Select(n.master, Some(a), dt2, n.found).ret == Ok
                <==> exists i :: 0 <= i < |net.slaves| && AnswersSelect(net.slaves[i], a))
  {
    hide SelectFrames, AfterSelect, Transmit;
    var st := Select(net.master, Some(a), dt, net.found);
    var s0 := net.slaves;
    var tx := SelectFrames(a);
    var n0 := net.(master := st.master);
    SelectFrameSilent(n0, s0, a, 0);
    var n1 := Transmit(n0, tx[0]);
    SelectFrameSilent(n1, s0, a, 1);
    var n2 := Transmit(n1, tx[1]);
    SelectFrameSilent(n2, s0, a, 2);
    var n3 := Transmit(n2, tx[2]);
    SelectFrameAnswered(n3, s0, a);
    SendFour(n0, tx);
  }

  lemma SendFour(net: Net, tx: seq<Frame>)
    requires |tx| == 4
    ensures TransmitAll(net, tx) == Transmit(Transmit(Transmit(Transmit(net, tx[0]), tx[1]), tx[2]), tx[3])
  {
    hide Transmit;
    assert tx[1..][1..] == tx[2..] && tx[2..][1..] == tx[3..] && tx[3..][1..] == [];
    var n1 := Transmit(net, tx[0]);
    var n2 := Transmit(n1, tx[1]);
    var n3 := Transmit(n2, tx[2]);
    assert TransmitAll(n3, tx[3..]) == Transmit(n3, tx[3]);
    assert TransmitAll(n2, tx[2..]) == TransmitAll(n3, tx[3..]);
    assert TransmitAll(n1, tx[1..]) == TransmitAll(n2, tx[2..]);
  }
}
