/**
  Fastscan over a whole network: whatever the number of slaves, the scan plan and
  the times between the calls, the search selects exactly the slaves the reference
  filter keeps, and reports their common address.
 */
module LssFastscan {
  import opened Can
  import opened LssBits
  import opened LssTypes
  import opened LssSlave
  import opened LssMaster
  import opened LssNetwork

  /** Transfers needed for the first k parts: 33 for a scanned part, one for a matched one. */
  function Cost(args: FastscanArgs, k: nat): (n: nat)
    requires k <= 4
  {
    if k == 0 then 0
    else Cost(args, k - 1) + match args.scan[k - 1] case Scan => 33 case Match => 1 case Skip => 0
  }

  lemma {:induction false} CostSkip(args: FastscanArgs, j: nat, k: nat)
    requires j <= k <= 4
    requires forall i :: j <= i < k ==> args.scan[i] == Skip
    ensures Cost(args, j) == Cost(args, k)
    decreases k - j
  {
    if j < k {
      CostSkip(args, j, k - 1);
    }
  }

  lemma {:induction false} CostMonotone(args: FastscanArgs, j: nat, k: nat)
    requires j <= k <= 4
    ensures Cost(args, j) <= Cost(args, k)
    decreases k - j
  {
    if j < k {
      CostMonotone(args, j, k - 1);
    }
  }

  lemma {:induction false} SurvivorsShrink(s: seq<Slave>, args: FastscanArgs, j: nat, k: nat)
    requires j <= k <= 4
    ensures Survivors(s, args, k) <= Survivors(s, args, j)
    decreases k - j
  {
    if j < k {
      SurvivorsShrink(s, args, j, k - 1);
    }
  }

  /** The parts before k are reported: skipped ones as zero, the others as the survivors' common value. */
  ghost predicate FoundUpTo(s0: seq<Slave>, args: FastscanArgs, found: Address, k: nat)
    requires k <= 4
  {
    forall j :: 0 <= j < 4 ==>
      if j < k && args.scan[j] != Skip
      then forall i :: i in Survivors(s0, args, k) && 0 <= i < |s0| ==> s0[i].address[j] == found[j]
      else found[j] == 0
  }

  predicate Heard(m: Master, yes: bool) {
    m.rxNew == yes && (yes ==> m.rx == ACK)
  }

  ghost predicate InCheck(n0: Net, n: Net) {
    var c := Participants(n0.slaves);
    && SlavesAt(n0.slaves, n.slaves, c, 0)
    && Heard(n.master, Any(c))
    && n.sent == n0.sent + 1
  }

  ghost predicate InScan(n0: Net, n: Net, args: FastscanArgs) {
    var m := n.master;
    var c := Survivors(n0.slaves, args, m.fsSub);
    && Any(c)
    && SlavesAt(n0.slaves, n.slaves, c, m.fsSub)
    && FoundUpTo(n0.slaves, args, n.found, m.fsSub)
    && (args.scan[m.fsSub] == Match ==> n.sent == n0.sent + 1 + Cost(args, m.fsSub))
    && (args.scan[m.fsSub] == Scan ==>
          && n.sent == n0.sent + 1 + Cost(args, m.fsSub) + (32 - m.fsBit)
          && Heard(m, Any(Matching(n0.slaves, c, m.fsSub, m.fsId, m.fsBit)))
          && SearchNarrowed(n0.slaves, m.fsSub, c, m.fsId, m.fsBit))
  }

  ghost predicate SearchNarrowed(s0: seq<Slave>, sub: Sub, c: set<int>, id: uint32, bit: Bit) {
    forall i :: i in c && 0 <= i < |s0| && Smallest(s0, sub, c, i) ==> Narrowed(s0[i].address[sub], id, bit)
  }

  ghost predicate InVerify(n0: Net, n: Net, args: FastscanArgs) {
    var m := n.master;
    var next := SearchNext(args.scan, m.fsSub);
    var d := Survivors(n0.slaves, args, m.fsSub + 1);
    && (if next == 0 then Selected(n0.slaves, n.slaves, d) else SlavesAt(n0.slaves, n.slaves, d, next))
    && Heard(m, Any(d))
    && FoundUpTo(n0.slaves, args, n.found, m.fsSub)
    && (forall i :: i in d && 0 <= i < |n0.slaves| ==> n0.slaves[i].address[m.fsSub] == m.fsId)
    && n.sent == n0.sent + 1 + Cost(args, m.fsSub + 1)
  }

  /** What holds between two calls of a running Fastscan that started on n0. */
  ghost predicate Inv(n0: Net, n: Net, args: FastscanArgs) {
    && Accepted(args.scan)
    && n.master.command == Fastscan
    && n.master.state == MasterWaiting
    && n.master.timeout == n0.master.timeout
    && match n.master.fsState
       case Check => InCheck(n0, n)
       case Scanning => args.scan[n.master.fsSub] != Skip && InScan(n0, n, args)
       case Verify => args.scan[n.master.fsSub] != Skip && InVerify(n0, n, args)
  }

  /** The result of a finished scan. */
  ghost predicate Outcome(n0: Net, n: Net, args: FastscanArgs, ret: Return) {
    var w := Survivors(n0.slaves, args, 4);
    && n.master.command == Idle
    && n.master.timeout == n0.master.timeout
    && Selected(n0.slaves, n.slaves, w)
    && (if Any(w) then
          && ret == ScanFinished
          && n.master.state == CfgSelective
          && FoundUpTo(n0.slaves, args, n.found, 4)
          && n.sent == n0.sent + 1 + Cost(args, 4)
        else
          && ret == ScanNoAck
          && n.master.state == MasterWaiting
          && n.sent <= n0.sent + 1 + Cost(args, 4))
  }

  predicate Running(m: Master, scan: ScanPlan) {
    && Accepted(scan) && m.command == Fastscan && m.state == MasterWaiting
    && (m.fsState != Check ==> scan[m.fsSub] != Skip)
  }

  lemma InvRunning(n0: Net, net: Net, args: FastscanArgs)
    requires Inv(n0, net, args)
    ensures Running(net.master, args.scan) && net.master.timeout == n0.master.timeout
    ensures net.master.fsState == Scanning && args.scan[net.master.fsSub] == Scan && net.master.rxNew ==> net.master.rx == ACK
  {
  }

  lemma SendOne(net: Net, f: Frame)
    ensures TransmitAll(net, [f]) == Transmit(net, f)
  {
    assert [f][1..] == [];
  }

  /** An accepted plan has a part behind the vendor ID. */
  lemma SecondPart(scan: ScanPlan)
    requires Accepted(scan)
    ensures SearchNext(scan, 0) != 0
  {
    SkipCountOfFour(scan);
  }

  lemma SkipCountOfFour(scan: ScanPlan)
    ensures scan[1] == scan[2] == scan[3] == Skip ==> SkipCount(scan) >= 3
  {
    var three := scan[..3];
    var two := three[..2];
    assert SkipCount(scan) == SkipCount(three) + if scan[3] == Skip then 1 else 0;
    assert SkipCount(three) == SkipCount(two) + if scan[2] == Skip then 1 else 0;
    assert SkipCount(two) == SkipCount(two[..1]) + if scan[1] == Skip then 1 else 0;
  }

  lemma FirstCall(n0: Net, args: FastscanArgs, dt: uint16)
    requires n0.master.state == MasterWaiting && n0.master.command == Idle && Accepted(args.scan)
    ensures var (n, ret) := FastscanCall(n0, args, dt); ret == WaitSlave && Inv(n0, n, args)
  {
    var f := FsFrame(0, CONFIRM, 0, 0);
    var m := n0.master.(command := Fastscan, fsState := Check, timer := 0, rxNew := false);
    SendOne(n0.(master := m), f);
    ConfirmFrame(n0.(master := m), f);
  }

  lemma SearchStart(s0: seq<Slave>, sub: Sub, c: set<int>)
    ensures SearchNarrowed(s0, sub, c, 0, 31)
  {
    hide Narrowed;
    forall i | i in c && 0 <= i < |s0| ensures Narrowed(s0[i].address[sub], 0, 31) {
      NarrowedStart(s0[i].address[sub]);
    }
  }

  /** Beginning with a part: the first frame of its search, or nothing if it is to be matched. */
  lemma EnterPart(n0: Net, net: Net, args: FastscanArgs, sub: Sub, found: Address)
    requires Accepted(args.scan) && args.scan[sub] != Skip
    requires net.master.command == Fastscan && net.master.state == MasterWaiting
    requires net.master.timeout == n0.master.timeout
    requires !net.master.rxNew
    requires Any(Survivors(n0.slaves, args, sub))
    requires SlavesAt(n0.slaves, net.slaves, Survivors(n0.slaves, args, sub), sub)
    requires FoundUpTo(n0.slaves, args, found, sub)
    requires net.sent == n0.sent + 1 + Cost(args, sub)
    ensures var r := FsScanInitiate(net.master, args, sub);
            Inv(n0, TransmitAll(net.(master := r.0.(fsState := Scanning), found := found), r.1), args)
  {
    hide ValueFrame, SearchNarrowed, Matching, SlavesAt, FoundUpTo, SetBit, HighBitsEqual;
    var r := FsScanInitiate(net.master, args, sub);
    var n := net.(master := r.0.(fsState := Scanning), found := found);
    if args.scan[sub] == Scan {
      var f := FsFrame(0, 31, sub, sub);
      SendOne(n, f);
      ScanFrame(n, n0.slaves, Survivors(n0.slaves, args, sub), 0, 31, sub);
      SearchStart(n0.slaves, sub, Survivors(n0.slaves, args, sub));
    }
  }

  /** The value a part is verified against: the one found, or the one given. */
  function PartValue(m: Master, args: FastscanArgs): (id: uint32) {
    if args.scan[m.fsSub] == Match then args.match_[m.fsSub] else m.fsId
  }

  /** All transfers before the verify frame of the current part are done. */
  ghost predicate ReadyToVerify(n0: Net, net: Net, args: FastscanArgs) {
    var m := net.master;
    var c := Survivors(n0.slaves, args, m.fsSub);
    && Accepted(args.scan) && args.scan[m.fsSub] != Skip
    && m.command == Fastscan && m.state == MasterWaiting && m.timeout == n0.master.timeout
    && SlavesAt(n0.slaves, net.slaves, c, m.fsSub)
    && FoundUpTo(n0.slaves, args, net.found, m.fsSub)
    && (args.scan[m.fsSub] == Scan ==> SmallestIs(n0.slaves, c, m.fsSub, m.fsId))
    && net.sent + 1 == n0.sent + 1 + Cost(args, m.fsSub + 1)
  }

  /** Within c, the smallest values of part `sub` are exactly those equal to id. */
  ghost predicate SmallestIs(s0: seq<Slave>, c: set<int>, sub: Sub, id: uint32) {
    forall i :: i in c && 0 <= i < |s0| ==> (Smallest(s0, sub, c, i) <==> s0[i].address[sub] == id)
  }

  lemma SurvivorsMatch(s0: seq<Slave>, args: FastscanArgs, sub: Sub, id: uint32)
    requires args.scan[sub] != Skip
    requires args.scan[sub] == Match ==> id == args.match_[sub]
    requires args.scan[sub] == Scan ==> SmallestIs(s0, Survivors(s0, args, sub), sub, id)
    ensures Survivors(s0, args, sub + 1) == Matching(s0, Survivors(s0, args, sub), sub, id, 0)
    ensures forall i :: i in Survivors(s0, args, sub + 1) && 0 <= i < |s0| ==> s0[i].address[sub] == id
  {
    forall a: uint32, b: uint32 ensures HighBitsEqual(a, b, 0) <==> a == b { EqualOnAllBits(a, b); }
  }

  /** Sending the verify frame once the value of the part is known. */
  lemma EnterVerify(n0: Net, net: Net, args: FastscanArgs)
    requires ReadyToVerify(n0, net, args)
    ensures var st := FsVerifyInitiate(net.master, args, net.found);
            st.ret == WaitSlave && Inv(n0, Carry(net, st), args)
  {
    hide ValueFrame, SearchNarrowed, SlavesAt, Selected, FoundUpTo;
    var m := net.master;
    var id := PartValue(m, args);
    var next := SearchNext(args.scan, m.fsSub);
    var st := FsVerifyInitiate(m, args, net.found);
    var n := net.(master := st.master);
    SendOne(n, FsFrame(id, 0, m.fsSub, next));
    SecondPart(args.scan);
    VerifyFrame(n, n0.slaves, Survivors(n0.slaves, args, m.fsSub), id, m.fsSub, next);
    SurvivorsMatch(n0.slaves, args, m.fsSub, id);
  }

  lemma StepCheck(n0: Net, net: Net, args: FastscanArgs, dt: uint16)
    requires Inv(n0, net, args) && net.master.fsState == Check
    ensures var (n, ret) := FastscanCall(net, args, dt);
            if ret == WaitSlave then Inv(n0, n, args) else Outcome(n0, n, args, ret)
  {
    var (m, expired) := CheckTimeout(net.master, dt);
    SurvivorsShrink(n0.slaves, args, 0, 4);
    if expired && m.rxNew {
      EnterPart(n0, net.(master := m.(rxNew := false)), args, 0, ZERO_ADDRESS);
    }
  }

  lemma StepMatch(n0: Net, net: Net, args: FastscanArgs, dt: uint16)
    requires Inv(n0, net, args) && net.master.fsState == Scanning && args.scan[net.master.fsSub] == Match
    ensures var (n, ret) := FastscanCall(net, args, dt); ret == WaitSlave && Inv(n0, n, args)
  {
    EnterVerify(n0, net, args);
  }

  /** What the master does when the time for one bit is over. */
  lemma BitOver(m: Master, args: FastscanArgs, dt: uint16, found: Address)
    requires Accepted(args.scan) && m.command == Fastscan && m.state == MasterWaiting
    requires m.fsState == Scanning && args.scan[m.fsSub] == Scan && CheckTimeout(m, dt).1
    requires m.rxNew ==> m.rx == ACK
    ensures var o := BitTaken(m, dt);
            IdentifyFastscan(m, args, dt, found) ==
            if o.fsBit == 0 then FsVerifyInitiate(o, args, found)
            else Step(o.(fsBit := o.fsBit - 1, timer := 0), WaitSlave, found,
                      [FsFrame(o.fsId, o.fsBit - 1, o.fsSub, o.fsSub)])
  {
  }

  lemma BitPending(m: Master, args: FastscanArgs, dt: uint16, found: Address)
    requires Accepted(args.scan) && m.command == Fastscan && m.state == MasterWaiting
    requires m.fsState == Scanning && args.scan[m.fsSub] == Scan && !CheckTimeout(m, dt).1
    ensures IdentifyFastscan(m, args, dt, found) == Step(CheckTimeout(m, dt).0, WaitSlave, found, [])
  {
  }

  /** One answered or unanswered bit. */
  lemma StepScan(n0: Net, net: Net, args: FastscanArgs, dt: uint16)
    requires Inv(n0, net, args) && net.master.fsState == Scanning && args.scan[net.master.fsSub] == Scan
    ensures var (n, ret) := FastscanCall(net, args, dt); ret == WaitSlave && Inv(n0, n, args)
  {
    if CheckTimeout(net.master, dt).1 {
      StepBit(n0, net, args, dt);
    } else {
      BitPending(net.master, args, dt, net.found);
    }
  }

  /** The master after the answer for one bit has been taken into account. */
  function BitTaken(m: Master, dt: uint16): (r: Master) {
    var n := CheckTimeout(m, dt).0;
    n.(rxNew := false, fsId := if n.rxNew then n.fsId else SetBit(n.fsId, n.fsBit))
  }

  lemma StepBit(n0: Net, net: Net, args: FastscanArgs, dt: uint16)
    requires Inv(n0, net, args) && net.master.fsState == Scanning && args.scan[net.master.fsSub] == Scan
    requires CheckTimeout(net.master, dt).1
    ensures var (n, ret) := FastscanCall(net, args, dt); ret == WaitSlave && Inv(n0, n, args)
  {
    hide ValueFrame, SetBit, IdentifyFastscan, FsVerifyInitiate, ReadyToVerify, ReadyForBit, Inv, Accepted;
    InvRunning(n0, net, args);
    BitOver(net.master, args, dt, net.found);
    BitLearned(n0, net, args, dt);
    var o := BitTaken(net.master, dt);
    if net.master.fsBit == 0 {
      EnterVerify(n0, net.(master := o), args);
    } else {
      NextBit(n0, net.(master := o.(fsBit := net.master.fsBit - 1, timer := 0)), args);
    }
  }

  lemma BitLearned(n0: Net, net: Net, args: FastscanArgs, dt: uint16)
    requires Inv(n0, net, args) && net.master.fsState == Scanning && args.scan[net.master.fsSub] == Scan
    ensures var o := BitTaken(net.master, dt);
            if net.master.fsBit == 0 then ReadyToVerify(n0, net.(master := o), args)
            else ReadyForBit(n0, net.(master := o.(fsBit := net.master.fsBit - 1, timer := 0)), args)
  {
    hide SetBit, SearchNarrowed, SmallestIs, Matching, SlavesAt, FoundUpTo;
    var m := net.master;
    NextGuess(n0.slaves, Survivors(n0.slaves, args, m.fsSub), m.fsSub, m.fsId, m.fsBit, m.rxNew);
  }

  /** What an answer tells about the smallest candidate. */
  lemma NextGuess(s0: seq<Slave>, c: set<int>, sub: Sub, id: uint32, bit: Bit, heard: bool)
    requires Any(c) && c <= Participants(s0)
    requires heard == (Any(Matching(s0, c, sub, id, bit)))
    requires SearchNarrowed(s0, sub, c, id, bit)
    ensures var g := if heard then id else SetBit(id, bit);
            if bit == 0 then SmallestIs(s0, c, sub, g)
            else SearchNarrowed(s0, sub, c, g, bit - 1)
  {
    var s := SmallestExists(s0, sub, c);
    var v := s0[s].address[sub];
    MatchingAsSmallest(s0, c, sub, s, id, bit);
    if bit == 0 {
      NarrowedEnd(v, id);
    } else {
      NarrowedStep(v, id, bit);
    }
    forall i | i in c && 0 <= i < |s0|
      ensures Smallest(s0, sub, c, i) <==> s0[i].address[sub] == v
    {
    }
  }

  /** All transfers before the frame for the current bit are done. */
  ghost predicate ReadyForBit(n0: Net, net: Net, args: FastscanArgs) {
    var m := net.master;
    var c := Survivors(n0.slaves, args, m.fsSub);
    && Accepted(args.scan) && args.scan[m.fsSub] == Scan
    && m.command == Fastscan && m.state == MasterWaiting && m.fsState == Scanning
    && m.timeout == n0.master.timeout && !m.rxNew
    && Any(c)
    && SlavesAt(n0.slaves, net.slaves, c, m.fsSub)
    && FoundUpTo(n0.slaves, args, net.found, m.fsSub)
    && net.sent + 1 == n0.sent + 1 + Cost(args, m.fsSub) + (32 - m.fsBit)
    && SearchNarrowed(n0.slaves, m.fsSub, c, m.fsId, m.fsBit)
  }

  /** Sending the frame for the next bit. */
  lemma NextBit(n0: Net, net: Net, args: FastscanArgs)
    requires ReadyForBit(n0, net, args)
    ensures var m := net.master; Inv(n0, TransmitAll(net, [FsFrame(m.fsId, m.fsBit, m.fsSub, m.fsSub)]), args)
  {
    var m := net.master;
    SendOne(net, FsFrame(m.fsId, m.fsBit, m.fsSub, m.fsSub));
    ScanFrame(net, n0.slaves, Survivors(n0.slaves, args, m.fsSub), m.fsId, m.fsBit, m.fsSub);
  }

  /** A value verified by the survivors of a part extends the reported address. */
  lemma FoundExtends(s0: seq<Slave>, args: FastscanArgs, found: Address, sub: Sub, id: uint32, k: nat)
    requires sub < k <= 4 && args.scan[sub] != Skip
    requires FoundUpTo(s0, args, found, sub)
    requires forall j :: sub < j < k ==> args.scan[j] == Skip
    requires forall i :: i in Survivors(s0, args, sub + 1) && 0 <= i < |s0| ==> s0[i].address[sub] == id
    ensures FoundUpTo(s0, args, found[sub := id], k)
    ensures Survivors(s0, args, sub + 1) == Survivors(s0, args, k)
  {
    SurvivorsSkip(s0, args, sub + 1, k);
    SurvivorsShrink(s0, args, sub, sub + 1);
  }

  lemma StepVerify(n0: Net, net: Net, args: FastscanArgs, dt: uint16)
    requires Inv(n0, net, args) && net.master.fsState == Verify
    ensures var (n, ret) := FastscanCall(net, args, dt);
            if ret == WaitSlave then Inv(n0, n, args) else Outcome(n0, n, args, ret)
  {
    var (m, expired) := CheckTimeout(net.master, dt);
    if expired && m.rxNew {
      StepVerified(n0, net, args, dt);
    } else if expired {
      SurvivorsShrink(n0.slaves, args, m.fsSub + 1, 4);
      CostMonotone(args, m.fsSub + 1, 4);
    }
  }

  lemma StepVerified(n0: Net, net: Net, args: FastscanArgs, dt: uint16)
    requires Inv(n0, net, args) && net.master.fsState == Verify
    requires CheckTimeout(net.master, dt).1 && net.master.rxNew
    ensures var (n, ret) := FastscanCall(net, args, dt);
            if ret == WaitSlave then Inv(n0, n, args) else Outcome(n0, n, args, ret)
  {
    hide ValueFrame, SearchNarrowed, SlavesAt, Selected, FoundUpTo;
    var m := CheckTimeout(net.master, dt).0;
    var sub: nat := m.fsSub;
    var next := SearchNext(args.scan, sub);
    var k: nat := if next == 0 then 4 else next;
    FoundExtends(n0.slaves, args, net.found, sub, m.fsId, k);
    CostSkip(args, sub + 1, k);
    if next != 0 {
      EnterPart(n0, net.(master := m.(rxNew := false)), args, next, net.found[sub := m.fsId]);
    }
  }

  lemma StepInv(n0: Net, net: Net, args: FastscanArgs, dt: uint16)
    requires Inv(n0, net, args)
    ensures var (n, ret) := FastscanCall(net, args, dt);
            if ret == WaitSlave then Inv(n0, n, args) else Outcome(n0, n, args, ret)
  {
    match net.master.fsState
    case Check => StepCheck(n0, net, args, dt);
    case Scanning =>
      if args.scan[net.master.fsSub] == Match {
        StepMatch(n0, net, args, dt);
      } else {
        StepScan(n0, net, args, dt);
      }
    case Verify => StepVerify(n0, net, args, dt);
  }

  lemma {:induction false} RunInv(n0: Net, net: Net, args: FastscanArgs, dts: seq<uint16>)
    requires Inv(n0, net, args)
    ensures var (n, ret) := FastscanRun(net, args, dts);
            if ret == WaitSlave then Inv(n0, n, args) else Outcome(n0, n, args, ret)
    decreases |dts|
  {
    if dts != [] {
      StepInv(n0, net, args, dts[0]);
      var (n, ret) := FastscanCall(net, args, dts[0]);
      if ret == WaitSlave {
        RunInv(n0, n, args, dts[1..]);
      }
    }
  }

  /** Main result: a finished scan selects exactly the slaves the part-by-part filter keeps. */
  lemma FastscanSelects(n0: Net, args: FastscanArgs, dts: seq<uint16>)
    requires n0.master.state == MasterWaiting && n0.master.command == Idle && Accepted(args.scan)
    ensures var (n, ret) := FastscanRun(n0, args, dts);
            ret != WaitSlave ==> Outcome(n0, n, args, ret)
  {
    if dts != [] {
      FirstCall(n0, args, dts[0]);
      var (n, ret) := FastscanCall(n0, args, dts[0]);
      RunInv(n0, n, args, dts[1..]);
    }
  }

  // -------------------------------------------------------------- termination

  /** Calls still needed for the parts from `sub` on, when no call waits in vain. */
  function PartCalls(scan: ScanPlan, sub: Sub): (n: nat)
    decreases 4 - sub
  {
    var next := SearchNext(scan, sub);
    (if scan[sub] == Scan then 33 else 2) + if next == 0 then 0 else PartCalls(scan, next)
  }

  function RestCalls(scan: ScanPlan, sub: Sub): (n: nat) {
    var next := SearchNext(scan, sub);
    if next == 0 then 0 else PartCalls(scan, next)
  }

  function CallsLeft(m: Master, scan: ScanPlan): (n: nat) {
    match m.fsState
    case Check => 1 + PartCalls(scan, 0)
    case Scanning => (if scan[m.fsSub] == Scan then m.fsBit + 2 else 2) + RestCalls(scan, m.fsSub)
    case Verify => 1 + RestCalls(scan, m.fsSub)
  }

  /** A call after a full timeout always brings the scan forward. */
  lemma CallProgress(m: Master, args: FastscanArgs, dt: uint16, found: Address)
    requires Running(m, args.scan) && m.timer == 0 && dt >= m.timeout
    ensures var st := IdentifyFastscan(m, args, dt, found);
            st.ret == WaitSlave ==> st.master.timer == 0 && CallsLeft(st.master, args.scan) < CallsLeft(m, args.scan)
  {
    hide ValueFrame, SetBit, SearchNext, Accepted;
    match m.fsState
    case Check => ScanInitiateCalls(m.(rxNew := false), args, 0);
    case Scanning =>
    case Verify => ScanInitiateCalls(m.(rxNew := false), args, SearchNext(args.scan, m.fsSub));
  }

  lemma ScanInitiateCalls(m: Master, args: FastscanArgs, sub: Sub)
    requires m.timer == 0
    ensures var n := FsScanInitiate(m, args, sub).0.(fsState := Scanning);
            n.timer == 0 && CallsLeft(n, args.scan) == PartCalls(args.scan, sub)
  {
  }

  lemma {:induction false} TransmitKeeps(net: Net, tx: seq<Frame>)
    ensures var m := TransmitAll(net, tx).master;
            m == net.master.(rxNew := m.rxNew, rx := m.rx)
    decreases |tx|
  {
    if tx != [] {
      DeliverKeeps(net.master, React(net.slaves, tx[0]));
      TransmitKeeps(Transmit(net, tx[0]), tx[1..]);
    }
  }

  lemma {:induction false} DeliverKeeps(m: Master, rs: seq<Reaction>)
    ensures Deliver(m, rs) == m.(rxNew := Deliver(m, rs).rxNew, rx := Deliver(m, rs).rx)
    decreases |rs|
  {
    if rs != [] {
      DeliverKeeps(if rs[0].reply.Some? then LssMaster.Receive(m, 8, rs[0].reply.value) else m, rs[1..]);
    }
  }

  lemma {:induction false} RunEnds(n0: Net, net: Net, args: FastscanArgs, dts: seq<uint16>)
    requires Inv(n0, net, args) && net.master.timer == 0
    requires forall i :: 0 <= i < |dts| ==> dts[i] >= net.master.timeout
    requires |dts| >= CallsLeft(net.master, args.scan)
    ensures FastscanRun(net, args, dts).1 != WaitSlave
    decreases |dts|
  {
    hide Inv, IdentifyFastscan, CallsLeft;
    CallsLeftPositive(net.master, args.scan);
    StepInv(n0, net, args, dts[0]);
    InvRunning(n0, net, args);
    CallProgress(net.master, args, dts[0], net.found);
    var st := IdentifyFastscan(net.master, args, dts[0], net.found);
    if st.ret == WaitSlave {
      TransmitKeeps(net.(master := st.master, found := st.found), st.tx);
      var n := Carry(net, st);
      SameCalls(st.master, n.master, args.scan);
      InvRunning(n0, n, args);
      RunEnds(n0, n, args, dts[1..]);
    }
  }

  lemma SameCalls(m: Master, n: Master, scan: ScanPlan)
    requires n == m.(rxNew := n.rxNew, rx := n.rx)
    ensures CallsLeft(m, scan) == CallsLeft(n, scan)
  {
  }

  lemma CallsLeftPositive(m: Master, scan: ScanPlan)
    ensures CallsLeft(m, scan) > 0
  {
  }

  /** Called once per timeout, the scan ends after at most this many calls. */
  lemma FastscanEnds(n0: Net, args: FastscanArgs, dts: seq<uint16>)
    requires n0.master.state == MasterWaiting && n0.master.command == Idle && Accepted(args.scan)
    requires forall i :: 0 <= i < |dts| ==> dts[i] >= n0.master.timeout
    requires |dts| >= 2 + PartCalls(args.scan, 0)
    ensures FastscanRun(n0, args, dts).1 != WaitSlave
  {
    hide Inv, ValueFrame, PartCalls;
    FirstCall(n0, args, dts[0]);
    var st := IdentifyFastscan(n0.master, args, dts[0], n0.found);
    TransmitKeeps(n0.(master := st.master, found := st.found), st.tx);
    RunEnds(n0, FastscanCall(n0, args, dts[0]).0, args, dts[1..]);
  }

  // --------------------------------------------------- scanning all four parts

  const ALL_SCAN: ScanPlan := [Scan, Scan, Scan, Scan]

  /** a precedes b, first differing in part k. */
  predicate LessAt(a: Address, b: Address, k: Sub) {
    a[k] < b[k] && forall j :: 0 <= j < k ==> a[j] == b[j]
  }

  /** The order of LSS addresses as 128-bit numbers, vendor ID first. */
  predicate Less(a: Address, b: Address) {
    exists k: Sub :: LessAt(a, b, k)
  }

  lemma {:induction false} PrefixSmallest(s: seq<Slave>, args: FastscanArgs, k: nat, i: int, j: int)
    requires k <= 4 && args.scan == ALL_SCAN
    requires i in Survivors(s, args, k) && j in Participants(s)
    ensures (j in Survivors(s, args, k) && s[i].address[..k] == s[j].address[..k])
         || exists m: Sub :: m < k && LessAt(s[i].address, s[j].address, m)
  {
    if k > 0 {
      PrefixSmallest(s, args, k - 1, i, j);
      if j in Survivors(s, args, k - 1) && s[i].address[..k - 1] == s[j].address[..k - 1] {
        var a, b := s[i].address, s[j].address;
        assert a[k - 1] <= b[k - 1];
        assert a[..k] == a[..k - 1] + [a[k - 1]] && b[..k] == b[..k - 1] + [b[k - 1]];
        forall m | 0 <= m < k - 1 ensures a[m] == b[m] {
          assert a[..k - 1][m] == b[..k - 1][m];
        }
        if a[k - 1] < b[k - 1] {
          assert LessAt(a, b, k - 1);
        }
      }
    }
  }

  /** With all parts scanned, the survivors are the participants with the smallest address. */
  lemma SurvivorsSmallest(s: seq<Slave>, args: FastscanArgs, i: int, j: int)
    requires args.scan == ALL_SCAN && i in Survivors(s, args, 4) && j in Participants(s)
    ensures if j in Survivors(s, args, 4) then s[i].address == s[j].address else Less(s[i].address, s[j].address)
  {
    PrefixSmallest(s, args, 4, i, j);
    assert s[i].address[..4] == s[i].address && s[j].address[..4] == s[j].address;
    if j in Survivors(s, args, 4) {
      PrefixSmallest(s, args, 4, j, i);
    }
  }

  lemma CostAllScan(args: FastscanArgs)
    requires args.scan == ALL_SCAN
    ensures Cost(args, 4) == 132
  {
    assert Cost(args, 1) == 33;
    assert Cost(args, 2) == 66;
    assert Cost(args, 3) == 99;
  }

  /** The reported address is the smallest of a participant, and exactly its owners are selected. */
  ghost predicate SmallestSelected(s0: seq<Slave>, s: seq<Slave>, found: Address) {
    && |s| == |s0|
    && (exists i :: i in Participants(s0) && s0[i].address == found)
    && forall j :: j in Participants(s0) ==>
         if s0[j].address == found then s[j].state == Configuration
         else Less(found, s0[j].address) && s[j].state == Waiting
  }

  lemma SurvivorsSelected(s0: seq<Slave>, s: seq<Slave>, args: FastscanArgs, found: Address)
    requires args.scan == ALL_SCAN && Any(Survivors(s0, args, 4))
    requires Selected(s0, s, Survivors(s0, args, 4)) && FoundUpTo(s0, args, found, 4)
    ensures SmallestSelected(s0, s, found)
  {
    var w := Survivors(s0, args, 4);
    var i :| i in w;
    SameAddress(s0[i].address, found);
    forall j | j in Participants(s0)
      ensures if j in w then s0[j].address == found else s0[j].address != found && Less(found, s0[j].address)
    {
      SurvivorsSmallest(s0, args, i, j);
    }
  }

  lemma SameAddress(a: Address, b: Address)
    requires a[0] == b[0] && a[1] == b[1] && a[2] == b[2] && a[3] == b[3]
    ensures a == b
  {
  }

  /** A full scan that finishes reports the smallest address among the participants,
      after one confirm transfer and 33 transfers for each part. */
  lemma FullScanFindsSmallest(n0: Net, args: FastscanArgs, dts: seq<uint16>)
    requires n0.master.state == MasterWaiting && n0.master.command == Idle && args.scan == ALL_SCAN
    ensures var (n, ret) := FastscanRun(n0, args, dts);
            ret == ScanFinished ==>
              n.sent == n0.sent + 1 + 4 * 33 && SmallestSelected(n0.slaves, n.slaves, n.found)
  {
    hide FastscanRun, SmallestSelected, Selected, FoundUpTo, Survivors;
    AllScanAccepted();
    FastscanSelects(n0, args, dts);
    CostAllScan(args);
    var (n, ret) := FastscanRun(n0, args, dts);
    if ret == ScanFinished {
      SurvivorsSelected(n0.slaves, n.slaves, args, n.found);
    }
  }

  lemma AllScanAccepted()
    ensures Accepted(ALL_SCAN)
  {
    var s := ALL_SCAN;
    assert s[..3] == [Scan, Scan, Scan] && s[..2] == [Scan, Scan] && s[..1] == [Scan];
    assert s[..3][..2] == s[..2] && s[..2][..1] == s[..1] && s[..1][..0] == [];
    assert SkipCount(s[..1]) == 0;
    assert SkipCount(s[..2]) == 0;
    assert SkipCount(s[..3]) == 0;
  }
}
