/**
  The LSS master of stack/CO_LSSmaster.c: node selection, node-ID configuration
  and the Fastscan search. Every command is a function from the master's state
  to its next state, its return value and the frames it sends; the class below
  runs the same commands on fields.
 */
module LssMaster {
  import opened Can
  import opened LssTypes
  import opened LssBits

  datatype MasterState = MasterWaiting | CfgSelective | CfgGlobal
  datatype Command = Idle | SwitchState | CfgNodeId | Fastscan
  datatype FsState = Check | Scanning | Verify
  datatype ScanType = Scan | Skip | Match

  datatype Return =
    | ScanFinished | WaitSlave | Ok | Timeout | IllegalArgument
    | InvalidState | ScanNoAck | ScanFailed | OkIllegalArgument | OkManufacturer

  /** Index of a part of an LSS address. */
  type Sub = k: int | 0 <= k < 4

  type ScanPlan = s: seq<ScanType> | |s| == 4 witness [Scan, Scan, Scan, Scan]

  /** What to do with each part, and the values to match. */
  datatype FastscanArgs = FastscanArgs(scan: ScanPlan, match_: Address)

  datatype Master = Master(
    timeout: uint16,
    state: MasterState,
    command: Command,
    timer: uint16,
    fsState: FsState,
    fsSub: Sub,
    fsBit: Bit,
    fsId: uint32,
    rxNew: bool,
    rx: Frame)

  /** A command's effect: next state, result, scan result so far, frames sent. */
  datatype Step = Step(master: Master, ret: Return, found: Address, tx: seq<Frame>)

  /** The receive callback keeps the first answer until it has been looked at. */
  function Receive(m: Master, dlc: nat, f: Frame): (r: Master) {
    if dlc == 8 && !m.rxNew && m.command != Idle then m.(rx := f, rxNew := true) else m
  }

  /** Advance the 16-bit timer; on expiry it restarts. */
  function CheckTimeout(m: Master, dt: uint16): (r: (Master, bool)) {
    var t := Add16(m.timer, dt);
    if t >= m.timeout then (m.(timer := 0), true) else (m.(timer := t), false)
  }

  // ---------------------------------------------------------------- Fastscan

  function FsFrame(id: uint32, bit: byte, sub: byte, next: byte): (f: Frame) {
    ValueFrame(IDENT_FASTSCAN, id, bit, sub, next)
  }

  /** The next part that is not skipped; 0 (the vendor ID) when there is none. */
  function SearchNext(scan: ScanPlan, sub: Sub): (next: Sub)
    ensures next != 0 ==> sub < next && scan[next] != Skip
    ensures forall k :: sub < k < 4 && (next == 0 || k < next) ==> scan[k] == Skip
    decreases 4 - sub
  {
    if sub == 3 then 0
    else if scan[sub + 1] != Skip then sub + 1
    else SearchNext(scan, sub + 1)
  }

  function SkipCount(scan: seq<ScanType>): (n: nat) {
    if scan == [] then 0 else SkipCount(scan[..|scan| - 1]) + if scan[|scan| - 1] == Skip then 1 else 0
  }

  /** The vendor ID must not be skipped, and at most two parts may be. */
  predicate Accepted(scan: ScanPlan) {
    scan[0] != Skip && SkipCount(scan) <= 2
  }

  function FsCheckWait(m: Master, args: FastscanArgs, dt: uint16, found: Address): (r: Step) {
    var (n, expired) := CheckTimeout(m, dt);
    if !expired then Step(n, WaitSlave, found, [])
    else if !n.rxNew then Step(n.(command := Idle), ScanNoAck, found, [])
    else if n.rx[0] != IDENT_SLAVE then Step(n.(rxNew := false, command := Idle), ScanNoAck, found, [])
    else
      var r := FsScanInitiate(n.(rxNew := false), args, 0);
      Step(r.0.(fsState := Scanning), WaitSlave, ZERO_ADDRESS, r.1)
  }

  /** Start the bitwise search of a part; a part to match needs no search. */
  function FsScanInitiate(m: Master, args: FastscanArgs, sub: Sub): (r: (Master, seq<Frame>)) {
    var n := m.(fsSub := sub, fsId := 0);
    if args.scan[sub] == Scan then
      (n.(fsBit := BIT31, timer := 0, rxNew := false), [FsFrame(0, BIT31, sub, sub)])
    else (n, [])
  }

  function FsVerifyInitiate(m: Master, args: FastscanArgs, found: Address): (r: Step) {
    var id := if args.scan[m.fsSub] == Match then args.match_[m.fsSub] else m.fsId;
    var next := SearchNext(args.scan, m.fsSub);
    if args.scan[m.fsSub] == Skip then Step(m.(fsState := Verify, command := Idle), ScanFailed, found, [])
    else
      Step(m.(fsId := id, fsBit := BIT0, timer := 0, rxNew := false, fsState := Verify), WaitSlave, found,
           [FsFrame(id, BIT0, m.fsSub, next)])
  }

  function FsScanWait(m: Master, args: FastscanArgs, dt: uint16, found: Address): (r: Step) {
    match args.scan[m.fsSub]
    case Match => FsVerifyInitiate(m, args, found)
    case Skip => Step(m.(command := Idle), ScanFailed, found, [])
    case Scan =>
      var (n, expired) := CheckTimeout(m, dt);
      if !expired then Step(n, WaitSlave, found, [])
      else if n.rxNew && n.rx[0] != IDENT_SLAVE then
        Step(n.(rxNew := false, command := Idle), ScanFailed, found, [])
      else
        // silence means that the assumed bit value was wrong
        var id := if n.rxNew then n.fsId else SetBit(n.fsId, n.fsBit);
        var o := n.(rxNew := false, fsId := id);
        if o.fsBit == BIT0 then FsVerifyInitiate(o, args, found)
        else
          var p := o.(fsBit := o.fsBit - 1, timer := 0);
          Step(p, WaitSlave, found, [FsFrame(p.fsId, p.fsBit, p.fsSub, p.fsSub)])
  }

  function FsVerifyWait(m: Master, args: FastscanArgs, dt: uint16, found: Address): (r: Step) {
    if args.scan[m.fsSub] == Skip then Step(m.(command := Idle), ScanFailed, found, [])
    else
      var (n, expired) := CheckTimeout(m, dt);
      if !expired then Step(n, WaitSlave, found, [])
      else if !n.rxNew then Step(n.(command := Idle), ScanNoAck, found[n.fsSub := 0], [])
      else if n.rx[0] != IDENT_SLAVE then
        Step(n.(rxNew := false, command := Idle), ScanFailed, found[n.fsSub := 0], [])
      else
        var o := n.(rxNew := false);
        var found' := found[o.fsSub := o.fsId];
        var next := SearchNext(args.scan, o.fsSub);
        if next == 0 then Step(o.(state := CfgSelective, command := Idle), ScanFinished, found', [])
        else
          var r := FsScanInitiate(o, args, next);
          Step(r.0.(fsState := Scanning), WaitSlave, found', r.1)
  }

  /** One call of the Fastscan command. */
  function IdentifyFastscan(m: Master, args: FastscanArgs, dt: uint16, found: Address): (r: Step) {
    if !Accepted(args.scan) then Step(m, IllegalArgument, found, [])
    else if m.state != MasterWaiting || (m.command != Idle && m.command != Fastscan) then
      Step(m, InvalidState, found, [])
    else if m.command == Idle then
      Step(m.(command := Fastscan, fsState := Check, timer := 0, rxNew := false), WaitSlave, found,
           [FsFrame(0, CONFIRM, 0, 0)])
    else
      match m.fsState
      case Check => FsCheckWait(m, args, dt, found)
      case Scanning => FsScanWait(m, args, dt, found)
      case Verify => FsVerifyWait(m, args, dt, found)
  }

  // ------------------------------------------------ selection and configuration

  function Deselect(m: Master, found: Address): (r: Step) {
    Step(m.(state := MasterWaiting, command := Idle, timer := 0, rxNew := false), Ok, found,
         [ShortFrame(SWITCH_STATE_GLOBAL, 0)])
  }

  function SelectFrames(a: Address): (tx: seq<Frame>)
    ensures |tx| == 4
  {
    [ValueFrame(SEL_VENDOR, a[0], 0, 0, 0), ValueFrame(SEL_PRODUCT, a[1], 0, 0, 0),
     ValueFrame(SEL_REV, a[2], 0, 0, 0), ValueFrame(SEL_SERIAL, a[3], 0, 0, 0)]
  }

  /** One call of the switch-state command for one address, or for all slaves. */
  function Select(m: Master, a: Option<Address>, dt: uint16, found: Address): (r: Step) {
    if m.state == MasterWaiting && m.command == Idle then
      if a.Some? then
        Step(m.(state := CfgSelective, command := SwitchState, timer := 0, rxNew := false), WaitSlave, found,
             SelectFrames(a.value))
      else
        Step(m.(state := CfgGlobal, rxNew := false), Ok, found, [ShortFrame(SWITCH_STATE_GLOBAL, 1)])
    else if m.command == SwitchState then
      var n := m.(rxNew := false);
      if m.rxNew && m.rx[0] == SEL_RESPONSE then Step(n.(command := Idle), Ok, found, [])
      else
        var (o, expired) := CheckTimeout(n, dt);
        if expired then Step(o.(state := MasterWaiting, command := Idle), Timeout, found, [])
        else Step(o, WaitSlave, found, [])
    else
      // a refused request also sends the master back to its waiting state
      Step(m.(state := MasterWaiting, command := Idle), InvalidState, found, [])
  }

  /** One call of the configure-node-ID command. */
  function ConfigureNodeId(m: Master, nid: byte, dt: uint16, found: Address): (r: Step) {
    if !NodeIdValid(nid) then Step(m, IllegalArgument, found, [])
    else if (m.state == CfgSelective || (m.state == CfgGlobal && nid == UNASSIGNED)) && m.command == Idle then
      Step(m.(command := CfgNodeId, timer := 0, rxNew := false), WaitSlave, found, [ShortFrame(CFG_NODE_ID, nid)])
    else if m.command == CfgNodeId then
      var n := m.(rxNew := false);
      if m.rxNew && m.rx[0] == CFG_NODE_ID then
        Step(n.(command := Idle),
             if m.rx[1] == 0 then Ok else if m.rx[1] == 0xFF then OkManufacturer else OkIllegalArgument, found, [])
      else
        var (o, expired) := CheckTimeout(n, dt);
        if expired then Step(o.(command := Idle), Timeout, found, []) else Step(o, WaitSlave, found, [])
    else Step(m, InvalidState, found, [])
  }

  // ------------------------------------------------------------ the master object

  /** Parameter validation: count the skipped parts, give up at the third. */
  method ValidatePlan(scan: ScanPlan) returns (ok: bool)
    ensures ok <==> Accepted(scan)
  {
    if scan[0] == Skip {
      return false;
    }
    var count := 0;
    for i := 0 to 4
      invariant count == SkipCount(scan[..i]) && count <= 2
    {
      assert scan[..i + 1][..i] == scan[..i];
      if scan[i] == Skip {
        count := count + 1;
      }
      if count > 2 {
        SkipCountMonotone(scan, i + 1);
        return false;
      }
    }
    assert scan[..4] == scan;
    return true;
  }

  lemma {:induction false} SkipCountMonotone(scan: seq<ScanType>, i: nat)
    requires i <= |scan|
    ensures SkipCount(scan[..i]) <= SkipCount(scan)
    decreases |scan| - i
  {
    if i < |scan| {
      assert scan[..i + 1][..i] == scan[..i];
      SkipCountMonotone(scan, i + 1);
    } else {
      assert scan[..i] == scan;
    }
  }

  /** The loop that looks for the next part to scan. */
  method FindNext(scan: ScanPlan, sub: Sub) returns (next: Sub)
    ensures next == SearchNext(scan, sub)
  {
    var i := sub + 1;
    while i <= 3
      invariant sub < i <= 4
      invariant i <= 3 ==> SearchNext(scan, sub) == SearchNext(scan, i - 1)
      invariant i == 4 ==> SearchNext(scan, sub) == 0
    {
      if scan[i] != Skip {
        return i;
      }
      i := i + 1;
    }
    return 0;
  }

  class Station {
    var timeout: uint16
    var state: MasterState
    var command: Command
    var timer: uint16
    var fsState: FsState
    var fsSub: Sub
    var fsBit: Bit
    var fsId: uint32
    var rxNew: bool
    var rx: Frame

    ghost function View(): (m: Master)
      reads this
    {
      Master(timeout, state, command, timer, fsState, fsSub, fsBit, fsId, rxNew, rx)
    }

    constructor (timeout_ms: uint16)
      ensures timeout == timeout_ms && state == MasterWaiting && command == Idle && timer == 0 && !rxNew
    {
      timeout := timeout_ms;
      state := MasterWaiting;
      command := Idle;
      timer := 0;
      rxNew := false;
      rx := ZERO_FRAME;
      fsState, fsSub, fsBit, fsId := Check, 0, 0, 0;
    }

    method OnReceive(dlc: nat, f: Frame)
      modifies this
      ensures View() == Receive(old(View()), dlc, f)
    {
      if dlc == 8 && !rxNew && command != Idle {
        rx := f;
        rxNew := true;
      }
    }

    method Tick(dt: uint16) returns (expired: bool)
      modifies this
      ensures (View(), expired) == CheckTimeout(old(View()), dt)
    {
      expired := false;
      timer := Add16(timer, dt);
      if timer >= timeout {
        timer := 0;
        expired := true;
      }
    }

    method SendFastscan(id: uint32, bit: byte, sub: byte, next: byte) returns (tx: seq<Frame>)
      modifies this
      ensures View() == old(View()).(timer := 0, rxNew := false)
      ensures tx == [FsFrame(id, bit, sub, next)]
    {
      timer := 0;
      rxNew := false;
      tx := [FsFrame(id, bit, sub, next)];
    }

    method ScanInitiate(args: FastscanArgs, sub: Sub) returns (tx: seq<Frame>)
      modifies this
      ensures (View(), tx) == FsScanInitiate(old(View()), args, sub)
    {
      fsSub := sub;
      fsId := 0;
      tx := [];
      if args.scan[sub] == Scan {
        fsBit := BIT31;
        tx := SendFastscan(fsId, fsBit, fsSub, fsSub);
      }
    }

    method VerifyInitiate(args: FastscanArgs) returns (ret: Return, tx: seq<Frame>)
      modifies this
      ensures forall found :: FsVerifyInitiate(old(View()), args, found) == Step(View(), ret, found, tx)
    {
      var next := FindNext(args.scan, fsSub);
      tx := [];
      if args.scan[fsSub] == Match {
        fsId := args.match_[fsSub];
      }
      if args.scan[fsSub] == Skip {
        command := Idle;
        ret := ScanFailed;
      } else {
        fsBit := BIT0;
        tx := SendFastscan(fsId, fsBit, fsSub, next);
        ret := WaitSlave;
      }
      fsState := Verify;
    }

    method ScanWait(args: FastscanArgs, dt: uint16) returns (ret: Return, tx: seq<Frame>)
      modifies this
      ensures forall found :: FsScanWait(old(View()), args, dt, found) == Step(View(), ret, found, tx)
    {
      tx := [];
      match args.scan[fsSub]
      case Match => ret, tx := VerifyInitiate(args);
      case Skip =>
        command := Idle;
        ret := ScanFailed;
      case Scan =>
        var expired := Tick(dt);
        if !expired {
          return WaitSlave, [];
        }
        if rxNew {
          rxNew := false;
          if rx[0] != IDENT_SLAVE {
            command := Idle;
            return ScanFailed, [];
          }
        } else {
          fsId := SetBit(fsId, fsBit);
        }
        if fsBit == BIT0 {
          ret, tx := VerifyInitiate(args);
        } else {
          fsBit := fsBit - 1;
          tx := SendFastscan(fsId, fsBit, fsSub, fsSub);
          ret := WaitSlave;
        }
    }

    method VerifyWait(args: FastscanArgs, dt: uint16, found: Address)
      returns (ret: Return, found': Address, tx: seq<Frame>)
      modifies this
      ensures Step(View(), ret, found', tx) == FsVerifyWait(old(View()), args, dt, found)
    {
      found' := found;
      if args.scan[fsSub] == Skip {
        command := Idle;
        return ScanFailed, found, [];
      }
      var expired := Tick(dt);
      if !expired {
        return WaitSlave, found, [];
      }
      found' := found[fsSub := 0];
      if !rxNew {
        command := Idle;
        return ScanNoAck, found', [];
      }
      rxNew := false;
      if rx[0] != IDENT_SLAVE {
        command := Idle;
        return ScanFailed, found', [];
      }
      found' := found[fsSub := fsId];
      var next := FindNext(args.scan, fsSub);
      if next == 0 {
        state := CfgSelective;
        command := Idle;
        return ScanFinished, found', [];
      }
      tx := ScanInitiate(args, next);
      fsState := Scanning;
      ret := WaitSlave;
    }

    method CheckWait(args: FastscanArgs, dt: uint16, found: Address)
      returns (ret: Return, found': Address, tx: seq<Frame>)
      modifies this
      ensures Step(View(), ret, found', tx) == FsCheckWait(old(View()), args, dt, found)
    {
      var expired := Tick(dt);
      if !expired {
        return WaitSlave, found, [];
      }
      if !rxNew {
        command := Idle;
        return ScanNoAck, found, [];
      }
      rxNew := false;
      if rx[0] != IDENT_SLAVE {
        command := Idle;
        return ScanNoAck, found, [];
      }
      tx := ScanInitiate(args, 0);
      fsState := Scanning;
      ret, found' := WaitSlave, ZERO_ADDRESS;
    }

    /** One call of the Fastscan command on the object. */
    method Fastscan(args: FastscanArgs, dt: uint16, found: Address)
      returns (ret: Return, found': Address, tx: seq<Frame>)
      modifies this
      ensures Step(View(), ret, found', tx) == IdentifyFastscan(old(View()), args, dt, found)
    {
      hide FsCheckWait, FsScanWait, FsVerifyWait, Accepted, ValueFrame;
      found', tx := found, [];
      var ok := ValidatePlan(args.scan);
      if !ok {
        return IllegalArgument, found, [];
      }
      if state != MasterWaiting || (command != Idle && command != Command.Fastscan) {
        return InvalidState, found, [];
      }
      if command == Idle {
        command := Command.Fastscan;
        fsState := Check;
        tx := SendFastscan(0, CONFIRM, 0, 0);
        return WaitSlave, found, tx;
      }
      match fsState
      case Check => ret, found', tx := CheckWait(args, dt, found);
      case Scanning => ret, tx := ScanWait(args, dt);
      case Verify => ret, found', tx := VerifyWait(args, dt, found);
    }

    method SwitchStateDeselect() returns (ret: Return, tx: seq<Frame>)
      modifies this
      ensures forall found :: Step(View(), ret, found, tx) == Deselect(old(View()), found)
    {
      state := MasterWaiting;
      command := Idle;
      timer := 0;
      rxNew := false;
      ret, tx := Ok, [ShortFrame(SWITCH_STATE_GLOBAL, 0)];
    }

    method SwitchStateSelect(a: Option<Address>, dt: uint16) returns (ret: Return, tx: seq<Frame>)
      modifies this
      ensures forall found :: Step(View(), ret, found, tx) == Select(old(View()), a, dt, found)
    {
      hide SelectFrames;
      ret, tx := InvalidState, [];
      if state == MasterWaiting && command == Idle {
        if a.Some? {
          state := CfgSelective;
          command := SwitchState;
          timer := 0;
          rxNew := false;
          tx := SelectFrames(a.value);
          ret := WaitSlave;
        } else {
          state := CfgGlobal;
          rxNew := false;
          tx := [ShortFrame(SWITCH_STATE_GLOBAL, 1)];
          ret := Ok;
        }
      } else if command == SwitchState {
        var confirmed := rxNew && rx[0] == SEL_RESPONSE;
        rxNew := false;
        if confirmed {
          ret := Ok;
        } else {
          var expired := Tick(dt);
          ret := if expired then Timeout else WaitSlave;
        }
      }
      if ret != InvalidState && ret != WaitSlave {
        command := Idle;
      }
      if ret == Timeout || ret == InvalidState {
        state := MasterWaiting;
        command := Idle;
      }
    }

    method ConfigureNode(nid: byte, dt: uint16) returns (ret: Return, tx: seq<Frame>)
      modifies this
      ensures forall found :: Step(View(), ret, found, tx) == ConfigureNodeId(old(View()), nid, dt, found)
    {
      ret, tx := InvalidState, [];
      if !NodeIdValid(nid) {
        return IllegalArgument, [];
      }
      if (state == CfgSelective || (state == CfgGlobal && nid == UNASSIGNED)) && command == Idle {
        command := CfgNodeId;
        timer := 0;
        rxNew := false;
        tx := [ShortFrame(CFG_NODE_ID, nid)];
        ret := WaitSlave;
      } else if command == CfgNodeId {
        var confirmed := rxNew && rx[0] == CFG_NODE_ID;
        rxNew := false;
        if confirmed {
          ret := if rx[1] == 0 then Ok else if rx[1] == 0xFF then OkManufacturer else OkIllegalArgument;
        } else {
          var expired := Tick(dt);
          ret := if expired then Timeout else WaitSlave;
        }
      }
      if ret != InvalidState && ret != WaitSlave {
        command := Idle;
      }
    }
  }
}
