/**
  The LSS slave of stack/CO_LSSslave.c, for a device whose application installed
  no bit-rate and no store callback: the specification of its message handlers
  on values, and the device object that runs them in place.
 */
module LssSlave {
  import opened Can
  import opened LssBits
  import opened LssTypes

  datatype SlaveState = Waiting | Configuration

  datatype Slave = Slave(
    address: Address,
    state: SlaveState,
    select: Address,
    fastscanPos: byte,
    pendingNodeId: byte,
    activeNodeId: byte)

  datatype Reaction = Reaction(slave: Slave, reply: Option<Frame>)

  /** Fastscan addresses only nodes that wait and have no node ID yet. */
  predicate Eligible(s: Slave) {
    s.state == Waiting && s.pendingNodeId == UNASSIGNED && s.activeNodeId == UNASSIGNED
  }

  function ServiceGlobal(s: Slave, f: Frame): (r: Reaction) {
    if f[1] == 0 then Reaction(s.(state := Waiting, select := ZERO_ADDRESS), None)
    else if f[1] == 1 then Reaction(s.(state := Configuration), None)
    else Reaction(s, None)
  }

  function ServiceSelective(s: Slave, f: Frame): (r: Reaction) {
    if s.state != Waiting then Reaction(s, None)
    else if f[0] == SEL_VENDOR then Reaction(s.(select := s.select[0 := Value(f)]), None)
    else if f[0] == SEL_PRODUCT then Reaction(s.(select := s.select[1 := Value(f)]), None)
    else if f[0] == SEL_REV then Reaction(s.(select := s.select[2 := Value(f)]), None)
    else if f[0] == SEL_SERIAL then
      var t := s.(select := s.select[3 := Value(f)]);
      if t.address == t.select then
        Reaction(t.(state := Configuration), Some(ShortFrame(SEL_RESPONSE, 0)))
      else
        Reaction(t, None)
    else Reaction(s, None)
  }

  function ServiceConfig(s: Slave, f: Frame): (r: Reaction) {
    if s.state != Configuration then Reaction(s, None)
    else if f[0] == CFG_NODE_ID then
      if NodeIdValid(f[1])
      then Reaction(s.(pendingNodeId := f[1]), Some(ShortFrame(CFG_NODE_ID, 0)))
      else Reaction(s, Some(ShortFrame(CFG_NODE_ID, 1)))
    else if f[0] == CFG_STORE then Reaction(s, Some(ShortFrame(CFG_STORE, 1)))
    else Reaction(s, None)
  }

  function ServiceInquire(s: Slave, f: Frame): (r: Reaction) {
    if s.state != Configuration then Reaction(s, None)
    else
      var v :=
        if f[0] == INQUIRE_VENDOR then s.address[0]
        else if f[0] == INQUIRE_PRODUCT then s.address[1]
        else if f[0] == INQUIRE_REV then s.address[2]
        else if f[0] == INQUIRE_SERIAL then s.address[3]
        else s.activeNodeId;
      Reaction(s, Some(ValueFrame(f[0], v, 0, 0, 0)))
  }

  /** The only answer a slave ever gives to Fastscan. */
  const ACK: Frame := ShortFrame(IDENT_SLAVE, 0)

  function ServiceIdent(s: Slave, f: Frame): (r: Reaction) {
    if !Eligible(s) || f[0] != IDENT_FASTSCAN then Reaction(s, None)
    else
      var bitCheck, lssSub, lssNext := f[5], f[6], f[7];
      if !((bitCheck <= BIT31 || bitCheck == CONFIRM) && lssSub <= 3 && lssNext <= 3) then
        Reaction(s, None)
      else if bitCheck == CONFIRM then
        Reaction(s.(fastscanPos := 0), Some(ACK))
      else if s.fastscanPos == lssSub && HighBits(s.address[lssSub], bitCheck) == HighBits(Value(f), bitCheck) then
        Reaction(s.(fastscanPos := lssNext,
                    state := if bitCheck == BIT0 && lssNext < lssSub then Configuration else s.state), Some(ACK))
      else
        Reaction(s, None)
  }

  /** What the slave does with a message of the LSS master. */
  function Receive(s: Slave, dlc: nat, f: Frame): (r: Reaction) {
    if dlc != 8 then Reaction(s, None)
    else if f[0] == SWITCH_STATE_GLOBAL then ServiceGlobal(s, f)
    else if SEL_VENDOR <= f[0] <= SEL_RESPONSE then ServiceSelective(s, f)
    else if CFG_NODE_ID <= f[0] <= CFG_STORE then ServiceConfig(s, f)
    else if INQUIRE_VENDOR <= f[0] <= INQUIRE_NODE_ID then ServiceInquire(s, f)
    else if f[0] == IDENT_SLAVE || f[0] == IDENT_FASTSCAN then ServiceIdent(s, f)
    else Reaction(s, None)
  }

  /** The slave object, updated in place by its receive callback. */
  class Device {
    var address: Address
    var state: SlaveState
    var select: Address
    var fastscanPos: byte
    var pendingNodeId: byte
    var activeNodeId: byte

    ghost function View(): (s: Slave)
      reads this
    {
      Slave(address, state, select, fastscanPos, pendingNodeId, activeNodeId)
    }

    /** A freshly initialised device waits, unselected, at the vendor ID; without a
        vendor ID, a serial number or a legal node ID it is refused and left alone. */
    method Init(lssAddress: Address, pending: byte) returns (ok: bool)
      modifies this
      ensures ok <==> NodeIdValid(pending) && lssAddress[0] != 0 && lssAddress[3] != 0
      ensures ok ==> View() == Slave(lssAddress, Waiting, ZERO_ADDRESS, 0, pending, UNASSIGNED)
      ensures !ok ==> View() == old(View())
    {
      ok := false;
      if !NodeIdValid(pending) {
        return;
      }
      if lssAddress[0] == 0 || lssAddress[3] == 0 {
        return;
      }
      address := lssAddress;
      state := Waiting;
      select := ZERO_ADDRESS;
      fastscanPos := 0;
      pendingNodeId := pending;
      activeNodeId := UNASSIGNED;
      ok := true;
    }

    method SwitchStateGlobal(f: Frame)
      modifies this
      ensures View() == ServiceGlobal(old(View()), f).slave
    {
      if f[1] == 0 {
        state := Waiting;
        select := ZERO_ADDRESS;
      } else if f[1] == 1 {
        state := Configuration;
      }
    }

    method SwitchStateSelective(f: Frame) returns (reply: Option<Frame>)
      modifies this
      ensures Reaction(View(), reply) == ServiceSelective(old(View()), f)
    {
      reply := None;
      if state != Waiting {
        return;
      }
      if f[0] == SEL_VENDOR {
        select := select[0 := Value(f)];
      } else if f[0] == SEL_PRODUCT {
        select := select[1 := Value(f)];
      } else if f[0] == SEL_REV {
        select := select[2 := Value(f)];
      } else if f[0] == SEL_SERIAL {
        select := select[3 := Value(f)];
        if address == select {
          state := Configuration;
          reply := Some(ShortFrame(SEL_RESPONSE, 0));
        }
      }
    }

    method Configure(f: Frame) returns (reply: Option<Frame>)
      modifies this
      ensures Reaction(View(), reply) == ServiceConfig(old(View()), f)
    {
      reply := None;
      if state != Configuration {
        return;
      }
      if f[0] == CFG_NODE_ID {
        var errorCode: byte := 0;
        if NodeIdValid(f[1]) {
          pendingNodeId := f[1];
        } else {
          errorCode := 1;
        }
        reply := Some(ShortFrame(CFG_NODE_ID, errorCode));
      } else if f[0] == CFG_STORE {
        reply := Some(ShortFrame(CFG_STORE, 1));
      }
    }

    method Identify(f: Frame) returns (reply: Option<Frame>)
      modifies this
      ensures Reaction(View(), reply) == ServiceIdent(old(View()), f)
    {
      reply := None;
      if state != Waiting || f[0] != IDENT_FASTSCAN {
        return;
      }
      if pendingNodeId != UNASSIGNED || activeNodeId != UNASSIGNED {
        return;
      }
      var bitCheck, lssSub, lssNext := f[5], f[6], f[7];
      if !((bitCheck <= BIT31 || bitCheck == CONFIRM) && lssSub <= 3 && lssNext <= 3) {
        return;
      }
      var ack := false;
      if bitCheck == CONFIRM {
        ack := true;
        fastscanPos := 0;
      } else if fastscanPos == lssSub {
        if HighBits(address[lssSub], bitCheck) == HighBits(Value(f), bitCheck) {
          ack := true;
          fastscanPos := lssNext;
          if bitCheck == BIT0 && lssNext < lssSub {
            state := Configuration;
          }
        }
      }
      if ack {
        reply := Some(ACK);
      }
    }

    /** The receive callback hands the message to the service its command specifier names. */
    method OnReceive(dlc: nat, f: Frame) returns (reply: Option<Frame>)
      modifies this
      ensures Reaction(View(), reply) == Receive(old(View()), dlc, f)
    {
      reply := None;
      if dlc == 8 {
        if f[0] == SWITCH_STATE_GLOBAL {
          SwitchStateGlobal(f);
        } else if SEL_VENDOR <= f[0] <= SEL_RESPONSE {
          reply := SwitchStateSelective(f);
        } else if CFG_NODE_ID <= f[0] <= CFG_STORE {
          reply := Configure(f);
        } else if INQUIRE_VENDOR <= f[0] <= INQUIRE_NODE_ID {
          reply := ServiceInquire(Slave(address, state, select, fastscanPos, pendingNodeId, activeNodeId), f).reply;
        } else if f[0] == IDENT_SLAVE || f[0] == IDENT_FASTSCAN {
          reply := Identify(f);
        }
      }
    }
  }
}
