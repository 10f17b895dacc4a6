/** The SYNC, RPDO and TPDO objects with the fields their calls update in place. */
module PdoObjects {
  import opened Can
  import Pdo
  import opened PdoSync

  class SyncObject {
    var toggle: bool
    var rxNew: bool
    var counter: byte
    var timer: uint32
    var inWindow: bool
    var producer: bool
    var period: uint32
    var overflow: byte
    var receiveError: uint16

    ghost function View(): (y: Sync)
      reads this
    {
      Sync(toggle, rxNew, counter, timer, inWindow, producer, period, overflow, receiveError)
    }

    method Receive(dlc: byte, b: byte, active: bool)
      modifies this
      ensures View() == SyncReceive(old(View()), dlc, b, active)
    {
      if active {
        if overflow == 0 {
          if dlc == 0 {
            rxNew := true;
          } else {
            receiveError := 0x100 + dlc;
          }
        } else {
          if dlc == 1 {
            counter := b;
            rxNew := true;
          } else {
            receiveError := 0x200 + dlc;
          }
        }
        if rxNew {
          toggle := !toggle;
        }
      }
    }

    method Process(dt: uint32, window: uint32, active: bool) returns (ret: int, sent: Option<byte>)
      modifies this
      ensures SyncResult(View(), ret, sent) == SyncProcess(old(View()), dt, window, active)
    {
      ret, sent := 0, None;
      if active {
        var timerNew := (timer + dt) % 0x1_0000_0000;
        if timerNew > timer {
          timer := timerNew;
        }
        if rxNew {
          timer := 0;
          ret := 1;
          rxNew := false;
        }
        if producer && period != 0 && timer >= period {
          counter := NextCounter(counter, overflow);
          timer := 0;
          ret := 1;
          toggle := !toggle;
          sent := Some(counter);
        }
        if window != 0 && timer > window {
          if inWindow {
            ret := 2;
          }
          inWindow := false;
        } else {
          inWindow := true;
        }
      } else {
        rxNew := false;
      }
      receiveError := 0;
    }
  }

  class RpdoObject {
    var data0: Frame
    var data1: Frame
    var new0: bool
    var new1: bool

    ghost function View(): (r: Rpdo)
      reads this
    {
      Rpdo(data0, data1, new0, new1)
    }

    method Receive(f: Frame, accepts: bool, synchronous: bool, toggle: bool)
      modifies this
      ensures View() == RpdoReceive(old(View()), f, accepts, synchronous, toggle)
    {
      if accepts {
        if synchronous && toggle {
          data1 := f;
          new1 := true;
        } else {
          data0 := f;
          new0 := true;
        }
      }
    }

    /** The new frame of the relevant buffer goes to the mapped objects. */
    method Process(n: Pdo.Node, locs: seq<Pdo.Loc>, on: bool, synchronous: bool, toggle: bool, syncWas: bool)
      returns (r: Pdo.Node)
      requires Pdo.AllWritable(n, locs) && |locs| <= 8
      modifies this
      ensures var q := RpdoProcess(old(View()), on, synchronous, toggle, syncWas);
              && View() == q.r
              && r == (if q.copied.Some? then Pdo.Scatter(n, locs, q.copied.value[..|locs|]) else n)
    {
      r := n;
      if !on {
        new0 := false;
        new1 := false;
      } else if !synchronous || syncWas {
        if synchronous && !toggle {
          if new1 {
            new1 := false;
            r := Pdo.Store(n, locs, data1);
          }
        } else if new0 {
          new0 := false;
          r := Pdo.Store(n, locs, data0);
        }
      }
    }
  }

  class TpdoObject {
    var sendRequest: bool
    var syncCounter: byte
    var inhibit: uint32
    var event: uint32

    ghost function View(): (t: Tpdo)
      reads this
    {
      Tpdo(sendRequest, syncCounter, inhibit, event)
    }

    method Process(p: Par, i: TpdoInput) returns (sent: bool)
      modifies this
      ensures TpdoResult(View(), sent) == TpdoProcess(old(View()), p, i)
    {
      sent := false;
      if i.on {
        if p.kind >= 253 {
          if inhibit == 0 && (sendRequest || (p.eventTimer != 0 && event == 0)) {
            sent := true;
            sendRequest := false;
            if i.accepted {
              inhibit := p.inhibitTime * 100;
              event := p.eventTimer * 1000;
            }
          }
        } else if i.syncWas {
          if p.kind == 0 {
            sent := sendRequest;
            sendRequest := false;
          } else {
            sent := Cycle(p, i);
          }
        }
      } else {
        sendRequest := p.kind >= 254;
      }
      inhibit := if inhibit > i.dt then inhibit - i.dt else 0;
      event := if event > i.dt then event - i.dt else 0;
    }

    method Cycle(p: Par, i: TpdoInput) returns (sent: bool)
      requires 0 < p.kind
      modifies this
      ensures TpdoResult(View(), sent) == CyclicTpdo(old(View()), p, i)
    {
      sent := false;
      if syncCounter == 255 {
        syncCounter := if i.overflow != 0 && p.syncStart != 0 then 254 else p.kind;
      }
      if syncCounter == 254 {
        if i.counter == p.syncStart {
          syncCounter := p.kind;
          sent := true;
        }
      } else {
        syncCounter := (syncCounter - 1) % 0x100;
        if syncCounter == 0 {
          syncCounter := p.kind;
          sent := true;
        }
      }
      if sent {
        sendRequest := false;
      }
    }
  }
}
