/**
  Emergency messages of stack/CO_Emergency.c: the ring of ten messages with its
  overflow state, and the history of sent errors, against a bounded queue and
  a list with the newest first.
 */
module Emergency {
  import opened Can

  const CAPACITY: nat := 10
  const BUFFER_FULL: byte := 0x20
  const WRONG_REPORT: byte := 0x28
  const GENERIC: uint16 := 0x1000
  const SOFTWARE_INTERNAL: uint16 := 0x6100

  /** What the object stands for: a queue, the errors present, and the errors sent, newest first. */
  datatype Desk = Desk(
    queue: seq<Frame>, overflow: bool, status: set<byte>, statusBytes: nat, wrong: byte, register: byte,
    history: seq<uint32>, historySize: nat, inhibit: uint16)

  function Message(code: uint16, bit: byte, info: uint32): (m: Frame) {
    Le16(code) + [0, bit] + Le32(info)
  }

  /** A message joins the queue, or is dropped with the overflow noted. */
  function Enqueue(d: Desk, m: Frame): (r: Desk) {
    if |d.queue| < CAPACITY then d.(queue := d.queue + [m]) else d.(overflow := true)
  }

  function Report(d: Desk, bit: byte, code: uint16, info: uint32): (r: Desk) {
    if bit / 8 >= d.statusBytes then d.(wrong := bit)
    else if bit in d.status then d
    else Enqueue(d.(status := if bit != 0 then d.status + {bit} else d.status), Message(code, bit, info))
  }

  function Reset(d: Desk, bit: byte, info: uint32): (r: Desk) {
    if bit / 8 >= d.statusBytes then d.(wrong := bit)
    else if bit !in d.status then d
    else Enqueue(d.(status := d.status - {bit}), Message(0, bit, info))
  }

  /** Bits 0, 4 and 7 of the error register follow the groups of errors present. */
  function Register(was: byte, status: set<byte>): (r: byte) {
    var kept := was - was % 2 - 0x10 * (was / 0x10 % 2) - 0x80 * (was / 0x80);
    kept + (if AnyIn(status, 40, 48) then 1 else 0) + (if AnyIn(status, 16, 32) then 0x10 else 0)
    + (if AnyIn(status, 48, 0x100) then 0x80 else 0)
  }

  predicate AnyIn(status: set<byte>, lo: int, hi: int) {
    exists b :: b in status && lo <= b < hi
  }

  /** The error code, register and bit of a message: its first four bytes. */
  function Entry(m: Frame): (v: uint32) {
    FromLe32(m[0], m[1], m[2], m[3])
  }

  function Push(h: seq<uint32>, v: uint32, size: nat): (r: seq<uint32>)
    ensures |h| <= size && 0 < size ==> |r| == (if |h| < size then |h| + 1 else size)
  {
    var all := [v] + h;
    if |all| <= size then all else all[..size]
  }

  datatype Input = Input(operational: bool, txFull: bool, dt: uint16, inhibitTime: uint16)

  datatype Result = Result(d: Desk, sent: Option<Frame>)

  /** The part of a process call before sending: wrong reports, error register, inhibit time. */
  function Prepare(d: Desk, i: Input): (r: Desk) {
    var d1 := if d.wrong != 0 then Report(d, WRONG_REPORT, SOFTWARE_INTERNAL, d.wrong).(wrong := 0) else d;
    d1.(register := Register(d1.register, d1.status),
        inhibit := if d.inhibit < i.inhibitTime then Add16(d.inhibit, i.dt) else d.inhibit)
  }

  predicate MaySend(d: Desk, i: Input) {
    i.operational && !i.txFull && d.queue != [] && d.inhibit >= i.inhibitTime
  }

  /** Send the oldest message; the overflow bit is set if messages were dropped, cleared if not. */
  function SendOldest(d: Desk): (r: Result)
    requires d.queue != []
  {
    var m: Frame := d.queue[0][2 := d.register];
    var d1 := d.(queue := d.queue[1..], inhibit := 0, overflow := false);
    var d2 := if d.overflow then Report(d1, BUFFER_FULL, GENERIC, 0) else Reset(d1, BUFFER_FULL, 0);
    Result(d2.(history := Push(d.history, Entry(m), d.historySize)), Some(m))
  }

  function Process(d: Desk, i: Input): (r: Result) {
    var d1 := Prepare(d, i);
    if MaySend(d1, i) then SendOldest(d1) else Result(d1, None)
  }

  const AB_READONLY: uint32 := 0x0601_0002
  const AB_INVALID_VALUE: uint32 := 0x0609_0030
  const AB_NO_DATA: uint32 := 0x0800_0024

  /** The history read through object 0x1003: its length, then its entries; more is not there. */
  function ReadHistory(d: Desk, sub: byte): (r: Option<uint32>) {
    if sub == 0 then Some(|d.history| % 0x100)
    else if sub > |d.history| then None
    else Some(d.history[sub - 1])
  }

  /** Only zero may be written, to sub-index 0; it clears the history. */
  function WriteHistory(d: Desk, sub: byte, value: byte): (r: (Desk, uint32)) {
    if sub != 0 then (d, AB_READONLY)
    else if value != 0 then (d, AB_INVALID_VALUE)
    else (d.(history := []), 0)
  }

  // --------------------------------------------------------------------- the ring

  class EmergencyObject {
    const ring: array<Frame>
    var readAt: nat
    var writeAt: nat
    var full: nat
    var status: set<byte>
    const statusBytes: nat
    var wrong: byte
    var register: byte
    const field: array<uint32>
    var count: nat
    var inhibit: uint16

    ghost predicate Valid()
      reads this
    {
      && ring.Length == CAPACITY && readAt < CAPACITY && writeAt < CAPACITY && full <= 2
      && (full != 0 ==> readAt == writeAt)
      && 6 <= statusBytes && 0 < field.Length && count <= field.Length
    }

    /** The number of messages waiting. */
    ghost function Waiting(): (n: nat)
      requires Valid()
      reads this
    {
      if full != 0 then CAPACITY else if writeAt >= readAt then writeAt - readAt else writeAt + CAPACITY - readAt
    }

    ghost function Contents(): (q: seq<Frame>)
      requires Valid()
      reads this, ring
    {
      FromRing(ring[..], readAt, Waiting())
    }

    ghost function View(): (d: Desk)
      requires Valid()
      reads this, ring, field
    {
      Desk(Contents(), full == 2, status, statusBytes, wrong, register, field[..count], field.Length, inhibit)
    }

    constructor (statusBytes: nat, historySize: nat)
      requires 6 <= statusBytes && 0 < historySize
      ensures Valid() && View() == Desk([], false, {}, statusBytes, 0, 0, [], historySize, 0)
      ensures fresh(ring) && fresh(field)
    {
      this.statusBytes := statusBytes;
      ring := new Frame[CAPACITY](_ => ZERO_FRAME);
      field := new uint32[historySize](_ => 0);
      readAt, writeAt, full, status, wrong, register, count, inhibit := 0, 0, 0, {}, 0, 0, 0, 0;
    }

    /** Put a message at the write position, which wraps around; meeting the read position means full. */
    method Put(m: Frame)
      requires Valid()
      modifies this`writeAt, this`full, ring
      ensures Valid() && View() == Enqueue(old(View()), m)
    {
      if full != 0 {
        full := 2;
      } else {
        ghost var was := ring[..];
        ghost var n := Waiting();
        ring[writeAt] := m;
        RingAppend(was, readAt, n, m);
        writeAt := writeAt + 1;
        if writeAt == CAPACITY {
          writeAt := 0;
        }
        if writeAt == readAt {
          full := 1;
        }
        assert Waiting() == n + 1;
      }
    }

    method DoReport(bit: byte, code: uint16, info: uint32)
      requires Valid()
      modifies this, ring
      ensures Valid() && View() == Report(old(View()), bit, code, info)
    {
      hide Message;
      if bit / 8 >= statusBytes {
        wrong := bit;
      } else if bit !in status {
        if bit != 0 {
          status := status + {bit};
        }
        Put(Message(code, bit, info));
      }
    }

    method DoReset(bit: byte, info: uint32)
      requires Valid()
      modifies this, ring
      ensures Valid() && View() == Reset(old(View()), bit, info)
    {
      hide Message;
      if bit / 8 >= statusBytes {
        wrong := bit;
      } else if bit in status {
        status := status - {bit};
        Put(Message(0, bit, info));
      }
    }

    /** Take the message at the read position, which wraps around. */
    method Take() returns (m: Frame)
      requires Valid() && (full != 0 || readAt != writeAt)
      modifies this`readAt, this`full, this`inhibit
      ensures Valid() && old(View()).queue != []
      ensures m == old(View()).queue[0][2 := register]
      ensures View() == old(View()).(queue := old(View()).queue[1..], inhibit := 0, overflow := false)
    {
      ghost var n := Waiting();
      m := ring[readAt][2 := register];
      RingTail(ring[..], readAt, n);
      readAt := readAt + 1;
      if readAt == CAPACITY {
        readAt := 0;
      }
      inhibit := 0;
      full := 0;
      assert Waiting() == n - 1;
    }

    /** Shift the history down by one and put the newest entry in front. */
    method Remember(v: uint32)
      requires Valid()
      modifies this`count, field
      ensures Valid() && View() == old(View()).(history := Push(old(View()).history, v, field.Length))
    {
      ghost var was, n := field[..], count;
      if count < field.Length {
        count := count + 1;
      }
      ShiftDown(count);
      field[0] := v;
      assert field[..count] == Push(was[..n], v, field.Length);
    }

    /** The first m entries move down by one; the first place keeps a copy. */
    method ShiftDown(m: nat)
      requires 0 < m <= field.Length
      modifies field
      ensures forall k :: 0 < k < m ==> field[k] == old(field[k - 1])
      ensures forall k :: m <= k < field.Length ==> field[k] == old(field[k])
    {
      ghost var was := field[..];
      var i := m - 1;
      while i > 0
        invariant 0 <= i < m
        invariant forall k :: 0 <= k <= i ==> field[k] == was[k]
        invariant forall k :: i < k < m ==> field[k] == was[k - 1]
        invariant forall k :: m <= k < field.Length ==> field[k] == was[k]
      {
        field[i] := field[i - 1];
        i := i - 1;
      }
    }

    /** Access to object 0x1003 by SDO. */
    method DoWriteHistory(sub: byte, value: byte) returns (abort: uint32)
      requires Valid()
      modifies this`count
      ensures Valid() && (View(), abort) == WriteHistory(old(View()), sub, value)
    {
      if sub != 0 {
        abort := AB_READONLY;
      } else if value != 0 {
        abort := AB_INVALID_VALUE;
      } else {
        count := 0;
        abort := 0;
      }
    }

    method DoReadHistory(sub: byte) returns (value: uint32, abort: uint32)
      requires Valid()
      ensures ReadHistory(View(), sub) == (if abort == 0 then Some(value) else None) && (abort != 0 ==> abort == AB_NO_DATA)
    {
      if sub == 0 {
        value, abort := count % 0x100, 0;
      } else if sub > count {
        value, abort := 0, AB_NO_DATA;
      } else {
        value, abort := field[sub - 1], 0;
      }
    }

    /** One process call. */
    method DoProcess(i: Input) returns (sent: Option<Frame>)
      requires Valid()
      modifies this, ring, field
      ensures Valid() && Result(View(), sent) == Process(old(View()), i)
    {
      hide Report, Reset, Push, Register, Entry;
      DoPrepare(i);
      sent := None;
      if i.operational && !i.txFull && (readAt != writeAt || full != 0) && inhibit >= i.inhibitTime {
        sent := DoSend();
      }
    }

    method DoPrepare(i: Input)
      requires Valid()
      modifies this, ring
      ensures Valid() && View() == Prepare(old(View()), i)
    {
      hide Report, Register;
      ghost var d := View();
      if wrong != 0 {
        DoReport(WRONG_REPORT, SOFTWARE_INTERNAL, wrong);
        wrong := 0;
      }
      register := Register(register, status);
      ReportKeepsTimer(d, WRONG_REPORT, SOFTWARE_INTERNAL, d.wrong);
      if inhibit < i.inhibitTime {
        inhibit := Add16(inhibit, i.dt);
      }
    }

    method DoSend() returns (sent: Option<Frame>)
      requires Valid() && (full != 0 || readAt != writeAt)
      modifies this, ring, field
      ensures Valid() && old(View()).queue != [] && Result(View(), sent) == SendOldest(old(View()))
    {
      hide Report, Reset, Push, Entry;
      ghost var d := View();
      var overflowed := full == 2;
      var m := Take();
      if overflowed {
        DoReport(BUFFER_FULL, GENERIC, 0);
        ReportKeepsTimer(d.(queue := d.queue[1..], inhibit := 0, overflow := false), BUFFER_FULL, GENERIC, 0);
      } else {
        DoReset(BUFFER_FULL, 0);
        ResetKeepsHistory(d.(queue := d.queue[1..], inhibit := 0, overflow := false), BUFFER_FULL, 0);
      }
      Remember(Entry(m));
      sent := Some(m);
    }
  }

  lemma ReportKeepsTimer(d: Desk, bit: byte, code: uint16, info: uint32)
    ensures var r := Report(d, bit, code, info); r.inhibit == d.inhibit && r.history == d.history && r.historySize == d.historySize
  {
  }

  lemma ResetKeepsHistory(d: Desk, bit: byte, info: uint32)
    ensures var r := Reset(d, bit, info); r.inhibit == d.inhibit && r.history == d.history && r.historySize == d.historySize
  {
  }

  /** n messages from position r on, wrapping around. */
  function FromRing(ring: seq<Frame>, r: nat, n: nat): (q: seq<Frame>)
    requires |ring| == CAPACITY && r < CAPACITY && n <= CAPACITY
    ensures |q| == n && forall i :: 0 <= i < n ==> q[i] == ring[Wrap(r + i)]
  {
    seq(n, i requires 0 <= i < n => ring[Wrap(r + i)])
  }

  function Wrap(k: nat): (i: nat)
    requires k < 2 * CAPACITY
    ensures i < CAPACITY
  {
    if k < CAPACITY then k else k - CAPACITY
  }

  lemma RingAppend(ring: seq<Frame>, r: nat, n: nat, m: Frame)
    requires |ring| == CAPACITY && r < CAPACITY && n < CAPACITY
    ensures FromRing(ring[Wrap(r + n) := m], r, n + 1) == FromRing(ring, r, n) + [m]
  {
  }

  lemma RingTail(ring: seq<Frame>, r: nat, n: nat)
    requires |ring| == CAPACITY && r < CAPACITY && 0 < n <= CAPACITY
    ensures FromRing(ring, r, n)[1..] == FromRing(ring, Wrap(r + 1), n - 1) && FromRing(ring, r, n)[0] == ring[r]
  {
  }
}
