/**
  The Object Dictionary of stack/CO_SDO.c: entries sorted by index, the search
  for one, and what a sub-index of an entry holds.
 */
module Od {
  import opened Can

  /** The attribute bits of an object. */
  datatype Access = Access(
    readable: bool, writeable: bool, rpdoMapable: bool, tpdoMapable: bool, detectCos: bool, multibyte: bool)

  /** Read and written by SDO, of no other use. */
  const OPEN := Access(true, true, false, false, false, false)

  datatype Member = Member(access: Access, data: Option<seq<byte>>)

  /** Missing data (a null pointer in the dictionary) marks a domain, which lives behind an OD function. */
  datatype Object =
    | Var(access: Access, data: Option<seq<byte>>)
    | Array(access: Access, count: byte, itemLength: uint16, items: Option<seq<seq<byte>>>)
    | Record(members: seq<Member>)

  datatype Entry = Entry(index: uint16, obj: Object, hasFunction: bool)

  type Dictionary = d: seq<Entry> | Valid(d) witness [Entry(0, Var(Access(true, false, false, false, false, false), Some([0])), false)]

  const NOT_FOUND: uint16 := 0xFFFF

  predicate ValidObject(o: Object) {
    match o
    case Var(_, d) => d.Some? ==> |d.value| < 0x1_0000
    case Array(_, count, length, items) =>
      count > 0 && (items.Some? ==> |items.value| == count && forall i :: 0 <= i < count ==> |items.value[i]| == length)
    case Record(members) =>
      2 <= |members| <= 256
      && forall i :: 0 <= i < |members| ==> (members[i].data.Some? ==> |members[i].data.value| < 0x1_0000)
  }

  predicate Sorted(od: seq<Entry>) {
    forall i, j :: 0 <= i < j < |od| ==> od[i].index < od[j].index
  }

  predicate Valid(od: seq<Entry>) {
    && 0 < |od| < 0x1_0000
    && Sorted(od)
    && forall i :: 0 <= i < |od| ==> ValidObject(od[i].obj)
  }

  // ------------------------------------------------------------------ the search

  /** The position of an index, 0xFFFF if there is none. */
  function Find(od: seq<Entry>, index: uint16): (e: uint16)
    requires |od| < 0x1_0000
    ensures e == NOT_FOUND || (e < |od| && od[e].index == index)
    ensures e == NOT_FOUND ==> forall i :: 0 <= i < |od| ==> od[i].index != index
    decreases |od|
  {
    if od == [] then NOT_FOUND
    else if od[|od| - 1].index == index then |od| - 1
    else Find(od[..|od| - 1], index)
  }

  lemma {:induction false} Pow2Grows(m: nat, n: nat)
    requires m < n
    ensures 2 * Pow2(m) <= Pow2(n)
    decreases n
  {
    if m < n - 1 {
      Pow2Grows(m, n - 1);
    }
  }

  /**
    The bisection. It answers position i if and only if entry i has the index,
    and 0xFFFF if and only if no entry has; a dictionary of up to 2^n entries
    takes at most n passes.
   */
  method FindEntry(od: Dictionary, index: uint16) returns (e: uint16, ghost passes: nat)
    ensures forall i :: 0 <= i < |od| ==> (e == i <==> od[i].index == index)
    ensures e == NOT_FOUND <==> forall i :: 0 <= i < |od| ==> od[i].index != index
    ensures e == Find(od, index)
    ensures forall n: nat :: |od| <= Pow2(n) ==> passes <= n
  {
    var min: uint16, max: uint16 := 0, |od| - 1;
    passes := 0;
    while min < max
      invariant max < |od| && min <= max + 1
      invariant min <= max ==> (max - min + 1) * Pow2(passes) <= |od|
      invariant Pow2(passes) <= |od|
      invariant forall i :: 0 <= i < |od| && od[i].index == index ==> min <= i <= max
    {
      var cur := (min + max) / 2;
      Halved(max - min + 1, Pow2(passes), if index < od[cur].index && cur > 0 then cur - min else max - cur, |od|);
      passes := passes + 1;
      if index == od[cur].index {
        e := cur;
        PassBound(passes, |od|);
        return;
      }
      if index < od[cur].index {
        max := cur;
        if max > 0 {
          max := max - 1;
        }
      } else {
        min := cur + 1;
      }
    }
    PassBound(passes, |od|);
    if min == max && index == od[min].index {
      e := min;
    } else {
      e := NOT_FOUND;
    }
  }

  /** Halving a range of r entries leaves at most r / 2. */
  lemma Halved(r: nat, p: nat, left: nat, size: nat)
    requires 2 <= r && r * p <= size && 2 * left <= r
    ensures left * (2 * p) <= size && 2 * p <= size
  {
    assert (2 * left) * p <= r * p;
    assert 2 * p <= r * p;
  }

  lemma PassBound(passes: nat, size: nat)
    requires Pow2(passes) <= size
    ensures forall n: nat :: size <= Pow2(n) ==> passes <= n
  {
    forall n: nat | size <= Pow2(n)
      ensures passes <= n
    {
      if n < passes {
        Pow2Grows(n, passes);
      }
    }
  }

  // ------------------------------------------------------------ what an entry holds

  function MaxSub(o: Object): (m: nat) {
    match o
    case Var(_, _) => 0
    case Array(_, count, _, _) => count
    case Record(members) => if members == [] then 0 else |members| - 1
  }

  /** The pointer in the entry itself is null. */
  predicate NoData(o: Object) {
    (o.Var? && o.data.None?) || (o.Array? && o.items.None?)
  }

  /** The sub-indexes a transfer can be started on. */
  predicate HasSub(o: Object, sub: byte) {
    sub <= MaxSub(o) || NoData(o)
  }

  /** The stored bytes of a sub-index, nothing for a domain. */
  function Storage(o: Object, sub: byte): (d: Option<seq<byte>>)
    requires ValidObject(o) && HasSub(o, sub)
  {
    match o
    case Var(_, data) => data
    case Array(_, count, _, items) =>
      if sub > count then None
      else if sub == 0 then Some([count])
      else if items.None? then None
      else Some(items.value[sub - 1])
    case Record(members) => members[sub].data
  }

  /** The length of a sub-index; a domain counts as one SDO buffer. */
  function Length(o: Object, sub: byte, bufferSize: uint16): (n: uint16)
    requires ValidObject(o) && HasSub(o, sub)
  {
    match o
    case Var(_, data) => if data.None? then bufferSize else |data.value|
    case Array(_, _, length, items) =>
      if sub == 0 then 1 else if items.None? then bufferSize else length
    case Record(members) => if members[sub].data.None? then bufferSize else |members[sub].data.value|
  }

  /** The attributes; sub-index 0 of an array is read-only, except that of the error history 0x1003. */
  function AccessOf(o: Object, index: uint16, sub: byte): (a: Access)
    requires ValidObject(o) && HasSub(o, sub)
  {
    match o
    case Var(a, _) => a
    case Array(a, _, _, _) =>
      if index == 0x1003 && sub == 0 then a.(writeable := true)
      else if sub == 0 then a.(writeable := false, rpdoMapable := false, readable := true)
      else a
    case Record(members) => members[sub].access
  }

  /** Overwrite the stored bytes of a sub-index. */
  function Put(o: Object, sub: byte, data: seq<byte>): (r: Object)
    requires ValidObject(o) && HasSub(o, sub)
    requires Storage(o, sub).Some? && |data| == |Storage(o, sub).value|
    requires o.Array? ==> sub > 0
  {
    match o
    case Var(_, _) => o.(data := Some(data))
    case Array(_, _, _, items) => o.(items := Some(items.value[sub - 1 := data]))
    case Record(members) => o.(members := members[sub := members[sub].(data := Some(data))])
  }

  /** A written sub-index reads back as written; every other one, and all lengths and attributes, stay. */
  lemma PutGet(o: Object, sub: byte, data: seq<byte>, k: byte, index: uint16, bufferSize: uint16)
    requires ValidObject(o) && HasSub(o, sub) && HasSub(o, k)
    requires Storage(o, sub).Some? && |data| == |Storage(o, sub).value| < 0x1_0000
    requires o.Array? ==> sub > 0
    ensures var r := Put(o, sub, data);
            && ValidObject(r) && HasSub(r, k)
            && Length(r, k, bufferSize) == Length(o, k, bufferSize)
            && AccessOf(r, index, k) == AccessOf(o, index, k)
            && Storage(r, k) == (if k == sub then Some(data) else Storage(o, k))
  {
  }

  // ------------------------------------------------------------- through positions

  /** Position e holds an object with sub-index sub. */
  predicate HasSlot(od: Dictionary, e: nat, sub: byte) {
    e < |od| && HasSub(od[e].obj, sub)
  }

  function Get(od: Dictionary, e: nat, sub: byte): (d: Option<seq<byte>>)
    requires HasSlot(od, e, sub)
  {
    Storage(od[e].obj, sub)
  }

  /** data fits the stored bytes, which are not the element count of an array. */
  predicate Fits(od: Dictionary, e: nat, sub: byte, data: seq<byte>) {
    && HasSlot(od, e, sub)
    && Get(od, e, sub).Some?
    && |data| == |Get(od, e, sub).value|
    && (od[e].obj.Array? ==> sub > 0)
  }

  /** Overwrite one stored sub-index. */
  function Set(od: Dictionary, e: nat, sub: byte, data: seq<byte>): (r: Dictionary)
    requires Fits(od, e, sub, data)
  {
    PutGet(od[e].obj, sub, data, sub, od[e].index, 0);
    od[e := od[e].(obj := Put(od[e].obj, sub, data))]
  }

  /** What a write changes: this sub-index of this entry and nothing else. */
  lemma SetGet(od: Dictionary, e: nat, sub: byte, data: seq<byte>, f: nat, k: byte)
    requires Fits(od, e, sub, data) && HasSlot(od, f, k)
    ensures var r := Set(od, e, sub, data);
            && HasSlot(r, f, k)
            && r[f].index == od[f].index && r[f].hasFunction == od[f].hasFunction
            && Get(r, f, k) == (if f == e && k == sub then Some(data) else Get(od, f, k))
  {
    if f == e {
      PutGet(od[e].obj, sub, data, k, od[e].index, 0);
    }
  }

  /** The search looks at the indexes only. */
  lemma SameFind(a: Dictionary, b: Dictionary, index: uint16)
    requires |a| == |b| && forall i :: 0 <= i < |a| ==> a[i].index == b[i].index
    ensures Find(a, index) == Find(b, index)
  {
    hide Find;
    var e, f := Find(a, index), Find(b, index);
    if e != NOT_FOUND && f != NOT_FOUND {
      assert a[e].index == a[f].index;
    }
  }
}
