/**
  PDO mapping of stack/CO_PDO.c: a list of mapping entries is compiled into a
  table that names, for every byte of the frame, a byte of the Object
  Dictionary. Frames are packed, unpacked and compared through that table.
 */
module Pdo {
  import opened Can
  import Od

  const AB_NO_MAP: uint32 := 0x0604_0041
  const AB_MAP_LEN: uint32 := 0x0604_0042
  const AB_NOT_EXIST: uint32 := 0x0602_0000

  /** A byte of the dictionary, or of the scratch variable behind the dummy entries. */
  datatype Loc = Cell(entry: nat, sub: byte, pos: nat) | Dummy(pos: nat)

  /** The node: dictionary, byte order, and the size a domain counts for. */
  datatype Node = Node(od: Od.Dictionary, bigEndian: bool, domainSize: uint16)

  /** One mapping entry: an object and the number of bits taken from it. */
  datatype Map = Map(index: uint16, sub: byte, bits: byte)

  datatype Target = Target(locs: seq<Loc>, cos: bool) | Refused(code: uint32)

  /** A byte table with the bytes whose change is to be reported. */
  datatype Layout = Layout(locs: seq<Loc>, cos: seq<bool>) | Failed(code: uint32)

  /** A mapping parameter: index, sub-index and bit length from the highest byte down. */
  function DecodeMap(m: uint32): (r: Map) {
    Map(m / 0x1_0000, m / 0x100 % 0x100, m % 0x100)
  }

  function DecodeMaps(raw: seq<uint32>): (maps: seq<Map>)
    ensures |maps| == |raw| && forall i :: 0 <= i < |raw| ==> maps[i] == DecodeMap(raw[i])
  {
    seq(|raw|, i requires 0 <= i < |raw| => DecodeMap(raw[i]))
  }

  function DummySize(index: uint16): (n: nat) {
    if index < 2 then 0 else if index == 2 || index == 5 then 1 else if index == 3 || index == 6 then 2 else 4
  }

  /** Objects that may be mapped are not domains. */
  predicate Mappable(n: Node) {
    forall e, sub: byte :: 0 <= e < |n.od| && sub <= Od.MaxSub(n.od[e].obj) && MapAccess(n, e, sub) ==>
      Od.Storage(n.od[e].obj, sub).Some?
  }

  predicate MapAccess(n: Node, e: int, sub: byte)
    requires 0 <= e < |n.od| && sub <= Od.MaxSub(n.od[e].obj)
  {
    var a := Od.AccessOf(n.od[e].obj, n.od[e].index, sub);
    a.rpdoMapable || a.tpdoMapable
  }

  /** The bytes of an object in frame order: a multibyte value of a big-endian node starts with its last byte. */
  function ObjectLocs(entry: nat, sub: byte, size: nat, n: nat, reversed: bool): (r: seq<Loc>)
    requires n <= size
    ensures |r| == n
  {
    seq(n, j requires 0 <= j < n => Cell(entry, sub, if reversed then size - 1 - j else j))
  }

  function DummyLocs(n: nat): (r: seq<Loc>)
    ensures |r| == n
  {
    seq(n, j requires 0 <= j < n => Dummy(j))
  }

  /** Where a mapping entry leads, with `length` bytes mapped before it. */
  function FindMap(n: Node, m: Map, length: nat, tx: bool): (r: Target)
    ensures r.Target? ==> m.bits % 8 == 0 && |r.locs| == m.bits / 8 && length + m.bits / 8 <= 8
    ensures r.Refused? ==> r.code != 0
  {
    var size := m.bits / 8;
    if m.bits % 8 != 0 then Refused(AB_NO_MAP)
    else if length + size > 8 then Refused(AB_MAP_LEN)
    else if m.index <= 7 && m.sub == 0 then
      if DummySize(m.index) < size then Refused(AB_NO_MAP) else Target(DummyLocs(size), false)
    else
      var e := Od.Find(n.od, m.index);
      if e == Od.NOT_FOUND || m.sub > Od.MaxSub(n.od[e].obj) then Refused(AB_NOT_EXIST)
      else
        var o := n.od[e].obj;
        var a := Od.AccessOf(o, m.index, m.sub);
        var have := Od.Length(o, m.sub, n.domainSize) % 0x100;
        if !tx && !(a.rpdoMapable && a.writeable) then Refused(AB_NO_MAP)
        else if tx && !(a.tpdoMapable && a.readable) then Refused(AB_NO_MAP)
        else if have < size then Refused(AB_NO_MAP)
        else Target(ObjectLocs(e, m.sub, have, size, n.bigEndian && a.multibyte), a.detectCos)
  }

  /** The table of a mapping list: each entry's bytes behind those of the entries before it. */
  function Compile(n: Node, maps: seq<Map>, tx: bool): (r: Layout)
    ensures r.Layout? ==> |r.locs| == |r.cos| && |r.locs| <= 8
    decreases |maps|
  {
    if maps == [] then Layout([], [])
    else
      var p := Compile(n, maps[..|maps| - 1], tx);
      if p.Failed? then p
      else
        var t := FindMap(n, maps[|maps| - 1], |p.locs|, tx);
        if t.Refused? then Failed(t.code) else Layout(p.locs + t.locs, p.cos + seq(|t.locs|, _ => t.cos))
  }

  /** Compile the mapping parameters entry by entry into the tables; a refused entry ends it with length zero. */
  method ConfigMap(n: Node, raw: seq<uint32>, tx: bool) returns (locs: seq<Loc>, cos: seq<bool>, code: uint32)
    ensures Compile(n, DecodeMaps(raw), tx) == (if code == 0 then Layout(locs, cos) else Failed(code))
    ensures code != 0 ==> locs == []
  {
    hide FindMap, DecodeMap;
    ghost var maps := DecodeMaps(raw);
    locs, cos, code := [], [], 0;
    var i := 0;
    while i < |raw|
      invariant 0 <= i <= |raw|
      invariant Compile(n, maps[..i], tx) == Layout(locs, cos)
    {
      var t := FindMap(n, DecodeMap(raw[i]), |locs|, tx);
      assert maps[..i + 1][..i] == maps[..i];
      if t.Refused? {
        CompileStops(n, maps, i + 1, tx);
        return [], cos, t.code;
      }
      locs, cos := Enter(locs, cos, t.locs, t.cos);
      i := i + 1;
    }
    assert maps[..i] == maps;
  }

  /** The bytes of one entry are entered one by one. */
  method Enter(locs0: seq<Loc>, cos0: seq<bool>, more: seq<Loc>, flag: bool) returns (locs: seq<Loc>, cos: seq<bool>)
    ensures locs == locs0 + more && cos == cos0 + seq(|more|, _ => flag)
  {
    locs, cos := locs0, cos0;
    var j := 0;
    while j < |more|
      invariant 0 <= j <= |more|
      invariant locs == locs0 + more[..j] && cos == cos0 + seq(j, _ => flag)
    {
      locs := locs + [more[j]];
      cos := cos + [flag];
      j := j + 1;
    }
    assert more[..j] == more;
  }

  lemma {:induction false} CompileStops(n: Node, maps: seq<Map>, i: nat, tx: bool)
    requires i <= |maps| && Compile(n, maps[..i], tx).Failed?
    ensures Compile(n, maps, tx) == Compile(n, maps[..i], tx)
    decreases |maps| - i
  {
    if i == |maps| {
      assert maps[..i] == maps;
    } else {
      assert maps[..i + 1][..i] == maps[..i];
      CompileStops(n, maps, i + 1, tx);
    }
  }

  // ------------------------------------------------------------------ one byte

  /** The location names a stored byte. */
  predicate Exists(n: Node, l: Loc) {
    l.Cell? ==>
      && Od.HasSlot(n.od, l.entry, l.sub) && Od.Get(n.od, l.entry, l.sub).Some?
      && l.pos < |Od.Get(n.od, l.entry, l.sub).value|
  }

  /** The byte at a location; the dummy of a TPDO is zero. */
  function ByteAt(n: Node, l: Loc): (b: byte)
    requires Exists(n, l)
  {
    if l.Dummy? then 0 else Od.Get(n.od, l.entry, l.sub).value[l.pos]
  }

  /** The location may be written: not the element count of an array. */
  predicate Writable(n: Node, l: Loc) {
    Exists(n, l) && (l.Cell? && n.od[l.entry].obj.Array? ==> l.sub > 0)
  }

  function SetByte(n: Node, l: Loc, b: byte): (r: Node)
    requires Writable(n, l)
  {
    if l.Dummy? then n
    else n.(od := Od.Set(n.od, l.entry, l.sub, Od.Get(n.od, l.entry, l.sub).value[l.pos := b]))
  }

  /** Writing one byte changes that byte and no other. */
  lemma SetByteEffect(n: Node, l: Loc, b: byte, k: Loc)
    requires Writable(n, l) && Exists(n, k)
    ensures var r := SetByte(n, l, b);
            && Exists(r, k) && (Writable(n, k) ==> Writable(r, k))
            && ByteAt(r, k) == (if l.Cell? && k == l then b else ByteAt(n, k))
  {
    if l.Cell? && k.Cell? {
      Od.SetGet(n.od, l.entry, l.sub, Od.Get(n.od, l.entry, l.sub).value[l.pos := b], k.entry, k.sub);
    }
  }

  // ------------------------------------------------------------ packing, unpacking

  predicate AllExist(n: Node, locs: seq<Loc>) {
    forall i :: 0 <= i < |locs| ==> Exists(n, locs[i])
  }

  predicate AllWritable(n: Node, locs: seq<Loc>) {
    forall i :: 0 <= i < |locs| ==> Writable(n, locs[i])
  }

  /** The bytes a table names. */
  function Image(n: Node, locs: seq<Loc>): (d: seq<byte>)
    requires AllExist(n, locs)
    ensures |d| == |locs| && forall i :: 0 <= i < |d| ==> d[i] == ByteAt(n, locs[i])
  {
    seq(|locs|, i requires 0 <= i < |locs| => ByteAt(n, locs[i]))
  }

  /** The node after the bytes of d went, in order, where the table says. */
  function Scatter(n: Node, locs: seq<Loc>, d: seq<byte>): (r: Node)
    requires AllWritable(n, locs) && |d| == |locs|
    decreases |locs|
  {
    if locs == [] then n
    else
      SetByteKeeps(n, locs[0], d[0], locs);
      Scatter(SetByte(n, locs[0], d[0]), locs[1..], d[1..])
  }

  lemma SetByteKeeps(n: Node, l: Loc, b: byte, locs: seq<Loc>)
    requires Writable(n, l) && AllWritable(n, locs)
    ensures AllWritable(SetByte(n, l, b), locs)
  {
    hide Exists, Writable, SetByte;
    forall i | 0 <= i < |locs|
      ensures Writable(SetByte(n, l, b), locs[i])
    {
      WritableExists(n, locs[i]);
      SetByteEffect(n, l, b, locs[i]);
    }
  }

  lemma WritableExists(n: Node, l: Loc)
    requires Writable(n, l)
    ensures Exists(n, l)
  {
  }

  predicate Distinct(locs: seq<Loc>) {
    forall i, j :: 0 <= i < j < |locs| && locs[i].Cell? ==> locs[i] != locs[j]
  }

  /** Every cell named once holds its byte; every cell not named keeps its value. */
  lemma {:induction false} ScatterGather(n: Node, locs: seq<Loc>, d: seq<byte>, k: Loc)
    requires AllWritable(n, locs) && |d| == |locs| && Distinct(locs) && Exists(n, k)
    ensures var r := Scatter(n, locs, d);
            && Exists(r, k) && (k !in locs || k.Dummy? ==> ByteAt(r, k) == ByteAt(n, k))
            && (k.Cell? ==> forall i :: 0 <= i < |locs| && locs[i] == k ==> ByteAt(r, k) == d[i])
    decreases |locs|
  {
    hide Exists, Writable, SetByte, ByteAt;
    if locs != [] {
      var n1 := SetByte(n, locs[0], d[0]);
      SetByteKeeps(n, locs[0], d[0], locs);
      SetByteEffect(n, locs[0], d[0], k);
      assert Distinct(locs[1..]);
      ScatterGather(n1, locs[1..], d[1..], k);
      assert forall i :: 0 < i < |locs| ==> locs[i] == locs[1..][i - 1] && d[i] == d[1..][i - 1];
    }
  }

  /** CO_TPDOsend: the mapped bytes are copied into the frame one by one. */
  method Send(n: Node, locs: seq<Loc>, last: Frame) returns (f: Frame)
    requires AllExist(n, locs) && |locs| <= 8
    ensures f == Image(n, locs) + last[|locs|..]
  {
    hide Exists, ByteAt;
    f := last;
    var i := 0;
    while i < |locs|
      invariant 0 <= i <= |locs|
      invariant forall j :: 0 <= j < i ==> f[j] == ByteAt(n, locs[j])
      invariant forall j :: i <= j < 8 ==> f[j] == last[j]
    {
      f := f[i := ByteAt(n, locs[i])];
      i := i + 1;
    }
    assert f == Image(n, locs) + last[|locs|..];
  }

  /** CO_RPDO_process: the bytes of the frame are copied to the mapped objects one by one. */
  method Store(n: Node, locs: seq<Loc>, f: Frame) returns (r: Node)
    requires AllWritable(n, locs) && |locs| <= 8
    ensures r == Scatter(n, locs, f[..|locs|])
  {
    hide Exists, Writable, SetByte, ByteAt;
    r := n;
    var i := 0;
    while i < |locs|
      invariant 0 <= i <= |locs|
      invariant AllWritable(r, locs)
      invariant Scatter(r, locs[i..], f[i..|locs|]) == Scatter(n, locs, f[..|locs|])
    {
      assert locs[i..][1..] == locs[i + 1..] && f[i..|locs|][1..] == f[i + 1..|locs|];
      SetByteKeeps(r, locs[i], f[i], locs);
      r := SetByte(r, locs[i], f[i]);
      i := i + 1;
    }
  }

  // ------------------------------------------------------------ what a table means

  /** The number of bytes in front of entry k. */
  function Offset(maps: seq<Map>, k: nat): (n: nat)
    requires k <= |maps|
  {
    if k == 0 then 0 else Offset(maps, k - 1) + maps[k - 1].bits / 8
  }

  lemma {:induction false} OffsetPrefix(maps: seq<Map>, i: nat, k: nat)
    requires k <= i <= |maps|
    ensures Offset(maps[..i], k) == Offset(maps, k)
  {
    if k > 0 {
      OffsetPrefix(maps, i, k - 1);
    }
  }

  lemma {:induction false} TableLength(n: Node, maps: seq<Map>, tx: bool)
    requires Compile(n, maps, tx).Layout?
    ensures |Compile(n, maps, tx).locs| == Offset(maps, |maps|)
    decreases |maps|
  {
    hide FindMap;
    if maps != [] {
      TableLength(n, maps[..|maps| - 1], tx);
      OffsetPrefix(maps, |maps| - 1, |maps| - 1);
    }
  }

  /** The bytes of entry k are a stretch of the table. */
  predicate IsSlice(n: Node, maps: seq<Map>, tx: bool, k: nat, r: Layout)
    requires k < |maps| && r.Layout? && |r.locs| == |r.cos|
  {
    var a := Offset(maps, k);
    var t := FindMap(n, maps[k], a, tx);
    && t.Target? && a + |t.locs| == Offset(maps, k + 1) <= |r.locs|
    && r.locs[a..a + |t.locs|] == t.locs
    && forall j :: a <= j < a + |t.locs| ==> r.cos[j] == t.cos
  }

  /** A longer table keeps the stretches of a shorter one. */
  lemma SliceExtends(n: Node, maps: seq<Map>, tx: bool, k: nat, p: Layout, r: Layout)
    requires k < |maps| - 1 && p.Layout? && r.Layout? && |p.locs| == |p.cos| && |r.locs| == |r.cos|
    requires IsSlice(n, maps[..|maps| - 1], tx, k, p)
    requires |p.locs| <= |r.locs| && r.locs[..|p.locs|] == p.locs && r.cos[..|p.cos|] == p.cos
    ensures IsSlice(n, maps, tx, k, r)
  {
    hide FindMap, Offset;
    OffsetPrefix(maps, |maps| - 1, k);
    OffsetPrefix(maps, |maps| - 1, k + 1);
    var a := Offset(maps, k);
    var t := FindMap(n, maps[k], a, tx);
    StretchOf(r.locs, |p.locs|, a, a + |t.locs|);
    assert forall j :: a <= j < a + |t.locs| ==> r.cos[j] == r.cos[..|p.cos|][j];
  }

  lemma StretchOf(s: seq<Loc>, m: nat, a: nat, b: nat)
    requires a <= b <= m <= |s|
    ensures s[a..b] == s[..m][a..b]
  {
  }

  lemma {:induction false} Slice(n: Node, maps: seq<Map>, tx: bool, k: nat)
    requires Compile(n, maps, tx).Layout? && k < |maps|
    ensures IsSlice(n, maps, tx, k, Compile(n, maps, tx))
    decreases |maps|
  {
    hide FindMap;
    var init := maps[..|maps| - 1];
    var p, r := Compile(n, init, tx), Compile(n, maps, tx);
    if k < |maps| - 1 {
      hide Offset, IsSlice;
      Slice(n, init, tx, k);
      SliceExtends(n, maps, tx, k, p, r);
    } else {
      LastSlice(n, maps, tx);
    }
  }

  lemma LastSlice(n: Node, maps: seq<Map>, tx: bool)
    requires maps != [] && Compile(n, maps, tx).Layout?
    ensures IsSlice(n, maps, tx, |maps| - 1, Compile(n, maps, tx))
  {
    hide FindMap, Compile, Offset;
    var k := |maps| - 1;
    CompileLast(n, maps, tx);
    TableLength(n, maps[..k], tx);
    OffsetPrefix(maps, k, k);
    OffsetNext(maps, k);
    var p := Compile(n, maps[..k], tx);
    var t := FindMap(n, maps[k], |p.locs|, tx);
    Appended(p.locs, t.locs, p.cos, t.cos, Compile(n, maps, tx).cos);
  }

  lemma CompileLast(n: Node, maps: seq<Map>, tx: bool)
    requires maps != [] && Compile(n, maps, tx).Layout?
    ensures var p, r := Compile(n, maps[..|maps| - 1], tx), Compile(n, maps, tx);
            && p.Layout?
            && var t := FindMap(n, maps[|maps| - 1], |p.locs|, tx);
               t.Target? && r.locs == p.locs + t.locs && r.cos == p.cos + seq(|t.locs|, _ => t.cos)
  {
    hide FindMap;
  }

  lemma OffsetNext(maps: seq<Map>, k: nat)
    requires k < |maps|
    ensures Offset(maps, k + 1) == Offset(maps, k) + maps[k].bits / 8
  {
  }

  lemma Appended(p: seq<Loc>, q: seq<Loc>, c: seq<bool>, flag: bool, r: seq<bool>)
    requires |p| == |c| && r == c + seq(|q|, _ => flag)
    ensures (p + q)[|p|..|p| + |q|] == q
    ensures forall j :: |p| <= j < |p| + |q| ==> r[j] == flag
  {
  }

  /** Every accepted mapping list totals at most eight bytes, and only bytes of whole entries. */
  lemma AcceptedLength(n: Node, maps: seq<Map>, tx: bool)
    requires Compile(n, maps, tx).Layout?
    ensures |Compile(n, maps, tx).locs| == Offset(maps, |maps|) <= 8
    ensures forall k :: 0 <= k < |maps| ==> maps[k].bits % 8 == 0
  {
    hide FindMap, Offset;
    forall k | 0 <= k < |maps|
      ensures maps[k].bits % 8 == 0
    {
      Slice(n, maps, tx, k);
    }
    TableLength(n, maps, tx);
  }

  predicate IsDummy(m: Map) {
    m.index <= 7 && m.sub == 0
  }

  predicate ShortValue(n: Node, e: int, sub: byte)
    requires 0 <= e < |n.od| && sub <= Od.MaxSub(n.od[e].obj)
  {
    n.bigEndian && Od.AccessOf(n.od[e].obj, n.od[e].index, sub).multibyte ==> Od.Length(n.od[e].obj, sub, n.domainSize) < 0x100
  }

  /** Where bytes are reversed, values are short enough for the one-byte length the mapping works with. */
  predicate ShortValues(n: Node) {
    forall e, sub: byte :: 0 <= e < |n.od| && sub <= Od.MaxSub(n.od[e].obj) ==> ShortValue(n, e, sub)
  }

  /** The stored value of a mapped object, least significant byte first, or the zeros of a dummy. */
  function Value(n: Node, m: Map): (d: seq<byte>) {
    var e := Od.Find(n.od, m.index);
    if IsDummy(m) then seq(m.bits / 8, _ => 0)
    else if e == Od.NOT_FOUND || !Od.HasSlot(n.od, e, m.sub) || Od.Get(n.od, e, m.sub).None? then []
    else
      var v := Od.Get(n.od, e, m.sub).value;
      var w := if n.bigEndian && Od.AccessOf(n.od[e].obj, m.index, m.sub).multibyte
               then seq(|v|, i requires 0 <= i < |v| => v[|v| - 1 - i]) else v;
      if m.bits / 8 <= |w| then w[..m.bits / 8] else w
  }

  /** An accepted entry leads to the low bytes of its object's value. */
  lemma TargetMeans(n: Node, m: Map, length: nat, tx: bool)
    requires FindMap(n, m, length, tx).Target? && Mappable(n) && ShortValues(n)
    ensures var t := FindMap(n, m, length, tx);
            AllExist(n, t.locs) && Image(n, t.locs) == Value(n, m) && |Value(n, m)| == m.bits / 8
  {
    var t := FindMap(n, m, length, tx);
    if !IsDummy(m) {
      var e := Od.Find(n.od, m.index);
      assert MapAccess(n, e, m.sub) && ShortValue(n, e, m.sub);
      var v := Od.Get(n.od, e, m.sub).value;
      assert |v| == Od.Length(n.od[e].obj, m.sub, n.domainSize);
    }
  }

  /** The TPDO frame is the concatenation of the mapped values: entry k stands at its offset. */
  lemma FrameIsValues(n: Node, maps: seq<Map>, tx: bool, k: nat)
    requires Compile(n, maps, tx).Layout? && Mappable(n) && ShortValues(n) && k < |maps|
    ensures AllExist(n, Compile(n, maps, tx).locs)
    ensures Offset(maps, k) <= Offset(maps, k + 1) <= |Compile(n, maps, tx).locs| == Offset(maps, |maps|)
    ensures Image(n, Compile(n, maps, tx).locs)[Offset(maps, k)..Offset(maps, k + 1)] == Value(n, maps[k])
  {
    hide FindMap, Mappable, ShortValues, Exists, ByteAt, Value;
    TableExists(n, maps, tx);
    TableLength(n, maps, tx);
    Slice(n, maps, tx, k);
    TargetMeans(n, maps[k], Offset(maps, k), tx);
    var r := Compile(n, maps, tx);
    var a, t := Offset(maps, k), FindMap(n, maps[k], Offset(maps, k), tx);
    forall j | 0 <= j < |t.locs|
      ensures Image(n, r.locs)[a + j] == Value(n, maps[k])[j]
    {
      assert r.locs[a..a + |t.locs|][j] == r.locs[a + j];
    }
    assert Image(n, r.locs)[a..a + |t.locs|] == Value(n, maps[k]);
  }

  lemma {:induction false} TableExists(n: Node, maps: seq<Map>, tx: bool)
    requires Compile(n, maps, tx).Layout? && Mappable(n) && ShortValues(n)
    ensures AllExist(n, Compile(n, maps, tx).locs)
    decreases |maps|
  {
    hide FindMap, Mappable, ShortValues, Exists;
    if maps != [] {
      TableExists(n, maps[..|maps| - 1], tx);
      TargetMeans(n, maps[|maps| - 1], |Compile(n, maps[..|maps| - 1], tx).locs|, tx);
    }
  }

  // ------------------------------------------------- values through a pair of PDOs

  /** Sub-index sub of position e has the same length, attributes and kind in both nodes. */
  predicate SameSub(n: Node, r: Node, e: int, sub: byte)
    requires 0 <= e < |n.od| == |r.od| && sub <= Od.MaxSub(n.od[e].obj) == Od.MaxSub(r.od[e].obj)
  {
    var a, b := n.od[e].obj, r.od[e].obj;
    && Od.Length(a, sub, n.domainSize) == Od.Length(b, sub, n.domainSize)
    && Od.AccessOf(a, n.od[e].index, sub) == Od.AccessOf(b, n.od[e].index, sub)
    && Od.Storage(a, sub).Some? == Od.Storage(b, sub).Some?
  }

  /** Two nodes whose dictionaries differ in stored values only. */
  predicate SameShape(n: Node, r: Node) {
    && r.bigEndian == n.bigEndian && r.domainSize == n.domainSize && |r.od| == |n.od|
    && (forall e :: 0 <= e < |n.od| ==> r.od[e].index == n.od[e].index && Od.MaxSub(r.od[e].obj) == Od.MaxSub(n.od[e].obj))
    && (forall e, sub: byte :: 0 <= e < |n.od| && sub <= Od.MaxSub(n.od[e].obj) ==> SameSub(n, r, e, sub))
  }

  lemma SetByteShape(n: Node, l: Loc, b: byte)
    requires Writable(n, l)
    ensures SameShape(n, SetByte(n, l, b))
  {
    var r := SetByte(n, l, b);
    if l.Cell? {
      var o := n.od[l.entry].obj;
      var v := Od.Get(n.od, l.entry, l.sub).value[l.pos := b];
      forall sub: byte | sub <= Od.MaxSub(o)
        ensures SameSub(n, r, l.entry, sub)
      {
        Od.PutGet(o, l.sub, v, sub, n.od[l.entry].index, n.domainSize);
      }
    }
  }

  lemma ShapeTrans(a: Node, b: Node, c: Node)
    requires SameShape(a, b) && SameShape(b, c)
    ensures SameShape(a, c)
  {
    forall e, sub: byte | 0 <= e < |a.od| && sub <= Od.MaxSub(a.od[e].obj)
      ensures SameSub(a, c, e, sub)
    {
      assert SameSub(a, b, e, sub) && SameSub(b, c, e, sub);
    }
  }

  lemma {:induction false} ScatterShape(n: Node, locs: seq<Loc>, d: seq<byte>)
    requires AllWritable(n, locs) && |d| == |locs|
    ensures SameShape(n, Scatter(n, locs, d))
    decreases |locs|
  {
    hide Exists, Writable, SetByte, SameSub, SameShape;
    if locs == [] {
      SelfShape(n);
    } else {
      var n1 := SetByte(n, locs[0], d[0]);
      SetByteKeeps(n, locs[0], d[0], locs);
      SetByteShape(n, locs[0], d[0]);
      ScatterShape(n1, locs[1..], d[1..]);
      ShapeTrans(n, n1, Scatter(n1, locs[1..], d[1..]));
    }
  }

  lemma SelfShape(n: Node)
    ensures SameShape(n, n)
  {
  }

  /** The mapping depends on the shape only. */
  lemma ShapeFindMap(n: Node, r: Node, m: Map, length: nat, tx: bool)
    requires SameShape(n, r)
    ensures FindMap(n, m, length, tx) == FindMap(r, m, length, tx)
  {
    Od.SameFind(n.od, r.od, m.index);
    var e := Od.Find(n.od, m.index);
    if e != Od.NOT_FOUND && m.sub <= Od.MaxSub(n.od[e].obj) {
      assert SameSub(n, r, e, m.sub);
    }
  }

  lemma ShapeMappable(n: Node, r: Node)
    requires SameShape(n, r) && Mappable(n) && ShortValues(n)
    ensures Mappable(r) && ShortValues(r)
  {
    forall e, sub: byte | 0 <= e < |r.od| && sub <= Od.MaxSub(r.od[e].obj)
      ensures MapAccess(r, e, sub) ==> Od.Storage(r.od[e].obj, sub).Some?
      ensures ShortValue(r, e, sub)
    {
      assert SameSub(n, r, e, sub);
      assert MapAccess(n, e, sub) == MapAccess(r, e, sub);
      assert ShortValue(n, e, sub);
    }
  }

  /** The targets of a list are different objects. */
  predicate DistinctTargets(maps: seq<Map>) {
    forall i, j :: 0 <= i < j < |maps| && !IsDummy(maps[i]) && !IsDummy(maps[j]) ==>
      maps[i].index != maps[j].index || maps[i].sub != maps[j].sub
  }

  /** A cell of the table belongs to the object of some entry. */
  predicate Origin(n: Node, maps: seq<Map>, l: Loc) {
    exists k :: 0 <= k < |maps| && Leads(n, maps[k], l)
  }

  predicate Leads(n: Node, m: Map, l: Loc) {
    l.Cell? && !IsDummy(m) && l.entry < |n.od| && n.od[l.entry].index == m.index && l.sub == m.sub
  }

  lemma TargetLeads(n: Node, m: Map, length: nat, tx: bool)
    requires FindMap(n, m, length, tx).Target?
    ensures var t := FindMap(n, m, length, tx);
            && Distinct(t.locs) && (forall j :: 0 <= j < |t.locs| && t.locs[j].Cell? ==> Leads(n, m, t.locs[j]))
            && (!IsDummy(m) ==> forall j :: 0 <= j < |t.locs| ==> t.locs[j].Cell?)
  {
  }

  lemma {:induction false} TableDistinct(n: Node, maps: seq<Map>, tx: bool)
    requires Compile(n, maps, tx).Layout? && DistinctTargets(maps)
    ensures var r := Compile(n, maps, tx);
            && Distinct(r.locs) && forall j :: 0 <= j < |r.locs| && r.locs[j].Cell? ==> Origin(n, maps, r.locs[j])
    decreases |maps|
  {
    hide FindMap, Leads;
    if maps != [] {
      var init, m := maps[..|maps| - 1], maps[|maps| - 1];
      var p, r := Compile(n, init, tx), Compile(n, maps, tx);
      TableDistinct(n, init, tx);
      TargetLeads(n, m, |p.locs|, tx);
      forall j | 0 <= j < |r.locs| && r.locs[j].Cell?
        ensures Origin(n, maps, r.locs[j])
      {
        if j < |p.locs| {
          OriginExtends(n, maps, r.locs[j]);
        } else {
          assert Leads(n, maps[|maps| - 1], r.locs[j]);
        }
      }
      forall i, j | 0 <= i < |p.locs| <= j < |r.locs| && r.locs[i].Cell?
        ensures r.locs[i] != r.locs[j]
      {
        NotTwice(n, maps, r.locs[i]);
      }
    }
  }

  lemma OriginExtends(n: Node, maps: seq<Map>, l: Loc)
    requires maps != [] && Origin(n, maps[..|maps| - 1], l)
    ensures Origin(n, maps, l)
  {
    hide Leads;
    var k :| 0 <= k < |maps| - 1 && Leads(n, maps[..|maps| - 1][k], l);
    assert Leads(n, maps[k], l);
  }

  lemma NotTwice(n: Node, maps: seq<Map>, l: Loc)
    requires maps != [] && DistinctTargets(maps) && Origin(n, maps[..|maps| - 1], l)
    ensures !Leads(n, maps[|maps| - 1], l)
  {
    var k :| 0 <= k < |maps| - 1 && Leads(n, maps[..|maps| - 1][k], l);
    assert Leads(n, maps[k], l);
  }

  predicate NoHistoryTarget(maps: seq<Map>) {
    forall k :: 0 <= k < |maps| ==> !(maps[k].index == 0x1003 && maps[k].sub == 0)
  }

  lemma TargetWritable(n: Node, m: Map, length: nat)
    requires FindMap(n, m, length, false).Target? && Mappable(n) && ShortValues(n) && !(m.index == 0x1003 && m.sub == 0)
    ensures AllWritable(n, FindMap(n, m, length, false).locs)
  {
    TargetMeans(n, m, length, false);
  }

  lemma {:induction false} TableWritable(n: Node, maps: seq<Map>)
    requires Compile(n, maps, false).Layout? && Mappable(n) && ShortValues(n) && NoHistoryTarget(maps)
    ensures AllWritable(n, Compile(n, maps, false).locs)
    decreases |maps|
  {
    hide FindMap, Mappable, ShortValues, Writable;
    if maps != [] {
      TableWritable(n, maps[..|maps| - 1]);
      TargetWritable(n, maps[|maps| - 1], |Compile(n, maps[..|maps| - 1], false).locs|);
    }
  }

  predicate SameLengths(a: seq<Map>, b: seq<Map>) {
    |a| == |b| && forall k :: 0 <= k < |a| ==> a[k].bits == b[k].bits
  }

  lemma {:induction false} SameOffsets(a: seq<Map>, b: seq<Map>, k: nat)
    requires SameLengths(a, b) && k <= |a|
    ensures Offset(a, k) == Offset(b, k)
  {
    if k > 0 {
      SameOffsets(a, b, k - 1);
    }
  }

  /** A TPDO of one node, received by an RPDO of another with the same lengths over different objects, carries over every value. */
  lemma PdoCarriesValues(s: Node, from: seq<Map>, r: Node, to: seq<Map>, k: nat)
    requires Compile(s, from, true).Layout? && Compile(r, to, false).Layout? && SameLengths(from, to)
    requires Mappable(s) && ShortValues(s) && Mappable(r) && ShortValues(r)
    requires DistinctTargets(to) && NoHistoryTarget(to) && k < |to| && !IsDummy(to[k])
    ensures var a := Compile(s, from, true).locs; var b := Compile(r, to, false).locs;
            && AllExist(s, a) && AllWritable(r, b) && |a| == |b|
            && Value(Scatter(r, b, Image(s, a)), to[k]) == Value(s, from[k])
  {
    hide FindMap, Mappable, ShortValues, Exists, Writable, ByteAt, Value, SameShape, Compile, Scatter;
    var a, b := Compile(s, from, true).locs, Compile(r, to, false).locs;
    FrameIsValues(s, from, true, k);
    TableWritable(r, to);
    TableLength(r, to, false);
    SameOffsets(from, to, |to|);
    SameOffsets(from, to, k);
    SameOffsets(from, to, k + 1);
    TableDistinct(r, to, false);
    var f := Image(s, a);
    var q := Scatter(r, b, f);
    ScatterShape(r, b, f);
    ShapeMappable(r, q);
    Slice(r, to, false, k);
    var o := Offset(to, k);
    var t := FindMap(r, to[k], o, false);
    ShapeFindMap(r, q, to[k], o, false);
    TargetMeans(q, to[k], o, false);
    TargetLeads(r, to[k], o, false);
    RestoredBytes(r, b, f, t.locs, o);
  }

  /** The cells of a stretch of the table read back as the bytes of the frame. */
  lemma RestoredBytes(r: Node, b: seq<Loc>, f: seq<byte>, locs: seq<Loc>, o: nat)
    requires AllWritable(r, b) && |f| == |b| && Distinct(b) && o + |locs| <= |b| && b[o..o + |locs|] == locs
    requires forall j :: 0 <= j < |locs| ==> locs[j].Cell?
    ensures var q := Scatter(r, b, f); AllExist(q, locs) && Image(q, locs) == f[o..o + |locs|]
  {
    hide Exists, Writable, ByteAt, Scatter;
    var q := Scatter(r, b, f);
    forall j | 0 <= j < |locs|
      ensures Exists(q, locs[j]) && ByteAt(q, locs[j]) == f[o + j]
    {
      assert locs[j] == b[o + j];
      WritableExists(r, b[o + j]);
      ScatterGather(r, b, f, b[o + j]);
    }
  }

  // -------------------------------------------------------------- change of state

  /** A byte that is watched differs from the last frame. */
  predicate Changed(n: Node, locs: seq<Loc>, cos: seq<bool>, last: Frame, j: int)
    requires AllExist(n, locs) && |locs| == |cos| && |locs| <= 8 && 0 <= j < |locs|
  {
    cos[j] && last[j] != ByteAt(n, locs[j])
  }

  /** CO_TPDOisCOS: from the last mapped byte down to the first. */
  method IsCos(n: Node, locs: seq<Loc>, cos: seq<bool>, last: Frame) returns (r: bool)
    requires AllExist(n, locs) && |locs| == |cos| && |locs| <= 8
    ensures r <==> exists j :: 0 <= j < |locs| && Changed(n, locs, cos, last, j)
  {
    hide Exists, ByteAt;
    if |locs| >= 8 && last[7] != ByteAt(n, locs[7]) && cos[7] { assert Changed(n, locs, cos, last, 7); return true; }
    if |locs| >= 7 && last[6] != ByteAt(n, locs[6]) && cos[6] { assert Changed(n, locs, cos, last, 6); return true; }
    if |locs| >= 6 && last[5] != ByteAt(n, locs[5]) && cos[5] { assert Changed(n, locs, cos, last, 5); return true; }
    if |locs| >= 5 && last[4] != ByteAt(n, locs[4]) && cos[4] { assert Changed(n, locs, cos, last, 4); return true; }
    if |locs| >= 4 && last[3] != ByteAt(n, locs[3]) && cos[3] { assert Changed(n, locs, cos, last, 3); return true; }
    if |locs| >= 3 && last[2] != ByteAt(n, locs[2]) && cos[2] { assert Changed(n, locs, cos, last, 2); return true; }
    if |locs| >= 2 && last[1] != ByteAt(n, locs[1]) && cos[1] { assert Changed(n, locs, cos, last, 1); return true; }
    if |locs| >= 1 && last[0] != ByteAt(n, locs[0]) && cos[0] { assert Changed(n, locs, cos, last, 0); return true; }
    return false;
  }

  /** Entry k is watched. */
  predicate Watched(n: Node, maps: seq<Map>, k: nat)
    requires k < |maps|
  {
    var t := FindMap(n, maps[k], Offset(maps, k), true);
    t.Target? && t.cos
  }

  /** Entry k's value is not the one in the frame. */
  predicate Differs(n: Node, maps: seq<Map>, last: Frame, k: nat)
    requires k < |maps|
  {
    var a, b := Offset(maps, k), Offset(maps, k + 1);
    a <= b <= 8 && Value(n, maps[k]) != last[a..b]
  }

  /** Every byte of the table belongs to an entry. */
  lemma {:induction false} EntryOf(maps: seq<Map>, m: nat, j: nat) returns (k: nat)
    requires m <= |maps| && j < Offset(maps, m)
    ensures k < m && Offset(maps, k) <= j < Offset(maps, k + 1)
  {
    if j < Offset(maps, m - 1) {
      k := EntryOf(maps, m - 1, j);
    } else {
      k := m - 1;
    }
  }

  lemma ChangedByte(n: Node, maps: seq<Map>, last: Frame, j: nat) returns (k: nat)
    requires Compile(n, maps, true).Layout? && Mappable(n) && ShortValues(n) && j < |Compile(n, maps, true).locs|
    requires AllExist(n, Compile(n, maps, true).locs)
    requires var t := Compile(n, maps, true); Changed(n, t.locs, t.cos, last, j)
    ensures k < |maps| && Watched(n, maps, k) && Differs(n, maps, last, k)
  {
    hide FindMap, Mappable, ShortValues, Exists, ByteAt, Value, Compile, Offset;
    var t := Compile(n, maps, true);
    TableLength(n, maps, true);
    k := EntryOf(maps, |maps|, j);
    FrameIsValues(n, maps, true, k);
    Slice(n, maps, true, k);
    var a := Offset(maps, k);
    assert Value(n, maps[k])[j - a] == Image(n, t.locs)[j];
    assert last[a..Offset(maps, k + 1)][j - a] == last[j];
  }

  lemma ChangedValue(n: Node, maps: seq<Map>, last: Frame, k: nat) returns (j: nat)
    requires Compile(n, maps, true).Layout? && Mappable(n) && ShortValues(n)
    requires k < |maps| && Watched(n, maps, k) && Differs(n, maps, last, k)
    requires AllExist(n, Compile(n, maps, true).locs)
    ensures j < |Compile(n, maps, true).locs|
    ensures var t := Compile(n, maps, true); Changed(n, t.locs, t.cos, last, j)
  {
    hide FindMap, Mappable, ShortValues, Exists, ByteAt, Value, Compile, Offset;
    var t := Compile(n, maps, true);
    FrameIsValues(n, maps, true, k);
    Slice(n, maps, true, k);
    var a, b := Offset(maps, k), Offset(maps, k + 1);
    var v, w := Value(n, maps[k]), last[a..b];
    var i := DifferAt(v, w);
    assert v[i] == Image(n, t.locs)[a + i] && w[i] == last[a + i];
    j := a + i;
  }

  /** The test is true exactly when the value of a watched object is not the one last sent. */
  lemma CosMeansChange(n: Node, maps: seq<Map>, last: Frame)
    requires Compile(n, maps, true).Layout? && Mappable(n) && ShortValues(n)
    ensures AllExist(n, Compile(n, maps, true).locs)
    ensures var t := Compile(n, maps, true);
            (exists j :: 0 <= j < |t.locs| && Changed(n, t.locs, t.cos, last, j))
            <==> (exists k :: 0 <= k < |maps| && Watched(n, maps, k) && Differs(n, maps, last, k))
  {
    hide Mappable, ShortValues, Exists, Compile, Changed, Watched, Differs;
    var t := Compile(n, maps, true);
    TableExists(n, maps, true);
    if j :| 0 <= j < |t.locs| && Changed(n, t.locs, t.cos, last, j) {
      var k := ChangedByte(n, maps, last, j);
    }
    if k :| 0 <= k < |maps| && Watched(n, maps, k) && Differs(n, maps, last, k) {
      var j := ChangedValue(n, maps, last, k);
    }
  }

  lemma DifferAt(v: seq<byte>, w: seq<byte>) returns (i: nat)
    requires v != w && |v| == |w|
    ensures i < |v| && v[i] != w[i]
  {
    i :| 0 <= i < |v| && v[i] != w[i];
  }
}
