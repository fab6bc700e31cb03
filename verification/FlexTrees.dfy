/** Trees of values, and the bytes the builder makes of them. */
module FlexTrees {
  import opened Wrappers
  import opened Bits
  import opened Seqs
  import opened FlatReader
  import opened FlexBuffers
  import opened FlexVectors
  import opened FlexVectorTypes
  import opened FlexKeys
  import opened FlexReader

  /**
   The builder's settings, and the conversions between double and single precision
   on bit patterns; `narrow` is None when single precision would lose something.
   */
  datatype Env = Env(force: BitWidth, shareKeys: bool, shareStrings: bool, narrow: nat -> Option<nat>, widen: nat -> nat)

  /** The buffer and the pools of keys and strings already in it. */
  datatype St = St(buf: seq<byte>, keys: map<seq<byte>, nat>, strings: map<seq<byte>, nat>)

  datatype Pair = Pair(k: Value, v: Value)
  datatype Part = Part(s: St, v: Value)
  datatype Parts = Parts(s: St, vs: seq<Value>)
  datatype Rows = Rows(s: St, rows: seq<Keyed<Pair>>)

  // ─── Trees ─────────────────────────────────────────────────────────────────

  predicate IsNumber(t: Tree) {
    t.Flag? || t.Signed? || t.Unsigned? || t.Real?
  }

  /** What a typed vector may hold. */
  predicate IsElement(t: Tree) {
    IsNumber(t) || t.Key? || t.Text?
  }

  /** The type of such a value. */
  function TypeOf(t: Tree): (r: nat)
    ensures r < FBT_MAX_TYPE && (IsNumber(t) || t.Nil? ==> IsInline(r)) && (IsElement(t) ==> r >= 1 && IsTypedVectorElementType(r))
    ensures t.Key? || t.Text? ==> !IsInline(r)
  {
    if t.Flag? then FBT_BOOL else if t.Signed? then FBT_INT else if t.Unsigned? then FBT_UINT else if t.Real? then FBT_FLOAT
    else if t.Key? then FBT_KEY else if t.Text? then FBT_STRING else 0
  }

  predicate SameTypes(fixed: bool, items: seq<Tree>) {
    && (fixed ==> 2 <= |items| <= 4)
    && forall k :: 0 <= k < |items| ==>
         IsElement(items[k]) && TypeOf(items[k]) == TypeOf(items[0]) && (fixed ==> IsNumber(items[k]) && !items[k].Flag?)
  }

  predicate Exact(e: Env, bits: nat) {
    bits < WORD && (e.narrow(bits).Some? ==> e.narrow(bits).value < Capacity(2) && e.widen(e.narrow(bits).value) == bits)
  }

  /** What the 64-bit arguments, C strings and the builder's assertions demand; map keys are not repeated. */
  predicate Legal(e: Env, t: Tree)
    decreases t
  {
    match t
    case Signed(i) => -(WORD / 2) <= i < WORD / 2
    case Unsigned(u) => u < WORD
    case Real(bits) => Exact(e, bits)
    case Key(chars) => 0 !in chars
    case List(items) => LegalAll(e, items)
    case Packed(fixed, items) => LegalAll(e, items) && SameTypes(fixed, items)
    case Dict(entries) => LegalEntries(e, entries) && Distinct(entries)
    case _ => true
  }

  predicate LegalAll(e: Env, items: seq<Tree>)
    decreases items
  {
    items == [] || (LegalAll(e, items[..|items| - 1]) && Legal(e, items[|items| - 1]))
  }

  predicate LegalEntries(e: Env, entries: seq<Keyed<Tree>>)
    decreases entries
  {
    if entries == [] then true
    else
      var x := entries[|entries| - 1];
      LegalEntries(e, entries[..|entries| - 1]) && 0 !in x.key && Legal(e, x.value)
  }

  /** The bytes in front of the first zero. */
  function UpToZero(chars: seq<byte>): (r: seq<byte>) {
    if chars == [] || chars[0] == 0 then [] else [chars[0]] + UpToZero(chars[1..])
  }

  /** What a typed vector gives back: strings as keys, which end at their first zero. */
  function AsElement(t: Tree): (r: Tree) {
    if t.Text? then Key(UpToZero(t.chars)) else t
  }

  function AsElements(items: seq<Tree>): (r: seq<Tree>)
    ensures |r| == |items|
  {
    seq(|items|, k requires 0 <= k < |items| => AsElement(items[k]))
  }

  /** The tree as it is read: entries of maps in the order of their keys, strings of typed vectors as keys. */
  function Canon(t: Tree): (r: Tree)
    ensures IsNumber(t) || t.Nil? || t.Key? || t.Text? ==> r == t
    decreases t
  {
    match t
    case List(items) => List(CanonAll(items))
    case Packed(fixed, items) => Packed(fixed, AsElements(items))
    case Dict(entries) => Dict(Sorted(CanonEntries(entries)))
    case _ => t
  }

  function CanonAll(items: seq<Tree>): (r: seq<Tree>)
    ensures |r| == |items|
    decreases items
  {
    if items == [] then [] else CanonAll(items[..|items| - 1]) + [Canon(items[|items| - 1])]
  }

  function CanonEntries(entries: seq<Keyed<Tree>>): (r: seq<Keyed<Tree>>)
    ensures |r| == |entries|
    decreases entries
  {
    if entries == [] then []
    else
      var x := entries[|entries| - 1];
      CanonEntries(entries[..|entries| - 1]) + [Keyed(x.key, Canon(x.value))]
  }

  function Height(t: Tree): (r: nat)
    decreases t
  {
    match t
    case List(items) => 1 + HeightAll(items)
    case Packed(_, items) => 1 + HeightAll(items)
    case Dict(entries) => 1 + HeightEntries(entries)
    case _ => 0
  }

  function HeightAll(items: seq<Tree>): (r: nat)
    decreases items
  {
    if items == [] then 0 else Max(HeightAll(items[..|items| - 1]), Height(items[|items| - 1]))
  }

  function HeightEntries(entries: seq<Keyed<Tree>>): (r: nat)
    decreases entries
  {
    if entries == [] then 0 else Max(HeightEntries(entries[..|entries| - 1]), Height(entries[|entries| - 1].value))
  }

  /** More than the tree can add to the buffer. */
  function Room(t: Tree): (r: nat)
    decreases t
  {
    match t
    case Text(chars) => |chars| + 24
    case Blob(bytes) => |bytes| + 24
    case Key(chars) => |chars| + 1
    case List(items) => RoomAll(items) + 9 * |items| + 40
    case Packed(_, items) => RoomAll(items) + 9 * |items| + 40
    case Dict(entries) => RoomEntries(entries) + 32 * |entries| + 100
    case _ => 0
  }

  function RoomAll(items: seq<Tree>): (r: nat)
    decreases items
  {
    if items == [] then 0 else RoomAll(items[..|items| - 1]) + Room(items[|items| - 1])
  }

  function RoomEntries(entries: seq<Keyed<Tree>>): (r: nat)
    decreases entries
  {
    if entries == [] then 0
    else
      var x := entries[|entries| - 1];
      RoomEntries(entries[..|entries| - 1]) + |x.key| + 1 + Room(x.value)
  }

  // ─── Building ──────────────────────────────────────────────────────────────

  function Number(e: Env, t: Tree): (r: Value)
    requires Legal(e, t) && (IsNumber(t) || t.Nil?)
    ensures r.ty == TypeOf(t)
  {
    match t
    case Flag(b) => Value(FBT_BOOL, if b then 1 else 0, 0, 0)
    case Signed(i) => Value(FBT_INT, i, 0, WidthI(i))
    case Unsigned(u) => Value(FBT_UINT, u, 0, WidthU(u))
    case Real(bits) => if e.narrow(bits).Some? then Value(FBT_FLOAT, bits, e.narrow(bits).value, 2) else Value(FBT_FLOAT, bits, 0, 3)
    case Nil => Value(0, 0, 0, 0)
  }

  function BlobHeader(buf: seq<byte>, len: nat): (r: seq<byte>) {
    var w := WidthU(len);
    buf + Zeros(Padding(|buf|, Bytes(w))) + Encode(len, Bytes(w))
  }

  /** `CreateBlob`: the length, the bytes and `trailing` zeros. */
  function BlobBytes(buf: seq<byte>, bytes: seq<byte>, trailing: nat): (r: seq<byte>) {
    BlobHeader(buf, |bytes|) + bytes + Zeros(trailing)
  }

  function TextPart(e: Env, s: St, chars: seq<byte>): (r: Part) {
    var at, w := |BlobHeader(s.buf, |chars|)|, WidthU(|chars|);
    if e.shareStrings && chars in s.strings then Part(s, Value(FBT_STRING, s.strings[chars], 0, w))
    else
      var strings := if e.shareStrings then s.strings[chars := at] else s.strings;
      Part(s.(buf := BlobBytes(s.buf, chars, 1), strings := strings), Value(FBT_STRING, at, 0, w))
  }

  function KeyPart(e: Env, s: St, key: seq<byte>): (r: Part) {
    if e.shareKeys && key in s.keys then Part(s, Value(FBT_KEY, s.keys[key], 0, 0))
    else
      var keys := if e.shareKeys then s.keys[key := |s.buf|] else s.keys;
      Part(s.(buf := s.buf + key + [0], keys := keys), Value(FBT_KEY, |s.buf|, 0, 0))
  }

  function RequestFor(e: Env, t: Tree): (r: Request)
    requires t.List? || t.Packed?
  {
    Request(|t.items|, 1, t.Packed?, t.Packed? && t.fixed, None, e.force)
  }

  function VectorPart(e: Env, p: Parts, t: Tree): (r: Part)
    requires (t.List? || (t.Packed? && SameTypes(t.fixed, t.items))) && KnownTypes(p.vs)
    ensures r.v.ty < FBT_MAX_TYPE
  {
    var q := RequestFor(e, t);
    var W := CommonWidth(q, p.vs, |p.s.buf|);
    var ty := if t.List? then FBT_VECTOR
      else ToTypedVector(if t.items == [] then FBT_KEY else TypeOf(t.items[0]), if t.fixed then |t.items| else 0);
    Part(p.s.(buf := VectorBytes(p.s.buf, q, p.vs)), Value(ty, |Header(p.s.buf, q, W)|, 0, W))
  }

  function KeyValues(rows: seq<Keyed<Pair>>): (r: seq<Value>)
    ensures |r| == |rows|
  {
    seq(|rows|, k requires 0 <= k < |rows| => rows[k].value.k)
  }

  function Values(rows: seq<Keyed<Pair>>): (r: seq<Value>)
    ensures |r| == |rows|
  {
    seq(|rows|, k requires 0 <= k < |rows| => rows[k].value.v)
  }

  predicate KnownRows(rows: seq<Keyed<Pair>>) {
    forall k :: 0 <= k < |rows| ==> rows[k].value.k.ty == FBT_KEY && rows[k].value.v.ty < FBT_MAX_TYPE
  }

  function KeysRequest(e: Env, n: nat): (r: Request) {
    Request(n, 2, true, false, None, e.force)
  }

  /** The vector of keys of a map, from the sorted rows. */
  function KeysPart(e: Env, s: St, rows: seq<Keyed<Pair>>): (r: Part)
    requires KnownRows(rows)
    ensures r.v.ty < FBT_MAX_TYPE
  {
    var q := KeysRequest(e, |rows|);
    var W := CommonWidth(q, KeyValues(rows), |s.buf|);
    Part(s.(buf := VectorBytes(s.buf, q, KeyValues(rows))), Value(ToTypedVector(FBT_KEY, 0), |Header(s.buf, q, W)|, 0, W))
  }

  function ValuesRequest(e: Env, n: nat, keys: Value): (r: Request) {
    Request(n, 2, false, false, Some(keys), e.force)
  }

  /** The vector of values, which starts with the way to the keys. */
  function ValuesPart(e: Env, p: Part, rows: seq<Keyed<Pair>>): (r: Part)
    requires KnownRows(rows)
    ensures r.v.ty < FBT_MAX_TYPE
  {
    var q := ValuesRequest(e, |rows|, p.v);
    var W := CommonWidth(q, Values(rows), |p.s.buf|);
    Part(p.s.(buf := VectorBytes(p.s.buf, q, Values(rows))), Value(FBT_MAP, |Header(p.s.buf, q, W)|, 0, W))
  }

  /** The builder's state, and the value on the stack, after a tree was put in. */
  function Build(e: Env, s: St, t: Tree): (r: Part)
    requires Legal(e, t)
    ensures r.v.ty < FBT_MAX_TYPE
    decreases t
  {
    match t
    case Text(chars) => TextPart(e, s, chars)
    case Key(chars) => KeyPart(e, s, chars)
    case Blob(bytes) => Part(s.(buf := BlobBytes(s.buf, bytes, 0)), Value(FBT_BLOB, |BlobHeader(s.buf, |bytes|)|, 0, WidthU(|bytes|)))
    case List(items) => VectorPart(e, BuildAll(e, s, items), t)
    case Packed(_, items) => VectorPart(e, BuildAll(e, s, items), t)
    case Dict(entries) =>
      var p := BuildEntries(e, s, entries);
      KnownSorted(p.rows);
      ValuesPart(e, KeysPart(e, p.s, Sorted(p.rows)), Sorted(p.rows))
    case _ => Part(s, Number(e, t))
  }

  function BuildAll(e: Env, s: St, items: seq<Tree>): (r: Parts)
    requires LegalAll(e, items)
    ensures KnownTypes(r.vs) && |r.vs| == |items|
    decreases items
  {
    if items == [] then Parts(s, [])
    else
      var last := |items| - 1;
      var p := BuildAll(e, s, items[..last]);
      var l := Build(e, p.s, items[last]);
      Parts(l.s, p.vs + [l.v])
  }

  function BuildEntries(e: Env, s: St, entries: seq<Keyed<Tree>>): (r: Rows)
    requires LegalEntries(e, entries)
    ensures KnownRows(r.rows) && |r.rows| == |entries|
    decreases entries
  {
    if entries == [] then Rows(s, [])
    else
      var last := |entries| - 1;
      var p := BuildEntries(e, s, entries[..last]);
      var k := KeyPart(e, p.s, entries[last].key);
      var l := Build(e, k.s, entries[last].value);
      Rows(l.s, p.rows + [Keyed(entries[last].key, Pair(k.v, l.v))])
  }

  lemma KnownSorted(rows: seq<Keyed<Pair>>)
    requires KnownRows(rows)
    ensures KnownRows(Sorted(rows))
  {
    SortedPermutes(rows);
    var s := Sorted(rows);
    forall k | 0 <= k < |s| ensures s[k].value.k.ty == FBT_KEY && s[k].value.v.ty < FBT_MAX_TYPE {
      var j := MemberOf(s, rows, k);
    }
  }

  /** `Finish`: the root, its packed type and its width. */
  function Finished(p: Part): (r: seq<byte>)
    requires p.v.ty < FBT_MAX_TYPE
  {
    var W := ElemWidth(p.v, |p.s.buf|, 0);
    var b := p.s.buf + Zeros(Padding(|p.s.buf|, Bytes(W)));
    b + AnyBytes(p.v, |b|, W) + [PackedType(StoredWidth(p.v, 0), p.v.ty), Bytes(W)]
  }
}
