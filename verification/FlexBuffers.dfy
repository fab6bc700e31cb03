/**
 The FlexBuffers builder chooses one element width for a whole vector, while the
 offsets it stores depend on that width.  The choice is proved to succeed, and
 every element of the vector to read back.
 */
module FlexBuffers {
  import opened Wrappers
  import opened Bits
  import opened FlatReader

  // ─── Widths ────────────────────────────────────────────────────────────────

  /** 0, 1, 2, 3 for 8, 16, 32 and 64 bits. */
  type BitWidth = x: nat | x < 4

  function Bytes(w: BitWidth): (r: nat)
    ensures r == 1 || r == 2 || r == 4 || r == 8
  {
    if w == 0 then 1 else if w == 1 then 2 else if w == 2 then 4 else 8
  }

  /** The number of values of a width. */
  function Capacity(w: BitWidth): (r: nat)
    ensures r > 1
  {
    if w == 0 then 0x100 else if w == 1 then 0x1_0000 else if w == 2 then 0x1_0000_0000 else WORD
  }

  function MaxWidth(a: BitWidth, b: BitWidth): (r: BitWidth)
    ensures r >= a && r >= b && (r == a || r == b)
  {
    if a > b then a else b
  }

  predicate NoBitsAbove(u: nat, bits: nat)
    requires bits < 64
  {
    Pow2(bits) < WORD && And(u, Not(Pow2(bits) - 1)) == 0
  }

  function WidthU(u: nat): (r: BitWidth) {
    if NoBitsAbove(u, 8) then 0 else if NoBitsAbove(u, 16) then 1 else if NoBitsAbove(u, 32) then 2 else 3
  }

  function WidthI(i: int): (r: BitWidth)
    requires -(WORD / 2) <= i < WORD / 2
  {
    var u := (2 * (i % WORD)) % WORD;
    WidthU(if i >= 0 then u else Not(u))
  }

  lemma Bits8to32()
    ensures Pow2(8) == 0x100 && Pow2(16) == 0x1_0000 && Pow2(32) == 0x1_0000_0000
  {
    Pow2Sixteen();
    Pow2Word();
    assert Pow2(4) == 16;
    hide Pow2;
    Pow2Add(4, 4);
  }

  lemma NoBitsAboveIs(u: nat, bits: nat)
    requires u < WORD && bits <= 32
    ensures NoBitsAbove(u, bits) <==> u < Pow2(bits)
  {
    hide Pow2, And;
    WordSplit(bits);
    Pow2Word();
    AndClear(u, 64, bits);
    var m := Pow2(bits);
    if u < m {
      DivModUnique(u, m, 0, u);
    }
  }

  /** The mask tests find the least width that holds the number. */
  lemma WidthUIs(u: nat)
    requires u < WORD
    ensures u < Capacity(WidthU(u))
    ensures forall w: BitWidth :: u < Capacity(w) ==> WidthU(u) <= w
  {
    hide NoBitsAbove;
    NoBitsAboveIs(u, 8);
    NoBitsAboveIs(u, 16);
    NoBitsAboveIs(u, 32);
    Bits8to32();
  }

  predicate SignedFits(i: int, w: BitWidth) {
    -(Capacity(w) / 2) <= i < Capacity(w) / 2
  }

  /** For signed numbers: the least width whose two's complement range holds it. */
  lemma WidthIIs(i: int)
    requires -(WORD / 2) <= i < WORD / 2
    ensures SignedFits(i, WidthI(i))
    ensures forall w: BitWidth :: SignedFits(i, w) ==> WidthI(i) <= w
  {
    hide WidthU;
    var u := (2 * (i % WORD)) % WORD;
    var v := if i >= 0 then u else Not(u);
    assert v == if i >= 0 then 2 * i else -2 * i - 1;
    WidthUIs(v);
  }

  // ─── Values on the stack ───────────────────────────────────────────────────

  const FBT_INT: nat := 1
  const FBT_UINT: nat := 2
  const FBT_FLOAT: nat := 3
  const FBT_BOOL: nat := 26
  const FBT_MAX_TYPE: nat := 37

  /**
   `i` is the number, the position in the buffer, or the bits of the double;
   `f32` the bits of the double converted to single precision.
   */
  datatype Value = Value(ty: nat, i: int, f32: nat, minWidth: BitWidth)

  predicate IsInline(ty: nat) {
    ty <= FBT_FLOAT || ty == FBT_BOOL
  }

  /** What the builder's Int, UInt, Bool, Null, Float, Double and offset producers push. */
  predicate Proper(v: Value, size: nat) {
    && v.ty < FBT_MAX_TYPE
    && if v.ty <= FBT_INT then SignedFits(v.i, v.minWidth)
       else if v.ty == FBT_UINT || v.ty == FBT_BOOL then 0 <= v.i < Capacity(v.minWidth)
       else if v.ty == FBT_FLOAT then v.minWidth >= 2 && 0 <= v.i < WORD && v.f32 < Capacity(2)
       else 0 <= v.i <= size
  }

  // ─── ElemWidth ─────────────────────────────────────────────────────────────

  /** Where element `index` of a vector of width `w` starting after `size` bytes goes. */
  function OffsetLoc(size: nat, index: nat, w: BitWidth): (r: nat) {
    size + Padding(size, Bytes(w)) + index * Bytes(w)
  }

  predicate OffsetFits(size: nat, index: nat, target: int, w: BitWidth) {
    OffsetLoc(size, index, w) - target < Capacity(w)
  }

  /** The least width at which the offset, stored at the place that width gives, fits. */
  function OffsetWidth(size: nat, index: nat, target: int): (r: BitWidth) {
    if OffsetFits(size, index, target, 0) then 0
    else if OffsetFits(size, index, target, 1) then 1
    else if OffsetFits(size, index, target, 2) then 2
    else 3
  }

  function ElemWidth(v: Value, size: nat, index: nat): (r: BitWidth) {
    if IsInline(v.ty) then v.minWidth else OffsetWidth(size, index, v.i)
  }

  lemma PaddingGrows(size: nat)
    ensures Padding(size, 1) <= Padding(size, 2) <= Padding(size, 4) <= Padding(size, 8)
  {
  }

  lemma OffsetLocGrows(size: nat, index: nat)
    ensures OffsetLoc(size, index, 0) <= OffsetLoc(size, index, 1) <= OffsetLoc(size, index, 2) <= OffsetLoc(size, index, 3)
  {
    PaddingGrows(size);
  }

  /** If no smaller width holds its own offset, width `w` is at least needed; 64 bits always suffice. */
  lemma TryWidth(size: nat, index: nat, target: nat, w: BitWidth)
    requires target <= size && size + 8 * index + 8 <= WORD
    requires w > 0 ==> !OffsetFits(size, index, target, w - 1)
    ensures 0 <= OffsetLoc(size, index, w) - target < WORD
    ensures WidthU(OffsetLoc(size, index, w) - target) == w <==> OffsetFits(size, index, target, w)
    ensures OffsetFits(size, index, target, 3)
  {
    hide WidthU;
    OffsetLocGrows(size, index);
    var offset := OffsetLoc(size, index, w) - target;
    WidthUIs(offset);
    assert w > 0 ==> offset >= Capacity(w - 1);
  }

  lemma SameBytes(a: BitWidth, b: BitWidth)
    ensures Bytes(a) == Bytes(b) <==> a == b
  {
  }

  /** `Value::ElemWidth`: its closing assertion is unreachable. */
  method FindElemWidth(v: Value, size: nat, index: nat) returns (r: BitWidth)
    requires Proper(v, size) && size + 8 * index + 8 <= WORD
    ensures r == ElemWidth(v, size, index)
    ensures !IsInline(v.ty) ==> WidthU(OffsetLoc(size, index, r) - v.i) == r
  {
    hide WidthU, OffsetFits, Padding;
    if IsInline(v.ty) {
      return v.minWidth;
    }
    var byte_width := 1;
    ghost var w: BitWidth := 0;
    while byte_width <= 8
      invariant byte_width == Bytes(w)
      invariant forall k: BitWidth :: k < w ==> !OffsetFits(size, index, v.i, k)
      decreases 16 - byte_width
    {
      TryWidth(size, index, v.i, w);
      assert byte_width >= 1 && PaddingBytes(size, byte_width) == Padding(size, byte_width) by {
        ScalarSizes();
        PaddingBytesIsPadding(size, byte_width);
      }
      var offset := size + PaddingBytes(size, byte_width) + index * byte_width - v.i;
      var bit_width := WidthU(offset);
      SameBytes(bit_width, w);
      if Bytes(bit_width) == byte_width {
        return bit_width;
      }
      byte_width := 2 * byte_width;
      w := w + 1;
    }
    assert false;
  }

  // ─── The common width of a vector ──────────────────────────────────────────

  /**
   A width chosen for an element remains enough when the vector is written with
   a larger one, at an index no greater than the estimated one.
   */
  lemma WiderStillFits(size: nat, index: nat, target: nat, w: BitWidth, W: BitWidth, actual: nat)
    requires target <= size && size + 8 * index + 8 <= WORD
    requires OffsetFits(size, index, target, w) && w <= W && actual <= index
    ensures OffsetFits(size, actual, target, W)
  {
    var d, p, q := size - target, Padding(size, Bytes(w)), Padding(size, Bytes(W));
    assert d + p + index * Bytes(w) < Capacity(w);
    assert actual * Bytes(W) <= index * Bytes(W);
    if w == W {
      assert actual * Bytes(w) <= index * Bytes(w);
    } else if w == 0 {
      assert index * Bytes(w) == index;
      assert index < 256 && d < 256 && index * Bytes(W) <= 8 * index;
    } else if w == 1 {
      assert index * Bytes(w) == 2 * index && d < 0x1_0000 && index * Bytes(W) <= 8 * index;
    } else {
      assert W == 3 && index * Bytes(W) == 8 * index;
    }
  }

  /** Positions of elements for the width estimate: `step` apart, after `prefix` header elements. */
  function Widest(elems: seq<Value>, size: nat, step: nat, prefix: nat): (r: BitWidth) {
    if elems == [] then 0
    else
      var last := |elems| - 1;
      MaxWidth(Widest(elems[..last], size, step, prefix), ElemWidth(elems[last], size, last * step + prefix))
  }

  lemma {:induction false} WidestCovers(elems: seq<Value>, size: nat, step: nat, prefix: nat, k: nat)
    requires k < |elems|
    ensures ElemWidth(elems[k], size, k * step + prefix) <= Widest(elems, size, step, prefix)
  {
    hide ElemWidth;
    if k < |elems| - 1 {
      WidestCovers(elems[..|elems| - 1], size, step, prefix, k);
    }
  }

  /** What a call of CreateVector is given, besides the builder's state. */
  datatype Request = Request(len: nat, step: nat, typed: bool, fixed: bool, keys: Option<Value>, force: BitWidth)

  function Prefix(q: Request): (r: nat) {
    if q.keys.Some? then 3 else 1
  }

  function CommonWidth(q: Request, elems: seq<Value>, size: nat): (r: BitWidth) {
    var w := MaxWidth(q.force, WidthU(q.len));
    var w' := if q.keys.Some? then MaxWidth(w, ElemWidth(q.keys.value, size, 0)) else w;
    MaxWidth(w', Widest(elems, size, q.step, Prefix(q)))
  }

  // ─── Writing ───────────────────────────────────────────────────────────────

  function OffsetBytes(at: nat, target: int, W: BitWidth): (r: seq<byte>)
    ensures |r| == Bytes(W)
  {
    Encode((at - target) % WORD, Bytes(W))
  }

  /** `WriteAny` at position `at`; a float narrower than 32 bits has no representation. */
  function AnyBytes(v: Value, at: nat, W: BitWidth): (r: seq<byte>) {
    if v.ty <= FBT_UINT || v.ty == FBT_BOOL then Encode(v.i % WORD, Bytes(W))
    else if v.ty == FBT_FLOAT then
      if W == 3 then Encode(v.i % WORD, 8) else if W == 2 then Encode(v.f32, 4) else []
    else OffsetBytes(at, v.i, W)
  }

  function Elements(base: seq<byte>, elems: seq<Value>, W: BitWidth): (r: seq<byte>) {
    if elems == [] then base
    else
      var b := Elements(base, elems[..|elems| - 1], W);
      b + AnyBytes(elems[|elems| - 1], |b|, W)
  }

  /** The reader takes the width from the low two bits and the type from the rest. */
  function PackedType(w: BitWidth, ty: nat): (r: byte)
    requires ty < 64
    ensures r % 4 == w && r / 4 == ty
  {
    w + 4 * ty
  }

  function StoredWidth(v: Value, parent: BitWidth): (r: BitWidth) {
    if IsInline(v.ty) then MaxWidth(v.minWidth, parent) else v.minWidth
  }

  predicate KnownTypes(elems: seq<Value>) {
    forall k :: 0 <= k < |elems| ==> elems[k].ty < FBT_MAX_TYPE
  }

  function Types(elems: seq<Value>, W: BitWidth): (r: seq<byte>)
    requires KnownTypes(elems)
    ensures |r| == |elems|
  {
    seq(|elems|, k requires 0 <= k < |elems| => PackedType(StoredWidth(elems[k], W), elems[k].ty))
  }

  /** The keys' offset and width, and the length, in front of the elements. */
  function Header(buf: seq<byte>, q: Request, W: BitWidth): (r: seq<byte>) {
    var b0 := buf + Zeros(Padding(|buf|, Bytes(W)));
    var b1 := if q.keys.Some? then
        b0 + OffsetBytes(|b0|, q.keys.value.i, W) + Encode(Bytes(q.keys.value.minWidth), Bytes(W)) else b0;
    if q.fixed then b1 else b1 + Encode(q.len, Bytes(W))
  }

  function VectorBytes(buf: seq<byte>, q: Request, elems: seq<Value>): (r: seq<byte>)
    requires KnownTypes(elems)
  {
    var W := CommonWidth(q, elems, |buf|);
    Elements(Header(buf, q, W), elems, W) + if q.typed then [] else Types(elems, W)
  }

  // ─── Reading back ──────────────────────────────────────────────────────────

  function ReadInt(data: seq<byte>, p: int, w: BitWidth): (r: Option<int>) {
    match Load(data, p, Bytes(w))
    case None => None
    case Some(x) => Some(if x < Capacity(w) / 2 then x else x - Capacity(w))
  }

  /** What a reader finds at the position of an element. */
  predicate ReadsValue(data: seq<byte>, p: int, v: Value, W: BitWidth) {
    if v.ty <= FBT_INT then ReadInt(data, p, W) == Some(v.i)
    else if v.ty == FBT_UINT || v.ty == FBT_BOOL then v.i >= 0 && Load(data, p, Bytes(W)) == Some(v.i)
    else if v.ty == FBT_FLOAT then
      if W == 3 then v.i >= 0 && Load(data, p, 8) == Some(v.i) else W == 2 && Load(data, p, 4) == Some(v.f32)
    else
      var o := Load(data, p, Bytes(W));
      o.Some? && p - o.value == v.i          // Indirect
  }

  lemma {:induction false} DecodeLow(v: nat, w: nat)
    ensures Decode(Encode(v, w)) == v % Pow256(w)
    decreases w
  {
    if w == 0 {
    } else {
      DecodeLow(v / 256, w - 1);
      assert Encode(v, w)[1..] == Encode(v / 256, w - 1);
      var m := Pow256(w - 1);
      var q, r := v / 256 / m, v / 256 % m;
      assert v == 256 * m * q + (256 * r + v % 256) by {
        assert v / 256 == m * q + r;
        assert 256 * (m * q) == 256 * m * q;
      }
      DivModUnique(v, 256 * m, q, 256 * r + v % 256);
    }
  }

  lemma CapacityIs(w: BitWidth)
    ensures Capacity(w) == Pow256(Bytes(w))
  {
    Widths();
  }

  lemma LoadLow(data: seq<byte>, p: nat, x: nat, W: BitWidth)
    requires p + Bytes(W) <= |data| && data[p..p + Bytes(W)] == Encode(x, Bytes(W))
    ensures Load(data, p, Bytes(W)) == Some(x % Capacity(W))
    ensures x < Capacity(W) ==> Load(data, p, Bytes(W)) == Some(x)
  {
    hide Encode, Pow256, Capacity;
    CapacityIs(W);
    DecodeLow(x, Bytes(W));
    if x < Capacity(W) {
      DivModUnique(x, Capacity(W), 0, x);
    }
  }

  /** The element may be stored with width `W` at position `p`. */
  predicate Storable(v: Value, p: nat, W: BitWidth, size: nat) {
    && Proper(v, size) && size <= p < WORD
    && (if IsInline(v.ty) then v.minWidth <= W else p - v.i < Capacity(W))
  }

  predicate StoredAt(data: seq<byte>, p: nat, v: Value, W: BitWidth) {
    p + Bytes(W) <= |data| && data[p..p + Bytes(W)] == AnyBytes(v, p, W)
  }

  lemma ReadsNumber(v: Value, p: nat, W: BitWidth, size: nat, data: seq<byte>)
    requires Storable(v, p, W, size) && StoredAt(data, p, v, W) && (v.ty <= FBT_UINT || v.ty == FBT_BOOL)
    ensures ReadsValue(data, p, v, W)
  {
    hide Encode, Load;
    CapacityMono(v.minWidth, W);
    LoadLow(data, p, v.i % WORD, W);
    if v.ty <= FBT_INT {
      hide Capacity;
      SignedLow(v.i, W);
    } else {
      DivModUnique(v.i, WORD, 0, v.i);
    }
  }

  lemma ReadsOther(v: Value, p: nat, W: BitWidth, size: nat, data: seq<byte>)
    requires Storable(v, p, W, size) && StoredAt(data, p, v, W) && !(v.ty <= FBT_UINT || v.ty == FBT_BOOL)
    ensures ReadsValue(data, p, v, W)
  {
    hide Encode, Load;
    if v.ty == FBT_FLOAT {
      if W == 3 {
        DivModUnique(v.i, WORD, 0, v.i);
        LoadLow(data, p, v.i, W);
      } else {
        LoadLow(data, p, v.f32, W);
      }
    } else {
      DivModUnique(p - v.i, WORD, 0, p - v.i);
      LoadLow(data, p, p - v.i, W);
    }
  }

  /** An element stored with an adequate width reads back. */
  lemma ReadsStored(v: Value, p: nat, W: BitWidth, size: nat, data: seq<byte>)
    requires Storable(v, p, W, size) && StoredAt(data, p, v, W)
    ensures ReadsValue(data, p, v, W)
  {
    hide ReadsValue, Storable, StoredAt;
    if v.ty <= FBT_UINT || v.ty == FBT_BOOL {
      ReadsNumber(v, p, W, size, data);
    } else {
      ReadsOther(v, p, W, size, data);
    }
  }

  lemma AnyBytesSize(v: Value, p: nat, W: BitWidth, size: nat)
    requires Proper(v, size) && (IsInline(v.ty) ==> v.minWidth <= W)
    ensures |AnyBytes(v, p, W)| == Bytes(W)
  {
  }

  lemma CapacityMono(w: BitWidth, W: BitWidth)
    ensures w <= W ==> Capacity(w) <= Capacity(W)
  {
  }

  lemma SignedLow(i: int, W: BitWidth)
    requires SignedFits(i, W)
    ensures (i % WORD) % Capacity(W) == if i >= 0 then i else i + Capacity(W)
  {
    var c := Capacity(W);
    if i >= 0 {
      DivModUnique(i, WORD, 0, i);
      DivModUnique(i, c, 0, i);
    } else {
      DivModUnique(i, WORD, -1, i + WORD);
      var k := if W == 0 then 0x100_0000_0000_0000 else if W == 1 then 0x1_0000_0000_0000 else if W == 2 then 0x1_0000_0000 else 1;
      assert WORD == c * k;
      assert i + WORD == c * (k - 1) + (i + c);
      DivModUnique(i + WORD, c, k - 1, i + c);
    }
  }
}
