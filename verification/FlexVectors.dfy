/** FlexBuffers vectors: every element written by CreateVector reads back. */
module FlexVectors {
  import opened Wrappers
  import opened Bits
  import opened Seqs
  import opened FlatReader
  import opened FlexBuffers

  // ─── Layout ────────────────────────────────────────────────────────────────

  predicate WideEnough(v: Value, W: BitWidth, size: nat) {
    Proper(v, size) && (IsInline(v.ty) ==> v.minWidth <= W)
  }

  predicate AllWide(elems: seq<Value>, W: BitWidth, size: nat) {
    forall k :: 0 <= k < |elems| ==> WideEnough(elems[k], W, size)
  }

  lemma {:induction false} ElementsSize(base: seq<byte>, elems: seq<Value>, W: BitWidth, size: nat)
    requires AllWide(elems, W, size)
    ensures |Elements(base, elems, W)| == |base| + |elems| * Bytes(W)
    ensures Elements(base, elems, W)[..|base|] == base
  {
    hide AnyBytes, Proper, Bytes;
    if elems != [] {
      var last := |elems| - 1;
      ElementsSize(base, elems[..last], W, size);
      assert WideEnough(elems[last], W, size);
      var b := Elements(base, elems[..last], W);
      AnyBytesSize(elems[last], |b|, W, size);
      assert |elems| * Bytes(W) == last * Bytes(W) + Bytes(W);
      assert (b + AnyBytes(elems[last], |b|, W))[..|base|] == b[..|base|];
    }
  }

  lemma StoredGrows(data: seq<byte>, more: seq<byte>, p: nat, v: Value, W: BitWidth)
    requires StoredAt(data, p, v, W)
    ensures StoredAt(data + more, p, v, W)
  {
    hide AnyBytes;
    assert (data + more)[p..p + Bytes(W)] == data[p..p + Bytes(W)];
  }

  lemma StoredLast(b: seq<byte>, v: Value, W: BitWidth)
    requires |AnyBytes(v, |b|, W)| == Bytes(W)
    ensures StoredAt(b + AnyBytes(v, |b|, W), |b|, v, W)
  {
    hide AnyBytes;
    var e := AnyBytes(v, |b|, W);
    assert (b + e)[|b|..|b| + Bytes(W)] == e;
  }

  lemma {:induction false} ElementAt(base: seq<byte>, elems: seq<Value>, W: BitWidth, size: nat, k: nat)
    requires AllWide(elems, W, size) && k < |elems|
    ensures StoredAt(Elements(base, elems, W), |base| + k * Bytes(W), elems[k], W)
  {
    hide AnyBytes, StoredAt, Proper, Bytes;
    var last := |elems| - 1;
    assert WideEnough(elems[last], W, size);
    ElementsSize(base, elems[..last], W, size);
    var b := Elements(base, elems[..last], W);
    AnyBytesSize(elems[last], |b|, W, size);
    if k < last {
      ElementAt(base, elems[..last], W, size, k);
      StoredGrows(b, AnyBytes(elems[last], |b|, W), |base| + k * Bytes(W), elems[k], W);
    } else {
      StoredLast(b, elems[last], W);
    }
  }

  /** How many header elements precede the first element. */
  function HeaderElems(q: Request): (r: nat) {
    (if q.keys.Some? then 2 else 0) + if q.fixed then 0 else 1
  }

  lemma HeaderSize(buf: seq<byte>, q: Request, W: BitWidth)
    ensures |Header(buf, q, W)| == OffsetLoc(|buf|, HeaderElems(q), W)
    ensures buf <= Header(buf, q, W)
  {
    hide Encode, OffsetBytes, Padding;
  }

  // ─── Every element fits ────────────────────────────────────────────────────

  /** What CreateVector is called with: proper values, and a buffer that memory can hold. */
  predicate GoodRequest(q: Request, elems: seq<Value>, size: nat) {
    && q.step >= 1 && q.len < WORD && KnownTypes(elems)
    && size + 8 * (|elems| * q.step + 3) + 8 <= WORD
    && (forall k :: 0 <= k < |elems| ==> Proper(elems[k], size))
    && (q.keys.Some? ==> Proper(q.keys.value, size) && !IsInline(q.keys.value.ty))
  }

  lemma ChosenWidthFits(v: Value, size: nat, index: nat)
    requires Proper(v, size) && !IsInline(v.ty) && size + 8 * index + 8 <= WORD
    ensures OffsetFits(size, index, v.i, ElemWidth(v, size, index))
  {
    TryWidth(size, index, v.i, 0);
  }

  /** The element at position `k`, written with the common width, can be stored where it lands. */
  lemma ElementStorable(q: Request, elems: seq<Value>, size: nat, k: nat)
    requires GoodRequest(q, elems, size) && k < |elems|
    ensures
      var W := CommonWidth(q, elems, size);
      && WideEnough(elems[k], W, size)
      && (!IsInline(elems[k].ty) ==> OffsetFits(size, HeaderElems(q) + k, elems[k].i, W))
  {
    hide WidthU, OffsetFits, Widest, Proper;
    var W, v, est := CommonWidth(q, elems, size), elems[k], k * q.step + Prefix(q);
    WidestCovers(elems, size, q.step, Prefix(q), k);
    if !IsInline(v.ty) {
      assert k <= k * q.step <= |elems| * q.step by {
        MulMono(k, |elems|, q.step);
      }
      ChosenWidthFits(v, size, est);
      NonNegative(v, size);
      WiderStillFits(size, est, v.i, ElemWidth(v, size, est), W, HeaderElems(q) + k);
    }
  }

  lemma NonNegative(v: Value, size: nat)
    requires Proper(v, size) && !IsInline(v.ty)
    ensures 0 <= v.i <= size
  {
  }

  lemma MulMono(k: nat, n: nat, s: nat)
    requires k < n && s >= 1
    ensures k <= k * s <= n * s
  {
    assert n * s == k * s + (n - k) * s;
  }

  lemma LocSplit(size: nat, h: nat, k: nat, W: BitWidth)
    ensures OffsetLoc(size, h + k, W) == OffsetLoc(size, h, W) + k * Bytes(W)
  {
    assert (h + k) * Bytes(W) == h * Bytes(W) + k * Bytes(W);
  }

  lemma LocBound(q: Request, elems: seq<Value>, size: nat, k: nat, W: BitWidth)
    requires GoodRequest(q, elems, size) && k < |elems|
    ensures size <= OffsetLoc(size, HeaderElems(q) + k, W) < WORD
  {
    hide Proper;
    MulMono(k, |elems|, q.step);
    var i := HeaderElems(q) + k;
    assert i * Bytes(W) <= 8 * i;
  }

  lemma AllAreWide(q: Request, elems: seq<Value>, size: nat)
    requires GoodRequest(q, elems, size)
    ensures AllWide(elems, CommonWidth(q, elems, size), size)
    ensures KnownTypes(elems)
  {
    hide CommonWidth;
    forall j | 0 <= j < |elems| ensures WideEnough(elems[j], CommonWidth(q, elems, size), size) {
      ElementStorable(q, elems, size, j);
    }
  }

  /** Every element of a vector reads back, and no offset overflows the common width. */
  lemma VectorReads(buf: seq<byte>, q: Request, elems: seq<Value>, k: nat)
    requires GoodRequest(q, elems, |buf|) && k < |elems|
    ensures
      var W := CommonWidth(q, elems, |buf|);
      var p := |Header(buf, q, W)| + k * Bytes(W);
      && ReadsValue(VectorBytes(buf, q, elems), p, elems[k], W)
      && (!IsInline(elems[k].ty) ==> p - elems[k].i < Capacity(W))
  {
    hide AnyBytes, StoredAt, Proper, ReadsValue, CommonWidth, Header, Elements, Capacity, Bytes, AllWide, OffsetLoc, Types, IsInline;
    var size := |buf|;
    var W := CommonWidth(q, elems, size);
    AllAreWide(q, elems, size);
    ElementStorable(q, elems, size, k);
    HeaderSize(buf, q, W);
    LocSplit(size, HeaderElems(q), k, W);
    LocBound(q, elems, size, k, W);
    var head := Header(buf, q, W);
    var p := |head| + k * Bytes(W);
    ElementAt(head, elems, W, size, k);
    var body := Elements(head, elems, W);
    StoredGrows(body, if q.typed then [] else Types(elems, W), p, elems[k], W);
    assert VectorBytes(buf, q, elems) == body + if q.typed then [] else Types(elems, W);
    ReadsStored(elems[k], p, W, size, VectorBytes(buf, q, elems));
  }

  /** A buffer, a header that extends it, elements that extend the header, and what follows. */
  lemma LayoutParts(buf: seq<byte>, head: seq<byte>, body: seq<byte>, types: seq<byte>)
    requires buf <= head && |head| <= |body| && body[..|head|] == head
    ensures buf <= body + types && (body + types)[|body|..] == types && |body + types| == |body| + |types|
  {
    PrefixTrans(buf, head, body);
    TakeConcat(body, types);
    PrefixTrans(buf, body, body + types);
  }

  function After(start: nat, n: nat, w: BitWidth): (r: nat)
    ensures r == start + n * Bytes(w)
  {
    if w == 0 then start + n else if w == 1 then start + 2 * n else if w == 2 then start + 4 * n else start + 8 * n
  }

  /** Where the elements end. */
  function ElementsEnd(buf: seq<byte>, q: Request, elems: seq<Value>): (r: nat) {
    var W := CommonWidth(q, elems, |buf|);
    After(|Header(buf, q, W)|, |elems|, W)
  }

  lemma VectorLayout(buf: seq<byte>, q: Request, elems: seq<Value>)
    requires GoodRequest(q, elems, |buf|)
    ensures
      var data, end := VectorBytes(buf, q, elems), ElementsEnd(buf, q, elems);
      && buf <= data && end <= |data|
      && data[end..] == if q.typed then [] else Types(elems, CommonWidth(q, elems, |buf|))
  {
    hide AnyBytes, Proper, CommonWidth, Header, Elements, Bytes, AllWide, OffsetLoc, Types, GoodRequest, IsInline;
    var W := CommonWidth(q, elems, |buf|);
    AllAreWide(q, elems, |buf|);
    HeaderSize(buf, q, W);
    var head := Header(buf, q, W);
    ElementsSize(head, elems, W, |buf|);
    LayoutParts(buf, head, Elements(head, elems, W), if q.typed then [] else Types(elems, W));
  }

  lemma TypeAt(elems: seq<Value>, W: BitWidth, k: nat)
    requires k < |elems| && KnownTypes(elems)
    ensures Types(elems, W)[k] == PackedType(StoredWidth(elems[k], W), elems[k].ty)
  {
  }

  lemma IndexFrom(data: seq<byte>, end: nat, k: nat, types: seq<byte>)
    requires end <= |data| && data[end..] == types && k < |types|
    ensures end + k < |data| && data[end + k] == types[k]
  {
    assert data[end..][k] == data[end + k];
  }

  /** An untyped vector is followed by one packed type per element; earlier bytes are kept. */
  lemma VectorTypes(buf: seq<byte>, q: Request, elems: seq<Value>, k: nat)
    requires GoodRequest(q, elems, |buf|) && k < |elems| && !q.typed
    ensures
      var W := CommonWidth(q, elems, |buf|);
      var data, at := VectorBytes(buf, q, elems), ElementsEnd(buf, q, elems) + k;
      buf <= data && at < |data| && data[at] == PackedType(StoredWidth(elems[k], W), elems[k].ty)
  {
    hide CommonWidth, ElementsEnd, VectorBytes, PackedType, StoredWidth, Types;
    AllAreWide(q, elems, |buf|);
    VectorLayout(buf, q, elems);
    var W := CommonWidth(q, elems, |buf|);
    TypeAt(elems, W, k);
    IndexFrom(VectorBytes(buf, q, elems), ElementsEnd(buf, q, elems), k, Types(elems, W));
  }

  lemma PrefixTrans(a: seq<byte>, b: seq<byte>, c: seq<byte>)
    requires a <= b && |b| <= |c| && c[..|b|] == b
    ensures a <= c
  {
  }

  lemma KeysStorable(q: Request, elems: seq<Value>, size: nat)
    requires GoodRequest(q, elems, size) && q.keys.Some?
    ensures OffsetFits(size, 0, q.keys.value.i, CommonWidth(q, elems, size))
  {
    hide WidthU, OffsetFits, Widest, Proper;
    var v, W := q.keys.value, CommonWidth(q, elems, size);
    ChosenWidthFits(v, size, 0);
    NonNegative(v, size);
    WiderStillFits(size, 0, v.i, ElemWidth(v, size, 0), W, 0);
  }

  /** The length and, for a map, the way to the keys are found in front of the elements. */
  lemma HeaderReads(buf: seq<byte>, q: Request, elems: seq<Value>)
    requires GoodRequest(q, elems, |buf|)
    ensures
      var W := CommonWidth(q, elems, |buf|);
      var head, B := Header(buf, q, W), Bytes(W);
      && (!q.fixed ==> Load(head, |head| - B, B) == Some(q.len))
      && (!q.fixed && q.keys.Some? ==>
            var o := Load(head, |head| - 3 * B, B);
            && o.Some? && |head| - 3 * B - o.value == q.keys.value.i
            && Load(head, |head| - 2 * B, B) == Some(Bytes(q.keys.value.minWidth)))
  {
    hide Proper, CommonWidth, Encode, Padding, OffsetFits, Load, WidthU, Capacity;
    var W := CommonWidth(q, elems, |buf|);
    var B := Bytes(W);
    LengthFits(q, elems, |buf|);
    var b0 := buf + Zeros(Padding(|buf|, B));
    if q.keys.Some? {
      var v := q.keys.value;
      KeysStorable(q, elems, |buf|);
      NonNegative(v, |buf|);
      KeysReads(b0, v, W, if q.fixed then [] else Encode(q.len, B)) by {
        OffsetFitsIs(|buf|, v.i, W);
      }
      if !q.fixed {
        Tail(b0 + OffsetBytes(|b0|, v.i, W) + Encode(Bytes(v.minWidth), B), q.len, W);
      }
    } else if !q.fixed {
      Tail(b0, q.len, W);
    }
  }

  lemma OffsetFitsIs(size: nat, target: nat, W: BitWidth)
    requires OffsetFits(size, 0, target, W)
    ensures size + Padding(size, Bytes(W)) - target < Capacity(W)
  {
  }

  lemma LengthFits(q: Request, elems: seq<Value>, size: nat)
    requires q.len < WORD
    ensures q.len < Capacity(CommonWidth(q, elems, size))
  {
    hide WidthU, Widest;
    WidthUIs(q.len);
    CapacityMono(WidthU(q.len), CommonWidth(q, elems, size));
  }

  lemma Tail(b: seq<byte>, x: nat, W: BitWidth)
    requires x < Capacity(W)
    ensures Load(b + Encode(x, Bytes(W)), |b|, Bytes(W)) == Some(x)
  {
    hide Encode, Load;
    var e := Encode(x, Bytes(W));
    assert (b + e)[|b|..|b| + Bytes(W)] == e;
    LoadLow(b + e, |b|, x, W);
  }

  lemma KeysReads(b0: seq<byte>, v: Value, W: BitWidth, more: seq<byte>)
    requires 0 <= v.i <= |b0| < WORD && |b0| - v.i < Capacity(W)
    ensures
      var B := Bytes(W);
      var data := b0 + OffsetBytes(|b0|, v.i, W) + Encode(Bytes(v.minWidth), B) + more;
      && Load(data, |b0|, B) == Some(|b0| - v.i)
      && Load(data, |b0| + B, B) == Some(Bytes(v.minWidth))
  {
    hide Encode, Load;
    var B := Bytes(W);
    DivModUnique(|b0| - v.i, WORD, 0, |b0| - v.i);
    var e := OffsetBytes(|b0|, v.i, W);
    var f := Encode(Bytes(v.minWidth), B);
    assert Bytes(v.minWidth) < Capacity(W);
    Tail(b0, |b0| - v.i, W);
    LoadPrefix(b0 + e, f, |b0|, B);
    LoadPrefix(b0 + e + f, more, |b0|, B);
    Tail(b0 + e, Bytes(v.minWidth), W);
    LoadPrefix(b0 + e + f, more, |b0| + B, B);
  }
}
