/** The FlexBuffers builder as an object: values wait on a stack until a vector or a map takes them. */
module FlexBuilders {
  import opened Wrappers
  import opened Bits
  import opened Seqs
  import opened FlexBuffers
  import opened FlexVectors
  import opened FlexVectorTypes
  import opened FlexKeys
  import opened FlexReader
  import opened FlexTrees
  import opened FlexRoundTrip
  import opened FlexTheorems

  /** Every `step`-th value of the stack from `start` on. */
  function Pick(stack: seq<Value>, start: nat, step: nat): (r: seq<Value>)
    requires step >= 1
    decreases |stack| - start
  {
    if start >= |stack| then [] else [stack[start]] + Pick(stack, start + step, step)
  }

  lemma {:induction false} PickAt(stack: seq<Value>, start: nat, step: nat, k: nat)
    requires step >= 1
    ensures k < |Pick(stack, start, step)| <==> start + k * step < |stack|
    ensures k < |Pick(stack, start, step)| ==> Pick(stack, start, step)[k] == stack[start + k * step]
    decreases |stack| - start
  {
    if start < |stack| && k > 0 {
      PickAt(stack, start + step, step, k - 1);
      assert start + k * step == start + step + (k - 1) * step;
    } else if start >= |stack| {
      assert k * step >= 0;
    }
  }

  class Builder {
    var buf: seq<byte>
    var stack: seq<Value>
    var settings: Env
    var keyPool: map<seq<byte>, nat>
    var stringPool: map<seq<byte>, nat>
    var finished: bool

    constructor (e: Env)
      ensures State() == EMPTY && stack == [] && settings == e && !finished
    {
      buf, stack, settings, keyPool, stringPool, finished := [], [], e, map[], map[], false;
    }

    function State(): (s: St)
      reads this
    {
      St(buf, keyPool, stringPool)
    }

    method Null()
      modifies this`stack
      ensures stack == old(stack) + [Value(0, 0, 0, 0)]
    {
      stack := stack + [Value(0, 0, 0, 0)];
    }

    method Bool(b: bool)
      modifies this`stack
      ensures stack == old(stack) + [Value(FBT_BOOL, if b then 1 else 0, 0, 0)]
    {
      stack := stack + [Value(FBT_BOOL, if b then 1 else 0, 0, 0)];
    }

    /** `WidthF` asks whether single precision gives the same number. */
    method Double(bits: nat)
      requires Exact(settings, bits)
      modifies this`stack
      ensures stack == old(stack) + [Number(settings, Real(bits))]
    {
      var single := settings.narrow(bits);
      stack := stack + [if single.Some? then Value(FBT_FLOAT, bits, single.value, 2) else Value(FBT_FLOAT, bits, 0, 3)];
    }

    method CreateBlob(bytes: seq<byte>, trailing: nat, ty: nat) returns (sloc: nat)
      requires |buf| < WORD
      modifies this`buf, this`stack
      ensures buf == BlobBytes(old(buf), bytes, trailing) && sloc == |BlobHeader(old(buf), |bytes|)|
      ensures stack == old(stack) + [Value(ty, sloc, 0, WidthU(|bytes|))]
    {
      hide WidthU, Encode, Padding;
      var w := WidthU(|bytes|);
      var byteWidth := Align(w);
      buf := buf + Encode(|bytes|, byteWidth);
      sloc := |buf|;
      buf := buf + bytes + Zeros(trailing);
      stack := stack + [Value(ty, sloc, 0, w)];
    }

    method Blob(bytes: seq<byte>) returns (sloc: nat)
      requires |buf| < WORD
      modifies this`buf, this`stack
      ensures buf == BlobBytes(old(buf), bytes, 0)
      ensures stack == old(stack) + [Value(FBT_BLOB, |BlobHeader(old(buf), |bytes|)|, 0, WidthU(|bytes|))]
    {
      hide WidthU, Encode, Padding, BlobBytes, BlobHeader;
      sloc := CreateBlob(bytes, 0, FBT_BLOB);
    }

    /** A string already in the pool is taken back from the buffer and its first copy used. */
    method String(chars: seq<byte>) returns (sloc: nat)
      requires |buf| < WORD
      modifies this`buf, this`stack, this`stringPool
      ensures State() == TextPart(settings, old(State()), chars).s
      ensures stack == old(stack) + [TextPart(settings, old(State()), chars).v] && sloc == stack[|old(stack)|].i
    {
      hide WidthU, Encode, Padding, BlobBytes, BlobHeader;
      var reset_to := |buf|;
      ghost var before := buf;
      assert buf[..reset_to] == buf;
      BlobKeeps(buf, chars, 1);
      sloc := CreateBlob(chars, 1, FBT_STRING);
      if settings.shareStrings {
        if chars in stringPool {
          buf := buf[..reset_to];
          sloc := stringPool[chars];
          stack := stack[|stack| - 1 := stack[|stack| - 1].(i := sloc)];
        } else {
          stringPool := stringPool[chars := sloc];
        }
      }
    }

    /** A key already in the pool is taken back likewise. */
    method Key(key: seq<byte>) returns (sloc: nat)
      modifies this`buf, this`stack, this`keyPool
      ensures State() == KeyPart(settings, old(State()), key).s
      ensures stack == old(stack) + [KeyPart(settings, old(State()), key).v] && sloc == stack[|old(stack)|].i
    {
      sloc := |buf|;
      assert (buf + key + [0])[..sloc] == buf;
      buf := buf + key + [0];
      if settings.shareKeys {
        if key in keyPool {
          buf := buf[..sloc];
          sloc := keyPool[key];
        } else {
          keyPool := keyPool[key := sloc];
        }
      }
      stack := stack + [Value(FBT_KEY, sloc, 0, 0)];
    }

    method Int(i: int)
      requires -(WORD / 2) <= i < WORD / 2
      modifies this`stack
      ensures stack == old(stack) + [Value(FBT_INT, i, 0, WidthI(i))] && Proper(stack[|stack| - 1], |buf|)
    {
      WidthIIs(i);
      stack := stack + [Value(FBT_INT, i, 0, WidthI(i))];
    }

    method UInt(u: nat)
      requires u < WORD
      modifies this`stack
      ensures stack == old(stack) + [Value(FBT_UINT, u, 0, WidthU(u))] && Proper(stack[|stack| - 1], |buf|)
    {
      WidthUIs(u);
      stack := stack + [Value(FBT_UINT, u, 0, WidthU(u))];
    }

    method Align(w: BitWidth) returns (byteWidth: nat)
      requires |buf| < WORD
      modifies this`buf
      ensures buf == old(buf) + Zeros(Padding(|old(buf)|, Bytes(w))) && byteWidth == Bytes(w)
    {
      ScalarSizes();
      PaddingBytesIsPadding(|buf|, Bytes(w));
      buf := buf + Zeros(PaddingBytes(|buf|, Bytes(w)));
      byteWidth := Bytes(w);
    }

    /** The precondition is the assertion the original makes. */
    method WriteOffset(target: nat, w: BitWidth)
      requires target <= |buf| < WORD && (w == 3 || |buf| - target < Capacity(w))
      modifies this`buf
      ensures buf == old(buf) + OffsetBytes(|old(buf)|, target, w)
    {
      DivModUnique(|buf| - target, WORD, 0, |buf| - target);
      buf := buf + Encode(|buf| - target, Bytes(w));
    }

    method WriteAny(v: Value, w: BitWidth, ghost size: nat)
      requires Storable(v, |buf|, w, size)
      modifies this`buf
      ensures buf == old(buf) + AnyBytes(v, |old(buf)|, w)
    {
      hide Encode, Capacity;
      if v.ty <= FBT_UINT || v.ty == FBT_BOOL {
        buf := buf + Encode(v.i % WORD, Bytes(w));
      } else if v.ty == FBT_FLOAT {
        assert w >= 2;
        buf := buf + if w == 3 then Encode(v.i % WORD, 8) else Encode(v.f32, 4);
      } else {
        WriteOffset(v.i, w);
      }
    }

    /** The width loop. */
    method CommonBitWidth(start: nat, q: Request) returns (w: BitWidth)
      requires q.step >= 1 && GoodRequest(q, Pick(stack, start, q.step), |buf|)
      ensures w == CommonWidth(q, Pick(stack, start, q.step), |buf|)
    {
      hide Proper, WidthU, ElemWidth, Pick;
      ghost var elems := Pick(stack, start, q.step);
      w := MaxWidth(q.force, WidthU(q.len));
      var prefix := 1;
      if q.keys.Some? {
        var keyWidth := FindElemWidth(q.keys.value, |buf|, 0);
        w := MaxWidth(w, keyWidth);
        prefix := prefix + 2;
      }
      var i := start;
      ghost var k := 0;
      PickAt(stack, start, q.step, 0);
      while i < |stack|
        invariant i == start + k * q.step && 0 <= k <= |elems|
        invariant k < |elems| <==> i < |stack|
        invariant prefix == Prefix(q)
        invariant w == CommonWidth(q, elems[..k], |buf|)
        decreases |stack| - i
      {
        PickAt(stack, start, q.step, k);
        PickAt(stack, start, q.step, k + 1);
        NextIndex(start, k, q.step);
        WidestNext(elems, k, |buf|, q.step, prefix);
        IndexBound(q, elems, |buf|, k);
        var elemWidth := FindElemWidth(stack[i], |buf|, i - start + prefix);
        w := MaxWidth(w, elemWidth);
        i := i + q.step;
        k := k + 1;
      }
      assert elems[..k] == elems;
    }

    /** The elements, written one after the other with the common width. */
    method WriteElements(start: nat, q: Request, W: BitWidth, ghost size: nat, ghost head: seq<byte>)
      requires q.step >= 1 && GoodRequest(q, Pick(stack, start, q.step), size)
      requires W == CommonWidth(q, Pick(stack, start, q.step), size)
      requires buf == head && |head| == OffsetLoc(size, HeaderElems(q), W)
      modifies this`buf
      ensures buf == Elements(head, Pick(stack, start, q.step), W)
    {
      hide Proper, CommonWidth, OffsetLoc, Pick, AnyBytes, Storable;
      ghost var elems := Pick(stack, start, q.step);
      var i := start;
      ghost var k := 0;
      PickAt(stack, start, q.step, 0);
      while i < |stack|
        invariant i == start + k * q.step && 0 <= k <= |elems|
        invariant k < |elems| <==> i < |stack|
        invariant buf == Elements(head, elems[..k], W)
        decreases |stack| - i
      {
        PickAt(stack, start, q.step, k);
        PickAt(stack, start, q.step, k + 1);
        NextIndex(start, k, q.step);
        LandsStorable(q, elems, size, head, k);
        assert elems[..k + 1][..k] == elems[..k];
        WriteAny(stack[i], W, size);
        i := i + q.step;
        k := k + 1;
      }
      assert elems[..k] == elems;
    }

    method WriteTypes(start: nat, step: nat, W: BitWidth)
      requires step >= 1
      requires KnownTypes(Pick(stack, start, step))
      modifies this`buf
      ensures buf == old(buf) + Types(Pick(stack, start, step), W)
    {
      hide Pick, StoredWidth, PackedType;
      ghost var elems := Pick(stack, start, step);
      var i := start;
      ghost var k := 0;
      PickAt(stack, start, step, 0);
      while i < |stack|
        invariant i == start + k * step && 0 <= k <= |elems|
        invariant k < |elems| <==> i < |stack|
        invariant buf == old(buf) + Types(elems, W)[..k]
        decreases |stack| - i
      {
        PickAt(stack, start, step, k);
        PickAt(stack, start, step, k + 1);
        NextIndex(start, k, step);
        buf := buf + [PackedType(StoredWidth(stack[i], W), stack[i].ty)];
        i := i + step;
        k := k + 1;
      }
      assert Types(elems, W)[..k] == Types(elems, W);
    }

    /** `CreateVector`; the returned value names the new vector. */
    method CreateVector(start: nat, q: Request) returns (r: Value)
      requires q.force == settings.force && q.step >= 1
      requires GoodRequest(q, Pick(stack, start, q.step), |buf|) && TypesAgree(q, Pick(stack, start, q.step))
      modifies this`buf
      ensures buf == VectorBytes(old(buf), q, Pick(stack, start, q.step))
      ensures
        var elems := Pick(stack, start, q.step);
        var W := CommonWidth(q, elems, |old(buf)|);
        r == Value(VectorType(q, elems), |Header(old(buf), q, W)|, 0, W)
    {
      hide Proper, CommonWidth, OffsetLoc, Pick, Elements, Encode, OffsetBytes, Capacity, OffsetFits;
      ghost var elems, size := Pick(stack, start, q.step), |buf|;
      var W := CommonBitWidth(start, q);
      HeaderSize(buf, q, W);
      AllAreWide(q, elems, size);
      HeaderPosition(buf, q, elems);
      var byteWidth := Align(W);
      if q.keys.Some? {
        WriteOffset(q.keys.value.i, W);
        buf := buf + Encode(Bytes(q.keys.value.minWidth), byteWidth);
      }
      if !q.fixed {
        buf := buf + Encode(q.len, byteWidth);
      }
      var vloc := |buf|;
      WriteElements(start, q, W, size, buf);
      if !q.typed {
        WriteTypes(start, q.step, W);
      }
      PickAt(stack, start, q.step, 0);
      var ty := if q.keys.Some? then FBT_MAP
        else if q.typed then ToTypedVector(if start < |stack| then stack[start].ty else FBT_KEY, if q.fixed then q.len else 0)
        else FBT_VECTOR;
      r := Value(ty, vloc, 0, W);
    }

    /** `EndVector`: the elements leave the stack and the vector takes their place. */
    method EndVector(start: nat, q: Request) returns (vloc: nat)
      requires start <= |stack| && q.force == settings.force && q.step == 1 && q.len == |stack| - start && q.keys == None
      requires GoodRequest(q, Pick(stack, start, 1), |buf|) && TypesAgree(q, Pick(stack, start, 1))
      modifies this`buf, this`stack
      ensures buf == VectorBytes(old(buf), q, Pick(old(stack), start, 1))
      ensures
        var elems := Pick(old(stack), start, 1);
        var W := CommonWidth(q, elems, |old(buf)|);
        stack == old(stack)[..start] + [Value(VectorType(q, elems), |Header(old(buf), q, W)|, 0, W)] && vloc == stack[start].i
      ensures (q.fixed ==> NumericElements(Pick(old(stack), start, 1))) ==> Proper(stack[start], |buf|)
    {
      hide Proper, CommonWidth, Pick, Elements, Encode, OffsetBytes, VectorBytes, GoodRequest, Header, VectorType;
      if q.fixed ==> NumericElements(Pick(stack, start, 1)) {
        NewVectorIsProper(buf, q, Pick(stack, start, 1));
      }
      var vec := CreateVector(start, q);
      stack := stack[..start];
      stack := stack + [vec];
      vloc := vec.i;
    }

    /** `EndMap`: keys and values alternate on the stack; they are sorted by key, the map takes their place. */
    method EndMap(start: nat) returns (vloc: nat)
      requires start <= |stack| && Alternates(buf, stack[start..])
      requires MapFits(State(), RowsFrom(buf, stack[start..])) && Distinct(RowsFrom(buf, stack[start..]))
      modifies this`buf, this`stack
      ensures
        var rows := Sorted(RowsFrom(old(buf), old(stack)[start..]));
        && KnownRows(rows)
        && var r := ValuesPart(settings, KeysPart(settings, old(State()), rows), rows);
        && State() == r.s && stack == old(stack)[..start] + [r.v] && vloc == stack[start].i
    {
      hide RowsFrom, Alternates, Sorted, Pick, CommonWidth, Header, VectorBytes, GoodRequest, Distinct, Proper;
      var rows := Sorted(RowsFrom(buf, stack[start..]));
      FitsSorted(State(), RowsFrom(buf, stack[start..]));
      var len := |rows|;
      stack := stack[..start] + Alternating(rows);
      PickHalf(stack[..start], rows, 0);
      PickHalf(stack[..start], rows, 1);
      assert stack[..start] + Alternating(rows) == stack;
      KeysGood(settings, State(), rows);
      ValuesGood(settings, State(), rows);
      KeyTypes(settings, rows);
      var keys := CreateVector(start, KeysRequest(settings, len));
      var vec := CreateVector(start + 1, ValuesRequest(settings, len, keys));
      stack := stack[..start];
      stack := stack + [vec];
      vloc := vec.i;
    }

    method Finish()
      requires |stack| == 1 && Proper(stack[0], |buf|) && |buf| + 16 <= WORD
      modifies this`buf, this`finished
      ensures buf == Finished(Part(old(State()), stack[0])) && finished
    {
      hide Encode, Padding, AnyBytes, OffsetFits;
      var v := stack[0];
      ghost var size := |buf|;
      var w := FindElemWidth(v, |buf|, 0);
      if !IsInline(v.ty) {
        ChosenWidthFits(v, |buf|, 0);
        OffsetFitsIs(|buf|, v.i, w);
      }
      var byteWidth := Align(w);
      WriteAny(v, w, size);
      buf := buf + [PackedType(StoredWidth(v, 0), v.ty)];
      buf := buf + [byteWidth];
      finished := true;
    }
  }

  // ─── Maps on the stack ─────────────────────────────────────────────────────

  /** Keys that lead to C strings, each followed by its value. */
  predicate Alternates(buf: seq<byte>, vs: seq<Value>) {
    |vs| % 2 == 0 && forall k :: 0 <= k < |vs| / 2 ==> vs[2 * k].ty == FBT_KEY && CString(buf, vs[2 * k].i).Some?
  }

  function RowsFrom(buf: seq<byte>, vs: seq<Value>): (r: seq<Keyed<Pair>>)
    requires Alternates(buf, vs)
  {
    seq(|vs| / 2, k requires 0 <= k < |vs| / 2 => Keyed(CString(buf, vs[2 * k].i).value, Pair(vs[2 * k], vs[2 * k + 1])))
  }

  function Alternating(rows: seq<Keyed<Pair>>): (r: seq<Value>)
    ensures |r| == 2 * |rows|
  {
    seq(2 * |rows|, k requires 0 <= k < 2 * |rows| => if k % 2 == 0 then rows[k / 2].value.k else rows[k / 2].value.v)
  }

  lemma FitsSorted(s: St, rows: seq<Keyed<Pair>>)
    requires MapFits(s, rows)
    ensures MapFits(s, Sorted(rows))
  {
    hide Sorted, Proper;
    KnownSorted(rows);
    SortedProper(rows, |s.buf|);
  }

  function Half(rows: seq<Keyed<Pair>>, off: nat): (r: seq<Value>)
    ensures |r| == |rows|
  {
    if off == 0 then KeyValues(rows) else Values(rows)
  }

  lemma AlternatingAt(below: seq<Value>, rows: seq<Keyed<Pair>>, off: nat, k: nat)
    requires off < 2 && k < |rows|
    ensures |below + Alternating(rows)| == |below| + 2 * |rows|
    ensures (below + Alternating(rows))[|below| + off + k * 2] == Half(rows, off)[k]
  {
    var r := Alternating(rows);
    assert (below + r)[|below| + (off + k * 2)] == r[off + k * 2];
    assert (off + k * 2) / 2 == k && (off + k * 2) % 2 == off;
  }

  /** Every other value of the alternating stack, from the first key or from the first value. */
  lemma PickHalf(below: seq<Value>, rows: seq<Keyed<Pair>>, off: nat)
    requires off < 2
    ensures Pick(below + Alternating(rows), |below| + off, 2) == Half(rows, off)
  {
    hide Pick, Half, Alternating;
    var stack := below + Alternating(rows);
    var got := Pick(stack, |below| + off, 2);
    assert |stack| == |below| + 2 * |rows|;
    PickAt(stack, |below| + off, 2, |rows|);
    forall k | 0 <= k < |rows| ensures k < |got| && got[k] == Half(rows, off)[k] {
      PickAt(stack, |below| + off, 2, k);
      AlternatingAt(below, rows, off, k);
    }
    if rows != [] {
      PickAt(stack, |below| + off, 2, |rows| - 1);
    }
    assert |got| == |rows|;
  }

  lemma KeyTypes(e: Env, rows: seq<Keyed<Pair>>)
    requires KnownRows(rows)
    ensures TypesAgree(KeysRequest(e, |rows|), KeyValues(rows)) && VectorType(KeysRequest(e, |rows|), KeyValues(rows)) == ToTypedVector(FBT_KEY, 0)
  {
  }

  lemma BlobKeeps(buf: seq<byte>, bytes: seq<byte>, trailing: nat)
    ensures |BlobBytes(buf, bytes, trailing)| >= |buf| && BlobBytes(buf, bytes, trailing)[..|buf|] == buf
  {
    hide WidthU, Encode, Padding;
  }

  lemma NextIndex(start: nat, k: nat, step: nat)
    ensures start + (k + 1) * step == start + k * step + step
  {
  }

  lemma WidestNext(elems: seq<Value>, k: nat, size: nat, step: nat, prefix: nat)
    requires k < |elems|
    ensures Widest(elems[..k + 1], size, step, prefix)
         == MaxWidth(Widest(elems[..k], size, step, prefix), ElemWidth(elems[k], size, k * step + prefix))
  {
    assert elems[..k + 1][..k] == elems[..k];
  }

  lemma IndexBound(q: Request, elems: seq<Value>, size: nat, k: nat)
    requires GoodRequest(q, elems, size) && k < |elems|
    ensures Proper(elems[k], size) && size + 8 * (k * q.step + Prefix(q)) + 8 <= WORD
  {
    MulMono(k, |elems|, q.step);
  }

  /** After `k` elements the next one can be stored: the assertion of WriteOffset holds. */
  lemma LandsStorable(q: Request, elems: seq<Value>, size: nat, head: seq<byte>, k: nat)
    requires GoodRequest(q, elems, size) && k < |elems|
    requires |head| == OffsetLoc(size, HeaderElems(q), CommonWidth(q, elems, size))
    ensures
      var W := CommonWidth(q, elems, size);
      Storable(elems[k], |Elements(head, elems[..k], W)|, W, size)
  {
    hide Proper, CommonWidth, Elements;
    var W := CommonWidth(q, elems, size);
    AllAreWide(q, elems, size);
    ElementStorable(q, elems, size, k);
    ElementsSize(head, elems[..k], W, size);
    LocSplit(size, HeaderElems(q), k, W);
    LocBound(q, elems, size, k, W);
  }

  lemma HeaderPosition(buf: seq<byte>, q: Request, elems: seq<Value>)
    requires GoodRequest(q, elems, |buf|)
    ensures
      var W := CommonWidth(q, elems, |buf|);
      var at := |buf| + Padding(|buf|, Bytes(W));
      at < WORD && (q.keys.Some? ==> 0 <= q.keys.value.i <= at && at - q.keys.value.i < Capacity(W))
  {
    hide CommonWidth;
    if q.keys.Some? {
      KeysStorable(q, elems, |buf|);
      NonNegative(q.keys.value, |buf|);
    }
  }
}
