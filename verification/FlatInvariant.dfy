/** Every builder operation grows the buffer at the front and leaves a readable object there. */
module FlatInvariant {
  import opened Wrappers
  import opened Bits
  import opened FlatReader
  import opened FlatBuilder
  import opened FlatRoundTrip

  // ─── Growing ───────────────────────────────────────────────────────────────

  ghost predicate Grown(b: Builder, b': Builder) {
    && Extends(b.data, b'.data)
    && IsPow2(b'.minalign)
    && Divides(b.minalign, b'.minalign)
  }

  lemma GrownTrans(b0: Builder, b1: Builder, b2: Builder)
    requires Grown(b0, b1) && Grown(b1, b2)
    ensures Grown(b0, b2)
  {
    hide Extends, IsPow2;
    ExtendsTrans(b0.data, b1.data, b2.data);
    ModChain(b2.minalign, b1.minalign, b0.minalign);
  }

  lemma GrownLike(b0: Builder, b1: Builder, b2: Builder)
    requires Grown(b0, b1) && b1.data == b2.data && b1.minalign == b2.minalign
    ensures Grown(b0, b2)
  {
  }

  lemma Pow2Positive(a: nat)
    requires IsPow2(a)
    ensures a >= 1
  {
  }

  lemma GrownSelf(b: Builder)
    requires IsPow2(b.minalign)
    ensures Grown(b, b)
  {
    Pow2Positive(b.minalign);
    MultipleMod(b.minalign, b.minalign, 1);
  }

  /** A padding or a push at the front, with the alignment `a` tracked. */
  lemma GrownBy(b: Builder, pre: seq<byte>, a: nat, b': Builder)
    requires IsPow2(b.minalign) && IsPow2(a)
    requires b'.data == pre + b.data && b'.minalign == Max(b.minalign, a)
    ensures Grown(b, b') && Divides(a, b'.minalign)
  {
    hide IsPow2;
    Pow2Positive(a);
    Pow2Positive(b.minalign);
    if a > b.minalign {
      Pow2Divides(b.minalign, a);
      MultipleMod(a, a, 1);
    } else {
      Pow2Divides(a, b.minalign);
      MultipleMod(b.minalign, b.minalign, 1);
    }
  }

  lemma AlignStep(b: Builder, a: nat)
    requires IsPow2(b.minalign) && IsPow2(a)
    ensures a >= 1 && Grown(b, Align(b, a)) && Divides(a, Align(b, a).minalign)
    ensures |Align(b, a).data| % a == 0 && |Align(b, a).data| < |b.data| + a
    ensures |b.data| % a == 0 ==> Align(b, a).data == b.data
  {
    hide IsPow2, Grown, Divides;
    Pow2Positive(a);
    GrownBy(b, Zeros(Padding(|b.data|, a)), a, Align(b, a));
    PaddedMod(|b.data|, a);
  }

  lemma PreAlignStep(b: Builder, len: nat, a: nat)
    requires IsPow2(b.minalign) && IsPow2(a)
    ensures a >= 1 && Grown(b, PreAlign(b, len, a))
    ensures len > 0 ==> (|PreAlign(b, len, a).data| + len) % a == 0 && Divides(a, PreAlign(b, len, a).minalign)
    ensures (|b.data| + len) % a == 0 ==> PreAlign(b, len, a).data == b.data
  {
    hide IsPow2, Grown, Divides;
    Pow2Positive(a);
    if len == 0 {
      GrownSelf(b);
    } else {
      GrownBy(b, Zeros(Padding(|b.data| + len, a)), a, PreAlign(b, len, a));
      PaddedMod(|b.data| + len, a);
    }
  }

  lemma PushBytesStep(b: Builder, bytes: seq<byte>)
    requires IsPow2(b.minalign)
    ensures Grown(b, PushBytes(b, bytes))
  {
    hide IsPow2;
    GrownSelf(b);
  }

  lemma WidthPow2(w: nat)
    requires ScalarWidth(w)
    ensures IsPow2(w)
  {
    ScalarSizes();
  }

  lemma PushElementStep(b: Builder, v: nat, w: nat)
    requires IsPow2(b.minalign) && ScalarWidth(w) && v < Pow256(w)
    ensures Grown(b, PushElement(b, v, w))
    ensures Sits(|PushElement(b, v, w).data|, w, PushElement(b, v, w).minalign)
    ensures Load(PushElement(b, v, w).data, 0, w) == Some(v)
    ensures |PushElement(b, v, w).data| == |Align(b, w).data| + w > |b.data|
    ensures |b.data| % w == 0 ==> PushElement(b, v, w).data == Encode(v, w) + b.data
  {
    hide IsPow2, Grown, Encode, Load, ScalarWidth, Align;
    WidthPow2(w);
    AlignStep(b, w);
    var b1 := Align(b, w);
    assert |b.data| <= |b1.data| && IsPow2(b1.minalign) by {
      GrownFacts(b, b1);
    }
    PushBytesStep(b1, Encode(v, w));
    GrownTrans(b, b1, PushElement(b, v, w));
    LoadEncoded(v, w, b1.data);
    MultipleMod(w, w, 1);
    ModSum(|b1.data|, w, w);
  }

  lemma GrownFacts(b: Builder, b': Builder)
    requires Grown(b, b')
    ensures |b.data| <= |b'.data| && IsPow2(b'.minalign) && Extends(b.data, b'.data) && Divides(b.minalign, b'.minalign)
  {
  }

  lemma PushOffsetStep(b: Builder, off: nat)
    requires IsPow2(b.minalign) && 0 < off <= |b.data| < MAX_BUFFER_SIZE
    ensures Grown(b, PushOffset(b, off))
    ensures Sits(|PushOffset(b, off).data|, 4, PushOffset(b, off).minalign)
    ensures Follow(PushOffset(b, off).data, 0) == To(|PushOffset(b, off).data| - off)
    ensures |PushOffset(b, off).data| == |Align(b, 4).data| + 4 > |b.data|
  {
    hide IsPow2, Grown, Encode, Load, Align, Sits, PushElement;
    WidthPow2(4);
    AlignStep(b, 4);
    var b1 := Align(b, 4);
    GrownFacts(b, b1);
    var d := |b1.data| - off + 4;
    assert Unsigned32(d) == d;
    Widths();
    PushElementStep(b1, d, 4);
    AlignStep(b1, 4);
    GrownTrans(b, b1, PushOffset(b, off));
  }

  // ─── Strings and vectors ───────────────────────────────────────────────────

  lemma StringStep(b: Builder, s: seq<byte>, offs: seq<nat>)
    requires IsPow2(b.minalign) && |CreateString(b, s).data| < MAX_BUFFER_SIZE
    ensures
      var r := CreateString(b, s);
      Grown(b, r) && |r.data| > |b.data| && Reads(r.data, |r.data|, Text(s), offs, r.minalign)
  {
    hide IsPow2, Grown, Encode, Load, Align, Sits, PushElement, PreAlign, Extends;
    WidthPow2(4);
    PreAlignStep(b, |s| + 1, 4);
    var b1 := PreAlign(b, |s| + 1, 4);
    GrownFacts(b, b1);
    PushBytesStep(b1, s + [0]);
    var b2 := PushBytes(b1, s + [0]);
    Widths();
    assert |s| < Pow256(4) by {
      PushElementSize(b2, |s|);
    }
    PushElementStep(b2, |s|, 4);
    var r := PushElement(b2, |s|, 4);
    GrownTrans(b, b1, b2);
    GrownTrans(b, b2, r);
    assert r.data == Encode(|s|, 4) + b2.data;
    assert r.data[4..4 + |s| + 1] == s + [0];
  }

  lemma PushElementSize(b: Builder, v: nat)
    ensures |PushElement(b, v, 4).data| >= |b.data| + 4
  {
  }

  lemma VectorStartStep(b: Builder, len: nat, w: nat, a: nat)
    requires IsPow2(b.minalign) && ScalarWidth(w) && IsPow2(a) && a >= w
    ensures
      var r := StartVector(b, len, w, a);
      && Grown(b, r)
      && (len > 0 ==> (|r.data| + len * w) % 4 == 0 && Sits(|r.data| + len * w, a, r.minalign))
  {
    hide IsPow2, Grown, PreAlign, Divides;
    WidthPow2(4);
    var n := len * w;
    PreAlignStep(b, n, 4);
    var b1 := PreAlign(b, n, 4);
    GrownFacts(b, b1);
    PreAlignStep(b1, n, a);
    var r := PreAlign(b1, n, a);
    GrownTrans(b, b1, r);
    if len > 0 {
      assert n > 0 by {
        MulAtLeast(w, len);
      }
      assert Sits(|r.data| + n, a, r.minalign) by {
        DividesFacts(a, r.minalign);
      }
      if a >= 4 {
        Pow2Divides(4, a);
        ModChain(|r.data| + n, a, 4);
      } else {
        Pow2Divides(a, 4);
        ModChain(|b1.data| + n, 4, a);
      }
    }
  }

  lemma DividesFacts(a: nat, m: nat)
    requires Divides(a, m)
    ensures a > 0 && m > 0 && m % a == 0
  {
  }

  /** Element `i` of an encoded array is at `w * i`. */
  lemma {:induction false} EncodeAllAt(values: seq<nat>, w: nat, i: nat)
    requires i < |values| && values[i] < Pow256(w)
    ensures w * i + w <= |EncodeAll(values, w)|
    ensures Load(EncodeAll(values, w), w * i, w) == Some(values[i])
  {
    var rest := EncodeAll(values[1..], w);
    if i == 0 {
      LoadEncoded(values[0], w, rest);
    } else {
      hide Load, Pow256, Encode;
      EncodeAllAt(values[1..], w, i - 1);
      assert w * i == w + w * (i - 1);
      LoadGrows(Encode(values[0], w), rest, w * (i - 1), w);
    }
  }

  lemma VectorStep(b: Builder, values: seq<nat>, w: nat, a: nat, offs: seq<nat>)
    requires IsPow2(b.minalign) && ScalarWidth(w) && IsPow2(a) && 1 <= w <= a
    requires forall i :: 0 <= i < |values| ==> values[i] < Pow256(w)
    requires |CreateVector(b, values, w, a).data| < MAX_BUFFER_SIZE
    ensures
      var r := CreateVector(b, values, w, a);
      Grown(b, r) && |r.data| > |b.data| && Reads(r.data, |r.data|, Scalars(w, a, values), offs, r.minalign)
  {
    hide IsPow2, Grown, Encode, Load, Align, Sits, PushElement, StartVector, Extends, EncodeAll, Pow256, ScalarWidth;
    VectorStartStep(b, |values|, w, a);
    var b1 := StartVector(b, |values|, w, a);
    GrownFacts(b, b1);
    var body := EncodeAll(values, w);
    PushBytesStep(b1, body);
    var b2 := PushBytes(b1, body);
    var n := |values|;
    assert n < Pow256(4) by {
      Widths();
      PushElementSize(b2, n);
      MulAtMost(n, w);
    }
    assert ScalarWidth(4) by {
      Width4();
    }
    PushElementStep(b2, n, 4);
    var r := PushElement(b2, n, 4);
    GrownTrans(b, b1, b2);
    GrownTrans(b, b2, r);
    GrownFacts(b2, r);
    DividesFacts(b2.minalign, r.minalign);
    if n > 0 {
      assert r.data == Encode(n, 4) + b2.data;
      SitsGrows(|b2.data|, a, b2.minalign, r.minalign);
      VectorElements(r, values, w, a, b1.data, offs);
    }
  }

  lemma Width4()
    ensures ScalarWidth(4)
  {
  }

  lemma MulAtMost(n: nat, w: nat)
    requires w >= 1
    ensures n * w >= n
  {
  }

  lemma VectorElement(data: seq<byte>, m: nat, values: seq<nat>, w: nat, tail: seq<byte>, offs: seq<nat>, i: nat)
    requires data == Encode(|values|, 4) + (EncodeAll(values, w) + tail)
    requires Sits(|data| - 4, w, m) && i < |values| && values[i] < Pow256(w)
    ensures w * i <= |data| - 4 && Holds(data, |data| - 4 - w * i, Scalar(w, values[i]), offs, m)
  {
    hide Encode, Load, EncodeAll, Pow256;
    EncodeAllAt(values, w, i);
    var body := EncodeAll(values, w);
    LoadPrefix(body, tail, w * i, w);
    LoadGrows(Encode(|values|, 4), body + tail, w * i, w);
    MultipleMod(w * i, w, i);
    ModSum(|data| - 4, w * i, w);
  }

  lemma SitsDivisor(off: nat, w: nat, a: nat, m: nat)
    requires ScalarWidth(w) && IsPow2(a) && w <= a && Sits(off, a, m)
    ensures Sits(off, w, m)
  {
    hide IsPow2, ScalarWidth;
    WidthPow2(w);
    Pow2Divides(w, a);
    ModChain(off, a, w);
    ModChain(m, a, w);
  }

  lemma VectorElements(r: Builder, values: seq<nat>, w: nat, a: nat, tail: seq<byte>, offs: seq<nat>)
    requires r.data == Encode(|values|, 4) + (EncodeAll(values, w) + tail)
    requires ScalarWidth(w) && IsPow2(a) && w <= a && Sits(|r.data| - 4, a, r.minalign)
    requires forall i :: 0 <= i < |values| ==> values[i] < Pow256(w)
    ensures forall i :: 0 <= i < |values| ==>
      w * i <= |r.data| - 4 && Holds(r.data, |r.data| - 4 - w * i, Scalar(w, values[i]), offs, r.minalign)
  {
    hide IsPow2, Encode, Load, EncodeAll, Pow256, ScalarWidth, Holds, Sits;
    SitsDivisor(|r.data| - 4, w, a, r.minalign);
    forall i | 0 <= i < |values|
      ensures w * i <= |r.data| - 4 && Holds(r.data, |r.data| - 4 - w * i, Scalar(w, values[i]), offs, r.minalign)
    {
      VectorElement(r.data, r.minalign, values, w, tail, offs, i);
    }
  }

  /** Position `4 * i` holds the distance to the i-th target. */
  predicate Follows(data: seq<byte>, offs: seq<nat>) {
    forall i :: 0 <= i < |offs| ==> Follow(data, 4 * i) == To(|data| - offs[i])
  }

  lemma FollowsCons(data: seq<byte>, data': seq<byte>, offs: seq<nat>)
    requires offs != [] && Follows(data, offs[1..])
    requires Extends(data, data') && |data'| == |data| + 4 && Follow(data', 0) == To(|data'| - offs[0])
    ensures Follows(data', offs)
  {
    hide Follow, Extends;
    forall i | 0 <= i < |offs| ensures Follow(data', 4 * i) == To(|data'| - offs[i]) {
      if i > 0 {
        assert Follow(data, 4 * (i - 1)) == To(|data| - offs[1..][i - 1]);
        FollowGrows(data, data', 4 * (i - 1));
      }
    }
  }

  /** One more offset in front of an aligned buffer. */
  lemma PushOffsetAligned(b: Builder, off: nat, offs: seq<nat>)
    requires IsPow2(b.minalign) && |b.data| % 4 == 0 && 0 < off <= |b.data| < MAX_BUFFER_SIZE && Follows(b.data, offs)
    ensures
      var r := PushOffset(b, off);
      && Grown(b, r) && |r.data| == |b.data| + 4 && IsPow2(r.minalign) && Follows(r.data, [off] + offs)
  {
    hide IsPow2, Grown, Follow, Follows, Align, Extends, Sits;
    PushOffsetStep(b, off);
    var r := PushOffset(b, off);
    assert |Align(b, 4).data| == |b.data| by {
      WidthPow2(4);
      AlignStep(b, 4);
    }
    GrownFacts(b, r);
    assert ([off] + offs)[1..] == offs;
    FollowsCons(b.data, r.data, [off] + offs);
  }

  predicate TargetsIn(offs: seq<nat>, size: nat) {
    forall i :: 0 <= i < |offs| ==> 0 < offs[i] <= size
  }

  lemma TargetsTail(offs: seq<nat>, size: nat)
    requires TargetsIn(offs, size) && offs != []
    ensures TargetsIn(offs[1..], size) && 0 < offs[0] <= size && offs == [offs[0]] + offs[1..]
  {
  }

  /** After pushing offsets onto an aligned buffer, the i-th is 4 * i bytes in. */
  lemma {:induction false} PushOffsetsStep(b: Builder, offs: seq<nat>)
    requires IsPow2(b.minalign) && |b.data| % 4 == 0 && |b.data| + 4 * |offs| < MAX_BUFFER_SIZE && TargetsIn(offs, |b.data|)
    ensures
      var r := PushOffsets(b, offs);
      && Grown(b, r) && |r.data| == |b.data| + 4 * |offs| && Follows(r.data, offs)
  {
    hide IsPow2, Grown, Follow, Follows, Align, Extends, Sits, TargetsIn, PushOffset;
    if offs == [] {
      GrownSelf(b);
      NothingFollows(b.data);
    } else {
      TargetsTail(offs, |b.data|);
      PushOffsetsStep(b, offs[1..]);
      var r1 := PushOffsets(b, offs[1..]);
      GrownFacts(b, r1);
      PushOffsetAligned(r1, offs[0], offs[1..]);
      GrownTrans(b, r1, PushOffsets(b, offs));
    }
  }

  lemma NothingFollows(data: seq<byte>)
    ensures Follows(data, [])
  {
  }

  lemma FollowGrows(data: seq<byte>, data': seq<byte>, p: nat)
    requires Extends(data, data') && Follow(data, p).To?
    ensures Follow(data', |data'| - |data| + p) == To(Follow(data, p).position + |data'| - |data|)
  {
    hide Load;
    ExtendsSplit(data, data');
    LoadGrows(data'[..|data'| - |data|], data, p, 4);
  }

  /** The offsets of the targets of a vector or a member lie in the buffer. */
  predicate OffsetsIn(offs: seq<nat>, size: nat) {
    forall k :: 0 <= k < |offs| ==> 0 < offs[k] <= size
  }

  lemma RefsHold(data: seq<byte>, data': seq<byte>, targets: seq<nat>, offs: seq<nat>, m: nat)
    requires forall i :: 0 <= i < |targets| ==> targets[i] < |offs|
    requires Follows(data, OffsetsOf(offs, targets)) && 4 * |targets| <= |data|
    requires Extends(data, data') && |data'| == |data| + 4 && Sits(|data'|, 4, m)
    ensures forall i :: 0 <= i < |targets| ==>
      4 * i <= |data'| - 4 && Holds(data', |data'| - 4 - 4 * i, Ref(targets[i]), offs, m)
  {
    hide Follow, Extends;
    var os := OffsetsOf(offs, targets);
    forall i | 0 <= i < |targets| ensures Holds(data', |data'| - 4 - 4 * i, Ref(targets[i]), offs, m) {
      assert Follow(data, 4 * i) == To(|data| - os[i]);
      FollowGrows(data, data', 4 * i);
    }
  }

  lemma {:induction false} PushOffsetsSize(b: Builder, offs: seq<nat>)
    ensures |PushOffsets(b, offs).data| >= |b.data| + 4 * |offs|
  {
    if offs != [] {
      PushOffsetsSize(b, offs[1..]);
    }
  }

  lemma TargetsOf(offs: seq<nat>, targets: seq<nat>, size: nat, size': nat)
    requires OffsetsIn(offs, size) && size <= size' && forall i :: 0 <= i < |targets| ==> targets[i] < |offs|
    ensures TargetsIn(OffsetsOf(offs, targets), size')
  {
  }

  lemma OffsetVectorStep(b: Builder, targets: seq<nat>, offs: seq<nat>)
    requires IsPow2(b.minalign) && OffsetsIn(offs, |b.data|)
    requires forall i :: 0 <= i < |targets| ==> targets[i] < |offs|
    requires |CreateOffsetVector(b, OffsetsOf(offs, targets)).data| < MAX_BUFFER_SIZE
    ensures
      var r := CreateOffsetVector(b, OffsetsOf(offs, targets));
      Grown(b, r) && |r.data| > |b.data| && Reads(r.data, |r.data|, Refs(targets), offs, r.minalign)
  {
    hide IsPow2, Grown, Encode, Load, Align, Sits, PushElement, StartVector, Extends, Follow, PushOffsets, Follows, Holds;
    var os, n := OffsetsOf(offs, targets), |targets|;
    Width4();
    WidthPow2(4);
    VectorStartStep(b, n, 4, 4);
    var b1 := StartVector(b, n, 4, 4);
    GrownFacts(b, b1);
    var b2 := PushOffsets(b1, os);
    PushOffsetsSize(b1, os);
    PushElementSize(b2, n);
    assert n < Pow256(4) by {
      Widths();
    }
    assert Grown(b1, b2) by {
      if n == 0 {
        GrownSelf(b1);
        PushNoOffsets(b1);
      } else {
        PushOffsetsStep(b1, os) by {
          TargetsOf(offs, targets, |b.data|, |b1.data|);
        }
      }
    }
    GrownFacts(b1, b2);
    PushElementStep(b2, n, 4);
    var r := PushElement(b2, n, 4);
    GrownTrans(b, b1, b2);
    GrownTrans(b, b2, r);
    GrownFacts(b2, r);
    if n > 0 {
      PushOffsetsStep(b1, os) by {
        TargetsOf(offs, targets, |b.data|, |b1.data|);
      }
      RefsHold(b2.data, r.data, targets, offs, r.minalign);
    }
  }

  lemma PushNoOffsets(b: Builder)
    ensures PushOffsets(b, []) == b
  {
  }
}
