/** Finishing a buffer: the root is found, nothing else changes, and everything is aligned from the front. */
module FlatFinish {
  import opened Wrappers
  import opened Bits
  import opened FlatReader
  import opened FlatBuilder
  import opened FlatRoundTrip
  import opened FlatInvariant
  import opened FlatTables
  import opened FlatTheorems

  ghost predicate FinishAllowed(s: Session, root: nat, fileId: Option<seq<byte>>, sizePrefix: bool) {
    && root < |s.offs|
    && (fileId.Some? ==> |fileId.value| == 4)
    && |Finish(s.b, s.offs[root], fileId, sizePrefix).data| < MAX_BUFFER_SIZE
  }

  predicate HasHeader(data: seq<byte>, root: nat, fileId: Option<seq<byte>>, sizePrefix: bool) {
    var at := if sizePrefix then 4 else 0;
    && GetRoot(data, at) == To(|data| - root)
    && (fileId.Some? ==> at + 8 <= |data| && data[at + 4..at + 8] == fileId.value)
    && (sizePrefix ==> Load(data, 0, 4) == Some(|data| - 4))
  }

  /** The header, once the buffer was padded for it: no further padding is inserted. */
  lemma Header(b: Builder, root: nat, fileId: Option<seq<byte>>, sizePrefix: bool)
    requires IsPow2(b.minalign) && b.minalign % 4 == 0
    requires (|b.data| + HeaderSize(fileId, sizePrefix)) % 4 == 0
    requires 0 < root <= |b.data| && |PushHeader(b, root, fileId, sizePrefix).data| < MAX_BUFFER_SIZE
    requires fileId.Some? ==> |fileId.value| == 4
    ensures
      var r := PushHeader(b, root, fileId, sizePrefix);
      && Grown(b, r) && r.minalign == b.minalign
      && |r.data| == |b.data| + HeaderSize(fileId, sizePrefix)
      && HasHeader(r.data, root, fileId, sizePrefix)
  {
    hide IsPow2, Grown, PushElement, PushOffset, Load, Sits, Extends, Follow;
    Pow2Positive(b.minalign);
    var b1 := if fileId.Some? then PushBytes(b, fileId.value) else b;
    assert Grown(b, b1) by {
      if fileId.Some? {
        PushBytesStep(b, fileId.value);
      } else {
        GrownSelf(b);
      }
    }
    PushOffsetExact(b1, root);
    var b2 := PushOffset(b1, root);
    if sizePrefix {
      PushElementExact(b2, |b2.data|);
    }
    PushOffsetStep(b1, root);
    GrownTrans(b, b1, b2);
    GrownFacts(b1, b2);
    if sizePrefix {
      Widths();
      Width4();
      PushElementStep(b2, |b2.data|, 4);
      var b3 := PushElement(b2, |b2.data|, 4);
      GrownTrans(b, b2, b3);
      GrownFacts(b2, b3);
      FollowGrows(b2.data, b3.data, 0);
    }
  }

  lemma PushElementExact(b: Builder, v: nat)
    requires |b.data| % 4 == 0 && b.minalign >= 4
    ensures PushElement(b, v, 4).data == Encode(v, 4) + b.data
    ensures PushElement(b, v, 4).minalign == b.minalign
  {
  }

  lemma PushOffsetExact(b: Builder, off: nat)
    requires |b.data| % 4 == 0 && b.minalign >= 4
    ensures PushOffset(b, off).data == Encode(ReferTo(b, off), 4) + b.data
    ensures PushOffset(b, off).minalign == b.minalign
  {
    assert Align(b, 4).data == b.data;
  }

  lemma RootAligned(s: Session, cat: seq<Object>, root: nat)
    requires Inv(s, cat) && root < |s.offs|
    ensures s.b.minalign >= 4 && s.b.minalign % 4 == 0 && 0 < s.offs[root] <= |s.b.data|
  {
    hide IsPow2;
    assert Reads(s.b.data, s.offs[root], cat[root], s.offs, s.b.minalign);
  }

  lemma Padded(b: Builder, fileId: Option<seq<byte>>, sizePrefix: bool)
    requires IsPow2(b.minalign) && b.minalign >= 4
    ensures
      var r := PadForHeader(b, fileId, sizePrefix);
      Grown(b, r) && r.minalign == b.minalign && (|r.data| + HeaderSize(fileId, sizePrefix)) % b.minalign == 0
  {
    hide IsPow2, Grown, Extends;
    var b0, n := b.(vtables := []), HeaderSize(fileId, sizePrefix);
    PreAlignStep(b0, n, b.minalign);
    GrownLike2(b, b0, PadForHeader(b, fileId, sizePrefix));
  }

  /**
   Finish pads the buffer to its alignment, stores the way to the root, and
   leaves every object readable.
   */
  lemma FinishStep(s: Session, cat: seq<Object>, root: nat, fileId: Option<seq<byte>>, sizePrefix: bool)
    requires Inv(s, cat) && FinishAllowed(s, root, fileId, sizePrefix)
    ensures
      var r := Finish(s.b, s.offs[root], fileId, sizePrefix);
      && Grown(s.b, r) && |r.data| % r.minalign == 0
      && HasHeader(r.data, s.offs[root], fileId, sizePrefix)
      && AllRead(Session(r, s.offs), cat)
  {
    hide IsPow2, Grown, HasHeader, Extends, PadForHeader, PushHeader, AllRead, HeaderSize;
    var m := s.b.minalign;
    RootAligned(s, cat, root);
    Padded(s.b, fileId, sizePrefix);
    var b1 := PadForHeader(s.b, fileId, sizePrefix);
    GrownFacts(s.b, b1);
    ModChain(|b1.data| + HeaderSize(fileId, sizePrefix), m, 4);
    Header(b1, s.offs[root], fileId, sizePrefix);
    var b2, r := PushHeader(b1, s.offs[root], fileId, sizePrefix), Finish(s.b, s.offs[root], fileId, sizePrefix);
    GrownTrans(s.b, b1, b2);
    GrownLike(s.b, b2, r);
    AllReadLater(s, cat, r);
  }

  lemma AllReadLater(s: Session, cat: seq<Object>, b': Builder)
    requires AllRead(s, cat) && Grown(s.b, b')
    ensures AllRead(Session(b', s.offs), cat)
  {
    hide Reads, IsPow2, Extends, Divides;
    GrownFacts(s.b, b');
    forall k | 0 <= k < |cat| ensures Reads(b'.data, s.offs[k], cat[k], s.offs, b'.minalign) {
      ReadsGrows(s.b.data, b'.data, s.offs[k], cat[k], s.offs, [], s.b.minalign, b'.minalign);
      assert s.offs + [] == s.offs;
    }
  }

  // ─── Alignment seen from the front ─────────────────────────────────────────

  function WidthOf(v: Value): (r: nat) {
    match v
    case Scalar(w, _) => w
    case Ref(_) => 4
  }

  predicate Multiple(p: int, w: nat) {
    w > 0 && p % w == 0
  }

  /** Every scalar, offset and element of the object is at a position divisible by its size. */
  ghost predicate FrontAligned(data: seq<byte>, p: int, obj: Object) {
    Multiple(p, 4) &&
    match obj
    case Table(fields) =>
      && GetVTable(data, p).Some? && Multiple(GetVTable(data, p).value, 2)
      && forall i :: 0 <= i < |fields| ==>
        var o := GetOptionalFieldOffset(data, p, fields[i].id);
        o.Some? && Multiple(p + o.value, WidthOf(fields[i].value))
    case Text(_) => true
    case Scalars(w, a, values) =>
      && (values != [] ==> Multiple(p + 4, a))
      && (forall i {:trigger values[i]} :: 0 <= i < |values| ==> Multiple(p + 4 + w * i, w))
    case Refs(targets) =>
      forall i {:trigger targets[i]} :: 0 <= i < |targets| ==> Multiple(p + 4 + 4 * i, 4)
  }

  lemma FromTheFront(size: nat, off: nat, w: nat, m: nat)
    requires Sits(off, w, m) && size % m == 0
    ensures Multiple(size - off, w)
  {
    ModChain(size, m, w);
    ModSum(size, off, w);
  }

  lemma HoldsAligned(data: seq<byte>, off: nat, v: Value, offs: seq<nat>, m: nat)
    requires Holds(data, off, v, offs, m) && m > 0 && |data| % m == 0
    ensures Multiple(|data| - off, WidthOf(v))
  {
    hide Load, Follow;
    FromTheFront(|data|, off, WidthOf(v), m);
  }

  lemma ReadsAligned(data: seq<byte>, off: nat, obj: Object, offs: seq<nat>, m: nat)
    requires Reads(data, off, obj, offs, m) && m > 0 && |data| % m == 0
    ensures FrontAligned(data, |data| - off, obj)
  {
    hide Load, Follow, Holds, GetOptionalFieldOffset, HasId, FieldId, BytesAt, Multiple, GetVTable;
    FromTheFront(|data|, off, 4, m);
    var p := |data| - off;
    match obj
    case Table(fields) =>
      FromTheFront(|data|, |data| - GetVTable(data, p).value, 2, m);
      forall i | 0 <= i < |fields|
        ensures
          var o := GetOptionalFieldOffset(data, p, fields[i].id);
          o.Some? && Multiple(p + o.value, WidthOf(fields[i].value))
      {
        assert FieldReads(data, off, fields[i], offs, m);
        HoldsAligned(data, off - GetOptionalFieldOffset(data, p, fields[i].id).value, fields[i].value, offs, m);
      }
    case Text(_) =>
    case Scalars(w, a, values) =>
      if values != [] {
        FromTheFront(|data|, off - 4, a, m);
      }
      forall i {:trigger values[i]} | 0 <= i < |values| ensures Multiple(p + 4 + w * i, w) {
        HoldsAligned(data, off - 4 - w * i, Scalar(w, values[i]), offs, m);
      }
    case Refs(targets) =>
      forall i {:trigger targets[i]} | 0 <= i < |targets| ensures Multiple(p + 4 + 4 * i, 4) {
        HoldsAligned(data, off - 4 - 4 * i, Ref(targets[i]), offs, m);
      }
  }

  /**
   A finished buffer, for every legal run: its size is a multiple of its
   alignment, its root is the object asked for, and every object still reads as
   the commands asked and is aligned from the front.
   */
  lemma FinishedBuffer(cmds: seq<Command>, root: nat, fileId: Option<seq<byte>>, sizePrefix: bool)
    requires Legal(cmds) && FinishAllowed(Run(cmds), root, fileId, sizePrefix)
    ensures
      var s, cat := Run(cmds), Catalog(cmds);
      var r := Finish(s.b, s.offs[root], fileId, sizePrefix);
      && r.minalign > 0 && |r.data| % r.minalign == 0
      && HasHeader(r.data, s.offs[root], fileId, sizePrefix)
      && AllRead(Session(r, s.offs), cat)
      && (forall k :: 0 <= k < |cat| ==> FrontAligned(r.data, |r.data| - s.offs[k], cat[k]))
  {
    hide Legal, Run, Catalog, Inv, Reads, FrontAligned, HasHeader, Extends, Finish;
    RunInv(cmds);
    var s, cat := Run(cmds), Catalog(cmds);
    FinishStep(s, cat, root, fileId, sizePrefix);
    var r := Finish(s.b, s.offs[root], fileId, sizePrefix);
    GrownFacts(s.b, r);
    Pow2Positive(r.minalign);
    forall k | 0 <= k < |cat| ensures FrontAligned(r.data, |r.data| - s.offs[k], cat[k]) {
      ReadsAligned(r.data, s.offs[k], cat[k], s.offs, r.minalign);
    }
  }
}
