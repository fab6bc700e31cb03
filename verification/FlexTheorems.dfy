/** The round trip of whole trees through the FlexBuffers builder, and lookups in maps. */
module FlexTheorems {
  import opened Wrappers
  import opened Bits
  import opened Seqs
  import opened FlatReader
  import opened FlexBuffers
  import opened FlexVectors
  import opened FlexVectorTypes
  import opened FlexKeys
  import opened FlexReader
  import opened FlexTrees
  import opened FlexRoundTrip

  // ─── The two vectors of a map ──────────────────────────────────────────────

  predicate RowsProper(rows: seq<Keyed<Pair>>, size: nat) {
    forall k :: 0 <= k < |rows| ==> Proper(rows[k].value.k, size) && Proper(rows[k].value.v, size)
  }

  /** Both vectors of a map can be written. */
  predicate MapFits(s: St, rows: seq<Keyed<Pair>>) {
    KnownRows(rows) && RowsProper(rows, |s.buf|) && |s.buf| + 32 * |rows| + 100 <= WORD
  }

  /** They can, and the rows stand for the entries. */
  predicate MapReady(e: Env, s: St, rows: seq<Keyed<Pair>>, xs: seq<Keyed<Tree>>, depth: nat) {
    MapFits(s, rows) && RowsHeld(e, s.buf, rows, xs, depth)
  }

  lemma KeysGood(e: Env, s: St, rows: seq<Keyed<Pair>>)
    requires MapFits(s, rows)
    ensures GoodRequest(KeysRequest(e, |rows|), KeyValues(rows), |s.buf|)
    ensures
      var p := KeysPart(e, s, rows);
      && s.buf <= p.s.buf && |p.s.buf| <= |s.buf| + 9 * |rows| + 31 && 0 <= p.v.i <= |p.s.buf|
      && p.v.ty == 14
  {
    hide CommonWidth, Header, VectorBytes, Proper, RowHeld;
    VectorSize(s.buf, KeysRequest(e, |rows|), KeyValues(rows));
  }

  lemma ValuesGood(e: Env, s: St, rows: seq<Keyed<Pair>>)
    requires MapFits(s, rows)
    ensures
      var p := KeysPart(e, s, rows);
      var r := ValuesPart(e, p, rows);
      && GoodRequest(ValuesRequest(e, |rows|, p.v), Values(rows), |p.s.buf|)
      && p.s.buf <= r.s.buf && |r.s.buf| <= |s.buf| + 18 * |rows| + 62 && 0 <= r.v.i <= |r.s.buf|
  {
    hide CommonWidth, Header, VectorBytes, RowHeld, KeysPart;
    KeysGood(e, s, rows);
    var p := KeysPart(e, s, rows);
    var q, vs := ValuesRequest(e, |rows|, p.v), Values(rows);
    forall k | 0 <= k < |vs| ensures Proper(vs[k], |p.s.buf|) {
      ProperGrows(rows[k].value.v, |s.buf|, |p.s.buf|);
    }
    hide Proper;
    VectorSize(p.s.buf, q, vs);
  }

  /** The keys of a map: where they are, and each of them. */
  lemma KeyRead(e: Env, s: St, rows: seq<Keyed<Pair>>, xs: seq<Keyed<Tree>>, depth: nat, k: nat)
    requires MapReady(e, s, rows, xs, depth) && k < |rows|
    ensures
      var p := KeysPart(e, s, rows);
      KeyOf(p.s.buf, KeyVector(p.v.i, p.v.minWidth, |rows|), k) == Some(xs[k].key)
  {
    hide CommonWidth, Header, VectorBytes, CString, Load, GoodRequest, Held;
    KeysGood(e, s, rows);
    var p, q, ks := KeysPart(e, s, rows), KeysRequest(e, |rows|), KeyValues(rows);
    VectorReads(s.buf, q, ks, k);
    assert RowHeld(e, s.buf, rows[k], xs[k], depth);
    RowGrows(e, s.buf, p.s.buf, rows[k], xs[k], depth);
  }

  lemma WidthOfBytes(w: BitWidth)
    ensures WidthOf(Bytes(w) % 0x100) == Some(w)
  {
  }

  lemma KeysRead(e: Env, s: St, rows: seq<Keyed<Pair>>, xs: seq<Keyed<Tree>>, depth: nat)
    requires MapReady(e, s, rows, xs, depth)
    ensures
      var p := KeysPart(e, s, rows);
      var r := ValuesPart(e, p, rows);
      Keys(r.s.buf, r.v.i, r.v.minWidth) == Some(KeyVector(p.v.i, p.v.minWidth, |rows|))
  {
    hide CommonWidth, Header, VectorBytes, CString, Load, GoodRequest, MapReady, Proper;
    KnownOfReady(e, s, rows, xs, depth);
    KeysGood(e, s, rows);
    ValuesGood(e, s, rows);
    var p := KeysPart(e, s, rows);
    var r := ValuesPart(e, p, rows);
    var q, vs := ValuesRequest(e, |rows|, p.v), Values(rows);
    var W := CommonWidth(q, vs, |p.s.buf|);
    var head, B := Header(p.s.buf, q, W), Bytes(W);
    HeaderReads(p.s.buf, q, vs);
    VectorSize(p.s.buf, q, vs);
    var more := r.s.buf[|head|..];
    assert r.s.buf == head + more;
    LoadExtends(head, more, |head| - 3 * B, B);
    LoadExtends(head, more, |head| - 2 * B, B);
    WidthOfBytes(p.v.minWidth);
    LengthReads(s.buf, KeysRequest(e, |rows|), KeyValues(rows));
    assert r.s.buf == p.s.buf + r.s.buf[|p.s.buf|..];
    LoadExtends(p.s.buf, r.s.buf[|p.s.buf|..], p.v.i - Bytes(p.v.minWidth), Bytes(p.v.minWidth));
  }

  lemma KnownOfReady(e: Env, s: St, rows: seq<Keyed<Pair>>, xs: seq<Keyed<Tree>>, depth: nat)
    requires MapReady(e, s, rows, xs, depth)
    ensures MapFits(s, rows) && |rows| == |xs|
  {
  }

  /** Entry `k` of a map as the reader finds it: key and value. */
  lemma EntryReads(e: Env, s: St, rows: seq<Keyed<Pair>>, xs: seq<Keyed<Tree>>, depth: nat, k: nat)
    requires MapReady(e, s, rows, xs, depth) && k < |rows|
    ensures
      var p := KeysPart(e, s, rows);
      var r := ValuesPart(e, p, rows);
      && KeyOf(r.s.buf, KeyVector(p.v.i, p.v.minWidth, |rows|), k) == Some(xs[k].key)
      && ReadsAs(e, r.s.buf, Item(r.s.buf, r.v.i, r.v.minWidth, |rows|, k), xs[k].value, depth)
  {
    hide CommonWidth, Header, VectorBytes, KeyOf, Load, GoodRequest, Held, Read, Item, Proper;
    ValuesGood(e, s, rows);
    KeysGood(e, s, rows);
    KeyRead(e, s, rows, xs, depth, k);
    var p := KeysPart(e, s, rows);
    var r := ValuesPart(e, p, rows);
    assert RowHeld(e, s.buf, rows[k], xs[k], depth);
    HeldGrows(e, s.buf, p.s.buf, rows[k].value.v, xs[k].value, depth);
    assert r.s.buf == p.s.buf + r.s.buf[|p.s.buf|..];
    KeyOfGrows(p.s.buf, r.s.buf[|p.s.buf|..], KeyVector(p.v.i, p.v.minWidth, |rows|), k);
    ItemReads(e, p.s.buf, ValuesRequest(e, |rows|, p.v), Values(rows), k, xs[k].value, depth);
  }

  predicate EntryAs(e: Env, data: seq<byte>, at: int, w: BitWidth, n: nat, kv: KeyVector, k: nat, x: Keyed<Tree>, depth: nat) {
    KeyOf(data, kv, k) == Some(x.key) && ReadsAs(e, data, Item(data, at, w, n, k), x.value, depth)
  }

  lemma {:induction false} EntriesRead(e: Env, data: seq<byte>, at: int, w: BitWidth, xs: seq<Keyed<Tree>>, k: nat, kv: KeyVector, depth: nat)
    requires k <= |xs| && forall j :: 0 <= j < k ==> EntryAs(e, data, at, w, |xs|, kv, j, xs[j], depth)
    ensures ReadEntries(e.widen, data, at, w, |xs|, k, kv, depth) == Some(CanonEntries(xs[..k]))
    decreases k
  {
    hide Read, Item, KeyOf, Canon;
    if k > 0 {
      EntriesRead(e, data, at, w, xs, k - 1, kv, depth);
      assert EntryAs(e, data, at, w, |xs|, kv, k - 1, xs[k - 1], depth);
      assert xs[..k][..k - 1] == xs[..k - 1];
    }
  }

  /** A map written from sorted rows reads back as the entries they stand for. */
  lemma DictHeld(e: Env, s: St, rows: seq<Keyed<Pair>>, xs: seq<Keyed<Tree>>, depth: nat)
    requires MapReady(e, s, rows, xs, depth)
    ensures
      var r := ValuesPart(e, KeysPart(e, s, rows), rows);
      ReadAt(e.widen, r.s.buf, r.v.i, r.v.minWidth, r.v.ty, depth + 1) == Some(Dict(CanonEntries(xs)))
  {
    hide CommonWidth, Header, VectorBytes, KeyOf, Load, GoodRequest, Held, ReadsAs, Item, Proper, MapReady, ReadEntries, Keys, Canon, CanonEntries;
    KnownOfReady(e, s, rows, xs, depth);
    ValuesGood(e, s, rows);
    KeysRead(e, s, rows, xs, depth);
    var p := KeysPart(e, s, rows);
    var r := ValuesPart(e, p, rows);
    var kv := KeyVector(p.v.i, p.v.minWidth, |rows|);
    LengthReads(p.s.buf, ValuesRequest(e, |rows|, p.v), Values(rows));
    forall j | 0 <= j < |xs| ensures EntryAs(e, r.s.buf, r.v.i, r.v.minWidth, |xs|, kv, j, xs[j], depth) {
      EntryReads(e, s, rows, xs, depth, j);
    }
    EntriesRead(e, r.s.buf, r.v.i, r.v.minWidth, xs, |xs|, kv, depth);
    assert xs[..|xs|] == xs;
  }

  // ─── Whole trees ───────────────────────────────────────────────────────────

  /** What putting a tree into a builder leaves: the earlier bytes, and a value that stands for the tree. */
  predicate Sound(e: Env, s: St, r: Part, t: Tree, depth: nat) {
    && Pools(r.s) && s.buf <= r.s.buf && |r.s.buf| <= |s.buf| + Room(t)
    && Proper(r.v, |r.s.buf|) && Held(e, r.s.buf, r.v, t, depth)
  }

  predicate SoundAll(e: Env, s: St, p: Parts, items: seq<Tree>, depth: nat) {
    && Pools(p.s) && s.buf <= p.s.buf && |p.s.buf| <= |s.buf| + RoomAll(items)
    && HeldAll(e, p.s.buf, p.vs, items, depth) && forall k :: 0 <= k < |p.vs| ==> Proper(p.vs[k], |p.s.buf|)
  }

  predicate SoundEntries(e: Env, s: St, p: Rows, xs: seq<Keyed<Tree>>, depth: nat) {
    && Pools(p.s) && s.buf <= p.s.buf && |p.s.buf| <= |s.buf| + RoomEntries(xs)
    && RowsHeld(e, p.s.buf, p.rows, xs, depth) && RowsProper(p.rows, |p.s.buf|)
  }

  lemma LeafSound(e: Env, s: St, t: Tree, depth: nat)
    requires Legal(e, t) && Pools(s) && |s.buf| + Room(t) <= WORD && !t.List? && !t.Packed? && !t.Dict?
    ensures Sound(e, s, Build(e, s, t), t, depth)
  {
    hide Pools, ReadBytes, BlobBytes, BlobHeader, WidthU, WidthI, CString, UpToZero;
    if t.Text? {
      TextHeld(e, s, t.chars);
    } else if t.Key? {
      KeyHeld(e, s, t.chars);
    } else if t.Blob? {
      BlobReads(s.buf, t.bytes, 0);
      PoolsGrow(s, BlobBytes(s.buf, t.bytes, 0));
    } else {
      NumberProper(e, t, |s.buf|);
    }
  }

  lemma {:induction false} ElementsBuilt(e: Env, s: St, items: seq<Tree>, k: nat)
    requires LegalAll(e, items) && k < |items| && IsElement(items[k])
    ensures BuildAll(e, s, items).vs[k].ty == TypeOf(items[k])
  {
    hide Build, Legal, TypeOf, IsElement;
    var last := |items| - 1;
    if k < last {
      ElementsBuilt(e, s, items[..last], k);
    } else {
      ElementBuilt(e, BuildAll(e, s, items[..last]).s, items[last]);
    }
  }

  lemma ElementBuilt(e: Env, s: St, t: Tree)
    requires Legal(e, t) && IsElement(t)
    ensures Build(e, s, t).v.ty == TypeOf(t)
  {
  }

  lemma VectorSound(e: Env, s: St, p: Parts, t: Tree, depth: nat)
    requires Legal(e, t) && (t.List? || t.Packed?) && |s.buf| + Room(t) <= WORD && KnownTypes(p.vs)
    requires SoundAll(e, s, p, t.items, depth)
    requires t.Packed? ==> forall k :: 0 <= k < |p.vs| ==> p.vs[k].ty == TypeOf(t.items[k])
    ensures Sound(e, s, VectorPart(e, p, t), t, depth + 1)
  {
    hide CommonWidth, Header, VectorBytes, Held, Proper, Pools, ReadAt, Canon, LegalAll, RoomAll, TypeOf;
    var q, r := RequestFor(e, t), VectorPart(e, p, t);
    assert GoodRequest(q, p.vs, |p.s.buf|);
    VectorSize(p.s.buf, q, p.vs);
    PoolsGrow(p.s, r.s.buf);
    if t.List? {
      ListHeld(e, p, t, depth);
    } else {
      PackedHeld(e, p, t, depth);
    }
    VectorValueProper(t, r.v, |r.s.buf|);
    OutOfLine(e, r.s.buf, r.v, t, depth + 1);
  }

  lemma VectorValueProper(t: Tree, v: Value, size: nat)
    requires t.List? || (t.Packed? && SameTypes(t.fixed, t.items))
    requires v.ty == (if t.List? then FBT_VECTOR
      else ToTypedVector(if t.items == [] then FBT_KEY else TypeOf(t.items[0]), if t.fixed then |t.items| else 0))
    requires 0 <= v.i <= size
    ensures Proper(v, size) && !IsInline(v.ty)
  {
  }

  lemma OutOfLine(e: Env, data: seq<byte>, v: Value, t: Tree, depth: nat)
    requires !IsInline(v.ty) && !t.Text? && !t.Key? && ReadAt(e.widen, data, v.i, v.minWidth, v.ty, depth) == Some(Canon(t))
    ensures Held(e, data, v, t, depth)
  {
  }

  lemma SortedProper(rows: seq<Keyed<Pair>>, size: nat)
    requires RowsProper(rows, size)
    ensures RowsProper(Sorted(rows), size)
  {
    hide Proper;
    SortedPermutes(rows);
    var s := Sorted(rows);
    forall k | 0 <= k < |s| ensures Proper(s[k].value.k, size) && Proper(s[k].value.v, size) {
      var j := MemberOf(s, rows, k);
    }
  }

  lemma DictSound(e: Env, s: St, p: Rows, t: Tree, depth: nat)
    requires Legal(e, t) && t.Dict? && |s.buf| + Room(t) <= WORD && KnownRows(p.rows)
    requires SoundEntries(e, s, p, t.entries, depth)
    ensures KnownRows(Sorted(p.rows))
    ensures Sound(e, s, ValuesPart(e, KeysPart(e, p.s, Sorted(p.rows)), Sorted(p.rows)), t, depth + 1)
  {
    hide CommonWidth, Header, VectorBytes, Held, Proper, Pools, ReadAt, Canon, LegalEntries, RoomEntries, RowHeld, KeysPart, GoodRequest, CanonEntries, Sorted, Distinct;
    var rows, xs := Sorted(p.rows), Sorted(t.entries);
    KnownSorted(p.rows);
    SortedProper(p.rows, |p.s.buf|);
    SortedHeld(e, p.s.buf, p.rows, t.entries, depth);
    assert MapReady(e, p.s, rows, xs, depth);
    KeysGood(e, p.s, rows);
    ValuesGood(e, p.s, rows);
    DictHeld(e, p.s, rows, xs, depth);
    CanonSorted(t.entries);
    CanonOf(t);
    var r := ValuesPart(e, KeysPart(e, p.s, rows), rows);
    PoolsGrow(p.s, r.s.buf) by {
      StateKept(e, p.s, rows);
    }
    StateKept(e, p.s, rows);
    MapValueProper(r.v, |r.s.buf|);
    OutOfLine(e, r.s.buf, r.v, t, depth + 1);
  }

  lemma StateKept(e: Env, s: St, rows: seq<Keyed<Pair>>)
    requires KnownRows(rows)
    ensures
      var r := ValuesPart(e, KeysPart(e, s, rows), rows);
      r.s == s.(buf := r.s.buf)
  {
  }

  lemma MapValueProper(v: Value, size: nat)
    requires v.ty == FBT_MAP && 0 <= v.i <= size
    ensures Proper(v, size) && !IsInline(v.ty)
  {
  }

  lemma {:induction false} BuildSound(e: Env, s: St, t: Tree, depth: nat)
    requires Legal(e, t) && Pools(s) && |s.buf| + Room(t) <= WORD && Height(t) <= depth
    ensures Sound(e, s, Build(e, s, t), t, depth)
    decreases t
  {
    hide Pools, Sound, SoundAll, SoundEntries, VectorPart, KeysPart, ValuesPart, Distinct, SameTypes, BuildAll, BuildEntries, LegalAll, LegalEntries;
    if t.List? || t.Packed? {
      AllSound(e, s, t.items, depth - 1);
      var p := BuildAll(e, s, t.items);
      if t.Packed? {
        forall k | 0 <= k < |p.vs| ensures p.vs[k].ty == TypeOf(t.items[k]) {
          assert IsElement(t.items[k]) by {
            ElementAtIndex(t, k);
          }
          ElementsBuilt(e, s, t.items, k);
        }
      }
      VectorSound(e, s, p, t, depth - 1);
    } else if t.Dict? {
      EntriesSound(e, s, t.entries, depth - 1);
      DictSound(e, s, BuildEntries(e, s, t.entries), t, depth - 1);
    } else {
      LeafSound(e, s, t, depth);
    }
  }

  lemma ElementAtIndex(t: Tree, k: nat)
    requires t.Packed? && SameTypes(t.fixed, t.items) && k < |t.items|
    ensures IsElement(t.items[k])
  {
  }

  lemma {:induction false} AllSound(e: Env, s: St, items: seq<Tree>, depth: nat)
    requires LegalAll(e, items) && Pools(s) && |s.buf| + RoomAll(items) <= WORD && HeightAll(items) <= depth
    ensures SoundAll(e, s, BuildAll(e, s, items), items, depth)
    decreases items
  {
    hide Pools, Held, Proper, Build, Room, Height, Legal;
    if items != [] {
      var last := |items| - 1;
      AllSound(e, s, items[..last], depth);
      var p := BuildAll(e, s, items[..last]);
      BuildSound(e, p.s, items[last], depth);
      var r := BuildAll(e, s, items);
      forall k | 0 <= k < last ensures Held(e, r.s.buf, p.vs[k], items[k], depth) && Proper(p.vs[k], |r.s.buf|) {
        HeldGrows(e, p.s.buf, r.s.buf, p.vs[k], items[k], depth);
        ProperGrows(p.vs[k], |p.s.buf|, |r.s.buf|);
      }
    }
  }

  lemma KeyProper(v: Value, size: nat)
    requires v.ty == FBT_KEY && 0 <= v.i <= size
    ensures Proper(v, size)
  {
  }

  lemma {:induction false} EntriesSound(e: Env, s: St, xs: seq<Keyed<Tree>>, depth: nat)
    requires LegalEntries(e, xs) && Pools(s) && |s.buf| + RoomEntries(xs) <= WORD && HeightEntries(xs) <= depth
    ensures SoundEntries(e, s, BuildEntries(e, s, xs), xs, depth)
    decreases xs
  {
    hide Pools, Held, Proper, Build, Room, Height, Legal, CString;
    if xs != [] {
      var last := |xs| - 1;
      EntriesSound(e, s, xs[..last], depth);
      var p := BuildEntries(e, s, xs[..last]);
      var k, r := KeyPart(e, p.s, xs[last].key), BuildEntries(e, s, xs);
      KeyHeld(e, p.s, xs[last].key);
      BuildSound(e, k.s, xs[last].value, depth);
      hide KeyPart;
      forall j | 0 <= j < last ensures RowHeld(e, r.s.buf, p.rows[j], xs[j], depth) && Proper(p.rows[j].value.k, |r.s.buf|) && Proper(p.rows[j].value.v, |r.s.buf|) {
        assert RowHeld(e, p.s.buf, p.rows[j], xs[j], depth);
        RowGrows(e, p.s.buf, r.s.buf, p.rows[j], xs[j], depth);
        ProperGrows(p.rows[j].value.k, |p.s.buf|, |r.s.buf|);
        ProperGrows(p.rows[j].value.v, |p.s.buf|, |r.s.buf|);
      }
      var more := r.s.buf[|k.s.buf|..];
      assert r.s.buf == k.s.buf + more;
      CStringGrows(k.s.buf, more, k.v.i);
      KeyProper(k.v, |r.s.buf|);
    }
  }

  // ─── The finished buffer ───────────────────────────────────────────────────

  const EMPTY: St := St([], map[], map[])

  lemma NoPools()
    ensures Pools(EMPTY) && |EMPTY.buf| == 0
  {
  }

  /** Where the root lies in the finished buffer. */
  function RootAt(p: Part): (r: nat) {
    |p.s.buf| + Padding(|p.s.buf|, Bytes(ElemWidth(p.v, |p.s.buf|, 0)))
  }

  lemma RootLayout(p: Part)
    requires Proper(p.v, |p.s.buf|)
    ensures
      var W := ElemWidth(p.v, |p.s.buf|, 0);
      && p.s.buf <= Finished(p) && StoredAt(Finished(p), RootAt(p), p.v, W)
      && RootRef(Finished(p)) == Some(Ref(RootAt(p), W, StoredWidth(p.v, 0), p.v.ty))
  {
    hide Padding, AnyBytes, ElemWidth, PackedType;
    var v, size := p.v, |p.s.buf|;
    var W := ElemWidth(v, size, 0);
    var b, packed := p.s.buf + Zeros(Padding(size, Bytes(W))), PackedType(StoredWidth(v, 0), v.ty);
    var data, root := Finished(p), AnyBytes(v, |b|, W);
    InlineWidth(v, size);
    AnyBytesSize(v, |b|, W, size);
    WidthOfBytes(W);
    assert data == b + root + [packed, Bytes(W)];
    assert data[|b|..|b| + Bytes(W)] == root && data[..size] == p.s.buf;
    assert data[|data| - 1] == Bytes(W) && data[|data| - 2] == packed;
  }

  lemma InlineWidth(v: Value, size: nat)
    ensures IsInline(v.ty) ==> ElemWidth(v, size, 0) == v.minWidth
  {
  }

  lemma RootStorable(p: Part)
    requires Proper(p.v, |p.s.buf|) && |p.s.buf| + 16 <= WORD
    ensures Storable(p.v, RootAt(p), ElemWidth(p.v, |p.s.buf|, 0), |p.s.buf|)
  {
    hide OffsetFits, Proper, ElemWidth;
    InlineWidth(p.v, |p.s.buf|);
    if !IsInline(p.v.ty) {
      NonNegative(p.v, |p.s.buf|);
      ChosenWidthFits(p.v, |p.s.buf|, 0);
      OffsetFitsIs(|p.s.buf|, p.v.i, ElemWidth(p.v, |p.s.buf|, 0));
    }
  }

  lemma RootReads(e: Env, p: Part, t: Tree, depth: nat)
    requires Proper(p.v, |p.s.buf|) && Held(e, p.s.buf, p.v, t, depth) && |p.s.buf| + 16 <= WORD
    ensures
      var root := RootRef(Finished(p));
      root.Some? && Read(e.widen, Finished(p), root.value, depth) == Some(Canon(t))
  {
    hide Held, Read, ReadsValue, StoredAt, Storable, RootRef, RootAt, ElemWidth, Finished, Canon;
    var v, size := p.v, |p.s.buf|;
    var W := ElemWidth(v, size, 0);
    RootLayout(p);
    RootStorable(p);
    InlineWidth(v, size);
    ReadsStored(v, RootAt(p), W, size, Finished(p));
    HeldGrows(e, p.s.buf, Finished(p), v, t, depth);
    RefReads(e, Finished(p), RootAt(p), W, StoredWidth(v, 0), v, t, depth);
  }

  /**
   Every tree comes back from the finished buffer, the entries of maps in the
   order of their keys, whether keys and strings were shared or not and whatever
   minimum width was forced.
   */
  lemma TreeRoundTrip(e: Env, t: Tree, depth: nat)
    requires Legal(e, t) && Room(t) + 16 <= WORD && Height(t) <= depth
    ensures
      var data := Finished(Build(e, EMPTY, t));
      RootRef(data).Some? && Read(e.widen, data, RootRef(data).value, depth) == Some(Canon(t))
  {
    hide Held, Read, Finished, Build, Legal, Canon, Proper, RootRef, Room, Height, Pools;
    NoPools();
    BuildSound(e, EMPTY, t, depth);
    RootReads(e, Build(e, EMPTY, t), t, depth);
  }
}
