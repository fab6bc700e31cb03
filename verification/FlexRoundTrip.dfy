/**
 What is put into the FlexBuffers builder is read from the finished buffer: the
 whole tree, through any nesting of vectors and maps, with keys and strings shared
 or not.
 */
module FlexRoundTrip {
  import opened Wrappers
  import opened Bits
  import opened Seqs
  import opened FlatReader
  import opened FlexBuffers
  import opened FlexVectors
  import opened FlexVectorTypes
  import opened FlexKeys
  import opened FlexReader
  import opened FlexTrees

  // ─── What a value on the stack stands for ──────────────────────────────────

  /** An inline value is the number; any other leads to the tree in the buffer, a string to a C string too. */
  predicate Held(e: Env, data: seq<byte>, v: Value, t: Tree, depth: nat) {
    if IsInline(v.ty) then Legal(e, t) && (IsNumber(t) || t.Nil?) && v == Number(e, t)
    else
      && ReadAt(e.widen, data, v.i, v.minWidth, v.ty, depth) == Some(Canon(t))
      && (t.Text? ==> CString(data, v.i) == Some(UpToZero(t.chars))) && (t.Key? ==> v.minWidth == 0)
  }

  lemma HeldGrows(e: Env, data: seq<byte>, data': seq<byte>, v: Value, t: Tree, depth: nat)
    requires data <= data' && Held(e, data, v, t, depth)
    ensures Held(e, data', v, t, depth)
  {
    hide ReadAt, Legal, Number, CString, UpToZero;
    assert data' == data + data'[|data|..];
    CStringGrows(data, data'[|data|..], v.i);
    ReadAtGrows(e.widen, data, data'[|data|..], v.i, v.minWidth, v.ty, depth);
  }

  lemma ProperGrows(v: Value, size: nat, size': nat)
    requires Proper(v, size) && size <= size'
    ensures Proper(v, size')
  {
  }

  lemma NumberProper(e: Env, t: Tree, size: nat)
    requires Legal(e, t) && (IsNumber(t) || t.Nil?)
    ensures Proper(Number(e, t), size)
  {
    hide WidthI, WidthU;
    match t
    case Signed(i) => WidthIIs(i);
    case Unsigned(u) => WidthUIs(u);
    case _ =>
  }

  /** A reference to an element is read as the tree its value stands for. */
  lemma RefReads(e: Env, data: seq<byte>, p: int, W: BitWidth, w: BitWidth, v: Value, t: Tree, depth: nat)
    requires Held(e, data, v, t, depth) && ReadsValue(data, p, v, W)
    requires if IsInline(v.ty) then v.minWidth <= W else w == v.minWidth
    ensures Read(e.widen, data, Ref(p, W, w, v.ty), depth) == Some(Canon(t))
  {
    hide ReadAt, Load, WidthI, WidthU;
  }

  /** The element of a typed vector, where strings are read as keys. */
  lemma ElementReads(e: Env, data: seq<byte>, p: int, W: BitWidth, v: Value, t: Tree, depth: nat)
    requires Held(e, data, v, t, depth) && ReadsValue(data, p, v, W) && IsElement(t) && v.ty == TypeOf(t)
    requires IsInline(v.ty) ==> v.minWidth <= W
    ensures Read(e.widen, data, Ref(p, W, 0, if v.ty == FBT_STRING then FBT_KEY else v.ty), depth) == Some(AsElement(t))
  {
    hide Load, WidthI, WidthU, CString, UpToZero, Canon;
    if t.Text? {
      assert Read(e.widen, data, Ref(p, W, 0, FBT_KEY), depth) == KeyTree(CString(data, v.i));
    } else {
      SelfCanon(t);
      RefReads(e, data, p, W, 0, v, t, depth);
    }
  }

  lemma SelfCanon(t: Tree)
    requires IsElement(t)
    ensures Canon(t) == t
  {
  }

  // ─── Strings, blobs and keys ───────────────────────────────────────────────

  lemma BlobReads(buf: seq<byte>, bytes: seq<byte>, trailing: nat)
    requires |bytes| < WORD
    ensures
      var data, at := BlobBytes(buf, bytes, trailing), |BlobHeader(buf, |bytes|)|;
      && ReadBytes(data, at, WidthU(|bytes|)) == Some(bytes)
      && buf <= data && at <= |data| <= |buf| + |bytes| + trailing + 16
  {
    hide WidthU, Load, Encode, Padding;
    var w := WidthU(|bytes|);
    WidthUIs(|bytes|);
    var b := buf + Zeros(Padding(|buf|, Bytes(w)));
    Tail(b, |bytes|, w);
    var head := BlobHeader(buf, |bytes|);
    LoadPrefix(head, bytes + Zeros(trailing), |head| - Bytes(w), Bytes(w));
    Assoc(head, bytes, Zeros(trailing));
    var data := BlobBytes(buf, bytes, trailing);
    assert data[|head|..|head| + |bytes|] == bytes;
    assert data[..|buf|] == buf;
  }

  lemma {:induction false} CStringIs(data: seq<byte>, at: nat, key: seq<byte>)
    requires at + |key| < |data| && data[at..at + |key|] == key && data[at + |key|] == 0 && 0 !in key
    ensures CString(data, at) == Some(key)
    decreases |key|
  {
    if key != [] {
      assert data[at] == data[at..at + |key|][0] == key[0];
      assert data[at + 1..at + 1 + |key[1..]|] == data[at..at + |key|][1..];
      CStringIs(data, at + 1, key[1..]);
      assert key == [key[0]] + key[1..];
    }
  }

  /** Bytes that a zero follows are a C string, cut at their first zero. */
  lemma {:induction false} CStringUpTo(data: seq<byte>, at: nat, chars: seq<byte>)
    requires at + |chars| < |data| && data[at..at + |chars|] == chars && data[at + |chars|] == 0
    ensures CString(data, at) == Some(UpToZero(chars))
    decreases |chars|
  {
    if chars != [] {
      assert data[at] == data[at..at + |chars|][0] == chars[0];
      if chars[0] != 0 {
        assert data[at + 1..at + 1 + |chars[1..]|] == data[at..at + |chars|][1..];
        CStringUpTo(data, at + 1, chars[1..]);
      }
    }
  }

  lemma TextEnds(buf: seq<byte>, chars: seq<byte>)
    ensures CString(BlobBytes(buf, chars, 1), |BlobHeader(buf, |chars|)|) == Some(UpToZero(chars))
  {
    hide CString, UpToZero, BlobHeader;
    var head, data := BlobHeader(buf, |chars|), BlobBytes(buf, chars, 1);
    assert data == head + chars + Zeros(1);
    assert data[|head|..|head| + |chars|] == chars && data[|head| + |chars|] == 0;
    CStringUpTo(data, |head|, chars);
  }

  lemma KeyReads(buf: seq<byte>, key: seq<byte>)
    requires 0 !in key
    ensures CString(buf + key + [0], |buf|) == Some(key)
  {
    var data := buf + key + [0];
    assert data[|buf|..|buf| + |key|] == key;
    CStringIs(data, |buf|, key);
  }

  /** The pools lead to what they are said to hold. */
  predicate Pools(s: St) {
    && (forall key :: key in s.keys ==> CString(s.buf, s.keys[key]) == Some(key))
    && (forall c :: c in s.strings ==>
          ReadBytes(s.buf, s.strings[c], WidthU(|c|)) == Some(c) && CString(s.buf, s.strings[c]) == Some(UpToZero(c)))
  }

  lemma PoolsGrow(s: St, buf: seq<byte>)
    requires Pools(s) && s.buf <= buf
    ensures Pools(s.(buf := buf))
  {
    hide CString, ReadBytes, UpToZero;
    var more := buf[|s.buf|..];
    assert buf == s.buf + more;
    forall key | key in s.keys ensures CString(buf, s.keys[key]) == Some(key) {
      CStringGrows(s.buf, more, s.keys[key]);
    }
    forall c | c in s.strings
      ensures ReadBytes(buf, s.strings[c], WidthU(|c|)) == Some(c) && CString(buf, s.strings[c]) == Some(UpToZero(c))
    {
      BytesGrow(s.buf, more, s.strings[c], WidthU(|c|));
      CStringGrows(s.buf, more, s.strings[c]);
    }
  }

  lemma CStringPosition(data: seq<byte>, at: int)
    requires CString(data, at).Some?
    ensures 0 <= at < |data|
  {
  }

  lemma BytesPosition(data: seq<byte>, at: int, w: BitWidth)
    requires ReadBytes(data, at, w).Some?
    ensures 0 <= at <= |data|
  {
  }

  lemma TextHeld(e: Env, s: St, chars: seq<byte>)
    requires Pools(s) && |chars| < WORD
    ensures
      var r := TextPart(e, s, chars);
      && Pools(r.s) && s.buf <= r.s.buf && |r.s.buf| <= |s.buf| + |chars| + 24
      && 0 <= r.v.i <= |r.s.buf| && r.v.ty == FBT_STRING && ReadBytes(r.s.buf, r.v.i, r.v.minWidth) == Some(chars)
      && CString(r.s.buf, r.v.i) == Some(UpToZero(chars))
  {
    hide ReadBytes, CString, BlobBytes, BlobHeader, UpToZero;
    BlobReads(s.buf, chars, 1);
    TextEnds(s.buf, chars);
    PoolsGrow(s, BlobBytes(s.buf, chars, 1));
    var r := TextPart(e, s, chars);
    BytesPosition(r.s.buf, r.v.i, WidthU(|chars|));
  }

  lemma KeyHeld(e: Env, s: St, key: seq<byte>)
    requires Pools(s) && 0 !in key
    ensures
      var r := KeyPart(e, s, key);
      && Pools(r.s) && s.buf <= r.s.buf && |r.s.buf| <= |s.buf| + |key| + 1
      && CString(r.s.buf, r.v.i) == Some(key) && 0 <= r.v.i <= |r.s.buf|
  {
    hide ReadBytes, CString, UpToZero;
    KeyReads(s.buf, key);
    Assoc(s.buf, key, [0]);
    PoolsGrow(s, s.buf + key + [0]);
    var r := KeyPart(e, s, key);
    CStringPosition(r.s.buf, r.v.i);
  }

  // ─── Vectors ───────────────────────────────────────────────────────────────

  lemma VectorSize(buf: seq<byte>, q: Request, elems: seq<Value>)
    requires GoodRequest(q, elems, |buf|)
    ensures
      var data, at := VectorBytes(buf, q, elems), |Header(buf, q, CommonWidth(q, elems, |buf|))|;
      && buf <= data && Header(buf, q, CommonWidth(q, elems, |buf|)) <= data
      && |buf| <= at <= |data| <= |buf| + 9 * |elems| + 31
  {
    hide GoodRequest, CommonWidth, Header, Elements, Types, AnyBytes, Bytes, AllWide, OffsetLoc, IsInline, Proper;
    var W := CommonWidth(q, elems, |buf|);
    var head := Header(buf, q, W);
    AllAreWide(q, elems, |buf|);
    HeaderSize(buf, q, W);
    ElementsSize(head, elems, W, |buf|);
    LayoutParts(buf, head, Elements(head, elems, W), if q.typed then [] else Types(elems, W));
    LayoutParts(head, head, Elements(head, elems, W), if q.typed then [] else Types(elems, W));
    HeaderBound(buf, q, W);
    WidthBound(|elems|, W);
  }

  lemma WidthBound(n: nat, W: BitWidth)
    ensures 0 <= n * Bytes(W) <= 8 * n
  {
  }

  lemma HeaderBound(buf: seq<byte>, q: Request, W: BitWidth)
    ensures OffsetLoc(|buf|, HeaderElems(q), W) <= |buf| + 31
  {
    WidthBound(HeaderElems(q), W);
  }

  /** Element `k` of an untyped vector, as the reader's operator finds it. */
  lemma ItemReads(e: Env, buf: seq<byte>, q: Request, elems: seq<Value>, k: nat, t: Tree, depth: nat)
    requires GoodRequest(q, elems, |buf|) && !q.typed && k < |elems| && Held(e, buf, elems[k], t, depth)
    ensures
      var W := CommonWidth(q, elems, |buf|);
      var data, at := VectorBytes(buf, q, elems), |Header(buf, q, W)|;
      var ref := Item(data, at, W, |elems|, k);
      ref.Some? && Read(e.widen, data, ref.value, depth) == Some(Canon(t))
  {
    hide Held, Read, ReadsValue, VectorBytes, Header, CommonWidth, GoodRequest;
    var W := CommonWidth(q, elems, |buf|);
    AllAreWide(q, elems, |buf|);
    var data := VectorBytes(buf, q, elems);
    VectorReads(buf, q, elems, k);
    VectorTypes(buf, q, elems, k);
    HeldGrows(e, buf, data, elems[k], t, depth);
    ElementStorable(q, elems, |buf|, k);
    RefReads(e, data, |Header(buf, q, W)| + k * Bytes(W), W, StoredWidth(elems[k], W), elems[k], t, depth);
  }

  /** Element `k` of a vector whose type says the elements' type. */
  lemma TypedItemReads(e: Env, buf: seq<byte>, q: Request, elems: seq<Value>, k: nat, t: Tree, depth: nat)
    requires GoodRequest(q, elems, |buf|) && k < |elems| && Held(e, buf, elems[k], t, depth) && IsElement(t) && elems[k].ty == TypeOf(t)
    ensures
      var W := CommonWidth(q, elems, |buf|);
      var data, at := VectorBytes(buf, q, elems), |Header(buf, q, W)|;
      var ty := if elems[k].ty == FBT_STRING then FBT_KEY else elems[k].ty;
      Read(e.widen, data, TypedItem(at, W, ty, k), depth) == Some(AsElement(t))
  {
    hide Held, Read, ReadsValue, VectorBytes, Header, CommonWidth, GoodRequest, TypeOf, AsElement;
    var W := CommonWidth(q, elems, |buf|);
    AllAreWide(q, elems, |buf|);
    var data := VectorBytes(buf, q, elems);
    VectorReads(buf, q, elems, k);
    VectorSize(buf, q, elems);
    HeldGrows(e, buf, data, elems[k], t, depth);
    ElementStorable(q, elems, |buf|, k);
    ElementReads(e, data, |Header(buf, q, W)| + k * Bytes(W), W, elems[k], t, depth);
  }

  predicate HeldAll(e: Env, data: seq<byte>, vs: seq<Value>, items: seq<Tree>, depth: nat) {
    |vs| == |items| && forall k :: 0 <= k < |vs| ==> Held(e, data, vs[k], items[k], depth)
  }

  function RefOf(data: seq<byte>, at: int, w: BitWidth, n: nat, ty: Option<nat>, k: nat): (r: Option<Ref>) {
    if ty.Some? then Some(TypedItem(at, w, ty.value, k)) else Item(data, at, w, n, k)
  }

  predicate ReadsAs(e: Env, data: seq<byte>, ref: Option<Ref>, t: Tree, depth: nat) {
    ref.Some? && Read(e.widen, data, ref.value, depth) == Some(Canon(t))
  }

  predicate Gives(e: Env, data: seq<byte>, ref: Option<Ref>, t: Tree, depth: nat) {
    ref.Some? && Read(e.widen, data, ref.value, depth) == Some(t)
  }

  lemma {:induction false} ItemsRead(e: Env, data: seq<byte>, at: int, w: BitWidth, out: seq<Tree>, k: nat, ty: Option<nat>, depth: nat)
    requires k <= |out| && forall j :: 0 <= j < k ==> Gives(e, data, RefOf(data, at, w, |out|, ty, j), out[j], depth)
    ensures ReadItems(e.widen, data, at, w, |out|, k, ty, depth) == Some(out[..k])
    decreases k
  {
    hide Read, Item, TypedItem;
    if k > 0 {
      ItemsRead(e, data, at, w, out, k - 1, ty, depth);
      assert Gives(e, data, RefOf(data, at, w, |out|, ty, k - 1), out[k - 1], depth);
      assert out[..k] == out[..k - 1] + [out[k - 1]];
    }
  }

  lemma {:induction false} CanonAllAt(items: seq<Tree>, k: nat)
    requires k < |items|
    ensures CanonAll(items)[k] == Canon(items[k])
  {
    hide Canon;
    if k < |items| - 1 {
      CanonAllAt(items[..|items| - 1], k);
    }
  }

  /** The length in front of the elements. */
  lemma LengthReads(buf: seq<byte>, q: Request, elems: seq<Value>)
    requires GoodRequest(q, elems, |buf|) && !q.fixed
    ensures
      var W := CommonWidth(q, elems, |buf|);
      Load(VectorBytes(buf, q, elems), |Header(buf, q, W)| - Bytes(W), Bytes(W)) == Some(q.len)
  {
    hide GoodRequest, CommonWidth, Header, VectorBytes, Load;
    var W := CommonWidth(q, elems, |buf|);
    AllAreWide(q, elems, |buf|);
    var head, data := Header(buf, q, W), VectorBytes(buf, q, elems);
    HeaderReads(buf, q, elems);
    VectorSize(buf, q, elems);
    assert data == head + data[|head|..];
    LoadExtends(head, data[|head|..], |head| - Bytes(W), Bytes(W));
  }

  lemma ListHeld(e: Env, p: Parts, t: Tree, depth: nat)
    requires t.List? && KnownTypes(p.vs) && GoodRequest(RequestFor(e, t), p.vs, |p.s.buf|) && HeldAll(e, p.s.buf, p.vs, t.items, depth)
    ensures
      var r := VectorPart(e, p, t);
      ReadAt(e.widen, r.s.buf, r.v.i, r.v.minWidth, r.v.ty, depth + 1) == Some(Canon(t))
  {
    hide GoodRequest, CommonWidth, Header, VectorBytes, Load, Held, Item, TypedItem, ReadItems, Read, Canon, CString, AsElement;
    var q, n := RequestFor(e, t), |t.items|;
    var r, W := VectorPart(e, p, t), CommonWidth(q, p.vs, |p.s.buf|);
    LengthReads(p.s.buf, q, p.vs);
    var out := CanonAll(t.items);
    forall j | 0 <= j < n ensures Gives(e, r.s.buf, RefOf(r.s.buf, r.v.i, W, n, None, j), out[j], depth) {
      ItemReads(e, p.s.buf, q, p.vs, j, t.items[j], depth);
      CanonAllAt(t.items, j);
    }
    ItemsRead(e, r.s.buf, r.v.i, W, out, n, None, depth);
    assert out[..n] == out;
    assert Canon(t) == List(CanonAll(t.items)) by {
      CanonOf(t);
    }
  }

  lemma CanonOf(t: Tree)
    ensures t.List? ==> Canon(t) == List(CanonAll(t.items))
    ensures t.Packed? ==> Canon(t) == Packed(t.fixed, AsElements(t.items))
    ensures t.Dict? ==> Canon(t) == Dict(Sorted(CanonEntries(t.entries)))
  {
  }

  lemma PackedHeld(e: Env, p: Parts, t: Tree, depth: nat)
    requires t.Packed? && SameTypes(t.fixed, t.items) && KnownTypes(p.vs)
    requires GoodRequest(RequestFor(e, t), p.vs, |p.s.buf|) && HeldAll(e, p.s.buf, p.vs, t.items, depth)
    requires forall k :: 0 <= k < |p.vs| ==> p.vs[k].ty == TypeOf(t.items[k])
    ensures
      var r := VectorPart(e, p, t);
      ReadAt(e.widen, r.s.buf, r.v.i, r.v.minWidth, r.v.ty, depth + 1) == Some(Canon(t))
  {
    hide GoodRequest, CommonWidth, Header, VectorBytes, Load, Held, Item, TypedItem, ReadItems, Read, Canon, CString, AsElement;
    var q, n := RequestFor(e, t), |t.items|;
    var r, W := VectorPart(e, p, t), CommonWidth(q, p.vs, |p.s.buf|);
    var elem := if t.items == [] then FBT_KEY else TypeOf(t.items[0]);
    var ty, out := if elem == FBT_STRING then FBT_KEY else elem, AsElements(t.items);
    TypedVectorTypes(elem, if t.fixed then n else 0);
    forall j | 0 <= j < n ensures Gives(e, r.s.buf, RefOf(r.s.buf, r.v.i, W, n, Some(ty), j), out[j], depth) {
      TypedItemReads(e, p.s.buf, q, p.vs, j, t.items[j], depth);
    }
    ItemsRead(e, r.s.buf, r.v.i, W, out, n, Some(ty), depth);
    assert out[..n] == out;
    CanonOf(t);
    if !t.fixed {
      LengthReads(p.s.buf, q, p.vs);
    }
  }

  // ─── Maps ──────────────────────────────────────────────────────────────────

  predicate RowHeld(e: Env, data: seq<byte>, row: Keyed<Pair>, x: Keyed<Tree>, depth: nat) {
    && row.key == x.key && CString(data, row.value.k.i) == Some(row.key)
    && Held(e, data, row.value.v, x.value, depth)
  }

  predicate RowsHeld(e: Env, data: seq<byte>, rows: seq<Keyed<Pair>>, xs: seq<Keyed<Tree>>, depth: nat) {
    |rows| == |xs| && forall k :: 0 <= k < |rows| ==> RowHeld(e, data, rows[k], xs[k], depth)
  }

  lemma RowGrows(e: Env, data: seq<byte>, data': seq<byte>, row: Keyed<Pair>, x: Keyed<Tree>, depth: nat)
    requires data <= data' && RowHeld(e, data, row, x, depth)
    ensures RowHeld(e, data', row, x, depth)
  {
    hide Held, CString;
    HeldGrows(e, data, data', row.value.v, x.value, depth);
    assert data' == data + data'[|data|..];
    CStringGrows(data, data'[|data|..], row.value.k.i);
  }

  lemma {:induction false} InsertHeld(e: Env, data: seq<byte>, row: Keyed<Pair>, rows: seq<Keyed<Pair>>, x: Keyed<Tree>, xs: seq<Keyed<Tree>>, depth: nat)
    requires RowsHeld(e, data, rows, xs, depth) && RowHeld(e, data, row, x, depth)
    ensures RowsHeld(e, data, Insert(row, rows), Insert(x, xs), depth)
  {
    hide RowHeld;
    assert row.key == x.key by {
      KeysAgree(e, data, row, x, depth);
    }
    if rows != [] {
      KeysAgree(e, data, rows[0], xs[0], depth);
      if !Below(row.key, rows[0].key) {
        InsertHeld(e, data, row, rows[1..], x, xs[1..], depth);
      }
    }
  }

  lemma KeysAgree(e: Env, data: seq<byte>, row: Keyed<Pair>, x: Keyed<Tree>, depth: nat)
    requires RowHeld(e, data, row, x, depth)
    ensures row.key == x.key
  {
  }

  /** Sorting the rows on the stack sorts the entries they stand for. */
  lemma {:induction false} SortedHeld(e: Env, data: seq<byte>, rows: seq<Keyed<Pair>>, xs: seq<Keyed<Tree>>, depth: nat)
    requires RowsHeld(e, data, rows, xs, depth)
    ensures RowsHeld(e, data, Sorted(rows), Sorted(xs), depth)
  {
    hide RowHeld;
    if rows != [] {
      var last := |rows| - 1;
      SortedHeld(e, data, rows[..last], xs[..last], depth);
      InsertHeld(e, data, rows[last], Sorted(rows[..last]), xs[last], Sorted(xs[..last]), depth);
    }
  }

  function CanonEntry(x: Keyed<Tree>): (r: Keyed<Tree>) {
    Keyed(x.key, Canon(x.value))
  }

  lemma {:induction false} CanonAt(xs: seq<Keyed<Tree>>, k: nat)
    requires k < |xs|
    ensures CanonEntries(xs)[k] == CanonEntry(xs[k])
  {
    hide Canon;
    var last := |xs| - 1;
    if k < last {
      CanonAt(xs[..last], k);
    }
  }

  lemma CanonSplit(xs: seq<Keyed<Tree>>)
    requires xs != []
    ensures CanonEntries(xs)[0] == CanonEntry(xs[0]) && CanonEntries(xs)[1..] == CanonEntries(xs[1..])
  {
    hide CanonEntry, CanonEntries;
    CanonAt(xs, 0);
    forall k | 0 <= k < |xs| - 1 ensures CanonEntries(xs)[1..][k] == CanonEntries(xs[1..])[k] {
      CanonAt(xs, k + 1);
      CanonAt(xs[1..], k);
    }
  }

  lemma CanonJoin(x: Keyed<Tree>, xs: seq<Keyed<Tree>>)
    ensures CanonEntries([x] + xs) == [CanonEntry(x)] + CanonEntries(xs)
  {
    hide CanonEntry, CanonEntries;
    CanonSplit([x] + xs);
    assert ([x] + xs)[1..] == xs;
    assert CanonEntries([x] + xs) == [CanonEntries([x] + xs)[0]] + CanonEntries([x] + xs)[1..];
  }

  lemma {:induction false} CanonInsert(x: Keyed<Tree>, xs: seq<Keyed<Tree>>)
    ensures CanonEntries(Insert(x, xs)) == Insert(CanonEntry(x), CanonEntries(xs))
  {
    hide CanonEntries, Below;
    if xs != [] {
      CanonSplit(xs);
      if !Below(x.key, xs[0].key) {
        CanonInsert(x, xs[1..]);
        CanonJoin(xs[0], Insert(x, xs[1..]));
      } else {
        CanonJoin(x, xs);
      }
    } else {
      assert CanonEntries(xs) == [];
      CanonJoin(x, xs);
      assert [x] + xs == [x];
    }
  }

  lemma {:induction false} CanonSorted(xs: seq<Keyed<Tree>>)
    ensures CanonEntries(Sorted(xs)) == Sorted(CanonEntries(xs))
  {
    hide Insert, Canon;
    if xs != [] {
      var last := |xs| - 1;
      CanonSorted(xs[..last]);
      CanonInsert(xs[last], Sorted(xs[..last]));
      var c := CanonEntries(xs);
      assert c[..last] == CanonEntries(xs[..last]) && c[last] == CanonEntry(xs[last]);
    }
  }
}
