/** Whole trees through the FlexBuffers builder object, call by call. */
module FlexDriver {
  import opened Wrappers
  import opened Bits
  import opened FlexBuffers
  import opened FlexVectors
  import opened FlexVectorTypes
  import opened FlexKeys
  import opened FlexReader
  import opened FlexTrees
  import opened FlexRoundTrip
  import opened FlexTheorems
  import opened FlexBuilders

  lemma {:induction false} PickRest(stack: seq<Value>, start: nat)
    requires start <= |stack|
    ensures Pick(stack, start, 1) == stack[start..]
    decreases |stack| - start
  {
    if start < |stack| {
      PickRest(stack, start + 1);
    }
  }

  /** After its items, a vector can be ended. */
  lemma VectorCallable(e: Env, s: St, t: Tree)
    requires (t.List? || t.Packed?) && Legal(e, t) && Pools(s) && |s.buf| + Room(t) <= WORD
    ensures
      var p, q := BuildAll(e, s, t.items), RequestFor(e, t);
      && GoodRequest(q, p.vs, |p.s.buf|) && TypesAgree(q, p.vs)
      && VectorPart(e, p, t).v.ty == VectorType(q, p.vs)
  {
    hide Pools, Held, Proper, BuildAll, LegalAll, RoomAll;
    var p := BuildAll(e, s, t.items);
    AllSound(e, s, t.items, HeightAll(t.items));
    if t.Packed? {
      forall k | 0 <= k < |p.vs| ensures p.vs[k].ty == TypeOf(t.items[k]) {
        ElementsBuilt(e, s, t.items, k);
      }
    }
  }

  lemma RowsBack(buf: seq<byte>, rows: seq<Keyed<Pair>>)
    requires KnownRows(rows) && forall k :: 0 <= k < |rows| ==> CString(buf, rows[k].value.k.i) == Some(rows[k].key)
    ensures Alternates(buf, Alternating(rows)) && RowsFrom(buf, Alternating(rows)) == rows
  {
    hide CString;
    var vs := Alternating(rows);
    forall k | 0 <= k < |rows| ensures vs[2 * k] == rows[k].value.k && vs[2 * k + 1] == rows[k].value.v {
      assert 2 * k / 2 == k && (2 * k + 1) / 2 == k;
    }
  }

  lemma AlternatingNext(rows: seq<Keyed<Pair>>, row: Keyed<Pair>)
    ensures Alternating(rows + [row]) == Alternating(rows) + [row.value.k, row.value.v]
  {
  }

  /** After its entries, a map can be ended. */
  lemma MapCallable(e: Env, s: St, t: Tree)
    requires t.Dict? && Legal(e, t) && Pools(s) && |s.buf| + Room(t) <= WORD
    ensures
      var p := BuildEntries(e, s, t.entries);
      && Alternates(p.s.buf, Alternating(p.rows)) && RowsFrom(p.s.buf, Alternating(p.rows)) == p.rows
      && MapFits(p.s, p.rows) && Distinct(p.rows)
  {
    hide Pools, Held, Proper, BuildEntries, LegalEntries, RoomEntries, CString, Alternating, RowsFrom, Alternates;
    var p := BuildEntries(e, s, t.entries);
    EntriesSound(e, s, t.entries, HeightEntries(t.entries));
    forall k | 0 <= k < |p.rows| ensures CString(p.s.buf, p.rows[k].value.k.i) == Some(p.rows[k].key) && p.rows[k].key == t.entries[k].key {
      assert RowHeld(e, p.s.buf, p.rows[k], t.entries[k], HeightEntries(t.entries));
    }
    RowsBack(p.s.buf, p.rows);
  }

  method Put(b: Builder, t: Tree)
    requires Legal(b.settings, t) && Pools(b.State()) && |b.buf| + Room(t) <= WORD
    modifies b`buf, b`stack, b`keyPool, b`stringPool
    ensures
      var r := Build(b.settings, old(b.State()), t);
      b.State() == r.s && b.stack == old(b.stack) + [r.v]
    decreases t
  {
    hide Pools, Pick, WidthU, WidthI, GoodRequest, TypesAgree, VectorType, CommonWidth, Header, VectorBytes, TextPart, BlobBytes, BlobHeader, ValuesPart, KeysPart, Sorted, SameTypes, Distinct;
    ghost var e, s := b.settings, b.State();
    var start := |b.stack|;
    match t {
      case Nil => b.Null();
      case Flag(x) => b.Bool(x);
      case Signed(i) => b.Int(i);
      case Unsigned(u) => b.UInt(u);
      case Real(bits) => b.Double(bits);
      case Text(chars) => var _ := b.String(chars);
      case Blob(bytes) => var _ := b.Blob(bytes);
      case Key(chars) => var _ := b.Key(chars);
      case List(items) =>
        PutAll(b, items);
        VectorCallable(e, s, t);
        PickRest(b.stack, start);
        var _ := b.EndVector(start, RequestFor(b.settings, t));
      case Packed(_, items) =>
        PutAll(b, items);
        VectorCallable(e, s, t);
        PickRest(b.stack, start);
        var _ := b.EndVector(start, RequestFor(b.settings, t));
      case Dict(entries) =>
        PutEntries(b, entries);
        MapCallable(e, s, t);
        assert b.stack[start..] == Alternating(BuildEntries(e, s, entries).rows);
        var _ := b.EndMap(start);
    }
  }

  method PutAll(b: Builder, items: seq<Tree>)
    requires LegalAll(b.settings, items) && Pools(b.State()) && |b.buf| + RoomAll(items) <= WORD
    modifies b`buf, b`stack, b`keyPool, b`stringPool
    ensures
      var r := BuildAll(b.settings, old(b.State()), items);
      b.State() == r.s && b.stack == old(b.stack) + r.vs
    decreases items
  {
    hide Pools, Build, Room, Legal, Held, Proper;
    if items != [] {
      var last := |items| - 1;
      AllSound(b.settings, b.State(), items[..last], HeightAll(items[..last]));
      PutAll(b, items[..last]);
      Put(b, items[last]);
    }
  }

  lemma NoEntries(e: Env, s: St)
    ensures BuildEntries(e, s, []) == Rows(s, []) && Alternating([]) == []
  {
  }

  /** The last entry of a map: its key and its value can be put in, and what is then on the stack. */
  lemma EntriesNext(e: Env, s: St, entries: seq<Keyed<Tree>>)
    requires entries != [] && LegalEntries(e, entries) && Pools(s) && |s.buf| + RoomEntries(entries) <= WORD
    ensures
      var last := |entries| - 1;
      && LegalEntries(e, entries[..last]) && Legal(e, entries[last].value) && |s.buf| + RoomEntries(entries[..last]) <= WORD
      && var p := BuildEntries(e, s, entries[..last]);
      var k := KeyPart(e, p.s, entries[last].key);
      var l, r := Build(e, k.s, entries[last].value), BuildEntries(e, s, entries);
      && Pools(k.s) && |k.s.buf| + Room(entries[last].value) <= WORD
      && r.s == l.s && Alternating(r.rows) == Alternating(p.rows) + [k.v, l.v]
  {
    hide Pools, Build, Room, Legal, Held, Proper, KeyPart, Alternating;
    var last := |entries| - 1;
    EntriesSound(e, s, entries[..last], HeightEntries(entries[..last]));
    var p := BuildEntries(e, s, entries[..last]);
    KeyHeld(e, p.s, entries[last].key);
    var r := BuildEntries(e, s, entries);
    AlternatingNext(p.rows, r.rows[last]);
  }

  method PutEntries(b: Builder, entries: seq<Keyed<Tree>>)
    requires LegalEntries(b.settings, entries) && Pools(b.State()) && |b.buf| + RoomEntries(entries) <= WORD
    modifies b`buf, b`stack, b`keyPool, b`stringPool
    ensures
      var r := BuildEntries(b.settings, old(b.State()), entries);
      b.State() == r.s && b.stack == old(b.stack) + Alternating(r.rows)
    decreases entries
  {
    hide Pools, Build, Room, RoomEntries, Legal, LegalEntries, KeyPart, Alternating, BuildEntries;
    ghost var s := b.State();
    if entries != [] {
      var last := |entries| - 1;
      EntriesNext(b.settings, s, entries);
      PutEntries(b, entries[..last]);
      var _ := b.Key(entries[last].key);
      Put(b, entries[last].value);
    } else {
      NoEntries(b.settings, s);
    }
  }

  /** From a tree to a finished buffer in which the reader finds the tree, for every nesting that memory can hold. */
  method Serialize(e: Env, t: Tree) returns (data: seq<byte>)
    requires Legal(e, t) && Room(t) + 16 <= WORD
    ensures RootRef(data).Some? && Read(e.widen, data, RootRef(data).value, Height(t)) == Some(Canon(t))
  {
    hide Legal, Build, Held, Proper, Finished, Read, Canon;
    var b := new Builder(e);
    BuildSound(e, EMPTY, t, Height(t));
    Put(b, t);
    b.Finish();
    data := b.buf;
    TreeRoundTrip(e, t, Height(t));
  }
}
