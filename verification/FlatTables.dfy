/** Tables: members are found through the vtable, whether it is new or shared. */
module FlatTables {
  import opened Wrappers
  import opened Bits
  import opened Seqs
  import opened FlatReader
  import opened FlatBuilder
  import opened FlatRoundTrip
  import opened FlatInvariant

  // ─── The vtable ────────────────────────────────────────────────────────────

  predicate GoodLoc(l: FieldLoc, loc: nat) {
    FieldId(l.id) && l.off < loc < l.off + 0x1_0000
  }

  predicate GoodLocs(locs: seq<FieldLoc>, loc: nat) {
    && (forall i :: 0 <= i < |locs| ==> GoodLoc(locs[i], loc))
    && (forall i, j :: 0 <= i < j < |locs| ==> locs[i].id != locs[j].id)
  }

  predicate HasLoc(locs: seq<FieldLoc>, id: nat) {
    exists i :: 0 <= i < |locs| && locs[i].id == id
  }

  lemma WriteSlotRead(vt: seq<byte>, id: nat, pos: nat, j: nat)
    requires id % 2 == 0 && j % 2 == 0 && id + 2 <= |vt| && j + 2 <= |vt| && pos < 0x1_0000
    ensures Load(WriteSlot(vt, id, pos), j, 2) == if j == id then Some(pos) else Load(vt, j, 2)
  {
    hide Encode, Decode;
    var r, e := WriteSlot(vt, id, pos), Encode(pos, 2);
    if j == id {
      SliceLeft(vt[..id] + e, vt[id + 2..], id, id + 2);
      TakeConcat(vt[..id], e);
      Widths();
      DecodeEncode(pos, 2);
    } else {
      assert r[j] == vt[j] && r[j + 1] == vt[j + 1];
      Two(r, j);
      Two(vt, j);
    }
  }

  /** Every location is found in its slot. */
  lemma {:induction false} SlotOf(vt: seq<byte>, locs: seq<FieldLoc>, loc: nat, i: nat)
    requires GoodLocs(locs, loc) && MaxId(locs) + 2 <= |vt| && i < |locs|
    ensures locs[i].id + 2 <= |vt|
    ensures Load(WriteSlots(vt, locs, loc), locs[i].id, 2) == Some(loc - locs[i].off)
  {
    hide Load, WriteSlot;
    var last := |locs| - 1;
    var l := locs[last];
    assert GoodLoc(l, loc) && Unsigned32(loc - l.off) == loc - l.off;
    assert GoodLoc(locs[i], loc);
    if i < last {
      SlotOf(vt, locs[..last], loc, i);
    }
    WriteSlotRead(WriteSlots(vt, locs[..last], loc), l.id, loc - l.off, locs[i].id);
  }

  /** The slots of members that were not stored keep their zeros. */
  lemma {:induction false} SlotKept(vt: seq<byte>, locs: seq<FieldLoc>, loc: nat, id: nat)
    requires GoodLocs(locs, loc) && MaxId(locs) + 2 <= |vt|
    requires id % 2 == 0 && id + 2 <= |vt| && !HasLoc(locs, id)
    ensures Load(WriteSlots(vt, locs, loc), id, 2) == Load(vt, id, 2)
  {
    hide Load, WriteSlot;
    if locs != [] {
      var last := |locs| - 1;
      var l := locs[last];
      assert GoodLoc(l, loc) && Unsigned32(loc - l.off) == loc - l.off;
      forall i | 0 <= i < last ensures locs[..last][i].id != id {
        assert locs[i].id != id;
      }
      SlotKept(vt, locs[..last], loc, id);
      WriteSlotRead(WriteSlots(vt, locs[..last], loc), l.id, loc - l.off, id);
    }
  }

  lemma {:induction false} MaxIdEven(locs: seq<FieldLoc>, loc: nat)
    requires GoodLocs(locs, loc)
    ensures MaxId(locs) % 2 == 0 && MaxId(locs) < 0xFFFE
    ensures VTableSize(locs) % 2 == 0 && VTableSize(locs) < 0x1_0000
  {
    if locs != [] {
      var last := |locs| - 1;
      assert GoodLoc(locs[last], loc);
      MaxIdEven(locs[..last], loc);
    }
  }

  lemma BlankReads(size: nat, objectSize: nat, id: nat)
    requires 4 <= size < 0x1_0000 && (id == 0 || 4 <= id) && id + 2 <= size
    ensures Load(BlankVTable(size, objectSize), id, 2) == Some(if id == 0 then size else 0)
  {
    hide Encode, Decode;
    var vt := BlankVTable(size, objectSize);
    if id == 0 {
      assert vt[0..2] == Encode(size, 2);
      Widths();
      DecodeEncode(size, 2);
    } else {
      assert vt[id..id + 2] == [0, 0];
      DecodeZeros();
    }
  }

  lemma DecodeZeros()
    ensures Decode([0, 0]) == 0
  {
    assert [0, 0][1..] == [0] && [0][1..] == [];
    assert Decode([0]) == 0;
  }

  /** The vtable: its own size first, then for each member its distance into the table or zero. */
  lemma VTableReads(locs: seq<FieldLoc>, loc: nat, start: nat, id: nat)
    requires GoodLocs(locs, loc) && (id == 0 || FieldId(id)) && id < VTableSize(locs)
    ensures id + 2 <= VTableSize(locs)
    ensures
      var r := Load(VTable(locs, loc, start), id, 2);
      && (id == 0 ==> r == Some(VTableSize(locs)))
      && (id != 0 && !HasLoc(locs, id) ==> r == Some(0))
      && (forall i :: 0 <= i < |locs| && locs[i].id == id ==> r == Some(loc - locs[i].off))
  {
    hide Load, WriteSlots, BlankVTable;
    MaxIdEven(locs, loc);
    var size := VTableSize(locs);
    var blank := BlankVTable(size, Unsigned32(loc - start));
    BlankReads(size, Unsigned32(loc - start), id);
    if HasLoc(locs, id) {
      var i :| 0 <= i < |locs| && locs[i].id == id;
      assert GoodLoc(locs[i], loc);
      SlotOf(blank, locs, loc, i);
    } else {
      SlotKept(blank, locs, loc, id);
    }
  }

  /** The second number of a vtable is the size of its table, from the vtable offset to the last member. */
  lemma TableSizeReads(locs: seq<FieldLoc>, loc: nat, start: nat)
    requires GoodLocs(locs, loc) && start <= loc && loc - start < 0x1_0000
    ensures Load(VTable(locs, loc, start), 2, 2) == Some(loc - start)
  {
    hide Load, WriteSlots, BlankVTable;
    MaxIdEven(locs, loc);
    var size := VTableSize(locs);
    assert !HasLoc(locs, 2) by {
      forall i | 0 <= i < |locs| ensures locs[i].id != 2 {
        assert GoodLoc(locs[i], loc);
      }
    }
    SlotKept(BlankVTable(size, Unsigned32(loc - start)), locs, loc, 2);
    BlankSize(size, loc - start);
  }

  lemma BlankSize(size: nat, objectSize: nat)
    requires 4 <= size && objectSize < 0x1_0000
    ensures Load(BlankVTable(size, Unsigned32(objectSize)), 2, 2) == Some(objectSize)
  {
    hide Encode, Decode;
    var vt := BlankVTable(size, objectSize);
    assert vt[2..4] == Encode(objectSize, 2);
    Widths();
    DecodeEncode(objectSize, 2);
  }

  // ─── Reading through a vtable ──────────────────────────────────────────────

  /** The table at `loc` uses the vtable at `use`, and that vtable is `vt`. */
  predicate Uses(data: seq<byte>, loc: nat, use: nat, vt: seq<byte>) {
    && loc <= |data|
    && BytesAt(data, use, vt)
    && Load(data, |data| - loc, 4) == Some(Unsigned32(use - loc))
  }

  lemma SliceOfSlice(data: seq<byte>, p: nat, n: nat, i: nat)
    requires p + n <= |data| && i + 2 <= n
    ensures data[p + i..p + i + 2] == data[p..p + n][i..i + 2]
  {
    SliceSlice(data, p, p + n, i, i + 2);
  }

  lemma ReadThrough(data: seq<byte>, loc: nat, use: nat, vt: seq<byte>, id: nat)
    requires Uses(data, loc, use, vt) && loc < 0x8000_0000 && use < 0x8000_0000
    requires |vt| >= 2 && Load(vt, 0, 2) == Some(|vt|)
    requires id + 2 <= |vt| || |vt| <= id
    ensures GetOptionalFieldOffset(data, |data| - loc, id) == if id < |vt| then Load(vt, id, 2) else Some(0)
  {
    hide Decode;
    SignedUnsigned(use - loc);
    var p := |data| - use;
    SliceOfSlice(data, p, |vt|, 0);
    if id < |vt| {
      SliceOfSlice(data, p, |vt|, id);
    }
  }

  /** A table that uses the vtable at `use` leads there. */
  lemma LeadsToVTable(data: seq<byte>, loc: nat, use: nat, vt: seq<byte>)
    requires Uses(data, loc, use, vt) && loc < 0x8000_0000 && use < 0x8000_0000
    ensures use <= |data| && GetVTable(data, |data| - loc) == Some(|data| - use)
  {
    hide Load;
    SignedUnsigned(use - loc);
  }

  /** The vtable a finished table uses. */
  function UsedVTable(b: Builder, start: nat): (r: nat) {
    match SharedVTable(b, start)
    case Some(use) => use
    case None => TableLoc(b) + VTableSize(b.locs)
  }

  lemma AlignSteps4(b: Builder)
    requires IsPow2(b.minalign)
    ensures Grown(b, Align(b, 4)) && Sits(TableLoc(b), 4, Align(b, 4).minalign)
    ensures 4 <= TableLoc(b) && |b.data| < TableLoc(b) < |b.data| + 8
  {
    hide IsPow2, Grown, Align;
    WidthPow2(4);
    AlignStep(b, 4);
    GrownFacts(b, Align(b, 4));
  }

  /** Both ways of ending a table leave it using the vtable just computed. */
  lemma EndTableUses(b: Builder, start: nat)
    requires IsPow2(b.minalign)
    requires TableLoc(b) + VTableSize(b.locs) < MAX_BUFFER_SIZE
    requires forall i :: 0 <= i < |b.vtables| ==> b.vtables[i] <= |b.data|
    ensures
      var r := EndTable(b, start);
      && Grown(b, r) && |r.data| >= TableLoc(b)
      && UsedVTable(b, start) < MAX_BUFFER_SIZE
      && Uses(r.data, TableLoc(b), UsedVTable(b, start), VTable(b.locs, TableLoc(b), start))
      && r.minalign == Align(b, 4).minalign
  {
    hide IsPow2, Grown, Align, VTable, Extends, VTableSize, Encode, Pow256, SharedVTable, Sits;
    AlignSteps4(b);
    var b1, loc, vt, r := Align(b, 4), TableLoc(b), VTable(b.locs, TableLoc(b), start), EndTable(b, start);
    GrownFacts(b, b1);
    assert Pow256(4) == 0x1_0000_0000 by {
      Widths();
    }
    match SharedVTable(b, start) {
      case Some(use) =>
        SharedIsRemembered(b, start);
        var head := Encode(Unsigned32(use - loc), 4);
        PushBytesStep(b1, head);
        GrownTrans(b, b1, PushBytes(b1, head));
        GrownLike(b, PushBytes(b1, head), r);
        GrownFacts(b, r);
        LoadEncoded(Unsigned32(use - loc), 4, b1.data);
        BytesAtGrows(b.data, r.data, use, vt);
      case None =>
        var head := Encode(Unsigned32(|vt|), 4);
        assert r.data == (vt + head) + b1.data == vt + (head + b1.data);
        PushBytesStep(b1, vt + head);
        GrownTrans(b, b1, PushBytes(b1, vt + head));
        GrownLike(b, PushBytes(b1, vt + head), r);
        LoadEncoded(Unsigned32(|vt|), 4, b1.data);
        LoadGrows(vt, head + b1.data, 0, 4);
        assert r.data[0..|vt|] == vt;
    }
  }

  lemma SharedIsRemembered(b: Builder, start: nat)
    requires SharedVTable(b, start).Some?
    ensures SharedVTable(b, start).value in b.vtables
    ensures BytesAt(b.data, SharedVTable(b, start).value, VTable(b.locs, TableLoc(b), start))
  {
  }

  // ─── Adding members ────────────────────────────────────────────────────────

  predicate Located(b: Builder, start: nat, l: FieldLoc, f: Field, offs: seq<nat>) {
    && l.id == f.id && FieldId(l.id)
    && start < l.off <= |b.data|
    && Holds(b.data, l.off, f.value, offs, b.minalign)
  }

  /** Between StartTable and EndTable: every member stored so far is where its location says. */
  predicate Building(b: Builder, start: nat, fields: seq<Field>, offs: seq<nat>) {
    && start <= |b.data|
    && |b.locs| == |fields|
    && forall i :: 0 <= i < |fields| ==> Located(b, start, b.locs[i], fields[i], offs)
  }

  /** Members do not touch the rest of the builder. */
  predicate SameRest(b: Builder, b': Builder) {
    b'.(data := b.data, locs := b.locs, minalign := b.minalign) == b
  }

  lemma BuildingGrows(b: Builder, b': Builder, start: nat, fields: seq<Field>, offs: seq<nat>, f: Field)
    requires Building(b, start, fields, offs) && Grown(b, b')
    requires b'.locs == b.locs + [FieldLoc(|b'.data|, f.id)] && FieldId(f.id)
    requires |b'.data| > |b.data| && Holds(b'.data, |b'.data|, f.value, offs, b'.minalign)
    ensures Building(b', start, fields + [f], offs)
  {
    hide Holds, FieldId, IsPow2, Extends, Divides;
    GrownFacts(b, b');
    forall i | 0 <= i < |fields| ensures Located(b', start, b'.locs[i], fields[i], offs) {
      assert Located(b, start, b.locs[i], fields[i], offs);
      HoldsGrows(b.data, b'.data, b.locs[i].off, fields[i].value, offs, [], b.minalign, b'.minalign);
      assert offs + [] == offs;
    }
  }

  lemma AddScalarStep(b: Builder, start: nat, fields: seq<Field>, offs: seq<nat>, add: Add)
    requires IsPow2(b.minalign) && Building(b, start, fields, offs)
    requires add.AddScalar? && WellTyped(add, |offs|)
    ensures
      var r := ExecAdd(b, offs, add);
      && Grown(b, r) && SameRest(b, r)
      && Building(r, start, StoredAdd(fields, add, b.forceDefaults), offs)
  {
    hide IsPow2, Grown, Building, Encode, Load, Align, Sits, PushElement, Pow256, FieldId;
    var AddScalar(id, w, v, def) := add;
    if def == Some(v) && !b.forceDefaults {
      GrownSelf(b);
    } else {
      PushElementStep(b, v, w);
      PushElementRest(b, v, w);
      var p, r := PushElement(b, v, w), ExecAdd(b, offs, add);
      GrownLike(b, p, r);
      BuildingGrows(b, r, start, fields, offs, Field(id, Scalar(w, v)));
    }
  }

  lemma PushElementRest(b: Builder, v: nat, w: nat)
    requires w >= 1
    ensures SameRest(b, PushElement(b, v, w)) && PushElement(b, v, w).locs == b.locs
    ensures SameRest(b, Align(b, w)) && Align(b, w).locs == b.locs
  {
  }

  lemma AddRefStep(b: Builder, start: nat, fields: seq<Field>, offs: seq<nat>, add: Add)
    requires IsPow2(b.minalign) && Building(b, start, fields, offs) && |b.data| < MAX_BUFFER_SIZE
    requires add.AddRef? && WellTyped(add, |offs|) && OffsetsIn(offs, |b.data|)
    ensures
      var r := ExecAdd(b, offs, add);
      && Grown(b, r) && SameRest(b, r)
      && Building(r, start, StoredAdd(fields, add, b.forceDefaults), offs)
  {
    hide IsPow2, Grown, Building, Align, Sits, PushElement, FieldId, Follow, ReferTo;
    match add
    case AddRef(_, None) => GrownSelf(b);
    case AddRef(id, Some(k)) =>
      PushOffsetStep(b, offs[k]);
      ReferToPositive(b, offs[k]);
      PushElementRest(b, 0, 4);
      PushElementRest(Align(b, 4), ReferTo(b, offs[k]), 4);
      var p, r := PushOffset(b, offs[k]), ExecAdd(b, offs, add);
      GrownLike(b, p, r);
      BuildingGrows(b, r, start, fields, offs, Field(id, Ref(k)));
  }

  /** A stored offset is never zero, so it is never taken for a default. */
  lemma ReferToPositive(b: Builder, off: nat)
    requires 0 < off <= |b.data| < MAX_BUFFER_SIZE
    ensures ReferTo(b, off) != 0
  {
  }

  lemma AddSize(b: Builder, offs: seq<nat>, add: Add)
    ensures |ExecAdd(b, offs, add).data| >= |b.data|
  {
  }

  lemma {:induction false} AddsStep(b: Builder, offs: seq<nat>, adds: seq<Add>)
    requires IsPow2(b.minalign) && b.locs == [] && OffsetsIn(offs, |b.data|)
    requires forall i :: 0 <= i < |adds| ==> WellTyped(adds[i], |offs|)
    requires |ExecAdds(b, offs, adds).data| < MAX_BUFFER_SIZE
    ensures
      var r := ExecAdds(b, offs, adds);
      && Grown(b, r) && SameRest(b, r)
      && Building(r, |b.data|, Stored(adds, b.forceDefaults), offs)
  {
    hide IsPow2, Grown, ExecAdd, StoredAdd, WellTyped, Located;
    if adds == [] {
      GrownSelf(b);
    } else {
      var init, add := adds[..|adds| - 1], adds[|adds| - 1];
      var b1, fields := ExecAdds(b, offs, init), Stored(init, b.forceDefaults);
      AddSize(b1, offs, add);
      AddsStep(b, offs, init);
      GrownFacts(b, b1);
      if add.AddScalar? {
        AddScalarStep(b1, |b.data|, fields, offs, add);
      } else {
        AddRefStep(b1, |b.data|, fields, offs, add);
      }
      GrownTrans(b, b1, ExecAdds(b, offs, adds));
    }
  }
}
