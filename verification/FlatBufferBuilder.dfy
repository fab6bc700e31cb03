/**
 `FlatBufferBuilder` as an object over `vector_downward`: vtable offsets and the
 locations of the open table's members live in the scratch pad.  Each method is
 proved to compute the function of the same name in `FlatBuilder`.
 */
module FlatBufferBuilders {
  import opened Wrappers
  import opened Bits
  import opened FlatReader
  import opened VectorDownwards
  import Spec = FlatBuilder
  import opened FlatInvariant
  import opened FlatRoundTrip
  import opened FlatTables
  import opened FlatTheorems

  type FieldLoc = Spec.FieldLoc

  const FIELD_LOC_SIZE: nat := 8   // a 32-bit offset, a 16-bit id, two bytes of padding
  const MAX_LOCS: nat := 0x1_0000

  function LocBytes(l: FieldLoc): (r: seq<byte>)
    ensures |r| == 8
  {
    Encode(l.off, 4) + Encode(l.id, 2) + [0, 0]
  }

  function LocsBytes(locs: seq<FieldLoc>): (r: seq<byte>)
    ensures |r| == 8 * |locs|
  {
    if locs == [] then [] else LocsBytes(locs[..|locs| - 1]) + LocBytes(locs[|locs| - 1])
  }

  function OffsetsBytes(offs: seq<nat>): (r: seq<byte>)
    ensures |r| == 4 * |offs|
  {
    if offs == [] then [] else OffsetsBytes(offs[..|offs| - 1]) + Encode(offs[|offs| - 1], 4)
  }

  lemma LocLoads(l: FieldLoc)
    requires l.off < 0x1_0000_0000 && l.id < 0x1_0000
    ensures Load(LocBytes(l), 0, 4) == Some(l.off) && Load(LocBytes(l), 4, 2) == Some(l.id)
  {
    hide Encode, Load;
    Widths();
    assert LocBytes(l) == Encode(l.off, 4) + (Encode(l.id, 2) + [0, 0]);
    LoadEncoded(l.off, 4, Encode(l.id, 2) + [0, 0]);
    LoadEncoded(l.id, 2, [0, 0]);
    LoadGrows(Encode(l.off, 4), Encode(l.id, 2) + [0, 0], 0, 2);
  }

  lemma {:induction false} LocsLoad(locs: seq<FieldLoc>, i: nat)
    requires i < |locs| && locs[i].off < 0x1_0000_0000 && locs[i].id < 0x1_0000
    ensures Load(LocsBytes(locs), 8 * i, 4) == Some(locs[i].off)
    ensures Load(LocsBytes(locs), 8 * i + 4, 2) == Some(locs[i].id)
  {
    hide LocBytes, Load;
    var last := |locs| - 1;
    var s, t := LocsBytes(locs[..last]), LocBytes(locs[last]);
    if i < last {
      LocsLoad(locs[..last], i);
      LoadPrefix(s, t, 8 * i, 4);
      LoadPrefix(s, t, 8 * i + 4, 2);
    } else {
      LocLoads(locs[i]);
      LoadGrows(s, t, 0, 4);
      LoadGrows(s, t, 4, 2);
    }
  }

  lemma {:induction false} OffsetsLoad(offs: seq<nat>, i: nat)
    requires i < |offs| && offs[i] < 0x1_0000_0000
    ensures Load(OffsetsBytes(offs), 4 * i, 4) == Some(offs[i])
  {
    hide Encode, Load;
    var last := |offs| - 1;
    var s, t := OffsetsBytes(offs[..last]), Encode(offs[last], 4);
    if i < last {
      OffsetsLoad(offs[..last], i);
      LoadPrefix(s, t, 4 * i, 4);
    } else {
      Widths();
      LoadEncoded(offs[i], 4, []);
      assert t + [] == t;
      LoadGrows(s, t, 0, 4);
    }
  }

  predicate WholeTables(data: seq<byte>, vtables: seq<nat>) {
    forall i :: 0 <= i < |vtables| ==> Whole(data, vtables[i])
  }

  lemma WholeTablesGrow(data: seq<byte>, data': seq<byte>, vtables: seq<nat>)
    requires WholeTables(data, vtables) && Extends(data, data')
    ensures WholeTables(data', vtables)
  {
    hide Whole, Extends;
    forall i | 0 <= i < |vtables| ensures Whole(data', vtables[i]) {
      WholeGrows(data, data', vtables[i]);
    }
  }

  /** What holds of a builder's value between any two calls. */
  ghost predicate Sound(b: Spec.Builder) {
    && |b.data| < Spec.MAX_BUFFER_SIZE
    && IsPow2(b.minalign)
    && WholeTables(b.data, b.vtables)
    && 4 * |b.vtables| <= |b.data|
    && |b.locs| <= MAX_LOCS
  }

  lemma SoundGrows(b: Spec.Builder, b': Spec.Builder)
    requires Sound(b) && Grown(b, b') && |b'.data| < Spec.MAX_BUFFER_SIZE
    requires b'.vtables == b.vtables && |b'.locs| <= MAX_LOCS
    ensures Sound(b')
  {
    hide WholeTables, IsPow2, Extends, Divides;
    GrownFacts(b, b');
    WholeTablesGrow(b.data, b'.data, b.vtables);
  }

  class FlatBufferBuilder {
    const buf: VectorDownward
    var numFieldLoc: nat
    var maxVoffset: nat
    var nested: bool
    var finished: bool
    var minalign: nat
    var forceDefaults: bool
    var dedupVtables: bool

    ghost var vtables: seq<nat>      // what the scratch pad holds
    ghost var locs: seq<FieldLoc>

    ghost function View(): (b: Spec.Builder)
      reads this, buf, buf.buf
      requires buf.Valid()
    {
      Spec.Builder(buf.Data(), vtables, locs, nested, finished, minalign, forceDefaults, dedupVtables)
    }

    ghost predicate Valid()
      reads this, buf, buf.buf
    {
      && buf.Valid() && buf.maxSize == Spec.MAX_BUFFER_SIZE
      && buf.Scratch() == OffsetsBytes(vtables) + LocsBytes(locs)
      && numFieldLoc == |locs| && maxVoffset == Spec.MaxId(locs)
      && Sound(View())
    }

    constructor (initialSize: nat)
      requires initialSize < WORD / 8
      ensures Valid() && View() == Spec.Empty() && fresh(buf) && buf.buf == null
    {
      ScalarSizes();
      buf := new VectorDownward(initialSize, Spec.MAX_BUFFER_SIZE, 8);
      numFieldLoc, maxVoffset, nested, finished := 0, 0, false, false;
      minalign, forceDefaults, dedupVtables := 1, false, true;
      vtables, locs := [], [];
    }

    /** `Clear`: ready for another buffer; the two switches stay as they are. */
    method Clear()
      requires Valid()
      modifies this, buf
      ensures Valid() && buf.buf == old(buf.buf)
      ensures View() == Spec.Empty().(forceDefaults := forceDefaults, dedup := dedupVtables)
      ensures forceDefaults == old(forceDefaults) && dedupVtables == old(dedupVtables)
    {
      hide IsPow2, Sound, WholeTables, VectorDownward.Valid, VectorDownward.Data, VectorDownward.Scratch;
      numFieldLoc, maxVoffset := 0, 0;
      buf.Clear();
      nested, finished, minalign := false, false, 1;
      vtables, locs := [], [];
      SoundEmpty(View());
    }

    method ForceDefaults(fd: bool)
      requires Valid()
      modifies this`forceDefaults
      ensures Valid() && View() == old(View()).(forceDefaults := fd)
    {
      hide IsPow2, LocsBytes, OffsetsBytes, Spec.MaxId, WholeTables, VectorDownward.Valid, VectorDownward.Data, VectorDownward.Scratch;
      forceDefaults := fd;
    }

    method DedupVtables(dedup: bool)
      requires Valid()
      modifies this`dedupVtables
      ensures Valid() && View() == old(View()).(dedup := dedup)
    {
      hide IsPow2, LocsBytes, OffsetsBytes, Spec.MaxId, WholeTables, VectorDownward.Valid, VectorDownward.Data, VectorDownward.Scratch;
      dedupVtables := dedup;
    }

    method TrackMinAlign(a: nat)
      requires Valid() && IsPow2(a)
      modifies this`minalign
      ensures Valid() && View() == Spec.TrackMinAlign(old(View()), a)
    {
      if a > minalign {
        minalign := a;
      }
    }

    method Align(a: nat)
      requires Valid() && IsPow2(a) && a >= 1
      requires |Spec.Align(View(), a).data| < Spec.MAX_BUFFER_SIZE
      modifies this`minalign, buf, buf.buf
      ensures Valid() && buf.Framed() && View() == Spec.Align(old(View()), a)
    {
      hide IsPow2, Sound, LocsBytes, OffsetsBytes, Spec.MaxId, WholeTables, Grown, Extends, Divides, VectorDownward.Valid, VectorDownward.Data, VectorDownward.Scratch;
      SoundFacts(View());
      AlignStep(View(), a);
      SoundGrows(View(), Spec.Align(View(), a));
      PaddingBytesIsPadding(buf.size, a);
      TrackMinAlign(a);
      buf.Fill(PaddingBytes(buf.size, a));
    }

    method PreAlign(len: nat, a: nat)
      requires Valid() && IsPow2(a) && a >= 1 && len < SIZE_LIMIT
      requires |Spec.PreAlign(View(), len, a).data| < Spec.MAX_BUFFER_SIZE
      modifies this`minalign, buf, buf.buf
      ensures Valid() && buf.Framed() && View() == Spec.PreAlign(old(View()), len, a)
    {
      hide IsPow2, Sound, LocsBytes, OffsetsBytes, Spec.MaxId, WholeTables, Grown, Extends, Divides, VectorDownward.Valid, VectorDownward.Data, VectorDownward.Scratch;
      SoundFacts(View());
      PreAlignStep(View(), len, a);
      SoundGrows(View(), Spec.PreAlign(View(), len, a));
      if len == 0 {
        return;
      }
      PaddingBytesIsPadding(buf.size + len, a);
      TrackMinAlign(a);
      buf.Fill(PaddingBytes(buf.size + len, a));
    }

    method PushBytes(bytes: seq<byte>)
      requires Valid() && buf.size + |bytes| < Spec.MAX_BUFFER_SIZE
      modifies buf, buf.buf
      ensures Valid() && buf.Framed() && View() == Spec.PushBytes(old(View()), bytes)
    {
      hide IsPow2, Sound, LocsBytes, OffsetsBytes, Spec.MaxId, WholeTables, Grown, Extends, Divides, VectorDownward.Valid, VectorDownward.Data, VectorDownward.Scratch;
      SoundFacts(View());
      PushBytesStep(View(), bytes);
      SoundGrows(View(), Spec.PushBytes(View(), bytes));
      buf.Push(bytes);
    }

    method PushElement(v: nat, w: nat) returns (off: nat)
      requires Valid() && ScalarWidth(w) && v < Pow256(w)
      requires |Spec.PushElement(View(), v, w).data| < Spec.MAX_BUFFER_SIZE
      modifies this`minalign, buf, buf.buf
      ensures Valid() && buf.Framed() && View() == Spec.PushElement(old(View()), v, w) && off == buf.size
    {
      hide IsPow2, Sound, LocsBytes, OffsetsBytes, Spec.MaxId, Encode, Pow256, Spec.Align, VectorDownward.Valid, VectorDownward.Data, VectorDownward.Scratch;
      WidthPow2(w);
      Align(w);
      PushBytes(Encode(v, w));
      off := buf.size;
    }

    method TrackField(id: nat, off: nat)
      requires Valid() && |locs| < MAX_LOCS && id < 0x1_0000 && off == buf.size
      modifies this`numFieldLoc, this`maxVoffset, this`locs, buf, buf.buf
      ensures Valid() && buf.Framed() && View() == Spec.TrackField(old(View()), id)
    {
      hide IsPow2, Sound, OffsetsBytes, LocsBytes, WholeTables, LocBytes, Spec.MaxId, VectorDownward.Valid, VectorDownward.Data, VectorDownward.Scratch;
      SoundFacts(View());
      SoundTracked(View(), id);
      var fl := Spec.FieldLoc(off, id);
      LocsPush(OffsetsBytes(vtables), locs, fl);
      buf.ScratchPush(LocBytes(fl));
      locs := locs + [fl];
      numFieldLoc := numFieldLoc + 1;
      if id > maxVoffset {
        maxVoffset := id;
      }
    }

    /** A scalar member, with a default (`Some`) or without. */
    method AddElement(id: nat, w: nat, v: nat, def: Option<nat>)
      requires Valid() && |locs| < MAX_LOCS && id < 0x1_0000 && ScalarWidth(w) && v < Pow256(w)
      requires |Spec.AddElement(View(), id, w, v, def).data| < Spec.MAX_BUFFER_SIZE
      modifies this`minalign, this`numFieldLoc, this`maxVoffset, this`locs, buf, buf.buf
      ensures Valid() && buf.Framed() && View() == Spec.AddElement(old(View()), id, w, v, def)
    {
      hide IsPow2, Sound, LocsBytes, OffsetsBytes, Spec.MaxId, WholeTables, Pow256, Spec.PushElement, ScalarWidth, VectorDownward.Valid, VectorDownward.Data, VectorDownward.Scratch;
      if def == Some(v) && !forceDefaults {
        return;
      }
      WidthPositive(w);
      var off := PushElement(v, w);
      PushElementRest(old(View()), v, w);
      TrackField(id, off);
    }

    /** `ReferTo`: aligns, then gives the forward distance to `off`. */
    method ReferTo(off: nat) returns (d: nat)
      requires Valid() && 0 < off <= buf.size
      requires |Spec.Align(View(), 4).data| < Spec.MAX_BUFFER_SIZE
      modifies this`minalign, buf, buf.buf
      ensures Valid() && buf.Framed() && View() == Spec.Align(old(View()), 4)
      ensures d == Spec.ReferTo(old(View()), off) && 4 <= d < Pow256(4)
    {
      hide IsPow2, Sound, LocsBytes, OffsetsBytes, Spec.MaxId, WholeTables, Pow256, Spec.Align, VectorDownward.Valid, VectorDownward.Data, VectorDownward.Scratch;
      WidthPow2(4);
      AlignGrows4(View());
      Align(4);
      Widths();
      d := buf.size - off + 4;
    }

    method AddOffset(id: nat, off: nat)
      requires Valid() && |locs| < MAX_LOCS && id < 0x1_0000 && off <= buf.size
      requires |Spec.AddOffset(View(), id, off).data| < Spec.MAX_BUFFER_SIZE
      modifies this`minalign, this`numFieldLoc, this`maxVoffset, this`locs, buf, buf.buf
      ensures Valid() && buf.Framed() && View() == Spec.AddOffset(old(View()), id, off)
    {
      hide IsPow2, Sound, LocsBytes, OffsetsBytes, Spec.MaxId, WholeTables, Pow256, Spec.Align, Spec.AddElement, Spec.ReferTo, VectorDownward.Valid, VectorDownward.Data, VectorDownward.Scratch;
      if off == 0 {
        return;
      }
      AddElementSize(Spec.Align(View(), 4), id, Spec.ReferTo(View(), off), Some(0));
      PushElementRest(View(), 0, 4);
      var d := ReferTo(off);
      AddElement(id, 4, d, Some(0));
    }

    /** Pushing an `Offset<T>`, as the elements of a vector of offsets are. */
    method PushOffset(off: nat) returns (at: nat)
      requires Valid() && 0 < off <= buf.size
      requires |Spec.PushOffset(View(), off).data| < Spec.MAX_BUFFER_SIZE
      modifies this`minalign, buf, buf.buf
      ensures Valid() && buf.Framed() && View() == Spec.PushOffset(old(View()), off) && at == buf.size
    {
      hide IsPow2, Sound, LocsBytes, OffsetsBytes, Spec.MaxId, WholeTables, Pow256, Spec.Align, Spec.ReferTo, Spec.PushElement, VectorDownward.Valid, VectorDownward.Data, VectorDownward.Scratch;
      Width4();
      PushElementSize(Spec.Align(View(), 4), Spec.ReferTo(View(), off));
      var d := ReferTo(off);
      at := PushElement(d, 4);
    }

    predicate NotNested()
      reads this
    {
      !nested && numFieldLoc == 0
    }

    method StartTable() returns (start: nat)
      requires Valid() && NotNested()
      modifies this`nested
      ensures Valid() && View() == Spec.StartTable(old(View())) && start == buf.size
    {
      hide IsPow2, LocsBytes, OffsetsBytes, Spec.MaxId, WholeTables, VectorDownward.Valid, VectorDownward.Data, VectorDownward.Scratch;
      nested := true;
      start := buf.size;
    }

    /** A string of any bytes, zero-terminated. */
    method CreateString(s: seq<byte>) returns (off: nat)
      requires Valid() && NotNested() && |s| < SIZE_LIMIT - 1
      requires |Spec.CreateString(View(), s).data| < Spec.MAX_BUFFER_SIZE
      modifies this`minalign, buf, buf.buf
      ensures Valid() && buf.Framed() && View() == Spec.CreateString(old(View()), s) && off == buf.size
    {
      hide IsPow2, Sound, LocsBytes, OffsetsBytes, Spec.MaxId, WholeTables, Pow256, Spec.PreAlign, Spec.PushElement, Spec.PushBytes, VectorDownward.Valid, VectorDownward.Data, VectorDownward.Scratch;
      Width4();
      WidthPow2(4);
      ghost var b1 := Spec.PreAlign(View(), |s| + 1, 4);
      StringPushes(b1, s);
      PushElementSize(Spec.PushBytes(b1, s + [0]), |s|);
      Widths();
      PreAlign(|s| + 1, 4);
      PushBytes([0]);
      PushBytes(s);
      off := PushElement(|s|, 4);
    }

    method StartVector(len: nat, elemsize: nat, alignment: nat)
      requires Valid() && NotNested() && len * elemsize < SIZE_LIMIT && IsPow2(alignment) && alignment >= 1
      requires |Spec.StartVector(View(), len, elemsize, alignment).data| < Spec.MAX_BUFFER_SIZE
      modifies this`minalign, this`nested, buf, buf.buf
      ensures Valid() && buf.Framed()
      ensures View() == Spec.StartVector(old(View()), len, elemsize, alignment).(nested := true)
    {
      hide IsPow2, Sound, LocsBytes, OffsetsBytes, Spec.MaxId, WholeTables, Spec.PreAlign, VectorDownward.Valid, VectorDownward.Data, VectorDownward.Scratch;
      WidthPow2(4);
      PreAlignSize(Spec.PreAlign(View(), len * elemsize, 4), len * elemsize, alignment);
      PreAlign(len * elemsize, 4);
      PreAlign(len * elemsize, alignment);
      Renest(true);
    }

    method Renest(n: bool)
      requires Valid()
      modifies this`nested
      ensures Valid() && View() == old(View()).(nested := n)
    {
      hide IsPow2, LocsBytes, OffsetsBytes, Spec.MaxId, WholeTables, VectorDownward.Valid, VectorDownward.Data, VectorDownward.Scratch;
      nested := n;
    }

    method EndVector(len: nat) returns (off: nat)
      requires Valid() && nested && len < Pow256(4)
      requires |Spec.PushElement(View(), len, 4).data| < Spec.MAX_BUFFER_SIZE
      modifies this`minalign, this`nested, buf, buf.buf
      ensures Valid() && buf.Framed() && off == buf.size
      ensures View() == Spec.PushElement(old(View()).(nested := false), len, 4)
    {
      hide IsPow2, Sound, LocsBytes, OffsetsBytes, Spec.MaxId, WholeTables, Pow256, Spec.PushElement, VectorDownward.Valid, VectorDownward.Data, VectorDownward.Scratch;
      Width4();
      PushElementNested(View(), len);
      Renest(false);
      off := PushElement(len, 4);
    }

    /** A scalar in the scratch pad. */
    function ReadScratch(at: nat, w: nat): (v: nat)
      requires buf.Valid() && at + w <= buf.scratch
      reads this, buf, buf.buf
      ensures Load(buf.Scratch(), at, w) == Some(v)
    {
      Decode(buf.Scratch()[at..at + w])
    }

    /** Space for the vtable, with its size and the table's size in the first two slots. */
    method FillVTable(size: nat, objectSize: nat)
      requires buf.Valid() && size >= 4 && buf.size + size < buf.maxSize <= Spec.MAX_BUFFER_SIZE
      modifies buf, buf.buf
      ensures buf.Valid() && buf.Framed() && buf.Scratch() == old(buf.Scratch())
      ensures buf.Data() == Spec.BlankVTable(size, objectSize) + old(buf.Data())
    {
      hide IsPow2, Encode, Spec.BlankVTable, VectorDownward.Valid, VectorDownward.Data, VectorDownward.Scratch;
      HeaderWrites(size, objectSize, buf.Data());
      buf.Fill(size);
      buf.WriteAt(buf.size - 2, Encode(objectSize, 2));
      buf.WriteAt(buf.size, Encode(size, 2));
    }

    /** The loop over the members' locations in the scratch pad. */
    method FillSlots(loc: nat, ghost blank: seq<byte>, ghost tail: seq<byte>)
      requires buf.Valid() && GoodLocs(locs, loc) && loc < Spec.MAX_BUFFER_SIZE
      requires buf.Scratch() == OffsetsBytes(vtables) + LocsBytes(locs) && numFieldLoc == |locs|
      requires |blank| == Spec.VTableSize(locs) && buf.Data() == blank + tail
      modifies buf.buf
      ensures buf.Valid() && buf.Scratch() == old(buf.Scratch())
      ensures buf.Data() == Spec.WriteSlots(blank, locs, loc) + tail
    {
      hide IsPow2, LocsBytes, OffsetsBytes, Spec.VTableSize, Spec.WriteSlot, Spec.WriteSlots, GoodLocs, Load, Encode, Decode, ReadScratch, VectorDownward.Valid, VectorDownward.Data, VectorDownward.Scratch;
      var base := buf.scratch - FIELD_LOC_SIZE * numFieldLoc;
      var i := 0;
      NoSlots(blank, locs, loc);
      while i < numFieldLoc
        invariant 0 <= i <= numFieldLoc == |locs|
        invariant buf.Valid() && buf.Scratch() == old(buf.Scratch())
        invariant buf.Data() == Spec.WriteSlots(blank, locs[..i], loc) + tail
      {
        ReadLoc(vtables, locs, loc, i);
        SlotWrite(blank, locs, loc, i, tail);
        var at := base + 8 * i;
        var off, id := ReadScratch(at, 4), ReadScratch(at + 4, 2);
        buf.WriteAt(buf.size - id, Encode(Unsigned32(loc - off), 2));
        i := i + 1;
      }
      assert locs[..i] == locs;
    }

    /** The vtable of the open table, written in front of its vtable offset at `loc`. */
    method WriteVTable(loc: nat, start: nat) returns (size: nat)
      requires Valid() && GoodLocs(locs, loc) && buf.size == loc && loc - 0x1_0000 < start < loc
      requires loc + Spec.VTableSize(locs) < Spec.MAX_BUFFER_SIZE
      modifies buf, buf.buf
      ensures Valid() && buf.Framed()
      ensures View() == Spec.PushBytes(old(View()), Spec.VTable(locs, loc, start))
      ensures size == Spec.VTableSize(locs)
    {
      hide IsPow2, Sound, LocsBytes, OffsetsBytes, Spec.MaxId, WholeTables, Spec.WriteSlots, Spec.BlankVTable, GoodLocs, VectorDownward.Valid, VectorDownward.Data, VectorDownward.Scratch;
      SoundFacts(View());
      PushBytesStep(View(), Spec.VTable(locs, loc, start));
      SoundGrows(View(), Spec.PushBytes(View(), Spec.VTable(locs, loc, start)));
      ghost var tail := buf.Data();
      size := Max(maxVoffset + 2, 4);
      FillVTable(size, loc - start);
      FillSlots(loc, Spec.BlankVTable(size, loc - start), tail);
    }

    method ClearOffsets()
      requires Valid()
      modifies this`numFieldLoc, this`maxVoffset, this`locs, buf`scratch
      ensures Valid() && View() == old(View()).(locs := [])
    {
      hide IsPow2, Sound, OffsetsBytes, WholeTables, LocsBytes, Spec.MaxId, VectorDownward.Valid, VectorDownward.Data, VectorDownward.Scratch;
      SoundCleared(View());
      buf.ScratchPop(FIELD_LOC_SIZE * numFieldLoc);
      numFieldLoc, maxVoffset, locs := 0, 0, [];
      NoLocs();
      assert buf.Scratch() == OffsetsBytes(vtables);
    }

    /** Does the vtable at `off` have the size and the bytes of the one just written? */
    method Matches(off: nat, size: nat) returns (same: bool)
      requires buf.Valid() && 2 <= off <= buf.size && Whole(buf.Data(), off)
      requires 2 <= size <= buf.size && Load(buf.Data()[..size], 0, 2) == Some(size)
      ensures same == Spec.BytesAt(buf.Data(), off, buf.Data()[..size])
    {
      hide IsPow2, Whole, Load, Decode, VectorDownward.Valid, VectorDownward.Data, VectorDownward.ReadAt;
      ghost var data := buf.Data();
      ghost var vt := data[..size];
      SameVTable(data, off, vt);
      var size2 := Decode(buf.ReadAt(off, 2));
      if size != size2 {
        return false;
      }
      var here := buf.ReadAt(buf.size, size);
      assert here == data[0..size] == vt;
      same := buf.ReadAt(off, size) == here;
    }

    /** The first remembered vtable whose bytes are those of the vtable just written. */
    method FindShared(size: nat) returns (r: Option<nat>)
      requires Valid() && locs == [] && 2 <= size <= buf.size
      requires Load(buf.Data()[..size], 0, 2) == Some(size)
      ensures r == Spec.FindVTable(buf.Data(), vtables, buf.Data()[..size])
    {
      hide IsPow2, Sound, OffsetsBytes, WholeTables, Load, Spec.FindVTable, Spec.BytesAt, ReadScratch, Whole, VectorDownward.Valid, VectorDownward.Data, VectorDownward.Scratch;
      SoundFacts(View());
      ghost var data := buf.Data();
      ghost var vt := data[..size];
      assert buf.Scratch() == OffsetsBytes(vtables);
      var i := 0;
      while i < buf.scratch / 4
        invariant 0 <= i <= |vtables|
        invariant forall j :: 0 <= j < i ==> !Spec.BytesAt(data, vtables[j], vt)
      {
        WholeSize(data, vtables, i);
        OffsetsLoad(vtables, i);
        var off := ReadScratch(4 * i, 4);
        var same := Matches(off, size);
        if same {
          FindFirst(data, vtables, vt, i);
          return Some(off);
        }
        i := i + 1;
      }
      FindNone(data, vtables, vt);
      return None;
    }

    method PopBytes(amount: nat)
      requires Valid() && amount <= buf.size
      requires Sound(View().(data := View().data[amount..]))
      modifies buf`cur, buf`size
      ensures Valid() && View() == old(View()).(data := old(View()).data[amount..])
    {
      hide IsPow2, Sound, OffsetsBytes, LocsBytes, WholeTables, Spec.MaxId, VectorDownward.Valid, VectorDownward.Data, VectorDownward.Scratch;
      buf.Pop(amount);
    }

    method Remember(off: nat)
      requires Valid() && locs == [] && off < SIZE_LIMIT
      requires Sound(View().(vtables := vtables + [off]))
      modifies this`vtables, buf, buf.buf
      ensures Valid() && buf.Framed() && View() == old(View()).(vtables := old(vtables) + [off])
    {
      hide IsPow2, Sound, WholeTables, Encode, OffsetsBytes, LocsBytes, Spec.MaxId, VectorDownward.Valid, VectorDownward.Data, VectorDownward.Scratch;
      SoundFacts(View());
      NoLocs();
      OffsetsBytesPush(vtables, off);
      buf.ScratchPush(Encode(off, 4));
      vtables := vtables + [off];
    }

    /** A scalar stored over bytes already in the buffer. */
    method Patch(off: nat, bytes: seq<byte>, ghost data': seq<byte>)
      requires Valid() && |bytes| <= off <= buf.size
      requires data' == Patched(View().data, off, bytes) && Sound(View().(data := data'))
      modifies buf.buf
      ensures Valid() && View() == old(View()).(data := data')
    {
      hide IsPow2, Sound, OffsetsBytes, LocsBytes, WholeTables, Spec.MaxId, VectorDownward.Valid, VectorDownward.Data, VectorDownward.Scratch;
      buf.WriteAt(off, bytes);
    }

    /** Use a remembered vtable equal to the one just written, or remember that one. */
    method LinkVTable(off: nat, size: nat, ghost b: Spec.Builder, ghost start: nat)
      requires Valid() && Sound(b) && GoodLocs(b.locs, Spec.TableLoc(b)) && off == Spec.TableLoc(b)
      requires Spec.TableLoc(b) + Spec.VTableSize(b.locs) < Spec.MAX_BUFFER_SIZE
      requires View() == TableWritten(b, start) && size == Spec.VTableSize(b.locs)
      modifies this, buf, buf.buf
      ensures Valid() && buf.Framed() && View() == Spec.EndTable(b, start).(nested := b.nested)
    {
      hide IsPow2, Sound, OffsetsBytes, LocsBytes, WholeTables, Spec.MaxId, Spec.VTable, Spec.VTableSize, GoodLocs, Spec.Align, Spec.EndTable, Encode, Load, Spec.FindVTable, Spec.SharedVTable, Patched, Spec.PushElement, Spec.PushBytes, Spec.TableLoc, VectorDownward.Valid, VectorDownward.Data, VectorDownward.Scratch;
      TableWrittenFacts(b, start);
      EndTableFacts(b, start);
      var vt_use, shared := buf.size, None;
      if dedupVtables {
        shared := FindShared(size);
      }
      if shared.Some? {
        vt_use := shared.value;
        PopBytes(buf.size - off);
      }
      if vt_use == buf.size {
        Remember(vt_use);
      }
      Patch(off, Encode(Unsigned32(vt_use - off), 4), Spec.EndTable(b, start).data);
    }

    method EndTable(start: nat) returns (off: nat)
      requires Valid() && nested && start <= buf.size
      requires GoodLocs(locs, Spec.TableLoc(View())) && Spec.TableLoc(View()) - start < 0x1_0000
      requires Spec.TableLoc(View()) + Spec.VTableSize(locs) < Spec.MAX_BUFFER_SIZE
      modifies this, buf, buf.buf
      ensures Valid() && buf.Framed()
      ensures View() == Spec.EndTable(old(View()), start) && off == Spec.TableLoc(old(View()))
    {
      hide IsPow2, Sound, OffsetsBytes, LocsBytes, WholeTables, Spec.MaxId, Spec.VTable, Spec.VTableSize, GoodLocs, Spec.Align, Encode, Load, Spec.FindVTable, Spec.SharedVTable, Spec.PushElement, Spec.PushBytes, Spec.TableLoc, VectorDownward.Valid, VectorDownward.Data, VectorDownward.Scratch;
      ghost var b := View();
      ObjectStart(b);
      off := PushElement(0, 4);
      var size := WriteVTable(off, start);
      ClearOffsets();
      LinkVTable(off, size, b, start);
      Renest(false);
    }

    /** A vector of scalars; `alignment` is the element size unless more was asked for. */
    method CreateVector(values: seq<nat>, w: nat, alignment: nat) returns (off: nat)
      requires Valid() && NotNested() && ScalarWidth(w) && IsPow2(alignment) && alignment >= 1
      requires |Spec.CreateVector(View(), values, w, alignment).data| < Spec.MAX_BUFFER_SIZE
      modifies this`minalign, this`nested, buf, buf.buf
      ensures Valid() && buf.Framed() && View() == Spec.CreateVector(old(View()), values, w, alignment) && off == buf.size
    {
      hide IsPow2, Sound, LocsBytes, OffsetsBytes, Spec.MaxId, WholeTables, Pow256, Spec.PushElement, Spec.StartVector, Spec.PushBytes, Spec.EncodeAll, ScalarWidth, VectorDownward.Valid, VectorDownward.Data, VectorDownward.Scratch;
      VectorSizes(View(), values, w, alignment);
      StartVector(|values|, w, alignment);
      if |values| > 0 {
        PushBytes(Spec.EncodeAll(values, w));
      }
      off := EndVector(|values|);
    }

    /** A vector of offsets, pushed from the last to the first. */
    method CreateOffsetVector(offs: seq<nat>) returns (off: nat)
      requires Valid() && NotNested() && forall i :: 0 <= i < |offs| ==> 0 < offs[i] <= buf.size
      requires |Spec.CreateOffsetVector(View(), offs).data| < Spec.MAX_BUFFER_SIZE
      modifies this`minalign, this`nested, buf, buf.buf
      ensures Valid() && buf.Framed() && View() == Spec.CreateOffsetVector(old(View()), offs) && off == buf.size
    {
      hide IsPow2, Sound, LocsBytes, OffsetsBytes, Spec.MaxId, WholeTables, Pow256, Spec.PushElement, Spec.StartVector, Spec.PushOffset, Spec.PushOffsets, VectorDownward.Valid, VectorDownward.Data, VectorDownward.Scratch;
      ghost var b1 := Spec.StartVector(View(), |offs|, 4, 4);
      OffsetVectorSizes(View(), offs);
      StartVector(|offs|, 4, 4);
      var i := |offs|;
      while i > 0
        invariant 0 <= i <= |offs|
        invariant Valid() && buf.Framed()
        invariant View() == Spec.PushOffsets(b1, offs[i..]).(nested := true)
        invariant old(buf.size) <= buf.size
      {
        i := i - 1;
        OffsetVectorTurn(b1, offs, i);
        var at := PushOffset(offs[i]);
      }
      assert offs[0..] == offs;
      OffsetVectorEnd(b1, offs);
      off := EndVector(|offs|);
    }

    /** Padding for the header; the scratch pad is dropped first. */
    method PadForHeader(fileId: Option<seq<byte>>, sizePrefix: bool)
      requires Valid() && numFieldLoc == 0
      requires |Spec.PadForHeader(View(), fileId, sizePrefix).data| < Spec.MAX_BUFFER_SIZE
      modifies this, buf, buf.buf
      ensures Valid() && buf.Framed() && View() == Spec.PadForHeader(old(View()), fileId, sizePrefix)
    {
      hide IsPow2, Sound, LocsBytes, OffsetsBytes, Spec.MaxId, WholeTables, Spec.PreAlign, VectorDownward.Valid, VectorDownward.Data, VectorDownward.Scratch;
      ForgetVTables();
      var prefix := if sizePrefix then 4 else 0;
      var idSize := if fileId.Some? then 4 else 0;
      if sizePrefix {
        WidthPow2(4);
        TrackMinAlign(prefix);
      }
      SoundFacts(View());
      Pow2Positive(minalign);
      PreAlign(prefix + 4 + idSize, minalign);
    }

    /** `Finish`: file identifier, root offset and size prefix go in front of the padded buffer. */
    method Finish(root: nat, fileId: Option<seq<byte>>, sizePrefix: bool)
      requires Valid() && !finished && NotNested() && 0 < root <= buf.size
      requires fileId.Some? ==> |fileId.value| == 4
      requires |Spec.Finish(View(), root, fileId, sizePrefix).data| < Spec.MAX_BUFFER_SIZE
      modifies this, buf, buf.buf
      ensures Valid() && buf.Framed() && View() == Spec.Finish(old(View()), root, fileId, sizePrefix)
    {
      hide IsPow2, Sound, LocsBytes, OffsetsBytes, Spec.MaxId, WholeTables, Pow256, Spec.PushElement, Spec.PadForHeader, Spec.PushOffset, VectorDownward.Valid, VectorDownward.Data, VectorDownward.Scratch;
      FinishSizes(View(), root, fileId, sizePrefix);
      PadForHeader(fileId, sizePrefix);
      if fileId.Some? {
        PushBytes(fileId.value);
      }
      var at := PushOffset(root);
      if sizePrefix {
        at := PushElement(buf.size, 4);
      }
      SetFinished();
    }

    method ForgetVTables()
      requires Valid() && numFieldLoc == 0
      modifies this`vtables, buf`scratch
      ensures Valid() && View() == old(View()).(vtables := [])
    {
      hide IsPow2, Sound, WholeTables, Spec.MaxId;
      SoundForget(View());
      buf.ClearScratch();
      vtables := [];
      assert locs == [];
    }

    method SetFinished()
      requires Valid()
      modifies this`finished
      ensures Valid() && View() == old(View()).(finished := true)
    {
      hide IsPow2, LocsBytes, OffsetsBytes, Spec.MaxId, WholeTables;
      finished := true;
    }
  }

  /** Patching two bytes of the front part of a buffer. */
  lemma PatchFront(vt: seq<byte>, tail: seq<byte>, id: nat, e: seq<byte>)
    requires id + |e| <= |vt|
    ensures (vt + tail)[..id] + e + (vt + tail)[id + |e|..] == (vt[..id] + e + vt[id + |e|..]) + tail
  {
  }

  /** The two header writes turn the zeros into a blank vtable. */
  lemma HeaderWrites(size: nat, objectSize: nat, tail: seq<byte>)
    requires size >= 4
    ensures
      var d0 := Zeros(size) + tail;
      var d1 := d0[..2] + Encode(objectSize, 2) + d0[4..];
      d1[..0] + Encode(size, 2) + d1[2..] == Spec.BlankVTable(size, objectSize) + tail
  {
    hide Encode;
    PatchFront(Zeros(size), tail, 2, Encode(objectSize, 2));
    var v1 := Zeros(size)[..2] + Encode(objectSize, 2) + Zeros(size)[4..];
    PatchFront(v1, tail, 0, Encode(size, 2));
    assert v1[..0] + Encode(size, 2) + v1[2..] == Spec.BlankVTable(size, objectSize);
  }

  lemma NoSlots(blank: seq<byte>, locs: seq<FieldLoc>, loc: nat)
    ensures Spec.WriteSlots(blank, locs[..0], loc) == blank
  {
  }

  lemma ReadLoc(vtables: seq<nat>, locs: seq<FieldLoc>, loc: nat, i: nat)
    requires GoodLocs(locs, loc) && loc < Spec.MAX_BUFFER_SIZE && i < |locs|
    ensures
      var scratch, at := OffsetsBytes(vtables) + LocsBytes(locs), 4 * |vtables| + 8 * i;
      Load(scratch, at, 4) == Some(locs[i].off) && Load(scratch, at + 4, 2) == Some(locs[i].id)
  {
    hide LocsBytes, OffsetsBytes, GoodLocs, Load;
    GoodLocAt(locs, loc, i);
    LocsLoad(locs, i);
    LoadGrows(OffsetsBytes(vtables), LocsBytes(locs), 8 * i, 4);
    LoadGrows(OffsetsBytes(vtables), LocsBytes(locs), 8 * i + 4, 2);
  }

  lemma GoodLocAt(locs: seq<FieldLoc>, loc: nat, i: nat)
    requires GoodLocs(locs, loc) && i < |locs|
    ensures locs[i].off < loc && locs[i].id < 0x1_0000
  {
    assert GoodLoc(locs[i], loc);
  }

  /** One turn of the slot-writing loop; the slot was still zero, so no member is set twice. */
  lemma SlotWrite(blank: seq<byte>, locs: seq<FieldLoc>, loc: nat, i: nat, tail: seq<byte>)
    requires GoodLocs(locs, loc) && i < |locs| && |blank| == Spec.VTableSize(locs)
    ensures
      var vt, id := Spec.WriteSlots(blank, locs[..i], loc), locs[i].id;
      var data := vt + tail;
      && id + 2 <= |vt|
      && Load(data, id, 2) == Load(blank, id, 2)
      && data[..id] + Encode(Unsigned32(loc - locs[i].off), 2) + data[id + 2..]
         == Spec.WriteSlots(blank, locs[..i + 1], loc) + tail
  {
    hide Encode, Decode, Load, Spec.MaxId;
    var vt, id := Spec.WriteSlots(blank, locs[..i], loc), locs[i].id;
    IdFits(locs, i);
    assert locs[..i + 1][..i] == locs[..i];
    PatchFront(vt, tail, id, Encode(Unsigned32(loc - locs[i].off), 2));
    assert GoodLoc(locs[i], loc);
    GoodPrefix(locs, loc, i);
    SlotKept(blank, locs[..i], loc, id);
    LoadPrefix(vt, tail, id, 2);
  }

  lemma {:induction false} IdFits(locs: seq<FieldLoc>, i: nat)
    requires i < |locs|
    ensures locs[i].id <= Spec.MaxId(locs)
  {
    if i < |locs| - 1 {
      IdFits(locs[..|locs| - 1], i);
    }
  }

  lemma {:induction false} MaxIdPrefix(locs: seq<FieldLoc>, i: nat)
    requires i <= |locs|
    ensures Spec.MaxId(locs[..i]) <= Spec.MaxId(locs)
  {
    if i < |locs| {
      MaxIdPrefix(locs[..|locs| - 1], i);
      assert locs[..|locs| - 1][..i] == locs[..i];
    } else {
      assert locs[..i] == locs;
    }
  }

  lemma GoodPrefix(locs: seq<FieldLoc>, loc: nat, i: nat)
    requires GoodLocs(locs, loc) && i < |locs|
    ensures GoodLocs(locs[..i], loc) && Spec.MaxId(locs[..i]) <= Spec.MaxId(locs) && !HasLoc(locs[..i], locs[i].id)
  {
    hide GoodLoc, Spec.MaxId;
    MaxIdPrefix(locs, i);
    forall j | 0 <= j < i ensures locs[..i][j].id != locs[i].id {
      assert locs[j].id != locs[i].id;
    }
  }

  function Patched(data: seq<byte>, off: nat, bytes: seq<byte>): (r: seq<byte>)
    requires |bytes| <= off <= |data|
  {
    data[..|data| - off] + bytes + data[|data| - off + |bytes|..]
  }

  /** The builder once the vtable has been written and the locations dropped. */
  ghost function TableWritten(b: Spec.Builder, start: nat): (r: Spec.Builder) {
    Spec.PushBytes(Spec.PushElement(b, 0, 4), Spec.VTable(b.locs, Spec.TableLoc(b), start)).(locs := [])
  }

  lemma NoLocs()
    ensures LocsBytes([]) == [] && Spec.MaxId([]) == 0
  {
  }

  lemma OffsetsBytesPush(offs: seq<nat>, off: nat)
    ensures OffsetsBytes(offs + [off]) == OffsetsBytes(offs) + Encode(off, 4)
  {
    assert (offs + [off])[..|offs|] == offs;
  }

  lemma ObjectStart(b: Spec.Builder)
    ensures
      var p := Spec.PushElement(b, 0, 4);
      && ScalarWidth(4) && 0 < Pow256(4)
      && p.locs == b.locs && SameRest(b, p) && |p.data| == Spec.TableLoc(b) && |b.data| < Spec.TableLoc(b)
  {
  }

  /** The buffer right after the vtable was written. */
  lemma TableWrittenFacts(b: Spec.Builder, start: nat)
    requires Sound(b) && GoodLocs(b.locs, Spec.TableLoc(b))
    requires Spec.TableLoc(b) + Spec.VTableSize(b.locs) < Spec.MAX_BUFFER_SIZE
    ensures
      var loc, vt, w := Spec.TableLoc(b), Spec.VTable(b.locs, Spec.TableLoc(b), start), TableWritten(b, start);
      var p := Spec.PushElement(b, 0, 4);
      && ScalarWidth(4) && 0 < Pow256(4)
      && p.locs == b.locs && |p.data| == loc == |w.data| - |vt| && |b.data| < loc && 4 <= loc
      && SameRest(b, w) && w.locs == []
      && w == Spec.PushBytes(p, vt).(locs := [])
      && w.data[..|vt|] == vt && |vt| == Spec.VTableSize(b.locs) && Load(vt, 0, 2) == Some(|vt|)
      && Spec.FindVTable(w.data, b.vtables, vt) == Spec.FindVTable(b.data, b.vtables, vt)
  {
    hide IsPow2, Grown, Spec.VTable, Spec.VTableSize, GoodLocs, Encode, Load, Pow256, WholeTables, Spec.Align, Spec.FindVTable, Extends, Sits;
    var loc, vt, w := Spec.TableLoc(b), Spec.VTable(b.locs, Spec.TableLoc(b), start), TableWritten(b, start);
    var p := Spec.PushElement(b, 0, 4);
    Width4();
    PushElementStep(b, 0, 4);
    PushElementRest(b, 0, 4);
    GrownFacts(b, p);
    PushBytesStep(p, vt);
    GrownTrans(b, p, Spec.PushBytes(p, vt));
    GrownFacts(b, Spec.PushBytes(p, vt));
    MaxIdEven(b.locs, loc);
    VTableReads(b.locs, loc, start, 0);
    WholeIn(b.data, b.vtables);
    FindGrows(b.data, w.data, b.vtables, vt);
  }

  lemma WholeIn(data: seq<byte>, vtables: seq<nat>)
    requires WholeTables(data, vtables)
    ensures forall i :: 0 <= i < |vtables| ==> 4 <= vtables[i] <= |data|
  {
    forall i | 0 <= i < |vtables| ensures 4 <= vtables[i] <= |data| {
      WholeSize(data, vtables, i);
    }
  }

  /** Ending a table keeps the builder sound, in the result and in the steps before the last patch. */
  lemma SoundEnd(b: Spec.Builder, start: nat)
    requires Sound(b) && GoodLocs(b.locs, Spec.TableLoc(b))
    requires Spec.TableLoc(b) + Spec.VTableSize(b.locs) < Spec.MAX_BUFFER_SIZE
    ensures Sound(Spec.EndTable(b, start))
  {
    hide IsPow2, Grown, Spec.VTable, GoodLocs, Encode, Load, WholeTables, Extends, Spec.SharedVTable, Divides, Spec.MaxId, Uses, Whole;
    var loc, vt, r := Spec.TableLoc(b), Spec.VTable(b.locs, Spec.TableLoc(b), start), Spec.EndTable(b, start);
    WholeIn(b.data, b.vtables);
    EndTableUses(b, start);
    GrownFacts(b, r);
    WholeTablesGrow(b.data, r.data, b.vtables);
    if Spec.SharedVTable(b, start).None? {
      MaxIdEven(b.locs, loc);
      VTableReads(b.locs, loc, start, 0);
      NewIsWhole(r.data, loc, loc + |vt|, vt);
      WholeTablesPush(r.data, b.vtables, loc + |vt|);
    }
  }

  lemma NewIsWhole(data: seq<byte>, loc: nat, use: nat, vt: seq<byte>)
    requires Uses(data, loc, use, vt) && |vt| >= 4 && Load(vt, 0, 2) == Some(|vt|)
    ensures Whole(data, use)
  {
    NewVTable(data, use, vt);
  }

  lemma WholeTablesPush(data: seq<byte>, vtables: seq<nat>, off: nat)
    requires WholeTables(data, vtables) && Whole(data, off)
    ensures WholeTables(data, vtables + [off])
  {
    hide Whole;
  }

  lemma PatchMiddle(pre: seq<byte>, zero: seq<byte>, tail: seq<byte>, bytes: seq<byte>)
    requires |zero| == |bytes|
    ensures Patched(pre + (zero + tail), |zero + tail|, bytes) == pre + bytes + tail
  {
    var data := pre + (zero + tail);
    assert data[..|pre|] == pre;
    assert data[|pre| + |bytes|..] == tail;
  }

  lemma DropFront(pre: seq<byte>, s: seq<byte>)
    ensures (pre + s)[|pre|..] == s
  {
  }

  /** How the last steps of EndTable lead to its value, with and without a shared vtable. */
  lemma EndTableFacts(b: Spec.Builder, start: nat)
    requires Sound(b) && GoodLocs(b.locs, Spec.TableLoc(b))
    requires Spec.TableLoc(b) + Spec.VTableSize(b.locs) < Spec.MAX_BUFFER_SIZE
    ensures
      var loc, vt, w := Spec.TableLoc(b), Spec.VTable(b.locs, Spec.TableLoc(b), start), TableWritten(b, start);
      var r := Spec.EndTable(b, start);
      && |w.data| == loc + |vt|
      && Spec.SharedVTable(b, start) == (if b.dedup then Spec.FindVTable(b.data, b.vtables, vt) else None)
      && match Spec.SharedVTable(b, start)
         case Some(use) =>
           var popped := w.(data := w.data[|vt|..]);
           && use < loc && |popped.data| == loc && Sound(popped)
           && r.data == Patched(popped.data, loc, Encode(Unsigned32(use - loc), 4))
           && r == popped.(data := r.data, nested := false)
           && Sound(popped.(data := r.data))
         case None =>
           var kept := w.(vtables := b.vtables + [loc + |vt|]);
           && Sound(kept)
           && r.data == Patched(w.data, loc, Encode(Unsigned32(|vt|), 4))
           && r == kept.(data := r.data, nested := false)
           && Sound(kept.(data := r.data))
  {
    var loc, vt, w := Spec.TableLoc(b), Spec.VTable(b.locs, Spec.TableLoc(b), start), TableWritten(b, start);
    match Spec.SharedVTable(b, start)
    case Some(use) => EndShared(b, start);
    case None => EndNew(b, start);
  }

  lemma EndShared(b: Spec.Builder, start: nat)
    requires Sound(b) && GoodLocs(b.locs, Spec.TableLoc(b)) && Spec.SharedVTable(b, start).Some?
    requires Spec.TableLoc(b) + Spec.VTableSize(b.locs) < Spec.MAX_BUFFER_SIZE
    ensures
      var loc, vt, w := Spec.TableLoc(b), Spec.VTable(b.locs, Spec.TableLoc(b), start), TableWritten(b, start);
      var r, use := Spec.EndTable(b, start), Spec.SharedVTable(b, start).value;
      var popped := w.(data := w.data[|vt|..]);
      && use < loc && |popped.data| == loc && Sound(popped)
      && r.data == Patched(popped.data, loc, Encode(Unsigned32(use - loc), 4))
      && r == popped.(data := r.data, nested := false)
      && Sound(popped.(data := r.data))
  {
    hide IsPow2, Grown, Spec.VTable, GoodLocs, Encode, Load, WholeTables, Extends, Spec.SharedVTable, Divides, Spec.MaxId, Spec.VTableSize, Spec.Align, Patched, Sits, Spec.EndTable, Spec.PushElement;
    var loc, vt := Spec.TableLoc(b), Spec.VTable(b.locs, Spec.TableLoc(b), start);
    var use, p := Spec.SharedVTable(b, start).value, Spec.PushElement(b, 0, 4);
    SoundEnd(b, start);
    SharedIsRemembered(b, start);
    WholeIn(b.data, b.vtables);
    ObjectStart(b);
    DropFront(vt, p.data);
    PushElementStep(b, 0, 4);
    GrownFacts(b, p);
    WholeTablesGrow(b.data, p.data, b.vtables);
    SharedBytes(b, start);
  }

  lemma SharedBytes(b: Spec.Builder, start: nat)
    requires Spec.SharedVTable(b, start).Some?
    ensures
      var loc, p, r, use := Spec.TableLoc(b), Spec.PushElement(b, 0, 4), Spec.EndTable(b, start), Spec.SharedVTable(b, start).value;
      && 4 <= loc == |p.data|
      && r.data == Patched(p.data, loc, Encode(Unsigned32(use - loc), 4))
      && r == p.(data := r.data, locs := [], nested := false)
  {
    hide Encode, Spec.SharedVTable, Spec.Align, Patched;
    var loc: int := Spec.TableLoc(b);
    var use: int := Spec.SharedVTable(b, start).value;
    var b1 := Spec.Align(b, 4);
    var e := Encode(Unsigned32(use - loc), 4);
    PatchMiddle([], Encode(0, 4), b1.data, e);
    assert [] + (Encode(0, 4) + b1.data) == Encode(0, 4) + b1.data;
    assert [] + e + b1.data == e + b1.data;
  }

  lemma EndNew(b: Spec.Builder, start: nat)
    requires Sound(b) && GoodLocs(b.locs, Spec.TableLoc(b)) && Spec.SharedVTable(b, start).None?
    requires Spec.TableLoc(b) + Spec.VTableSize(b.locs) < Spec.MAX_BUFFER_SIZE
    ensures
      var loc, vt, w := Spec.TableLoc(b), Spec.VTable(b.locs, Spec.TableLoc(b), start), TableWritten(b, start);
      var r, kept := Spec.EndTable(b, start), w.(vtables := b.vtables + [loc + |vt|]);
      && |w.data| == loc + |vt| && Sound(kept)
      && r.data == Patched(w.data, loc, Encode(Unsigned32(|vt|), 4))
      && r == kept.(data := r.data, nested := false)
      && Sound(kept.(data := r.data))
  {
    hide IsPow2, Grown, Spec.VTable, GoodLocs, Encode, Load, WholeTables, Extends, Spec.SharedVTable, Divides, Spec.MaxId, Spec.Align, Patched, Sits, Whole;
    var loc, vt, w := Spec.TableLoc(b), Spec.VTable(b.locs, Spec.TableLoc(b), start), TableWritten(b, start);
    var b1, p := Spec.Align(b, 4), Spec.PushElement(b, 0, 4);
    SoundEnd(b, start);
    PushElementRest(b, 0, 4);
    Width4();
    assert 0 < Pow256(4);
    PushElementStep(b, 0, 4);
    PushBytesStep(p, vt);
    GrownTrans(b, p, Spec.PushBytes(p, vt));
    GrownFacts(b, Spec.PushBytes(p, vt));
    WholeTablesGrow(b.data, w.data, b.vtables);
    MaxIdEven(b.locs, loc);
    VTableReads(b.locs, loc, start, 0);
    assert w.data[0..|vt|] == vt;
    NewVTable(w.data, loc + |vt|, vt);
    WholeTablesPush(w.data, b.vtables, loc + |vt|);
    PatchMiddle(vt, Encode(0, 4), b1.data, Encode(Unsigned32(|vt|), 4));
  }

  lemma SoundForget(b: Spec.Builder)
    requires Sound(b)
    ensures Sound(b.(vtables := []))
  {
    hide IsPow2;
  }

  /** Sizes along the way of CreateVector, and that `nested` is put back. */
  lemma VectorSizes(b: Spec.Builder, values: seq<nat>, w: nat, a: nat)
    requires !b.nested && a >= 1 && |Spec.CreateVector(b, values, w, a).data| < Spec.MAX_BUFFER_SIZE && ScalarWidth(w)
    ensures
      var b1, body := Spec.StartVector(b, |values|, w, a), Spec.EncodeAll(values, w);
      var b2 := Spec.PushBytes(b1, body);
      && |values| * w < SIZE_LIMIT && |values| < Pow256(4)
      && |b1.data| + |body| == |b2.data| < Spec.MAX_BUFFER_SIZE
      && (values == [] ==> Spec.PushBytes(b1.(nested := true), body) == b1.(nested := true))
      && Spec.PushBytes(b1.(nested := true), body).(nested := false) == b2
      && |Spec.PushElement(Spec.PushBytes(b1.(nested := true), body), |values|, 4).data| < Spec.MAX_BUFFER_SIZE
  {
    hide Spec.EncodeAll, Spec.StartVector, Spec.PushElement, Pow256;
    var b1, body := Spec.StartVector(b, |values|, w, a), Spec.EncodeAll(values, w);
    StartVectorRest(b, |values|, w, a);
    PushElementSize(Spec.PushBytes(b1, body), |values|);
    MulAtMost(|values|, w);
    Widths();
    PushElementNested(Spec.PushBytes(b1.(nested := true), body), |values|);
  }

  lemma StartVectorRest(b: Spec.Builder, len: nat, w: nat, a: nat)
    requires a >= 1
    ensures SameRest(b, Spec.StartVector(b, len, w, a)) && |Spec.StartVector(b, len, w, a).data| >= |b.data|
  {
  }

  lemma OffsetVectorSizes(b: Spec.Builder, offs: seq<nat>)
    requires !b.nested && |Spec.CreateOffsetVector(b, offs).data| < Spec.MAX_BUFFER_SIZE
    ensures
      var b1 := Spec.StartVector(b, |offs|, 4, 4);
      && |offs| * 4 < SIZE_LIMIT && IsPow2(4) && |offs| < Pow256(4)
      && SameRest(b, b1) && |b.data| <= |b1.data| < Spec.MAX_BUFFER_SIZE
      && Spec.PushOffsets(b1, offs[|offs|..]) == b1
      && |Spec.PushOffsets(b1, offs).data| < Spec.MAX_BUFFER_SIZE
  {
    hide IsPow2, Spec.StartVector, Spec.PushElement, Pow256, Spec.PushOffsets;
    WidthPow2(4);
    Widths();
    var b1 := Spec.StartVector(b, |offs|, 4, 4);
    StartVectorRest(b, |offs|, 4, 4);
    PushOffsetsSize(b1, offs);
    PushElementSize(Spec.PushOffsets(b1, offs), |offs|);
    assert offs[|offs|..] == [];
    PushNoOffsets(b1);
  }

  lemma {:induction false} PushOffsetsPart(b: Spec.Builder, offs: seq<nat>, i: nat)
    requires i <= |offs|
    ensures |Spec.PushOffsets(b, offs[i..]).data| <= |Spec.PushOffsets(b, offs).data|
  {
    if i == 0 {
      assert offs[0..] == offs;
    } else {
      assert offs[1..][i - 1..] == offs[i..];
      PushOffsetsPart(b, offs[1..], i - 1);
    }
  }

  lemma OffsetVectorTurn(b: Spec.Builder, offs: seq<nat>, i: nat)
    requires i < |offs|
    ensures
      var before := Spec.PushOffsets(b, offs[i + 1..]);
      && Spec.PushOffsets(b, offs[i..]) == Spec.PushOffset(before, offs[i])
      && Spec.PushOffset(before.(nested := true), offs[i]) == Spec.PushOffset(before, offs[i]).(nested := true)
      && |before.data| <= |Spec.PushOffsets(b, offs[i..]).data| <= |Spec.PushOffsets(b, offs).data|
  {
    assert offs[i..][1..] == offs[i + 1..];
    var before := Spec.PushOffsets(b, offs[i + 1..]);
    assert Spec.PushOffsets(b, offs[i..]) == Spec.PushOffset(before, offs[i]);
    hide Spec.PushOffsets;
    PushOffsetNested(before, offs[i]);
    PushOffsetsPart(b, offs, i);
  }

  lemma PushOffsetNested(b: Spec.Builder, off: nat)
    ensures Spec.PushOffset(b.(nested := true), off) == Spec.PushOffset(b, off).(nested := true)
    ensures |Spec.PushOffset(b, off).data| >= |b.data|
  {
  }

  lemma OffsetVectorEnd(b: Spec.Builder, offs: seq<nat>)
    requires !b.nested
    ensures
      var r := Spec.PushOffsets(b, offs);
      && r.(nested := true).(nested := false) == r
      && |Spec.PushElement(r.(nested := true), |offs|, 4).data| == |Spec.PushElement(r, |offs|, 4).data|
  {
    hide Spec.PushOffsets;
    RestOfOffsets(b, offs);
    PushElementNested(Spec.PushOffsets(b, offs).(nested := true), |offs|);
  }

  /** Sizes along the way of Finish. */
  lemma FinishSizes(b: Spec.Builder, root: nat, fileId: Option<seq<byte>>, sizePrefix: bool)
    requires |Spec.Finish(b, root, fileId, sizePrefix).data| < Spec.MAX_BUFFER_SIZE
    requires fileId.Some? ==> |fileId.value| == 4
    ensures
      var b1 := Spec.PadForHeader(b, fileId, sizePrefix);
      var b2 := if fileId.Some? then Spec.PushBytes(b1, fileId.value) else b1;
      var b3 := Spec.PushOffset(b2, root);
      && |b.data| <= |b1.data| <= |b2.data| <= |b3.data| < Spec.MAX_BUFFER_SIZE
      && |b3.data| < Pow256(4) && ScalarWidth(4)
  {
    hide Spec.PreAlign, Spec.PushElement, Pow256;
    Widths();
    var b0 := Spec.TrackMinAlign(b.(vtables := []), if sizePrefix then 4 else 0);
    PreAlignSize(b0, Spec.HeaderSize(fileId, sizePrefix), Max(b0.minalign, 1));
    var b1 := Spec.PadForHeader(b, fileId, sizePrefix);
    var b2 := if fileId.Some? then Spec.PushBytes(b1, fileId.value) else b1;
    AlignGrows4(b2);
    PushElementSize(Spec.Align(b2, 4), Spec.ReferTo(b2, root));
    var b3 := Spec.PushOffset(b2, root);
    PushElementSize(b3, |b3.data|);
  }

  lemma SoundCleared(b: Spec.Builder)
    requires Sound(b)
    ensures Sound(b.(locs := []))
  {
    hide IsPow2, WholeTables;
  }

  lemma WholeSize(data: seq<byte>, vtables: seq<nat>, i: nat)
    requires WholeTables(data, vtables) && i < |vtables|
    ensures 4 <= vtables[i] <= |data| && Whole(data, vtables[i])
  {
    assert Whole(data, vtables[i]);
  }

  /** Comparing the sizes first and then the bytes decides equality of the vtables. */
  lemma SameVTable(data: seq<byte>, off: nat, vt: seq<byte>)
    requires Whole(data, off) && 2 <= off <= |data| && |vt| >= 2 && Load(vt, 0, 2) == Some(|vt|)
    ensures
      var p := |data| - off;
      var size2 := Decode(data[p..p + 2]);
      && size2 <= off
      && (Spec.BytesAt(data, off, vt) <==> |vt| == size2 && data[p..p + |vt|] == vt)
  {
    hide Decode;
    var p := |data| - off;
    var vt2 := VTableAt(data, off);
    SliceOfSlice(data, p, |vt2|, 0);
    if Spec.BytesAt(data, off, vt) {
      SliceOfSlice(data, p, |vt|, 0);
    }
  }

  lemma {:induction false} FindFirst(data: seq<byte>, vtables: seq<nat>, vt: seq<byte>, i: nat)
    requires i < |vtables| && Spec.BytesAt(data, vtables[i], vt)
    requires forall j :: 0 <= j < i ==> !Spec.BytesAt(data, vtables[j], vt)
    ensures Spec.FindVTable(data, vtables, vt) == Some(vtables[i])
  {
    hide Spec.BytesAt;
    if i > 0 {
      FindFirst(data, vtables[1..], vt, i - 1);
    }
  }

  lemma {:induction false} FindNone(data: seq<byte>, vtables: seq<nat>, vt: seq<byte>)
    requires forall j :: 0 <= j < |vtables| ==> !Spec.BytesAt(data, vtables[j], vt)
    ensures Spec.FindVTable(data, vtables, vt) == None
  {
    hide Spec.BytesAt;
    if vtables != [] {
      FindNone(data, vtables[1..], vt);
    }
  }

  lemma {:induction false} FindGrows(data: seq<byte>, data': seq<byte>, vtables: seq<nat>, vt: seq<byte>)
    requires Extends(data, data') && forall i :: 0 <= i < |vtables| ==> vtables[i] <= |data|
    ensures Spec.FindVTable(data', vtables, vt) == Spec.FindVTable(data, vtables, vt)
  {
    hide Spec.BytesAt, Extends;
    if vtables != [] {
      BytesAtGrows(data, data', vtables[0], vt);
      FindGrows(data, data', vtables[1..], vt);
    }
  }

  lemma LocsPush(before: seq<byte>, locs: seq<FieldLoc>, fl: FieldLoc)
    ensures (before + LocsBytes(locs)) + LocBytes(fl) == before + LocsBytes(locs + [fl])
    ensures Spec.MaxId(locs + [fl]) == Max(Spec.MaxId(locs), fl.id)
  {
    hide LocBytes;
    assert (locs + [fl])[..|locs|] == locs;
  }

  lemma SoundTracked(b: Spec.Builder, id: nat)
    requires Sound(b) && |b.locs| < MAX_LOCS
    ensures Sound(Spec.TrackField(b, id))
  {
    hide IsPow2, WholeTables;
  }

  /** The terminator and the characters are pushed separately. */
  lemma StringPushes(b: Spec.Builder, s: seq<byte>)
    ensures Spec.PushBytes(Spec.PushBytes(b, [0]), s) == Spec.PushBytes(b, s + [0])
    ensures |Spec.PushBytes(b, [0]).data| == |b.data| + 1
    ensures |Spec.PushBytes(b, s + [0]).data| == |b.data| + |s| + 1
  {
    assert s + ([0] + b.data) == s + [0] + b.data;
  }

  lemma WidthPositive(w: nat)
    requires ScalarWidth(w)
    ensures w >= 1
  {
  }

  lemma AlignGrows4(b: Spec.Builder)
    ensures |Spec.Align(b, 4).data| >= |b.data|
  {
  }

  lemma PreAlignSize(b: Spec.Builder, len: nat, a: nat)
    requires a >= 1
    ensures |Spec.PreAlign(b, len, a).data| >= |b.data|
  {
  }

  lemma AddElementSize(b: Spec.Builder, id: nat, v: nat, def: Option<nat>)
    ensures |Spec.AddElement(b, id, 4, v, def).data| >= |b.data|
  {
  }

  lemma PushElementNested(b: Spec.Builder, v: nat)
    ensures Spec.PushElement(b.(nested := false), v, 4) == Spec.PushElement(b, v, 4).(nested := false)
  {
  }

  lemma SoundEmpty(b: Spec.Builder)
    requires b.data == [] && b.vtables == [] && b.locs == [] && b.minalign == 1
    ensures Sound(b)
  {
    ScalarSizes();
  }

  lemma SoundFacts(b: Spec.Builder)
    requires Sound(b)
    ensures IsPow2(b.minalign) && |b.data| < Spec.MAX_BUFFER_SIZE && |b.locs| <= MAX_LOCS
    ensures 4 * |b.vtables| <= |b.data| && WholeTables(b.data, b.vtables)
  {
  }
}
