/**
 What `FlatBufferBuilder` computes, on values: the serialized bytes grow at the
 front, offsets count from the end, tables share equal vtables.  The arithmetic
 wraps as `uoffset_t` and `voffset_t` do, so every operation is total.
 */
module FlatBuilder {
  import opened Wrappers
  import opened Bits
  import opened FlatReader

  const MAX_BUFFER_SIZE: nat := 0x7FFF_FFFF

  /** Where a member of the table under construction was written. */
  datatype FieldLoc = FieldLoc(off: nat, id: nat)

  datatype Builder = Builder(
    data: seq<byte>,
    vtables: seq<nat>,      // offsets of the vtables that may be shared
    locs: seq<FieldLoc>,
    nested: bool,
    finished: bool,
    minalign: nat,
    forceDefaults: bool,
    dedup: bool)

  function Empty(): (b: Builder) {
    Builder([], [], [], false, false, 1, false, true)
  }

  // ─── Alignment and scalars ─────────────────────────────────────────────────

  function TrackMinAlign(b: Builder, a: nat): (r: Builder) {
    b.(minalign := Max(b.minalign, a))
  }

  function Align(b: Builder, a: nat): (r: Builder)
    requires a >= 1
  {
    TrackMinAlign(b, a).(data := Zeros(Padding(|b.data|, a)) + b.data)
  }

  /** Padding such that after `len` more bytes the size is a multiple of `a`. */
  function PreAlign(b: Builder, len: nat, a: nat): (r: Builder)
    requires a >= 1
  {
    if len == 0 then b
    else TrackMinAlign(b, a).(data := Zeros(Padding(|b.data| + len, a)) + b.data)
  }

  function PushBytes(b: Builder, bytes: seq<byte>): (r: Builder) {
    b.(data := bytes + b.data)
  }

  function PushElement(b: Builder, v: nat, w: nat): (r: Builder)
    requires w >= 1
  {
    PushBytes(Align(b, w), Encode(v, w))
  }

  /** The forward distance to `off` from an offset about to be stored, which first aligns. */
  function ReferTo(b: Builder, off: nat): (r: nat) {
    Unsigned32(|Align(b, 4).data| - off + 4)
  }

  function PushOffset(b: Builder, off: nat): (r: Builder) {
    PushElement(Align(b, 4), ReferTo(b, off), 4)
  }

  // ─── Tables ────────────────────────────────────────────────────────────────

  function TrackField(b: Builder, id: nat): (r: Builder) {
    b.(locs := b.locs + [FieldLoc(|b.data|, id)])
  }

  /** A scalar member; the overload without a default has `def == None`. */
  function AddElement(b: Builder, id: nat, w: nat, v: nat, def: Option<nat>): (r: Builder)
    requires w >= 1
  {
    if def == Some(v) && !b.forceDefaults then b else TrackField(PushElement(b, v, w), id)
  }

  function AddOffset(b: Builder, id: nat, off: nat): (r: Builder) {
    if off == 0 then b else AddElement(Align(b, 4), id, 4, ReferTo(b, off), Some(0))
  }

  function StartTable(b: Builder): (r: Builder) {
    b.(nested := true)
  }

  function MaxId(locs: seq<FieldLoc>): (r: nat) {
    if locs == [] then 0 else Max(MaxId(locs[..|locs| - 1]), locs[|locs| - 1].id)
  }

  function VTableSize(locs: seq<FieldLoc>): (r: nat)
    ensures r >= 4
  {
    Max(MaxId(locs) + 2, 4)
  }

  function WriteSlot(vt: seq<byte>, id: nat, pos: nat): (r: seq<byte>)
    ensures |r| == |vt|
  {
    if id + 2 <= |vt| then vt[..id] + Encode(pos, 2) + vt[id + 2..] else vt
  }

  function WriteSlots(vt: seq<byte>, locs: seq<FieldLoc>, loc: nat): (r: seq<byte>)
    ensures |r| == |vt|
  {
    if locs == [] then vt
    else
      var last := |locs| - 1;
      WriteSlot(WriteSlots(vt, locs[..last], loc), locs[last].id, Unsigned32(loc - locs[last].off))
  }

  function BlankVTable(size: nat, objectSize: nat): (r: seq<byte>)
    requires size >= 4
    ensures |r| == size
  {
    Encode(size, 2) + Encode(objectSize, 2) + Zeros(size - 4)
  }

  /** The vtable of a table whose vtable offset is at `loc` and whose members start after `start`. */
  function VTable(locs: seq<FieldLoc>, loc: nat, start: nat): (r: seq<byte>)
    ensures |r| == VTableSize(locs)
  {
    WriteSlots(BlankVTable(VTableSize(locs), Unsigned32(loc - start)), locs, loc)
  }

  predicate BytesAt(data: seq<byte>, off: nat, bytes: seq<byte>) {
    |bytes| <= off <= |data| && data[|data| - off..|data| - off + |bytes|] == bytes
  }

  /** The first remembered vtable with these bytes. */
  function FindVTable(data: seq<byte>, vtables: seq<nat>, vt: seq<byte>): (r: Option<nat>)
    ensures r.Some? ==> r.value in vtables && BytesAt(data, r.value, vt)
    ensures r.None? ==> forall i :: 0 <= i < |vtables| ==> !BytesAt(data, vtables[i], vt)
  {
    if vtables == [] then None
    else if BytesAt(data, vtables[0], vt) then Some(vtables[0])
    else FindVTable(data, vtables[1..], vt)
  }

  /** Where the table's vtable offset goes: the offset that names the table. */
  function TableLoc(b: Builder): (r: nat) {
    |Align(b, 4).data| + 4
  }

  function SharedVTable(b: Builder, start: nat): (r: Option<nat>) {
    if b.dedup then FindVTable(b.data, b.vtables, VTable(b.locs, TableLoc(b), start)) else None
  }

  function EndTable(b: Builder, start: nat): (r: Builder) {
    var b1 := Align(b, 4);
    var loc := TableLoc(b);
    var vt := VTable(b.locs, loc, start);
    match SharedVTable(b, start)
    case Some(use) =>
      b1.(data := Encode(Unsigned32(use - loc), 4) + b1.data, locs := [], nested := false)
    case None =>
      b1.(data := vt + Encode(Unsigned32(|vt|), 4) + b1.data,
          vtables := b.vtables + [loc + |vt|], locs := [], nested := false)
  }

  // ─── Strings and vectors ───────────────────────────────────────────────────

  function CreateString(b: Builder, s: seq<byte>): (r: Builder) {
    PushElement(PushBytes(PreAlign(b, |s| + 1, 4), s + [0]), |s|, 4)
  }

  function StartVector(b: Builder, len: nat, elemsize: nat, alignment: nat): (r: Builder)
    requires alignment >= 1
  {
    PreAlign(PreAlign(b, len * elemsize, 4), len * elemsize, alignment)
  }

  function EncodeAll(values: seq<nat>, w: nat): (r: seq<byte>)
    ensures |r| == |values| * w
  {
    if values == [] then []
    else
      assert |values| * w == w + (|values| - 1) * w;
      Encode(values[0], w) + EncodeAll(values[1..], w)
  }

  function CreateVector(b: Builder, values: seq<nat>, w: nat, alignment: nat): (r: Builder)
    requires alignment >= 1
  {
    PushElement(PushBytes(StartVector(b, |values|, w, alignment), EncodeAll(values, w)), |values|, 4)
  }

  /** Offsets are pushed from the last to the first. */
  function PushOffsets(b: Builder, offs: seq<nat>): (r: Builder) {
    if offs == [] then b
    else PushOffset(PushOffsets(b, offs[1..]), offs[0])
  }

  function CreateOffsetVector(b: Builder, offs: seq<nat>): (r: Builder) {
    PushElement(PushOffsets(StartVector(b, |offs|, 4, 4), offs), |offs|, 4)
  }

  // ─── Finish ────────────────────────────────────────────────────────────────

  function HeaderSize(fileId: Option<seq<byte>>, sizePrefix: bool): (r: nat) {
    (if sizePrefix then 4 else 0) + 4 + if fileId.Some? then 4 else 0
  }

  /** Padding such that with the header the whole buffer is aligned. */
  function PadForHeader(b: Builder, fileId: Option<seq<byte>>, sizePrefix: bool): (r: Builder) {
    var b0 := TrackMinAlign(b.(vtables := []), if sizePrefix then 4 else 0);
    PreAlign(b0, HeaderSize(fileId, sizePrefix), Max(b0.minalign, 1))
  }

  function PushHeader(b: Builder, root: nat, fileId: Option<seq<byte>>, sizePrefix: bool): (r: Builder) {
    var b1 := if fileId.Some? then PushBytes(b, fileId.value) else b;
    var b2 := PushOffset(b1, root);
    if sizePrefix then PushElement(b2, |b2.data|, 4) else b2
  }

  function Finish(b: Builder, root: nat, fileId: Option<seq<byte>>, sizePrefix: bool): (r: Builder) {
    PushHeader(PadForHeader(b, fileId, sizePrefix), root, fileId, sizePrefix).(finished := true)
  }
}
