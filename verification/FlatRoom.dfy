/**
 Which runs are legal, from the commands alone: well-typed commands whose sizes
 add up to less than the buffer limit never meet an assertion of the builder.
 */
module FlatRoom {
  import opened Wrappers
  import opened Bits
  import opened FlatBuilder
  import opened FlatRoundTrip
  import opened FlatInvariant
  import opened FlatTables
  import opened FlatTheorems

  /** What a command may add to the buffer, paddings included. */
  function Room(cmd: Command): (r: nat) {
    match cmd
    case StringCommand(s) => |s| + 16
    case VectorCommand(w, a, values) => EncodedSize(values, w) + a + 16
    case OffsetsCommand(targets) => 8 * |targets| + 16
    case TableCommand(adds) => 16 * |adds| + 16 + 0x1_0000
    case ForceDefaults(_) => 0
    case DedupVtables(_) => 0
  }

  function EncodedSize(values: seq<nat>, w: nat): (r: nat) {
    |EncodeAll(values, w)|
  }

  function TotalRoom(cmds: seq<Command>): (r: nat) {
    if cmds == [] then 0 else TotalRoom(cmds[..|cmds| - 1]) + Room(cmds[|cmds| - 1])
  }

  /** The conditions on a command that do not depend on the bytes; `n` objects exist before it. */
  ghost predicate WellFormed(cmd: Command, n: nat, force: bool) {
    match cmd
    case StringCommand(_) => true
    case VectorCommand(w, a, values) =>
      ScalarWidth(w) && IsPow2(a) && a >= w && forall i :: 0 <= i < |values| ==> values[i] < Pow256(w)
    case OffsetsCommand(targets) => forall i :: 0 <= i < |targets| ==> targets[i] < n
    case TableCommand(adds) =>
      && (forall i :: 0 <= i < |adds| ==> WellTyped(adds[i], n))
      && DistinctIds(Stored(adds, force))
      && 16 * |adds| + 16 < 0x1_0000
    case _ => true
  }

  ghost predicate AllWellFormed(cmds: seq<Command>) {
    cmds != [] ==>
      var init := cmds[..|cmds| - 1];
      AllWellFormed(init) && WellFormed(cmds[|cmds| - 1], |Catalog(init)|, Forced(init))
  }

  // ─── Bounds ────────────────────────────────────────────────────────────────

  lemma PushElementBound(b: Builder, v: nat, w: nat)
    requires w >= 1
    ensures |PushElement(b, v, w).data| < |b.data| + 2 * w
  {
  }

  lemma PushOffsetBound(b: Builder, off: nat)
    ensures |PushOffset(b, off).data| <= |b.data| + 8
  {
    var b1 := Align(b, 4);
    PaddedMod(|b.data|, 4);
    assert |b1.data| % 4 == 0;
  }

  lemma {:induction false} PushOffsetsBound(b: Builder, offs: seq<nat>)
    ensures |PushOffsets(b, offs).data| <= |b.data| + 8 * |offs|
  {
    hide PushOffset;
    if offs != [] {
      PushOffsetsBound(b, offs[1..]);
      PushOffsetBound(PushOffsets(b, offs[1..]), offs[0]);
    }
  }

  lemma AddBound(b: Builder, offs: seq<nat>, add: Add, n: nat)
    requires WellTyped(add, n)
    ensures
      var r := ExecAdd(b, offs, add);
      && |b.data| <= |r.data| <= |b.data| + 16
      && (r.locs == b.locs || (|r.locs| == |b.locs| + 1 && r.locs[..|b.locs|] == b.locs && r.locs[|b.locs|].id == add.id))
  {
    hide PushElement, PushOffset, ReferTo;
    match add
    case AddScalar(id, w, v, def) =>
      PushElementBound(b, v, w);
      PushElementRest(b, v, w);
      PushElementMore(b, v, w);
    case AddRef(id, None) =>
    case AddRef(id, Some(k)) =>
      var off := OffsetOf(offs, k);
      if off != 0 {
        var b1 := Align(b, 4);
        PushElementRest(b, 0, 4);
        PushElementBound(b1, ReferTo(b, off), 4);
        PushElementRest(b1, ReferTo(b, off), 4);
        PushElementMore(b1, ReferTo(b, off), 4);
      }
  }

  lemma PushElementMore(b: Builder, v: nat, w: nat)
    requires w >= 1
    ensures |PushElement(b, v, w).data| >= |b.data| + w
  {
  }

  predicate NarrowLocs(locs: seq<FieldLoc>) {
    forall i :: 0 <= i < |locs| ==> locs[i].id < 0xFFFE
  }

  lemma {:induction false} AddsBound(b: Builder, offs: seq<nat>, adds: seq<Add>, n: nat)
    requires b.locs == [] && forall i :: 0 <= i < |adds| ==> WellTyped(adds[i], n)
    ensures
      var r := ExecAdds(b, offs, adds);
      |r.data| <= |b.data| + 16 * |adds| && NarrowLocs(r.locs)
  {
    hide ExecAdd, WellTyped;
    if adds != [] {
      var init, last := adds[..|adds| - 1], adds[|adds| - 1];
      AddsBound(b, offs, init, n);
      assert WellTyped(last, n);
      AddBound(ExecAdds(b, offs, init), offs, last, n);
      NarrowId(last, n);
    }
  }

  lemma NarrowId(add: Add, n: nat)
    requires WellTyped(add, n)
    ensures add.id < 0xFFFE
  {
  }

  lemma {:induction false} VTableBound(locs: seq<FieldLoc>)
    requires NarrowLocs(locs)
    ensures MaxId(locs) < 0xFFFE && VTableSize(locs) < 0x1_0000
  {
    if locs != [] {
      VTableBound(locs[..|locs| - 1]);
    }
  }

  lemma TableLocNear(b: Builder)
    ensures |b.data| < TableLoc(b) <= |b.data| + 7
  {
  }

  lemma EndTableBound(b: Builder, start: nat)
    ensures |EndTable(b, start).data| <= TableLoc(b) + VTableSize(b.locs)
  {
    hide VTable, Padding, FindVTable, MaxId;
  }

  lemma StringBound(b: Builder, s: seq<byte>)
    ensures |CreateString(b, s).data| <= |b.data| + |s| + 16
  {
  }

  lemma VectorBound(b: Builder, values: seq<nat>, w: nat, a: nat)
    requires a >= 1
    ensures |CreateVector(b, values, w, a).data| <= |b.data| + EncodedSize(values, w) + a + 16
  {
    hide EncodeAll;
    var b1 := StartVector(b, |values|, w, a);
    StartVectorBound(b, |values| * w, a);
    var b2 := PushBytes(b1, EncodeAll(values, w));
    PushElementBound(b2, |values|, 4);
  }

  lemma StartVectorBound(b: Builder, n: nat, a: nat)
    requires a >= 1
    ensures |PreAlign(PreAlign(b, n, 4), n, a).data| <= |b.data| + 3 + a
  {
  }

  lemma OffsetVectorBound(b: Builder, offs: seq<nat>)
    ensures |CreateOffsetVector(b, offs).data| <= |b.data| + 8 * |offs| + 16
  {
    hide PushOffsets;
    var b1 := StartVector(b, |offs|, 4, 4);
    StartVectorBound(b, |offs| * 4, 4);
    PushOffsetsBound(b1, offs);
    PushElementBound(PushOffsets(b1, offs), |offs|, 4);
  }

  /** A well-formed command that has its room is allowed and uses no more than it. */
  lemma RoomIsEnough(s: Session, cmd: Command)
    requires s.b.locs == [] && WellFormed(cmd, |s.offs|, s.b.forceDefaults) && |s.b.data| + Room(cmd) < MAX_BUFFER_SIZE
    ensures Allowed(s, cmd) && |Exec(s, cmd).b.data| <= |s.b.data| + Room(cmd)
  {
    hide CreateString, CreateVector, CreateOffsetVector, ExecAdds, EndTable, TableLoc, VTableSize, WellTyped, DistinctIds, IsPow2, Stored, ScalarWidth, EncodedSize;
    match cmd
    case StringCommand(bytes) => StringBound(s.b, bytes);
    case VectorCommand(w, a, values) =>
      Pow2Positive(a);
      VectorBound(s.b, values, w, a);
    case OffsetsCommand(targets) => OffsetVectorBound(s.b, OffsetsOf(s.offs, targets));
    case TableCommand(adds) =>
      var b := ExecAdds(StartTable(s.b), s.offs, adds);
      AddsBound(StartTable(s.b), s.offs, adds, |s.offs|);
      TableLocNear(b);
      VTableBound(b.locs);
      EndTableBound(b, |s.b.data|);
    case ForceDefaults(_) =>
    case DedupVtables(_) =>
  }

  /** Runs whose sizes stay below the limit are legal, whatever bytes they produce. */
  lemma {:induction false} SmallRunsAreLegal(cmds: seq<Command>)
    requires AllWellFormed(cmds) && TotalRoom(cmds) < MAX_BUFFER_SIZE
    ensures Legal(cmds) && |Run(cmds).b.data| <= TotalRoom(cmds)
  {
    if cmds != [] {
      hide WellFormed, Allowed, Exec, Room, Inv;
      var init, cmd := cmds[..|cmds| - 1], cmds[|cmds| - 1];
      SmallRunsAreLegal(init);
      RunInv(init);
      RunForced(init);
      AtRestFacts(Run(init), Catalog(init));
      RoomIsEnough(Run(init), cmd);
    }
  }

  lemma AtRestFacts(s: Session, cat: seq<Object>)
    requires Inv(s, cat)
    ensures s.b.locs == [] && |s.offs| == |cat|
  {
  }
}
