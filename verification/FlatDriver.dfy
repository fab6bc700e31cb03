/**
 Whole runs on the builder object.  Every legal sequence of commands can be
 executed call by call, no assertion of the builder fails on the way, and the
 bytes are those the round-trip theorems speak about.
 */
module FlatDriver {
  import opened Wrappers
  import opened Bits
  import Spec = FlatBuilder
  import opened FlatRoundTrip
  import opened FlatInvariant
  import opened FlatTables
  import opened FlatTheorems
  import opened VectorDownwards
  import opened FlatBufferBuilders

  lemma {:induction false} AddsPrefixSize(b: Spec.Builder, offs: seq<nat>, adds: seq<Add>, i: nat)
    requires i <= |adds|
    ensures |ExecAdds(b, offs, adds[..i]).data| <= |ExecAdds(b, offs, adds).data|
  {
    hide ExecAdd;
    if i == |adds| {
      assert adds[..i] == adds;
    } else {
      var init := adds[..|adds| - 1];
      assert init[..i] == adds[..i];
      AddsPrefixSize(b, offs, init, i);
      AddSize(ExecAdds(b, offs, init), offs, adds[|adds| - 1]);
    }
  }

  lemma AddsNext(b: Spec.Builder, offs: seq<nat>, adds: seq<Add>, i: nat)
    requires i < |adds|
    ensures ExecAdds(b, offs, adds[..i + 1]) == ExecAdd(ExecAdds(b, offs, adds[..i]), offs, adds[i])
  {
    assert adds[..i + 1][..i] == adds[..i];
  }

  /** Each stored member takes at least one byte. */
  lemma {:induction false} LocsBound(b: Spec.Builder, offs: seq<nat>, adds: seq<Add>)
    requires b.locs == []
    ensures |ExecAdds(b, offs, adds).locs| <= |ExecAdds(b, offs, adds).data| - |b.data|
  {
    hide ExecAdd;
    if adds != [] {
      LocsBound(b, offs, adds[..|adds| - 1]);
      OneLoc(ExecAdds(b, offs, adds[..|adds| - 1]), offs, adds[|adds| - 1]);
    }
  }

  lemma OneLoc(b: Spec.Builder, offs: seq<nat>, add: Add)
    ensures
      var r := ExecAdd(b, offs, add);
      |r.locs| - |b.locs| <= |r.data| - |b.data|
  {
    hide Padding;
  }

  /** What the calls of one table need. */
  lemma TableFits(s: Session, cat: seq<Object>, adds: seq<Add>, i: nat)
    requires Inv(s, cat) && Allowed(s, TableCommand(adds)) && i < |adds|
    ensures
      var b := ExecAdds(Spec.StartTable(s.b), s.offs, adds[..i]);
      && |s.b.data| <= |b.data| && |b.locs| < MAX_LOCS
      && |ExecAdd(b, s.offs, adds[i]).data| < Spec.MAX_BUFFER_SIZE
      && WellTyped(adds[i], |s.offs|) && OffsetsIn(s.offs, |s.b.data|)
  {
    hide ExecAdds, ExecAdd, WellTyped, Reads, IsPow2, DistinctIds;
    var b0 := Spec.StartTable(s.b);
    AddsPrefixSize(b0, s.offs, adds, i);
    AddsPrefixSize(b0, s.offs, adds, i + 1);
    AddsNext(b0, s.offs, adds, i);
    AddsPrefixSize(b0, s.offs, adds[..i], 0);
    assert adds[..i][..0] == [];
    NoAdds(b0, s.offs);
    LocsBound(b0, s.offs, adds[..i]);
    TableLocBound(ExecAdds(b0, s.offs, adds));
  }

  lemma NoAdds(b: Spec.Builder, offs: seq<nat>)
    ensures ExecAdds(b, offs, []) == b
  {
  }

  lemma TableEnds(s: Session, cat: seq<Object>, adds: seq<Add>)
    requires Inv(s, cat) && Allowed(s, TableCommand(adds))
    ensures
      var b := ExecAdds(Spec.StartTable(s.b), s.offs, adds);
      && b.nested && |s.b.data| <= |b.data|
      && GoodLocs(b.locs, Spec.TableLoc(b))
  {
    hide ExecAdds, WellTyped, Reads, IsPow2, DistinctIds, Building, GoodLocs, Grown, Extends;
    var b0 := Spec.StartTable(s.b);
    var b := ExecAdds(b0, s.offs, adds);
    TableLocBound(b);
    AddsStep(b0, s.offs, adds);
    GrownFacts(b0, b);
    LocsOfBuilding(b, |b0.data|, Stored(adds, s.b.forceDefaults), s.offs);
  }

  method BuildTable(b: FlatBufferBuilder, ghost s: Session, ghost cat: seq<Object>, offs: seq<nat>, adds: seq<Add>)
    returns (off: nat)
    requires b.Valid() && b.View() == s.b && offs == s.offs && Inv(s, cat) && Allowed(s, TableCommand(adds))
    modifies b, b.buf, b.buf.buf
    ensures b.Valid() && b.buf.Framed()
    ensures Session(b.View(), offs + [off]) == Exec(s, TableCommand(adds))
  {
    hide ExecAdds, ExecAdd, WellTyped, AllRead, IsPow2, DistinctIds, GoodLocs, Sound, OffsetsBytes, LocsBytes, Spec.MaxId, Spec.EndTable, Spec.TableLoc, Spec.VTableSize,
      VectorDownward.Valid, VectorDownward.Data, VectorDownward.Scratch;
    var start := b.StartTable();
    ghost var b0 := Spec.StartTable(s.b);
    NoAdds(b0, offs);
    var i := 0;
    assert adds[..0] == [];
    while i < |adds|
      invariant 0 <= i <= |adds| && b.Valid() && b.buf.Framed()
      invariant b.View() == ExecAdds(b0, offs, adds[..i])
    {
      TableFits(s, cat, adds, i);
      AddsNext(b0, offs, adds, i);
      AddOne(b, offs, adds[i], |s.b.data|);
      i := i + 1;
    }
    assert adds[..i] == adds;
    TableEnds(s, cat, adds);
    off := b.EndTable(start);
  }

  method AddOne(b: FlatBufferBuilder, offs: seq<nat>, add: Add, ghost size: nat)
    requires b.Valid() && size <= |b.View().data| && |b.locs| < MAX_LOCS
    requires WellTyped(add, |offs|) && OffsetsIn(offs, size)
    requires |ExecAdd(b.View(), offs, add).data| < Spec.MAX_BUFFER_SIZE
    modifies b, b.buf, b.buf.buf
    ensures b.Valid() && b.buf.Framed() && b.View() == ExecAdd(old(b.View()), offs, add)
  {
    hide IsPow2, Sound, OffsetsBytes, LocsBytes, Spec.MaxId, Spec.AddElement, Spec.AddOffset, Pow256,
      VectorDownward.Valid, VectorDownward.Data, VectorDownward.Scratch;
    match add {
      case AddScalar(id, w, v, def) =>
        b.AddElement(id, w, v, def);
      case AddRef(id, target) =>
        b.AddOffset(id, if target.None? then 0 else offs[target.value]);
    }
  }

  method Execute(b: FlatBufferBuilder, ghost s: Session, ghost cat: seq<Object>, offs: seq<nat>, cmd: Command)
    returns (offs': seq<nat>)
    requires b.Valid() && b.View() == s.b && offs == s.offs && Inv(s, cat) && Allowed(s, cmd)
    modifies b, b.buf, b.buf.buf
    ensures b.Valid() && b.buf.Framed() && Session(b.View(), offs') == Exec(s, cmd)
  {
    hide IsPow2, Sound, OffsetsBytes, LocsBytes, Spec.MaxId, Reads, Spec.CreateString, Spec.CreateVector, Spec.CreateOffsetVector, Spec.EndTable, ExecAdds, Spec.TableLoc, Spec.VTableSize, WellTyped, DistinctIds, ScalarWidth, Pow256,
      VectorDownward.Valid, VectorDownward.Data, VectorDownward.Scratch;
    offs' := offs;
    match cmd {
      case StringCommand(bytes) =>
        StringFits(s.b, bytes);
        var off := b.CreateString(bytes);
        offs' := offs + [off];
      case VectorCommand(w, a, values) =>
        Pow2Positive(a);
        var off := b.CreateVector(values, w, a);
        offs' := offs + [off];
      case OffsetsCommand(targets) =>
        var off := b.CreateOffsetVector(OffsetsOf(offs, targets));
        offs' := offs + [off];
      case TableCommand(adds) =>
        var off := BuildTable(b, s, cat, offs, adds);
        offs' := offs + [off];
      case ForceDefaults(fd) => b.ForceDefaults(fd);
      case DedupVtables(on) => b.DedupVtables(on);
    }
  }

  lemma StringFits(b: Spec.Builder, s: seq<byte>)
    requires |Spec.CreateString(b, s).data| < Spec.MAX_BUFFER_SIZE
    ensures |s| < SIZE_LIMIT - 1
  {
  }

  /** A new builder, taken through every command: it holds the bytes of the run. */
  method Build(cmds: seq<Command>, initialSize: nat) returns (b: FlatBufferBuilder, offs: seq<nat>)
    requires Legal(cmds) && initialSize < WORD / 8
    ensures b.Valid() && Session(b.View(), offs) == Run(cmds)
  {
    hide IsPow2, Sound, OffsetsBytes, LocsBytes, Spec.MaxId, Inv, Allowed, Exec, Legal,
      VectorDownward.Valid, VectorDownward.Data, VectorDownward.Scratch;
    b := new FlatBufferBuilder(initialSize);
    offs := [];
    var i := 0;
    assert cmds[..0] == [];
    while i < |cmds|
      invariant 0 <= i <= |cmds| && b.Valid() && fresh(b) && fresh(b.buf) && (b.buf.buf == null || fresh(b.buf.buf))
      invariant Session(b.View(), offs) == Run(cmds[..i])
    {
      LegalPrefix(cmds, i);
      RunInv(cmds[..i]);
      assert cmds[..i + 1][..i] == cmds[..i];
      offs := Execute(b, Run(cmds[..i]), Catalog(cmds[..i]), offs, cmds[i]);
      i := i + 1;
    }
    assert cmds[..i] == cmds;
  }

  lemma {:induction false} LegalPrefix(cmds: seq<Command>, i: nat)
    requires Legal(cmds) && i < |cmds|
    ensures Legal(cmds[..i]) && Allowed(Run(cmds[..i]), cmds[i])
  {
    hide Allowed, Run;
    if i < |cmds| - 1 {
      assert cmds[..|cmds| - 1][..i] == cmds[..i];
      LegalPrefix(cmds[..|cmds| - 1], i);
    }
  }
}
