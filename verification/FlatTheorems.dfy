/** The main results about the builder and the reader, over every legal run. */
module FlatTheorems {
  import opened Wrappers
  import opened Bits
  import opened FlatReader
  import opened FlatBuilder
  import opened FlatRoundTrip
  import opened FlatInvariant
  import opened FlatTables

  // ─── One table ─────────────────────────────────────────────────────────────

  lemma LocsOfBuilding(b: Builder, start: nat, fields: seq<Field>, offs: seq<nat>)
    requires Building(b, start, fields, offs) && DistinctIds(fields)
    requires |b.data| < TableLoc(b) && TableLoc(b) - start < 0x1_0000
    ensures GoodLocs(b.locs, TableLoc(b))
  {
    hide Holds, FieldId, TableLoc;
    forall i | 0 <= i < |b.locs| ensures GoodLoc(b.locs[i], TableLoc(b)) {
      assert Located(b, start, b.locs[i], fields[i], offs);
    }
    forall i, j | 0 <= i < j < |b.locs| ensures b.locs[i].id != b.locs[j].id {
      assert Located(b, start, b.locs[i], fields[i], offs) && Located(b, start, b.locs[j], fields[j], offs);
    }
  }

  lemma FieldOffsetIs(b: Builder, start: nat, id: nat)
    requires IsPow2(b.minalign) && GoodLocs(b.locs, TableLoc(b)) && FieldId(id)
    requires TableLoc(b) + VTableSize(b.locs) < MAX_BUFFER_SIZE
    requires forall i :: 0 <= i < |b.vtables| ==> b.vtables[i] <= |b.data|
    ensures
      var data := EndTable(b, start).data;
      var o := GetOptionalFieldOffset(data, |data| - TableLoc(b), id);
      && (!HasLoc(b.locs, id) ==> o == Some(0))
      && (forall i :: 0 <= i < |b.locs| && b.locs[i].id == id ==> o == Some(TableLoc(b) - b.locs[i].off))
  {
    hide IsPow2, Grown, Load, VTable, VTableSize, TableLoc, EndTable, UsedVTable, GetOptionalFieldOffset, Uses;
    var loc, vt, data := TableLoc(b), VTable(b.locs, TableLoc(b), start), EndTable(b, start).data;
    EndTableUses(b, start);
    MaxIdEven(b.locs, loc);
    VTableReads(b.locs, loc, start, 0);
    ReadThrough(data, loc, UsedVTable(b, start), vt, id);
    if id < |vt| {
      VTableReads(b.locs, loc, start, id);
    } else {
      NoLocBeyond(b.locs, id);
    }
  }

  lemma {:induction false} NoLocBeyond(locs: seq<FieldLoc>, id: nat)
    requires id >= VTableSize(locs)
    ensures forall i :: 0 <= i < |locs| ==> locs[i].id != id
  {
    if locs != [] {
      NoLocBeyond(locs[..|locs| - 1], id);
      forall i | 0 <= i < |locs| ensures locs[i].id != id {
        if i < |locs| - 1 {
          assert locs[..|locs| - 1][i].id != id;
        }
      }
    }
  }

  lemma TableReads(b: Builder, start: nat, fields: seq<Field>, offs: seq<nat>)
    requires IsPow2(b.minalign) && Building(b, start, fields, offs) && DistinctIds(fields)
    requires TableLoc(b) + VTableSize(b.locs) < MAX_BUFFER_SIZE && TableLoc(b) - start < 0x1_0000
    requires VTablesIn(b)
    ensures
      var r := EndTable(b, start);
      Grown(b, r) && Reads(r.data, TableLoc(b), Table(fields), offs, r.minalign)
  {
    hide IsPow2, Grown, Load, VTable, VTableSize, TableLoc, EndTable, GetOptionalFieldOffset, Uses, Holds, FieldId, GoodLocs, Extends, Divides, Sits, UsedVTable, DistinctIds, VTableSits;
    var loc, r := TableLoc(b), EndTable(b, start);
    AlignSteps4(b);
    LocsOfBuilding(b, start, fields, offs);
    EndTableUses(b, start);
    GrownFacts(b, r);
    UsedVTableSits(b, start);
    forall i | 0 <= i < |fields| ensures FieldReads(r.data, loc, fields[i], offs, r.minalign) {
      assert Located(b, start, b.locs[i], fields[i], offs);
      FieldOffsetIs(b, start, fields[i].id);
      HoldsGrows(b.data, r.data, b.locs[i].off, fields[i].value, offs, [], b.minalign, r.minalign);
      assert offs + [] == offs;
    }
    forall id | FieldId(id) && !HasId(fields, id)
      ensures GetOptionalFieldOffset(r.data, |r.data| - loc, id) == Some(0)
    {
      NoIdNoLoc(b, start, fields, offs, id);
      FieldOffsetIs(b, start, id);
    }
  }

  lemma UsedVTableEven(b: Builder, start: nat)
    requires GoodLocs(b.locs, TableLoc(b)) && VTablesIn(b) && TableLoc(b) % 4 == 0
    ensures UsedVTable(b, start) % 2 == 0
  {
    hide TableLoc, VTableSize, GoodLocs, SharedVTable, VTable, BytesAt;
    MaxIdEven(b.locs, TableLoc(b));
    EvenSum(TableLoc(b), VTableSize(b.locs));
    if SharedVTable(b, start).Some? {
      SharedIsRemembered(b, start);
      RememberedEven(b, SharedVTable(b, start).value);
    }
  }

  lemma EvenSum(x: nat, y: nat)
    requires x % 4 == 0 && y % 2 == 0
    ensures (x + y) % 2 == 0
  {
    assert x + y == 2 * (2 * (x / 4) + y / 2);
    MultipleMod(x + y, 2, 2 * (x / 4) + y / 2);
  }

  lemma RememberedEven(b: Builder, off: nat)
    requires VTablesIn(b) && off in b.vtables
    ensures off % 2 == 0
  {
  }

  lemma UsedVTableSits(b: Builder, start: nat)
    requires IsPow2(b.minalign) && GoodLocs(b.locs, TableLoc(b)) && VTablesIn(b)
    requires TableLoc(b) + VTableSize(b.locs) < MAX_BUFFER_SIZE
    ensures VTableSits(EndTable(b, start).data, TableLoc(b), EndTable(b, start).minalign)
  {
    hide IsPow2, Grown, GoodLocs, TableLoc, VTableSize, EndTable, Uses, UsedVTable, VTable, GetVTable;
    AlignSteps4(b);
    EndTableUses(b, start);
    UsedVTableEven(b, start);
    LeadsToVTable(EndTable(b, start).data, TableLoc(b), UsedVTable(b, start), VTable(b.locs, TableLoc(b), start));
  }

  lemma NoIdNoLoc(b: Builder, start: nat, fields: seq<Field>, offs: seq<nat>, id: nat)
    requires Building(b, start, fields, offs) && !HasId(fields, id)
    ensures !HasLoc(b.locs, id)
  {
    hide Holds, FieldId;
    forall i | 0 <= i < |b.locs| ensures b.locs[i].id != id {
      assert Located(b, start, b.locs[i], fields[i], offs);
    }
  }

  // ─── Every run ─────────────────────────────────────────────────────────────

  predicate VTablesIn(b: Builder) {
    forall i :: 0 <= i < |b.vtables| ==> b.vtables[i] <= |b.data| && b.vtables[i] % 2 == 0
  }

  predicate AtRest(b: Builder) {
    !b.nested && b.locs == [] && !b.finished
  }

  ghost predicate AllRead(s: Session, cat: seq<Object>) {
    && |s.offs| == |cat|
    && OffsetsIn(s.offs, |s.b.data|)
    && forall k :: 0 <= k < |cat| ==> Reads(s.b.data, s.offs[k], cat[k], s.offs, s.b.minalign)
  }

  ghost predicate Inv(s: Session, cat: seq<Object>) {
    AtRest(s.b) && IsPow2(s.b.minalign) && VTablesIn(s.b) && AllRead(s, cat)
  }

  lemma AllReadGrows(s: Session, cat: seq<Object>, b': Builder, off: nat, obj: Object)
    requires AllRead(s, cat) && Grown(s.b, b') && 0 < off <= |b'.data|
    requires Reads(b'.data, off, obj, s.offs, b'.minalign)
    ensures AllRead(Session(b', s.offs + [off]), cat + [obj])
  {
    hide Reads, IsPow2, Extends, Divides;
    GrownFacts(s.b, b');
    var offs' := s.offs + [off];
    forall k | 0 <= k < |cat| ensures Reads(b'.data, offs'[k], cat[k], offs', b'.minalign) {
      ReadsGrows(s.b.data, b'.data, s.offs[k], cat[k], s.offs, [off], s.b.minalign, b'.minalign);
    }
    ReadsGrows(b'.data, b'.data, off, obj, s.offs, [off], b'.minalign, b'.minalign) by {
      GrownSelf(b');
      GrownFacts(b', b');
    }
  }

  lemma RestOfString(b: Builder, bytes: seq<byte>)
    ensures SameRest(b, CreateString(b, bytes)) && CreateString(b, bytes).locs == b.locs
  {
  }

  lemma RestOfVector(b: Builder, values: seq<nat>, w: nat, a: nat)
    requires a >= 1
    ensures SameRest(b, CreateVector(b, values, w, a)) && CreateVector(b, values, w, a).locs == b.locs
  {
  }

  lemma {:induction false} RestOfOffsets(b: Builder, offs: seq<nat>)
    ensures SameRest(b, PushOffsets(b, offs)) && PushOffsets(b, offs).locs == b.locs
  {
    if offs != [] {
      RestOfOffsets(b, offs[1..]);
    }
  }

  /** The object a command adds to the catalog. */
  function Created(cmd: Command, force: bool): (r: seq<Object>) {
    match cmd
    case StringCommand(s) => [Text(s)]
    case VectorCommand(w, a, values) => [Scalars(w, a, values)]
    case OffsetsCommand(targets) => [Refs(targets)]
    case TableCommand(adds) => [Table(Stored(adds, force))]
    case ForceDefaults(_) => []
    case DedupVtables(_) => []
  }

  lemma InvFromStep(s: Session, cat: seq<Object>, b': Builder, off: nat, obj: Object)
    requires Inv(s, cat) && Grown(s.b, b') && 0 < off <= |b'.data|
    requires AtRest(b') && b'.vtables == s.b.vtables
    requires Reads(b'.data, off, obj, s.offs, b'.minalign)
    ensures Inv(Session(b', s.offs + [off]), cat + [obj])
  {
    hide Reads, IsPow2, Extends, Divides, AllRead, Grown;
    GrownFacts(s.b, b');
    AllReadGrows(s, cat, b', off, obj);
  }

  lemma TableInv(s: Session, cat: seq<Object>, adds: seq<Add>)
    requires Inv(s, cat) && Allowed(s, TableCommand(adds))
    ensures Inv(Exec(s, TableCommand(adds)), cat + [Table(Stored(adds, s.b.forceDefaults))])
    ensures Grown(s.b, Exec(s, TableCommand(adds)).b)
  {
    hide Reads, IsPow2, Extends, Divides, AllRead, Grown, WellTyped, DistinctIds, Building, TableLoc, Located, ExecAdds, EndTable, Stored, VTableSize;
    var b0 := StartTable(s.b);
    var b := ExecAdds(b0, s.offs, adds);
    var fields := Stored(adds, s.b.forceDefaults);
    assert OffsetsIn(s.offs, |s.b.data|) by {
      AllReadFacts(s, cat);
    }
    TableLocBound(b);
    AddsStep(b0, s.offs, adds);
    GrownFacts(b0, b);
    TableReads(b, |b0.data|, fields, s.offs);
    var r := EndTable(b, |b0.data|);
    GrownTrans(b0, b, r);
    GrownFacts(b, r);
    GrownLike2(s.b, b0, r);
    LocsOfBuilding(b, |b0.data|, fields, s.offs);
    assert TableLoc(b) % 4 == 0 by {
      AlignSteps4(b);
    }
    UsedVTableEven(b, |b0.data|);
    EndTableVTables(b, |b0.data|);
    AllReadGrows(s, cat, r, TableLoc(b), Table(fields)) by {
      ReadsBound(r.data, TableLoc(b), Table(fields), s.offs, r.minalign);
    }
  }

  lemma GrownLike2(b0: Builder, b1: Builder, b2: Builder)
    requires Grown(b1, b2) && b1.data == b0.data && b1.minalign == b0.minalign
    ensures Grown(b0, b2)
  {
  }

  lemma ReadsBound(data: seq<byte>, off: nat, obj: Object, offs: seq<nat>, m: nat)
    requires Reads(data, off, obj, offs, m)
    ensures 4 <= off <= |data|
  {
  }

  lemma AllReadFacts(s: Session, cat: seq<Object>)
    requires AllRead(s, cat)
    ensures OffsetsIn(s.offs, |s.b.data|)
  {
  }

  lemma TableLocBound(b: Builder)
    ensures |b.data| < TableLoc(b)
  {
  }

  lemma EndTableVTables(b: Builder, start: nat)
    requires VTablesIn(b) && UsedVTable(b, start) % 2 == 0
    ensures VTablesIn(EndTable(b, start)) && AtRest(EndTable(b, start).(finished := false))
    ensures EndTable(b, start).finished == b.finished
  {
    hide VTable, FindVTable, Padding, SharedVTable, VTableSize;
  }

  /** Every command keeps the invariant and adds its object to the catalog. */
  lemma ExecInv(s: Session, cat: seq<Object>, cmd: Command)
    requires Inv(s, cat) && Allowed(s, cmd)
    ensures Inv(Exec(s, cmd), cat + Created(cmd, s.b.forceDefaults))
    ensures Grown(s.b, Exec(s, cmd).b)
  {
    hide Reads, IsPow2, Extends, Divides, Grown, WellTyped, CreateString, CreateVector, CreateOffsetVector, TableLoc, ExecAdds, EndTable, Stored, VTableSize, DistinctIds, ScalarWidth;
    match cmd
    case StringCommand(bytes) =>
      StringStep(s.b, bytes, s.offs);
      RestOfString(s.b, bytes);
      var b' := CreateString(s.b, bytes);
      InvFromStep(s, cat, b', |b'.data|, Text(bytes));
    case VectorCommand(w, a, values) =>
      Pow2Positive(a);
      VectorStep(s.b, values, w, a, s.offs) by {
        WidthPow2(w);
        Pow2Positive(w);
      }
      RestOfVector(s.b, values, w, a);
      var b' := CreateVector(s.b, values, w, a);
      InvFromStep(s, cat, b', |b'.data|, Scalars(w, a, values));
    case OffsetsCommand(targets) =>
      OffsetVectorStep(s.b, targets, s.offs);
      var b' := CreateOffsetVector(s.b, OffsetsOf(s.offs, targets));
      RestOfOffsetVector(s.b, OffsetsOf(s.offs, targets));
      InvFromStep(s, cat, b', |b'.data|, Refs(targets));
    case TableCommand(adds) =>
      TableInv(s, cat, adds);
    case ForceDefaults(_) =>
      assert cat + [] == cat;
      GrownSelf(s.b);
      GrownLike(s.b, s.b, Exec(s, cmd).b);
    case DedupVtables(_) =>
      assert cat + [] == cat;
      GrownSelf(s.b);
      GrownLike(s.b, s.b, Exec(s, cmd).b);
  }

  lemma RestOfOffsetVector(b: Builder, offs: seq<nat>)
    ensures SameRest(b, CreateOffsetVector(b, offs)) && CreateOffsetVector(b, offs).locs == b.locs
  {
    hide PushOffsets;
    RestOfOffsets(StartVector(b, |offs|, 4, 4), offs);
  }

  lemma {:induction false} RunForced(cmds: seq<Command>)
    ensures Run(cmds).b.forceDefaults == Forced(cmds)
  {
    if cmds != [] {
      var init, cmd := cmds[..|cmds| - 1], cmds[|cmds| - 1];
      RunForced(init);
      ExecForced(Run(init), cmd);
    }
  }
  lemma ExecForced(s: Session, cmd: Command)
    ensures Exec(s, cmd).b.forceDefaults == if cmd.ForceDefaults? then cmd.fd else s.b.forceDefaults
  {
    hide CreateOffsetVector, CreateVector, CreateString, ExecAdds, VTable, FindVTable;
    match cmd
    case StringCommand(bytes) => RestOfString(s.b, bytes);
    case VectorCommand(w, a, values) => RestOfVector(s.b, values, w, Max(a, 1));
    case OffsetsCommand(targets) => RestOfOffsetVector(s.b, OffsetsOf(s.offs, targets));
    case TableCommand(adds) => RestOfAdds(StartTable(s.b), s.offs, adds);
    case _ =>
  }

  lemma RestOfAdd(b: Builder, offs: seq<nat>, add: Add)
    ensures SameRest(b, ExecAdd(b, offs, add))
  {
  }

  lemma {:induction false} RestOfAdds(b: Builder, offs: seq<nat>, adds: seq<Add>)
    ensures SameRest(b, ExecAdds(b, offs, adds))
  {
    hide ExecAdd;
    if adds != [] {
      var b1 := ExecAdds(b, offs, adds[..|adds| - 1]);
      RestOfAdds(b, offs, adds[..|adds| - 1]);
      RestOfAdd(b1, offs, adds[|adds| - 1]);
    }
  }

  lemma {:induction false} RunInv(cmds: seq<Command>)
    requires Legal(cmds)
    ensures Inv(Run(cmds), Catalog(cmds))
  {
    if cmds == [] {
      ScalarSizes();
    } else {
      hide Inv, Allowed, Exec, Created;
      var init, cmd := cmds[..|cmds| - 1], cmds[|cmds| - 1];
      RunInv(init);
      RunForced(init);
      ExecInv(Run(init), Catalog(init), cmd);
      CatalogGrows(cmds);
    }
  }

  lemma CatalogGrows(cmds: seq<Command>)
    requires cmds != []
    ensures
      var init := cmds[..|cmds| - 1];
      Catalog(cmds) == Catalog(init) + Created(cmds[|cmds| - 1], Forced(init))
  {
  }

  // ─── Round trip ────────────────────────────────────────────────────────────

  /** After every legal run, every object reads back as the commands asked. */
  lemma RoundTrip(cmds: seq<Command>, k: nat)
    requires Legal(cmds) && k < |Catalog(cmds)|
    ensures |Run(cmds).offs| == |Catalog(cmds)|
    ensures Reads(Run(cmds).b.data, Run(cmds).offs[k], Catalog(cmds)[k], Run(cmds).offs, Run(cmds).b.minalign)
  {
    hide Legal, Run, Catalog, Reads, AtRest, IsPow2, VTablesIn;
    RunInv(cmds);
  }

  predicate Kept(add: Add, force: bool) {
    match add
    case AddScalar(_, _, v, def) => force || def != Some(v)
    case AddRef(_, target) => target.Some?
  }

  function FieldOf(add: Add): (r: Field)
    requires Kept(add, true)
  {
    match add
    case AddScalar(id, w, v, _) => Field(id, Scalar(w, v))
    case AddRef(id, target) => Field(id, Ref(target.value))
  }

  lemma {:induction false} StoredHas(adds: seq<Add>, force: bool, i: nat)
    requires i < |adds| && Kept(adds[i], force)
    ensures FieldOf(adds[i]) in Stored(adds, force)
  {
    if i < |adds| - 1 {
      StoredHas(adds[..|adds| - 1], force, i);
    }
  }

  lemma {:induction false} StoredOnly(adds: seq<Add>, force: bool, id: nat)
    requires forall i :: 0 <= i < |adds| && adds[i].id == id ==> !Kept(adds[i], force)
    ensures !HasId(Stored(adds, force), id)
  {
    if adds != [] {
      var init, add := adds[..|adds| - 1], adds[|adds| - 1];
      StoredOnly(init, force, id);
      var rest, all := Stored(init, force), Stored(adds, force);
      forall i | 0 <= i < |all| ensures all[i].id != id {
        if i < |rest| {
          assert all[i] == rest[i];
        }
      }
    }
  }

  lemma {:induction false} CatalogPrefix(cmds: seq<Command>, p: nat)
    requires p < |cmds| && cmds[p].TableCommand?
    ensures |Catalog(cmds[..p])| < |Catalog(cmds)|
    ensures Catalog(cmds)[|Catalog(cmds[..p])|] == Table(Stored(cmds[p].adds, Forced(cmds[..p])))
  {
    hide Stored, Forced;
    if p < |cmds| - 1 {
      assert cmds[..|cmds| - 1][..p] == cmds[..p];
      CatalogPrefix(cmds[..|cmds| - 1], p);
    }
  }

  lemma {:induction false} LegalAt(cmds: seq<Command>, p: nat)
    requires Legal(cmds) && p < |cmds| && cmds[p].TableCommand?
    ensures forall i :: 0 <= i < |cmds[p].adds| ==> FieldId(cmds[p].adds[i].id)
  {
    if p < |cmds| - 1 {
      hide Allowed;
      LegalAt(cmds[..|cmds| - 1], p);
    } else {
      hide FieldId, Run, ScalarWidth;
    }
  }

  /** What a table command asked the reader of member `i` to see. */
  ghost predicate ReadsAdd(data: seq<byte>, table: int, add: Add, offs: seq<nat>) {
    match add
    case AddScalar(id, w, v, Some(def)) => GetField(data, table, id, w, def) == Some(v)
    case AddScalar(id, w, v, None) => forall d :: GetField(data, table, id, w, d) == Some(v)
    case AddRef(id, None) => GetPointer(data, table, id) == Null
    case AddRef(id, Some(k)) => k < |offs| && GetPointer(data, table, id) == To(|data| - offs[k])
  }

  lemma ReadsStored(data: seq<byte>, off: nat, adds: seq<Add>, force: bool, offs: seq<nat>, m: nat, i: nat)
    requires Reads(data, off, Table(Stored(adds, force)), offs, m) && i < |adds| && FieldId(adds[i].id)
    requires forall j :: 0 <= j < |adds| && j != i ==> adds[j].id != adds[i].id
    ensures ReadsAdd(data, |data| - off, adds[i], offs)
  {
    hide Stored, GetOptionalFieldOffset, HasId, Load, FieldId;
    var fields := Stored(adds, force);
    if Kept(adds[i], force) {
      StoredHas(adds, force, i);
      var j :| 0 <= j < |fields| && fields[j] == FieldOf(adds[i]);
      assert FieldReads(data, off, fields[j], offs, m);
    } else {
      StoredOnly(adds, force, adds[i].id);
    }
  }

  /**
   The value that was added to any table of any run is read back at the end of
   the run, also when it was left out for being the default.
   */
  lemma AddedIsRead(cmds: seq<Command>, p: nat, i: nat)
    requires Legal(cmds) && p < |cmds| && cmds[p].TableCommand? && i < |cmds[p].adds|
    requires forall j :: 0 <= j < |cmds[p].adds| && j != i ==> cmds[p].adds[j].id != cmds[p].adds[i].id
    ensures
      var s, k := Run(cmds), |Catalog(cmds[..p])|;
      k < |s.offs| && ReadsAdd(s.b.data, |s.b.data| - s.offs[k], cmds[p].adds[i], s.offs)
  {
    hide Legal, Run, Catalog, Reads, ReadsAdd, Stored, Forced, FieldId;
    LegalAt(cmds, p);
    CatalogPrefix(cmds, p);
    var k := |Catalog(cmds[..p])|;
    RoundTrip(cmds, k);
    ReadsStored(Run(cmds).b.data, Run(cmds).offs[k], cmds[p].adds, Forced(cmds[..p]), Run(cmds).offs, Run(cmds).b.minalign, i);
  }

  /** A member that was never added reads as whatever default the reader gives. */
  lemma NeverAddedIsDefault(cmds: seq<Command>, p: nat, id: nat, w: nat, d: nat)
    requires Legal(cmds) && p < |cmds| && cmds[p].TableCommand? && FieldId(id)
    requires forall j :: 0 <= j < |cmds[p].adds| ==> cmds[p].adds[j].id != id
    ensures
      var s, k := Run(cmds), |Catalog(cmds[..p])|;
      && k < |s.offs|
      && GetField(s.b.data, |s.b.data| - s.offs[k], id, w, d) == Some(d)
      && GetPointer(s.b.data, |s.b.data| - s.offs[k], id) == Null
  {
    hide Legal, Run, Catalog, Stored, Forced, FieldId, GetOptionalFieldOffset, FieldReads;
    CatalogPrefix(cmds, p);
    var k := |Catalog(cmds[..p])|;
    RoundTrip(cmds, k);
    StoredOnly(cmds[p].adds, Forced(cmds[..p]), id);
  }

  // ─── Vtable sharing preserves meaning ──────────────────────────────────────

  predicate IsDedup(cmd: Command) {
    cmd.DedupVtables?
  }

  /** The run with its sharing switches left out. */
  function Unswitched(cmds: seq<Command>): (r: seq<Command>) {
    if cmds == [] then []
    else
      var last := |cmds| - 1;
      Unswitched(cmds[..last]) + if IsDedup(cmds[last]) then [] else [cmds[last]]
  }

  lemma {:induction false} UnswitchedCatalog(cmds: seq<Command>)
    ensures Catalog(Unswitched(cmds)) == Catalog(cmds) && Forced(Unswitched(cmds)) == Forced(cmds)
  {
    hide Stored;
    if cmds != [] {
      var init, cmd := cmds[..|cmds| - 1], cmds[|cmds| - 1];
      UnswitchedCatalog(init);
      if IsDedup(cmd) {
        assert Unswitched(init) + [] == Unswitched(init);
      } else {
        assert (Unswitched(init) + [cmd])[..|Unswitched(init)|] == Unswitched(init);
      }
    }
  }

  /** What a reader of the object at `off` can learn, with pointers named by the object they reach. */
  ghost predicate SameReading(data1: seq<byte>, t1: int, offs1: seq<nat>, data2: seq<byte>, t2: int, offs2: seq<nat>, f: Field) {
    match f.value
    case Scalar(w, _) => forall d :: GetField(data1, t1, f.id, w, d) == GetField(data2, t2, f.id, w, d)
    case Ref(k) =>
      && k < |offs1| && GetPointer(data1, t1, f.id) == To(|data1| - offs1[k])
      && k < |offs2| && GetPointer(data2, t2, f.id) == To(|data2| - offs2[k])
  }

  /**
   Two runs that differ only in when vtables are shared build tables that a
   reader cannot tell apart: present members agree, and absent ones are absent
   in both.
   */
  lemma SharingIsInvisible(cmds1: seq<Command>, cmds2: seq<Command>, k: nat)
    requires Legal(cmds1) && Legal(cmds2) && Unswitched(cmds1) == Unswitched(cmds2)
    requires k < |Catalog(cmds1)| && Catalog(cmds1)[k].Table?
    ensures Catalog(cmds2) == Catalog(cmds1)
    ensures
      var s1, s2, fields := Run(cmds1), Run(cmds2), Catalog(cmds1)[k].fields;
      && |s1.offs| == |s2.offs| == |Catalog(cmds1)|
      && (forall i :: 0 <= i < |fields| ==>
            SameReading(s1.b.data, |s1.b.data| - s1.offs[k], s1.offs, s2.b.data, |s2.b.data| - s2.offs[k], s2.offs, fields[i]))
      && (forall id :: FieldId(id) && !HasId(fields, id) ==>
            GetOptionalFieldOffset(s1.b.data, |s1.b.data| - s1.offs[k], id) == Some(0) &&
            GetOptionalFieldOffset(s2.b.data, |s2.b.data| - s2.offs[k], id) == Some(0))
  {
    hide Legal, Run, Catalog, FieldId, GetOptionalFieldOffset, Load, HasId, Sits;
    UnswitchedCatalog(cmds1);
    UnswitchedCatalog(cmds2);
    RoundTrip(cmds1, k);
    RoundTrip(cmds2, k);
    var s1, s2, fields := Run(cmds1), Run(cmds2), Catalog(cmds1)[k].fields;
    forall i | 0 <= i < |fields|
      ensures SameReading(s1.b.data, |s1.b.data| - s1.offs[k], s1.offs, s2.b.data, |s2.b.data| - s2.offs[k], s2.offs, fields[i])
    {
      assert FieldReads(s1.b.data, s1.offs[k], fields[i], s1.offs, s1.b.minalign);
      assert FieldReads(s2.b.data, s2.offs[k], fields[i], s2.offs, s2.b.minalign);
    }
  }

  /** No byte already written ever changes: not by later objects, nor by taking back a duplicate vtable. */
  lemma {:induction false} BytesAreFinal(cmds: seq<Command>, p: nat)
    requires Legal(cmds) && p <= |cmds|
    ensures Extends(Run(cmds[..p]).b.data, Run(cmds).b.data)
  {
    if p == |cmds| {
      assert cmds[..p] == cmds;
    } else {
      hide Allowed, Exec, Inv, Extends, IsPow2;
      var init, cmd := cmds[..|cmds| - 1], cmds[|cmds| - 1];
      assert init[..p] == cmds[..p];
      BytesAreFinal(init, p);
      RunInv(init);
      ExecInv(Run(init), Catalog(init), cmd);
      ExtendsTrans(Run(cmds[..p]).b.data, Run(init).b.data, Run(cmds).b.data);
    }
  }

  // ─── The remembered vtables ────────────────────────────────────────────────

  /** The vtable at `off`, as long as its first two bytes say. */
  function VTableAt(data: seq<byte>, off: nat): (r: seq<byte>) {
    if off <= |data| then
      match Load(data, |data| - off, 2)
      case None => []
      case Some(size) => if size <= off then data[|data| - off..|data| - off + size] else []
    else []
  }

  lemma VTableAtIs(data: seq<byte>, off: nat, vt: seq<byte>)
    requires |vt| >= 2 && Load(vt, 0, 2) == Some(|vt|) && BytesAt(data, off, vt)
    ensures VTableAt(data, off) == vt
  {
    hide Decode;
    SliceOfSlice(data, |data| - off, |vt|, 0);
  }

  predicate Whole(data: seq<byte>, off: nat) {
    BytesAt(data, off, VTableAt(data, off)) && |VTableAt(data, off)| >= 4
    && Load(VTableAt(data, off), 0, 2) == Some(|VTableAt(data, off)|)
  }

  /** Remembered vtables are whole, pairwise different, and take their room in the buffer. */
  predicate VTablesDistinct(b: Builder) {
    && (forall i :: 0 <= i < |b.vtables| ==> Whole(b.data, b.vtables[i]))
    && (forall i, j :: 0 <= i < j < |b.vtables| ==>
          VTableAt(b.data, b.vtables[i]) != VTableAt(b.data, b.vtables[j]))
  }

  lemma WholeGrows(data: seq<byte>, data': seq<byte>, off: nat)
    requires Whole(data, off) && Extends(data, data')
    ensures Whole(data', off) && VTableAt(data', off) == VTableAt(data, off)
  {
    hide Load, Extends, VTableAt;
    BytesAtGrows(data, data', off, VTableAt(data, off));
    VTableAtIs(data', off, VTableAt(data, off));
  }

  lemma DistinctGrows(b: Builder, b': Builder)
    requires VTablesDistinct(b) && Extends(b.data, b'.data) && b'.vtables == b.vtables
    ensures VTablesDistinct(b')
  {
    hide Whole, VTableAt, Extends;
    forall i | 0 <= i < |b.vtables|
      ensures Whole(b'.data, b.vtables[i]) && VTableAt(b'.data, b.vtables[i]) == VTableAt(b.data, b.vtables[i])
    {
      WholeGrows(b.data, b'.data, b.vtables[i]);
    }
  }

  /** What EndTable remembers, and why. */
  lemma EndTableRemembers(b: Builder, start: nat)
    requires b.dedup
    ensures
      var vt, r := VTable(b.locs, TableLoc(b), start), EndTable(b, start);
      match SharedVTable(b, start)
      case Some(_) => r.vtables == b.vtables
      case None =>
        && r.vtables == b.vtables + [TableLoc(b) + |vt|]
        && forall i :: 0 <= i < |b.vtables| ==> !BytesAt(b.data, b.vtables[i], vt)
  {
    hide VTable, BytesAt, Padding;
  }

  lemma DistinctPush(b: Builder, r: Builder, off: nat, vt: seq<byte>)
    requires VTablesDistinct(b) && Extends(b.data, r.data) && r.vtables == b.vtables + [off]
    requires forall i :: 0 <= i < |b.vtables| ==> !BytesAt(b.data, b.vtables[i], vt)
    requires VTableAt(r.data, off) == vt && Whole(r.data, off)
    ensures VTablesDistinct(r)
  {
    hide Whole, VTableAt, Extends, BytesAt;
    forall i | 0 <= i < |b.vtables|
      ensures Whole(r.data, b.vtables[i]) && VTableAt(r.data, b.vtables[i]) == VTableAt(b.data, b.vtables[i])
      ensures VTableAt(b.data, b.vtables[i]) != vt
    {
      WholeGrows(b.data, r.data, b.vtables[i]);
      WholeIs(b.data, b.vtables[i]);
    }
  }

  lemma EndTableDistinct(b: Builder, start: nat)
    requires IsPow2(b.minalign) && b.dedup && VTablesDistinct(b) && VTablesIn(b)
    requires GoodLocs(b.locs, TableLoc(b)) && TableLoc(b) + VTableSize(b.locs) < MAX_BUFFER_SIZE
    ensures VTablesDistinct(EndTable(b, start))
  {
    hide IsPow2, GoodLocs, TableLoc, VTable, VTableSize, Whole, VTableAt, Extends, Grown, Divides, Load, VTablesDistinct, EndTable, SharedVTable, BytesAt;
    var loc, vt, r := TableLoc(b), VTable(b.locs, TableLoc(b), start), EndTable(b, start);
    EndTableUses(b, start);
    EndTableRemembers(b, start);
    GrownFacts(b, r);
    MaxIdEven(b.locs, loc);
    VTableReads(b.locs, loc, start, 0);
    if SharedVTable(b, start).Some? {
      DistinctGrows(b, r);
    } else {
      NewVTable(r.data, loc + |vt|, vt);
      DistinctPush(b, r, loc + |vt|, vt);
    }
  }

  lemma WholeIs(data: seq<byte>, off: nat)
    requires Whole(data, off)
    ensures BytesAt(data, off, VTableAt(data, off))
  {
  }

  lemma NewVTable(data: seq<byte>, off: nat, vt: seq<byte>)
    requires |vt| >= 4 && Load(vt, 0, 2) == Some(|vt|) && BytesAt(data, off, vt)
    ensures VTableAt(data, off) == vt && Whole(data, off)
  {
    VTableAtIs(data, off, vt);
  }

  lemma ExecDistinct(s: Session, cat: seq<Object>, cmd: Command)
    requires Inv(s, cat) && Allowed(s, cmd) && s.b.dedup && VTablesDistinct(s.b) && cmd != DedupVtables(false)
    ensures Exec(s, cmd).b.dedup && VTablesDistinct(Exec(s, cmd).b)
  {
    hide IsPow2, VTablesDistinct, Grown, AllRead, CreateString, CreateVector, CreateOffsetVector, ExecAdds, EndTable, WellTyped, VTableSize, TableLoc, Extends, DistinctIds, Stored, Building;
    ExecInv(s, cat, cmd);
    GrownFacts(s.b, Exec(s, cmd).b);
    match cmd
    case StringCommand(bytes) =>
      RestOfString(s.b, bytes);
      DistinctGrows(s.b, Exec(s, cmd).b);
    case VectorCommand(w, a, values) =>
      RestOfVector(s.b, values, w, Max(a, 1));
      DistinctGrows(s.b, Exec(s, cmd).b);
    case OffsetsCommand(targets) =>
      RestOfOffsetVector(s.b, OffsetsOf(s.offs, targets));
      DistinctGrows(s.b, Exec(s, cmd).b);
    case TableCommand(adds) =>
      TableDistinct(s, cat, adds);
    case ForceDefaults(_) => DistinctGrows(s.b, Exec(s, cmd).b);
    case DedupVtables(_) => DistinctGrows(s.b, Exec(s, cmd).b);
  }

  lemma TableDistinct(s: Session, cat: seq<Object>, adds: seq<Add>)
    requires Inv(s, cat) && Allowed(s, TableCommand(adds)) && s.b.dedup && VTablesDistinct(s.b)
    ensures Exec(s, TableCommand(adds)).b.dedup && VTablesDistinct(Exec(s, TableCommand(adds)).b)
  {
    hide IsPow2, VTablesDistinct, Grown, AllRead, ExecAdds, WellTyped, VTableSize, TableLoc, Extends, DistinctIds, Stored, Building, GoodLocs, EndTable;
    var b0 := StartTable(s.b);
    var b := ExecAdds(b0, s.offs, adds);
    AllReadFacts(s, cat);
    TableLocBound(b);
    AddsStep(b0, s.offs, adds);
    GrownFacts(b0, b);
    DistinctGrows(s.b, b);
    LocsOfBuilding(b, |b0.data|, Stored(adds, s.b.forceDefaults), s.offs);
    EndTableDistinct(b, |b0.data|);
    EndTableDedup(b, |b0.data|);
  }

  lemma EndTableDedup(b: Builder, start: nat)
    ensures EndTable(b, start).dedup == b.dedup
  {
  }

  /** While sharing stays on, the vtables remembered in the scratch pad are pairwise different. */
  lemma {:induction false} RememberedDiffer(cmds: seq<Command>)
    requires Legal(cmds) && forall i :: 0 <= i < |cmds| ==> cmds[i] != DedupVtables(false)
    ensures Run(cmds).b.dedup && VTablesDistinct(Run(cmds).b)
  {
    if cmds != [] {
      hide Allowed, Exec, Inv, VTablesDistinct;
      var init, cmd := cmds[..|cmds| - 1], cmds[|cmds| - 1];
      RememberedDiffer(init);
      RunInv(init);
      ExecDistinct(Run(init), Catalog(init), cmd);
    }
  }
}
