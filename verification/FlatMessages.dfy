/**
 The messages of Put and Get over their bytes: everything is reached from the root
 of the finished buffer, and what a Put request carried is what the Get response
 gives back.
 */
module FlatMessages {
  import opened Wrappers
  import opened Bits
  import opened FlatReader
  import FlatBuilder
  import opened FlatRoundTrip
  import opened FlatTheorems
  import opened FlatFinish
  import opened FlatRecords
  import opened FlatRows
  import Ingest = StreamIngest
  import Rows = RowCodec

  // ─── A message that holds a row ────────────────────────────────────────────

  /** The message's table is the last object; the row the one before it. */
  function MessageCommands(before: seq<Command>, rs: seq<seq<Member>>, adds: seq<Add>): (r: seq<Command>) {
    before + RowCommands(rs, |Catalog(before)|) + [TableCommand(adds)]
  }

  function RowIndex(before: seq<Command>, rs: seq<seq<Member>>): (r: nat) {
    |Catalog(before)| + RecordsCount(rs) + 1
  }

  predicate DistinctAdds(adds: seq<Add>) {
    forall i, j :: 0 <= i < j < |adds| ==> adds[i].id != adds[j].id
  }

  /** The member of a message's root table that refers to a row. */
  function ReadMessageRow(fc: Floats, data: seq<byte>, at: int, id: nat): (r: Option<Rows.Row>) {
    match GetRoot(data, at)
    case To(p) => (match GetPointer(data, p, id) case To(q) => ReadRow(fc, data, q) case _ => None)
    case _ => None
  }

  function ReadMessageNumber(data: seq<byte>, at: int, id: nat, w: nat): (r: Option<nat>) {
    match GetRoot(data, at)
    case To(p) => GetField(data, p, id, w, 0)
    case _ => None
  }

  /** A string member of a message's root table; `Some(None)` if it is not set. */
  function ReadMessageText(data: seq<byte>, at: int, id: nat): (r: Option<Option<seq<byte>>>) {
    match GetRoot(data, at)
    case To(p) => ReadStr(data, p, id)
    case _ => None
  }

  /** The names that the fields of a message's row carry. */
  function ReadMessageNames(data: seq<byte>, at: int, id: nat): (r: Option<seq<seq<byte>>>) {
    match GetRoot(data, at)
    case To(p) => (match GetPointer(data, p, id) case To(q) => ReadRowNames(data, q) case _ => None)
    case _ => None
  }

  lemma TableInCatalog(before: seq<Command>, rs: seq<seq<Member>>, adds: seq<Add>)
    ensures
      var cat, t := Catalog(MessageCommands(before, rs, adds)), RowIndex(before, rs);
      |cat| == t + 2 && cat[t + 1] == Table(Stored(adds, Forced(before))) && RowAt(cat, t, rs)
  {
    hide Catalog, Added, RowAt, RowCommands, RecordsCount, Forced, Stored;
    var k := |Catalog(before)|;
    var row, tab := RowCommands(rs, k), [TableCommand(adds)];
    assert Plain(tab);
    RowInCatalog(before, rs, tab);
    RowPlain(rs, k);
    CatalogConcat(before, row);
    CatalogConcat(before + row, tab);
    RowWritten(Catalog(before), rs, Forced(before));
    AddedOne(TableCommand(adds), Forced(before));
    TableAdded(adds, Forced(before));
  }

  lemma TableAdded(adds: seq<Add>, force: bool)
    ensures Added([TableCommand(adds)], force) == [Table(Stored(adds, force))]
  {
    hide Stored;
    AddedOne(TableCommand(adds), force);
  }

  /** Every member of the message's table reads back from the finished buffer. */
  lemma MessageReads(before: seq<Command>, rs: seq<seq<Member>>, adds: seq<Add>, fileId: Option<seq<byte>>, sizePrefix: bool, i: nat)
    requires i < |adds| && DistinctAdds(adds) && FieldId(adds[i].id)
    requires
      var cmds := MessageCommands(before, rs, adds);
      Legal(cmds) && FinishAllowed(Run(cmds), RowIndex(before, rs) + 1, fileId, sizePrefix)
    ensures
      var s, root := Run(MessageCommands(before, rs, adds)), RowIndex(before, rs) + 1;
      var data := FlatBuilder.Finish(s.b, s.offs[root], fileId, sizePrefix).data;
      && GetRoot(data, if sizePrefix then 4 else 0) == To(|data| - s.offs[root])
      && ReadsAdd(data, |data| - s.offs[root], adds[i], s.offs)
  {
    hide Legal, Run, Catalog, FlatBuilder.Finish, Reads, RowAt, MessageCommands, ReadsAdd, Stored, FrontAligned, Forced, RowIndex, FieldId, GetRoot;
    var cmds, root := MessageCommands(before, rs, adds), RowIndex(before, rs) + 1;
    var s := Run(cmds);
    FinishedBuffer(cmds, root, fileId, sizePrefix);
    TableInCatalog(before, rs, adds);
    var r := FlatBuilder.Finish(s.b, s.offs[root], fileId, sizePrefix);
    assert Reads(r.data, s.offs[root], Catalog(cmds)[root], s.offs, r.minalign);
    ReadsStored(r.data, s.offs[root], adds, Forced(before), s.offs, r.minalign, i);
  }

  /** The row of a message, reached from its root. */
  lemma MessageRowReads(
    fc: Floats, before: seq<Command>, fvs: seq<FieldValue>, names: seq<seq<byte>>, adds: seq<Add>,
    fileId: Option<seq<byte>>, sizePrefix: bool, i: nat)
    requires AllFit(fc, fvs) && |names| == |fvs| && i < |adds| && DistinctAdds(adds) && FieldId(adds[i].id)
    requires
      var rs := AllMembers(fc, fvs, names);
      var cmds := MessageCommands(before, rs, adds);
      && adds[i] == AddRef(adds[i].id, Some(RowIndex(before, rs)))
      && Legal(cmds) && FinishAllowed(Run(cmds), RowIndex(before, rs) + 1, fileId, sizePrefix)
    ensures
      var rs := AllMembers(fc, fvs, names);
      var s, root := Run(MessageCommands(before, rs, adds)), RowIndex(before, rs) + 1;
      var data := FlatBuilder.Finish(s.b, s.offs[root], fileId, sizePrefix).data;
      ReadMessageRow(fc, data, if sizePrefix then 4 else 0, adds[i].id) == Some(Rows.Row(Some(Entries(fvs))))
  {
    hide Legal, Run, Catalog, AllRead, FlatBuilder.Finish, Reads, RowAt, ReadRow, MessageCommands, AllFit, Stored, Forced, FieldId, HasHeader, FrontAligned,
      AllMembers, RowIndex, GetRoot, GetPointer;
    var rs := AllMembers(fc, fvs, names);
    var cmds, t := MessageCommands(before, rs, adds), RowIndex(before, rs);
    var s := Run(cmds);
    MessageReads(before, rs, adds, fileId, sizePrefix, i);
    FinishedBuffer(cmds, t + 1, fileId, sizePrefix);
    TableInCatalog(before, rs, adds);
    var r := FlatBuilder.Finish(s.b, s.offs[t + 1], fileId, sizePrefix);
    RowOverBytes(fc, Session(r, s.offs), Catalog(cmds), t, fvs, names);
  }

  lemma TextInCatalog(before: seq<Command>, rs: seq<seq<Member>>, adds: seq<Add>, k: nat)
    requires k < |Catalog(before)|
    ensures k < |Catalog(MessageCommands(before, rs, adds))| && Catalog(MessageCommands(before, rs, adds))[k] == Catalog(before)[k]
  {
    hide Catalog, Added, RowCommands, Forced;
    var row, tab := RowCommands(rs, |Catalog(before)|), [TableCommand(adds)];
    assert Plain(tab);
    RowPlain(rs, |Catalog(before)|);
    CatalogConcat(before, row);
    CatalogConcat(before + row, tab);
  }

  /** A string of a message that was created before its row, reached from the root. */
  lemma MessageTextReads(
    before: seq<Command>, rs: seq<seq<Member>>, adds: seq<Add>, fileId: Option<seq<byte>>, sizePrefix: bool, i: nat, k: nat, text: seq<byte>)
    requires i < |adds| && DistinctAdds(adds) && FieldId(adds[i].id) && adds[i] == AddRef(adds[i].id, Some(k))
    requires k < |Catalog(before)| && Catalog(before)[k] == Text(text)
    requires
      var cmds := MessageCommands(before, rs, adds);
      Legal(cmds) && FinishAllowed(Run(cmds), RowIndex(before, rs) + 1, fileId, sizePrefix)
    ensures
      var s, root := Run(MessageCommands(before, rs, adds)), RowIndex(before, rs) + 1;
      var data := FlatBuilder.Finish(s.b, s.offs[root], fileId, sizePrefix).data;
      ReadMessageText(data, if sizePrefix then 4 else 0, adds[i].id) == Some(Some(text))
  {
    hide Legal, Run, Catalog, FlatBuilder.Finish, Reads, RowAt, MessageCommands, Stored, FrontAligned, Forced, RowIndex, FieldId, GetRoot, GetPointer,
      ReadString;
    var cmds, root := MessageCommands(before, rs, adds), RowIndex(before, rs) + 1;
    var s := Run(cmds);
    MessageReads(before, rs, adds, fileId, sizePrefix, i);
    FinishedBuffer(cmds, root, fileId, sizePrefix);
    TextInCatalog(before, rs, adds, k);
    var r := FlatBuilder.Finish(s.b, s.offs[root], fileId, sizePrefix);
    assert Reads(r.data, s.offs[k], Catalog(cmds)[k], s.offs, r.minalign);
    StringAt(r.data, s.offs[k], text, s.offs, r.minalign);
  }

  lemma OneText(text: seq<byte>)
    ensures Catalog([StringCommand(text)]) == [Text(text)]
  {
    assert [StringCommand(text)][..0] == [];
    assert Catalog([]) == [];
  }

  /** The names of a message's row, reached from its root. */
  lemma MessageNamesRead(
    fc: Floats, before: seq<Command>, fvs: seq<FieldValue>, names: seq<seq<byte>>, adds: seq<Add>,
    fileId: Option<seq<byte>>, sizePrefix: bool, i: nat)
    requires AllFit(fc, fvs) && |names| == |fvs| && i < |adds| && DistinctAdds(adds) && FieldId(adds[i].id)
    requires
      var rs := AllMembers(fc, fvs, names);
      var cmds := MessageCommands(before, rs, adds);
      && adds[i] == AddRef(adds[i].id, Some(RowIndex(before, rs)))
      && Legal(cmds) && FinishAllowed(Run(cmds), RowIndex(before, rs) + 1, fileId, sizePrefix)
    ensures
      var rs := AllMembers(fc, fvs, names);
      var s, root := Run(MessageCommands(before, rs, adds)), RowIndex(before, rs) + 1;
      var data := FlatBuilder.Finish(s.b, s.offs[root], fileId, sizePrefix).data;
      ReadMessageNames(data, if sizePrefix then 4 else 0, adds[i].id) == Some(names)
  {
    hide Legal, Run, Catalog, AllRead, FlatBuilder.Finish, Reads, RowAt, ReadRowNames, MessageCommands, AllFit, Stored, Forced, FieldId, HasHeader, FrontAligned,
      AllMembers, RowIndex, GetRoot, GetPointer;
    var rs := AllMembers(fc, fvs, names);
    var cmds, t := MessageCommands(before, rs, adds), RowIndex(before, rs);
    var s := Run(cmds);
    MessageReads(before, rs, adds, fileId, sizePrefix, i);
    FinishedBuffer(cmds, t + 1, fileId, sizePrefix);
    TableInCatalog(before, rs, adds);
    var r := FlatBuilder.Finish(s.b, s.offs[t + 1], fileId, sizePrefix);
    NamesOverBytes(fc, Session(r, s.offs), Catalog(cmds), t, fvs, names);
  }

  // ─── Get ───────────────────────────────────────────────────────────────────

  /** `CreateGetResponse` with a row: the numbers and offsets in the order they are added. */
  function ResponseAdds(row: nat, err: nat, ns: nat): (r: seq<Add>) {
    [AddScalar(10, 8, ns, Some(0)), AddRef(8, Some(row)), AddRef(6, Some(err)), AddScalar(4, 1, 1, Some(0))]
  }

  /** The empty error text comes first. */
  const NO_ERROR: seq<Command> := [StringCommand([])]

  function ResponseCommands(fc: Floats, fvs: seq<FieldValue>, names: seq<seq<byte>>, ns: nat): (r: seq<Command>)
    requires AllFit(fc, fvs) && |names| == |fvs|
  {
    var rs := AllMembers(fc, fvs, names);
    MessageCommands(NO_ERROR, rs, ResponseAdds(RowIndex(NO_ERROR, rs), 0, ns))
  }

  /** The bytes of a finished message whose table is its last object. */
  function MessageBytes(cmds: seq<Command>, root: nat): (r: seq<byte>)
    requires root < |Run(cmds).offs|
  {
    FlatBuilder.Finish(Run(cmds).b, Run(cmds).offs[root], None, false).data
  }

  ghost predicate Sendable(cmds: seq<Command>, root: nat) {
    Legal(cmds) && FinishAllowed(Run(cmds), root, None, false)
  }

  function LastObject(fc: Floats, before: seq<Command>, fvs: seq<FieldValue>, names: seq<seq<byte>>): (r: nat)
    requires AllFit(fc, fvs) && |names| == |fvs|
  {
    RowIndex(before, AllMembers(fc, fvs, names)) + 1
  }

  lemma ResponseReads(fc: Floats, fvs: seq<FieldValue>, names: seq<seq<byte>>, ns: nat)
    requires AllFit(fc, fvs) && |names| == |fvs| && Sendable(ResponseCommands(fc, fvs, names, ns), LastObject(fc, NO_ERROR, fvs, names))
    ensures
      var data := MessageBytes(ResponseCommands(fc, fvs, names, ns), LastObject(fc, NO_ERROR, fvs, names));
      && ReadMessageNumber(data, 0, 4, 1) == Some(1) && ReadMessageNumber(data, 0, 10, 8) == Some(ns)
      && ReadMessageText(data, 0, 6) == Some(Some([])) && ReadMessageNames(data, 0, 8) == Some(names)
      && ReadMessageRow(fc, data, 0, 8) == Some(Rows.Row(Some(Entries(fvs))))
  {
    hide Legal, Run, Catalog, FlatBuilder.Finish, MessageCommands, AllFit, AllMembers, RowIndex, GetRoot, GetField, ReadRow, GetPointer, RecordsCount,
      ReadMessageText, ReadMessageNames, ReadMessageRow;
    var rs := AllMembers(fc, fvs, names);
    var adds := ResponseAdds(RowIndex(NO_ERROR, rs), 0, ns);
    MessageReads(NO_ERROR, rs, adds, None, false, 0);
    MessageReads(NO_ERROR, rs, adds, None, false, 3);
    OneText([]);
    MessageTextReads(NO_ERROR, rs, adds, None, false, 2, 0, []);
    MessageRowReads(fc, NO_ERROR, fvs, names, adds, None, false, 1);
    MessageNamesRead(fc, NO_ERROR, fvs, names, adds, None, false, 1);
  }

  /** The row a client finds from the root of a Get response makes the stored document again. */
  lemma GetOverBytes(fc: Floats, schema: Ingest.Schema, doc: Ingest.Doc, names: seq<seq<byte>>, ns: nat)
    requires Ingest.GoodSchema(schema) && Rows.NarrowIds(schema) && Rows.TypedDoc(schema, doc) && Rows.Supported(schema)
    requires AllFit(fc, ValuesOf(doc, schema.fields)) && |names| == |schema.fields|
    requires
      var fvs := ValuesOf(doc, schema.fields);
      Sendable(ResponseCommands(fc, fvs, names, ns), LastObject(fc, NO_ERROR, fvs, names))
    ensures
      var fvs := ValuesOf(doc, schema.fields);
      var data := MessageBytes(ResponseCommands(fc, fvs, names, ns), LastObject(fc, NO_ERROR, fvs, names));
      && ReadMessageNumber(data, 0, 4, 1) == Some(1) && ReadMessageNumber(data, 0, 10, 8) == Some(ns)
      && ReadMessageText(data, 0, 6) == Some(Some([])) && ReadMessageNames(data, 0, 8) == Some(names)
      && ReadMessageRow(fc, data, 0, 8) == Some(Rows.BuildRow(schema, doc))
      && Rows.ApplyRow(schema, Ingest.NewDoc(schema), Rows.BuildRow(schema, doc)) == Some(doc)
  {
    hide Legal, Run, MessageBytes, Sendable, ResponseCommands, LastObject, AllFit, ReadMessageRow, ReadMessageNumber, ReadMessageText, ReadMessageNames,
      Rows.ApplyRow, Rows.BuildRow, Ingest.GoodSchema, Rows.NarrowIds, Rows.TypedDoc, Rows.Supported;
    ResponseReads(fc, ValuesOf(doc, schema.fields), names, ns);
    BuiltEntries(schema, doc);
    Rows.RowRoundTrip(schema, doc);
  }

  // ─── Put ───────────────────────────────────────────────────────────────────

  /** `CreatePutRequest`: the table's name, then the row. */
  function RequestAdds(row: nat, name: nat): (r: seq<Add>) {
    [AddRef(6, Some(name)), AddRef(4, Some(row))]
  }

  function RequestCommands(fc: Floats, fvs: seq<FieldValue>, names: seq<seq<byte>>, tableName: seq<byte>): (r: seq<Command>)
    requires AllFit(fc, fvs) && |names| == |fvs|
  {
    var rs, before := AllMembers(fc, fvs, names), [StringCommand(tableName)];
    MessageCommands(before, rs, RequestAdds(RowIndex(before, rs), 0))
  }

  /** The server finds the table's name and the row of a Put request, whatever the client put into it. */
  lemma PutOverBytes(fc: Floats, fvs: seq<FieldValue>, names: seq<seq<byte>>, tableName: seq<byte>)
    requires AllFit(fc, fvs) && |names| == |fvs|
    requires Sendable(RequestCommands(fc, fvs, names, tableName), LastObject(fc, [StringCommand(tableName)], fvs, names))
    ensures
      var data := MessageBytes(RequestCommands(fc, fvs, names, tableName), LastObject(fc, [StringCommand(tableName)], fvs, names));
      && ReadMessageText(data, 0, 6) == Some(Some(tableName)) && ReadMessageNames(data, 0, 4) == Some(names)
      && ReadMessageRow(fc, data, 0, 4) == Some(Rows.Row(Some(Entries(fvs))))
  {
    hide Legal, Run, Catalog, FlatBuilder.Finish, MessageCommands, AllFit, AllMembers, RowIndex, ReadMessageRow, ReadMessageText, ReadMessageNames;
    var rs, before := AllMembers(fc, fvs, names), [StringCommand(tableName)];
    var adds := RequestAdds(RowIndex(before, rs), 0);
    OneText(tableName);
    MessageTextReads(before, rs, adds, None, false, 0, 0, tableName);
    MessageRowReads(fc, before, fvs, names, adds, None, false, 1);
    MessageNamesRead(fc, before, fvs, names, adds, None, false, 1);
  }

  // ─── Values that came over the wire go back over the wire ──────────────────

  /** Zero has bits. */
  predicate GoodFloats(fc: Floats) {
    Fits32(fc, 0.0) && Fits64(fc, 0.0)
  }

  ghost predicate DocFits(fc: Floats, schema: Ingest.Schema, doc: Ingest.Doc) {
    forall def :: def in schema.fields ==> Fits(fc, Rows.BuildFieldValue(doc, def))
  }

  lemma NewDocFits(fc: Floats, schema: Ingest.Schema)
    requires GoodFloats(fc) && Ingest.GoodSchema(schema)
    ensures DocFits(fc, schema, Ingest.NewDoc(schema))
  {
    hide Fits32, Fits64, Ingest.GoodSchema, Ingest.NewDoc;
    Ingest.NewDocDefault(schema);
    var d := Ingest.NewDoc(schema);
    forall def | def in schema.fields ensures Fits(fc, Rows.BuildFieldValue(d, def)) {
      assert Ingest.SlotOf(d, def) == Ingest.DefaultSlot(def);
    }
  }

  lemma PutScalarFits(fc: Floats, d: Ingest.Doc, def: Ingest.FieldDef, fv: FieldValue)
    requires GoodFloats(fc) && Fits(fc, fv) && Rows.FieldValueMatchesSchema(def, fv.vtype) && !def.isArray
    requires Some(Ingest.SlotOf(d, def)) == Rows.PutSlot(fv)
    ensures Fits(fc, Rows.BuildFieldValue(d, def))
  {
    hide Fits32, Fits64, CellsFit, StrsFit, IsBytes, Ingest.SlotOf;
    NothingIsBytes();
    NoneFit(fc);
  }

  lemma PutArrayFits(fc: Floats, d: Ingest.Doc, def: Ingest.FieldDef, fv: FieldValue)
    requires GoodFloats(fc) && Fits(fc, fv) && Rows.FieldValueMatchesSchema(def, fv.vtype) && def.isArray
    requires Some(Ingest.SlotOf(d, def)) == Rows.PutSlot(fv)
    ensures Fits(fc, Rows.BuildFieldValue(d, def))
  {
    hide Fits32, Fits64, CellsFit, StrsFit, IsBytes, Ingest.SlotOf;
    NoneFit(fc);
  }

  lemma NoneFit(fc: Floats)
    ensures CellsFit(fc, KI32, None) && CellsFit(fc, KI64, None) && CellsFit(fc, KF32, None) && CellsFit(fc, KF64, None) && StrsFit(None)
  {
  }

  /** A value that fits puts a slot that fits. */
  lemma PutFits(fc: Floats, doc: Ingest.Doc, def: Ingest.FieldDef, fv: FieldValue)
    requires GoodFloats(fc) && Fits(fc, fv) && Rows.FieldValueMatchesSchema(def, fv.vtype) && Rows.PutSlot(fv).Some?
    ensures Fits(fc, Rows.BuildFieldValue(doc[def.id := Rows.PutSlot(fv).value], def))
  {
    hide Fits, GoodFloats, Rows.FieldValueMatchesSchema, Rows.PutSlot, Rows.BuildFieldValue;
    var d := doc[def.id := Rows.PutSlot(fv).value];
    assert Ingest.SlotOf(d, def) == Rows.PutSlot(fv).value;
    if def.isArray {
      PutArrayFits(fc, d, def, fv);
    } else {
      PutScalarFits(fc, d, def, fv);
    }
  }

  lemma NothingIsBytes()
    ensures IsBytes("")
  {
  }

  lemma OtherFits(fc: Floats, schema: Ingest.Schema, doc: Ingest.Doc, def: Ingest.FieldDef, slot: Ingest.Slot)
    requires Ingest.GoodSchema(schema) && DocFits(fc, schema, doc) && def in schema.fields
    requires Fits(fc, Rows.BuildFieldValue(doc[def.id := slot], def))
    ensures DocFits(fc, schema, doc[def.id := slot])
  {
    hide Fits;
    var d := doc[def.id := slot];
    forall f | f in schema.fields ensures Fits(fc, Rows.BuildFieldValue(d, f)) {
      if f != def {
        DistinctIds(schema, f, def);
        assert Ingest.SlotOf(d, f) == Ingest.SlotOf(doc, f);
        assert Rows.BuildFieldValue(d, f) == Rows.BuildFieldValue(doc, f);
      }
    }
  }

  lemma DistinctIds(schema: Ingest.Schema, a: Ingest.FieldDef, b: Ingest.FieldDef)
    requires Ingest.GoodSchema(schema) && a in schema.fields && b in schema.fields && a != b
    ensures a.id != b.id
  {
  }

  lemma {:induction false} FieldsFit(fc: Floats, schema: Ingest.Schema, doc: Ingest.Doc, fvs: seq<FieldValue>)
    requires GoodFloats(fc) && Ingest.GoodSchema(schema) && DocFits(fc, schema, doc) && AllFit(fc, fvs)
    requires Rows.ApplyFields(schema, doc, Entries(fvs)).Some?
    ensures DocFits(fc, schema, Rows.ApplyFields(schema, doc, Entries(fvs)).value)
  {
    hide Fits, Rows.FieldValueMatchesSchema, Rows.PutSlot, Ingest.GoodSchema, DocFits, GoodFloats;
    if fvs != [] {
      var n := |fvs| - 1;
      assert Entries(fvs)[..n] == Entries(fvs[..n]);
      FieldsFit(fc, schema, doc, fvs[..n]);
      var d, fv := Rows.ApplyFields(schema, doc, Entries(fvs[..n])).value, fvs[n];
      var def := Rows.FindById(schema.fields, fv.id % 0x1_0000).value;
      if Rows.PutSlot(fv).Some? {
        PutFits(fc, d, def, fv);
        OtherFits(fc, schema, d, def, Rows.PutSlot(fv).value);
      }
    }
  }

  /** Whatever a Put request carried, the document it makes can be sent back. */
  lemma StagedFits(fc: Floats, schema: Ingest.Schema, fvs: seq<FieldValue>)
    requires GoodFloats(fc) && Ingest.GoodSchema(schema) && AllFit(fc, fvs)
    requires Rows.Stage(schema, Some(Rows.Row(Some(Entries(fvs))))).Some?
    ensures AllFit(fc, ValuesOf(Rows.Stage(schema, Some(Rows.Row(Some(Entries(fvs))))).value, schema.fields))
  {
    hide Fits, Ingest.GoodSchema, GoodFloats, Rows.ApplyFields, Ingest.NewDoc, Rows.PkOfDoc, Rows.BuildFieldValue;
    NewDocFits(fc, schema);
    FieldsFit(fc, schema, Ingest.NewDoc(schema), fvs);
  }

  // ─── Put, then Get ─────────────────────────────────────────────────────────

  /**
   The whole way: the bytes of a Put request, the row the server reads from them, the
   document it stores, the Get response it builds for that key, and the row a client
   reads from the response's bytes: applied to a new document it gives the document
   that the request made.
   */
  lemma PutThenGetOverBytes(
    fc: Floats, schema: Ingest.Schema, idx: Ingest.Index, fvs: seq<FieldValue>, sent: seq<seq<byte>>, tableName: seq<byte>,
    names: seq<seq<byte>>, ns: nat)
    requires GoodFloats(fc) && Ingest.GoodSchema(schema) && Rows.NarrowIds(schema) && Rows.Supported(schema)
    requires AllFit(fc, fvs) && |sent| == |fvs| && |names| == |schema.fields|
    requires Sendable(RequestCommands(fc, fvs, sent, tableName), LastObject(fc, [StringCommand(tableName)], fvs, sent))
    requires Rows.Stage(schema, Some(Rows.Row(Some(Entries(fvs))))).Some?
    ensures
      var request := MessageBytes(RequestCommands(fc, fvs, sent, tableName), LastObject(fc, [StringCommand(tableName)], fvs, sent));
      var doc := Rows.Stage(schema, ReadMessageRow(fc, request, 0, 4));
      && ReadMessageText(request, 0, 6) == Some(Some(tableName))
      && doc.Some? && AllFit(fc, ValuesOf(doc.value, schema.fields))
      && var vs, key := ValuesOf(doc.value, schema.fields), Rows.PkOfDoc(schema, doc.value);
      && Rows.HandleGet(schema, Ingest.Store(schema, idx, doc.value), key) == Some(Rows.BuildRow(schema, doc.value))
      && (Sendable(ResponseCommands(fc, vs, names, ns), LastObject(fc, NO_ERROR, vs, names)) ==>
            var response := MessageBytes(ResponseCommands(fc, vs, names, ns), LastObject(fc, NO_ERROR, vs, names));
            var row := ReadMessageRow(fc, response, 0, 8);
            && ReadMessageNumber(response, 0, 4, 1) == Some(1) && ReadMessageText(response, 0, 6) == Some(Some([]))
            && row.Some? && Rows.ApplyRow(schema, Ingest.NewDoc(schema), row.value) == Some(doc.value))
  {
    hide MessageBytes, Sendable, ResponseCommands, RequestCommands, LastObject, AllFit, ReadMessageRow, ReadMessageNumber, ReadMessageText, ReadMessageNames, GoodFloats,
      Rows.ApplyRow, Rows.BuildRow, Ingest.GoodSchema, Rows.NarrowIds, Rows.TypedDoc, Rows.Supported, Rows.Stage, Rows.PkOfDoc, Ingest.NewDoc, Ingest.StoredKey;
    var row := Rows.Row(Some(Entries(fvs)));
    PutOverBytes(fc, fvs, sent, tableName);
    var doc := Rows.Stage(schema, Some(row)).value;
    StagedFits(fc, schema, fvs);
    Rows.StagedIsTyped(schema, Some(row));
    Rows.StagedHasKey(schema, Some(row));
    Rows.PkIsStoredKey(schema, doc);
    var vs := ValuesOf(doc, schema.fields);
    if Sendable(ResponseCommands(fc, vs, names, ns), LastObject(fc, NO_ERROR, vs, names)) {
      GetOverBytes(fc, schema, doc, names, ns);
    }
  }
}
