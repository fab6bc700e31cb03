/**
 Rows on the wire: `BuildRow` turns a document into a row of field values,
 `ApplyRowToDoc` writes a row into a fresh document.  Batches are staged before
 they reach the index.
 */
module RowCodec {
  import opened Wrappers
  import opened StreamIngest
  import opened StreamLaws
  import Meaning = StreamMeaning

  datatype ValueType =
    | NONE | BOOL | I32 | I64 | F32 | F64 | STRING | BYTES
    | ARR_I32 | ARR_I64 | ARR_F32 | ARR_F64 | ARR_STRING

  /** A FieldValue table: every member is present in the reader, absent ones with their default. */
  datatype FieldValue = FieldValue(
    id: nat, vtype: ValueType,
    i32: int, i64: int, f32: real, f64: real,
    s: Option<string>, raw: Option<string>,
    ai32: Option<seq<Cell>>, ai64: Option<seq<Cell>>, af32: Option<seq<Cell>>, af64: Option<seq<Cell>>,
    strs: Option<seq<Cell>>)

  /** `None` stands for an absent vector or a null element. */
  datatype Row = Row(fields: Option<seq<Option<FieldValue>>>)

  function Blank(id: nat, vtype: ValueType): (r: FieldValue) {
    FieldValue(id, vtype, 0, 0, 0.0, 0.0, None, None, None, None, None, None, None)
  }

  function FindById(fields: seq<FieldDef>, id: nat): (r: Option<FieldDef>)
    ensures r.Some? ==> r.value in fields && r.value.id == id
    ensures r.None? ==> forall i :: 0 <= i < |fields| ==> fields[i].id != id
  {
    if fields == [] then None else if fields[0].id == id then Some(fields[0]) else FindById(fields[1..], id)
  }

  // ─── Reading a row ─────────────────────────────────────────────────────────

  predicate FieldValueMatchesSchema(def: FieldDef, vt: ValueType) {
    if def.isArray then
      match def.ty
      case Int32 => vt == ARR_I32
      case Int64 => vt == ARR_I64
      case Float32 => vt == ARR_F32
      case Float64 => vt == ARR_F64
      case String => vt == ARR_STRING
      case Bool => false
      case Bytes => false
    else
      match def.ty
      case Bool => vt == BOOL
      case Int32 => vt == I32
      case Int64 => vt == I64
      case Float32 => vt == F32
      case Float64 => vt == F64
      case String => vt == STRING
      case Bytes => vt == BYTES
  }

  /** The slot a field value puts; `None` leaves the document alone. */
  function PutSlot(fv: FieldValue): (r: Option<Slot>) {
    match fv.vtype
    case BOOL => Some(Scalar(CInt(if fv.i32 != 0 then 1 else 0)))
    case I32 => Some(Scalar(CInt(fv.i32)))
    case I64 => Some(Scalar(CInt(fv.i64)))
    case F32 => Some(Scalar(CReal(fv.f32)))
    case F64 => Some(Scalar(CReal(fv.f64)))
    case STRING => Some(Scalar(CStr(if fv.s.Some? then fv.s.value else "")))
    case BYTES => Some(Scalar(CStr(if fv.raw.Some? then fv.raw.value else "")))
    case ARR_I32 => PutArray(fv.ai32)
    case ARR_I64 => PutArray(fv.ai64)
    case ARR_F32 => PutArray(fv.af32)
    case ARR_F64 => PutArray(fv.af64)
    case ARR_STRING => PutArray(fv.strs)
    case NONE => None
  }

  function PutArray(cells: Option<seq<Cell>>): (r: Option<Slot>) {
    match cells
    case None => None
    case Some(cs) => Some(Array(cs))
  }

  function ApplyField(schema: Schema, doc: Doc, entry: Option<FieldValue>): (r: Option<Doc>) {
    match entry
    case None => Some(doc)
    case Some(fv) =>
      match FindById(schema.fields, fv.id % 0x1_0000)
      case None => None
      case Some(def) =>
        if !FieldValueMatchesSchema(def, fv.vtype) then None
        else match PutSlot(fv)
          case None => Some(doc)
          case Some(slot) => Some(doc[def.id := slot])
  }

  /** `None` is a refused row. */
  function ApplyFields(schema: Schema, doc: Doc, entries: seq<Option<FieldValue>>): (r: Option<Doc>) {
    if entries == [] then Some(doc)
    else match ApplyFields(schema, doc, entries[..|entries| - 1])
      case None => None
      case Some(d) => ApplyField(schema, d, entries[|entries| - 1])
  }

  function ApplyRow(schema: Schema, doc: Doc, row: Row): (r: Option<Doc>) {
    match row.fields
    case None => Some(doc)
    case Some(entries) => ApplyFields(schema, doc, entries)
  }

  method ApplyRowToDoc(schema: Schema, doc: DocRef, row: Row) returns (ok: bool)
    modifies doc
    ensures ok <==> ApplyRow(schema, old(doc.slots), row).Some?
    ensures ok ==> doc.slots == ApplyRow(schema, old(doc.slots), row).value
  {
    if row.fields.None? {
      return true;
    }
    var entries := row.fields.value;
    var i := 0;
    while i < |entries|
      invariant 0 <= i <= |entries|
      invariant ApplyFields(schema, old(doc.slots), entries[..i]) == Some(doc.slots)
    {
      assert entries[..i + 1][..i] == entries[..i];
      var d := ApplyField(schema, doc.slots, entries[i]);
      if d.None? {
        RefusedStaysRefused(schema, old(doc.slots), entries, i + 1);
        return false;
      }
      doc.slots := d.value;
      i := i + 1;
    }
    assert entries[..i] == entries;
    return true;
  }

  lemma {:induction false} RefusedStaysRefused(schema: Schema, doc: Doc, entries: seq<Option<FieldValue>>, i: nat)
    requires i <= |entries| && ApplyFields(schema, doc, entries[..i]).None?
    ensures ApplyFields(schema, doc, entries).None?
  {
    if i == |entries| {
      assert entries[..i] == entries;
    } else {
      assert entries[..|entries| - 1][..i] == entries[..i];
      RefusedStaysRefused(schema, doc, entries[..|entries| - 1], i);
    }
  }

  // ─── What a row means ──────────────────────────────────────────────────────

  /** The value type a field is sent with; arrays of Bool and Bytes have none. */
  function WireType(def: FieldDef): (r: ValueType) {
    BuildFieldValue(map[], def).vtype
  }

  /** The row has a value for an unknown field, or of a type that is not its field's. */
  predicate Misfits(schema: Schema, fv: FieldValue) {
    || (forall i :: 0 <= i < |schema.fields| ==> schema.fields[i].id != fv.id % 0x1_0000)
    || (exists i :: 0 <= i < |schema.fields| && schema.fields[i].id == fv.id % 0x1_0000
          && (Unsupported(schema.fields[i]) || fv.vtype != WireType(schema.fields[i])))
  }

  lemma MatchesIs(def: FieldDef, vt: ValueType)
    ensures FieldValueMatchesSchema(def, vt) <==> !Unsupported(def) && vt == WireType(def)
  {
  }

  lemma FieldRefusedIff(schema: Schema, doc: Doc, fv: FieldValue)
    requires GoodSchema(schema)
    ensures ApplyField(schema, doc, Some(fv)).None? <==> Misfits(schema, fv)
  {
    hide FieldValueMatchesSchema, PutSlot, WireType, Unsupported, GoodSchema;
    var r := FindById(schema.fields, fv.id % 0x1_0000);
    if r.Some? {
      MatchesIs(r.value, fv.vtype);
      var j :| 0 <= j < |schema.fields| && schema.fields[j] == r.value;
      forall i | 0 <= i < |schema.fields| && schema.fields[i].id == fv.id % 0x1_0000 ensures schema.fields[i] == r.value {
        ById(schema, i);
      }
    }
  }

  /** A row is refused exactly if one of its values misfits. */
  lemma {:induction false} RowRefusedIff(schema: Schema, doc: Doc, entries: seq<Option<FieldValue>>)
    requires GoodSchema(schema)
    ensures ApplyRow(schema, doc, Row(Some(entries))).None? <==>
      exists i :: 0 <= i < |entries| && entries[i].Some? && Misfits(schema, entries[i].value)
  {
    hide ApplyField, Misfits, GoodSchema;
    if entries != [] {
      var n := |entries| - 1;
      RowRefusedIff(schema, doc, entries[..n]);
      var r := ApplyFields(schema, doc, entries[..n]);
      assert r == ApplyRow(schema, doc, Row(Some(entries[..n])));
      if r.Some? && entries[n].Some? {
        FieldRefusedIff(schema, r.value, entries[n].value);
      }
      assert entries[..n] + [entries[n]] == entries;
      if r.None? {
        var i :| 0 <= i < n && entries[..n][i].Some? && Misfits(schema, entries[..n][i].value);
        assert entries[i].Some? && Misfits(schema, entries[i].value);
      } else {
        KeepsSome(schema, doc, entries, r.value);
      }
    }
  }

  lemma KeepsSome(schema: Schema, doc: Doc, entries: seq<Option<FieldValue>>, d: Doc)
    requires entries != [] && ApplyFields(schema, doc, entries[..|entries| - 1]) == Some(d)
    ensures entries[|entries| - 1].None? ==> ApplyFields(schema, doc, entries) == Some(d)
  {
  }

  /** The slot holds what the value says; a missing array or text leaves it alone or empties it. */
  predicate Carries(fv: FieldValue, before: Slot, after: Slot) {
    match fv.vtype
    case BOOL => (after == Scalar(CInt(0)) && fv.i32 == 0) || (after == Scalar(CInt(1)) && fv.i32 != 0)
    case I32 => after == Scalar(CInt(fv.i32))
    case I64 => after == Scalar(CInt(fv.i64))
    case F32 => after == Scalar(CReal(fv.f32))
    case F64 => after == Scalar(CReal(fv.f64))
    case STRING => after.Scalar? && after.cell.CStr? && (fv.s == Some(after.cell.s) || (fv.s.None? && after.cell.s == ""))
    case BYTES => after.Scalar? && after.cell.CStr? && (fv.raw == Some(after.cell.s) || (fv.raw.None? && after.cell.s == ""))
    case ARR_I32 => if fv.ai32.Some? then after == Array(fv.ai32.value) else after == before
    case ARR_I64 => if fv.ai64.Some? then after == Array(fv.ai64.value) else after == before
    case ARR_F32 => if fv.af32.Some? then after == Array(fv.af32.value) else after == before
    case ARR_F64 => if fv.af64.Some? then after == Array(fv.af64.value) else after == before
    case ARR_STRING => if fv.strs.Some? then after == Array(fv.strs.value) else after == before
    case NONE => after == before
  }

  predicate IsFor(def: FieldDef, e: Option<FieldValue>) {
    e.Some? && e.value.id % 0x1_0000 == def.id
  }

  /** An accepted value goes into its own field; every other field keeps what it held. */
  lemma ValueMeans(schema: Schema, doc: Doc, e: Option<FieldValue>, def: FieldDef)
    requires GoodSchema(schema) && def in schema.fields && ApplyField(schema, doc, e).Some?
    ensures
      var after := SlotOf(ApplyField(schema, doc, e).value, def);
      if IsFor(def, e) then Carries(e.value, SlotOf(doc, def), after) else after == SlotOf(doc, def)
  {
    hide FieldValueMatchesSchema, GoodSchema;
    if IsFor(def, e) {
      var i :| 0 <= i < |schema.fields| && schema.fields[i] == def;
      ById(schema, i);
    }
  }

  predicate Acts(def: FieldDef, e: Option<FieldValue>, s: Slot, t: Slot) {
    if IsFor(def, e) then Carries(e.value, s, t) else t == s
  }

  /** The values of a field, one after the other: those for it act in order, the others do not touch it. */
  predicate ActInOrder(entries: seq<Option<FieldValue>>, def: FieldDef, slots: seq<Slot>) {
    |slots| == |entries| + 1 && forall i :: 0 <= i < |entries| ==> Acts(def, entries[i], slots[i], slots[i + 1])
  }

  /** What a field holds after an accepted row. */
  lemma {:induction false} RowMeans(schema: Schema, doc: Doc, entries: seq<Option<FieldValue>>, def: FieldDef) returns (slots: seq<Slot>)
    requires GoodSchema(schema) && def in schema.fields && ApplyRow(schema, doc, Row(Some(entries))).Some?
    ensures ActInOrder(entries, def, slots) && slots[0] == SlotOf(doc, def)
    ensures slots[|entries|] == SlotOf(ApplyRow(schema, doc, Row(Some(entries))).value, def)
  {
    hide ApplyField, Acts, GoodSchema, SlotOf;
    if entries == [] {
      slots := [SlotOf(doc, def)];
    } else {
      var n := |entries| - 1;
      var init := RowMeans(schema, doc, entries[..n], def);
      var d := ApplyFields(schema, doc, entries[..n]).value;
      ValueActs(schema, d, entries[n], def);
      slots := init + [SlotOf(ApplyField(schema, d, entries[n]).value, def)];
      forall i | 0 <= i < n ensures Acts(def, entries[i], slots[i], slots[i + 1]) {
        assert entries[..n][i] == entries[i] && slots[i] == init[i] && slots[i + 1] == init[i + 1];
      }
    }
  }

  lemma ValueActs(schema: Schema, doc: Doc, e: Option<FieldValue>, def: FieldDef)
    requires GoodSchema(schema) && def in schema.fields && ApplyField(schema, doc, e).Some?
    ensures Acts(def, e, SlotOf(doc, def), SlotOf(ApplyField(schema, doc, e).value, def))
  {
    hide ApplyField, Carries, GoodSchema, SlotOf;
    ValueMeans(schema, doc, e, def);
  }

  // ─── Building a row ────────────────────────────────────────────────────────

  function IntOf(s: Slot): (r: int) {
    if s.Scalar? && s.cell.CInt? then s.cell.i else 0
  }

  function RealOf(s: Slot): (r: real) {
    if s.Scalar? && s.cell.CReal? then s.cell.r else 0.0
  }

  function StrOf(s: Slot): (r: string) {
    if s.Scalar? && s.cell.CStr? then s.cell.s else ""
  }

  /** An empty array is written as a null offset. */
  function ArrayOf(s: Slot): (r: Option<seq<Cell>>) {
    if s.Array? && s.cells != [] then Some(s.cells) else None
  }

  function BuildFieldValue(doc: Doc, def: FieldDef): (r: FieldValue) {
    var s, id := SlotOf(doc, def), def.id % 0x1_0000;
    if def.isArray then
      match def.ty
      case Int32 => Blank(id, ARR_I32).(ai32 := ArrayOf(s))
      case Int64 => Blank(id, ARR_I64).(ai64 := ArrayOf(s))
      case Float32 => Blank(id, ARR_F32).(af32 := ArrayOf(s))
      case Float64 => Blank(id, ARR_F64).(af64 := ArrayOf(s))
      case String => Blank(id, ARR_STRING).(strs := ArrayOf(s))
      case Bool => Blank(id, NONE)
      case Bytes => Blank(id, NONE)
    else
      match def.ty
      case Bool => Blank(id, BOOL).(i32 := if IntOf(s) != 0 then 1 else 0)
      case Int32 => Blank(id, I32).(i32 := IntOf(s))
      case Int64 => Blank(id, I64).(i64 := IntOf(s))
      case Float32 => Blank(id, F32).(f32 := RealOf(s))
      case Float64 => Blank(id, F64).(f64 := RealOf(s))
      case String => Blank(id, STRING).(s := Some(StrOf(s)))
      case Bytes => Blank(id, BYTES).(raw := Some(StrOf(s)))
  }

  /** A built value carries nothing but the member of its type, and its field's id. */
  lemma NothingElseIsSent(doc: Doc, def: FieldDef)
    ensures
      var fv := BuildFieldValue(doc, def);
      && fv.id == def.id % 0x1_0000
      && (fv.vtype != I32 && fv.vtype != BOOL ==> fv.i32 == 0) && (fv.vtype != I64 ==> fv.i64 == 0)
      && (fv.vtype != F32 ==> fv.f32 == 0.0) && (fv.vtype != F64 ==> fv.f64 == 0.0)
      && (fv.vtype != STRING ==> fv.s.None?) && (fv.vtype != BYTES ==> fv.raw.None?)
      && (fv.vtype != ARR_I32 ==> fv.ai32.None?) && (fv.vtype != ARR_I64 ==> fv.ai64.None?)
      && (fv.vtype != ARR_F32 ==> fv.af32.None?) && (fv.vtype != ARR_F64 ==> fv.af64.None?) && (fv.vtype != ARR_STRING ==> fv.strs.None?)
  {
  }

  function BuildEntries(doc: Doc, fields: seq<FieldDef>): (r: seq<Option<FieldValue>>)
    ensures |r| == |fields| && forall i :: 0 <= i < |fields| ==> r[i] == Some(BuildFieldValue(doc, fields[i]))
  {
    seq(|fields|, i requires 0 <= i < |fields| => Some(BuildFieldValue(doc, fields[i])))
  }

  function BuildRow(schema: Schema, doc: Doc): (r: Row) {
    Row(Some(BuildEntries(doc, schema.fields)))
  }

  // ─── Round trip ────────────────────────────────────────────────────────────

  /** The engine's field ids are 16 bits wide. */
  predicate NarrowIds(schema: Schema) {
    forall i :: 0 <= i < |schema.fields| ==> schema.fields[i].id < 0x1_0000
  }

  predicate CellOk(ty: DataType, c: Cell) {
    match ty
    case Bool => c == CInt(0) || c == CInt(1)
    case Int32 => c.CInt?
    case Int64 => c.CInt?
    case Float32 => c.CReal?
    case Float64 => c.CReal?
    case String => c.CStr?
    case Bytes => c.CStr?
  }

  predicate SlotOk(def: FieldDef, s: Slot) {
    if def.isArray then s.Array? else s.Scalar? && CellOk(def.ty, s.cell)
  }

  predicate TypedDoc(schema: Schema, doc: Doc) {
    Total(schema, doc) && forall i :: 0 <= i < |schema.fields| ==> SlotOk(schema.fields[i], SlotOf(doc, schema.fields[i]))
  }

  /** Field kinds the wire has no value type for. */
  predicate Unsupported(def: FieldDef) {
    def.isArray && (def.ty == Bool || def.ty == Bytes)
  }

  predicate Supported(schema: Schema) {
    forall i :: 0 <= i < |schema.fields| ==> !Unsupported(schema.fields[i])
  }

  /** One field: what is built for it is accepted exactly if its kind is supported, and puts it back. */
  lemma FieldTrip(doc: Doc, def: FieldDef)
    requires SlotOk(def, SlotOf(doc, def)) && def.id < 0x1_0000
    ensures
      var fv := BuildFieldValue(doc, def);
      && fv.id == def.id
      && (FieldValueMatchesSchema(def, fv.vtype) <==> !Unsupported(def))
      && (!Unsupported(def) ==>
            PutSlot(fv) == Some(SlotOf(doc, def)) || (PutSlot(fv) == None && SlotOf(doc, def) == DefaultSlot(def)))
  {
  }

  lemma ById(schema: Schema, i: nat)
    requires GoodSchema(schema) && i < |schema.fields|
    ensures FindById(schema.fields, schema.fields[i].id) == Some(schema.fields[i])
  {
    var r := FindById(schema.fields, schema.fields[i].id);
    assert r.Some?;
    var j :| 0 <= j < |schema.fields| && schema.fields[j] == r.value;
  }

  /** After the first `i` entries: those fields are as in `doc`, the others still at their defaults. */
  predicate Written(schema: Schema, doc: Doc, d: Doc, i: nat) {
    && Total(schema, d)
    && forall k :: 0 <= k < |schema.fields| ==>
         SlotOf(d, schema.fields[k]) == if k < i then SlotOf(doc, schema.fields[k]) else DefaultSlot(schema.fields[k])
  }

  lemma PutTotal(schema: Schema, d: Doc, i: nat, slot: Slot)
    requires Total(schema, d) && i < |schema.fields|
    ensures Total(schema, d[schema.fields[i].id := slot])
  {
  }

  /** Putting field `i`, or leaving it at a default it should have. */
  lemma WriteSlot(schema: Schema, doc: Doc, d: Doc, i: nat)
    requires GoodSchema(schema) && i < |schema.fields| && Written(schema, doc, d, i)
    ensures
      var def := schema.fields[i];
      && Written(schema, doc, d[def.id := SlotOf(doc, def)], i + 1)
      && (SlotOf(doc, def) == DefaultSlot(def) ==> Written(schema, doc, d, i + 1))
  {
    hide DefaultSlot, Total;
    var def := schema.fields[i];
    var d' := d[def.id := SlotOf(doc, def)];
    PutTotal(schema, d, i, SlotOf(doc, def));
    forall k | 0 <= k < |schema.fields|
      ensures SlotOf(d', schema.fields[k]) == if k < i + 1 then SlotOf(doc, schema.fields[k]) else DefaultSlot(schema.fields[k])
    {
      assert k != i ==> schema.fields[k].id != def.id;
    }
  }

  lemma WriteNext(schema: Schema, doc: Doc, d: Doc, i: nat)
    requires GoodSchema(schema) && NarrowIds(schema) && TypedDoc(schema, doc) && i < |schema.fields| && Written(schema, doc, d, i)
    ensures
      var e := Some(BuildFieldValue(doc, schema.fields[i]));
      && (ApplyField(schema, d, e).Some? <==> !Unsupported(schema.fields[i]))
      && (ApplyField(schema, d, e).Some? ==> Written(schema, doc, ApplyField(schema, d, e).value, i + 1))
  {
    hide BuildFieldValue, FieldValueMatchesSchema, PutSlot, DefaultSlot, SlotOk, Unsupported, Written, GoodSchema, SlotOf, Total;
    ById(schema, i);
    FieldTrip(doc, schema.fields[i]);
    WriteSlot(schema, doc, d, i);
  }

  lemma {:induction false} WritePrefix(schema: Schema, doc: Doc, i: nat)
    requires GoodSchema(schema) && NarrowIds(schema) && TypedDoc(schema, doc) && i <= |schema.fields|
    ensures
      var r := ApplyFields(schema, NewDoc(schema), BuildEntries(doc, schema.fields)[..i]);
      && (r.Some? <==> forall k :: 0 <= k < i ==> !Unsupported(schema.fields[k]))
      && (r.Some? ==> Written(schema, doc, r.value, i))
  {
    hide ApplyField, BuildFieldValue, GoodSchema, NarrowIds, TypedDoc, Unsupported, NewDoc;
    var es := BuildEntries(doc, schema.fields);
    if i == 0 {
      NewDocDefault(schema);
      assert es[..0] == [];
      FreshIsWritten(schema, doc);
    } else {
      WritePrefix(schema, doc, i - 1);
      assert es[..i][..i - 1] == es[..i - 1];
      var r := ApplyFields(schema, NewDoc(schema), es[..i - 1]);
      if r.Some? {
        WriteNext(schema, doc, r.value, i - 1);
      }
    }
  }

  lemma FreshIsWritten(schema: Schema, doc: Doc)
    requires GoodSchema(schema)
    ensures Written(schema, doc, NewDoc(schema), 0)
  {
    NewDocDefault(schema);
  }

  /**
   Reading back a built row: it is accepted exactly when the schema has no arrays
   of Bool or Bytes, and then it gives the document back.
   */
  lemma RowRoundTrip(schema: Schema, doc: Doc)
    requires GoodSchema(schema) && NarrowIds(schema) && TypedDoc(schema, doc)
    ensures ApplyRow(schema, NewDoc(schema), BuildRow(schema, doc)).Some? <==> Supported(schema)
    ensures Supported(schema) ==> ApplyRow(schema, NewDoc(schema), BuildRow(schema, doc)) == Some(doc)
  {
    hide ApplyFields, GoodSchema, NarrowIds, Unsupported, NewDoc, SlotOk, SlotOf;
    var es := BuildEntries(doc, schema.fields);
    WritePrefix(schema, doc, |schema.fields|);
    assert es[..|schema.fields|] == es;
    var r := ApplyFields(schema, NewDoc(schema), es);
    if r.Some? {
      forall def | def in schema.fields ensures SlotOf(r.value, def) == SlotOf(doc, def) {
        var k :| 0 <= k < |schema.fields| && schema.fields[k] == def;
      }
      SameSlots(schema, r.value, doc);
    }
  }

  // ─── Handlers ──────────────────────────────────────────────────────────────

  /** The handlers' own key extraction: an empty key refuses the row. */
  function PkOfDoc(schema: Schema, doc: Doc): (r: string) {
    match FindField(schema, schema.pk)
    case None => ""
    case Some(def) =>
      if def.ty.Bool? || def.ty.Int32? || def.ty.Int64? || def.ty.String? then
        match SlotOf(doc, def)
        case Scalar(c) => KeyOfCell(c)
        case Array(_) => ""
      else ""
  }

  /** A document has a key exactly if its pk is a Bool, an integer or a non-empty string; then the key is its numeral or text. */
  lemma KeyOfDocIs(schema: Schema, doc: Doc, def: FieldDef)
    requires GoodSchema(schema) && TypedDoc(schema, doc) && def in schema.fields && def.name == schema.pk
    ensures PkOfDoc(schema, doc) != "" <==>
      !def.isArray && (def.ty == Bool || def.ty == Int32 || def.ty == Int64 || (def.ty == String && SlotOf(doc, def) != Scalar(CStr(""))))
    ensures PkOfDoc(schema, doc) != "" ==>
      match SlotOf(doc, def).cell
      case CInt(i) => Meaning.Numeral(PkOfDoc(schema, doc), i)
      case CStr(s) => PkOfDoc(schema, doc) == s
      case CReal(_) => false
  {
    hide Decimal, GoodSchema, Meaning.Numeral;
    FieldUnique(schema, def);
    var i :| 0 <= i < |schema.fields| && schema.fields[i] == def;
    assert SlotOk(def, SlotOf(doc, def));
    if !def.isArray && SlotOf(doc, def).cell.CInt? {
      Meaning.DecimalIsNumeral(SlotOf(doc, def).cell.i);
      NumeralNotEmpty(SlotOf(doc, def).cell.i);
    }
  }

  lemma NumeralNotEmpty(i: int)
    ensures Decimal(i) != ""
  {
  }

  lemma NoPkNoKey(schema: Schema, doc: Doc)
    requires forall i :: 0 <= i < |schema.fields| ==> schema.fields[i].name != schema.pk
    ensures PkOfDoc(schema, doc) == ""
  {
  }

  /** A row that is not refused for its key is stored under that key. */
  lemma PkIsStoredKey(schema: Schema, doc: Doc)
    requires PkOfDoc(schema, doc) != ""
    ensures StoredKey(schema, doc) == PkOfDoc(schema, doc)
  {
  }

  /** What a row of a batch becomes; `None` refuses it. */
  function Stage(schema: Schema, row: Option<Row>): (r: Option<Doc>) {
    match row
    case None => None
    case Some(x) =>
      match ApplyRow(schema, NewDoc(schema), x)
      case None => None
      case Some(doc) => if PkOfDoc(schema, doc) == "" then None else Some(doc)
  }

  lemma StagedHasKey(schema: Schema, row: Option<Row>)
    requires Stage(schema, row).Some?
    ensures PkOfDoc(schema, Stage(schema, row).value) != ""
  {
  }

  // ─── Whatever is staged is typed ───────────────────────────────────────────

  lemma NewDocTyped(schema: Schema)
    requires GoodSchema(schema)
    ensures TypedDoc(schema, NewDoc(schema))
  {
    hide NewDoc;
    NewDocDefault(schema);
  }

  /** A value of the field's type puts a slot of the field's kind. */
  lemma PutSlotOk(def: FieldDef, fv: FieldValue)
    requires FieldValueMatchesSchema(def, fv.vtype) && PutSlot(fv).Some?
    ensures SlotOk(def, PutSlot(fv).value)
  {
  }

  lemma FieldTyped(schema: Schema, doc: Doc, entry: Option<FieldValue>)
    requires GoodSchema(schema) && TypedDoc(schema, doc) && ApplyField(schema, doc, entry).Some?
    ensures TypedDoc(schema, ApplyField(schema, doc, entry).value)
  {
    hide FieldValueMatchesSchema, PutSlot, SlotOk;
    if entry.Some? && PutSlot(entry.value).Some? {
      var def := FindById(schema.fields, entry.value.id % 0x1_0000).value;
      PutSlotOk(def, entry.value);
      var i :| 0 <= i < |schema.fields| && schema.fields[i] == def;
      PutTotal(schema, doc, i, PutSlot(entry.value).value);
    }
  }

  lemma {:induction false} FieldsTyped(schema: Schema, doc: Doc, entries: seq<Option<FieldValue>>)
    requires GoodSchema(schema) && TypedDoc(schema, doc) && ApplyFields(schema, doc, entries).Some?
    ensures TypedDoc(schema, ApplyFields(schema, doc, entries).value)
  {
    hide ApplyField, GoodSchema, TypedDoc;
    if entries != [] {
      FieldsTyped(schema, doc, entries[..|entries| - 1]);
      FieldTyped(schema, ApplyFields(schema, doc, entries[..|entries| - 1]).value, entries[|entries| - 1]);
    }
  }

  /** Every document a row makes is typed: what RowRoundTrip asks of a document, every stored row has. */
  lemma StagedIsTyped(schema: Schema, row: Option<Row>)
    requires GoodSchema(schema) && Stage(schema, row).Some?
    ensures TypedDoc(schema, Stage(schema, row).value)
  {
    hide GoodSchema, TypedDoc, ApplyFields, NewDoc, PkOfDoc;
    NewDocTyped(schema);
    if row.value.fields.Some? {
      FieldsTyped(schema, NewDoc(schema), row.value.fields.value);
    }
  }

  predicate AllStaged(schema: Schema, rows: seq<Option<Row>>) {
    forall i :: 0 <= i < |rows| ==> Stage(schema, rows[i]).Some?
  }

  function Docs(schema: Schema, rows: seq<Option<Row>>): (r: seq<Doc>)
    requires AllStaged(schema, rows)
    ensures |r| == |rows|
  {
    seq(|rows|, i requires 0 <= i < |rows| => Stage(schema, rows[i]).value)
  }

  /** `BatchUpsert`: the documents one after the other. */
  function BatchUpsert(schema: Schema, idx: Index, docs: seq<Doc>): (r: Index) {
    if docs == [] then idx else Store(schema, BatchUpsert(schema, idx, docs[..|docs| - 1]), docs[|docs| - 1])
  }

  /** All rows or none: nothing is stored unless every row of a non-empty batch can be. */
  method HandlePutBatch(schema: Schema, idx: KVIndex, rows: Option<seq<Option<Row>>>) returns (ok: bool)
    modifies idx
    ensures ok <==> rows.Some? && rows.value != [] && AllStaged(schema, rows.value)
    ensures !ok ==> idx.rows == old(idx.rows)
    ensures ok ==> idx.rows == BatchUpsert(schema, old(idx.rows), Docs(schema, rows.value))
  {
    hide ApplyRow, PkOfDoc, NewDoc;
    if rows.None? || rows.value == [] {
      return false;
    }
    var staged: seq<Doc> := [];
    var i := 0;
    while i < |rows.value|
      invariant 0 <= i <= |rows.value| && |staged| == i
      invariant forall k :: 0 <= k < i ==> Stage(schema, rows.value[k]) == Some(staged[k])
      invariant idx.rows == old(idx.rows)
    {
      var row := rows.value[i];
      if row.None? {
        return false;
      }
      var doc := new DocRef(NewDoc(schema));
      var applied := ApplyRowToDoc(schema, doc, row.value);
      if !applied || PkOfDoc(schema, doc.slots) == "" {
        return false;
      }
      staged := staged + [doc.slots];
      i := i + 1;
    }
    assert staged == Docs(schema, rows.value);
    idx.rows := BatchUpsert(schema, idx.rows, staged);
    return true;
  }

  /** The last document of a batch with a key is what the key holds afterwards. */
  lemma {:induction false} LastOfBatchWins(schema: Schema, idx: Index, docs: seq<Doc>, i: nat)
    requires i < |docs| && forall j :: i < j < |docs| ==> StoredKey(schema, docs[j]) != StoredKey(schema, docs[i])
    ensures StreamLaws.Row(BatchUpsert(schema, idx, docs), StoredKey(schema, docs[i])) == Some(docs[i])
  {
    hide StoredKey;
    if i < |docs| - 1 {
      var init := docs[..|docs| - 1];
      forall j | i < j < |init| ensures StoredKey(schema, init[j]) != StoredKey(schema, init[i]) {
        assert init[j] == docs[j] && init[i] == docs[i];
      }
      LastOfBatchWins(schema, idx, init, i);
    }
  }

  /** A batch touches no key but those of its documents. */
  lemma {:induction false} BatchTouchesOnly(schema: Schema, idx: Index, docs: seq<Doc>, key: string)
    requires forall j :: 0 <= j < |docs| ==> StoredKey(schema, docs[j]) != key
    ensures StreamLaws.Row(BatchUpsert(schema, idx, docs), key) == StreamLaws.Row(idx, key)
  {
    hide StoredKey;
    if docs != [] {
      BatchTouchesOnly(schema, idx, docs[..|docs| - 1], key);
    }
  }

  /** `HandleGet`: the row, or not found. */
  function HandleGet(schema: Schema, idx: Index, pk: string): (r: Option<Row>) {
    if pk in idx then Some(BuildRow(schema, idx[pk])) else None
  }

  /** The row of a batch answer for one key. */
  function RowFor(schema: Schema, idx: Index, pk: Option<string>): (r: Row) {
    match pk
    case None => Row(None)
    case Some(k) =>
      match HandleGet(schema, idx, k)
      case None => Row(None)
      case Some(row) => row
  }

  /** One row per key, in the order of the keys, each the one a single Get answers. */
  method HandleBatchGet(schema: Schema, idx: KVIndex, pks: seq<Option<string>>) returns (rows: seq<Row>)
    ensures |rows| == |pks|
    ensures forall i :: 0 <= i < |pks| ==> rows[i] == RowFor(schema, idx.rows, pks[i])
  {
    hide BuildRow;
    rows := [];
    for i := 0 to |pks|
      invariant |rows| == i
      invariant forall k :: 0 <= k < i ==> rows[k] == RowFor(schema, idx.rows, pks[k])
    {
      if pks[i].None? {
        rows := rows + [Row(None)];
      } else if pks[i].value !in idx.rows {
        rows := rows + [Row(None)];
      } else {
        rows := rows + [BuildRow(schema, idx.rows[pks[i].value])];
      }
    }
  }

  /**
   What a batch put stores is what a get answers: for a supported schema, the row
   found under the key of an accepted row decodes to the document that row made,
   unless a later row of the batch has the same key.
   */
  lemma PutThenGet(schema: Schema, idx: Index, rows: seq<Option<Row>>, i: nat)
    requires GoodSchema(schema) && NarrowIds(schema) && Supported(schema) && AllStaged(schema, rows) && i < |rows|
    requires forall j :: i < j < |rows| ==> PkOfDoc(schema, Stage(schema, rows[j]).value) != PkOfDoc(schema, Stage(schema, rows[i]).value)
    ensures
      var doc, idx' := Stage(schema, rows[i]).value, BatchUpsert(schema, idx, Docs(schema, rows));
      var got := HandleGet(schema, idx', PkOfDoc(schema, doc));
      got.Some? && ApplyRow(schema, NewDoc(schema), got.value) == Some(doc)
  {
    hide StoredKey, ApplyRow, Stage, GoodSchema, NarrowIds, Supported, TypedDoc, BatchUpsert, BuildRow, NewDoc, PkOfDoc;
    var docs := Docs(schema, rows);
    forall j | 0 <= j < |docs| ensures docs[j] == Stage(schema, rows[j]).value && StoredKey(schema, docs[j]) == PkOfDoc(schema, docs[j]) {
      StagedHasKey(schema, rows[j]);
      PkIsStoredKey(schema, docs[j]);
    }
    LastOfBatchWins(schema, idx, docs, i);
    StagedIsTyped(schema, rows[i]);
    RowRoundTrip(schema, docs[i]);
  }
}
