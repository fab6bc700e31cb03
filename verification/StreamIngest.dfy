/**
 Applying one JSON change message to an index.  `KVIndex` is a map from primary
 key strings to documents, a document a slot per schema field.  An exception
 thrown by a JSON conversion is the outcome `Thrown`, a logged refusal
 `Rejected`.
 */
module StreamIngest {
  import opened Wrappers

  // ─── JSON, schemas, documents ──────────────────────────────────────────────

  datatype Json =
    | JNull
    | JBool(b: bool)
    | JInt(i: int)
    | JFloat(r: real)
    | JString(s: string)
    | JArray(items: seq<Json>)
    | JObject(members: Object)

  /** Members in iteration order. */
  type Object = seq<(string, Json)>

  predicate UniqueKeys(obj: Object) {
    forall i, j :: 0 <= i < j < |obj| ==> obj[i].0 != obj[j].0
  }

  datatype DataType = Bool | Int32 | Int64 | Float32 | Float64 | String | Bytes

  datatype FieldDef = FieldDef(name: string, id: nat, ty: DataType, isArray: bool)

  datatype Schema = Schema(fields: seq<FieldDef>, pk: string)

  predicate GoodSchema(schema: Schema) {
    forall i, j :: 0 <= i < j < |schema.fields| ==>
      schema.fields[i].name != schema.fields[j].name && schema.fields[i].id != schema.fields[j].id
  }

  function FindIn(fields: seq<FieldDef>, name: string): (r: Option<FieldDef>)
    ensures r.Some? ==> r.value in fields && r.value.name == name
    ensures r.None? ==> forall i :: 0 <= i < |fields| ==> fields[i].name != name
  {
    if fields == [] then None
    else if fields[0].name == name then Some(fields[0])
    else FindIn(fields[1..], name)
  }

  function FindField(schema: Schema, name: string): (r: Option<FieldDef>)
    ensures r.Some? ==> r.value in schema.fields && r.value.name == name
  {
    FindIn(schema.fields, name)
  }

  datatype Cell = CInt(i: int) | CReal(r: real) | CStr(s: string)

  datatype Slot = Scalar(cell: Cell) | Array(cells: seq<Cell>)

  type Doc = map<nat, Slot>

  function DefaultCell(ty: DataType): (r: Cell) {
    match ty
    case Bool => CInt(0)
    case Int32 => CInt(0)
    case Int64 => CInt(0)
    case Float32 => CReal(0.0)
    case Float64 => CReal(0.0)
    case String => CStr("")
    case Bytes => CStr("")
  }

  function DefaultSlot(def: FieldDef): (r: Slot) {
    if def.isArray then Array([]) else Scalar(DefaultCell(def.ty))
  }

  function SlotOf(doc: Doc, def: FieldDef): (r: Slot) {
    if def.id in doc then doc[def.id] else DefaultSlot(def)
  }

  function Defaults(fields: seq<FieldDef>): (r: Doc) {
    if fields == [] then map[]
    else Defaults(fields[..|fields| - 1])[fields[|fields| - 1].id := DefaultSlot(fields[|fields| - 1])]
  }

  /** `KVIndex::NewDoc`: every field at its default. */
  function NewDoc(schema: Schema): (r: Doc) {
    Defaults(schema.fields)
  }

  // ─── Conversions ───────────────────────────────────────────────────────────

  /** A conversion to a signed machine integer: the value in range that differs by a multiple of `2^bits`. */
  function Wrap(i: int, bits: nat): (r: int)
    requires bits == 32 || bits == 64
    ensures bits == 32 ==> -0x8000_0000 <= r < 0x8000_0000 && (i - r) % 0x1_0000_0000 == 0
    ensures bits == 64 ==> -0x8000_0000_0000_0000 <= r < 0x8000_0000_0000_0000 && (i - r) % 0x1_0000_0000_0000_0000 == 0
  {
    var half := if bits == 32 then 0x8000_0000 else 0x8000_0000_0000_0000;
    (i + half) % (2 * half) - half
  }

  function Trunc(r: real): (i: int) {
    if r >= 0.0 then r.Floor else -((-r).Floor)
  }

  /** `get<T>()`; `None` is a thrown type error. */
  function Convert(ty: DataType, j: Json): (r: Option<Cell>) {
    match (ty, j)
    case (Bool, JBool(b)) => Some(CInt(if b then 1 else 0))
    case (Int32, JInt(i)) => Some(CInt(Wrap(i, 32)))
    case (Int32, JFloat(x)) => Some(CInt(Wrap(Trunc(x), 32)))
    case (Int32, JBool(b)) => Some(CInt(if b then 1 else 0))
    case (Int64, JInt(i)) => Some(CInt(Wrap(i, 64)))
    case (Int64, JFloat(x)) => Some(CInt(Wrap(Trunc(x), 64)))
    case (Float32, JInt(i)) => Some(CReal(i as real))
    case (Float32, JFloat(x)) => Some(CReal(x))
    case (Float32, JBool(b)) => Some(CReal(if b then 1.0 else 0.0))
    case (Float64, JInt(i)) => Some(CReal(i as real))
    case (Float64, JFloat(x)) => Some(CReal(x))
    case (String, JString(s)) => Some(CStr(s))
    case (Bytes, JString(s)) => Some(CStr(s))
    case _ => None
  }

  function ConvertAll(ty: DataType, js: seq<Json>): (r: Option<seq<Cell>>) {
    if js == [] then Some([])
    else
      match ConvertAll(ty, js[..|js| - 1])
      case None => None
      case Some(cells) =>
        match Convert(ty, js[|js| - 1])
        case None => None
        case Some(c) => Some(cells + [c])
  }

  // ─── Merging ───────────────────────────────────────────────────────────────

  datatype Outcome<T> = Ok(value: T) | Rejected | Thrown

  /** What a field's value asks for, whatever the field holds. */
  datatype Change = Keep | Overwrite(cell: Cell) | Append(cells: seq<Cell>)

  function ChangeOf(def: FieldDef, val: Json): (r: Outcome<Change>) {
    if val == JNull then Ok(Keep)
    else if def.isArray then
      if !val.JArray? || def.ty == Bool then Rejected
      else match ConvertAll(def.ty, val.items)
        case None => Thrown
        case Some(cells) => Ok(Append(cells))
    else match Convert(def.ty, val)
      case None => Thrown
      case Some(c) => Ok(Overwrite(c))
  }

  function Changed(slot: Slot, c: Change): (r: Slot) {
    match c
    case Keep => slot
    case Overwrite(cell) => Scalar(cell)
    case Append(cells) => Array((if slot.Array? then slot.cells else []) + cells)
  }

  /** The schema field a message member addresses, if any. */
  function Target(schema: Schema, key: string): (r: Option<FieldDef>)
    ensures r.Some? ==> r.value in schema.fields && r.value.name == key
  {
    if key == "_op" || key == "_ts" then None else FindField(schema, key)
  }

  function MergeMember(schema: Schema, doc: Doc, key: string, val: Json): (r: Outcome<Doc>) {
    match Target(schema, key)
    case None => Ok(doc)
    case Some(def) =>
      match ChangeOf(def, val)
      case Ok(c) => Ok(doc[def.id := Changed(SlotOf(doc, def), c)])
      case Rejected => Rejected
      case Thrown => Thrown
  }

  function MergeJson(schema: Schema, doc: Doc, obj: Object): (r: Outcome<Doc>) {
    if obj == [] then Ok(doc)
    else
      match MergeJson(schema, doc, obj[..|obj| - 1])
      case Ok(d) => MergeMember(schema, d, obj[|obj| - 1].0, obj[|obj| - 1].1)
      case Rejected => Rejected
      case Thrown => Thrown
  }

  // ─── Primary keys ──────────────────────────────────────────────────────────

  function Digits(n: nat): (r: string)
    ensures |r| >= 1 && forall i :: 0 <= i < |r| ==> '0' <= r[i] <= '9'
  {
    if n < 10 then ['0' + n as char] else Digits(n / 10) + ['0' + (n % 10) as char]
  }

  /** `std::to_string`. */
  function Decimal(i: int): (r: string) {
    if i < 0 then "-" + Digits(-i) else Digits(i)
  }

  function KeyOfCell(c: Cell): (r: string) {
    match c
    case CInt(i) => Decimal(i)
    case CReal(_) => ""
    case CStr(s) => s
  }

  function Lookup(obj: Object, key: string): (r: Option<Json>)
    ensures r.Some? ==> exists i :: 0 <= i < |obj| && obj[i] == (key, r.value)
    ensures r.None? ==> forall i :: 0 <= i < |obj| ==> obj[i].0 != key
  {
    if obj == [] then None
    else if obj[|obj| - 1].0 == key then Some(obj[|obj| - 1].1)
    else Lookup(obj[..|obj| - 1], key)
  }

  predicate KeyType(ty: DataType) {
    ty.Int32? || ty.Int64? || ty.String? || ty.Bytes?
  }

  function ExtractPk(schema: Schema, obj: Object): (r: Outcome<string>) {
    match FindField(schema, schema.pk)
    case None => Rejected
    case Some(def) =>
      match Lookup(obj, def.name)
      case None => Rejected
      case Some(JNull) => Rejected
      case Some(val) =>
        if !KeyType(def.ty) then Rejected
        else match Convert(def.ty, val)
          case None => Thrown
          case Some(c) => Ok(KeyOfCell(c))
  }

  /** The key under which the engine stores a document: its own pk field. */
  function StoredKey(schema: Schema, doc: Doc): (r: string) {
    match FindField(schema, schema.pk)
    case None => ""
    case Some(def) =>
      match SlotOf(doc, def)
      case Scalar(c) => KeyOfCell(c)
      case Array(_) => ""
  }

  // ─── The three operations ──────────────────────────────────────────────────

  type Index = map<string, Doc>

  datatype Op = Insert | Upsert | Delete | Unknown

  function Lower(c: char): (r: char) {
    if 'A' <= c <= 'Z' then c + 32 as char else c
  }

  function LowerAll(s: string): (r: string)
    ensures |r| == |s|
  {
    seq(|s|, i requires 0 <= i < |s| => Lower(s[i]))
  }

  function OpOf(obj: Object): (r: Op) {
    match Lookup(obj, "_op")
    case Some(JString(s)) =>
      var op := LowerAll(s);
      if op == "delete" then Delete
      else if op == "insert" then Insert
      else if op == "upsert" || op == "" then Upsert
      else Unknown
    case _ => Upsert
  }

  function Store(schema: Schema, idx: Index, doc: Doc): (r: Index) {
    idx[StoredKey(schema, doc) := doc]
  }

  /** The copy of an existing row that an upsert starts from: arrays of Bool are not copied. */
  function CopySlot(def: FieldDef, src: Doc): (r: Slot) {
    if def.isArray && def.ty == Bool then Array([]) else SlotOf(src, def)
  }

  function CopyFields(fields: seq<FieldDef>, src: Doc, dst: Doc): (r: Doc) {
    if fields == [] then dst
    else
      var last := fields[|fields| - 1];
      CopyFields(fields[..|fields| - 1], src, dst)[last.id := CopySlot(last, src)]
  }

  function ApplyInsert(schema: Schema, idx: Index, obj: Object): (r: Outcome<Index>) {
    match ExtractPk(schema, obj)
    case Rejected => Rejected
    case Thrown => Thrown
    case Ok(pk) =>
      if pk in idx then Rejected
      else match MergeJson(schema, NewDoc(schema), obj)
        case Rejected => Rejected
        case Thrown => Thrown
        case Ok(doc) => Ok(Store(schema, idx, doc))
  }

  function UpsertBase(schema: Schema, idx: Index, pk: string): (r: Doc) {
    if pk in idx then CopyFields(schema.fields, idx[pk], NewDoc(schema)) else NewDoc(schema)
  }

  function ApplyUpsert(schema: Schema, idx: Index, obj: Object): (r: Outcome<Index>) {
    match ExtractPk(schema, obj)
    case Rejected => Rejected
    case Thrown => Thrown
    case Ok(pk) =>
      match MergeJson(schema, UpsertBase(schema, idx, pk), obj)
      case Rejected => Rejected
      case Thrown => Thrown
      case Ok(doc) => Ok(Store(schema, idx, doc))
  }

  function ApplyDelete(schema: Schema, idx: Index, obj: Object): (r: Outcome<Index>) {
    match ExtractPk(schema, obj)
    case Rejected => Rejected
    case Thrown => Thrown
    case Ok(pk) => Ok(idx - {pk})
  }

  function ApplyObject(schema: Schema, idx: Index, obj: Object): (r: Outcome<Index>) {
    match OpOf(obj)
    case Delete => ApplyDelete(schema, idx, obj)
    case Insert => ApplyInsert(schema, idx, obj)
    case Upsert => ApplyUpsert(schema, idx, obj)
    case Unknown => Rejected
  }

  // ─── The same, step by step ────────────────────────────────────────────────

  /** A document while it is being written. */
  class DocRef {
    var slots: Doc

    constructor (slots: Doc)
      ensures this.slots == slots
    {
      this.slots := slots;
    }
  }

  /** `CopyDocFromSchema`: a non-empty array or a scalar is put, field by field. */
  method CopyDocFromSchema(schema: Schema, src: Doc, dst: DocRef)
    modifies dst
    requires forall i :: 0 <= i < |schema.fields| ==> SlotOf(dst.slots, schema.fields[i]) == DefaultSlot(schema.fields[i])
    requires GoodSchema(schema) && WellShaped(schema, src) && Total(schema, dst.slots)
    ensures dst.slots == CopyFields(schema.fields, src, old(dst.slots))
  {
    hide Total, ShapedSlot, GoodSchema, DefaultCell;
    var i := 0;
    while i < |schema.fields|
      invariant 0 <= i <= |schema.fields|
      invariant dst.slots == CopyFields(schema.fields[..i], src, old(dst.slots))
    {
      var def := schema.fields[i];
      CopyKeeps(schema, src, old(dst.slots), i);
      ShapeOf(def, SlotOf(src, def));
      assert schema.fields[..i + 1][..i] == schema.fields[..i];
      if def.isArray {
        var s := SlotOf(src, def);
        if def.ty != Bool && s.Array? && |s.cells| > 0 {
          dst.slots := dst.slots[def.id := s];
        }
      } else {
        dst.slots := dst.slots[def.id := SlotOf(src, def)];
      }
      i := i + 1;
    }
    assert schema.fields[..i] == schema.fields;
  }

  /** `MergeJsonIntoDoc`; the document is only meaningful afterwards when nothing went wrong. */
  method MergeJsonIntoDoc(schema: Schema, doc: DocRef, obj: Object) returns (r: Outcome<()>)
    modifies doc
    ensures match MergeJson(schema, old(doc.slots), obj)
      case Ok(d) => r == Ok(()) && doc.slots == d
      case Rejected => r == Rejected
      case Thrown => r == Thrown
  {
    var i := 0;
    while i < |obj|
      invariant 0 <= i <= |obj|
      invariant MergeJson(schema, old(doc.slots), obj[..i]) == Ok(doc.slots)
    {
      var (key, val) := obj[i];
      assert obj[..i + 1][..i] == obj[..i];
      match MergeMember(schema, doc.slots, key, val) {
        case Ok(d) =>
          doc.slots := d;
        case Rejected =>
          MergeStops(schema, old(doc.slots), obj, i + 1);
          return Rejected;
        case Thrown =>
          MergeStops(schema, old(doc.slots), obj, i + 1);
          return Thrown;
      }
      i := i + 1;
    }
    assert obj[..i] == obj;
    return Ok(());
  }

  lemma {:induction false} MergeStops(schema: Schema, doc: Doc, obj: Object, i: nat)
    requires i <= |obj| && !MergeJson(schema, doc, obj[..i]).Ok?
    ensures MergeJson(schema, doc, obj) == MergeJson(schema, doc, obj[..i])
  {
    if i == |obj| {
      assert obj[..i] == obj;
    } else {
      assert obj[..|obj| - 1][..i] == obj[..i];
      MergeStops(schema, doc, obj[..|obj| - 1], i);
    }
  }

  class KVIndex {
    var rows: Index

    constructor ()
      ensures rows == map[]
    {
      rows := map[];
    }

    method Insert(schema: Schema, obj: Object) returns (r: Outcome<()>)
      modifies this
      ensures Becomes(ApplyInsert(schema, old(rows), obj), old(rows), r, rows)
    {
      var pk := ExtractPk(schema, obj);
      match pk {
        case Rejected => return Rejected;
        case Thrown => return Thrown;
        case Ok(_) =>
      }
      if pk.value in rows {
        return Rejected;
      }
      var doc := new DocRef(NewDoc(schema));
      r := MergeJsonIntoDoc(schema, doc, obj);
      if r.Ok? {
        rows := Store(schema, rows, doc.slots);
      }
    }

    method UpsertMerge(schema: Schema, obj: Object) returns (r: Outcome<()>)
      requires GoodSchema(schema) && forall k :: k in rows ==> WellShaped(schema, rows[k])
      modifies this
      ensures Becomes(ApplyUpsert(schema, old(rows), obj), old(rows), r, rows)
    {
      hide ExtractPk, MergeJson, CopyFields, Store, ShapedSlot, SlotOf, NewDoc;
      var pk := ExtractPk(schema, obj);
      match pk {
        case Rejected => return Rejected;
        case Thrown => return Thrown;
        case Ok(_) =>
      }
      var doc := new DocRef(NewDoc(schema));
      if pk.value in rows {
        NewDocDefault(schema);
        CopyDocFromSchema(schema, rows[pk.value], doc);
      }
      r := MergeJsonIntoDoc(schema, doc, obj);
      if r.Ok? {
        rows := Store(schema, rows, doc.slots);
      }
    }

    method Delete(schema: Schema, obj: Object) returns (r: Outcome<()>)
      modifies this
      ensures Becomes(ApplyDelete(schema, old(rows), obj), old(rows), r, rows)
    {
      match ExtractPk(schema, obj) {
        case Rejected => return Rejected;
        case Thrown => return Thrown;
        case Ok(pk) =>
          rows := rows - {pk};
          return Ok(());
      }
    }

    method ApplyStreamJsonObject(schema: Schema, obj: Object) returns (r: Outcome<()>)
      requires GoodSchema(schema) && forall k :: k in rows ==> WellShaped(schema, rows[k])
      modifies this
      ensures Becomes(ApplyObject(schema, old(rows), obj), old(rows), r, rows)
    {
      match OpOf(obj) {
        case Delete => r := Delete(schema, obj);
        case Insert => r := Insert(schema, obj);
        case Upsert => r := UpsertMerge(schema, obj);
        case Unknown => r := Rejected;
      }
    }
  }

  /** The index changes only when the operation succeeds. */
  predicate Becomes(spec: Outcome<Index>, before: Index, r: Outcome<()>, after: Index) {
    match spec
    case Ok(idx) => r == Ok(()) && after == idx
    case Rejected => r == Rejected && after == before
    case Thrown => r == Thrown && after == before
  }

  // ─── Shapes ────────────────────────────────────────────────────────────────

  predicate Total(schema: Schema, doc: Doc) {
    && (forall i :: 0 <= i < |schema.fields| ==> schema.fields[i].id in doc)
    && (forall id :: id in doc ==> exists i :: 0 <= i < |schema.fields| && schema.fields[i].id == id)
  }

  /** Arrays in array fields, scalars elsewhere; no elements in arrays of Bool. */
  predicate ShapedSlot(def: FieldDef, s: Slot) {
    if def.isArray then s.Array? && (def.ty == Bool ==> s.cells == []) else s.Scalar?
  }

  predicate WellShaped(schema: Schema, doc: Doc) {
    Total(schema, doc) && forall i :: 0 <= i < |schema.fields| ==> ShapedSlot(schema.fields[i], SlotOf(doc, schema.fields[i]))
  }

  lemma ShapeOf(def: FieldDef, s: Slot)
    requires ShapedSlot(def, s)
    ensures def.isArray ==> s.Array? && (def.ty == Bool ==> s.cells == [])
  {
  }

  lemma {:induction false} CopyAt(fields: seq<FieldDef>, src: Doc, dst: Doc, id: nat)
    ensures id in CopyFields(fields, src, dst) <==> id in dst || exists i :: 0 <= i < |fields| && fields[i].id == id
    ensures (forall i :: 0 <= i < |fields| ==> fields[i].id != id) && id in dst ==> CopyFields(fields, src, dst)[id] == dst[id]
  {
    if fields != [] {
      var init, last := fields[..|fields| - 1], fields[|fields| - 1];
      CopyAt(init, src, dst, id);
      if i :| 0 <= i < |fields| && fields[i].id == id {
        if i < |init| {
          assert init[i].id == id;
        }
      }
    }
  }

  lemma {:induction false} CopyOf(fields: seq<FieldDef>, src: Doc, dst: Doc, i: nat)
    requires i < |fields|
    requires forall a, b :: 0 <= a < b < |fields| ==> fields[a].id != fields[b].id
    ensures fields[i].id in CopyFields(fields, src, dst)
    ensures CopyFields(fields, src, dst)[fields[i].id] == CopySlot(fields[i], src)
  {
    if i < |fields| - 1 {
      CopyOf(fields[..|fields| - 1], src, dst, i);
    }
  }

  /** Before field `i` is copied it still holds its default. */
  lemma CopyKeeps(schema: Schema, src: Doc, dst: Doc, i: nat)
    requires GoodSchema(schema) && i < |schema.fields| && Total(schema, dst) && WellShaped(schema, src)
    requires SlotOf(dst, schema.fields[i]) == DefaultSlot(schema.fields[i])
    ensures
      var def, d := schema.fields[i], CopyFields(schema.fields[..i], src, dst);
      && def.id in d && d[def.id] == DefaultSlot(def)
      && (CopySlot(def, src) == DefaultSlot(def) ==> d == d[def.id := CopySlot(def, src)])
      && ShapedSlot(def, SlotOf(src, def))
  {
    var def := schema.fields[i];
    CopyAt(schema.fields[..i], src, dst, def.id);
  }

  lemma {:induction false} DefaultsAt(fields: seq<FieldDef>, i: nat)
    requires i < |fields|
    requires forall a, b :: 0 <= a < b < |fields| ==> fields[a].id != fields[b].id
    ensures fields[i].id in Defaults(fields) && Defaults(fields)[fields[i].id] == DefaultSlot(fields[i])
  {
    if i < |fields| - 1 {
      DefaultsAt(fields[..|fields| - 1], i);
    }
  }

  lemma {:induction false} DefaultsIds(fields: seq<FieldDef>, id: nat)
    requires id in Defaults(fields)
    ensures exists i :: 0 <= i < |fields| && fields[i].id == id
  {
    if id != fields[|fields| - 1].id {
      var init := fields[..|fields| - 1];
      DefaultsIds(init, id);
      var i :| 0 <= i < |init| && init[i].id == id;
      assert fields[i].id == id;
    } else {
      assert fields[|fields| - 1].id == id;
    }
  }

  lemma NewDocDefault(schema: Schema)
    requires GoodSchema(schema)
    ensures WellShaped(schema, NewDoc(schema))
    ensures forall i :: 0 <= i < |schema.fields| ==> SlotOf(NewDoc(schema), schema.fields[i]) == DefaultSlot(schema.fields[i])
  {
    forall i | 0 <= i < |schema.fields|
      ensures schema.fields[i].id in NewDoc(schema) && SlotOf(NewDoc(schema), schema.fields[i]) == DefaultSlot(schema.fields[i])
    {
      DefaultsAt(schema.fields, i);
    }
    forall id | id in NewDoc(schema) ensures exists i :: 0 <= i < |schema.fields| && schema.fields[i].id == id {
      DefaultsIds(schema.fields, id);
    }
  }

  /** Copying a row into a new document gives the row back. */
  lemma CopyIsIdentity(schema: Schema, src: Doc)
    requires GoodSchema(schema) && WellShaped(schema, src)
    ensures CopyFields(schema.fields, src, NewDoc(schema)) == src
  {
    NewDocDefault(schema);
    var d := CopyFields(schema.fields, src, NewDoc(schema));
    forall id ensures id in d <==> id in src {
      CopyAt(schema.fields, src, NewDoc(schema), id);
    }
    forall id | id in src ensures d[id] == src[id] {
      var i :| 0 <= i < |schema.fields| && schema.fields[i].id == id;
      CopyOf(schema.fields, src, NewDoc(schema), i);
      assert ShapedSlot(schema.fields[i], SlotOf(src, schema.fields[i]));
    }
  }
}
