/** Laws of the change stream: keys agree, rows are independent, upserts compose. */
module StreamLaws {
  import opened Wrappers
  import opened StreamIngest

  // ─── What a message asks of each field ─────────────────────────────────────

  /** The change a well-typed message asks of a field; absent and null members ask for nothing. */
  function ChangeFor(obj: Object, def: FieldDef): (r: Outcome<Change>) {
    if def.name == "_op" || def.name == "_ts" then Ok(Keep)
    else match Lookup(obj, def.name)
      case None => Ok(Keep)
      case Some(val) => ChangeOf(def, val)
  }

  predicate HasKey(obj: Object, key: string) {
    exists i :: 0 <= i < |obj| && obj[i].0 == key
  }

  lemma UniquePrefix(obj: Object)
    requires UniqueKeys(obj) && obj != []
    ensures UniqueKeys(obj[..|obj| - 1]) && !HasKey(obj[..|obj| - 1], obj[|obj| - 1].0)
  {
  }

  lemma FieldUnique(schema: Schema, def: FieldDef)
    requires GoodSchema(schema) && def in schema.fields
    ensures FindField(schema, def.name) == Some(def)
    ensures forall d :: d in schema.fields && d.id == def.id ==> d == def
  {
    var found := FindField(schema, def.name);
    assert found.Some?;
    var i :| 0 <= i < |schema.fields| && schema.fields[i] == def;
    var j :| 0 <= j < |schema.fields| && schema.fields[j] == found.value;
  }

  lemma TotalHas(schema: Schema, doc: Doc, def: FieldDef)
    requires Total(schema, doc) && def in schema.fields
    ensures def.id in doc && SlotOf(doc, def) == doc[def.id]
  {
    var i :| 0 <= i < |schema.fields| && schema.fields[i] == def;
  }

  lemma MemberTotal(schema: Schema, doc: Doc, key: string, val: Json)
    requires Total(schema, doc) && MergeMember(schema, doc, key, val).Ok?
    ensures Total(schema, MergeMember(schema, doc, key, val).value)
  {
    hide ChangeOf, Changed;
    var t := Target(schema, key);
    if t.Some? {
      TotalHas(schema, doc, t.value);
    }
  }

  /** Merging acts on every field independently, in whatever order the members come. */
  lemma {:induction false} MergePointwise(schema: Schema, doc: Doc, obj: Object, def: FieldDef)
    requires GoodSchema(schema) && UniqueKeys(obj) && Total(schema, doc) && def in schema.fields
    requires MergeJson(schema, doc, obj).Ok?
    ensures
      var d := MergeJson(schema, doc, obj).value;
      && Total(schema, d) && ChangeFor(obj, def).Ok?
      && SlotOf(d, def) == Changed(SlotOf(doc, def), ChangeFor(obj, def).value)
  {
    hide ChangeOf, GoodSchema, Total, Changed;
    if obj == [] {
      KeepIsKeep(SlotOf(doc, def));
    } else {
      var init, key, val := obj[..|obj| - 1], obj[|obj| - 1].0, obj[|obj| - 1].1;
      UniquePrefix(obj);
      MergePointwise(schema, doc, init, def);
      var d := MergeJson(schema, doc, init).value;
      MemberTotal(schema, d, key, val);
      FieldUnique(schema, def);
      LookupLast(obj, def.name);
      KeepIsKeep(SlotOf(doc, def));
      var t := Target(schema, key);
      if t.Some? && t.value != def {
        FieldUnique(schema, t.value);
      }
    }
  }

  lemma KeepIsKeep(s: Slot)
    ensures Changed(s, Keep) == s
  {
  }

  lemma LookupLast(obj: Object, key: string)
    requires obj != []
    ensures Lookup(obj, key) == if obj[|obj| - 1].0 == key then Some(obj[|obj| - 1].1) else Lookup(obj[..|obj| - 1], key)
    ensures !HasKey(obj[..|obj| - 1], key) ==> Lookup(obj[..|obj| - 1], key) == None
  {
  }

  /** Whether merging succeeds depends on the message alone. */
  lemma {:induction false} MergeOutcome(schema: Schema, doc1: Doc, doc2: Doc, obj: Object)
    ensures MergeJson(schema, doc1, obj).Ok? == MergeJson(schema, doc2, obj).Ok?
    ensures MergeJson(schema, doc1, obj).Rejected? == MergeJson(schema, doc2, obj).Rejected?
  {
    hide ChangeOf, Changed;
    if obj != [] {
      MergeOutcome(schema, doc1, doc2, obj[..|obj| - 1]);
    }
  }

  lemma MergeKeepsShape(schema: Schema, doc: Doc, obj: Object)
    requires GoodSchema(schema) && UniqueKeys(obj) && WellShaped(schema, doc) && MergeJson(schema, doc, obj).Ok?
    ensures WellShaped(schema, MergeJson(schema, doc, obj).value)
  {
    hide GoodSchema, UniqueKeys, Total, Lookup, Convert, ConvertAll, SlotOf, MergeJson;
    var d := MergeJson(schema, doc, obj).value;
    MergeTotal(schema, doc, obj);
    forall i | 0 <= i < |schema.fields| ensures ShapedSlot(schema.fields[i], SlotOf(d, schema.fields[i])) {
      MergePointwise(schema, doc, obj, schema.fields[i]);
      ChangeKeepsShape(schema.fields[i], obj, SlotOf(doc, schema.fields[i]));
    }
  }

  lemma ChangeKeepsShape(def: FieldDef, obj: Object, s: Slot)
    requires ShapedSlot(def, s) && ChangeFor(obj, def).Ok?
    ensures ShapedSlot(def, Changed(s, ChangeFor(obj, def).value))
  {
    hide Lookup, Convert, ConvertAll;
  }

  lemma {:induction false} MergeTotal(schema: Schema, doc: Doc, obj: Object)
    requires Total(schema, doc) && MergeJson(schema, doc, obj).Ok?
    ensures Total(schema, MergeJson(schema, doc, obj).value)
  {
    hide Total, MergeMember;
    if obj != [] {
      MergeTotal(schema, doc, obj[..|obj| - 1]);
      MemberTotal(schema, MergeJson(schema, doc, obj[..|obj| - 1]).value, obj[|obj| - 1].0, obj[|obj| - 1].1);
    }
  }

  // ─── A row is stored under the key that was looked up ──────────────────────

  predicate GoodPk(schema: Schema) {
    schema.pk != "_op" && schema.pk != "_ts"
  }

  lemma StoredUnderItsKey(schema: Schema, doc: Doc, obj: Object)
    requires GoodSchema(schema) && GoodPk(schema) && UniqueKeys(obj) && WellShaped(schema, doc)
    requires ExtractPk(schema, obj).Ok? && MergeJson(schema, doc, obj).Ok?
    ensures StoredKey(schema, MergeJson(schema, doc, obj).value) == ExtractPk(schema, obj).value
  {
    hide GoodSchema, UniqueKeys, WellShaped, Lookup, SlotOf, MergeJson, Decimal;
    var def := FindField(schema, schema.pk).value;
    ShapeTotal(schema, doc);
    MergePointwise(schema, doc, obj, def);
  }

  lemma ShapeTotal(schema: Schema, doc: Doc)
    requires WellShaped(schema, doc)
    ensures Total(schema, doc)
  {
  }

  /** The merge skips a pk field with a reserved name: the key of the base document stays. */
  lemma ReservedPkKeepsKey(schema: Schema, doc: Doc, obj: Object)
    requires GoodSchema(schema) && !GoodPk(schema) && UniqueKeys(obj) && WellShaped(schema, doc)
    requires MergeJson(schema, doc, obj).Ok?
    ensures StoredKey(schema, MergeJson(schema, doc, obj).value) == StoredKey(schema, doc)
  {
    hide GoodSchema, UniqueKeys, WellShaped, Lookup, SlotOf, MergeJson, Decimal;
    if FindField(schema, schema.pk).Some? {
      var def := FindField(schema, schema.pk).value;
      ShapeTotal(schema, doc);
      MergePointwise(schema, doc, obj, def);
      KeepIsKeep(SlotOf(doc, def));
    }
  }

  /**
   A merged row is stored under the key its message was looked up by exactly if
   the pk field has no reserved name or the base document already had that key.
   */
  lemma StoredUnderItsKeyIff(schema: Schema, doc: Doc, obj: Object)
    requires GoodSchema(schema) && UniqueKeys(obj) && WellShaped(schema, doc)
    requires ExtractPk(schema, obj).Ok? && MergeJson(schema, doc, obj).Ok?
    ensures StoredKey(schema, MergeJson(schema, doc, obj).value) == ExtractPk(schema, obj).value
      <==> GoodPk(schema) || StoredKey(schema, doc) == ExtractPk(schema, obj).value
  {
    hide GoodSchema, UniqueKeys, WellShaped, MergeJson, ExtractPk, StoredKey, GoodPk;
    if GoodPk(schema) {
      StoredUnderItsKey(schema, doc, obj);
    } else {
      ReservedPkKeepsKey(schema, doc, obj);
    }
  }

  /** It happens: with "_op" for the pk an INSERT looks up one key and stores under another. */
  lemma ReservedPkLosesKey()
    ensures
      var schema, m: Object := Schema([FieldDef("_op", 0, String, false)], "_op"), [("_op", JString("insert"))];
      && GoodSchema(schema) && UniqueKeys(m) && ExtractPk(schema, m) == Ok("insert")
      && var o := ApplyObject(schema, map[], m);
      o.Ok? && "insert" !in o.value && "" in o.value
  {
    var schema, m: Object := Schema([FieldDef("_op", 0, String, false)], "_op"), [("_op", JString("insert"))];
    assert m[..0] == [] && schema.fields[..0] == [];
    assert LowerAll("insert") == "insert";
  }

  // ─── Rows are independent ──────────────────────────────────────────────────

  function Row(idx: Index, key: string): (r: Option<Doc>) {
    if key in idx then Some(idx[key]) else None
  }

  function SetRow(idx: Index, key: string, row: Option<Doc>): (r: Index) {
    match row
    case None => idx - {key}
    case Some(doc) => idx[key := doc]
  }

  /** Every stored row is well shaped. */
  predicate GoodIndex(schema: Schema, idx: Index) {
    forall k :: k in idx ==> WellShaped(schema, idx[k])
  }

  predicate GoodRow(schema: Schema, row: Option<Doc>) {
    row.Some? ==> WellShaped(schema, row.value)
  }

  /** What a message does to the one row it addresses. */
  function ApplyToRow(schema: Schema, row: Option<Doc>, obj: Object): (r: Outcome<Option<Doc>>) {
    match OpOf(obj)
    case Delete => Ok(None)
    case Unknown => Rejected
    case Insert => if row.Some? then Rejected else Merged(schema, NewDoc(schema), obj)
    case Upsert => Merged(schema, if row.Some? then row.value else NewDoc(schema), obj)
  }

  function Merged(schema: Schema, doc: Doc, obj: Object): (r: Outcome<Option<Doc>>) {
    match MergeJson(schema, doc, obj)
    case Rejected => Rejected
    case Thrown => Thrown
    case Ok(d) => Ok(Some(d))
  }

  lemma MergedIsStored(schema: Schema, idx: Index, doc: Doc, obj: Object)
    requires GoodSchema(schema) && GoodPk(schema) && UniqueKeys(obj) && WellShaped(schema, doc)
    requires ExtractPk(schema, obj).Ok? && MergeJson(schema, doc, obj).Ok?
    ensures Store(schema, idx, MergeJson(schema, doc, obj).value) == SetRow(idx, ExtractPk(schema, obj).value, Some(MergeJson(schema, doc, obj).value))
  {
    hide MergeJson, ExtractPk, WellShaped;
    StoredUnderItsKey(schema, doc, obj);
  }

  /** A message reads and writes only the row of its key. */
  lemma ApplyIsLocal(schema: Schema, idx: Index, obj: Object)
    requires GoodSchema(schema) && GoodPk(schema) && UniqueKeys(obj) && GoodIndex(schema, idx)
    ensures ExtractPk(schema, obj).Ok? ==>
      var pk := ExtractPk(schema, obj).value;
      match ApplyToRow(schema, Row(idx, pk), obj)
      case Ok(row) => ApplyObject(schema, idx, obj) == Ok(SetRow(idx, pk, row))
      case Rejected => ApplyObject(schema, idx, obj) == Rejected
      case Thrown => ApplyObject(schema, idx, obj) == Thrown
    ensures !ExtractPk(schema, obj).Ok? ==> !ApplyObject(schema, idx, obj).Ok?
  {
    hide MergeJson, ExtractPk, WellShaped, OpOf, Store, NewDoc, CopyFields, GoodSchema, UniqueKeys;
    if ExtractPk(schema, obj).Ok? {
      var pk := ExtractPk(schema, obj).value;
      NewDocDefault(schema);
      if pk in idx {
        CopyIsIdentity(schema, idx[pk]);
      }
      var base := if pk in idx then idx[pk] else NewDoc(schema);
      if MergeJson(schema, base, obj).Ok? {
        MergedIsStored(schema, idx, base, obj);
      }
    }
  }

  /** The index after a message, whatever became of it. */
  function After(schema: Schema, idx: Index, obj: Object): (r: Index) {
    var o := ApplyObject(schema, idx, obj);
    if o.Ok? then o.value else idx
  }

  lemma AfterIsLocal(schema: Schema, idx: Index, obj: Object, key: string)
    requires GoodSchema(schema) && GoodPk(schema) && UniqueKeys(obj) && GoodIndex(schema, idx)
    ensures
      var row := Row(After(schema, idx, obj), key);
      if ExtractPk(schema, obj) == Ok(key) then
        var o := ApplyToRow(schema, Row(idx, key), obj);
        row == if o.Ok? then o.value else Row(idx, key)
      else row == Row(idx, key)
  {
    hide ExtractPk, ApplyToRow, ApplyObject, UniqueKeys, GoodSchema, WellShaped;
    ApplyIsLocal(schema, idx, obj);
  }

  lemma AfterKeepsGood(schema: Schema, idx: Index, obj: Object)
    requires GoodSchema(schema) && GoodPk(schema) && UniqueKeys(obj) && GoodIndex(schema, idx)
    ensures GoodIndex(schema, After(schema, idx, obj))
  {
    hide ExtractPk, After, UniqueKeys, GoodSchema, WellShaped, MergeJson, NewDoc, OpOf;
    var idx' := After(schema, idx, obj);
    forall k | k in idx' ensures WellShaped(schema, idx'[k]) {
      AfterIsLocal(schema, idx, obj, k);
      assert Row(idx', k) == Some(idx'[k]);
      if ApplyToRow(schema, Row(idx, k), obj).Ok? {
        RowKeepsShape(schema, Row(idx, k), obj);
      }
    }
  }

  lemma RowKeepsShape(schema: Schema, row: Option<Doc>, obj: Object)
    requires GoodSchema(schema) && UniqueKeys(obj) && GoodRow(schema, row) && ApplyToRow(schema, row, obj).Ok?
    ensures GoodRow(schema, ApplyToRow(schema, row, obj).value)
  {
    hide WellShaped, MergeJson, UniqueKeys, GoodSchema, NewDoc;
    NewDocDefault(schema);
    var base := if row.Some? then row.value else NewDoc(schema);
    if MergeJson(schema, base, obj).Ok? {
      MergeKeepsShape(schema, base, obj);
    }
  }

  /** Messages for different keys commute, whatever their operations and however ill-typed. */
  lemma DifferentKeysCommute(schema: Schema, idx: Index, m1: Object, m2: Object)
    requires GoodSchema(schema) && GoodPk(schema) && GoodIndex(schema, idx) && UniqueKeys(m1) && UniqueKeys(m2)
    requires ExtractPk(schema, m1) != ExtractPk(schema, m2) || !ExtractPk(schema, m1).Ok?
    ensures After(schema, After(schema, idx, m1), m2) == After(schema, After(schema, idx, m2), m1)
  {
    hide ExtractPk, After, UniqueKeys, GoodSchema, WellShaped, ApplyToRow, GoodIndex;
    var i1, i2 := After(schema, idx, m1), After(schema, idx, m2);
    AfterKeepsGood(schema, idx, m1);
    AfterKeepsGood(schema, idx, m2);
    var a, b := After(schema, i1, m2), After(schema, i2, m1);
    forall k ensures Row(a, k) == Row(b, k) {
      AfterIsLocal(schema, idx, m1, k);
      AfterIsLocal(schema, idx, m2, k);
      AfterIsLocal(schema, i1, m2, k);
      AfterIsLocal(schema, i2, m1, k);
    }
    SameRows(a, b);
  }

  lemma SameRows(a: Index, b: Index)
    requires forall k :: Row(a, k) == Row(b, k)
    ensures a == b
  {
    forall k ensures k in a <==> k in b {
      assert Row(a, k) == Row(b, k);
    }
    forall k | k in a ensures a[k] == b[k] {
      assert Row(a, k) == Row(b, k);
    }
  }

  // ─── Upserts compose ───────────────────────────────────────────────────────

  /** Two values for one member: a later non-null value wins, arrays of an array field concatenate. */
  function JoinValue(def: Option<FieldDef>, v1: Json, v2: Json): (r: Json) {
    if v2 == JNull then v1
    else if v1 == JNull then v2
    else if def.Some? && def.value.isArray && v1.JArray? && v2.JArray? then JArray(v1.items + v2.items)
    else v2
  }

  function JoinedMember(schema: Schema, key: string, v1: Option<Json>, v2: Option<Json>): (r: Option<Json>) {
    if v1.None? then v2
    else if v2.None? then v1
    else Some(JoinValue(Target(schema, key), v1.value, v2.value))
  }

  /** The members of `m1`, each joined with its namesake in `m2`. */
  function JoinLeft(schema: Schema, m1: Object, m2: Object): (r: Object)
    ensures |r| == |m1| && forall i :: 0 <= i < |m1| ==> r[i].0 == m1[i].0
  {
    if m1 == [] then []
    else
      var (k, v) := m1[|m1| - 1];
      JoinLeft(schema, m1[..|m1| - 1], m2) + [(k, JoinedMember(schema, k, Some(v), Lookup(m2, k)).value)]
  }

  /** The members of `m2` that `m1` has not. */
  function JoinRight(m1: Object, m2: Object): (r: Object)
    ensures forall i :: 0 <= i < |r| ==> r[i] in m2 && Lookup(m1, r[i].0) == None
  {
    if m2 == [] then []
    else
      var rest := JoinRight(m1, m2[..|m2| - 1]);
      if Lookup(m1, m2[|m2| - 1].0).None? then rest + [m2[|m2| - 1]] else rest
  }

  /** One message that says what `m1` followed by `m2` say. */
  function Join(schema: Schema, m1: Object, m2: Object): (r: Object) {
    JoinLeft(schema, m1, m2) + JoinRight(m1, m2)
  }

  lemma {:induction false} LookupConcat(a: Object, b: Object, key: string)
    ensures Lookup(a + b, key) == if Lookup(b, key).Some? then Lookup(b, key) else Lookup(a, key)
  {
    if b == [] {
      assert a + b == a;
    } else {
      assert (a + b)[..|a + b| - 1] == a + b[..|b| - 1];
      LookupConcat(a, b[..|b| - 1], key);
    }
  }

  lemma {:induction false} LookupLeft(schema: Schema, m1: Object, m2: Object, key: string)
    ensures Lookup(JoinLeft(schema, m1, m2), key) ==
      if Lookup(m1, key).Some? then JoinedMember(schema, key, Lookup(m1, key), Lookup(m2, key)) else None
  {
    hide JoinedMember;
    if m1 != [] {
      LookupLeft(schema, m1[..|m1| - 1], m2, key);
      var j := JoinLeft(schema, m1, m2);
      assert j[..|j| - 1] == JoinLeft(schema, m1[..|m1| - 1], m2);
      JoinedSome(schema, key, m1[|m1| - 1].1, Lookup(m2, key));
    }
  }

  lemma JoinedSome(schema: Schema, key: string, v: Json, w: Option<Json>)
    ensures JoinedMember(schema, key, Some(v), w).Some?
  {
  }

  lemma {:induction false} LookupRight(m1: Object, m2: Object, key: string)
    ensures Lookup(JoinRight(m1, m2), key) == if Lookup(m1, key).None? then Lookup(m2, key) else None
  {
    if m2 != [] {
      LookupRight(m1, m2[..|m2| - 1], key);
      var rest := JoinRight(m1, m2[..|m2| - 1]);
      assert (rest + [m2[|m2| - 1]])[..|rest|] == rest;
    }
  }

  lemma LookupJoin(schema: Schema, m1: Object, m2: Object, key: string)
    ensures Lookup(Join(schema, m1, m2), key) == JoinedMember(schema, key, Lookup(m1, key), Lookup(m2, key))
  {
    hide Lookup, JoinLeft, JoinRight;
    LookupConcat(JoinLeft(schema, m1, m2), JoinRight(m1, m2), key);
    LookupLeft(schema, m1, m2, key);
    LookupRight(m1, m2, key);
  }

  lemma {:induction false} RightUnique(m1: Object, m2: Object)
    requires UniqueKeys(m2)
    ensures UniqueKeys(JoinRight(m1, m2))
  {
    if m2 != [] {
      UniquePrefix(m2);
      RightUnique(m1, m2[..|m2| - 1]);
      var rest := JoinRight(m1, m2[..|m2| - 1]);
      forall i | 0 <= i < |rest| ensures rest[i].0 != m2[|m2| - 1].0 {
        assert rest[i] in m2[..|m2| - 1];
      }
    }
  }

  lemma JoinUnique(schema: Schema, m1: Object, m2: Object)
    requires UniqueKeys(m1) && UniqueKeys(m2)
    ensures UniqueKeys(Join(schema, m1, m2))
  {
    hide JoinLeft, JoinRight;
    var a, b := JoinLeft(schema, m1, m2), JoinRight(m1, m2);
    RightUnique(m1, m2);
    forall i, j | 0 <= i < |a| && 0 <= j < |b| ensures a[i].0 != b[j].0 {
      assert Lookup(m1, b[j].0) == None;
      assert m1[i].0 != b[j].0;
    }
  }

  /** One change after another. */
  function Then(c1: Change, c2: Change): (r: Change) {
    match c2
    case Keep => c1
    case Overwrite(_) => c2
    case Append(cells2) =>
      match c1
      case Append(cells1) => Append(cells1 + cells2)
      case _ => c2
  }

  lemma {:induction false} ConvertConcat(ty: DataType, a: seq<Json>, b: seq<Json>)
    requires ConvertAll(ty, a).Some? && ConvertAll(ty, b).Some?
    ensures ConvertAll(ty, a + b) == Some(ConvertAll(ty, a).value + ConvertAll(ty, b).value)
  {
    hide Convert;
    if b == [] {
      assert a + b == a;
      assert ConvertAll(ty, a).value + [] == ConvertAll(ty, a).value;
    } else {
      ConvertConcat(ty, a, b[..|b| - 1]);
      assert (a + b)[..|a + b| - 1] == a + b[..|b| - 1];
      var x, y, c := ConvertAll(ty, a).value, ConvertAll(ty, b[..|b| - 1]).value, Convert(ty, b[|b| - 1]).value;
      assert (x + y) + [c] == x + (y + [c]);
    }
  }

  /** The joined message asks of every field the first change and then the second. */
  lemma JoinChange(schema: Schema, m1: Object, m2: Object, def: FieldDef)
    requires GoodSchema(schema) && def in schema.fields && ChangeFor(m1, def).Ok? && ChangeFor(m2, def).Ok?
    ensures ChangeFor(Join(schema, m1, m2), def) == Ok(Then(ChangeFor(m1, def).value, ChangeFor(m2, def).value))
  {
    hide Lookup, Convert, ConvertAll, Join, GoodSchema, FindField;
    LookupJoin(schema, m1, m2, def.name);
    FieldUnique(schema, def);
    var v1, v2 := Lookup(m1, def.name), Lookup(m2, def.name);
    if v1.Some? && v2.Some? && v1.value.JArray? && v2.value.JArray? && def.isArray && def.ty != Bool && def.name != "_op" && def.name != "_ts" {
      ConvertConcat(def.ty, v1.value.items, v2.value.items);
    }
  }

  /** Merging the joined message is merging the two in turn, field by field. */
  lemma {:induction false} MergeOkIff(schema: Schema, doc: Doc, obj: Object)
    requires GoodSchema(schema) && UniqueKeys(obj)
    requires forall def :: def in schema.fields ==> ChangeFor(obj, def).Ok?
    ensures MergeJson(schema, doc, obj).Ok?
  {
    hide ChangeOf, Changed, GoodSchema;
    if obj != [] {
      var init, key, val := obj[..|obj| - 1], obj[|obj| - 1].0, obj[|obj| - 1].1;
      UniquePrefix(obj);
      forall def | def in schema.fields ensures ChangeFor(init, def).Ok? {
        LookupLast(obj, def.name);
        assert ChangeFor(obj, def).Ok?;
      }
      MergeOkIff(schema, doc, init);
      LookupLast(obj, key);
      var t := Target(schema, key);
      if t.Some? {
        assert ChangeFor(obj, t.value).Ok?;
      }
    }
  }

  lemma ThenIsSequential(s: Slot, c1: Change, c2: Change, def: FieldDef)
    requires ShapedSlot(def, s)
    requires c1.Append? ==> def.isArray
    requires c2.Append? ==> def.isArray
    requires c1.Overwrite? ==> !def.isArray
    ensures Changed(Changed(s, c1), c2) == Changed(s, Then(c1, c2))
  {
    if c1.Append? && c2.Append? {
      var cells := if s.Array? then s.cells else [];
      assert (cells + c1.cells) + c2.cells == cells + (c1.cells + c2.cells);
    }
  }

  lemma ChangeKind(obj: Object, def: FieldDef)
    requires ChangeFor(obj, def).Ok?
    ensures ChangeFor(obj, def).value.Append? ==> def.isArray
    ensures ChangeFor(obj, def).value.Overwrite? ==> !def.isArray
  {
    hide Lookup, Convert, ConvertAll;
  }

  lemma MergeJoin(schema: Schema, doc: Doc, m1: Object, m2: Object)
    requires GoodSchema(schema) && UniqueKeys(m1) && UniqueKeys(m2) && WellShaped(schema, doc)
    requires MergeJson(schema, doc, m1).Ok? && MergeJson(schema, MergeJson(schema, doc, m1).value, m2).Ok?
    ensures MergeJson(schema, doc, Join(schema, m1, m2)) == MergeJson(schema, MergeJson(schema, doc, m1).value, m2)
  {
    hide GoodSchema, UniqueKeys, WellShaped, Total, ChangeFor, Changed, Then, MergeJson, Join, SlotOf;
    var d1 := MergeJson(schema, doc, m1).value;
    var d2 := MergeJson(schema, d1, m2).value;
    var j := Join(schema, m1, m2);
    JoinUnique(schema, m1, m2);
    ShapeTotal(schema, doc);
    MergeTotal(schema, doc, m1);
    MergeTotal(schema, d1, m2);
    forall def | def in schema.fields ensures ChangeFor(j, def).Ok? {
      MergePointwise(schema, doc, m1, def);
      MergePointwise(schema, d1, m2, def);
      JoinChange(schema, m1, m2, def);
    }
    MergeOkIff(schema, doc, j);
    var d := MergeJson(schema, doc, j).value;
    MergeTotal(schema, doc, j);
    forall def | def in schema.fields ensures SlotOf(d, def) == SlotOf(d2, def) {
      MergePointwise(schema, doc, m1, def);
      MergePointwise(schema, d1, m2, def);
      MergePointwise(schema, doc, j, def);
      JoinChange(schema, m1, m2, def);
      ShapedAt(schema, doc, def);
      ChangeKind(m1, def);
      ChangeKind(m2, def);
      ThenIsSequential(SlotOf(doc, def), ChangeFor(m1, def).value, ChangeFor(m2, def).value, def);
    }
    SameSlots(schema, d, d2);
  }

  lemma ShapedAt(schema: Schema, doc: Doc, def: FieldDef)
    requires WellShaped(schema, doc) && def in schema.fields
    ensures ShapedSlot(def, SlotOf(doc, def))
  {
    var i :| 0 <= i < |schema.fields| && schema.fields[i] == def;
  }

  lemma SameSlots(schema: Schema, a: Doc, b: Doc)
    requires Total(schema, a) && Total(schema, b)
    requires forall def :: def in schema.fields ==> SlotOf(a, def) == SlotOf(b, def)
    ensures a == b
  {
    forall id ensures id in a <==> id in b {
    }
    forall id | id in a ensures a[id] == b[id] {
      var i :| 0 <= i < |schema.fields| && schema.fields[i].id == id;
      assert SlotOf(a, schema.fields[i]) == SlotOf(b, schema.fields[i]);
    }
  }

  lemma JoinKey(schema: Schema, m1: Object, m2: Object)
    requires ExtractPk(schema, m1).Ok? && ExtractPk(schema, m2).Ok?
    ensures ExtractPk(schema, Join(schema, m1, m2)) == ExtractPk(schema, m2)
  {
    hide Join, Lookup;
    var def := FindField(schema, schema.pk).value;
    LookupJoin(schema, m1, m2, def.name);
  }

  lemma JoinOp(schema: Schema, m1: Object, m2: Object)
    requires OpOf(m1) == Upsert && OpOf(m2) == Upsert
    ensures OpOf(Join(schema, m1, m2)) == Upsert
  {
    hide Join, Lookup, LowerAll;
    LookupJoin(schema, m1, m2, "_op");
  }

  /**
   Upsert is a monoid action: two upserts of one row that both succeed equal one
   upsert of the joined message.
   */
  lemma UpsertsCompose(schema: Schema, idx: Index, m1: Object, m2: Object)
    requires GoodSchema(schema) && GoodPk(schema) && GoodIndex(schema, idx) && UniqueKeys(m1) && UniqueKeys(m2)
    requires OpOf(m1) == Upsert && OpOf(m2) == Upsert
    requires ExtractPk(schema, m1).Ok? && ExtractPk(schema, m2) == ExtractPk(schema, m1)
    requires ApplyObject(schema, idx, m1).Ok? && ApplyObject(schema, After(schema, idx, m1), m2).Ok?
    ensures ApplyObject(schema, idx, Join(schema, m1, m2)) == ApplyObject(schema, After(schema, idx, m1), m2)
  {
    hide GoodSchema, UniqueKeys, WellShaped, MergeJson, Join, ExtractPk, OpOf, NewDoc, ApplyObject;
    var pk := ExtractPk(schema, m1).value;
    var idx1, j := After(schema, idx, m1), Join(schema, m1, m2);
    AfterKeepsGood(schema, idx, m1);
    JoinKey(schema, m1, m2);
    JoinOp(schema, m1, m2);
    JoinUnique(schema, m1, m2);
    NewDocDefault(schema);
    ApplyIsLocal(schema, idx, m1);
    AfterIsLocal(schema, idx, m1, pk);
    ApplyIsLocal(schema, idx1, m2);
    ApplyIsLocal(schema, idx, j);
    var base := if pk in idx then idx[pk] else NewDoc(schema);
    MergeJoin(schema, base, m1, m2);
    var d1, d2 := MergeJson(schema, base, m1).value, MergeJson(schema, base, j).value;
    assert idx[pk := d1][pk := d2] == idx[pk := d2];
  }
}
