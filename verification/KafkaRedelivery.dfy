/**
 Exactly which batches with an INSERT that cannot be converted may be delivered
 again: the condition is about the messages of the batch alone, the property about
 every index and all later messages.
 */
module KafkaRedelivery {
  import opened Wrappers
  import opened StreamIngest
  import opened StreamLaws
  import opened StreamReplay
  import opened StreamEffects
  import opened KafkaSource
  import opened KafkaConvergence
  import opened KafkaUnsteady

  /** A batch whose only unsteady message that can be reached is item `i`. */
  predicate OneUnsteady(schema: Schema, items: seq<Json>, i: nat) {
    i < |items| && Replayable(schema) && GoodItems(items) && FirstUnsteady(schema, items, i) && SteadyItems(schema, items[i + 1..])
  }

  function Front(schema: Schema, items: seq<Json>, i: nat): (r: seq<Object>)
    requires i < |items|
  {
    Objects(schema, items[..i])
  }

  function Remainder(schema: Schema, items: seq<Json>, i: nat): (r: seq<Object>)
    requires i < |items|
  {
    Objects(schema, items[i + 1..])
  }

  /** The batch and later messages may come twice, whatever the index and whatever the later messages. */
  ghost predicate RedeliverySafe(schema: Schema, items: seq<Json>) {
    forall idx, later {:trigger Once(schema, idx, items, later)} :: GoodIndex(schema, idx) && GoodLog(later) ==>
      Once(schema, Once(schema, idx, items, later), items, later) == Once(schema, idx, items, later)
  }

  /**
   The rest of the batch leaves the INSERT's own row alone: it deletes it in the
   end, or it fixes no field beside the key.
   */
  predicate LeavesKey(schema: Schema, rest: seq<Object>, key: string) {
    || RunRow(schema, Some(NewDoc(schema)), rest, key).None?
    || forall i :: 0 <= i < |schema.fields| && Settable(schema, schema.fields[i]) ==> !Fixes(schema, rest, key, schema.fields[i])
  }

  // ─── One delivery, row by row ──────────────────────────────────────────────

  /** The messages that take effect, depending on whether the INSERT finds its key. */
  function Sent(front: seq<Object>, rest: seq<Object>, later: seq<Object>, present: bool): (r: seq<Object>) {
    if present then front + rest + later else front + later
  }

  lemma PartsAreGood(schema: Schema, items: seq<Json>, i: nat)
    requires i < |items| && GoodItems(items)
    ensures GoodLog(Front(schema, items, i)) && GoodLog(Remainder(schema, items, i))
  {
    hide GoodItems, GoodLog, Objects;
    GoodPart(items, 0, i);
    GoodPart(items, i + 1, |items|);
    assert items[0..i] == items[..i] && items[i + 1..|items|] == items[i + 1..];
    ObjectsGood(schema, items[..i]);
    ObjectsGood(schema, items[i + 1..]);
  }

  lemma SentGood(front: seq<Object>, rest: seq<Object>, later: seq<Object>, present: bool)
    requires GoodLog(front) && GoodLog(rest) && GoodLog(later)
    ensures GoodLog(Sent(front, rest, later, present))
  {
    hide GoodLog;
    LogsGood(front, rest);
    LogsGood(front + rest, later);
    LogsGood(front, later);
  }

  /** Whether the INSERT finds its key. */
  function Found(schema: Schema, idx: Index, items: seq<Json>, i: nat): (r: bool)
    requires FirstUnsteady(schema, items, i)
  {
    RunRow(schema, Row(idx, KeyAt(schema, items, i)), Front(schema, items, i), KeyAt(schema, items, i)).Some?
  }

  lemma DeliveredOnce(schema: Schema, idx: Index, items: seq<Json>, i: nat, later: seq<Object>)
    requires OneUnsteady(schema, items, i) && GoodIndex(schema, idx) && GoodLog(later)
    ensures
      Once(schema, idx, items, later) == RunObjects(schema, idx, Sent(Front(schema, items, i), Remainder(schema, items, i), later, Found(schema, idx, items, i)))
    ensures GoodIndex(schema, Once(schema, idx, items, later))
  {
    hide GoodIndex, GoodItems, GoodLog, RunObjects, ApplyItems, Objects, SteadyItems, RunRow, Steady, NoneThrows, GoodSchema, GoodPk, ScalarSchema;
    var front, rest, key := Front(schema, items, i), Remainder(schema, items, i), KeyAt(schema, items, i);
    PartsAreGood(schema, items, i);
    UnsteadyPayload(schema, idx, items, i);
    ObjectsRun(schema, idx, items[..i]);
    ObjectsRun(schema, RunObjects(schema, idx, front), items[i + 1..]);
    RunIsByRow(schema, idx, front, key);
    TwoParts(schema, idx, front, rest, later);
    RunConcat(schema, idx, front, later);
    var p := Found(schema, idx, items, i);
    SentGood(front, rest, later, p);
    RunIsByRow(schema, idx, Sent(front, rest, later, p), key);
  }

  lemma DeliveredRow(schema: Schema, idx: Index, items: seq<Json>, i: nat, later: seq<Object>, key: string)
    requires OneUnsteady(schema, items, i) && GoodIndex(schema, idx) && GoodLog(later)
    ensures Row(Once(schema, idx, items, later), key) ==
      RunRow(schema, Row(idx, key), Sent(Front(schema, items, i), Remainder(schema, items, i), later, Found(schema, idx, items, i)), key)
    ensures GoodIndex(schema, Once(schema, idx, items, later))
  {
    hide GoodIndex, GoodLog, RunObjects, RunRow, Once, Sent, Found, FirstUnsteady, SteadyItems, GoodItems, GoodSchema, GoodPk, ScalarSchema;
    DeliveredOnce(schema, idx, items, i, later);
    PartsAreGood(schema, items, i);
    var p := Found(schema, idx, items, i);
    SentGood(Front(schema, items, i), Remainder(schema, items, i), later, p);
    RunIsByRow(schema, idx, Sent(Front(schema, items, i), Remainder(schema, items, i), later, p), key);
  }

  lemma RunSent(schema: Schema, row: Option<Doc>, front: seq<Object>, rest: seq<Object>, later: seq<Object>, present: bool, key: string)
    ensures
      var r := RunRow(schema, row, front, key);
      RunRow(schema, row, Sent(front, rest, later, present), key) == RunRow(schema, if present then RunRow(schema, r, rest, key) else r, later, key)
  {
    hide RunRow;
    RunRowConcat(schema, row, front + rest, later, key);
    RunRowConcat(schema, row, front, rest, key);
    RunRowConcat(schema, row, front, later, key);
  }

  /** If the INSERT finds its key both times or neither time, the redelivery changes nothing. */
  lemma SameOutcomeIsSafe(schema: Schema, idx: Index, items: seq<Json>, i: nat, later: seq<Object>)
    requires OneUnsteady(schema, items, i) && GoodIndex(schema, idx) && GoodLog(later)
    requires Found(schema, Once(schema, idx, items, later), items, i) == Found(schema, idx, items, i)
    ensures Once(schema, Once(schema, idx, items, later), items, later) == Once(schema, idx, items, later)
  {
    hide GoodIndex, GoodLog, RunObjects, Once, Sent, Found, FirstUnsteady, SteadyItems, GoodItems, Replayable;
    DeliveredOnce(schema, idx, items, i, later);
    DeliveredOnce(schema, Once(schema, idx, items, later), items, i, later);
    PartsAreGood(schema, items, i);
    var p := Found(schema, idx, items, i);
    SentGood(Front(schema, items, i), Remainder(schema, items, i), later, p);
    ReplayAll(schema, idx, Sent(Front(schema, items, i), Remainder(schema, items, i), later, p));
  }

  /** A front that writes or deletes the INSERT's row decides its outcome: such a batch is always safe. */
  lemma DecidedIsSafe(schema: Schema, items: seq<Json>, i: nat)
    requires OneUnsteady(schema, items, i) && Touches(schema, Front(schema, items, i), KeyAt(schema, items, i))
    ensures RedeliverySafe(schema, items)
  {
    hide GoodIndex, GoodLog, Once, RunRow, FirstUnsteady, SteadyItems, GoodItems, Replayable, Touches, Objects;
    var front, key := Front(schema, items, i), KeyAt(schema, items, i);
    forall idx, later | GoodIndex(schema, idx) && GoodLog(later)
      ensures Once(schema, Once(schema, idx, items, later), items, later) == Once(schema, idx, items, later)
    {
      TouchDecides(schema, Row(idx, key), Row(Once(schema, idx, items, later), key), front, key);
      SameOutcomeIsSafe(schema, idx, items, i, later);
    }
  }

  // ─── When the outcome changes ──────────────────────────────────────────────

  /** A row of another key, the outcome having changed from `p` to its opposite. */
  lemma OtherRow(schema: Schema, front: seq<Object>, rest: seq<Object>, later: seq<Object>, key: string, row: Option<Doc>, p: bool)
    requires Replayable(schema) && GoodLog(front) && GoodLog(rest) && GoodLog(later) && GoodRow(schema, row)
    requires AlwaysAbsorbed(schema, front, rest, key)
    ensures
      var once := RunRow(schema, row, Sent(front, rest, later, p), key);
      RunRow(schema, once, Sent(front, rest, later, !p), key) == once
  {
    hide GoodLog, RunRow, GoodRow, Sent, GoodSchema, GoodPk, ScalarSchema;
    var r := RunRow(schema, row, front, key);
    var once := RunRow(schema, r, later, key);
    RunSent(schema, row, front, rest, later, p, key);
    RunSent(schema, once, front, rest, later, !p, key);
    RunRowGood(schema, row, front, key);
    RunRowGood(schema, r, later, key);
    assert AbsorbedAt(schema, front, rest, key, row) && AbsorbedAt(schema, front, rest, key, once);
    LogsGood(front, later);
    ReplayRow(schema, row, front + later, key);
    RunRowConcat(schema, row, front, later, key);
    RunRowConcat(schema, once, front, later, key);
  }

  /** A made row is left as it is, or deleted. */
  lemma LeftAlone(schema: Schema, rest: seq<Object>, key: string, d: Doc)
    requires Replayable(schema) && GoodLog(rest) && LeavesKey(schema, rest, key) && Made(schema, d, key)
    ensures
      var r := RunRow(schema, Some(d), rest, key);
      r == None || r == Some(d)
  {
    hide GoodLog, RunRow, GoodSchema, GoodPk, ScalarSchema, Settable, Fixes, WellShaped, MadeSlot, SlotOf, NewDoc;
    SamePresence(schema, Some(d), Some(NewDoc(schema)), rest, key);
    var r := RunRow(schema, Some(d), rest, key);
    if r.Some? {
      RunMakes(schema, Some(d), rest, key);
      forall def | def in schema.fields ensures SlotOf(r.value, def) == SlotOf(d, def) {
        if Settable(schema, def) {
          KeptSlot(schema, d, rest, key, def);
        } else {
          MadeAgree(schema, r.value, d, key, def);
        }
      }
      ShapeTotal(schema, d);
      ShapeTotal(schema, r.value);
      SameSlots(schema, r.value, d);
    }
  }

  /** The INSERT's own row, the outcome having changed. */
  lemma OwnRow(schema: Schema, front: seq<Object>, rest: seq<Object>, later: seq<Object>, key: string, row: Option<Doc>)
    requires Replayable(schema) && GoodLog(front) && GoodLog(rest) && GoodLog(later) && GoodRow(schema, row)
    requires !Touches(schema, front, key) && LeavesKey(schema, rest, key)
    ensures
      var p := row.Some?;
      var once := RunRow(schema, row, Sent(front, rest, later, p), key);
      once.Some? != p ==> RunRow(schema, once, Sent(front, rest, later, !p), key) == once
  {
    hide GoodLog, RunRow, WellShaped, Sent, GoodSchema, GoodPk, ScalarSchema, NoDelete, NoWrite, LeavesKey;
    var p := row.Some?;
    var once := RunRow(schema, row, Sent(front, rest, later, p), key);
    RunSent(schema, row, front, rest, later, p, key);
    RunSent(schema, once, front, rest, later, !p, key);
    QuietRun(schema, row, front, key);
    QuietRun(schema, once, front, key);
    if once.Some? != p {
      var r := if p then RunRow(schema, row, rest, key) else row;
      assert once == RunRow(schema, r, later, key);
      if !NoDelete(schema, later, key) {
        DeleteForgets(schema, r, if !p then RunRow(schema, once, rest, key) else once, later, key);
      } else if p {
        if r.Some? {
          StaysPresent(schema, r, later, key);
        }
      } else {
        RunMakes(schema, None, later, key);
        LeftAlone(schema, rest, key, once.value);
        ReplayRow(schema, None, later, key);
      }
    }
  }

  lemma ConditionIsSafe(schema: Schema, items: seq<Json>, i: nat)
    requires OneUnsteady(schema, items, i)
    requires
      var front, rest, key := Front(schema, items, i), Remainder(schema, items, i), KeyAt(schema, items, i);
      && !Touches(schema, front, key) && LeavesKey(schema, rest, key)
      && forall k :: k != key ==> Covers(schema, front, rest, k)
    ensures RedeliverySafe(schema, items)
  {
    hide GoodIndex, GoodLog, Once, RunRow, FirstUnsteady, SteadyItems, GoodItems, Touches, Objects, LeavesKey, Covers, Sent, GoodSchema, GoodPk, ScalarSchema, AlwaysAbsorbed;
    var front, rest, key := Front(schema, items, i), Remainder(schema, items, i), KeyAt(schema, items, i);
    PartsAreGood(schema, items, i);
    forall idx, later | GoodIndex(schema, idx) && GoodLog(later)
      ensures Once(schema, Once(schema, idx, items, later), items, later) == Once(schema, idx, items, later)
    {
      var once := Once(schema, idx, items, later);
      var again := Once(schema, once, items, later);
      var p := Found(schema, idx, items, i);
      DeliveredRow(schema, idx, items, i, later, key);
      if Found(schema, once, items, i) == p {
        SameOutcomeIsSafe(schema, idx, items, i, later);
      } else {
        UntouchedFound(schema, idx, items, i);
        UntouchedFound(schema, once, items, i);
        forall k ensures Row(again, k) == Row(once, k) {
          DeliveredRow(schema, idx, items, i, later, k);
          DeliveredRow(schema, once, items, i, later, k);
          GoodRows(schema, idx, k);
          if k == key {
            OwnRow(schema, front, rest, later, key, Row(idx, key));
          } else {
            AbsorbedIff(schema, front, rest, k);
            OtherRow(schema, front, rest, later, k, Row(idx, k), p);
          }
        }
        SameRows(again, once);
      }
    }
  }

  lemma GoodRows(schema: Schema, idx: Index, key: string)
    requires GoodIndex(schema, idx)
    ensures GoodRow(schema, Row(idx, key))
  {
  }

  lemma UntouchedFound(schema: Schema, idx: Index, items: seq<Json>, i: nat)
    requires FirstUnsteady(schema, items, i) && !Touches(schema, Front(schema, items, i), KeyAt(schema, items, i))
    ensures Found(schema, idx, items, i) == (KeyAt(schema, items, i) in idx)
  {
    hide RunRow, NoDelete, NoWrite, Steady, NoneThrows, SteadyItems;
    QuietRun(schema, Row(idx, KeyAt(schema, items, i)), Front(schema, items, i), KeyAt(schema, items, i));
  }

  // ─── Messages that show a difference ───────────────────────────────────────

  function PkValue(schema: Schema, obj: Object): (r: Json) {
    var v := Lookup(obj, schema.pk);
    if v.Some? then v.value else JNull
  }

  /** An upsert that says nothing but the key. */
  function KeyOnly(schema: Schema, obj: Object): (r: Object) {
    [(schema.pk, PkValue(schema, obj))]
  }

  /** An INSERT of the key with one more field. */
  function InsertWith(schema: Schema, obj: Object, name: string, w: Json): (r: Object) {
    [("_op", JString("insert")), (schema.pk, PkValue(schema, obj)), (name, w)]
  }

  lemma LookupOne(k: string, v: Json, key: string)
    ensures Lookup([(k, v)], key) == if key == k then Some(v) else None
  {
    var m: Object := [(k, v)];
    assert m[..0] == [];
  }

  lemma LookupThree(k1: string, v1: Json, k2: string, v2: Json, k3: string, v3: Json, key: string)
    requires k1 != k2 && k2 != k3 && k1 != k3
    ensures Lookup([(k1, v1), (k2, v2), (k3, v3)], key) ==
      if key == k1 then Some(v1) else if key == k2 then Some(v2) else if key == k3 then Some(v3) else None
  {
    var m: Object := [(k1, v1), (k2, v2), (k3, v3)];
    assert m[..2] == [(k1, v1), (k2, v2)];
    LookupTwo(k1, v1, k2, v2, key);
  }

  /** The value under which a message names its row names it in any message. */
  lemma PkOf(schema: Schema, obj: Object, m: Object, key: string)
    requires UsablePk(schema) && ExtractPk(schema, obj) == Ok(key) && Lookup(m, schema.pk) == Some(PkValue(schema, obj))
    ensures ExtractPk(schema, m) == Ok(key)
    ensures forall def :: def in schema.fields && def.name == schema.pk && GoodSchema(schema) ==> ChangeFor(m, def).Ok?
  {
    hide Lookup, Convert, GoodSchema, FindField, KeyOfCell;
    forall def | def in schema.fields && def.name == schema.pk && GoodSchema(schema) ensures ChangeFor(m, def).Ok? {
      FieldUnique(schema, def);
    }
  }

  lemma KeyOnlyUpserts(schema: Schema, obj: Object, key: string)
    requires Replayable(schema) && UsablePk(schema) && ExtractPk(schema, obj) == Ok(key)
    ensures
      var m := KeyOnly(schema, obj);
      && UniqueKeys(m) && EffectOn(schema, m, key) == Ups && (forall k :: k != key ==> EffectOn(schema, m, k) == Nop)
  {
    hide Lookup, Convert, GoodSchema, FindField, ExtractPk, UsablePk, MergeJson, PkValue;
    var m := KeyOnly(schema, obj);
    forall name ensures Lookup(m, name) == if name == schema.pk then Some(PkValue(schema, obj)) else None {
      LookupOne(schema.pk, PkValue(schema, obj), name);
    }
    PkOf(schema, obj, m, key);
    forall def | def in schema.fields ensures ChangeFor(m, def).Ok? {
    }
    MergeOkIff(schema, NewDoc(schema), m);
  }

  lemma InsertWithInserts(schema: Schema, obj: Object, key: string, def: FieldDef, w: Json)
    requires Replayable(schema) && UsablePk(schema) && ExtractPk(schema, obj) == Ok(key)
    requires def in schema.fields && Settable(schema, def) && w != JNull && Convert(def.ty, w).Some?
    ensures
      var m := InsertWith(schema, obj, def.name, w);
      && UniqueKeys(m) && EffectOn(schema, m, key) == Ins
      && SlotOf(MergeInto(schema, NewDoc(schema), m), def) == Scalar(Convert(def.ty, w).value)
  {
    hide Lookup, Convert, GoodSchema, FindField, ExtractPk, UsablePk, MergeJson, PkValue, SlotOf, NewDoc;
    var m, v := InsertWith(schema, obj, def.name, w), PkValue(schema, obj);
    forall name ensures Lookup(m, name) ==
      if name == "_op" then Some(JString("insert")) else if name == schema.pk then Some(v) else if name == def.name then Some(w) else None
    {
      LookupThree("_op", JString("insert"), schema.pk, v, def.name, w, name);
    }
    PkOf(schema, obj, m, key);
    forall d | d in schema.fields ensures ChangeFor(m, d).Ok? {
      SameName(schema, d, def);
    }
    MergeOkIff(schema, NewDoc(schema), m);
    InsertIsInsert();
    NewDocDefault(schema);
    ShapeTotal(schema, NewDoc(schema));
    MergePointwise(schema, NewDoc(schema), m, def);
  }

  lemma InsertIsInsert()
    ensures LowerAll("insert") == "insert"
  {
  }

  /** Every type has two values that messages can give. */
  function SampleValue(ty: DataType, second: bool): (r: Json)
    ensures r != JNull && Convert(ty, r).Some?
  {
    match ty
    case Bool => JBool(second)
    case String => JString(if second then "x" else "")
    case Bytes => JString(if second then "x" else "")
    case _ => JInt(if second then 1 else 0)
  }

  lemma SamplesDiffer(ty: DataType)
    ensures Convert(ty, SampleValue(ty, false)) != Convert(ty, SampleValue(ty, true))
  {
  }

  // ─── The condition is needed ───────────────────────────────────────────────

  /** Every other row must be covered. */
  lemma SafeCovers(schema: Schema, items: seq<Json>, i: nat, k: string)
    requires OneUnsteady(schema, items, i) && UsablePk(schema) && RedeliverySafe(schema, items)
    requires !Touches(schema, Front(schema, items, i), KeyAt(schema, items, i)) && k != KeyAt(schema, items, i)
    ensures Covers(schema, Front(schema, items, i), Remainder(schema, items, i), k)
  {
    hide GoodLog, RunRow, SteadyItems, GoodItems, Touches, Objects, Covers, Sent, GoodSchema, GoodPk, ScalarSchema, Steady, NoneThrows, WellShaped, UsablePk, Once, KeyOnly, EffectOn, UniqueKeys;
    var front, rest, key := Front(schema, items, i), Remainder(schema, items, i), KeyAt(schema, items, i);
    PartsAreGood(schema, items, i);
    UnsteadyObject(schema, map[], items[i].members);
    var m := KeyOnly(schema, items[i].members);
    KeyOnlyUpserts(schema, items[i].members, key);
    var later := [m];
    assert GoodLog(later) by {
      OneGood(m);
    }
    forall row | GoodRow(schema, row) ensures AbsorbedAt(schema, front, rest, k, row) {
      var idx: Index := if row.Some? then map[k := row.value] else map[];
      assert GoodIndex(schema, idx) && Row(idx, k) == row && Row(idx, key) == None;
      var once := Once(schema, idx, items, later);
      UntouchedFound(schema, idx, items, i);
      UntouchedFound(schema, once, items, i);
      DeliveredRow(schema, idx, items, i, later, key);
      DeliveredRow(schema, idx, items, i, later, k);
      DeliveredRow(schema, once, items, i, later, k);
      RunSent(schema, None, front, rest, later, false, key);
      RunSent(schema, row, front, rest, later, false, k);
      RunSent(schema, Row(once, k), front, rest, later, true, k);
      AfterKeyOnly(schema, RunRow(schema, None, front, key), m, key);
      NopRun(schema, RunRow(schema, row, front, k), m, k);
      ReplayRow(schema, row, front, k);
      NopRun(schema, RunRow(schema, RunRow(schema, row, front, k), rest, k), m, k);
    }
    AbsorbedIff(schema, front, rest, k);
  }

  lemma OneGood(m: Object)
    requires UniqueKeys(m)
    ensures GoodLog([m])
  {
  }

  lemma AfterKeyOnly(schema: Schema, row: Option<Doc>, m: Object, key: string)
    requires EffectOn(schema, m, key) == Ups
    ensures RunRow(schema, row, [m], key).Some?
  {
    hide EffectOn, MergeInto, NewDoc;
    assert [m][1..] == [];
  }

  lemma NopRun(schema: Schema, row: Option<Doc>, m: Object, key: string)
    requires EffectOn(schema, m, key) == Nop
    ensures RunRow(schema, row, [m], key) == row
  {
    hide EffectOn;
    assert [m][1..] == [];
  }

  lemma InsertRun(schema: Schema, row: Option<Doc>, m: Object, key: string)
    requires EffectOn(schema, m, key) == Ins
    ensures RunRow(schema, row, [m], key) == if row.Some? then row else Some(MergeInto(schema, NewDoc(schema), m))
  {
    hide EffectOn, MergeInto, NewDoc;
    assert [m][1..] == [];
  }

  /** The INSERT's own row must be left alone. */
  lemma SafeLeavesKey(schema: Schema, items: seq<Json>, i: nat)
    requires OneUnsteady(schema, items, i) && UsablePk(schema)
    requires !Touches(schema, Front(schema, items, i), KeyAt(schema, items, i))
    requires !LeavesKey(schema, Remainder(schema, items, i), KeyAt(schema, items, i))
    ensures !RedeliverySafe(schema, items)
  {
    hide GoodLog, RunRow, SteadyItems, GoodItems, Touches, Objects, Sent, GoodSchema, GoodPk, ScalarSchema, Steady, NoneThrows, WellShaped, UsablePk, Once, InsertWith, EffectOn, UniqueKeys, Settable, Fixes, SlotOf, NewDoc, MergeInto;
    var front, rest, key := Front(schema, items, i), Remainder(schema, items, i), KeyAt(schema, items, i);
    PartsAreGood(schema, items, i);
    UnsteadyObject(schema, map[], items[i].members);
    var j :| 0 <= j < |schema.fields| && Settable(schema, schema.fields[j]) && Fixes(schema, rest, key, schema.fields[j]);
    var def, n := schema.fields[j], RunRow(schema, Some(NewDoc(schema)), rest, key).value;
    SamplesDiffer(def.ty);
    var w := SampleValue(def.ty, SlotOf(n, def) == Scalar(Convert(def.ty, SampleValue(def.ty, false)).value));
    var m := InsertWith(schema, items[i].members, def.name, w);
    InsertWithInserts(schema, items[i].members, key, def, w);
    var later := [m];
    OneGood(m);
    var idx: Index := map[];
    assert GoodIndex(schema, idx) && Row(idx, key) == None;
    var once, d := Once(schema, idx, items, later), MergeInto(schema, NewDoc(schema), m);
    NewShaped(schema);
    MergedShape(schema, NewDoc(schema), m);
    UntouchedFound(schema, idx, items, i);
    UntouchedFound(schema, once, items, i);
    DeliveredRow(schema, idx, items, i, later, key);
    DeliveredRow(schema, once, items, i, later, key);
    RunSent(schema, None, front, rest, later, false, key);
    RunSent(schema, Row(once, key), front, rest, later, true, key);
    assert RunRow(schema, None, front, key) == None && RunRow(schema, Some(d), front, key) == Some(d) by {
      QuietFront(schema, None, front, key);
      QuietFront(schema, Some(d), front, key);
    }
    InsertRun(schema, None, m, key);
    FixedSlot(schema, d, NewDoc(schema), rest, key, def);
    InsertRun(schema, RunRow(schema, Some(d), rest, key), m, key);
    assert Once(schema, once, items, later) != once;
  }

  lemma QuietFront(schema: Schema, row: Option<Doc>, front: seq<Object>, key: string)
    requires !Touches(schema, front, key)
    ensures RunRow(schema, row, front, key) == row
  {
    QuietRun(schema, row, front, key);
  }

  lemma PkIsKeyType(schema: Schema, obj: Object)
    requires ExtractPk(schema, obj).Ok?
    ensures FindField(schema, schema.pk).Some? && KeyType(FindField(schema, schema.pk).value.ty)
  {
    hide Lookup, Convert, FindField;
  }

  /** The INSERT names its row, and the key of a schema without appendable fields is a scalar. */
  lemma NamesRow(schema: Schema, items: seq<Json>, i: nat)
    requires OneUnsteady(schema, items, i)
    ensures UsablePk(schema)
  {
    hide ExtractPk, FindField, GoodSchema, SteadyItems, GoodItems, NoneThrows, Steady;
    UnsteadyObject(schema, map[], items[i].members);
    PkIsKeyType(schema, items[i].members);
    var def := FindField(schema, schema.pk).value;
    var j :| 0 <= j < |schema.fields| && schema.fields[j] == def;
    assert !Appendable(schema.fields[j]);
  }

  // ─── Exactly when ──────────────────────────────────────────────────────────

  /**
   A batch may be delivered again exactly if its front decides whether the INSERT
   finds its key, or the rest leaves the INSERT's own row alone and whatever it does
   to any other row the front has done already.
   */
  lemma RedeliverySafeIff(schema: Schema, items: seq<Json>, i: nat)
    requires OneUnsteady(schema, items, i)
    ensures
      var front, rest, key := Front(schema, items, i), Remainder(schema, items, i), KeyAt(schema, items, i);
      RedeliverySafe(schema, items) <==>
        || Touches(schema, front, key)
        || (LeavesKey(schema, rest, key) && forall k :: k != key ==> Covers(schema, front, rest, k))
  {
    hide RedeliverySafe, OneUnsteady, UsablePk, Touches, LeavesKey, Covers, Objects, Steady, SteadyItems, NoneThrows;
    FirstOf(schema, items, i);
    var front, rest, key := Front(schema, items, i), Remainder(schema, items, i), KeyAt(schema, items, i);
    NamesRow(schema, items, i);
    if Touches(schema, front, key) {
      DecidedIsSafe(schema, items, i);
    } else if LeavesKey(schema, rest, key) {
      if RedeliverySafe(schema, items) {
        forall k | k != key ensures Covers(schema, front, rest, k) {
          SafeCovers(schema, items, i, k);
        }
      }
      if forall k :: k != key ==> Covers(schema, front, rest, k) {
        ConditionIsSafe(schema, items, i);
      }
    } else {
      SafeLeavesKey(schema, items, i);
    }
  }

  lemma FirstOf(schema: Schema, items: seq<Json>, i: nat)
    requires OneUnsteady(schema, items, i)
    ensures i < |items| && FirstUnsteady(schema, items, i)
  {
  }

  /** If front and rest have no row in common, and neither touches the INSERT's, the rest may not touch anything. */
  lemma DisjointSafeIff(schema: Schema, items: seq<Json>, i: nat)
    requires OneUnsteady(schema, items, i)
    requires
      var front, rest, key := Front(schema, items, i), Remainder(schema, items, i), KeyAt(schema, items, i);
      && !Touches(schema, front, key) && !Touches(schema, rest, key)
      && forall k :: !Touches(schema, front, k) || !Touches(schema, rest, k)
    ensures RedeliverySafe(schema, items) <==> forall k :: !Touches(schema, Remainder(schema, items, i), k)
  {
    hide RedeliverySafe, UsablePk, Touches, LeavesKey, Covers, Objects, Steady, SteadyItems, NoneThrows, GoodItems, Replayable;
    var front, rest, key := Front(schema, items, i), Remainder(schema, items, i), KeyAt(schema, items, i);
    RedeliverySafeIff(schema, items, i);
    PartsAreGood(schema, items, i);
    forall k ensures Covers(schema, front, rest, k) <==> !Touches(schema, rest, k) {
      UntouchedCovers(schema, front, rest, k);
    }
    UntouchedLeaves(schema, rest, key);
  }

  lemma UntouchedLeaves(schema: Schema, rest: seq<Object>, key: string)
    requires !Touches(schema, rest, key)
    ensures LeavesKey(schema, rest, key)
  {
    hide EffectOn, ChangeFor;
    forall i | 0 <= i < |rest| ensures EffectOn(schema, rest[i], key) == Nop {
    }
  }

  // ─── A witness ─────────────────────────────────────────────────────────────

  function KeyField(): (r: FieldDef) {
    FieldDef("k", 0, String, false)
  }

  function NumberField(): (r: FieldDef) {
    FieldDef("n", 1, Int32, false)
  }

  function TwoFields(): (r: Schema) {
    Schema([KeyField(), NumberField()], "k")
  }

  /** An INSERT of key "x" with a string for the number. */
  function BadInsert(): (r: Object) {
    [("_op", JString("insert")), ("k", JString("x")), ("n", JString("?"))]
  }

  lemma FindTwo()
    ensures FindField(TwoFields(), "k") == Some(KeyField()) && FindField(TwoFields(), "n") == Some(NumberField())
  {
    assert TwoFields().fields[1..] == [NumberField()];
  }

  lemma BadInsertThrows()
    ensures OpOf(BadInsert()) == Insert && ExtractPk(TwoFields(), BadInsert()) == Ok("x")
    ensures MergeJson(TwoFields(), NewDoc(TwoFields()), BadInsert()) == Thrown
  {
    hide NewDoc;
    BadInsertKey();
    BadInsertMerge(NewDoc(TwoFields()));
  }

  lemma BadInsertKey()
    ensures OpOf(BadInsert()) == Insert && ExtractPk(TwoFields(), BadInsert()) == Ok("x")
  {
    FindTwo();
    var m := BadInsert();
    var two, one := m[..2], m[..1];
    assert two == [m[0], m[1]] && two[..1] == one == [m[0]] && one[..0] == [];
    assert LowerAll("insert") == "insert";
  }

  lemma BadInsertMerge(d: Doc)
    ensures MergeJson(TwoFields(), d, BadInsert()) == Thrown
  {
    FindTwo();
    hide FindField;
    var m := BadInsert();
    var two, one := m[..2], m[..1];
    assert two == [m[0], m[1]] && two[..1] == one == [m[0]] && one[..0] == [];
    assert MergeJson(TwoFields(), d, one) == Ok(d);
    assert MergeJson(TwoFields(), d, two).Ok?;
  }

  function Batch(): (r: seq<Json>) {
    [JObject(BadInsert()), JObject([("k", JString("y"))])]
  }

  lemma UpsertOfY()
    ensures
      var y: Object := [("k", JString("y"))];
      && EffectOn(TwoFields(), y, "y") == Ups && (forall k :: k != "y" ==> EffectOn(TwoFields(), y, k) == Nop)
      && UniqueKeys(y) && Steady(TwoFields(), y) && !Throws(TwoFields(), y)
  {
    var schema, y: Object := TwoFields(), [("k", JString("y"))];
    FindTwo();
    assert y[..0] == [];
    assert ExtractPk(schema, y) == Ok("y") && OpOf(y) == Upsert;
    assert KeyOnly(schema, y) == y;
    KeyOnlyUpserts(schema, y, "y");
  }

  lemma BadIsUnsteady()
    ensures UniqueKeys(BadInsert()) && !Steady(TwoFields(), BadInsert()) && ExtractPk(TwoFields(), BadInsert()) == Ok("x")
  {
    BadInsertThrows();
    hide NewDoc, MergeJson, ExtractPk, OpOf;
  }

  /** A payload of one message that does not throw. */
  lemma OneObject(schema: Schema, y: Object)
    requires !Throws(schema, y)
    ensures Objects(schema, [JObject(y)]) == [y] && Objects(schema, []) == []
  {
    hide Throws;
    assert [JObject(y)][1..] == [] && [y] + [] == [y];
  }

  lemma BatchParts()
    ensures OneUnsteady(TwoFields(), Batch(), 0) && KeyAt(TwoFields(), Batch(), 0) == "x"
    ensures Front(TwoFields(), Batch(), 0) == [] && Remainder(TwoFields(), Batch(), 0) == [[("k", JString("y"))]]
  {
    hide BadInsert, NewDoc, MergeJson, ExtractPk, OpOf, Steady, Throws, UniqueKeys, Objects, EffectOn;
    var y: Object, batch := [("k", JString("y"))], Batch();
    BadIsUnsteady();
    UpsertOfY();
    OneObject(TwoFields(), y);
    assert batch[..0] == [] && batch[1..] == [JObject(y)];
  }

  /** The law bites: a batch of an ill-typed INSERT of "x" and an upsert of "y" may not be delivered again. */
  lemma UnsteadyInsert()
    ensures OneUnsteady(TwoFields(), Batch(), 0) && !RedeliverySafe(TwoFields(), Batch())
  {
    hide EffectOn, TwoFields, Batch, OneUnsteady, RedeliverySafe, Objects, FirstUnsteady;
    var schema, y: Object := TwoFields(), [("k", JString("y"))];
    BatchParts();
    UpsertOfY();
    FirstOf(schema, Batch(), 0);
    var rest := Remainder(schema, Batch(), 0);
    assert rest[0] == y && Touches(schema, rest, "y");
    forall k ensures !Touches(schema, [], k) && (k != "y" ==> !Touches(schema, rest, k)) {
    }
    DisjointSafeIff(schema, Batch(), 0);
  }
}
