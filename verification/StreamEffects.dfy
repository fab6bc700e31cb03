/**
 What a sequence of messages does to one row, whatever the row holds: which fields
 it fixes, whether it decides that the row is there, and from that exactly which
 sequences are absorbed by what was applied before.
 */
module StreamEffects {
  import opened Wrappers
  import opened StreamIngest
  import opened StreamLaws
  import opened StreamReplay

  // ─── Presence ──────────────────────────────────────────────────────────────

  predicate Touches(schema: Schema, log: seq<Object>, key: string) {
    !NoWrite(schema, log, key) || !NoDelete(schema, log, key)
  }

  lemma {:induction false} SamePresence(schema: Schema, r1: Option<Doc>, r2: Option<Doc>, log: seq<Object>, key: string)
    requires r1.Some? == r2.Some?
    ensures RunRow(schema, r1, log, key).Some? == RunRow(schema, r2, log, key).Some?
    decreases |log|
  {
    hide EffectOn, MergeInto, NewDoc;
    if log != [] {
      SamePresence(schema, RowAfter(schema, r1, log[0], key), RowAfter(schema, r2, log[0], key), log[1..], key);
    }
  }

  /** Messages that touch a row decide whether it is there afterwards. */
  lemma {:induction false} TouchDecides(schema: Schema, r1: Option<Doc>, r2: Option<Doc>, log: seq<Object>, key: string)
    requires Touches(schema, log, key)
    ensures RunRow(schema, r1, log, key).Some? == RunRow(schema, r2, log, key).Some?
    decreases |log|
  {
    hide EffectOn, MergeInto, NewDoc;
    var r1', r2' := RowAfter(schema, r1, log[0], key), RowAfter(schema, r2, log[0], key);
    if EffectOn(schema, log[0], key) == Nop {
      assert Touches(schema, log[1..], key) by {
        forall i | 0 <= i < |log| && EffectOn(schema, log[i], key) != Nop ensures i > 0 && log[1..][i - 1] == log[i] {
        }
      }
      TouchDecides(schema, r1', r2', log[1..], key);
    } else {
      SamePresence(schema, r1', r2', log[1..], key);
    }
  }

  lemma {:induction false} StaysPresent(schema: Schema, row: Option<Doc>, log: seq<Object>, key: string)
    requires row.Some? && NoDelete(schema, log, key)
    ensures RunRow(schema, row, log, key).Some?
    decreases |log|
  {
    hide EffectOn, MergeInto, NewDoc;
    if log != [] {
      assert EffectOn(schema, log[0], key) != Del;
      StaysPresent(schema, RowAfter(schema, row, log[0], key), log[1..], key);
    }
  }

  lemma {:induction false} RunRowGood(schema: Schema, row: Option<Doc>, log: seq<Object>, key: string)
    requires GoodSchema(schema) && GoodLog(log) && GoodRow(schema, row)
    ensures GoodRow(schema, RunRow(schema, row, log, key))
    decreases |log|
  {
    hide EffectOn, MergeInto, NewDoc, WellShaped, UniqueKeys, GoodSchema;
    if log != [] {
      NewDocDefault(schema);
      MergedShape(schema, if row.Some? then row.value else NewDoc(schema), log[0]);
      MergedShape(schema, NewDoc(schema), log[0]);
      RunRowGood(schema, RowAfter(schema, row, log[0], key), log[1..], key);
    }
  }

  // ─── Fields that a sequence fixes ──────────────────────────────────────────

  /** An upsert of the row that sets the field. */
  predicate Sets(schema: Schema, obj: Object, key: string, def: FieldDef) {
    EffectOn(schema, obj, key) == Ups && ChangeFor(obj, def) != Ok(Keep)
  }

  predicate SomeSets(schema: Schema, log: seq<Object>, key: string, def: FieldDef) {
    exists i :: 0 <= i < |log| && Sets(schema, log[i], key, def)
  }

  /** The field of a present row ends at a value that does not depend on the row. */
  predicate Fixes(schema: Schema, log: seq<Object>, key: string, def: FieldDef) {
    !NoDelete(schema, log, key) || SomeSets(schema, log, key, def)
  }

  lemma NoDeleteRest(schema: Schema, log: seq<Object>, key: string)
    requires log != [] && NoDelete(schema, log, key)
    ensures EffectOn(schema, log[0], key) != Del && NoDelete(schema, log[1..], key)
  {
    hide EffectOn;
    forall i | 0 <= i < |log[1..]| ensures EffectOn(schema, log[1..][i], key) != Del {
      assert log[1..][i] == log[i + 1];
    }
  }

  /** The slot of a field after one message that does not delete the row. */
  lemma SlotAfter(schema: Schema, d: Doc, obj: Object, key: string, def: FieldDef)
    requires GoodSchema(schema) && UniqueKeys(obj) && WellShaped(schema, d) && def in schema.fields && EffectOn(schema, obj, key) != Del
    ensures
      var r := RowAfter(schema, Some(d), obj, key);
      && r.Some? && WellShaped(schema, r.value)
      && (EffectOn(schema, obj, key) == Ups ==> ChangeFor(obj, def).Ok? && SlotOf(r.value, def) == Changed(SlotOf(d, def), ChangeFor(obj, def).value))
      && (EffectOn(schema, obj, key) != Ups ==> r == Some(d))
  {
    hide EffectOn, NewDoc, WellShaped, UniqueKeys, GoodSchema, ChangeFor, Changed, SlotOf, MergeJson;
    MergedShape(schema, d, obj);
    if EffectOn(schema, obj, key) == Ups {
      UpsMerges(schema, obj, key, d);
      ShapeTotal(schema, d);
      MergePointwise(schema, d, obj, def);
    }
  }

  lemma SetsOverwrites(schema: Schema, obj: Object, key: string, def: FieldDef, s: Slot, t: Slot)
    requires ScalarSchema(schema) && def in schema.fields && ChangeFor(obj, def).Ok? && ChangeFor(obj, def) != Ok(Keep)
    ensures Changed(s, ChangeFor(obj, def).value) == Changed(t, ChangeFor(obj, def).value)
  {
    hide ChangeFor;
    ScalarChange(schema, obj, def);
  }

  /** Equal slots stay equal. */
  lemma {:induction false} SlotFollows(schema: Schema, a: Doc, b: Doc, log: seq<Object>, key: string, def: FieldDef)
    requires Replayable(schema) && GoodLog(log) && WellShaped(schema, a) && WellShaped(schema, b) && def in schema.fields
    requires NoDelete(schema, log, key) && SlotOf(a, def) == SlotOf(b, def)
    ensures
      var x, y := RunRow(schema, Some(a), log, key), RunRow(schema, Some(b), log, key);
      x.Some? && y.Some? && SlotOf(x.value, def) == SlotOf(y.value, def)
    decreases |log|
  {
    hide EffectOn, NewDoc, WellShaped, UniqueKeys, GoodSchema, GoodPk, ScalarSchema, ChangeFor, Changed, SlotOf, RowAfter, NoDelete;
    if log != [] {
      NoDeleteRest(schema, log, key);
      SlotAfter(schema, a, log[0], key, def);
      SlotAfter(schema, b, log[0], key, def);
      SlotFollows(schema, RowAfter(schema, Some(a), log[0], key).value, RowAfter(schema, Some(b), log[0], key).value, log[1..], key, def);
    }
  }

  lemma {:induction false} SetSlot(schema: Schema, a: Doc, b: Doc, log: seq<Object>, key: string, def: FieldDef, i: nat)
    requires Replayable(schema) && GoodLog(log) && WellShaped(schema, a) && WellShaped(schema, b) && def in schema.fields
    requires NoDelete(schema, log, key) && i < |log| && Sets(schema, log[i], key, def)
    ensures
      var x, y := RunRow(schema, Some(a), log, key), RunRow(schema, Some(b), log, key);
      x.Some? && y.Some? && SlotOf(x.value, def) == SlotOf(y.value, def)
    decreases |log|
  {
    hide EffectOn, NewDoc, WellShaped, UniqueKeys, GoodSchema, GoodPk, ScalarSchema, ChangeFor, Changed, SlotOf, RowAfter, NoDelete;
    NoDeleteRest(schema, log, key);
    SlotAfter(schema, a, log[0], key, def);
    SlotAfter(schema, b, log[0], key, def);
    var a', b' := RowAfter(schema, Some(a), log[0], key).value, RowAfter(schema, Some(b), log[0], key).value;
    if i == 0 {
      SetsOverwrites(schema, log[0], key, def, SlotOf(a, def), SlotOf(b, def));
      SlotFollows(schema, a', b', log[1..], key, def);
    } else {
      assert log[1..][i - 1] == log[i];
      SetSlot(schema, a', b', log[1..], key, def, i - 1);
    }
  }

  /** A fixed field does not depend on the row. */
  lemma FixedSlot(schema: Schema, a: Doc, b: Doc, log: seq<Object>, key: string, def: FieldDef)
    requires Replayable(schema) && GoodLog(log) && WellShaped(schema, a) && WellShaped(schema, b) && def in schema.fields
    requires Fixes(schema, log, key, def)
    ensures
      var x, y := RunRow(schema, Some(a), log, key), RunRow(schema, Some(b), log, key);
      x.Some? == y.Some? && (x.Some? ==> SlotOf(x.value, def) == SlotOf(y.value, def))
  {
    hide WellShaped, GoodLog, Replayable, SlotOf, RunRow, NoDelete, Sets;
    if !NoDelete(schema, log, key) {
      DeleteForgets(schema, Some(a), Some(b), log, key);
    } else {
      var i :| 0 <= i < |log| && Sets(schema, log[i], key, def);
      SetSlot(schema, a, b, log, key, def, i);
    }
  }

  /** Any other field keeps what the row held. */
  lemma {:induction false} KeptSlot(schema: Schema, a: Doc, log: seq<Object>, key: string, def: FieldDef)
    requires Replayable(schema) && GoodLog(log) && WellShaped(schema, a) && def in schema.fields && !Fixes(schema, log, key, def)
    ensures
      var x := RunRow(schema, Some(a), log, key);
      x.Some? && SlotOf(x.value, def) == SlotOf(a, def)
    decreases |log|
  {
    hide EffectOn, NewDoc, WellShaped, UniqueKeys, GoodSchema, GoodPk, ScalarSchema, ChangeFor, SlotOf, RowAfter, NoDelete, Changed;
    if log != [] {
      NoDeleteRest(schema, log, key);
      SlotAfter(schema, a, log[0], key, def);
      assert !Sets(schema, log[0], key, def);
      KeepIsKeep(SlotOf(a, def));
      forall i | 0 <= i < |log[1..]| ensures !Sets(schema, log[1..][i], key, def) {
        assert log[1..][i] == log[i + 1];
      }
      KeptSlot(schema, RowAfter(schema, Some(a), log[0], key).value, log[1..], key, def);
    }
  }

  // ─── A field can hold two values ───────────────────────────────────────────

  /** Only an array of Bool has a single well-shaped value. */
  predicate TwoValued(def: FieldDef) {
    !(def.isArray && def.ty == Bool)
  }

  /** A row that differs in one field from a given slot. */
  lemma OtherDoc(schema: Schema, def: FieldDef, s: Slot) returns (d: Doc)
    requires GoodSchema(schema) && def in schema.fields && TwoValued(def)
    ensures WellShaped(schema, d) && SlotOf(d, def) != s
  {
    NewDocDefault(schema);
    d := NewDoc(schema);
    if SlotOf(d, def) == s {
      var t := if def.isArray then Array([CInt(0)]) else if s == Scalar(CInt(0)) then Scalar(CInt(1)) else Scalar(CInt(0));
      ReplaceSlot(schema, d, def, t);
      d := d[def.id := t];
    }
  }

  lemma ReplaceSlot(schema: Schema, d: Doc, def: FieldDef, t: Slot)
    requires GoodSchema(schema) && WellShaped(schema, d) && def in schema.fields && ShapedSlot(def, t)
    ensures WellShaped(schema, d[def.id := t]) && SlotOf(d[def.id := t], def) == t
  {
    FieldUnique(schema, def);
    var d' := d[def.id := t];
    forall i | 0 <= i < |schema.fields| ensures ShapedSlot(schema.fields[i], SlotOf(d', schema.fields[i])) {
    }
  }

  lemma OneValue(schema: Schema, a: Doc, b: Doc, def: FieldDef)
    requires WellShaped(schema, a) && WellShaped(schema, b) && def in schema.fields && !TwoValued(def)
    ensures SlotOf(a, def) == SlotOf(b, def)
  {
    hide WellShaped, SlotOf;
    ShapedAt(schema, a, def);
    ShapedAt(schema, b, def);
  }

  // ─── Absorbed by what came before ──────────────────────────────────────────

  /** The rest changes nothing after the front. */
  predicate AbsorbedAt(schema: Schema, front: seq<Object>, rest: seq<Object>, key: string, row: Option<Doc>) {
    RunRow(schema, RunRow(schema, row, front, key), rest, key) == RunRow(schema, row, front, key)
  }

  ghost predicate AlwaysAbsorbed(schema: Schema, front: seq<Object>, rest: seq<Object>, key: string) {
    forall row :: GoodRow(schema, row) ==> AbsorbedAt(schema, front, rest, key, row)
  }

  /** Every field the second sequence fixes is fixed by the first. */
  predicate FixesNoMore(schema: Schema, first: seq<Object>, second: seq<Object>, key: string) {
    forall i :: 0 <= i < |schema.fields| && TwoValued(schema.fields[i]) && Fixes(schema, second, key, schema.fields[i]) ==>
      Fixes(schema, first, key, schema.fields[i])
  }

  /** Decided by the messages and two rows: none, and one with defaults. */
  predicate Covers(schema: Schema, front: seq<Object>, rest: seq<Object>, key: string) {
    && AbsorbedAt(schema, front, rest, key, None) && AbsorbedAt(schema, front, rest, key, Some(NewDoc(schema)))
    && FixesNoMore(schema, front, rest, key)
  }

  lemma CoveredRow(schema: Schema, front: seq<Object>, rest: seq<Object>, key: string, x: Doc)
    requires Replayable(schema) && GoodLog(front) && GoodLog(rest) && Covers(schema, front, rest, key) && WellShaped(schema, x)
    ensures AbsorbedAt(schema, front, rest, key, Some(x))
  {
    hide WellShaped, GoodLog, GoodSchema, GoodPk, ScalarSchema, SlotOf, RunRow, NoDelete, SomeSets, NewDoc, TwoValued;
    if !NoDelete(schema, front, key) {
      DeleteForgets(schema, Some(x), None, front, key);
    } else {
      NewDocDefault(schema);
      StaysPresent(schema, Some(x), front, key);
      StaysPresent(schema, Some(NewDoc(schema)), front, key);
      RunRowGood(schema, Some(x), front, key);
      RunRowGood(schema, Some(NewDoc(schema)), front, key);
      var y, n := RunRow(schema, Some(x), front, key).value, RunRow(schema, Some(NewDoc(schema)), front, key).value;
      SamePresence(schema, Some(y), Some(n), rest, key);
      RunRowGood(schema, Some(y), rest, key);
      var z := RunRow(schema, Some(y), rest, key).value;
      forall def | def in schema.fields ensures SlotOf(z, def) == SlotOf(y, def) {
        if Fixes(schema, rest, key, def) {
          FixedSlot(schema, y, n, rest, key, def);
          if TwoValued(def) {
            FixedSlot(schema, x, NewDoc(schema), front, key, def);
          } else {
            OneValue(schema, y, n, def);
          }
        } else {
          KeptSlot(schema, y, rest, key, def);
        }
      }
      ShapeTotal(schema, y);
      ShapeTotal(schema, z);
      SameSlots(schema, z, y);
    }
  }

  lemma UncoveredField(schema: Schema, front: seq<Object>, rest: seq<Object>, key: string, def: FieldDef) returns (x: Doc)
    requires Replayable(schema) && GoodLog(front) && GoodLog(rest) && def in schema.fields && TwoValued(def)
    requires Fixes(schema, rest, key, def) && !Fixes(schema, front, key, def)
    ensures WellShaped(schema, x) && !AbsorbedAt(schema, front, rest, key, Some(x))
  {
    hide WellShaped, GoodLog, GoodSchema, GoodPk, ScalarSchema, SlotOf, RunRow, NoDelete, SomeSets, NewDoc, TwoValued;
    NewDocDefault(schema);
    var n := RunRow(schema, Some(NewDoc(schema)), rest, key);
    x := OtherDoc(schema, def, if n.Some? then SlotOf(n.value, def) else Array([]));
    KeptSlot(schema, x, front, key, def);
    var y := RunRow(schema, Some(x), front, key).value;
    RunRowGood(schema, Some(x), front, key);
    FixedSlot(schema, y, NewDoc(schema), rest, key, def);
  }

  /** The condition is exact. */
  lemma AbsorbedIff(schema: Schema, front: seq<Object>, rest: seq<Object>, key: string)
    requires Replayable(schema) && GoodLog(front) && GoodLog(rest)
    ensures AlwaysAbsorbed(schema, front, rest, key) <==> Covers(schema, front, rest, key)
  {
    hide AbsorbedAt, WellShaped, GoodLog, Fixes, NewDoc, Replayable, TwoValued;
    if Covers(schema, front, rest, key) {
      forall row | GoodRow(schema, row) ensures AbsorbedAt(schema, front, rest, key, row) {
        if row.Some? {
          CoveredRow(schema, front, rest, key, row.value);
        }
      }
    } else {
      NewShaped(schema);
      assert GoodRow(schema, None) && GoodRow(schema, Some(NewDoc(schema)));
      if AbsorbedAt(schema, front, rest, key, None) && AbsorbedAt(schema, front, rest, key, Some(NewDoc(schema))) {
        var i :| 0 <= i < |schema.fields| && TwoValued(schema.fields[i]) && Fixes(schema, rest, key, schema.fields[i]) && !Fixes(schema, front, key, schema.fields[i]);
        var x := UncoveredField(schema, front, rest, key, schema.fields[i]);
        assert GoodRow(schema, Some(x)) && !AbsorbedAt(schema, front, rest, key, Some(x));
      }
    }
  }

  lemma NewShaped(schema: Schema)
    requires Replayable(schema)
    ensures WellShaped(schema, NewDoc(schema)) && GoodSchema(schema)
  {
    NewDocDefault(schema);
  }

  /** Without touching there is nothing to absorb; and a front that does not touch absorbs nothing else. */
  lemma UntouchedCovers(schema: Schema, front: seq<Object>, rest: seq<Object>, key: string)
    requires Replayable(schema) && GoodLog(front) && GoodLog(rest) && (!Touches(schema, front, key) || !Touches(schema, rest, key))
    ensures Covers(schema, front, rest, key) <==> !Touches(schema, rest, key)
  {
    hide WellShaped, GoodLog, GoodSchema, GoodPk, ScalarSchema, RunRow, NoDelete, NoWrite, NewDoc, Fixes, FixesNoMore;
    if !Touches(schema, rest, key) {
      forall row | GoodRow(schema, row) ensures AbsorbedAt(schema, front, rest, key, row) {
        QuietRun(schema, RunRow(schema, row, front, key), rest, key);
      }
      AbsorbedIff(schema, front, rest, key);
    } else {
      QuietRun(schema, None, front, key);
      QuietRun(schema, Some(NewDoc(schema)), front, key);
      TouchDecides(schema, None, Some(NewDoc(schema)), rest, key);
    }
  }

  // ─── Replayed after something else ─────────────────────────────────────────

  /** Replaying from the first of all messages changes nothing. */
  lemma ReplayAll(schema: Schema, idx: Index, log: seq<Object>)
    requires Replayable(schema) && GoodLog(log) && GoodIndex(schema, idx)
    ensures RunObjects(schema, RunObjects(schema, idx, log), log) == RunObjects(schema, idx, log)
  {
    hide Replayable, GoodLog, GoodIndex, RunObjects;
    ReplayIsIdempotent(schema, idx, log, 0);
    assert log[0..] == log;
  }

  lemma ReplayRow(schema: Schema, row: Option<Doc>, log: seq<Object>, key: string)
    requires Replayable(schema) && GoodLog(log) && GoodRow(schema, row)
    ensures RunRow(schema, RunRow(schema, row, log, key), log, key) == RunRow(schema, row, log, key)
  {
    hide GoodSchema, GoodPk, ScalarSchema, GoodLog, WellShaped, RunObjects, RunRow;
    var idx: Index := if row.Some? then map[key := row.value] else map[];
    assert Row(idx, key) == row;
    ReplayAll(schema, idx, log);
    RunIsByRow(schema, idx, log, key);
    RunIsByRow(schema, RunObjects(schema, idx, log), log, key);
  }

  /** A field that is set does not depend on whether the row was there either. */
  lemma {:induction false} SetFromNone(schema: Schema, x: Doc, log: seq<Object>, key: string, def: FieldDef, i: nat)
    requires Replayable(schema) && GoodLog(log) && WellShaped(schema, x) && def in schema.fields
    requires NoDelete(schema, log, key) && i < |log| && Sets(schema, log[i], key, def)
    ensures
      var n, y := RunRow(schema, None, log, key), RunRow(schema, Some(x), log, key);
      n.Some? && y.Some? && SlotOf(n.value, def) == SlotOf(y.value, def)
    decreases |log|
  {
    hide EffectOn, NewDoc, WellShaped, UniqueKeys, GoodSchema, GoodPk, ScalarSchema, ChangeFor, Changed, SlotOf, NoDelete, MergeInto;
    NoDeleteRest(schema, log, key);
    NewDocDefault(schema);
    SlotAfter(schema, x, log[0], key, def);
    SlotAfter(schema, NewDoc(schema), log[0], key, def);
    MergedShape(schema, NewDoc(schema), log[0]);
    var n, y := RowAfter(schema, None, log[0], key), RowAfter(schema, Some(x), log[0], key).value;
    if i == 0 {
      SetsOverwrites(schema, log[0], key, def, SlotOf(NewDoc(schema), def), SlotOf(x, def));
      SlotFollows(schema, n.value, y, log[1..], key, def);
    } else {
      assert log[1..][i - 1] == log[i];
      if n.Some? {
        SetSlot(schema, n.value, y, log[1..], key, def, i - 1);
      } else {
        SetFromNone(schema, y, log[1..], key, def, i - 1);
      }
    }
  }

  /** After messages that set every field, and delete nothing, the row is always the same. */
  lemma AllSet(schema: Schema, row: Option<Doc>, x: Doc, log: seq<Object>, key: string, pk: FieldDef)
    requires Replayable(schema) && GoodLog(log) && GoodRow(schema, row) && WellShaped(schema, x) && NoDelete(schema, log, key)
    requires forall def :: def in schema.fields && TwoValued(def) ==> SomeSets(schema, log, key, def)
    requires pk in schema.fields && TwoValued(pk)
    ensures RunRow(schema, row, log, key) == RunRow(schema, Some(x), log, key)
  {
    hide WellShaped, GoodLog, GoodSchema, GoodPk, ScalarSchema, SlotOf, RunRow, NoDelete, Sets, TwoValued;
    RunRowGood(schema, row, log, key);
    RunRowGood(schema, Some(x), log, key);
    forall def | def in schema.fields && TwoValued(def)
      ensures
        var a, b := RunRow(schema, row, log, key), RunRow(schema, Some(x), log, key);
        a.Some? && b.Some? && SlotOf(a.value, def) == SlotOf(b.value, def)
    {
      var i :| 0 <= i < |log| && Sets(schema, log[i], key, def);
      if row.Some? {
        SetSlot(schema, row.value, x, log, key, def, i);
      } else {
        SetFromNone(schema, x, log, key, def, i);
      }
    }
    assert RunRow(schema, row, log, key).Some? && RunRow(schema, Some(x), log, key).Some?;
    var a, b := RunRow(schema, row, log, key).value, RunRow(schema, Some(x), log, key).value;
    forall def | def in schema.fields ensures SlotOf(a, def) == SlotOf(b, def) {
      if !TwoValued(def) {
        OneValue(schema, a, b, def);
      }
    }
    ShapeTotal(schema, a);
    ShapeTotal(schema, b);
    SameSlots(schema, a, b);
  }

  /** The row after `done`, then `extra` and all of `done + todo`, is the row after `done + todo`. */
  predicate UndoneAt(schema: Schema, done: seq<Object>, extra: seq<Object>, todo: seq<Object>, key: string, row: Option<Doc>) {
    RunRow(schema, RunRow(schema, row, done, key), extra + (done + todo), key) == RunRow(schema, row, done + todo, key)
  }

  ghost predicate AlwaysUndone(schema: Schema, done: seq<Object>, extra: seq<Object>, todo: seq<Object>, key: string) {
    forall row :: GoodRow(schema, row) ==> UndoneAt(schema, done, extra, todo, key, row)
  }

  /** Decided by the messages and the absent row. */
  predicate Undoes(schema: Schema, done: seq<Object>, extra: seq<Object>, todo: seq<Object>, key: string) {
    || !NoDelete(schema, done + todo, key)
    || (FixesNoMore(schema, done + todo, extra, key) && UndoneAt(schema, done, extra, todo, key, None))
  }

  /** A message that deletes a row names it by a scalar or array field of a key type. */
  lemma DeleteHasPk(schema: Schema, log: seq<Object>, key: string) returns (pk: FieldDef)
    requires !NoDelete(schema, log, key)
    ensures pk in schema.fields && TwoValued(pk)
  {
    hide OpOf, Convert, Lookup, MergeJson, FindField;
    var i :| 0 <= i < |log| && EffectOn(schema, log[i], key) == Del;
    pk := FindField(schema, schema.pk).value;
  }

  /** `extra` runs over a row without deleting it; the later run hides what it fixed. */
  lemma HiddenExtra(schema: Schema, x: Doc, extra: seq<Object>, all: seq<Object>, key: string)
    requires Replayable(schema) && GoodLog(extra) && GoodLog(all) && WellShaped(schema, x)
    requires NoDelete(schema, extra, key) && NoDelete(schema, all, key) && FixesNoMore(schema, all, extra, key)
    ensures RunRow(schema, RunRow(schema, Some(x), extra, key), all, key) == RunRow(schema, Some(x), all, key)
  {
    hide WellShaped, GoodLog, GoodSchema, GoodPk, ScalarSchema, SlotOf, RunRow, NoDelete, SomeSets, TwoValued;
    StaysPresent(schema, Some(x), extra, key);
    StaysPresent(schema, Some(x), all, key);
    RunRowGood(schema, Some(x), extra, key);
    RunRowGood(schema, Some(x), all, key);
    var z := RunRow(schema, Some(x), extra, key).value;
    StaysPresent(schema, Some(z), all, key);
    RunRowGood(schema, Some(z), all, key);
    var a, b := RunRow(schema, Some(z), all, key).value, RunRow(schema, Some(x), all, key).value;
    forall def | def in schema.fields ensures SlotOf(a, def) == SlotOf(b, def) {
      if Fixes(schema, all, key, def) {
        FixedSlot(schema, z, x, all, key, def);
      } else if Fixes(schema, extra, key, def) {
        OneValue(schema, a, b, def);
      } else {
        KeptSlot(schema, x, extra, key, def);
        SlotFollows(schema, z, x, all, key, def);
      }
    }
    ShapeTotal(schema, a);
    ShapeTotal(schema, b);
    SameSlots(schema, a, b);
  }

  /** A row that is there ends as without the extra messages. */
  lemma UndoneRow(schema: Schema, extra: seq<Object>, all: seq<Object>, key: string, x: Doc)
    requires Replayable(schema) && GoodLog(extra) && GoodLog(all) && WellShaped(schema, x)
    requires NoDelete(schema, all, key) && FixesNoMore(schema, all, extra, key)
    ensures RunRow(schema, RunRow(schema, Some(x), extra, key), all, key) == RunRow(schema, Some(x), all, key)
  {
    hide WellShaped, GoodLog, GoodSchema, GoodPk, ScalarSchema, RunRow, NoDelete, Sets, TwoValued;
    if NoDelete(schema, extra, key) {
      HiddenExtra(schema, x, extra, all, key);
    } else {
      var pk := DeleteHasPk(schema, extra, key);
      RunRowGood(schema, Some(x), extra, key);
      AllSet(schema, RunRow(schema, Some(x), extra, key), x, all, key, pk);
    }
  }

  lemma LogsGood(a: seq<Object>, b: seq<Object>)
    requires GoodLog(a) && GoodLog(b)
    ensures GoodLog(a + b)
  {
  }

  /** What is done is absorbed by doing all of it again. */
  lemma DoneAbsorbed(schema: Schema, done: seq<Object>, todo: seq<Object>, key: string, row: Option<Doc>)
    requires Replayable(schema) && GoodLog(done) && GoodLog(todo) && GoodRow(schema, row)
    ensures RunRow(schema, RunRow(schema, row, done, key), done + todo, key) == RunRow(schema, row, done + todo, key)
  {
    hide Replayable, GoodLog, GoodRow, RunRow;
    RunRowConcat(schema, RunRow(schema, row, done, key), done, todo, key);
    RunRowConcat(schema, row, done, todo, key);
    ReplayRow(schema, row, done, key);
  }

  lemma UndoesEveryRow(schema: Schema, done: seq<Object>, extra: seq<Object>, todo: seq<Object>, key: string, row: Option<Doc>)
    requires Replayable(schema) && GoodLog(done) && GoodLog(extra) && GoodLog(todo) && Undoes(schema, done, extra, todo, key) && GoodRow(schema, row)
    ensures UndoneAt(schema, done, extra, todo, key, row)
  {
    hide WellShaped, GoodLog, GoodSchema, GoodPk, ScalarSchema, RunRow, NoDelete, FixesNoMore;
    var all, r1 := done + todo, RunRow(schema, row, done, key);
    LogsGood(done, todo);
    RunRowConcat(schema, r1, extra, all, key);
    if !NoDelete(schema, all, key) {
      DeleteForgets(schema, RunRow(schema, r1, extra, key), row, all, key);
    } else if row.Some? {
      NoDeletePart(schema, done, todo, key);
      StaysPresent(schema, row, done, key);
      RunRowGood(schema, row, done, key);
      UndoneRow(schema, extra, all, key, r1.value);
      DoneAbsorbed(schema, done, todo, key, row);
    }
  }

  lemma NoDeletePart(schema: Schema, a: seq<Object>, b: seq<Object>, key: string)
    requires NoDelete(schema, a + b, key)
    ensures NoDelete(schema, a, key)
  {
    hide EffectOn;
    forall i | 0 <= i < |a| ensures EffectOn(schema, a[i], key) != Del {
      assert (a + b)[i] == a[i];
    }
  }

  lemma NotFixedPart(schema: Schema, a: seq<Object>, b: seq<Object>, key: string, def: FieldDef)
    requires !Fixes(schema, a + b, key, def)
    ensures !Fixes(schema, a, key, def)
  {
    hide Sets, NoDelete;
    NoDeletePart(schema, a, b, key);
    forall i | 0 <= i < |a| ensures !Sets(schema, a[i], key, def) {
      assert (a + b)[i] == a[i];
    }
  }

  /** A field fixed by the extra messages only, and a row that shows it. */
  lemma ShownField(schema: Schema, done: seq<Object>, extra: seq<Object>, todo: seq<Object>, key: string, def: FieldDef) returns (x: Doc)
    requires Replayable(schema) && GoodLog(done) && GoodLog(extra) && GoodLog(todo) && def in schema.fields && TwoValued(def)
    requires Fixes(schema, extra, key, def) && !Fixes(schema, done + todo, key, def)
    ensures WellShaped(schema, x) && !UndoneAt(schema, done, extra, todo, key, Some(x))
  {
    hide WellShaped, GoodLog, GoodSchema, GoodPk, ScalarSchema, SlotOf, RunRow, NoDelete, SomeSets, NewDoc, TwoValued;
    var all := done + todo;
    NewShaped(schema);
    LogsGood(done, todo);
    var e := RunRow(schema, Some(NewDoc(schema)), extra, key);
    var n := RunRow(schema, e, all, key);
    x := OtherDoc(schema, def, if n.Some? then SlotOf(n.value, def) else Array([]));
    NotFixedPart(schema, done, todo, key, def);
    KeptSlot(schema, x, done, key, def);
    KeptSlot(schema, x, all, key, def);
    RunRowGood(schema, Some(x), done, key);
    var x1 := RunRow(schema, Some(x), done, key).value;
    RunRowConcat(schema, Some(x1), extra, all, key);
    FixedSlot(schema, x1, NewDoc(schema), extra, key, def);
    RunRowGood(schema, Some(x1), extra, key);
    RunRowGood(schema, Some(NewDoc(schema)), extra, key);
    if e.Some? {
      SlotFollowsKept(schema, RunRow(schema, Some(x1), extra, key).value, e.value, all, key, def);
    }
  }

  lemma SlotFollowsKept(schema: Schema, a: Doc, b: Doc, log: seq<Object>, key: string, def: FieldDef)
    requires Replayable(schema) && GoodLog(log) && WellShaped(schema, a) && WellShaped(schema, b) && def in schema.fields
    requires !Fixes(schema, log, key, def) && SlotOf(a, def) == SlotOf(b, def)
    ensures
      var x, y := RunRow(schema, Some(a), log, key), RunRow(schema, Some(b), log, key);
      x.Some? && y.Some? && SlotOf(x.value, def) == SlotOf(y.value, def)
  {
    hide WellShaped, GoodLog, SlotOf, RunRow, Fixes;
    KeptSlot(schema, a, log, key, def);
    KeptSlot(schema, b, log, key, def);
  }

  /** The condition is exact. */
  lemma UndoneIff(schema: Schema, done: seq<Object>, extra: seq<Object>, todo: seq<Object>, key: string)
    requires Replayable(schema) && GoodLog(done) && GoodLog(extra) && GoodLog(todo)
    ensures AlwaysUndone(schema, done, extra, todo, key) <==> Undoes(schema, done, extra, todo, key)
  {
    hide UndoneAt, WellShaped, GoodLog, Replayable, TwoValued, SomeSets;
    if Undoes(schema, done, extra, todo, key) {
      forall row | GoodRow(schema, row) ensures UndoneAt(schema, done, extra, todo, key, row) {
        UndoesEveryRow(schema, done, extra, todo, key, row);
      }
    } else {
      assert GoodRow(schema, None);
      if UndoneAt(schema, done, extra, todo, key, None) {
        var i :| 0 <= i < |schema.fields| && TwoValued(schema.fields[i]) && Fixes(schema, extra, key, schema.fields[i]) && !Fixes(schema, done + todo, key, schema.fields[i]);
        var x := ShownField(schema, done, extra, todo, key, schema.fields[i]);
        assert GoodRow(schema, Some(x)) && !UndoneAt(schema, done, extra, todo, key, Some(x));
      }
    }
  }

  /** For a row that `done + todo` does not touch, `extra` may not touch it either. */
  lemma UntouchedUndoes(schema: Schema, done: seq<Object>, extra: seq<Object>, todo: seq<Object>, key: string)
    requires Replayable(schema) && GoodLog(done) && GoodLog(extra) && GoodLog(todo) && !Touches(schema, done + todo, key)
    ensures Undoes(schema, done, extra, todo, key) <==> !Touches(schema, extra, key)
  {
    hide WellShaped, GoodLog, GoodSchema, GoodPk, ScalarSchema, RunRow, NoDelete, NoWrite, NewDoc, Undoes;
    var all := done + todo;
    UndoneIff(schema, done, extra, todo, key);
    forall row ensures UndoneAt(schema, done, extra, todo, key, row) <==> RunRow(schema, row, extra, key) == row {
      QuietRun(schema, row, all, key);
      RunRowConcat(schema, row, done, todo, key);
      QuietPart(schema, row, done, todo, key);
      RunRowConcat(schema, row, extra, all, key);
      QuietRun(schema, RunRow(schema, row, extra, key), all, key);
    }
    if !Touches(schema, extra, key) {
      forall row | GoodRow(schema, row) ensures UndoneAt(schema, done, extra, todo, key, row) {
        QuietRun(schema, row, extra, key);
      }
    } else {
      NewShaped(schema);
      TouchDecides(schema, None, Some(NewDoc(schema)), extra, key);
      assert GoodRow(schema, None) && GoodRow(schema, Some(NewDoc(schema)));
    }
  }

  lemma QuietPart(schema: Schema, row: Option<Doc>, a: seq<Object>, b: seq<Object>, key: string)
    requires !Touches(schema, a + b, key)
    ensures RunRow(schema, row, a, key) == row
  {
    hide EffectOn, RunRow;
    forall i | 0 <= i < |a| ensures EffectOn(schema, a[i], key) == Nop {
      assert (a + b)[i] == a[i];
    }
    QuietRun(schema, row, a, key);
  }

  // ─── Rows that messages made ───────────────────────────────────────────────

  /** A field a message can set, besides the key itself. */
  predicate Settable(schema: Schema, def: FieldDef) {
    !def.isArray && def.name != "_op" && def.name != "_ts" && def.name != schema.pk
  }

  predicate KeyCell(def: FieldDef, s: Slot, key: string) {
    s.Scalar? && KeyOfCell(s.cell) == key && (if def.ty.Int32? || def.ty.Int64? then s.cell.CInt? else s.cell.CStr?)
  }

  predicate MadeSlot(schema: Schema, def: FieldDef, s: Slot, key: string) {
    if def.name == schema.pk then KeyCell(def, s, key) else Settable(schema, def) || s == DefaultSlot(def)
  }

  /** The row holds its key, and defaults where no message can set anything. */
  predicate Made(schema: Schema, d: Doc, key: string) {
    WellShaped(schema, d) && forall i :: 0 <= i < |schema.fields| ==> MadeSlot(schema, schema.fields[i], SlotOf(d, schema.fields[i]), key)
  }

  lemma PkChange(schema: Schema, obj: Object, def: FieldDef, key: string)
    requires GoodSchema(schema) && GoodPk(schema) && def in schema.fields && def.name == schema.pk
    requires ExtractPk(schema, obj) == Ok(key) && ChangeFor(obj, def).Ok?
    ensures ChangeFor(obj, def).value.Overwrite? && KeyCell(def, Scalar(ChangeFor(obj, def).value.cell), key)
  {
    hide Lookup, KeyOfCell, FindField, GoodSchema;
    FieldUnique(schema, def);
  }

  lemma OtherChange(schema: Schema, obj: Object, def: FieldDef)
    requires ScalarSchema(schema) && def in schema.fields && def.name != schema.pk && !Settable(schema, def) && ChangeFor(obj, def).Ok?
    ensures ChangeFor(obj, def).value == Keep
  {
    hide Lookup, Convert, ConvertAll;
    ScalarChange(schema, obj, def);
  }

  lemma MergeMakes(schema: Schema, d: Doc, obj: Object, key: string)
    requires Replayable(schema) && UniqueKeys(obj) && (d == NewDoc(schema) || Made(schema, d, key))
    requires ExtractPk(schema, obj) == Ok(key) && MergeJson(schema, d, obj).Ok?
    ensures Made(schema, MergeInto(schema, d, obj), key)
  {
    hide GoodSchema, GoodPk, ScalarSchema, UniqueKeys, WellShaped, MergeJson, ChangeFor, SlotOf, NewDoc, ExtractPk, KeyCell, DefaultSlot, Settable;
    NewDocDefault(schema);
    MergedShape(schema, d, obj);
    ShapeTotal(schema, d);
    var r := MergeInto(schema, d, obj);
    forall i | 0 <= i < |schema.fields| ensures MadeSlot(schema, schema.fields[i], SlotOf(r, schema.fields[i]), key) {
      var def := schema.fields[i];
      MergePointwise(schema, d, obj, def);
      if def.name == schema.pk {
        PkChange(schema, obj, def, key);
      } else if !Settable(schema, def) {
        OtherChange(schema, obj, def);
      }
    }
  }

  lemma EffectHasKey(schema: Schema, obj: Object, key: string)
    requires EffectOn(schema, obj, key) == Ups || EffectOn(schema, obj, key) == Ins
    ensures ExtractPk(schema, obj) == Ok(key) && forall d :: MergeJson(schema, d, obj).Ok?
  {
    hide ExtractPk, MergeJson, NewDoc, OpOf;
    forall d ensures MergeJson(schema, d, obj).Ok? {
      MergeOutcome(schema, NewDoc(schema), d, obj);
    }
  }

  lemma {:induction false} RunMakes(schema: Schema, row: Option<Doc>, log: seq<Object>, key: string)
    requires Replayable(schema) && GoodLog(log) && (row.Some? ==> Made(schema, row.value, key))
    ensures RunRow(schema, row, log, key).Some? ==> Made(schema, RunRow(schema, row, log, key).value, key)
    decreases |log|
  {
    hide GoodSchema, GoodPk, ScalarSchema, UniqueKeys, Made, EffectOn, MergeInto, NewDoc;
    if log != [] {
      var e := EffectOn(schema, log[0], key);
      if e == Ups || e == Ins {
        EffectHasKey(schema, log[0], key);
        MergeMakes(schema, NewDoc(schema), log[0], key);
        if row.Some? {
          MergeMakes(schema, row.value, log[0], key);
        }
      }
      RunMakes(schema, RowAfter(schema, row, log[0], key), log[1..], key);
    }
  }

  lemma {:induction false} DigitsInjective(m: nat, n: nat)
    requires Digits(m) == Digits(n)
    ensures m == n
    decreases m
  {
    var a, b := Digits(m), Digits(n);
    if m < 10 {
      assert |a| == 1;
      DigitsLong(n);
    } else {
      DigitsLong(m);
      assert n >= 10;
      assert a[..|a| - 1] == Digits(m / 10) && b[..|b| - 1] == Digits(n / 10);
      DigitsInjective(m / 10, n / 10);
      assert a[|a| - 1] == b[|b| - 1];
    }
  }

  lemma DigitsLong(n: nat)
    ensures n >= 10 ==> |Digits(n)| >= 2
  {
  }

  lemma KeyCellUnique(def: FieldDef, s: Slot, t: Slot, key: string)
    requires KeyCell(def, s, key) && KeyCell(def, t, key)
    ensures s == t
  {
    hide Digits;
    if s.cell.CInt? {
      var i, j := s.cell.i, t.cell.i;
      DigitsStart(i);
      DigitsStart(j);
      if i < 0 {
        assert Decimal(i)[1..] == Digits(-i) && Decimal(j)[1..] == Digits(-j);
        DigitsInjective(-i, -j);
      } else {
        DigitsInjective(i, j);
      }
    }
  }

  lemma DigitsStart(i: int)
    ensures (Decimal(i)[0] == '-') == (i < 0)
  {
  }

  /** Two rows made for a key agree where nothing can be set. */
  lemma MadeAgree(schema: Schema, a: Doc, b: Doc, key: string, def: FieldDef)
    requires Made(schema, a, key) && Made(schema, b, key) && def in schema.fields && !Settable(schema, def)
    ensures SlotOf(a, def) == SlotOf(b, def)
  {
    hide WellShaped, SlotOf, KeyCell, Settable, DefaultSlot;
    var i :| 0 <= i < |schema.fields| && schema.fields[i] == def;
    assert MadeSlot(schema, def, SlotOf(a, def), key) && MadeSlot(schema, def, SlotOf(b, def), key);
    if def.name == schema.pk {
      KeyCellUnique(def, SlotOf(a, def), SlotOf(b, def), key);
    }
  }
}
