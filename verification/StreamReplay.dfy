/**
 Replaying parts of a change log.  For a schema without fields that a message can
 append to, any delivery that repeats messages but never skips one converges to
 the index that delivering each message once would give; with one such field it
 need not.
 */
module StreamReplay {
  import opened Wrappers
  import opened StreamIngest
  import opened StreamLaws

  /** An array field that messages append to: arrays of Bool are refused, reserved names skipped. */
  predicate Appendable(def: FieldDef) {
    def.isArray && def.ty != Bool && def.name != "_op" && def.name != "_ts"
  }

  predicate ScalarSchema(schema: Schema) {
    forall i :: 0 <= i < |schema.fields| ==> !Appendable(schema.fields[i])
  }

  /** Everything the replay laws ask of a schema. */
  predicate Replayable(schema: Schema) {
    GoodSchema(schema) && GoodPk(schema) && ScalarSchema(schema)
  }

  predicate GoodLog(log: seq<Object>) {
    forall i :: 0 <= i < |log| ==> UniqueKeys(log[i])
  }

  function RunObjects(schema: Schema, idx: Index, log: seq<Object>): (r: Index)
    decreases |log|
  {
    if log == [] then idx else RunObjects(schema, After(schema, idx, log[0]), log[1..])
  }

  // ─── One row ───────────────────────────────────────────────────────────────

  datatype Effect = Nop | Del | Ins | Ups

  /** What a message can do to the row of `key`, whatever that row holds. */
  function EffectOn(schema: Schema, obj: Object, key: string): (r: Effect) {
    if ExtractPk(schema, obj) != Ok(key) then Nop
    else match OpOf(obj)
      case Delete => Del
      case Unknown => Nop
      case Insert => if MergeJson(schema, NewDoc(schema), obj).Ok? then Ins else Nop
      case Upsert => if MergeJson(schema, NewDoc(schema), obj).Ok? then Ups else Nop
  }

  function MergeInto(schema: Schema, doc: Doc, obj: Object): (r: Doc) {
    var o := MergeJson(schema, doc, obj);
    if o.Ok? then o.value else doc
  }

  function RowAfter(schema: Schema, row: Option<Doc>, obj: Object, key: string): (r: Option<Doc>) {
    match EffectOn(schema, obj, key)
    case Nop => row
    case Del => None
    case Ins => if row.Some? then row else Some(MergeInto(schema, NewDoc(schema), obj))
    case Ups => Some(MergeInto(schema, if row.Some? then row.value else NewDoc(schema), obj))
  }

  function RunRow(schema: Schema, row: Option<Doc>, log: seq<Object>, key: string): (r: Option<Doc>)
    decreases |log|
  {
    if log == [] then row else RunRow(schema, RowAfter(schema, row, log[0], key), log[1..], key)
  }

  lemma AfterRow(schema: Schema, idx: Index, obj: Object, key: string)
    requires GoodSchema(schema) && GoodPk(schema) && UniqueKeys(obj) && GoodIndex(schema, idx)
    ensures Row(After(schema, idx, obj), key) == RowAfter(schema, Row(idx, key), obj, key)
  {
    hide ExtractPk, After, UniqueKeys, GoodSchema, WellShaped, MergeJson, NewDoc, OpOf;
    AfterIsLocal(schema, idx, obj, key);
    if key in idx {
      MergeOutcome(schema, NewDoc(schema), idx[key], obj);
    }
  }

  lemma {:induction false} RunIsByRow(schema: Schema, idx: Index, log: seq<Object>, key: string)
    requires GoodSchema(schema) && GoodPk(schema) && GoodLog(log) && GoodIndex(schema, idx)
    ensures Row(RunObjects(schema, idx, log), key) == RunRow(schema, Row(idx, key), log, key)
    ensures GoodIndex(schema, RunObjects(schema, idx, log))
    decreases |log|
  {
    hide After, GoodSchema, GoodIndex, RowAfter, UniqueKeys;
    if log != [] {
      AfterKeepsGood(schema, idx, log[0]);
      AfterRow(schema, idx, log[0], key);
      RunIsByRow(schema, After(schema, idx, log[0]), log[1..], key);
    }
  }

  lemma {:induction false} RunRowConcat(schema: Schema, row: Option<Doc>, a: seq<Object>, b: seq<Object>, key: string)
    ensures RunRow(schema, row, a + b, key) == RunRow(schema, RunRow(schema, row, a, key), b, key)
    decreases |a|
  {
    hide RowAfter;
    if a == [] {
      assert a + b == b;
    } else {
      assert (a + b)[1..] == a[1..] + b;
      RunRowConcat(schema, RowAfter(schema, row, a[0], key), a[1..], b, key);
    }
  }

  predicate NoDelete(schema: Schema, log: seq<Object>, key: string) {
    forall i :: 0 <= i < |log| ==> EffectOn(schema, log[i], key) != Del
  }

  predicate NoWrite(schema: Schema, log: seq<Object>, key: string) {
    forall i :: 0 <= i < |log| ==> EffectOn(schema, log[i], key) == Nop || EffectOn(schema, log[i], key) == Del
  }

  /** After a delete nothing of the past is left. */
  lemma {:induction false} DeleteForgets(schema: Schema, r1: Option<Doc>, r2: Option<Doc>, log: seq<Object>, key: string)
    requires !NoDelete(schema, log, key)
    ensures RunRow(schema, r1, log, key) == RunRow(schema, r2, log, key)
    decreases |log|
  {
    hide EffectOn;
    var i :| 0 <= i < |log| && EffectOn(schema, log[i], key) == Del;
    if i > 0 {
      assert EffectOn(schema, log[1..][i - 1], key) == Del;
      DeleteForgets(schema, RowAfter(schema, r1, log[0], key), RowAfter(schema, r2, log[0], key), log[1..], key);
    }
  }

  /** Without writes and deletes nothing happens. */
  lemma {:induction false} QuietRun(schema: Schema, row: Option<Doc>, log: seq<Object>, key: string)
    requires NoWrite(schema, log, key) && NoDelete(schema, log, key)
    ensures RunRow(schema, row, log, key) == row
  {
    hide EffectOn;
    if log != [] {
      assert EffectOn(schema, log[0], key) == Nop;
      QuietRun(schema, row, log[1..], key);
    }
  }

  // ─── An upsert is absorbed by a run that contains it ───────────────────────

  /** The documents differ at most in fields that `u` sets. */
  predicate AgreeBeside(schema: Schema, a: Doc, b: Doc, u: Object) {
    forall def :: def in schema.fields && ChangeFor(u, def) == Ok(Keep) ==> SlotOf(a, def) == SlotOf(b, def)
  }

  lemma MergedShape(schema: Schema, doc: Doc, obj: Object)
    requires GoodSchema(schema) && UniqueKeys(obj) && WellShaped(schema, doc)
    ensures WellShaped(schema, MergeInto(schema, doc, obj))
  {
    hide GoodSchema, UniqueKeys, WellShaped, MergeJson;
    if MergeJson(schema, doc, obj).Ok? {
      MergeKeepsShape(schema, doc, obj);
    }
  }

  lemma MergeAgrees(schema: Schema, a: Doc, b: Doc, obj: Object, u: Object)
    requires GoodSchema(schema) && UniqueKeys(obj) && WellShaped(schema, a) && WellShaped(schema, b)
    requires AgreeBeside(schema, a, b, u)
    ensures AgreeBeside(schema, MergeInto(schema, a, obj), MergeInto(schema, b, obj), u)
  {
    hide GoodSchema, UniqueKeys, WellShaped, MergeJson, ChangeFor, Changed, SlotOf;
    MergeOutcome(schema, a, b, obj);
    ShapeTotal(schema, a);
    ShapeTotal(schema, b);
    var a', b' := MergeInto(schema, a, obj), MergeInto(schema, b, obj);
    if MergeJson(schema, a, obj).Ok? {
      forall def | def in schema.fields && ChangeFor(u, def) == Ok(Keep) ensures SlotOf(a', def) == SlotOf(b', def) {
        MergePointwise(schema, a, obj, def);
        MergePointwise(schema, b, obj, def);
      }
    }
  }

  lemma ScalarChange(schema: Schema, obj: Object, def: FieldDef)
    requires ScalarSchema(schema) && def in schema.fields && ChangeFor(obj, def).Ok?
    ensures !ChangeFor(obj, def).value.Append?
  {
    hide Lookup, Convert, ConvertAll;
  }

  /** Merging `u` itself removes the difference, as it overwrites every field it sets. */
  lemma MergeSettles(schema: Schema, a: Doc, b: Doc, u: Object)
    requires GoodSchema(schema) && ScalarSchema(schema) && UniqueKeys(u) && WellShaped(schema, a) && WellShaped(schema, b)
    requires AgreeBeside(schema, a, b, u) && MergeJson(schema, a, u).Ok?
    ensures MergeInto(schema, a, u) == MergeInto(schema, b, u)
  {
    hide GoodSchema, UniqueKeys, WellShaped, MergeJson, ChangeFor, SlotOf, ScalarSchema, Total;
    MergeOutcome(schema, a, b, u);
    ShapeTotal(schema, a);
    ShapeTotal(schema, b);
    MergeTotal(schema, a, u);
    MergeTotal(schema, b, u);
    var a', b' := MergeInto(schema, a, u), MergeInto(schema, b, u);
    forall def | def in schema.fields ensures SlotOf(a', def) == SlotOf(b', def) {
      MergePointwise(schema, a, u, def);
      MergePointwise(schema, b, u, def);
      ScalarChange(schema, u, def);
    }
    SameSlots(schema, a', b');
  }

  lemma MergeBeside(schema: Schema, d: Doc, u: Object)
    requires GoodSchema(schema) && UniqueKeys(u) && WellShaped(schema, d)
    ensures AgreeBeside(schema, MergeInto(schema, d, u), d, u)
  {
    hide GoodSchema, UniqueKeys, WellShaped, MergeJson, ChangeFor, SlotOf;
    ShapeTotal(schema, d);
    if MergeJson(schema, d, u).Ok? {
      var d' := MergeInto(schema, d, u);
      forall def | def in schema.fields && ChangeFor(u, def) == Ok(Keep) ensures SlotOf(d', def) == SlotOf(d, def) {
        MergePointwise(schema, d, u, def);
      }
    }
  }

  /** Rows that differ only beside an upsert in the log end up equal. */
  lemma {:induction false} RunSettles(schema: Schema, a: Doc, b: Doc, log: seq<Object>, key: string, j: nat)
    requires Replayable(schema) && GoodLog(log) && WellShaped(schema, a) && WellShaped(schema, b)
    requires NoDelete(schema, log, key) && j < |log| && EffectOn(schema, log[j], key) == Ups
    requires AgreeBeside(schema, a, b, log[j])
    ensures RunRow(schema, Some(a), log, key) == RunRow(schema, Some(b), log, key)
    decreases |log|
  {
    hide GoodSchema, UniqueKeys, WellShaped, MergeJson, ScalarSchema, EffectOn, AgreeBeside, GoodPk, MergeInto, NewDoc;
    var o := log[0];
    assert EffectOn(schema, o, key) != Del;
    if j == 0 {
      UpsMerges(schema, o, key, a);
      MergeSettles(schema, a, b, o);
    } else {
      MergeAgrees(schema, a, b, o, log[j]);
      MergedShape(schema, a, o);
      MergedShape(schema, b, o);
      var a' := if EffectOn(schema, o, key) == Ups then MergeInto(schema, a, o) else a;
      var b' := if EffectOn(schema, o, key) == Ups then MergeInto(schema, b, o) else b;
      assert log[1..][j - 1] == log[j];
      RunSettles(schema, a', b', log[1..], key, j - 1);
    }
  }

  lemma UpsMerges(schema: Schema, obj: Object, key: string, d: Doc)
    requires EffectOn(schema, obj, key) == Ups
    ensures MergeJson(schema, d, obj).Ok?
  {
    hide ExtractPk, MergeJson, NewDoc, OpOf;
    MergeOutcome(schema, NewDoc(schema), d, obj);
  }

  // ─── Repeated delivery ─────────────────────────────────────────────────────

  /** The row after the messages from `r` to `hi`. */
  function Replay(schema: Schema, row: Option<Doc>, log: seq<Object>, key: string, r: nat, hi: nat): (d: Option<Doc>)
    requires r <= hi <= |log|
  {
    RunRow(schema, row, log[r..hi], key)
  }

  /** Delivering the rest from any already passed position gives the row of a single delivery. */
  predicate Settled(schema: Schema, row0: Option<Doc>, row: Option<Doc>, log: seq<Object>, key: string, j: nat, hi: nat)
    requires j <= hi <= |log|
  {
    forall r :: 0 <= r <= j ==> Replay(schema, row, log, key, r, hi) == Replay(schema, row0, log, key, 0, hi)
  }

  /** An absent row was not written since the last delete. */
  predicate AbsentIsClean(schema: Schema, row: Option<Doc>, log: seq<Object>, key: string, j: nat, hi: nat)
    requires j <= hi <= |log|
  {
    row.None? ==> forall r :: 0 <= r <= j && NoDelete(schema, log[r..hi], key) ==> NoWrite(schema, log[r..j], key)
  }

  lemma ReplayExtends(schema: Schema, row: Option<Doc>, log: seq<Object>, key: string, r: nat, hi: nat)
    requires r <= hi < |log|
    ensures Replay(schema, row, log, key, r, hi + 1) == RowAfter(schema, Replay(schema, row, log, key, r, hi), log[hi], key)
  {
    hide RowAfter;
    assert log[r..hi + 1] == log[r..hi] + [log[hi]];
    RunRowConcat(schema, row, log[r..hi], [log[hi]], key);
    RunOne(schema, RunRow(schema, row, log[r..hi], key), log[hi], key);
  }

  lemma RunOne(schema: Schema, row: Option<Doc>, obj: Object, key: string)
    ensures RunRow(schema, row, [obj], key) == RowAfter(schema, row, obj, key)
  {
    hide RowAfter;
    assert [obj][1..] == [];
  }

  /** A new message at the end of the log. */
  lemma ExtendSettled(schema: Schema, row0: Option<Doc>, row: Option<Doc>, log: seq<Object>, key: string, hi: nat)
    requires hi < |log| && Settled(schema, row0, row, log, key, hi, hi) && AbsentIsClean(schema, row, log, key, hi, hi)
    ensures Settled(schema, row0, row, log, key, hi, hi + 1) && AbsentIsClean(schema, row, log, key, hi, hi + 1)
  {
    hide RowAfter, Replay, EffectOn;
    var hi' := hi + 1;
    forall r | 0 <= r <= hi ensures Replay(schema, row, log, key, r, hi') == Replay(schema, row0, log, key, 0, hi') {
      ReplayExtends(schema, row, log, key, r, hi);
      ReplayExtends(schema, row0, log, key, 0, hi);
    }
    forall r | 0 <= r <= hi && NoDelete(schema, log[r..hi'], key) && row.None? ensures NoWrite(schema, log[r..hi], key) {
      NoDeletePrefix(schema, log, key, r, hi);
    }
  }

  lemma NoDeletePrefix(schema: Schema, log: seq<Object>, key: string, r: nat, hi: nat)
    requires r <= hi < |log| && NoDelete(schema, log[r..hi + 1], key)
    ensures NoDelete(schema, log[r..hi], key)
  {
    hide EffectOn;
    var a, b := log[r..hi], log[r..hi + 1];
    forall i | 0 <= i < |a| ensures EffectOn(schema, a[i], key) != Del {
      assert a[i] == b[i];
    }
  }

  /** Delivering message `j` before replaying a stretch that contains it changes nothing. */
  lemma DeliverAbsorbed(schema: Schema, row: Option<Doc>, log: seq<Object>, key: string, r: nat, j: nat, hi: nat)
    requires Replayable(schema) && GoodLog(log) && GoodRow(schema, row) && r <= j < hi <= |log|
    requires AbsentIsClean(schema, row, log, key, j, hi)
    ensures Replay(schema, RowAfter(schema, row, log[j], key), log, key, r, hi) == Replay(schema, row, log, key, r, hi)
  {
    hide EffectOn, WellShaped, MergeInto, GoodSchema, GoodPk, ScalarSchema, UniqueKeys, NewDoc, AgreeBeside;
    var seg := log[r..hi];
    var row' := RowAfter(schema, row, log[j], key);
    if !NoDelete(schema, seg, key) {
      DeleteForgets(schema, row', row, seg, key);
    } else {
      assert seg[j - r] == log[j];
      if row.Some? {
        if EffectOn(schema, log[j], key) == Ups {
          MergeBeside(schema, row.value, log[j]);
          MergedShape(schema, row.value, log[j]);
          RunSettles(schema, row'.value, row.value, seg, key, j - r);
        }
      } else {
        AbsentAbsorbed(schema, log, key, r, j, hi);
      }
    }
  }

  /** The same for an absent row: nothing before `j` touched it, so the replay starts with `j` too. */
  lemma AbsentAbsorbed(schema: Schema, log: seq<Object>, key: string, r: nat, j: nat, hi: nat)
    requires Replayable(schema) && GoodLog(log) && r <= j < hi <= |log|
    requires NoDelete(schema, log[r..hi], key) && NoWrite(schema, log[r..j], key)
    ensures Replay(schema, RowAfter(schema, None, log[j], key), log, key, r, hi) == Replay(schema, None, log, key, r, hi)
  {
    hide EffectOn, WellShaped, MergeInto, GoodSchema, GoodPk, ScalarSchema, UniqueKeys, NewDoc;
    var o := log[j];
    var row' := RowAfter(schema, None, o, key);
    var before, after := log[r..j], log[j + 1..hi];
    assert log[r..hi] == before + ([o] + after);
    forall i | 0 <= i < |before| ensures EffectOn(schema, before[i], key) != Del {
      assert before[i] == log[r..hi][i];
    }
    forall row | row == row' || row == None ensures Replay(schema, row, log, key, r, hi) == RunRow(schema, RowAfter(schema, row, o, key), after, key) {
      RunRowConcat(schema, row, before, [o] + after, key);
      QuietRun(schema, row, before, key);
      assert ([o] + after)[1..] == after;
    }
    TwiceIsOnce(schema, o, key);
  }

  /** Applying a message to the row it created changes nothing. */
  lemma TwiceIsOnce(schema: Schema, o: Object, key: string)
    requires Replayable(schema) && UniqueKeys(o)
    ensures RowAfter(schema, RowAfter(schema, None, o, key), o, key) == RowAfter(schema, None, o, key)
  {
    hide EffectOn, WellShaped, GoodSchema, GoodPk, ScalarSchema, UniqueKeys, MergeJson, AgreeBeside, NewDoc, MergeInto;
    if EffectOn(schema, o, key) == Ups {
      NewDocDefault(schema);
      var d := NewDoc(schema);
      MergedShape(schema, d, o);
      MergeBeside(schema, d, o);
      UpsMerges(schema, o, key, MergeInto(schema, d, o));
      MergeSettles(schema, MergeInto(schema, d, o), d, o);
    }
  }

  /** Delivering one message keeps the row settled. */
  lemma DeliverSettled(schema: Schema, row0: Option<Doc>, row: Option<Doc>, log: seq<Object>, key: string, j: nat, hi: nat)
    requires Replayable(schema) && GoodLog(log) && GoodRow(schema, row) && j < hi <= |log|
    requires Settled(schema, row0, row, log, key, j, hi) && AbsentIsClean(schema, row, log, key, j, hi)
    ensures
      var row' := RowAfter(schema, row, log[j], key);
      Settled(schema, row0, row', log, key, j + 1, hi) && AbsentIsClean(schema, row', log, key, j + 1, hi)
  {
    hide EffectOn, WellShaped, MergeInto, GoodSchema, GoodPk, ScalarSchema, UniqueKeys, NewDoc, Replay, NoDelete, NoWrite, Replayable, GoodLog, GoodRow;
    var row' := RowAfter(schema, row, log[j], key);
    forall r | 0 <= r <= j + 1 ensures Replay(schema, row', log, key, r, hi) == Replay(schema, row0, log, key, 0, hi) {
      if r <= j {
        DeliverAbsorbed(schema, row, log, key, r, j, hi);
      } else {
        ReplayFirst(schema, row, log, key, j, hi);
      }
    }
    if row'.None? {
      forall r | 0 <= r <= j + 1 && NoDelete(schema, log[r..hi], key) ensures NoWrite(schema, log[r..j + 1], key) {
        if r <= j {
          StillClean(schema, log, key, r, j, hi);
        } else {
          EmptyNoWrite(schema, log[r..j + 1], key);
        }
      }
    }
  }

  lemma EmptyNoWrite(schema: Schema, log: seq<Object>, key: string)
    requires log == []
    ensures NoWrite(schema, log, key)
  {
  }

  lemma ReplayFirst(schema: Schema, row: Option<Doc>, log: seq<Object>, key: string, j: nat, hi: nat)
    requires j < hi <= |log|
    ensures Replay(schema, RowAfter(schema, row, log[j], key), log, key, j + 1, hi) == Replay(schema, row, log, key, j, hi)
  {
    hide RowAfter;
    assert log[j..hi][0] == log[j] && log[j..hi][1..] == log[j + 1..hi];
  }

  lemma StillClean(schema: Schema, log: seq<Object>, key: string, r: nat, j: nat, hi: nat)
    requires r <= j < hi <= |log| && NoDelete(schema, log[r..hi], key)
    requires NoWrite(schema, log[r..j], key) || EffectOn(schema, log[j], key) == Del
    requires EffectOn(schema, log[j], key) == Nop || EffectOn(schema, log[j], key) == Del
    ensures NoWrite(schema, log[r..j + 1], key)
  {
    hide EffectOn;
    assert log[r..hi][j - r] == log[j];
    var a, b := log[r..j], log[r..j + 1];
    forall i | 0 <= i < |b| ensures EffectOn(schema, b[i], key) == Nop || EffectOn(schema, b[i], key) == Del {
      if i < j - r {
        assert b[i] == a[i];
      }
    }
  }

  // ─── Every run of deliveries and restarts ──────────────────────────────────

  datatype Event = Deliver | Restart(at: nat)

  /** The index, the next message, and how far the log was ever read. */
  datatype Consumer = Consumer(idx: Index, next: nat, high: nat)

  predicate EventAllowed(c: Consumer, log: seq<Object>, e: Event) {
    match e
    case Deliver => c.next < |log|
    case Restart(at) => at <= c.next
  }

  function Consume(schema: Schema, c: Consumer, log: seq<Object>, e: Event): (r: Consumer)
    requires EventAllowed(c, log, e)
  {
    match e
    case Deliver =>
      Consumer(After(schema, c.idx, log[c.next]), c.next + 1, if c.next + 1 > c.high then c.next + 1 else c.high)
    case Restart(at) => c.(next := at)
  }

  ghost predicate Reaches(schema: Schema, c: Consumer, log: seq<Object>, events: seq<Event>, c': Consumer)
    decreases |events|
  {
    if events == [] then c' == c
    else EventAllowed(c, log, events[0]) && Reaches(schema, Consume(schema, c, log, events[0]), log, events[1..], c')
  }

  ghost predicate Converging(schema: Schema, idx0: Index, c: Consumer, log: seq<Object>) {
    && c.next <= c.high <= |log| && GoodIndex(schema, c.idx)
    && forall key :: Settled(schema, Row(idx0, key), Row(c.idx, key), log, key, c.next, c.high)
         && AbsentIsClean(schema, Row(c.idx, key), log, key, c.next, c.high)
  }

  lemma RestartConverges(schema: Schema, idx0: Index, c: Consumer, log: seq<Object>, at: nat)
    requires Converging(schema, idx0, c, log) && at <= c.next
    ensures Converging(schema, idx0, c.(next := at), log)
  {
    hide Replay, NoDelete, NoWrite, GoodIndex;
    var c' := c.(next := at);
    forall key
      ensures Settled(schema, Row(idx0, key), Row(c'.idx, key), log, key, at, c.high)
      ensures AbsentIsClean(schema, Row(c'.idx, key), log, key, at, c.high)
    {
      assert Settled(schema, Row(idx0, key), Row(c.idx, key), log, key, c.next, c.high);
      forall r | 0 <= r <= at && NoDelete(schema, log[r..c.high], key) && Row(c.idx, key).None? ensures NoWrite(schema, log[r..at], key) {
        NoWritePrefix(schema, log, key, r, at, c.next);
      }
    }
  }

  lemma NoWritePrefix(schema: Schema, log: seq<Object>, key: string, r: nat, at: nat, j: nat)
    requires r <= at <= j <= |log| && NoWrite(schema, log[r..j], key)
    ensures NoWrite(schema, log[r..at], key)
  {
    hide EffectOn;
    var a, b := log[r..at], log[r..j];
    forall i | 0 <= i < |a| ensures EffectOn(schema, a[i], key) == Nop || EffectOn(schema, a[i], key) == Del {
      assert a[i] == b[i];
    }
  }

  lemma DeliverConverges(schema: Schema, idx0: Index, c: Consumer, log: seq<Object>)
    requires Replayable(schema) && GoodLog(log) && Converging(schema, idx0, c, log) && c.next < |log|
    ensures Converging(schema, idx0, Consume(schema, c, log, Deliver), log)
  {
    hide Settled, AbsentIsClean, After, WellShaped, GoodSchema, GoodPk, ScalarSchema, UniqueKeys, RowAfter;
    var c' := Consume(schema, c, log, Deliver);
    AfterKeepsGood(schema, c.idx, log[c.next]);
    forall key
      ensures Settled(schema, Row(idx0, key), Row(c'.idx, key), log, key, c'.next, c'.high)
      ensures AbsentIsClean(schema, Row(c'.idx, key), log, key, c'.next, c'.high)
    {
      AfterRow(schema, c.idx, log[c.next], key);
      if c.next == c.high {
        ExtendSettled(schema, Row(idx0, key), Row(c.idx, key), log, key, c.high);
      }
      DeliverSettled(schema, Row(idx0, key), Row(c.idx, key), log, key, c.next, c'.high);
    }
  }

  lemma StartConverges(schema: Schema, idx0: Index, log: seq<Object>)
    requires GoodIndex(schema, idx0)
    ensures Converging(schema, idx0, Consumer(idx0, 0, 0), log)
  {
    hide WellShaped;
  }

  lemma {:induction false} RunConverges(schema: Schema, idx0: Index, c: Consumer, log: seq<Object>, events: seq<Event>, c': Consumer)
    requires Replayable(schema) && GoodLog(log) && Converging(schema, idx0, c, log) && Reaches(schema, c, log, events, c')
    ensures Converging(schema, idx0, c', log)
    decreases |events|
  {
    hide Converging, Replayable, GoodLog, Consume;
    if events != [] {
      match events[0]
      case Deliver =>
        ConvergingBounds(schema, idx0, c, log);
        DeliverConverges(schema, idx0, c, log);
        RunConverges(schema, idx0, Consume(schema, c, log, Deliver), log, events[1..], c');
      case Restart(at) =>
        RestartConverges(schema, idx0, c, log, at);
        RestartIs(schema, c, log, at);
        RunConverges(schema, idx0, Consume(schema, c, log, events[0]), log, events[1..], c');
    }
  }

  lemma RestartIs(schema: Schema, c: Consumer, log: seq<Object>, at: nat)
    requires at <= c.next
    ensures Consume(schema, c, log, Restart(at)) == c.(next := at)
  {
  }

  lemma ConvergingBounds(schema: Schema, idx0: Index, c: Consumer, log: seq<Object>)
    requires Converging(schema, idx0, c, log)
    ensures c.next <= c.high <= |log|
  {
  }

  /** A converging consumer needs only the messages up to its highest point. */
  lemma SettledIndex(schema: Schema, idx0: Index, c: Consumer, log: seq<Object>)
    requires Replayable(schema) && GoodLog(log) && GoodIndex(schema, idx0) && Converging(schema, idx0, c, log)
    ensures c.next <= c.high <= |log|
    ensures RunObjects(schema, c.idx, log[c.next..c.high]) == RunObjects(schema, idx0, log[..c.high])
  {
    hide Replayable, GoodLog, GoodIndex, RunObjects, RunRow, AbsentIsClean;
    var a, b := RunObjects(schema, c.idx, log[c.next..c.high]), RunObjects(schema, idx0, log[..c.high]);
    forall key ensures Row(a, key) == Row(b, key) {
      PartsGood(log, c.next, c.high);
      ReplayableFacts(schema);
      RunIsByRow(schema, c.idx, log[c.next..c.high], key);
      RunIsByRow(schema, idx0, log[..c.high], key);
      assert Settled(schema, Row(idx0, key), Row(c.idx, key), log, key, c.next, c.high);
      assert Replay(schema, Row(c.idx, key), log, key, c.next, c.high) == Replay(schema, Row(idx0, key), log, key, 0, c.high);
      assert log[0..c.high] == log[..c.high];
    }
    SameRows(a, b);
  }

  /**
   Any delivery in order that may restart at earlier positions, at any time and
   any number of times: when it has caught up, the index is the one a single
   delivery of the messages read so far gives; and until then, delivering the
   rest leads there.
   */
  lemma RepeatedDeliveryConverges(schema: Schema, idx0: Index, log: seq<Object>, events: seq<Event>, c: Consumer)
    requires Replayable(schema) && GoodLog(log) && GoodIndex(schema, idx0)
    requires Reaches(schema, Consumer(idx0, 0, 0), log, events, c)
    ensures c.next <= c.high <= |log|
    ensures RunObjects(schema, c.idx, log[c.next..c.high]) == RunObjects(schema, idx0, log[..c.high])
  {
    hide Replayable, GoodLog, GoodIndex, Reaches, RunObjects, Converging;
    StartConverges(schema, idx0, log);
    RunConverges(schema, idx0, Consumer(idx0, 0, 0), log, events, c);
    SettledIndex(schema, idx0, c, log);
  }

  lemma PartsGood(log: seq<Object>, i: nat, j: nat)
    requires GoodLog(log) && i <= j <= |log|
    ensures GoodLog(log[i..j]) && GoodLog(log[..j])
  {
  }

  lemma ReplayableFacts(schema: Schema)
    requires Replayable(schema)
    ensures GoodSchema(schema) && GoodPk(schema)
  {
  }

  /** Replaying any suffix of an applied log leaves the index unchanged. */
  lemma ReplayIsIdempotent(schema: Schema, idx: Index, log: seq<Object>, j: nat)
    requires Replayable(schema) && GoodLog(log) && GoodIndex(schema, idx) && j <= |log|
    ensures RunObjects(schema, RunObjects(schema, idx, log), log[j..]) == RunObjects(schema, idx, log)
  {
    hide Replayable, GoodLog, GoodIndex, After;
    var c := Consumer(idx, 0, 0);
    var once := Consumer(RunObjects(schema, idx, log), |log|, |log|);
    DeliverUpto(schema, c, log, 0, |log|);
    assert log[0..|log|] == log;
    var again := once.(next := j);
    assert Reaches(schema, again, log, [], again);
    RestartIs(schema, once, log, j);
    assert Reaches(schema, once, log, [Restart(j)], again) by {
      assert [Restart(j)][1..] == [];
    }
    var events := DeliverTimes(|log|);
    ReachesTrans(schema, c, log, events, once, [Restart(j)], again);
    RepeatedDeliveryConverges(schema, idx, log, events + [Restart(j)], again);
    assert log[j..|log|] == log[j..] && log[..|log|] == log;
  }

  function DeliverTimes(n: nat): (r: seq<Event>)
    ensures |r| == n
  {
    if n == 0 then [] else [Deliver] + DeliverTimes(n - 1)
  }

  lemma {:induction false} DeliverUpto(schema: Schema, c: Consumer, log: seq<Object>, i: nat, k: nat)
    requires c.next == c.high == i <= k <= |log|
    ensures Reaches(schema, c, log, DeliverTimes(k - i), Consumer(RunObjects(schema, c.idx, log[i..k]), k, k))
    decreases k - i
  {
    hide After;
    if i < k {
      assert log[i..k][0] == log[i] && log[i..k][1..] == log[i + 1..k];
      var c' := Consume(schema, c, log, Deliver);
      DeliverUpto(schema, c', log, i + 1, k);
      var events := DeliverTimes(k - i);
      assert events[0] == Deliver && events[1..] == DeliverTimes(k - i - 1);
    } else {
      assert log[i..k] == [];
    }
  }

  lemma {:induction false} ReachesTrans(schema: Schema, c: Consumer, log: seq<Object>, e1: seq<Event>, c1: Consumer, e2: seq<Event>, c2: Consumer)
    requires Reaches(schema, c, log, e1, c1) && Reaches(schema, c1, log, e2, c2)
    ensures Reaches(schema, c, log, e1 + e2, c2)
    decreases |e1|
  {
    hide Consume, EventAllowed;
    if e1 == [] {
      assert e1 + e2 == e2;
    } else {
      assert (e1 + e2)[0] == e1[0] && (e1 + e2)[1..] == e1[1..] + e2;
      ReachesTrans(schema, Consume(schema, c, log, e1[0]), log, e1[1..], c1, e2, c2);
    }
  }

  // ─── Exactly when ──────────────────────────────────────────────────────────

  /** Rows can be stored at all: the pk is a scalar field of a key type. */
  predicate UsablePk(schema: Schema) {
    match FindField(schema, schema.pk)
    case None => false
    case Some(def) => KeyType(def.ty) && !def.isArray
  }

  function Sample(ty: DataType): (r: Json)
    ensures ty != Bool ==> Convert(ty, r).Some? && r != JNull
  {
    if ty.String? || ty.Bytes? then JString("") else JInt(0)
  }

  lemma LookupTwo(k1: string, v1: Json, k2: string, v2: Json, key: string)
    requires k1 != k2
    ensures Lookup([(k1, v1), (k2, v2)], key) == if key == k1 then Some(v1) else if key == k2 then Some(v2) else None
    ensures UniqueKeys([(k1, v1), (k2, v2)])
  {
    var m: Object := [(k1, v1), (k2, v2)];
    assert m[..1] == [(k1, v1)] && m[..1][..0] == [];
  }

  lemma ConvertOne(ty: DataType, j: Json)
    requires Convert(ty, j).Some?
    ensures ConvertAll(ty, [j]) == Some([Convert(ty, j).value])
  {
    hide Convert;
    assert [j][..0] == [];
    assert [] + [Convert(ty, j).value] == [Convert(ty, j).value];
  }

  lemma MessageChanges(schema: Schema, def: FieldDef, pk: FieldDef, d: FieldDef)
    requires GoodSchema(schema) && GoodPk(schema) && UsablePk(schema) && FindField(schema, schema.pk) == Some(pk)
    requires def in schema.fields && Appendable(def) && d in schema.fields
    ensures
      var m: Object := [(def.name, JArray([Sample(def.ty)])), (pk.name, Sample(pk.ty))];
      && UniqueKeys(m) && OpOf(m) == Upsert && ExtractPk(schema, m).Ok?
      && ChangeFor(m, d).Ok?
      && ChangeFor(m, def) == Ok(Append([Convert(def.ty, Sample(def.ty)).value]))
  {
    hide Convert, ConvertAll, FindField, GoodSchema, Sample, Lookup, UniqueKeys;
    SameName(schema, def, d);
    SameName(schema, pk, d);
    SameName(schema, def, pk);
    var v1, v2 := JArray([Sample(def.ty)]), Sample(pk.ty);
    LookupTwo(def.name, v1, pk.name, v2, def.name);
    LookupTwo(def.name, v1, pk.name, v2, pk.name);
    LookupTwo(def.name, v1, pk.name, v2, d.name);
    LookupTwo(def.name, v1, pk.name, v2, "_op");
    ConvertOne(def.ty, Sample(def.ty));
  }

  lemma SameName(schema: Schema, a: FieldDef, b: FieldDef)
    requires GoodSchema(schema) && a in schema.fields && b in schema.fields
    ensures a.name == b.name ==> a == b
  {
  }

  /** A field that can be appended to: one message, delivered twice, leaves its mark twice. */
  lemma AppendBreaksReplay(schema: Schema, def: FieldDef) returns (m: Object)
    requires GoodSchema(schema) && GoodPk(schema) && UsablePk(schema) && def in schema.fields && Appendable(def)
    ensures UniqueKeys(m)
    ensures RunObjects(schema, RunObjects(schema, map[], [m]), [m]) != RunObjects(schema, map[], [m])
  {
    hide Convert, ConvertAll, FindField, GoodSchema, MergeJson, NewDoc, ExtractPk, OpOf, ChangeFor, UniqueKeys, WellShaped, After, GoodPk, Sample;
    var pk := FindField(schema, schema.pk).value;
    m := [(def.name, JArray([Sample(def.ty)])), (pk.name, Sample(pk.ty))];
    forall d | d in schema.fields ensures ChangeFor(m, d).Ok? {
      MessageChanges(schema, def, pk, d);
    }
    MessageChanges(schema, def, pk, def);
    NewDocDefault(schema);
    var d0 := NewDoc(schema);
    MergeOkIff(schema, d0, m);
    var key := ExtractPk(schema, m).value;
    AfterRow(schema, map[], m, key);
    AfterKeepsGood(schema, map[], m);
    var once := After(schema, map[], m);
    AfterRow(schema, once, m, key);
    var d1 := MergeInto(schema, d0, m);
    MergedShape(schema, d0, m);
    ShapeTotal(schema, d0);
    ShapeTotal(schema, d1);
    MergeOkIff(schema, d1, m);
    MergePointwise(schema, d0, m, def);
    MergePointwise(schema, d1, m, def);
    ShapedAt(schema, d1, def);
    var cells := SlotOf(d1, def).cells;
    assert SlotOf(MergeInto(schema, d1, m), def) == Array(cells + ChangeFor(m, def).value.cells);
    assert |cells + ChangeFor(m, def).value.cells| > |cells|;
    assert [m][1..] == [];
    assert RunObjects(schema, map[], [m]) == once;
    assert RunObjects(schema, once, [m]) == After(schema, once, m);
  }

  ghost predicate ReplaySafe(schema: Schema) {
    forall idx, log, j: nat {:trigger RunObjects(schema, RunObjects(schema, idx, log), log[j..])} ::
      GoodIndex(schema, idx) && GoodLog(log) && j <= |log| ==>
        RunObjects(schema, RunObjects(schema, idx, log), log[j..]) == RunObjects(schema, idx, log)
  }

  /** Replay is harmless for every log exactly when no field can be appended to. */
  lemma ReplaySafeIff(schema: Schema)
    requires GoodSchema(schema) && GoodPk(schema) && UsablePk(schema)
    ensures ReplaySafe(schema) <==> ScalarSchema(schema)
  {
    hide GoodSchema, GoodPk, UsablePk, RunObjects, UniqueKeys, WellShaped, Appendable;
    if ScalarSchema(schema) {
      forall idx, log, j: nat | GoodIndex(schema, idx) && GoodLog(log) && j <= |log|
        ensures RunObjects(schema, RunObjects(schema, idx, log), log[j..]) == RunObjects(schema, idx, log)
      {
        ReplayIsIdempotent(schema, idx, log, j);
      }
    } else {
      var i :| 0 <= i < |schema.fields| && Appendable(schema.fields[i]);
      var m := AppendBreaksReplay(schema, schema.fields[i]);
      assert [m][0..] == [m];
      assert GoodIndex(schema, map[]) && GoodLog([m]);
    }
  }
}
