/**
 INSERTs that cannot be converted.  Such a message throws for a new key and is
 refused for an old one, so how far a batch is applied depends on the index it
 meets, and a redelivered batch need not do what it did before.
 */
module KafkaUnsteady {
  import opened Wrappers
  import opened StreamIngest
  import opened StreamLaws
  import opened StreamReplay
  import opened StreamEffects
  import opened KafkaSource
  import opened KafkaConvergence

  // ─── One message ───────────────────────────────────────────────────────────

  /** An unsteady message is an INSERT with a key that throws exactly while its key is absent, and never changes the index. */
  lemma UnsteadyObject(schema: Schema, idx: Index, obj: Object)
    requires !Steady(schema, obj)
    ensures ExtractPk(schema, obj).Ok?
    ensures ApplyObject(schema, idx, obj).Thrown? <==> ExtractPk(schema, obj).value !in idx
    ensures After(schema, idx, obj) == idx
  {
    hide ExtractPk, MergeJson, OpOf, NewDoc, Store, CopyFields;
  }

  /** The condition is exact: a message is steady if and only if whether it throws does not depend on the index. */
  lemma SteadyIff(schema: Schema, obj: Object)
    ensures Steady(schema, obj) <==>
      forall idx1, idx2 :: ApplyObject(schema, idx1, obj).Thrown? == ApplyObject(schema, idx2, obj).Thrown?
  {
    hide ApplyObject, Throws, Steady;
    if Steady(schema, obj) {
      forall idx1, idx2 ensures ApplyObject(schema, idx1, obj).Thrown? == ApplyObject(schema, idx2, obj).Thrown? {
        ThrowsIs(schema, idx1, obj);
        ThrowsIs(schema, idx2, obj);
      }
    } else {
      UnsteadyObject(schema, map[], obj);
      var idx2 := map[ExtractPk(schema, obj).value := NewDoc(schema)];
      UnsteadyObject(schema, idx2, obj);
      assert ApplyObject(schema, map[], obj).Thrown? != ApplyObject(schema, idx2, obj).Thrown?;
    }
  }

  // ─── One payload ───────────────────────────────────────────────────────────

  /** Item `i` is the first unsteady message of the payload, and nothing in front of it throws. */
  predicate FirstUnsteady(schema: Schema, items: seq<Json>, i: nat) {
    && i < |items| && items[i].JObject? && !Steady(schema, items[i].members)
    && SteadyItems(schema, items[..i]) && NoneThrows(schema, items[..i])
  }

  function KeyAt(schema: Schema, items: seq<Json>, i: nat): (r: string)
    requires FirstUnsteady(schema, items, i)
  {
    UnsteadyObject(schema, map[], items[i].members);
    ExtractPk(schema, items[i].members).value
  }

  lemma {:induction false} ApplyItemsSplit(schema: Schema, idx: Index, a: seq<Json>, b: seq<Json>)
    requires SteadyItems(schema, a) && NoneThrows(schema, a)
    ensures ApplyItems(schema, idx, a + b) == ApplyItems(schema, ApplyItems(schema, idx, a), b)
    decreases |a|
  {
    hide Throws, Steady, ApplyObject, After;
    if a == [] {
      assert a + b == b;
    } else {
      assert (a + b)[0] == a[0] && (a + b)[1..] == a[1..] + b;
      if a[0].JObject? {
        var o := a[0].members;
        assert Steady(schema, o) && !ThrowsItem(schema, a[0]);
        ThrowsIs(schema, idx, o);
        ApplyItemsSplit(schema, After(schema, idx, o), a[1..], b);
      } else {
        ApplyItemsSplit(schema, idx, a[1..], b);
      }
    }
  }

  /**
   For every schema, index and batch: if the key of the first unsteady INSERT is
   absent when it is reached, the payload ends there; if it is present, the rest of
   the payload is applied.
   */
  lemma UnsteadyPayload(schema: Schema, idx: Index, items: seq<Json>, i: nat)
    requires FirstUnsteady(schema, items, i)
    ensures
      var before := ApplyItems(schema, idx, items[..i]);
      ApplyItems(schema, idx, items) ==
        if KeyAt(schema, items, i) in before then ApplyItems(schema, before, items[i + 1..]) else before
  {
    hide Throws, Steady, ApplyObject, After;
    var before, o := ApplyItems(schema, idx, items[..i]), items[i].members;
    assert items == items[..i] + items[i..];
    ApplyItemsSplit(schema, idx, items[..i], items[i..]);
    UnsteadyObject(schema, before, o);
    assert items[i..][0] == items[i] && items[i..][1..] == items[i + 1..];
  }

  // ─── Redelivery ────────────────────────────────────────────────────────────

  /** The index after the payload and later messages, delivered once. */
  function Once(schema: Schema, idx: Index, items: seq<Json>, later: seq<Object>): (r: Index) {
    RunObjects(schema, ApplyItems(schema, idx, items), later)
  }

  /** The index at the unsteady INSERT when the payload comes again. */
  function AtInsert(schema: Schema, idx: Index, items: seq<Json>, i: nat, later: seq<Object>): (r: Index)
    requires i <= |items|
  {
    ApplyItems(schema, Once(schema, idx, items, later), items[..i])
  }

  predicate GoodBatch(schema: Schema, idx: Index, items: seq<Json>, i: nat, later: seq<Object>) {
    && Replayable(schema) && GoodIndex(schema, idx) && GoodItems(items) && GoodLog(later)
    && FirstUnsteady(schema, items, i)
  }

  lemma GoodPart(items: seq<Json>, i: nat, j: nat)
    requires GoodItems(items) && i <= j <= |items|
    ensures GoodItems(items[i..j])
  {
    var part := items[i..j];
    forall n | 0 <= n < |part| && part[n].JObject? ensures UniqueKeys(part[n].members) {
      assert part[n] == items[i + n];
    }
  }


  /**
   When the INSERT threw the first time: if its key is still absent, the redelivery
   changes nothing; else the items skipped the first time are applied now.
   */
  lemma RedeliveryAfterThrow(schema: Schema, idx: Index, items: seq<Json>, i: nat, later: seq<Object>)
    requires GoodBatch(schema, idx, items, i, later)
    requires KeyAt(schema, items, i) !in ApplyItems(schema, idx, items[..i])
    ensures
      var once, at := Once(schema, idx, items, later), AtInsert(schema, idx, items, i, later);
      var again := Once(schema, once, items, later);
      && (KeyAt(schema, items, i) !in at ==> again == once)
      && (KeyAt(schema, items, i) in at ==> again == RunObjects(schema, ApplyItems(schema, at, items[i + 1..]), later))
  {
    hide Replayable, GoodIndex, GoodItems, GoodLog, FirstUnsteady, RunObjects, ApplyItems, Objects, SteadyItems;
    PrefixSteady(schema, items, i);
    var objs := Objects(schema, items[..i]);
    var once, at := Once(schema, idx, items, later), AtInsert(schema, idx, items, i, later);
    UnsteadyPayload(schema, idx, items, i);
    UnsteadyPayload(schema, once, items, i);
    ObjectsRun(schema, idx, items[..i]);
    ObjectsRun(schema, once, items[..i]);
    RunConcat(schema, idx, objs, later);
    RunConcat(schema, once, objs, later);
    GoodPart(items, 0, i);
    assert items[0..i] == items[..i];
    ObjectsGood(schema, items[..i]);
    LogsGood(objs, later);
    ReplayAll(schema, idx, objs + later);
  }

  lemma PrefixSteady(schema: Schema, items: seq<Json>, i: nat)
    requires FirstUnsteady(schema, items, i)
    ensures i < |items| && SteadyItems(schema, items[..i])
  {
  }

  /**
   When it was refused the first time and the rest of the payload is steady: if the
   key is still present, the redelivery changes nothing; else only the items in
   front of the INSERT are repeated.
   */
  lemma RedeliveryAfterRefusal(schema: Schema, idx: Index, items: seq<Json>, i: nat, later: seq<Object>)
    requires GoodBatch(schema, idx, items, i, later) && SteadyItems(schema, items[i + 1..])
    requires KeyAt(schema, items, i) in ApplyItems(schema, idx, items[..i])
    ensures
      var once, at := Once(schema, idx, items, later), AtInsert(schema, idx, items, i, later);
      var again := Once(schema, once, items, later);
      && (KeyAt(schema, items, i) in at ==> again == once)
      && (KeyAt(schema, items, i) !in at ==> again == RunObjects(schema, at, later))
  {
    hide Replayable, GoodIndex, GoodItems, GoodLog, FirstUnsteady, RunObjects, ApplyItems, Objects, SteadyItems;
    PrefixSteady(schema, items, i);
    var objs, rest := Objects(schema, items[..i]), Objects(schema, items[i + 1..]);
    var once, at := Once(schema, idx, items, later), AtInsert(schema, idx, items, i, later);
    UnsteadyPayload(schema, idx, items, i);
    UnsteadyPayload(schema, once, items, i);
    ObjectsRun(schema, idx, items[..i]);
    ObjectsRun(schema, once, items[..i]);
    ObjectsRun(schema, RunObjects(schema, idx, objs), items[i + 1..]);
    ObjectsRun(schema, at, items[i + 1..]);
    TwoParts(schema, idx, objs, rest, later);
    TwoParts(schema, once, objs, rest, later);
    GoodPart(items, 0, i);
    GoodPart(items, i + 1, |items|);
    assert items[0..i] == items[..i] && items[i + 1..|items|] == items[i + 1..];
    ObjectsGood(schema, items[..i]);
    ObjectsGood(schema, items[i + 1..]);
    LogsGood(objs, rest);
    LogsGood(objs + rest, later);
    ReplayAll(schema, idx, objs + rest + later);
  }

  lemma TwoParts(schema: Schema, idx: Index, a: seq<Object>, b: seq<Object>, c: seq<Object>)
    ensures RunObjects(schema, idx, a + b + c) == RunObjects(schema, RunObjects(schema, RunObjects(schema, idx, a), b), c)
  {
    hide RunObjects;
    RunConcat(schema, idx, a + b, c);
    RunConcat(schema, idx, a, b);
  }

  lemma {:induction false} ApplyItemsGood(schema: Schema, idx: Index, items: seq<Json>)
    requires GoodSchema(schema) && GoodPk(schema) && GoodIndex(schema, idx) && GoodItems(items)
    ensures GoodIndex(schema, ApplyItems(schema, idx, items))
    decreases |items|
  {
    hide GoodSchema, GoodPk, GoodIndex, ApplyObject, After, UniqueKeys;
    if items != [] {
      if items[0].JObject? {
        AfterKeepsGood(schema, idx, items[0].members);
        ApplyItemsGood(schema, After(schema, idx, items[0].members), items[1..]);
      } else {
        ApplyItemsGood(schema, idx, items[1..]);
      }
    }
  }

  lemma RestIsGood(schema: Schema, idx: Index, items: seq<Json>, i: nat, later: seq<Object>)
    requires GoodBatch(schema, idx, items, i, later) && i < |items|
    ensures GoodIndex(schema, ApplyItems(schema, AtInsert(schema, idx, items, i, later), items[i + 1..]))
  {
    hide GoodIndex, GoodItems, GoodLog, FirstUnsteady, RunObjects, ApplyItems, GoodSchema, GoodPk, ScalarSchema;
    var once := Once(schema, idx, items, later);
    ApplyItemsGood(schema, idx, items);
    RunIsByRow(schema, ApplyItems(schema, idx, items), later, "");
    GoodPart(items, 0, i);
    GoodPart(items, i + 1, |items|);
    assert items[0..i] == items[..i] && items[i + 1..|items|] == items[i + 1..];
    ApplyItemsGood(schema, once, items[..i]);
    ApplyItemsGood(schema, AtInsert(schema, idx, items, i, later), items[i + 1..]);
  }

  /** So a row that only the skipped items create, and no later message deletes, appears with the redelivery. */
  lemma SkippedRowAppears(schema: Schema, idx: Index, items: seq<Json>, i: nat, later: seq<Object>, key: string)
    requires GoodBatch(schema, idx, items, i, later)
    requires KeyAt(schema, items, i) !in ApplyItems(schema, idx, items[..i])
    requires
      var at := AtInsert(schema, idx, items, i, later);
      KeyAt(schema, items, i) in at && key in ApplyItems(schema, at, items[i + 1..])
    requires key !in Once(schema, idx, items, later) && NoDelete(schema, later, key)
    ensures
      var once := Once(schema, idx, items, later);
      key in Once(schema, once, items, later) && Once(schema, once, items, later) != once
  {
    hide GoodIndex, GoodItems, FirstUnsteady, RunObjects, ApplyItems, RunRow, NoDelete, GoodSchema, GoodPk, ScalarSchema, UniqueKeys;
    PrefixSteady(schema, items, i);
    var rest := ApplyItems(schema, AtInsert(schema, idx, items, i, later), items[i + 1..]);
    RedeliveryAfterThrow(schema, idx, items, i, later);
    RestIsGood(schema, idx, items, i, later);
    RunIsByRow(schema, rest, later, key);
    StaysPresent(schema, Row(rest, key), later, key);
  }
}
