/**
 The index under the crashing consumer.  For a schema without appendable fields
 and payloads whose INSERTs convert, a consumer that reaches the end of the topic
 leaves the index that applying every payload once would give.
 */
module KafkaConvergence {
  import opened Wrappers
  import opened StreamIngest
  import opened StreamLaws
  import opened StreamReplay
  import opened KafkaOffsets
  import opened KafkaSource

  // ─── Payloads as sequences of messages ─────────────────────────────────────

  /** The message throws, whatever the index holds. */
  predicate Throws(schema: Schema, obj: Object) {
    OpOf(obj) != Unknown &&
    (|| ExtractPk(schema, obj).Thrown?
     || (ExtractPk(schema, obj).Ok? && OpOf(obj) == Upsert && MergeJson(schema, NewDoc(schema), obj).Thrown?))
  }

  /** An INSERT that cannot be converted throws for a new key and is refused for an old one. */
  predicate Steady(schema: Schema, obj: Object) {
    OpOf(obj) == Insert && ExtractPk(schema, obj).Ok? ==> !MergeJson(schema, NewDoc(schema), obj).Thrown?
  }

  lemma ThrowsIs(schema: Schema, idx: Index, obj: Object)
    requires Steady(schema, obj)
    ensures ApplyObject(schema, idx, obj).Thrown? <==> Throws(schema, obj)
  {
    hide ExtractPk, MergeJson, OpOf, NewDoc, Store, CopyFields;
    if ExtractPk(schema, obj).Ok? {
      var pk := ExtractPk(schema, obj).value;
      MergeOutcome(schema, UpsertBase(schema, idx, pk), NewDoc(schema), obj);
    }
  }

  predicate ThrowsItem(schema: Schema, item: Json) {
    item.JObject? && Throws(schema, item.members)
  }

  predicate NoneThrows(schema: Schema, items: seq<Json>) {
    forall i :: 0 <= i < |items| ==> !ThrowsItem(schema, items[i])
  }

  /** The messages of a payload up to the first that throws. */
  function Objects(schema: Schema, items: seq<Json>): (r: seq<Object>)
    decreases |items|
  {
    if items == [] || ThrowsItem(schema, items[0]) then []
    else (if items[0].JObject? then [items[0].members] else []) + Objects(schema, items[1..])
  }

  predicate SteadyItems(schema: Schema, items: seq<Json>) {
    forall i :: 0 <= i < |items| && items[i].JObject? ==> Steady(schema, items[i].members)
  }

  lemma {:induction false} ObjectsRun(schema: Schema, idx: Index, items: seq<Json>)
    requires SteadyItems(schema, items)
    ensures ApplyItems(schema, idx, items) == RunObjects(schema, idx, Objects(schema, items))
    decreases |items|
  {
    hide Throws, Steady, ApplyObject;
    if items != [] {
      if items[0].JObject? {
        var o := items[0].members;
        assert Steady(schema, o);
        ThrowsIs(schema, idx, o);
        ObjectsRun(schema, After(schema, idx, o), items[1..]);
        var rest := Objects(schema, items[1..]);
        assert ([o] + rest)[1..] == rest;
      } else {
        ObjectsRun(schema, idx, items[1..]);
        assert [] + Objects(schema, items[1..]) == Objects(schema, items[1..]);
      }
    }
  }

  lemma {:induction false} ObjectsSplit(schema: Schema, a: seq<Json>, b: seq<Json>)
    requires NoneThrows(schema, a)
    ensures Objects(schema, a + b) == Objects(schema, a) + Objects(schema, b)
    decreases |a|
  {
    hide ThrowsItem;
    if a == [] {
      assert a + b == b;
      assert Objects(schema, a) + Objects(schema, b) == Objects(schema, b);
    } else {
      ObjectsSplit(schema, a[1..], b);
      assert (a + b)[1..] == a[1..] + b;
      var x := if a[0].JObject? then [a[0].members] else [];
      assert x + (Objects(schema, a[1..]) + Objects(schema, b)) == (x + Objects(schema, a[1..])) + Objects(schema, b);
    }
  }

  /** All messages of a topic in order. */
  function Flatten(schema: Schema, log: seq<Payload>): (r: seq<Object>) {
    if log == [] then [] else Flatten(schema, log[..|log| - 1]) + Objects(schema, Items(log[|log| - 1]))
  }

  /** Where the messages of payload `i` begin. */
  function Pos(schema: Schema, log: seq<Payload>, i: nat): (r: nat)
    requires i <= |log|
  {
    |Flatten(schema, log[..i])|
  }

  lemma FlattenNext(schema: Schema, log: seq<Payload>, i: nat)
    requires i < |log|
    ensures Flatten(schema, log[..i + 1]) == Flatten(schema, log[..i]) + Objects(schema, Items(log[i]))
    ensures Pos(schema, log, i + 1) == Pos(schema, log, i) + |Objects(schema, Items(log[i]))|
  {
    assert log[..i + 1][..i] == log[..i];
  }

  lemma {:induction false} FlattenPrefix(schema: Schema, log: seq<Payload>, i: nat)
    requires i <= |log|
    ensures Flatten(schema, log[..i]) <= Flatten(schema, log)
  {
    hide Objects, Items;
    if i == |log| {
      assert log[..i] == log;
    } else {
      assert log[..|log| - 1][..i] == log[..i];
      FlattenPrefix(schema, log[..|log| - 1], i);
    }
  }

  lemma {:induction false} PosGrows(schema: Schema, log: seq<Payload>, i: nat, j: nat)
    requires i <= j <= |log|
    ensures Pos(schema, log, i) <= Pos(schema, log, j)
  {
    assert log[..j][..i] == log[..i];
    FlattenPrefix(schema, log[..j], i);
  }

  /** The message at an item that is reached is the next one of the flattened topic. */
  lemma FlatAt(schema: Schema, log: seq<Payload>, n: nat, i: nat)
    requires n < |log| && i < |Items(log[n])| && NoneThrows(schema, Items(log[n])[..i])
    requires Items(log[n])[i].JObject? && !ThrowsItem(schema, Items(log[n])[i])
    ensures
      var items := Items(log[n]);
      var at := Pos(schema, log, n) + |Objects(schema, items[..i])|;
      && at < |Flatten(schema, log)| && Flatten(schema, log)[at] == items[i].members
      && |Objects(schema, items[..i + 1])| == |Objects(schema, items[..i])| + 1
  {
    hide ThrowsItem, Flatten, Items;
    var items := Items(log[n]);
    var a, o, b := items[..i], items[i].members, items[i + 1..];
    assert items == a + ([items[i]] + b) && items[..i + 1] == a + [items[i]];
    ObjectsSplit(schema, a, [items[i]] + b);
    ObjectsSplit(schema, a, [items[i]]);
    assert ([items[i]] + b)[1..] == b && [items[i]][1..] == [];
    FlattenNext(schema, log, n);
    FlattenPrefix(schema, log, n + 1);
    var head := Flatten(schema, log[..n]);
    var k := |head| + |Objects(schema, a)|;
    assert Flatten(schema, log)[k] == Flatten(schema, log[..n + 1])[k];
  }

  lemma SkipItem(schema: Schema, items: seq<Json>, i: nat)
    requires i < |items| && NoneThrows(schema, items[..i])
    ensures !ThrowsItem(schema, items[i]) ==> NoneThrows(schema, items[..i + 1])
    ensures ThrowsItem(schema, items[i]) ==> Objects(schema, items) == Objects(schema, items[..i])
    ensures !items[i].JObject? ==> |Objects(schema, items[..i + 1])| == |Objects(schema, items[..i])|
  {
    hide Throws;
    var a, b := items[..i], items[i..];
    assert items == a + b && items[..i + 1] == a + [items[i]];
    ObjectsSplit(schema, a, b);
    ObjectsSplit(schema, a, [items[i]]);
    assert [items[i]][1..] == [];
  }

  // ─── Following the consumer ────────────────────────────────────────────────

  predicate GoodTopic(schema: Schema, log: seq<Payload>) {
    forall n :: 0 <= n < |log| ==> GoodItems(Items(log[n])) && SteadyItems(schema, Items(log[n]))
  }

  lemma {:induction false} ObjectsGood(schema: Schema, items: seq<Json>)
    requires GoodItems(items)
    ensures GoodLog(Objects(schema, items))
    decreases |items|
  {
    hide ThrowsItem, UniqueKeys;
    if items != [] {
      ObjectsGood(schema, items[1..]);
    }
  }

  lemma {:induction false} FlattenGood(schema: Schema, log: seq<Payload>)
    requires GoodTopic(schema, log)
    ensures GoodLog(Flatten(schema, log))
  {
    hide UniqueKeys, GoodItems, SteadyItems, Objects;
    if log != [] {
      FlattenGood(schema, log[..|log| - 1]);
      ObjectsGood(schema, Items(log[|log| - 1]));
    }
  }

  /** Every payload applied once, in order. */
  function ApplyLog(schema: Schema, idx: Index, log: seq<Payload>): (r: Index) {
    if log == [] then idx
    else ApplyItems(schema, ApplyLog(schema, idx, log[..|log| - 1]), Items(log[|log| - 1]))
  }

  lemma {:induction false} RunConcat(schema: Schema, idx: Index, a: seq<Object>, b: seq<Object>)
    ensures RunObjects(schema, idx, a + b) == RunObjects(schema, RunObjects(schema, idx, a), b)
    decreases |a|
  {
    hide After;
    if a == [] {
      assert a + b == b;
    } else {
      assert (a + b)[1..] == a[1..] + b;
      RunConcat(schema, After(schema, idx, a[0]), a[1..], b);
    }
  }

  lemma {:induction false} ApplyLogRuns(schema: Schema, idx: Index, log: seq<Payload>)
    requires GoodTopic(schema, log)
    ensures ApplyLog(schema, idx, log) == RunObjects(schema, idx, Flatten(schema, log))
  {
    hide GoodItems, SteadyItems, Objects, Items, ApplyItems, RunObjects;
    if log == [] {
      RunNothing(schema, idx);
    } else {
      var init, last := log[..|log| - 1], Items(log[|log| - 1]);
      ApplyLogRuns(schema, idx, init);
      ObjectsRun(schema, ApplyLog(schema, idx, init), last);
      RunConcat(schema, idx, Flatten(schema, init), Objects(schema, last));
    }
  }

  lemma RunNothing(schema: Schema, idx: Index)
    ensures RunObjects(schema, idx, []) == idx
  {
  }

  /**
   What a machine is followed against: the index `idx0` before the message `first`
   of the topic.  `origin` is where the machine's history begins.
   */
  datatype Scope = Scope(schema: Schema, idx0: Index, log: seq<Payload>, first: nat, origin: nat)

  /** The messages from `first` on. */
  function Rest(x: Scope): (r: seq<Payload>)
    requires x.first <= |x.log|
  {
    x.log[x.first..]
  }

  /** Where the machine stands in the flattened rest of the topic. */
  predicate Stands(x: Scope, m: Machine, at: nat)
    requires x.first <= |x.log|
  {
    var lg := Rest(x);
    match m.proc
    case None =>
      x.first <= Resume(m.file) ==> Resume(m.file) <= |x.log| && Pos(x.schema, lg, Resume(m.file) - x.first) <= at
    case Some(Proc(next, Polling)) =>
      x.first <= next <= |x.log| && at == Pos(x.schema, lg, next - x.first)
    case Some(Proc(next, Applying(i))) =>
      && x.first <= next < |x.log|
      && var items := Items(lg[next - x.first]);
      && i <= |items| && NoneThrows(x.schema, items[..i])
      && at == Pos(x.schema, lg, next - x.first) + |Objects(x.schema, items[..i])|
    case Some(Proc(next, _)) =>
      x.first <= next < |x.log| && at == Pos(x.schema, lg, next - x.first + 1)
  }

  ghost predicate Tracks(x: Scope, m: Machine, c: Consumer) {
    && x.first <= |x.log|
    && Safe(x.origin, m) && c.idx == m.idx && Stands(x, m, c.next)
    && Converging(x.schema, x.idx0, c, Flatten(x.schema, Rest(x)))
  }

  predicate GoodScope(x: Scope) {
    x.first <= |x.log| && Replayable(x.schema) && GoodTopic(x.schema, Rest(x))
  }

  lemma TrackStart(x: Scope, m: Machine, c: Consumer) returns (c': Consumer)
    requires Tracks(x, m, c) && m.proc.None? && x.first <= Resume(m.file)
    ensures Tracks(x, Step(x.schema, m, x.log, Start), c')
  {
    hide Safe, Converging, Resume, Flatten;
    StepSafe(x.origin, x.schema, m, x.log, Start);
    var at := Pos(x.schema, Rest(x), Resume(m.file) - x.first);
    c' := c.(next := at);
    RestartConverges(x.schema, x.idx0, c, Flatten(x.schema, Rest(x)), at);
  }

  lemma TrackCrash(x: Scope, m: Machine, c: Consumer)
    requires Tracks(x, m, c) && m.proc.Some?
    ensures Tracks(x, Step(x.schema, m, x.log, Crash), c)
  {
    hide Converging, Resume, Flatten, InOrder, Covered, OffsetText, Objects, Items, Pos;
    StepSafe(x.origin, x.schema, m, x.log, Crash);
    var p := m.proc.value;
    if x.first <= Resume(m.file) {
      PosGrows(x.schema, Rest(x), Resume(m.file) - x.first, Position(p) - x.first);
    }
  }

  lemma TrackItem(x: Scope, m: Machine, c: Consumer) returns (c': Consumer)
    requires GoodScope(x) && Tracks(x, m, c) && Enabled(m, x.log, ApplyItem)
    ensures Tracks(x, Step(x.schema, m, x.log, ApplyItem), c')
  {
    hide Converging, Safe, Flatten, Objects, Items, Replayable, UniqueKeys, Steady, Throws, ApplyObject, After, Pos;
    StepSafe(x.origin, x.schema, m, x.log, ApplyItem);
    var p, lg := m.proc.value, Rest(x);
    var n := p.next - x.first;
    assert x.log[p.next] == lg[n];
    var items, i := Items(lg[n]), p.stage.item;
    c' := c;
    FlattenNext(x.schema, lg, n);
    if i == |items| {
      assert items[..i] == items;
    } else {
      SkipItem(x.schema, items, i);
      if items[i].JObject? {
        var o := items[i].members;
        assert Steady(x.schema, o);
        ThrowsIs(x.schema, m.idx, o);
        if !ThrowsItem(x.schema, items[i]) {
          FlatAt(x.schema, lg, n, i);
          FlattenGood(x.schema, lg);
          DeliverConverges(x.schema, x.idx0, c, Flatten(x.schema, lg));
          c' := Consume(x.schema, c, Flatten(x.schema, lg), Deliver);
        }
      }
    }
  }

  /** Opening, writing and closing the offset file do not move the consumer in the topic. */
  lemma TrackOther(x: Scope, m: Machine, c: Consumer, a: Action)
    requires Tracks(x, m, c) && Enabled(m, x.log, a) && a != Start && a != Crash && a != ApplyItem
    ensures Tracks(x, Step(x.schema, m, x.log, a), c)
  {
    hide Converging, Safe, Flatten, Items, OffsetText, Pos;
    StepSafe(x.origin, x.schema, m, x.log, a);
    if a == Poll {
      var items := Items(Rest(x)[m.proc.value.next - x.first]);
      assert items[..0] == [];
    }
  }

  lemma TrackStep(x: Scope, m: Machine, c: Consumer, a: Action) returns (c': Consumer)
    requires GoodScope(x) && Tracks(x, m, c) && Enabled(m, x.log, a) && (a == Start ==> x.first <= Resume(m.file))
    ensures Tracks(x, Step(x.schema, m, x.log, a), c')
  {
    hide Tracks, Step, GoodScope;
    c' := c;
    match a
    case Start => c' := TrackStart(x, m, c);
    case Crash => TrackCrash(x, m, c);
    case ApplyItem => c' := TrackItem(x, m, c);
    case _ => TrackOther(x, m, c, a);
  }

  /** A run in which no start resumes before `first`. */
  ghost predicate RunAbove(schema: Schema, first: nat, m: Machine, log: seq<Payload>, actions: seq<Action>, m': Machine)
    decreases |actions|
  {
    if actions == [] then m' == m
    else
      && Enabled(m, log, actions[0]) && (actions[0] == Start ==> first <= Resume(m.file))
      && RunAbove(schema, first, Step(schema, m, log, actions[0]), log, actions[1..], m')
  }

  lemma {:induction false} EveryRunIsAboveZero(schema: Schema, m: Machine, log: seq<Payload>, actions: seq<Action>, m': Machine)
    requires Run(schema, m, log, actions, m')
    ensures RunAbove(schema, 0, m, log, actions, m')
    decreases |actions|
  {
    hide Step, Resume;
    if actions != [] {
      EveryRunIsAboveZero(schema, Step(schema, m, log, actions[0]), log, actions[1..], m');
    }
  }

  lemma {:induction false} TrackRun(x: Scope, m: Machine, c: Consumer, actions: seq<Action>, m': Machine) returns (c': Consumer)
    requires GoodScope(x) && Tracks(x, m, c) && RunAbove(x.schema, x.first, m, x.log, actions, m')
    ensures Tracks(x, m', c')
    decreases |actions|
  {
    hide Tracks, Step, GoodScope, Resume;
    c' := c;
    if actions != [] {
      c' := TrackStep(x, m, c, actions[0]);
      c' := TrackRun(x, Step(x.schema, m, x.log, actions[0]), c', actions[1..], m');
    }
  }

  // ─── Convergence ───────────────────────────────────────────────────────────

  /** Once the end of the topic is reached, a tracked machine has the index of a single delivery. */
  lemma ConvergesAtEnd(x: Scope, m0: Machine, c0: Consumer, actions: seq<Action>, m: Machine)
    requires GoodScope(x) && GoodIndex(x.schema, x.idx0)
    requires Tracks(x, m0, c0) && RunAbove(x.schema, x.first, m0, x.log, actions, m)
    requires m.proc == Some(Proc(|x.log|, Polling))
    ensures m.idx == ApplyLog(x.schema, x.idx0, Rest(x))
  {
    hide Replayable, GoodTopic, GoodIndex, RunAbove, Resume, RunObjects, Flatten, Settled, AbsentIsClean, Safe;
    var lg := Rest(x);
    var flat := Flatten(x.schema, lg);
    var c := TrackRun(x, m0, c0, actions, m);
    assert lg[..|lg|] == lg;
    FlattenGood(x.schema, lg);
    SettledIndex(x.schema, x.idx0, c, flat);
    assert flat[c.next..c.high] == [] && flat[..c.high] == flat;
    RunNothing(x.schema, c.idx);
    ApplyLogRuns(x.schema, x.idx0, lg);
  }

  /** A stopped machine that resumes at `first` starts a new delivery from there over the index it has. */
  lemma StoppedTracks(x: Scope, m: Machine)
    requires x.first <= |x.log| && GoodIndex(x.schema, x.idx0)
    requires Safe(x.origin, m) && m.proc.None? && Resume(m.file) == x.first && m.idx == x.idx0
    ensures Tracks(x, m, Consumer(x.idx0, 0, 0))
  {
    hide Resume, Flatten, Converging, Safe, GoodIndex;
    StartConverges(x.schema, x.idx0, Flatten(x.schema, Rest(x)));
    assert Rest(x)[..0] == [];
    FlattenEmpty(x.schema);
  }

  /**
   Crashes, repeated messages, lost saves and cut-off offset files do not show: a
   consumer that resumed at `first` over the index `idx0`, never resumed before
   `first` and has come to the end of the topic leaves the index that applying
   every payload from `first` on exactly once gives.
   */
  lemma ConsumerConverges(schema: Schema, m0: Machine, idx0: Index, first: nat, origin: nat, log: seq<Payload>, actions: seq<Action>, m: Machine)
    requires Replayable(schema) && first <= |log| && GoodTopic(schema, log[first..]) && GoodIndex(schema, idx0)
    requires Safe(origin, m0) && m0.proc.None? && m0.idx == idx0 && Resume(m0.file) == first
    requires RunAbove(schema, first, m0, log, actions, m) && m.proc == Some(Proc(|log|, Polling))
    ensures m.idx == ApplyLog(schema, idx0, log[first..])
  {
    hide Replayable, GoodTopic, GoodIndex, RunAbove, Resume, Safe;
    var x := Scope(schema, idx0, log, first, origin);
    StoppedTracks(x, m0);
    ConvergesAtEnd(x, m0, Consumer(idx0, 0, 0), actions, m);
  }

  lemma InitialSafe(m: Machine, idx0: Index, first: nat)
    requires Initial(m, idx0, first)
    ensures Safe(first, m)
  {
  }

  lemma FlattenEmpty(schema: Schema)
    ensures Flatten(schema, []) == []
  {
  }

  lemma DeliverSome(schema: Schema, idx0: Index, log: seq<Object>, k: nat)
    requires k <= |log|
    ensures Reaches(schema, Consumer(idx0, 0, 0), log, DeliverTimes(k), Consumer(RunObjects(schema, idx0, log[..k]), k, k))
  {
    hide Reaches, RunObjects;
    DeliverUpto(schema, Consumer(idx0, 0, 0), log, 0, k);
    assert log[0..k] == log[..k];
  }

  /** Having applied the first `n` payloads of a topic is a point of a delivery. */
  lemma AppliedConverges(schema: Schema, idx0: Index, log: seq<Payload>, n: nat)
    requires Replayable(schema) && GoodTopic(schema, log) && GoodIndex(schema, idx0) && n <= |log|
    ensures
      var k := Pos(schema, log, n);
      Converging(schema, idx0, Consumer(ApplyLog(schema, idx0, log[..n]), k, k), Flatten(schema, log))
  {
    hide Replayable, GoodIndex, Flatten, Converging, ApplyLog, RunObjects, Items, GoodItems, SteadyItems;
    var flat, k := Flatten(schema, log), Pos(schema, log, n);
    FlattenPrefix(schema, log, n);
    assert flat[..k] == Flatten(schema, log[..n]);
    ApplyLogRuns(schema, idx0, log[..n]);
    FlattenGood(schema, log);
    StartConverges(schema, idx0, flat);
    DeliverSome(schema, idx0, flat, k);
    RunConverges(schema, idx0, Consumer(idx0, 0, 0), flat, DeliverTimes(k), Consumer(RunObjects(schema, idx0, flat[..k]), k, k));
  }

  /**
   A consumer that takes over by its offset file from a catch-up of the `n`
   payloads from `first` on, over a snapshot `idx0` made elsewhere: wherever at or
   after `first` it resumes later, it ends with the snapshot and every payload
   from `first` on applied once.
   */
  lemma HandoffConverges(schema: Schema, m0: Machine, idx0: Index, first: nat, n: nat, log: seq<Payload>, actions: seq<Action>, m: Machine)
    requires Replayable(schema) && first + n <= |log| && GoodTopic(schema, log[first..]) && GoodIndex(schema, idx0)
    requires Initial(m0, ApplyLog(schema, idx0, log[first..first + n]), first + n)
    requires RunAbove(schema, first, m0, log, actions, m) && m.proc == Some(Proc(|log|, Polling))
    ensures m.idx == ApplyLog(schema, idx0, log[first..])
  {
    hide Replayable, GoodIndex, RunAbove, Resume, Converging, Safe, ApplyLog, GoodTopic, Pos;
    var x := Scope(schema, idx0, log, first, first + n);
    InitialSafe(m0, ApplyLog(schema, idx0, log[first..first + n]), first + n);
    assert log[first..][..n] == log[first..first + n];
    AppliedConverges(schema, idx0, log[first..], n);
    var k := Pos(schema, log[first..], n);
    ConvergesAtEnd(x, m0, Consumer(m0.idx, k, k), actions, m);
  }

  // ─── Rewinding over a snapshot of the topic ────────────────────────────────

  lemma {:induction false} FlattenConcat(schema: Schema, a: seq<Payload>, b: seq<Payload>)
    ensures Flatten(schema, a + b) == Flatten(schema, a) + Flatten(schema, b)
  {
    hide Objects, Items;
    if b == [] {
      assert a + b == a;
      assert Flatten(schema, a) + [] == Flatten(schema, a);
    } else {
      var b', o := b[..|b| - 1], Objects(schema, Items(b[|b| - 1]));
      assert (a + b)[..|a + b| - 1] == a + b';
      FlattenConcat(schema, a, b');
      assert (Flatten(schema, a) + Flatten(schema, b')) + o == Flatten(schema, a) + (Flatten(schema, b') + o);
    }
  }

  lemma {:induction false} ApplyLogConcat(schema: Schema, idx: Index, a: seq<Payload>, b: seq<Payload>)
    ensures ApplyLog(schema, idx, a + b) == ApplyLog(schema, ApplyLog(schema, idx, a), b)
  {
    hide ApplyItems, Items;
    if b == [] {
      assert a + b == a;
    } else {
      assert (a + b)[..|a + b| - 1] == a + b[..|b| - 1];
      ApplyLogConcat(schema, idx, a, b[..|b| - 1]);
    }
  }

  /** A snapshot that holds the topic up to `k`, seen from an earlier message. */
  lemma SnapshotConverges(schema: Schema, idx0: Index, log: seq<Payload>, first: nat, k: nat)
    requires Replayable(schema) && GoodTopic(schema, log) && GoodIndex(schema, idx0) && first <= k <= |log|
    ensures
      var i, j := Pos(schema, log, first), Pos(schema, log, k);
      Converging(schema, idx0, Consumer(ApplyLog(schema, idx0, log[..k]), i, j), Flatten(schema, log))
  {
    hide Replayable, GoodTopic, GoodIndex, Flatten, Converging, ApplyLog, Pos;
    AppliedConverges(schema, idx0, log, k);
    PosGrows(schema, log, first, k);
    var j := Pos(schema, log, k);
    RestartConverges(schema, idx0, Consumer(ApplyLog(schema, idx0, log[..k]), j, j), Flatten(schema, log), Pos(schema, log, first));
  }

  /**
   The rewind of a catch-up is harmless: a snapshot that holds the topic up to `k`,
   caught up from `first` at or before `k` to `end` at or after it, is the topic
   up to `end` applied once.
   */
  lemma RewindIsHarmless(schema: Schema, idx0: Index, log: seq<Payload>, first: nat, k: nat, end: nat)
    requires Replayable(schema) && GoodTopic(schema, log) && GoodIndex(schema, idx0) && first <= k <= end <= |log|
    ensures ApplyLog(schema, ApplyLog(schema, idx0, log[..k]), log[first..end]) == ApplyLog(schema, idx0, log[..end])
  {
    hide Replayable, GoodIndex, RunObjects, Items, GoodItems, SteadyItems, Flatten, ApplyLog, Settled, AbsentIsClean;
    var i, j, flat := Pos(schema, log, first), Pos(schema, log, k), Flatten(schema, log);
    SnapshotConverges(schema, idx0, log, first, k);
    FlattenGood(schema, log);
    var snap := ApplyLog(schema, idx0, log[..k]);
    SettledIndex(schema, idx0, Consumer(snap, i, j), flat);
    FlattenSlice(schema, log, first, k);
    FlattenPrefix(schema, log, k);
    ApplyLogRuns(schema, snap, log[first..k]);
    ApplyLogRuns(schema, idx0, log[..k]);
    assert ApplyLog(schema, snap, log[first..k]) == snap;
    assert log[first..end] == log[first..k] + log[k..end] && log[..end] == log[..k] + log[k..end];
    ApplyLogConcat(schema, snap, log[first..k], log[k..end]);
    ApplyLogConcat(schema, idx0, log[..k], log[k..end]);
  }

  lemma FlattenSlice(schema: Schema, log: seq<Payload>, i: nat, j: nat)
    requires i <= j <= |log|
    ensures Pos(schema, log, i) <= Pos(schema, log, j) <= |Flatten(schema, log)|
    ensures Flatten(schema, log)[Pos(schema, log, i)..Pos(schema, log, j)] == Flatten(schema, log[i..j])
    ensures Flatten(schema, log)[..Pos(schema, log, j)] == Flatten(schema, log[..j])
  {
    hide Flatten;
    assert log[..j] == log[..i] + log[i..j];
    FlattenConcat(schema, log[..i], log[i..j]);
    FlattenPrefix(schema, log, j);
    var a, b := Flatten(schema, log[..i]), Flatten(schema, log[i..j]);
    assert (a + b)[|a|..] == b;
  }

  /**
   Over such a snapshot no cut of the offset file shows either: wherever the
   consumer resumes, also before `first`, it ends with the topic applied once.
   */
  lemma SnapshotConsumerConverges(schema: Schema, m0: Machine, idx0: Index, first: nat, k: nat, log: seq<Payload>, actions: seq<Action>, m: Machine)
    requires Replayable(schema) && GoodTopic(schema, log) && GoodIndex(schema, idx0) && first <= k <= |log|
    requires Initial(m0, ApplyLog(schema, idx0, log[..k]), first)
    requires Run(schema, m0, log, actions, m) && m.proc == Some(Proc(|log|, Polling))
    ensures m.idx == ApplyLog(schema, idx0, log)
  {
    hide Replayable, GoodIndex, Run, RunAbove, Resume, Converging, Safe, ApplyLog, GoodTopic, Pos;
    var x := Scope(schema, idx0, log, 0, first);
    assert Rest(x) == log;
    InitialSafe(m0, ApplyLog(schema, idx0, log[..k]), first);
    SnapshotConverges(schema, idx0, log, first, k);
    EveryRunIsAboveZero(schema, m0, log, actions, m);
    ConvergesAtEnd(x, m0, Consumer(m0.idx, Pos(schema, log, first), Pos(schema, log, k)), actions, m);
  }
}
