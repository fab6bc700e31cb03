/**
 An offset file that is cut while it is rewritten and then resumes before the
 messages the snapshot was taken at: what the consumer ends with, and exactly which
 rows end as without the cut.
 */
module KafkaCut {
  import opened Wrappers
  import opened StreamIngest
  import opened StreamLaws
  import opened StreamReplay
  import opened StreamEffects
  import opened KafkaOffsets
  import opened KafkaSource
  import opened KafkaConvergence
  import opened KafkaRedelivery

  // ─── Every run ─────────────────────────────────────────────────────────────

  lemma RowOfLog(schema: Schema, idx: Index, log: seq<Payload>, key: string)
    requires Replayable(schema) && GoodTopic(schema, log) && GoodIndex(schema, idx)
    ensures Row(ApplyLog(schema, idx, log), key) == RunRow(schema, Row(idx, key), Flatten(schema, log), key)
  {
    hide GoodTopic, GoodIndex, ApplyLog, Flatten, RunRow;
    ApplyLogRuns(schema, idx, log);
    FlattenGood(schema, log);
    RunIsByRow(schema, idx, Flatten(schema, log), key);
  }

  /** The index of a tracked machine and the index it is tracked against lead to the same rows. */
  lemma TrackedRow(x: Scope, m: Machine, c: Consumer, key: string)
    requires GoodScope(x) && GoodIndex(x.schema, x.idx0) && Tracks(x, m, c)
    ensures GoodIndex(x.schema, m.idx)
    ensures RunRow(x.schema, Row(m.idx, key), Flatten(x.schema, Rest(x)), key)
         == RunRow(x.schema, Row(x.idx0, key), Flatten(x.schema, Rest(x)), key)
  {
    hide GoodScope, Safe, Stands, Flatten, RunRow, AbsentIsClean, GoodIndex;
    var flat := Flatten(x.schema, Rest(x));
    assert Settled(x.schema, Row(x.idx0, key), Row(c.idx, key), flat, key, c.next, c.high);
    assert Replay(x.schema, Row(c.idx, key), flat, key, 0, c.high) == Replay(x.schema, Row(x.idx0, key), flat, key, 0, c.high);
    assert flat == flat[0..c.high] + flat[c.high..];
    RunRowConcat(x.schema, Row(c.idx, key), flat[0..c.high], flat[c.high..], key);
    RunRowConcat(x.schema, Row(x.idx0, key), flat[0..c.high], flat[c.high..], key);
  }

  /** The messages between the cut and `first` are undone by those from `first` on, wherever the crash was. */
  predicate CutUndone(schema: Schema, log: seq<Payload>, r: nat, first: nat, key: string)
    requires r <= first <= |log|
  {
    Undoes(schema, [], Flatten(schema, log[r..first]), Flatten(schema, log[first..]), key)
  }

  /**
   A cut that resumes at `r` before `first`, over a snapshot that does not come from
   the topic: the consumer ends with the payloads from `r` on applied over the index
   of the crash, and every row that the messages from `first` on restore ends as
   without the cut.
   */
  lemma CutBeforeFirst(schema: Schema, m0: Machine, idx0: Index, first: nat, log: seq<Payload>, before: seq<Action>, m1: Machine, after: seq<Action>, m: Machine)
    requires Replayable(schema) && first <= |log| && GoodTopic(schema, log) && GoodIndex(schema, idx0)
    requires Initial(m0, idx0, first) && RunAbove(schema, first, m0, log, before, m1)
    requires m1.proc.None? && Resume(m1.file) < first
    requires RunAbove(schema, Resume(m1.file), m1, log, after, m) && m.proc == Some(Proc(|log|, Polling))
    ensures m.idx == ApplyLog(schema, m1.idx, log[Resume(m1.file)..])
    ensures forall key :: CutUndone(schema, log, Resume(m1.file), first, key) ==>
      Row(m.idx, key) == Row(ApplyLog(schema, idx0, log[first..]), key)
  {
    hide GoodIndex, RunAbove, Resume, Safe, ApplyLog, Tracks, RunRow, Flatten, CutUndone, Items, GoodItems, SteadyItems, Replayable;
    var x, r := Scope(schema, idx0, log, first, first), Resume(m1.file);
    InitialSafe(m0, idx0, first);
    StoppedTracks(x, m0);
    var c1 := TrackRun(x, m0, Consumer(idx0, 0, 0), before, m1);
    TrackedRow(x, m1, c1, "");
    assert Safe(first, m1) by {
      TrackedSafe(x, m1, c1);
    }
    ConsumerConverges(schema, m1, m1.idx, r, first, log, after, m);
    forall key | CutUndone(schema, log, r, first, key)
      ensures Row(m.idx, key) == Row(ApplyLog(schema, idx0, log[first..]), key)
    {
      TrackedRow(x, m1, c1, key);
      CutRow(schema, m1.idx, idx0, log, r, first, key);
    }
  }

  lemma TrackedSafe(x: Scope, m: Machine, c: Consumer)
    requires Tracks(x, m, c)
    ensures Safe(x.origin, m)
  {
  }

  lemma PartGood(schema: Schema, log: seq<Payload>, i: nat, j: nat)
    requires GoodTopic(schema, log) && i <= j <= |log|
    ensures GoodTopic(schema, log[i..j]) && GoodLog(Flatten(schema, log[i..j]))
  {
    hide Flatten, GoodItems, SteadyItems, Items, GoodLog;
    FlattenGood(schema, log[i..j]);
  }

  lemma NoneGood()
    ensures GoodLog([])
  {
  }

  lemma CutRow(schema: Schema, idx1: Index, idx0: Index, log: seq<Payload>, r: nat, first: nat, key: string)
    requires Replayable(schema) && GoodTopic(schema, log) && GoodIndex(schema, idx0) && GoodIndex(schema, idx1) && r <= first <= |log|
    requires
      var flat := Flatten(schema, log[first..]);
      RunRow(schema, Row(idx1, key), flat, key) == RunRow(schema, Row(idx0, key), flat, key)
    requires CutUndone(schema, log, r, first, key)
    ensures Row(ApplyLog(schema, idx1, log[r..]), key) == Row(ApplyLog(schema, idx0, log[first..]), key)
  {
    hide ApplyLog, RunRow, Flatten, Undoes, GoodTopic, Replayable, WellShaped, GoodLog;
    var a, b := log[r..first], log[first..];
    assert log[r..] == a + b && log[first..|log|] == b && log[r..|log|] == log[r..];
    PartGood(schema, log, r, first);
    PartGood(schema, log, first, |log|);
    PartGood(schema, log, r, |log|);
    NoneGood();
    RowOfLog(schema, idx1, log[r..], key);
    RowOfLog(schema, idx0, b, key);
    FlattenConcat(schema, a, b);
    var row1, fa, fb := Row(idx1, key), Flatten(schema, a), Flatten(schema, b);
    assert GoodRow(schema, row1);
    UndoesEveryRow(schema, [], fa, fb, key, row1);
    assert [] + fb == fb && RunRow(schema, row1, [], key) == row1 by {
      RunEmpty(schema, row1, key);
    }
  }

  lemma RunEmpty(schema: Schema, row: Option<Doc>, key: string)
    ensures RunRow(schema, row, [], key) == row
  {
  }

  // ─── A run with a cut ──────────────────────────────────────────────────────

  ghost predicate Goes(schema: Schema, m: Machine, log: seq<Payload>, m': Machine) {
    exists actions :: Run(schema, m, log, actions, m')
  }

  lemma {:induction false} RunTrans(schema: Schema, m: Machine, log: seq<Payload>, a: seq<Action>, m1: Machine, b: seq<Action>, m2: Machine)
    requires Run(schema, m, log, a, m1) && Run(schema, m1, log, b, m2)
    ensures Run(schema, m, log, a + b, m2)
    decreases |a|
  {
    hide Step, Enabled;
    if a == [] {
      assert a + b == b;
    } else {
      assert (a + b)[0] == a[0] && (a + b)[1..] == a[1..] + b;
      RunTrans(schema, Step(schema, m, log, a[0]), log, a[1..], m1, b, m2);
    }
  }

  lemma GoesTrans(schema: Schema, m: Machine, log: seq<Payload>, m1: Machine, m2: Machine)
    requires Goes(schema, m, log, m1) && Goes(schema, m1, log, m2)
    ensures Goes(schema, m, log, m2)
  {
    hide Run;
    var a :| Run(schema, m, log, a, m1);
    var b :| Run(schema, m1, log, b, m2);
    RunTrans(schema, m, log, a, m1, b, m2);
  }

  lemma GoesStep(schema: Schema, m: Machine, log: seq<Payload>, a: Action)
    requires Enabled(m, log, a)
    ensures Goes(schema, m, log, Step(schema, m, log, a)) && Goes(schema, m, log, m)
  {
    hide Step, Enabled;
    assert [a][1..] == [];
    assert Run(schema, m, log, [a], Step(schema, m, log, a));
    assert Run(schema, m, log, [], m);
  }

  /** The items of a payload are applied one by one. */
  lemma {:induction false} ItemsGo(schema: Schema, m: Machine, log: seq<Payload>, x: nat, j: nat)
    requires x < |log| && j <= |Items(log[x])| && m.proc == Some(Proc(x, Applying(j)))
    ensures Goes(schema, m, log,
      m.(proc := Some(Proc(x, Applied)), idx := ApplyItems(schema, m.idx, Items(log[x])[j..]), history := m.history + [x]))
    decreases |Items(log[x])| - j
  {
    hide ApplyObject, After, Items, Goes;
    var items := Items(log[x]);
    var m' := Step(schema, m, log, ApplyItem);
    GoesStep(schema, m, log, ApplyItem);
    if j == |items| {
      assert items[j..] == [];
    } else {
      assert items[j..][0] == items[j] && items[j..][1..] == items[j + 1..];
      if m'.proc.value.stage.Applying? {
        ItemsGo(schema, m', log, x, j + 1);
        GoesTrans(schema, m, log, m', m'.(proc := Some(Proc(x, Applied)), idx := ApplyItems(schema, m'.idx, items[j + 1..]), history := m'.history + [x]));
      }
    }
  }

  /** The offset text is written up to any of its characters. */
  lemma {:induction false} CharsGo(schema: Schema, m: Machine, log: seq<Payload>, x: nat, j: nat, k: nat)
    requires j <= k <= |OffsetText(x)| && m.proc == Some(Proc(x, Writing(j))) && m.file == Some(OffsetText(x)[..j])
    ensures Goes(schema, m, log, m.(proc := Some(Proc(x, Writing(k))), file := Some(OffsetText(x)[..k])))
    decreases k - j
  {
    hide OffsetText, Goes;
    GoesStep(schema, m, log, WriteChar);
    if j == k {
      assert m == m.(proc := Some(Proc(x, Writing(k))), file := Some(OffsetText(x)[..k]));
    } else {
      var m' := Step(schema, m, log, WriteChar);
      CharsGo(schema, m', log, x, j + 1, k);
      GoesTrans(schema, m, log, m', m'.(proc := Some(Proc(x, Writing(k))), file := Some(OffsetText(x)[..k])));
    }
  }

  /** One message up to any character of its offset. */
  function Reached(schema: Schema, m: Machine, log: seq<Payload>, x: nat, k: nat): (r: Machine)
    requires x < |log| && k <= |OffsetText(x)|
  {
    Machine(Some(OffsetText(x)[..k]), Some(Proc(x, Writing(k))), ApplyItems(schema, m.idx, Items(log[x])), m.history + [x])
  }

  lemma MessageGoes(schema: Schema, m: Machine, log: seq<Payload>, x: nat, k: nat)
    requires x < |log| && k <= |OffsetText(x)| && m.proc == Some(Proc(x, Polling))
    ensures Goes(schema, m, log, Reached(schema, m, log, x, k))
  {
    hide OffsetText, Goes, Items, ApplyItems;
    GoesStep(schema, m, log, Poll);
    var m1 := Step(schema, m, log, Poll);
    ItemsGo(schema, m1, log, x, 0);
    assert Items(log[x])[0..] == Items(log[x]);
    var m2 := m1.(proc := Some(Proc(x, Applied)), idx := ApplyItems(schema, m.idx, Items(log[x])), history := m.history + [x]);
    GoesTrans(schema, m, log, m1, m2);
    GoesStep(schema, m2, log, Truncate);
    var m3 := Step(schema, m2, log, Truncate);
    GoesTrans(schema, m, log, m2, m3);
    assert OffsetText(x)[..0] == "";
    CharsGo(schema, m3, log, x, 0, k);
    GoesTrans(schema, m, log, m3, m3.(proc := Some(Proc(x, Writing(k))), file := Some(OffsetText(x)[..k])));
  }

  /** Messages without a crash, from `x` to `y`. */
  lemma {:induction false} MessagesGo(schema: Schema, m: Machine, log: seq<Payload>, x: nat, y: nat) returns (m': Machine)
    requires x <= y <= |log| && m.proc == Some(Proc(x, Polling))
    ensures Goes(schema, m, log, m') && m'.proc == Some(Proc(y, Polling)) && m'.idx == ApplyLog(schema, m.idx, log[x..y])
    decreases y - x
  {
    hide OffsetText, Goes, Items, ApplyItems;
    if x == y {
      m' := m;
      GoesStep(schema, m, log, Crash);
      assert log[x..y] == [];
    } else {
      var k := |OffsetText(x)|;
      MessageGoes(schema, m, log, x, k);
      var m1 := Reached(schema, m, log, x, k);
      GoesStep(schema, m1, log, WriteChar);
      var m2 := Step(schema, m1, log, WriteChar);
      GoesTrans(schema, m, log, m1, m2);
      m' := MessagesGo(schema, m2, log, x + 1, y);
      GoesTrans(schema, m, log, m2, m');
      ApplyOne(schema, m.idx, log[x]);
      assert log[x..y] == [log[x]] + log[x + 1..y];
      ApplyLogConcat(schema, m.idx, [log[x]], log[x + 1..y]);
    }
  }

  lemma ApplyOne(schema: Schema, idx: Index, p: Payload)
    ensures ApplyLog(schema, idx, [p]) == ApplyItems(schema, idx, Items(p))
  {
    hide ApplyItems, Items;
    assert [p][..0] == [];
  }

  /** One message whose save fails: after `k` characters, or before the file could be opened. */
  lemma UnsavedGoes(schema: Schema, m: Machine, log: seq<Payload>, x: nat, k: Option<nat>)
    requires x < |log| && m.proc == Some(Proc(x, Polling)) && (k.Some? ==> k.value <= |OffsetText(x)|)
    ensures Goes(schema, m, log, Machine(
      if k.Some? then Some(OffsetText(x)[..k.value]) else m.file, Some(Proc(x + 1, Polling)), ApplyItems(schema, m.idx, Items(log[x])), m.history + [x]))
  {
    hide OffsetText, Goes, Items, ApplyItems;
    if k.Some? {
      MessageGoes(schema, m, log, x, k.value);
      var m1 := Reached(schema, m, log, x, k.value);
      GoesStep(schema, m1, log, WriteFails);
      GoesTrans(schema, m, log, m1, Step(schema, m1, log, WriteFails));
    } else {
      GoesStep(schema, m, log, Poll);
      var m1 := Step(schema, m, log, Poll);
      ItemsGo(schema, m1, log, x, 0);
      assert Items(log[x])[0..] == Items(log[x]);
      var m2 := m1.(proc := Some(Proc(x, Applied)), idx := ApplyItems(schema, m.idx, Items(log[x])), history := m.history + [x]);
      GoesTrans(schema, m, log, m1, m2);
      GoesStep(schema, m2, log, SaveFails);
      GoesTrans(schema, m, log, m2, Step(schema, m2, log, SaveFails));
    }
  }

  /** Failing saves do not stop a consumer: there is a run to the end of the topic that never saves. */
  lemma {:induction false} NeverSaving(schema: Schema, m: Machine, log: seq<Payload>, x: nat) returns (m': Machine)
    requires x <= |log| && m.proc == Some(Proc(x, Polling))
    ensures Goes(schema, m, log, m') && m'.proc == Some(Proc(|log|, Polling)) && m'.file == m.file && m'.idx == ApplyLog(schema, m.idx, log[x..])
    decreases |log| - x
  {
    hide OffsetText, Goes, Items, ApplyItems;
    if x == |log| {
      m' := m;
      GoesStep(schema, m, log, Crash);
      assert log[x..] == [];
    } else {
      UnsavedGoes(schema, m, log, x, None);
      var m1 := Machine(m.file, Some(Proc(x + 1, Polling)), ApplyItems(schema, m.idx, Items(log[x])), m.history + [x]);
      m' := NeverSaving(schema, m1, log, x + 1);
      GoesTrans(schema, m, log, m1, m');
      ApplyOne(schema, m.idx, log[x]);
      assert log[x..] == [log[x]] + log[x + 1..];
      ApplyLogConcat(schema, m.idx, [log[x]], log[x + 1..]);
    }
  }

  /** What the consumer ends with when it crashes in the offset of message `n` and resumes at `r`. */
  function CutEnd(schema: Schema, idx0: Index, log: seq<Payload>, first: nat, n: nat, r: nat): (idx: Index)
    requires r <= first <= n < |log|
  {
    ApplyLog(schema, ApplyLog(schema, idx0, log[first..n + 1]), log[r..])
  }

  /**
   Every such cut happens: from any first start there is a run that crashes after
   `k` characters of the offset of message `n`, resumes where they say, and reads to
   the end of the topic.
   */
  lemma CutHappens(schema: Schema, m0: Machine, idx0: Index, first: nat, log: seq<Payload>, n: nat, k: nat) returns (m: Machine)
    requires Initial(m0, idx0, first) && first <= n < |log| && k <= |OffsetText(n)| && Resume(Some(OffsetText(n)[..k])) <= first
    ensures Goes(schema, m0, log, m) && m.proc == Some(Proc(|log|, Polling))
    ensures m.idx == CutEnd(schema, idx0, log, first, n, Resume(Some(OffsetText(n)[..k])))
  {
    hide OffsetText, Goes, Items, ApplyItems, ApplyLog, Resume;
    GoesStep(schema, m0, log, Start);
    var m1 := Step(schema, m0, log, Start);
    var m2 := MessagesGo(schema, m1, log, first, n);
    GoesTrans(schema, m0, log, m1, m2);
    MessageGoes(schema, m2, log, n, k);
    var m3 := Reached(schema, m2, log, n, k);
    GoesTrans(schema, m0, log, m2, m3);
    assert log[first..n + 1] == log[first..n] + [log[n]];
    ApplyLogConcat(schema, idx0, log[first..n], [log[n]]);
    ApplyOne(schema, m2.idx, log[n]);
    GoesStep(schema, m3, log, Crash);
    var m4 := Step(schema, m3, log, Crash);
    GoesTrans(schema, m0, log, m3, m4);
    GoesStep(schema, m4, log, Start);
    var m5 := Step(schema, m4, log, Start);
    GoesTrans(schema, m0, log, m4, m5);
    var r := Resume(m4.file);
    m := MessagesGo(schema, m5, log, r, |log|);
    GoesTrans(schema, m0, log, m5, m);
    assert log[r..|log|] == log[r..];
  }

  // ─── Exactly which rows ────────────────────────────────────────────────────

  /** The row ends as without the cut, whatever the snapshot holds. */
  ghost predicate CutIsHarmless(schema: Schema, log: seq<Payload>, first: nat, n: nat, r: nat, key: string)
    requires r <= first <= n < |log|
  {
    forall idx0 :: GoodIndex(schema, idx0) ==>
      Row(CutEnd(schema, idx0, log, first, n, r), key) == Row(ApplyLog(schema, idx0, log[first..]), key)
  }

  lemma CutEndRow(schema: Schema, idx0: Index, log: seq<Payload>, first: nat, n: nat, r: nat, key: string)
    requires Replayable(schema) && GoodTopic(schema, log) && GoodIndex(schema, idx0) && r <= first <= n < |log|
    ensures
      var done, extra, todo := Flatten(schema, log[first..n + 1]), Flatten(schema, log[r..first]), Flatten(schema, log[n + 1..]);
      (Row(CutEnd(schema, idx0, log, first, n, r), key) == Row(ApplyLog(schema, idx0, log[first..]), key)) <==>
        UndoneAt(schema, done, extra, todo, key, Row(idx0, key))
  {
    hide ApplyLog, RunRow, Flatten, GoodTopic, GoodIndex, GoodSchema, GoodPk, ScalarSchema;
    PartGood(schema, log, first, n + 1);
    PartGood(schema, log, r, |log|);
    PartGood(schema, log, first, |log|);
    assert log[r..|log|] == log[r..] && log[first..|log|] == log[first..];
    var idx1 := ApplyLog(schema, idx0, log[first..n + 1]);
    RowOfLog(schema, idx0, log[first..n + 1], key);
    RowOfLog(schema, idx0, log[first..], key);
    ApplyLogRuns(schema, idx0, log[first..n + 1]);
    RunIsByRow(schema, idx0, Flatten(schema, log[first..n + 1]), key);
    RowOfLog(schema, idx1, log[r..], key);
    assert log[first..] == log[first..n + 1] + log[n + 1..];
    assert log[r..] == log[r..first] + log[first..];
    FlattenConcat(schema, log[first..n + 1], log[n + 1..]);
    FlattenConcat(schema, log[r..first], log[first..]);
  }

  /**
   Exactly when: the messages from `first` on delete the row, or they fix every field
   that the messages between `r` and `first` fix and an absent row ends the same.
   */
  lemma CutIsHarmlessIff(schema: Schema, log: seq<Payload>, first: nat, n: nat, r: nat, key: string)
    requires Replayable(schema) && GoodTopic(schema, log) && r <= first <= n < |log|
    ensures CutIsHarmless(schema, log, first, n, r, key) <==>
      Undoes(schema, Flatten(schema, log[first..n + 1]), Flatten(schema, log[r..first]), Flatten(schema, log[n + 1..]), key)
  {
    hide ApplyLog, RunRow, Flatten, GoodTopic, Replayable, CutEnd, Undoes, UndoneAt, WellShaped;
    var done, extra, todo := Flatten(schema, log[first..n + 1]), Flatten(schema, log[r..first]), Flatten(schema, log[n + 1..]);
    PartGood(schema, log, first, n + 1);
    PartGood(schema, log, r, first);
    PartGood(schema, log, n + 1, |log|);
    assert log[n + 1..|log|] == log[n + 1..];
    UndoneIff(schema, done, extra, todo, key);
    if AlwaysUndone(schema, done, extra, todo, key) {
      forall idx0 | GoodIndex(schema, idx0)
        ensures Row(CutEnd(schema, idx0, log, first, n, r), key) == Row(ApplyLog(schema, idx0, log[first..]), key)
      {
        assert GoodRow(schema, Row(idx0, key));
        CutEndRow(schema, idx0, log, first, n, r, key);
      }
    } else {
      var row :| GoodRow(schema, row) && !UndoneAt(schema, done, extra, todo, key, row);
      var idx0: Index := if row.Some? then map[key := row.value] else map[];
      assert GoodIndex(schema, idx0) && Row(idx0, key) == row;
      CutEndRow(schema, idx0, log, first, n, r, key);
    }
  }

  /** A row that no message from `first` on touches survives the cut exactly if none between `r` and `first` touches it. */
  lemma UntouchedCutIff(schema: Schema, log: seq<Payload>, first: nat, n: nat, r: nat, key: string)
    requires Replayable(schema) && GoodTopic(schema, log) && r <= first <= n < |log|
    requires !Touches(schema, Flatten(schema, log[first..]), key)
    ensures CutIsHarmless(schema, log, first, n, r, key) <==> !Touches(schema, Flatten(schema, log[r..first]), key)
  {
    hide Flatten, GoodTopic, Replayable, CutIsHarmless, Undoes, Touches;
    CutIsHarmlessIff(schema, log, first, n, r, key);
    PartGood(schema, log, first, n + 1);
    PartGood(schema, log, r, first);
    PartGood(schema, log, n + 1, |log|);
    assert log[n + 1..|log|] == log[n + 1..] && log[first..] == log[first..n + 1] + log[n + 1..];
    FlattenConcat(schema, log[first..n + 1], log[n + 1..]);
    UntouchedUndoes(schema, Flatten(schema, log[first..n + 1]), Flatten(schema, log[r..first]), Flatten(schema, log[n + 1..]), key);
  }

  // ─── A witness ─────────────────────────────────────────────────────────────

  /** Message 2 upserts "y"; no other payload holds a message. */
  function OneUpsert(): (r: seq<Payload>) {
    [Garbage, Garbage] + [Parsed(JObject([("k", JString("y"))]))] + Silence(8)
  }

  function Silence(n: nat): (r: seq<Payload>)
    ensures |r| == n
  {
    seq(n, _ => Garbage)
  }

  lemma {:induction false} SilenceIsEmpty(schema: Schema, n: nat)
    ensures Flatten(schema, Silence(n)) == []
  {
    if n > 0 {
      SilenceIsEmpty(schema, n - 1);
      assert Silence(n)[..n - 1] == Silence(n - 1);
    }
  }

  lemma OneUpsertGood()
    ensures |OneUpsert()| == 11 && GoodTopic(TwoFields(), OneUpsert())
  {
    hide EffectOn, Steady, Throws, UniqueKeys, TwoFields;
    UpsertOfY();
    var log := OneUpsert();
    forall n | 0 <= n < |log| ensures GoodItems(Items(log[n])) && SteadyItems(TwoFields(), Items(log[n])) {
      assert n != 2 ==> log[n] == Garbage;
    }
  }

  lemma OneUpsertParts()
    ensures |OneUpsert()| == 11
    ensures Flatten(TwoFields(), OneUpsert()[5..]) == [] && Flatten(TwoFields(), OneUpsert()[2..5]) == [[("k", JString("y"))]]
  {
    hide Objects, EffectOn, Steady, Throws, UniqueKeys, TwoFields, Flatten;
    var schema, y: Object, log := TwoFields(), [("k", JString("y"))], OneUpsert();
    UpsertOfY();
    assert log[5..] == Silence(6);
    assert log[2..5] == [Parsed(JObject(y))] + Silence(2);
    SilenceIsEmpty(schema, 6);
    SilenceIsEmpty(schema, 2);
    FlattenConcat(schema, [Parsed(JObject(y))], Silence(2));
    FlattenOne(schema, y);
  }

  lemma FlattenOne(schema: Schema, y: Object)
    requires !Throws(schema, y)
    ensures Flatten(schema, [Parsed(JObject(y))]) == [y]
  {
    hide Throws, Objects;
    OneObject(schema, y);
    assert [Parsed(JObject(y))][..0] == [];
  }

  /** A snapshot taken at message 5, a crash after the first digit of offset 10: the consumer resumes at 2 and "y" shows it. */
  lemma CutShows()
    ensures OffsetText(10)[..1] == "1" && Resume(Some("1")) == 2
    ensures |OneUpsert()| == 11 && !CutIsHarmless(TwoFields(), OneUpsert(), 5, 10, 2, "y")
  {
    hide EffectOn, TwoFields, OneUpsert, CutIsHarmless, Flatten;
    OneUpsertGood();
    OneUpsertParts();
    UpsertOfY();
    TwoFieldsReplay();
    var y: Object := [("k", JString("y"))];
    assert [y][0] == y && Touches(TwoFields(), [y], "y");
    UntouchedCutIff(TwoFields(), OneUpsert(), 5, 10, 2, "y");
    assert Digits(10) == "10";
    TruncatedResumeIs(10, 1);
    assert Pow10(1) == 10;
  }

  lemma TwoFieldsReplay()
    ensures Replayable(TwoFields())
  {
  }
}
