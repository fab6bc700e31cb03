/**
 The live Kafka consumer as a machine of small steps that may crash between any
 two of them: poll, apply item by item, rewrite the offset file byte by byte.
 The index survives a crash as it is.  The topic is the sequence of payloads.
 */
module KafkaSource {
  import opened Wrappers
  import opened StreamIngest
  import opened StreamLaws
  import opened StreamReplay
  import opened KafkaOffsets

  // ─── One payload ───────────────────────────────────────────────────────────

  datatype Payload = Garbage | Parsed(json: Json)

  /** What the payload holds to apply, in order. */
  function Items(p: Payload): (r: seq<Json>) {
    match p
    case Garbage => []
    case Parsed(JArray(items)) => items
    case Parsed(JObject(members)) => [JObject(members)]
    case Parsed(_) => []
  }

  predicate GoodItems(items: seq<Json>) {
    forall i :: 0 <= i < |items| && items[i].JObject? ==> UniqueKeys(items[i].members)
  }

  /** An exception ends the payload: the items before it stay applied. */
  function ApplyItems(schema: Schema, idx: Index, items: seq<Json>): (r: Index)
    decreases |items|
  {
    if items == [] then idx
    else if !items[0].JObject? then ApplyItems(schema, idx, items[1..])
    else if ApplyObject(schema, idx, items[0].members).Thrown? then idx
    else ApplyItems(schema, After(schema, idx, items[0].members), items[1..])
  }

  method ApplyPayload(schema: Schema, idx: KVIndex, p: Payload)
    requires GoodSchema(schema) && GoodPk(schema) && GoodIndex(schema, idx.rows) && GoodItems(Items(p))
    modifies idx
    ensures idx.rows == ApplyItems(schema, old(idx.rows), Items(p)) && GoodIndex(schema, idx.rows)
  {
    hide ApplyObject, GoodSchema, GoodPk, UniqueKeys, WellShaped;
    var items := Items(p);
    var i := 0;
    while i < |items|
      invariant 0 <= i <= |items| && GoodIndex(schema, idx.rows)
      invariant ApplyItems(schema, old(idx.rows), items) == ApplyItems(schema, idx.rows, items[i..])
    {
      assert items[i..][0] == items[i] && items[i..][1..] == items[i + 1..];
      if items[i].JObject? {
        AfterKeepsGood(schema, idx.rows, items[i].members);
        var r := idx.ApplyStreamJsonObject(schema, items[i].members);
        if r.Thrown? {
          return;
        }
      }
      i := i + 1;
    }
  }

  // ─── The machine ───────────────────────────────────────────────────────────

  datatype Stage =
    | Polling
    | Applying(item: nat)
    | Applied                    // about to open the offset file
    | Writing(chars: nat)        // the file was truncated and holds this many characters

  datatype Proc = Proc(next: nat, stage: Stage)

  /** `history` lists the messages whose processing ended. */
  datatype Machine = Machine(file: Option<string>, proc: Option<Proc>, idx: Index, history: seq<nat>)

  /**
   `SaveFails`: the offset file cannot be opened.  `WriteFails`: it was truncated
   and the rest of the text cannot be written.  The consumer goes on after both.
   */
  datatype Action = Start | Poll | ApplyItem | Truncate | WriteChar | SaveFails | WriteFails | Crash

  predicate Enabled(m: Machine, log: seq<Payload>, a: Action) {
    match a
    case Start => m.proc.None?
    case Crash => m.proc.Some?
    case Poll => m.proc.Some? && m.proc.value.stage.Polling? && m.proc.value.next < |log|
    case ApplyItem => m.proc.Some? && m.proc.value.stage.Applying? && m.proc.value.next < |log|
    case Truncate => m.proc.Some? && m.proc.value.stage.Applied?
    case SaveFails => m.proc.Some? && m.proc.value.stage.Applied?
    case WriteChar => m.proc.Some? && m.proc.value.stage.Writing?
    case WriteFails => m.proc.Some? && m.proc.value.stage.Writing?
  }

  function ItemStep(schema: Schema, m: Machine, p: Proc, items: seq<Json>): (r: Machine)
    requires p.stage.Applying?
  {
    var i := p.stage.item;
    if i >= |items| then m.(proc := Some(p.(stage := Applied)), history := m.history + [p.next])
    else if !items[i].JObject? then m.(proc := Some(p.(stage := Applying(i + 1))))
    else if ApplyObject(schema, m.idx, items[i].members).Thrown? then
      m.(proc := Some(p.(stage := Applied)), history := m.history + [p.next])
    else m.(proc := Some(p.(stage := Applying(i + 1))), idx := After(schema, m.idx, items[i].members))
  }

  function WriteStep(m: Machine, p: Proc): (r: Machine)
    requires p.stage.Writing?
  {
    var text, n := OffsetText(p.next), p.stage.chars;
    if n < |text| then m.(file := Some(text[..n + 1]), proc := Some(p.(stage := Writing(n + 1))))
    else m.(proc := Some(Proc(p.next + 1, Polling)))
  }

  function Step(schema: Schema, m: Machine, log: seq<Payload>, a: Action): (r: Machine)
    requires Enabled(m, log, a)
  {
    match a
    case Start => m.(proc := Some(Proc(Resume(m.file), Polling)))
    case Crash => m.(proc := None)
    case Poll => m.(proc := Some(m.proc.value.(stage := Applying(0))))
    case ApplyItem => ItemStep(schema, m, m.proc.value, Items(log[m.proc.value.next]))
    case Truncate => m.(file := Some(""), proc := Some(m.proc.value.(stage := Writing(0))))
    case SaveFails => m.(proc := Some(Proc(m.proc.value.next + 1, Polling)))
    case WriteFails => m.(proc := Some(Proc(m.proc.value.next + 1, Polling)))
    case WriteChar => WriteStep(m, m.proc.value)
  }

  ghost predicate Run(schema: Schema, m: Machine, log: seq<Payload>, actions: seq<Action>, m': Machine)
    decreases |actions|
  {
    if actions == [] then m' == m
    else Enabled(m, log, actions[0]) && Run(schema, Step(schema, m, log, actions[0]), log, actions[1..], m')
  }

  /** A first start over the index `idx0`: nothing read yet, and an offset file that resumes at `first`. */
  predicate Initial(m: Machine, idx0: Index, first: nat) {
    m.proc.None? && m.history == [] && m.idx == idx0 && Resume(m.file) == first
  }

  // ─── At least once and in order ────────────────────────────────────────────

  /** The end of the messages processed without a gap from `first` on. */
  function Covered(first: nat, history: seq<nat>): (r: nat)
    ensures r >= first
  {
    if history == [] then first
    else
      var n := Covered(first, history[..|history| - 1]);
      if history[|history| - 1] == n then n + 1 else n
  }

  /** No message from `first` on is processed before all messages between `first` and it. */
  predicate InOrder(first: nat, history: seq<nat>) {
    forall i :: 0 <= i < |history| ==> history[i] <= Covered(first, history[..i])
  }

  lemma InOrderPrefix(first: nat, history: seq<nat>)
    requires InOrder(first, history) && history != []
    ensures
      var init, last := history[..|history| - 1], history[|history| - 1];
      InOrder(first, init) && last <= Covered(first, init) && history == init + [last]
  {
    hide Covered;
    var init := history[..|history| - 1];
    forall i | 0 <= i < |init| ensures init[i] <= Covered(first, init[..i]) {
      assert init[..i] == history[..i];
    }
  }

  lemma {:induction false} CoveredMeans(first: nat, history: seq<nat>, x: nat)
    requires InOrder(first, history)
    ensures first <= x < Covered(first, history) ==> x in history
    ensures x in history ==> x < Covered(first, history)
  {
    hide InOrder;
    if history != [] {
      InOrderPrefix(first, history);
      CoveredMeans(first, history[..|history| - 1], x);
    }
  }

  lemma ReadNext(first: nat, history: seq<nat>, x: nat)
    requires InOrder(first, history) && x <= Covered(first, history)
    ensures InOrder(first, history + [x]) && x + 1 <= Covered(first, history + [x])
    ensures Covered(first, history) <= Covered(first, history + [x]) <= Covered(first, history) + 1
    ensures x < Covered(first, history) ==> Covered(first, history + [x]) == Covered(first, history)
  {
    var r' := history + [x];
    assert r'[..|history|] == history;
    forall i | 0 <= i < |r'| ensures r'[i] <= Covered(first, r'[..i]) {
      if i < |history| {
        assert r'[..i] == history[..i];
      }
    }
  }

  /** The position the process has reached: the message it polls, applies or has just applied. */
  function Position(p: Proc): (r: nat) {
    if p.stage.Polling? || p.stage.Applying? then p.next else p.next + 1
  }

  predicate Safe(first: nat, m: Machine) {
    && InOrder(first, m.history)
    && Resume(m.file) <= Covered(first, m.history)
    && match m.proc
       case None => true
       case Some(p) =>
         && Resume(m.file) <= Position(p) <= Covered(first, m.history)
         && (p.stage.Writing? ==> p.stage.chars <= |OffsetText(p.next)| && m.file == Some(OffsetText(p.next)[..p.stage.chars]))
  }

  lemma StepSafe(first: nat, schema: Schema, m: Machine, log: seq<Payload>, a: Action)
    requires Safe(first, m) && Enabled(m, log, a)
    ensures Safe(first, Step(schema, m, log, a))
  {
    hide Resume, OffsetText, InOrder, Covered, ApplyObject, After, Items;
    match a
    case ApplyItem =>
      ReadNext(first, m.history, m.proc.value.next);
    case Truncate =>
      TruncatedResume(m.proc.value.next, 0);
      assert OffsetText(m.proc.value.next)[..0] == "";
    case WriteChar =>
      var p := m.proc.value;
      if p.stage.chars < |OffsetText(p.next)| {
        TruncatedResume(p.next, p.stage.chars + 1);
      }
    case _ =>
  }

  lemma {:induction false} RunSafe(first: nat, schema: Schema, m: Machine, log: seq<Payload>, actions: seq<Action>, m': Machine)
    requires Safe(first, m) && Run(schema, m, log, actions, m')
    ensures Safe(first, m')
    decreases |actions|
  {
    hide Safe, Step;
    if actions != [] {
      StepSafe(first, schema, m, log, actions[0]);
      RunSafe(first, schema, Step(schema, m, log, actions[0]), log, actions[1..], m');
    }
  }

  /**
   In every run with crashes at any step, from wherever the first offset file
   resumes: messages are first processed in order, and every message between that
   point and the one where the offset file now resumes has been processed.
   */
  lemma AtLeastOnceInOrder(schema: Schema, m0: Machine, idx0: Index, first: nat, log: seq<Payload>, actions: seq<Action>, m: Machine)
    requires Initial(m0, idx0, first) && Run(schema, m0, log, actions, m)
    ensures InOrder(first, m.history)
    ensures forall x :: first <= x < Resume(m.file) ==> x in m.history
    ensures m.proc.Some? ==> forall x :: first <= x < m.proc.value.next ==> x in m.history
  {
    hide Resume, Run, InOrder;
    assert InOrder(first, []) by {
      EmptyInOrder(first);
    }
    RunSafe(first, schema, m0, log, actions, m);
    forall x | first <= x < Covered(first, m.history) ensures x in m.history {
      CoveredMeans(first, m.history, x);
    }
  }

  lemma EmptyInOrder(first: nat)
    ensures InOrder(first, [])
  {
  }

  // ─── At most one repetition when saving works ──────────────────────────────

  /** No save fails and no crash hits while the file is being rewritten. */
  predicate CleanAction(m: Machine, a: Action) {
    a != SaveFails && a != WriteFails && (a == Crash ==> m.proc.Some? && !m.proc.value.stage.Writing?)
  }

  ghost predicate CleanRun(schema: Schema, m: Machine, log: seq<Payload>, actions: seq<Action>, m': Machine)
    decreases |actions|
  {
    if actions == [] then m' == m
    else
      && Enabled(m, log, actions[0]) && CleanAction(m, actions[0])
      && CleanRun(schema, Step(schema, m, log, actions[0]), log, actions[1..], m')
  }

  predicate NearlySaved(first: nat, m: Machine) {
    && Safe(first, m)
    && match m.proc
       case None => Covered(first, m.history) <= Resume(m.file) + 1
       case Some(p) =>
         if p.stage.Polling? || p.stage.Applying? then Resume(m.file) == p.next && Covered(first, m.history) <= p.next + 1
         else Covered(first, m.history) == p.next + 1 && (p.stage.Applied? ==> Resume(m.file) == p.next)
  }

  lemma StepNearlySaved(first: nat, schema: Schema, m: Machine, log: seq<Payload>, a: Action)
    requires NearlySaved(first, m) && Enabled(m, log, a) && CleanAction(m, a)
    ensures NearlySaved(first, Step(schema, m, log, a))
  {
    hide Resume, OffsetText, InOrder, Covered, ApplyObject, After, Items;
    StepSafe(first, schema, m, log, a);
    match a
    case ApplyItem =>
      ReadNext(first, m.history, m.proc.value.next);
    case WriteChar =>
      var p := m.proc.value;
      if p.stage.chars >= |OffsetText(p.next)| {
        TruncatedResume(p.next, p.stage.chars);
        DigitsFit(p.next);
      }
    case _ =>
  }

  lemma DigitsFit(n: nat)
    ensures |Digits(n)| < |OffsetText(n)|
  {
  }

  lemma {:induction false} CleanRunSaved(first: nat, schema: Schema, m: Machine, log: seq<Payload>, actions: seq<Action>, m': Machine)
    requires NearlySaved(first, m) && CleanRun(schema, m, log, actions, m')
    ensures NearlySaved(first, m')
    decreases |actions|
  {
    hide Step, NearlySaved;
    if actions != [] {
      StepNearlySaved(first, schema, m, log, actions[0]);
      CleanRunSaved(first, schema, Step(schema, m, log, actions[0]), log, actions[1..], m');
    }
  }

  /** If every save succeeds, a restarted consumer repeats at most one message. */
  lemma AtMostOneRepeated(schema: Schema, m0: Machine, idx0: Index, first: nat, log: seq<Payload>, actions: seq<Action>, m: Machine)
    requires Initial(m0, idx0, first) && CleanRun(schema, m0, log, actions, m) && m.proc.None?
    ensures forall x, y :: x in m.history && y in m.history && Resume(m.file) <= x && Resume(m.file) <= y ==> x == y
    ensures forall x :: first <= x < Resume(m.file) ==> x in m.history
  {
    hide CleanRun, Resume, InOrder;
    EmptyInOrder(first);
    CleanRunSaved(first, schema, m0, log, actions, m);
    forall x: nat
      ensures first <= x < Covered(first, m.history) ==> x in m.history
      ensures x in m.history ==> x < Covered(first, m.history)
    {
      CoveredMeans(first, m.history, x);
    }
  }
}
