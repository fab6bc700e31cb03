/**
 Two consumers of one table during a reload.  Until the old slot is drained the old
 and the new consumer read the same topic and save to the same offset file, without
 a lock.  A save truncates the file and writes the text in one piece; the pieces of
 the two consumers interleave in any way.
 */
module KafkaShared {
  import opened Wrappers
  import opened StreamIngest
  import opened KafkaOffsets
  import opened KafkaSource

  datatype Who = Old | New

  datatype WorkerStage =
    | Waiting
    | Ready
    | Done       // processed a message, about to open the offset file
    | Opened     // truncated it
    | Gone

  datatype Worker = Worker(start: nat, next: nat, stage: WorkerStage)

  /** `history` says who processed which message, in order. */
  datatype Pair = Pair(file: Option<string>, oldOne: Worker, newOne: Worker, history: seq<(Who, nat)>)

  datatype Move = Begin(w: Who) | Process(w: Who) | Open(w: Who) | Write(w: Who) | Skip(w: Who) | Stop(w: Who)

  function The(s: Pair, w: Who): (r: Worker) {
    if w.Old? then s.oldOne else s.newOne
  }

  function With(s: Pair, w: Who, x: Worker): (r: Pair) {
    if w.Old? then s.(oldOne := x) else s.(newOne := x)
  }

  predicate Possible(s: Pair, m: Move) {
    var stage := The(s, m.w).stage;
    match m
    case Begin(_) => stage.Waiting?
    case Process(_) => stage.Ready?
    case Open(_) => stage.Done?
    case Write(_) => stage.Opened?
    case Skip(_) => stage.Done? || stage.Opened?
    case Stop(_) => !stage.Gone?
  }

  /** A text written over what the file holds: a longer text before it keeps its end. */
  function Over(text: string, file: Option<string>): (r: string) {
    text + if file.Some? && |file.value| > |text| then file.value[|text|..] else ""
  }

  function Do(s: Pair, m: Move): (r: Pair)
    requires Possible(s, m)
  {
    var x := The(s, m.w);
    match m
    case Begin(w) => With(s, w, Worker(Resume(s.file), Resume(s.file), Ready))
    case Process(w) => With(s, w, x.(stage := Done)).(history := s.history + [(w, x.next)])
    case Open(w) => With(s, w, x.(stage := Opened)).(file := Some(""))
    case Write(w) => With(s, w, x.(next := x.next + 1, stage := Ready)).(file := Some(Over(OffsetText(x.next), s.file)))
    case Skip(w) => With(s, w, x.(next := x.next + 1, stage := Ready))
    case Stop(w) => With(s, w, x.(next := Reached(x), stage := Gone))
  }

  /** The first message this consumer has not processed. */
  function Reached(x: Worker): (r: nat) {
    if x.stage.Done? || x.stage.Opened? then x.next + 1 else x.next
  }

  ghost predicate Interleaving(s: Pair, moves: seq<Move>, s': Pair)
    decreases |moves|
  {
    if moves == [] then s' == s else Possible(s, moves[0]) && Interleaving(Do(s, moves[0]), moves[1..], s')
  }

  predicate Fresh(s: Pair, first: nat) {
    s.oldOne.stage.Waiting? && s.newOne.stage.Waiting? && s.history == [] && Resume(s.file) == first
  }

  /** A consumer that cannot save goes on with the next message, and leaves the file to what it was cut to. */
  lemma GoesOnUnsaved(s: Pair, w: Who)
    requires The(s, w).stage.Done? || The(s, w).stage.Opened?
    ensures Possible(s, Skip(w))
    ensures
      var r := Do(s, Skip(w));
      r.file == s.file && r.history == s.history && Reached(The(r, w)) == Reached(The(s, w)) && Possible(r, Process(w))
  {
  }

  // ─── Together they miss nothing ────────────────────────────────────────────

  function Messages(history: seq<(Who, nat)>): (r: seq<nat>)
    ensures |r| == |history|
  {
    seq(|history|, i requires 0 <= i < |history| => history[i].1)
  }

  lemma MessagesNext(history: seq<(Who, nat)>, w: Who, x: nat)
    ensures Messages(history + [(w, x)]) == Messages(history) + [x]
  {
  }

  ghost predicate WorkerSafe(first: nat, history: seq<(Who, nat)>, w: Who, x: Worker) {
    && (x.stage.Waiting? ==> forall n :: (w, n) !in history)
    && (!x.stage.Waiting? && !(x.stage.Gone? && forall n :: (w, n) !in history) ==>
          x.start <= x.next && Reached(x) <= Covered(first, Messages(history)) && forall n :: (w, n) in history <==> x.start <= n < Reached(x))
  }

  ghost predicate BothSafe(first: nat, s: Pair) {
    && InOrder(first, Messages(s.history)) && Resume(s.file) <= Covered(first, Messages(s.history))
    && WorkerSafe(first, s.history, Old, s.oldOne) && WorkerSafe(first, s.history, New, s.newOne)
  }

  /** The newline ends the number, whatever the other consumer left behind it. */
  lemma OverResumes(n: nat, file: Option<string>)
    ensures Resume(Some(Over(OffsetText(n), file))) == n + 1
  {
    hide ValueOf, LeadingDigits;
    var d := Digits(n);
    var rest := "\n" + Over(OffsetText(n), file)[|OffsetText(n)|..];
    assert Over(OffsetText(n), file) == d + rest;
    LeadingOfDigits(d, rest);
    DigitsValue(n);
  }

  lemma EmptyResumes()
    ensures Resume(Some("")) == 0
  {
  }

  lemma ProcessKeeps(first: nat, history: seq<(Who, nat)>, w: Who, x: Worker, other: Who, y: Worker)
    requires w != other && x.stage.Ready? && WorkerSafe(first, history, w, x) && WorkerSafe(first, history, other, y)
    requires InOrder(first, Messages(history))
    ensures
      var h := history + [(w, x.next)];
      && WorkerSafe(first, h, w, x.(stage := Done)) && WorkerSafe(first, h, other, y)
      && InOrder(first, Messages(h)) && Covered(first, Messages(history)) <= Covered(first, Messages(h))
  {
    hide InOrder, Covered, Messages;
    MessagesNext(history, w, x.next);
    ReadNext(first, Messages(history), x.next);
    var h := history + [(w, x.next)];
    forall v, n ensures (v, n) in h <==> (v, n) in history || (v == w && n == x.next) {
    }
    assert forall n :: (other, n) in h <==> (other, n) in history;
  }

  lemma MoveSafe(first: nat, s: Pair, m: Move)
    requires BothSafe(first, s) && Possible(s, m)
    ensures BothSafe(first, Do(s, m))
  {
    hide InOrder, Covered, Messages, Resume, OffsetText, Over;
    match m
    case Process(w) =>
      ProcessKeeps(first, s.history, w, The(s, w), if w.Old? then New else Old, The(s, if w.Old? then New else Old));
    case Open(w) =>
      EmptyResumes();
    case Write(w) =>
      OverResumes(The(s, w).next, s.file);
    case _ =>
  }

  lemma {:induction false} InterleavingSafe(first: nat, s: Pair, moves: seq<Move>, s': Pair)
    requires BothSafe(first, s) && Interleaving(s, moves, s')
    ensures BothSafe(first, s')
    decreases |moves|
  {
    hide BothSafe, Do;
    if moves != [] {
      MoveSafe(first, s, moves[0]);
      InterleavingSafe(first, Do(s, moves[0]), moves[1..], s');
    }
  }

  lemma FreshSafe(s: Pair, first: nat)
    requires Fresh(s, first)
    ensures BothSafe(first, s)
  {
    hide Resume;
    EmptyInOrder(first);
  }

  /**
   In every interleaving, whenever either of them stops: each message between the
   first one and the point where the file resumes was processed by one of the two, and
   each of them processed exactly the stretch from its start to where it got.
   */
  lemma TogetherAtLeastOnce(s0: Pair, first: nat, moves: seq<Move>, s: Pair)
    requires Fresh(s0, first) && Interleaving(s0, moves, s)
    ensures forall x :: first <= x < Resume(s.file) ==> (Old, x) in s.history || (New, x) in s.history
    ensures forall w, x :: (w, x) in s.history ==> The(s, w).start <= x < Reached(The(s, w))
  {
    hide Interleaving, Resume, InOrder, Covered;
    FreshSafe(s0, first);
    InterleavingSafe(first, s0, moves, s);
    forall x | first <= x < Resume(s.file) ensures (Old, x) in s.history || (New, x) in s.history {
      CoveredMeans(first, Messages(s.history), x);
      var i :| 0 <= i < |s.history| && Messages(s.history)[i] == x;
      assert s.history[i] == (s.history[i].0, x) && s.history[i] in s.history;
      assert s.history[i].0 == Old || s.history[i].0 == New;
    }
  }

  // ─── One of them alone may miss something ──────────────────────────────────

  /**
   The file speaks for one of them alone exactly as far as that one got: if it has
   processed anything, it processed everything from its start to the resume point if and only if
   the resume point is not beyond where it is.
   */
  lemma AloneIff(s0: Pair, first: nat, moves: seq<Move>, s: Pair, w: Who)
    requires Fresh(s0, first) && Interleaving(s0, moves, s) && exists n :: (w, n) in s.history
    ensures (forall x :: The(s, w).start <= x < Resume(s.file) ==> (w, x) in s.history) <==> Resume(s.file) <= Reached(The(s, w))
  {
    hide Interleaving, Resume, InOrder, Covered;
    FreshSafe(s0, first);
    InterleavingSafe(first, s0, moves, s);
    var x := The(s, w);
    var n :| (w, n) in s.history;
    if Resume(s.file) > Reached(x) {
      assert x.start <= Reached(x) && (w, Reached(x)) !in s.history;
    }
  }

  /** It happens: both start and the old consumer saves a message; the file is beyond what the new one did. */
  lemma OldRunsAhead()
    ensures
      var s0 := Pair(None, Worker(0, 0, Waiting), Worker(0, 0, Waiting), []);
      var s := Pair(Some(Over(OffsetText(0), Some(""))), Worker(0, 1, Ready), Worker(0, 0, Ready), [(Old, 0)]);
      && Fresh(s0, 0) && Interleaving(s0, [Begin(Old), Begin(New), Process(Old), Open(Old), Write(Old)], s)
      && Resume(s.file) == 1 && Reached(s.newOne) == 0
  {
    hide OffsetText, Over, Resume, Interleaving;
    NoFileResumes();
    OverResumes(0, Some(""));
    var s0 := Pair(None, Worker(0, 0, Waiting), Worker(0, 0, Waiting), []);
    var s1 := s0.(oldOne := Worker(0, 0, Ready));
    var s2 := s1.(newOne := Worker(0, 0, Ready));
    var s3 := s2.(oldOne := Worker(0, 0, Done), history := [(Old, 0)]);
    var s4 := s3.(oldOne := Worker(0, 0, Opened), file := Some(""));
    var s := s4.(oldOne := Worker(0, 1, Ready), file := Some(Over(OffsetText(0), Some(""))));
    assert Do(s2, Process(Old)) == s3;
    assert [Begin(Old)] + [Begin(New), Process(Old), Open(Old), Write(Old)] == [Begin(Old), Begin(New), Process(Old), Open(Old), Write(Old)];
    assert [Begin(New)] + [Process(Old), Open(Old), Write(Old)] == [Begin(New), Process(Old), Open(Old), Write(Old)];
    assert [Process(Old)] + [Open(Old), Write(Old)] == [Process(Old), Open(Old), Write(Old)];
    assert [Open(Old)] + [Write(Old)] == [Open(Old), Write(Old)];
    assert [Write(Old)] + [] == [Write(Old)];
    Last(s);
    Longer(s4, Write(Old), [], s);
    Longer(s3, Open(Old), [Write(Old)], s);
    Longer(s2, Process(Old), [Open(Old), Write(Old)], s);
    Longer(s1, Begin(New), [Process(Old), Open(Old), Write(Old)], s);
    Longer(s0, Begin(Old), [Begin(New), Process(Old), Open(Old), Write(Old)], s);
  }

  lemma NoFileResumes()
    ensures Resume(None) == 0
  {
  }

  lemma Last(s: Pair)
    ensures Interleaving(s, [], s)
  {
  }

  lemma Longer(s: Pair, m: Move, rest: seq<Move>, s': Pair)
    requires Possible(s, m) && Interleaving(Do(s, m), rest, s')
    ensures Interleaving(s, [m] + rest, s')
  {
    hide Do;
    assert ([m] + rest)[1..] == rest;
  }

  /** And texts must come in one piece: one digit left over another text reads as a number nobody saved. */
  lemma TornSave()
    ensures Over(OffsetText(9)[..1], Some(OffsetText(10))) == OffsetText(90) && Resume(Some(OffsetText(90))) == 91
  {
    assert Digits(9) == "9" && Digits(10) == "10" && Digits(90) == "90";
    TruncatedResume(90, 3);
    assert OffsetText(90)[..3] == OffsetText(90);
  }
}
