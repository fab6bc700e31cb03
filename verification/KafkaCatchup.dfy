/**
 The one-shot catch-up that drains a topic into an offline index and leaves the
 offset file for the live consumer.  What the broker answers to each poll is a
 finite stream of events followed by silence; the wall clock allows a number of
 polls, or any number.
 */
module KafkaCatchup {
  import opened Wrappers
  import opened StreamIngest
  import opened StreamLaws
  import opened StreamReplay
  import opened KafkaOffsets
  import opened KafkaSource
  import opened KafkaConvergence

  datatype Event = Nothing | Eof | Failure | Message

  const MAX_IDLE_POLLS: nat := 50_000

  function Count(events: seq<Event>): (r: nat)
    ensures r <= |events|
  {
    if events == [] then 0
    else Count(events[..|events| - 1]) + if events[|events| - 1] == Message then 1 else 0
  }

  lemma {:induction false} CountPrefix(events: seq<Event>, k: nat)
    requires k <= |events|
    ensures Count(events[..k]) <= Count(events)
  {
    if k == |events| {
      assert events[..k] == events;
    } else {
      assert events[..|events| - 1][..k] == events[..k];
      CountPrefix(events[..|events| - 1], k);
    }
  }

  lemma CountNext(events: seq<Event>, k: nat)
    requires k < |events|
    ensures Count(events[..k + 1]) == Count(events[..k]) + if events[k] == Message then 1 else 0
  {
    assert events[..k + 1][..k] == events[..k];
  }

  function Seen(events: seq<Event>, polls: nat): (r: seq<Event>) {
    if polls <= |events| then events[..polls] else events
  }

  // ─── When the loop has seen enough ─────────────────────────────────────────

  /** What the first `n` polls answer: the events, then silence. */
  function Polled(events: seq<Event>, n: nat): (r: seq<Event>)
    ensures |r| == n
  {
    seq(n, i requires 0 <= i < n => if i < |events| then events[i] else Nothing)
  }

  function Silences(p: seq<Event>): (r: nat) {
    if p == [] then 0 else Silences(p[..|p| - 1]) + if p[|p| - 1] == Nothing then 1 else 0
  }

  /** An end of the partition before `j`, and from there on `k` silent polls and no message. */
  predicate CaughtUpFrom(p: seq<Event>, k: nat, j: nat) {
    && 0 < j <= |p| && (exists i :: 0 <= i < j && p[i] == Eof)
    && (forall i :: j <= i < |p| ==> p[i] != Message) && Silences(p[j..]) >= k
  }

  /** After the end of the partition was seen, `k` polls were silent and none brought a message. */
  ghost predicate CaughtUp(p: seq<Event>, k: nat) {
    exists j: nat :: CaughtUpFrom(p, k, j)
  }

  /** The end of the partition was never seen, and the last answers were all silence. */
  predicate IdleOut(p: seq<Event>) {
    |p| > MAX_IDLE_POLLS && Eof !in p && forall i :: |p| - MAX_IDLE_POLLS - 1 <= i < |p| ==> p[i] == Nothing
  }

  /** The reasons to end the loop other than the clock. */
  ghost predicate Stops(p: seq<Event>, k: nat) {
    CaughtUp(p, k) || IdleOut(p) || Failure in p
  }

  /** The silent polls the loop has counted. */
  function Counted(p: seq<Event>): (r: nat) {
    if p == [] then 0
    else
      var init, last := p[..|p| - 1], p[|p| - 1];
      if last == Message then 0 else if last == Nothing && Eof in init then Counted(init) + 1 else Counted(init)
  }

  function Trailing(p: seq<Event>): (r: nat) {
    if p == [] || p[|p| - 1] != Nothing then 0 else Trailing(p[..|p| - 1]) + 1
  }

  lemma SilencesNext(p: seq<Event>, e: Event)
    ensures Silences(p + [e]) == Silences(p) + if e == Nothing then 1 else 0
  {
    assert (p + [e])[..|p|] == p;
  }

  /** One more answer that is no message. */
  lemma StretchGrows(p: seq<Event>, e: Event, k: nat, j: nat)
    requires CaughtUpFrom(p, k, j) && e != Message
    ensures CaughtUpFrom(p + [e], if e == Nothing then k + 1 else k, j)
  {
    hide Silences;
    assert (p + [e])[j..] == p[j..] + [e];
    SilencesNext(p[j..], e);
    var i :| 0 <= i < j && p[i] == Eof;
    assert (p + [e])[i] == Eof;
  }

  lemma StretchShrinks(p: seq<Event>, e: Event, k: nat, j: nat)
    requires CaughtUpFrom(p + [e], k, j) && k > 0
    ensures e != Message && (e == Nothing ==> Eof in p && CaughtUpFrom(p, k - 1, j)) && (e != Nothing ==> CaughtUpFrom(p, k, j))
  {
    hide Silences;
    var q := p + [e];
    if j == |q| {
      NoSilence(q[j..]);
    }
    assert q[j..] == p[j..] + [e];
    SilencesNext(p[j..], e);
    var i :| 0 <= i < j && q[i] == Eof;
    assert q[|p|] == e && p[i] == Eof;
    forall n | j <= n < |p| ensures p[n] != Message {
      assert q[n] == p[n];
    }
  }

  lemma NoSilence(p: seq<Event>)
    requires p == []
    ensures Silences(p) == 0
  {
  }

  /** The first silent poll after the end of the partition. */
  lemma StretchBegins(p: seq<Event>)
    requires Eof in p
    ensures CaughtUpFrom(p, 0, |p|)
  {
    var i :| 0 <= i < |p| && p[i] == Eof;
  }

  lemma {:induction false} CountedMeans(p: seq<Event>, k: nat)
    requires k > 0
    ensures Counted(p) >= k <==> CaughtUp(p, k)
  {
    hide CaughtUpFrom;
    if p == [] {
      NoStretch(k);
    } else {
      var init, e := p[..|p| - 1], p[|p| - 1];
      assert p == init + [e];
      if Counted(p) >= k {
        var q := if e == Nothing && Eof in init then k - 1 else k;
        if q > 0 {
          CountedMeans(init, q);
        } else {
          StretchBegins(init);
        }
        var j: nat :| CaughtUpFrom(init, q, j);
        StretchGrows(init, e, q, j);
        Weaker(p, if e == Nothing then q + 1 else q, k, j);
      }
      if CaughtUp(p, k) {
        var j: nat :| CaughtUpFrom(p, k, j);
        StretchShrinks(init, e, k, j);
        if e != Nothing {
          CountedMeans(init, k);
        } else if k > 1 {
          CountedMeans(init, k - 1);
        }
      }
    }
  }

  lemma NoStretch(k: nat)
    ensures !CaughtUp([], k)
  {
  }

  lemma Weaker(p: seq<Event>, k: nat, l: nat, j: nat)
    requires CaughtUpFrom(p, k, j) && l <= k
    ensures CaughtUpFrom(p, l, j)
  {
  }

  lemma {:induction false} TrailingMeans(p: seq<Event>, k: nat)
    ensures Trailing(p) >= k <==> |p| >= k && forall i :: |p| - k <= i < |p| ==> p[i] == Nothing
  {
    if p != [] && k > 0 {
      TrailingMeans(p[..|p| - 1], k - 1);
    }
  }

  lemma PolledNext(events: seq<Event>, n: nat)
    ensures
      var e := if n < |events| then events[n] else Nothing;
      && Polled(events, n + 1) == Polled(events, n) + [e] && Polled(events, n + 1)[..n] == Polled(events, n)
  {
  }

  /** One more answer. */
  lemma AnswerNext(p: seq<Event>, e: Event)
    ensures Counted(p + [e]) == if e == Message then 0 else if e == Nothing && Eof in p then Counted(p) + 1 else Counted(p)
    ensures Trailing(p + [e]) == if e == Nothing then Trailing(p) + 1 else 0
  {
    assert (p + [e])[..|p|] == p;
  }

  /** The loop's counters decide whether it stops. */
  lemma StopsIff(p: seq<Event>, k: nat)
    requires k > 0
    ensures Stops(p, k) <==> Counted(p) >= k || (Eof !in p && Trailing(p) > MAX_IDLE_POLLS) || Failure in p
    ensures CaughtUp(p, k) <==> Counted(p) >= k
    ensures IdleOut(p) <==> Eof !in p && Trailing(p) > MAX_IDLE_POLLS
  {
    hide Counted, Trailing;
    CountedMeans(p, k);
    TrailingMeans(p, MAX_IDLE_POLLS + 1);
  }

  /** The broker's start offset; a negative one means the beginning. */
  function StartOffset(queried: int): (r: int) {
    if queried < 0 then BEGINNING else queried
  }

  function OrDefault(n: int, default: nat): (r: nat)
    ensures default > 0 ==> r > 0
  {
    if n > 0 then n else default
  }

  lemma NextPoll(events: seq<Event>, polls: nat)
    ensures polls < |events| ==> Count(Seen(events, polls + 1)) == Count(Seen(events, polls)) + if events[polls] == Message then 1 else 0
    ensures polls >= |events| ==> Seen(events, polls + 1) == Seen(events, polls)
    ensures Count(Seen(events, polls + 1)) <= Count(events)
  {
    if polls < |events| {
      CountNext(events, polls);
      CountPrefix(events, polls + 1);
    } else {
      assert events[..|events|] == events;
    }
  }

  /** The saved offset resumes after the last applied message, or at the start if there was none. */
  lemma SavedResume(queried: int, n: nat)
    ensures
      var start := StartOffset(queried);
      var last := if n == 0 then start - 1 else ResumeAt(start) + n - 1;
      Resume(Some(OffsetText(last))) == ResumeAt(start) + n
  {
    hide Resume, OffsetText;
    var start := StartOffset(queried);
    var last := if n == 0 then start - 1 else ResumeAt(start) + n - 1;
    var text := OffsetText(last);
    assert text[..|text|] == text;
    if last >= 0 {
      DigitsFit(last);
      TruncatedResume(last, |text|);
    } else {
      TruncatedNegative(last, |text|);
      NegativeText(last);
    }
  }

  lemma NegativeText(n: int)
    requires n < 0
    ensures |OffsetText(n)| > 1
  {
  }

  /** The polls a silent broker can keep the loop busy for. */
  function IdleBound(maxLoops: nat): (r: nat) {
    if maxLoops > MAX_IDLE_POLLS + 1 then maxLoops else MAX_IDLE_POLLS + 1
  }

  /** The first message of a catch-up: the one the broker answered, or the first of all. */
  function FirstOf(queried: int): (r: nat) {
    if queried >= 0 then queried else 0
  }

  lemma StartsAtFirst(queried: int)
    ensures ResumeAt(StartOffset(queried)) == FirstOf(queried)
  {
  }

  /**
   `RunKafkaImportCatchup`.  The messages from the start point up to the saved
   offset are applied, each once and in order, and the live consumer resumes with
   the next one: no gap and no overlap.  It goes on exactly until it has caught up, a
   poll failed, the broker was idle for too long or the clock ran out; only the first
   and the last of these save.  Without a deadline the loop still ends.
   A failure to write the meta file is reported although the offset was saved;
   `file` is `None` when the offset file was left alone.
   */
  method RunKafkaImportCatchup(
    schema: Schema, idx: KVIndex, log: seq<Payload>, queried: int, events: seq<Event>,
    maxSilenceLoops: int, deadline: Option<nat>, canSave: bool, canWriteMeta: bool)
    returns (ok: bool, file: Option<string>, polls: nat)
    requires GoodSchema(schema) && GoodPk(schema) && GoodIndex(schema, idx.rows)
    requires forall n :: 0 <= n < |log| ==> GoodItems(Items(log[n]))
    requires FirstOf(queried) + Count(events) <= |log|
    modifies idx
    ensures GoodIndex(schema, idx.rows)
    ensures polls <= |events| + IdleBound(OrDefault(maxSilenceLoops, 3))
    ensures ok <==> file.Some? && canWriteMeta
    ensures
      var k, p := if maxSilenceLoops > 0 then maxSilenceLoops else 3, Polled(events, polls);
      && (forall n :: 0 <= n < polls ==> !Stops(Polled(events, n), k)) && (deadline.Some? ==> polls <= deadline.value)
      && (Stops(p, k) || deadline == Some(polls))
      && (file.Some? <==> canSave && Failure !in p && !IdleOut(p))
    ensures
      var first := FirstOf(queried);
      var n := Count(Seen(events, polls));
      && first + n <= |log|
      && idx.rows == ApplyLog(schema, old(idx.rows), log[first..first + n])
      && (file.Some? ==> Resume(file) == first + n)
  {
    hide ApplyItems, GoodItems, GoodIndex, GoodSchema, GoodPk, ApplyLog, Resume, OffsetText, Items, Count, Seen, ResumeAt, StartOffset,
      Counted, Trailing, CaughtUp, IdleOut, Polled, Stops;
    var startOffset := StartOffset(queried);
    var first := ResumeAt(startOffset);
    StartsAtFirst(queried);
    var lastOffset, silence, sawEof, idlePolls := startOffset - 1, 0, false, 0;
    var maxLoops := OrDefault(maxSilenceLoops, 3);
    var next := first;
    polls := 0;
    NothingSeen(events);
    ApplyNothing(schema, idx.rows, log[first..first]);
    ghost var p: seq<Event> := [];
    NothingPolled(events, maxLoops);
    while deadline.None? || polls < deadline.value
      invariant next == first + Count(Seen(events, polls)) <= |log|
      invariant lastOffset == if next == first then startOffset - 1 else next - 1
      invariant idx.rows == ApplyLog(schema, old(idx.rows), log[first..next]) && GoodIndex(schema, idx.rows)
      invariant silence < maxLoops && idlePolls <= MAX_IDLE_POLLS
      invariant polls > |events| ==> polls - |events| <= if sawEof then silence else idlePolls
      invariant p == Polled(events, polls) && (deadline.Some? ==> polls <= deadline.value)
      invariant (sawEof <==> Eof in p) && Failure !in p && silence == Counted(p) && (!sawEof ==> idlePolls == Trailing(p))
      invariant forall n :: 0 <= n <= polls ==> !Stops(Polled(events, n), maxLoops)
      decreases if polls < |events| then |events| - polls else 0, if sawEof then maxLoops - silence else MAX_IDLE_POLLS + 1 - idlePolls
    {
      var e := if polls < |events| then events[polls] else Nothing;
      NextPoll(events, polls);
      PolledNext(events, polls);
      AnswerNext(p, e);
      p := p + [e];
      StopsIff(p, maxLoops);
      polls := polls + 1;
      match e {
        case Nothing =>
          if sawEof {
            silence := silence + 1;
            if silence >= maxLoops {
              break;
            }
          } else {
            idlePolls := idlePolls + 1;
            if idlePolls > MAX_IDLE_POLLS {
              return false, None, polls;
            }
          }
        case Eof =>
          idlePolls := 0;
          sawEof := true;
        case Failure =>
          return false, None, polls;
        case Message =>
          idlePolls, silence := 0, 0;
          ApplyNext(schema, old(idx.rows), log, first, next);
          ApplyPayload(schema, idx, log[next]);
          lastOffset := next;
          next := next + 1;
      }
    }
    StopsIff(p, maxLoops);
    SavedResume(queried, next - first);
    file := if canSave then Some(OffsetText(lastOffset)) else None;
    ok := canSave && canWriteMeta;
  }

  lemma NothingPolled(events: seq<Event>, k: nat)
    requires k > 0
    ensures Polled(events, 0) == [] && !Stops([], k) && Counted([]) == 0 && Trailing([]) == 0
  {
    StopsIff([], k);
  }

  lemma NothingSeen(events: seq<Event>)
    ensures Count(Seen(events, 0)) == 0
  {
  }

  lemma ApplyNothing(schema: Schema, idx: Index, log: seq<Payload>)
    requires log == []
    ensures ApplyLog(schema, idx, log) == idx
  {
  }

  lemma ApplyNext(schema: Schema, idx: Index, log: seq<Payload>, first: nat, next: nat)
    requires first <= next < |log|
    ensures ApplyLog(schema, idx, log[first..next + 1]) == ApplyItems(schema, ApplyLog(schema, idx, log[first..next]), Items(log[next]))
  {
    assert log[first..next + 1][..next - first] == log[first..next];
  }

  lemma {:induction false} CountRest(events: seq<Event>, k: nat)
    requires k <= |events|
    ensures Count(events[..k]) == Count(events) <==> Message !in events[k..]
  {
    if k == |events| {
      assert events[..k] == events;
    } else {
      var init := events[..|events| - 1];
      assert init[..k] == events[..k] && events[k..] == init[k..] + [events[|events| - 1]];
      CountPrefix(init, k);
      CountRest(init, k);
    }
  }

  lemma LaterMessage(events: seq<Event>, m: nat, n: nat)
    requires m <= n <= |events| && Message in events[n..]
    ensures Message in events[m..]
  {
    var i :| 0 <= i < |events[n..]| && events[n..][i] == Message;
    assert events[m..][n + i - m] == Message;
  }

  /** After `n` polls there is a reason to stop although a message is to come. */
  ghost predicate StopsEarly(events: seq<Event>, n: nat, k: nat) {
    n < |events| && Message in events[n..] && Stops(Polled(events, n), k)
  }

  /**
   A catch-up that ends by itself has applied every message exactly if it had no
   reason to stop while there was one to come.
   */
  lemma EverythingAppliedIff(events: seq<Event>, polls: nat, k: nat)
    requires Stops(Polled(events, polls), k) && forall n :: 0 <= n < polls ==> !Stops(Polled(events, n), k)
    ensures Count(Seen(events, polls)) == Count(events) <==> forall n: nat :: !StopsEarly(events, n, k)
  {
    hide Stops, Polled, Count, StopsEarly;
    NotEarlier(events, polls, k);
    if polls < |events| {
      CountRest(events, polls);
    } else {
      assert events[..|events|] == events;
    }
  }

  lemma NotEarlier(events: seq<Event>, polls: nat, k: nat)
    requires Stops(Polled(events, polls), k) && forall n :: 0 <= n < polls ==> !Stops(Polled(events, n), k)
    ensures (forall n: nat :: !StopsEarly(events, n, k)) <==> (polls < |events| ==> Message !in events[polls..])
  {
    hide Stops, Polled;
    if polls < |events| && Message in events[polls..] {
      assert StopsEarly(events, polls, k);
    } else {
      forall n: nat ensures !StopsEarly(events, n, k) {
        if polls <= n < |events| && Message in events[n..] {
          LaterMessage(events, polls, n);
        }
      }
    }
  }

  /** An end of the partition after every message is not enough: three silent polls in between end the catch-up. */
  lemma SilenceEndsEarly()
    ensures
      var events := [Message, Eof, Nothing, Nothing, Nothing, Message, Eof];
      CaughtUp(Polled(events, 5), 3) && Message in events[5..]
  {
    hide CaughtUpFrom, CaughtUp;
    var events := [Message, Eof, Nothing, Nothing, Nothing, Message, Eof];
    var p := [Message, Eof];
    assert p[1] == Eof;
    StretchBegins(p);
    StretchGrows(p, Nothing, 0, 2);
    StretchGrows(p + [Nothing], Nothing, 1, 2);
    StretchGrows(p + [Nothing] + [Nothing], Nothing, 2, 2);
    assert Polled(events, 5) == p + [Nothing] + [Nothing] + [Nothing];
    Found(Polled(events, 5), 3, 2);
    assert events[5..][0] == Message;
  }

  lemma Found(p: seq<Event>, k: nat, j: nat)
    requires CaughtUpFrom(p, k, j)
    ensures CaughtUp(p, k)
  {
  }

  /** What a live consumer that takes over the index and the offset file ends with, whatever befalls it. */
  ghost predicate EndsWith(schema: Schema, first: nat, file: Option<string>, idx: Index, log: seq<Payload>, end: Index) {
    forall actions, m {:trigger RunAbove(schema, first, Machine(file, None, idx, []), log, actions, m)} ::
      RunAbove(schema, first, Machine(file, None, idx, []), log, actions, m) && m.proc == Some(Proc(|log|, Polling)) ==> m.idx == end
  }

  /**
   Catch-up and hand-over, for every start the broker answers.  Over any snapshot
   the live consumer, as long as it does not resume before the start point, ends
   with the snapshot and every message from the start point on applied once.  Over
   a snapshot that holds the topic up to a point the catch-up has passed, it ends
   with the topic applied once, wherever it resumes.
   */
  method CatchUpAndHandOver(
    schema: Schema, idx: KVIndex, log: seq<Payload>, queried: int, events: seq<Event>,
    maxSilenceLoops: int, deadline: Option<nat>, canSave: bool, canWriteMeta: bool)
    returns (ok: bool, file: Option<string>, polls: nat)
    requires Replayable(schema) && GoodIndex(schema, idx.rows) && GoodTopic(schema, log)
    requires FirstOf(queried) + Count(events) <= |log|
    modifies idx
    ensures file.Some? ==>
      EndsWith(schema, FirstOf(queried), file, idx.rows, log, ApplyLog(schema, old(idx.rows), log[FirstOf(queried)..]))
    ensures file.Some? ==> forall idx0, k {:trigger ApplyLog(schema, idx0, log[..k])} ::
      GoodIndex(schema, idx0) && FirstOf(queried) <= k <= Resume(file) <= |log| && old(idx.rows) == ApplyLog(schema, idx0, log[..k]) ==>
        EndsWith(schema, 0, file, idx.rows, log, ApplyLog(schema, idx0, log))
  {
    hide GoodIndex, ApplyLog, Resume, Count, Seen, ResumeAt, StartOffset, FirstOf, RunAbove, Items, GoodItems, SteadyItems;
    assert GoodSchema(schema) && GoodPk(schema) by {
      ReplayableFacts(schema);
    }
    hide Replayable;
    ghost var snapshot, first := idx.rows, FirstOf(queried);
    ok, file, polls := RunKafkaImportCatchup(schema, idx, log, queried, events, maxSilenceLoops, deadline, canSave, canWriteMeta);
    if file.Some? {
      ghost var n := Count(Seen(events, polls));
      HandedOver(schema, file, snapshot, first, n, log);
      forall idx0, k | GoodIndex(schema, idx0) && first <= k <= Resume(file) <= |log| && snapshot == ApplyLog(schema, idx0, log[..k])
        ensures EndsWith(schema, 0, file, idx.rows, log, ApplyLog(schema, idx0, log))
      {
        RewindIsHarmless(schema, idx0, log, first, k, first + n);
        assert log[0..0 + (first + n)] == log[..first + n] && log[0..] == log;
        HandedOver(schema, file, idx0, 0, first + n, log);
      }
    }
  }

  lemma HandedOver(schema: Schema, file: Option<string>, idx0: Index, first: nat, n: nat, log: seq<Payload>)
    requires Replayable(schema) && GoodIndex(schema, idx0) && GoodTopic(schema, log)
    requires first + n <= |log| && Resume(file) == first + n
    ensures EndsWith(schema, first, file, ApplyLog(schema, idx0, log[first..first + n]), log, ApplyLog(schema, idx0, log[first..]))
  {
    hide GoodIndex, ApplyLog, Resume, RunAbove, Replayable, Items, GoodItems, SteadyItems;
    var m0 := Machine(file, None, ApplyLog(schema, idx0, log[first..first + n]), []);
    forall actions, m | RunAbove(schema, first, m0, log, actions, m) && m.proc == Some(Proc(|log|, Polling))
      ensures m.idx == ApplyLog(schema, idx0, log[first..])
    {
      HandoffConverges(schema, m0, idx0, first, n, log, actions, m);
    }
  }
}
