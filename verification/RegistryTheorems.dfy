/**
 What the hot-reload protocol promises over whole runs: no index is closed under
 a handle or a consumer, a registered table never has a gap, a successful reload
 is visible to every later request, a failed one changes nothing, and at rest
 exactly one of a table's two keys is open.
 */
module RegistryTheorems {
  import opened Wrappers
  import opened Registry
  import opened RegistryInvariant

  lemma {:induction false} RunInv(s: State, run: seq<Action>)
    requires Inv(s) && Legal(s, run)
    ensures Inv(After(s, run))
    decreases |run|
  {
    hide Inv;
    if run != [] {
      ActionInv(s, run[0]);
      RunInv(Apply(s, run[0]), run[1..]);
    }
  }

  // ─── No use after close ────────────────────────────────────────────────────

  lemma PinnedIsOpen(s: State, slot: Slot)
    requires Inv(s) && Pinned(ViewOf(s, slot.table), slot)
    ensures SlotOpen(s, slot)
  {
    var n := slot.table;
    assert ViewOf(s, n).head == Lookup(s.heads, n);
    assert ViewOk(ViewOf(s, n), n, s.nextSlot);
    hide Inv, IsReserved, TableOf, Loadable, StagingKey, Feeding;
  }

  lemma FedIsOpen(s: State, slot: Slot)
    requires Inv(s) && slot in s.consumers
    ensures SlotOpen(s, slot)
  {
    var n := slot.table;
    assert ViewOk(ViewOf(s, n), n, s.nextSlot);
    assert Feeding(ViewOf(s, n), slot);
    hide Inv, IsReserved, TableOf, Loadable, StagingKey, Pinned;
  }

  /** In every interleaving, whatever an RPC has pinned and whatever a KafkaSource
      is writing to is open, at the generation its slot was built from. */
  lemma NoUseAfterClose(s: State, run: seq<Action>)
    requires Init(s) && Legal(s, run)
    ensures var r := After(s, run); forall h :: h in r.handles ==> SlotOpen(r, r.handles[h])
    ensures var r := After(s, run); forall c :: c in r.consumers ==> SlotOpen(r, c)
  {
    InitInv(s);
    hide Inv;
    RunInv(s, run);
    var r := After(s, run);
    forall h | h in r.handles ensures SlotOpen(r, r.handles[h]) {
      assert Pinned(ViewOf(r, r.handles[h].table), r.handles[h]) by { PinOf(r, h); }
      PinnedIsOpen(r, r.handles[h]);
    }
    forall c | c in r.consumers ensures SlotOpen(r, c) {
      FedIsOpen(r, c);
    }
  }

  /** An index that was opened before and is not open now. */
  predicate Gone(s: State, key: string, index: Index) {
    index.gen < s.nextGen && Lookup(s.db, key) != Some(index)
  }

  lemma OpenIsNew(s: State, k: string, key: string, index: Index)
    requires CanOpen(s, k) && Gone(s, key, index)
    ensures Gone(OpenIndex(s, k), key, index)
  {
    hide Resolve;
  }

  lemma CloseKeepsGone(s: State, k: string, key: string, index: Index)
    requires Gone(s, key, index)
    ensures Gone(CloseIndex(s, k), key, index)
  {
  }

  /** What one step does to the open keys: one is opened anew, one is closed, or nothing. */
  predicate OpensOrCloses(s: State, r: State, k: string) {
    || (r.db == s.db && r.nextGen == s.nextGen)
    || (r.db == CloseIndex(s, k).db && r.nextGen == s.nextGen)
    || (CanOpen(s, k) && r.db == OpenIndex(s, k).db && r.nextGen == OpenIndex(s, k).nextGen)
  }

  /** The places of threads do not matter. */
  lemma GoesOpens(s: State, s1: State, t: Tid, p: Proc, k: string)
    requires OpensOrCloses(s, s1, k)
    ensures OpensOrCloses(s, Goto(s1, t, p), k)
  {
    hide CanOpen, OpenIndex, CloseIndex;
  }

  lemma SameOpens(s: State, s1: State, k: string)
    requires s1.db == s.db && s1.nextGen == s.nextGen
    ensures OpensOrCloses(s, s1, k)
  {
  }

  lemma OneOpens(s: State, k: string)
    ensures OpensOrCloses(s, CloseIndex(s, k), k) && (CanOpen(s, k) ==> OpensOrCloses(s, OpenIndex(s, k), k))
  {
  }

  lemma LoadOpenOpens(s: State, t: Tid, p: Proc, ok: bool)
    requires ok ==> CanOpen(s, p.table)
    ensures OpensOrCloses(s, LoadOpenStep(s, t, p, ok), p.table)
  {
    hide OpensOrCloses, Goto, CanOpen, OpenIndex;
    OneOpens(s, p.table);
    SameOpens(s, s, p.table);
    if ok {
      GoesOpens(s, OpenIndex(s, p.table), t, p.(pc := LoadBuild), p.table);
    } else {
      GoesOpens(s, s, t, p.(pc := LoadExit, ok := false), p.table);
    }
  }

  lemma LoadRegisterOpens(s: State, t: Tid, p: Proc)
    ensures OpensOrCloses(s, LoadRegisterStep(s, t, p), p.table)
  {
    hide Goto, CanOpen, OpenIndex;
    var s1 := if p.table in s.heads then CloseIndex(s.(consumers := s.consumers - {p.slot}), p.table) else s.(heads := s.heads[p.table := Head(p.slot, false, 0)]);
    assert OpensOrCloses(s, s1, p.table);
    GoesOpens(s, s1, t, p.(pc := LoadExit, ok := true), p.table);
  }

  lemma BuildOpens(s: State, t: Tid, p: Proc, ok: bool, kafka: bool)
    ensures p.table in s.db || !ok ==> OpensOrCloses(s, LoadBuildStep(s, t, p, ok, kafka), p.table)
    ensures NextKey(p) in s.db || !ok ==> OpensOrCloses(s, ReloadBuildStep(s, t, p, ok, kafka), NextKey(p))
  {
    hide CanOpen, OpenIndex, CloseIndex, NextKey;
  }

  lemma LoadOpens(s: State, t: Tid, p: Proc, ok: bool, kafka: bool)
    requires StepEnabled(s, t, p, ok) && (p.pc.LoadLock? || InLoad(p))
    ensures OpensOrCloses(s, LoadStep(s, t, p, ok, kafka), p.table)
  {
    hide Effect, Loadable, Resolve, KeyOf, LoadOpenStep, LoadBuildStep, LoadRegisterStep, LoadCheckStep, OpensOrCloses, CanOpen, CloseIndex, Goto;
    if p.pc.LoadOpen? {
      LoadOpenOpens(s, t, p, ok);
    } else if p.pc.LoadBuild? {
      BuildOpens(s, t, p, ok, kafka);
    } else if p.pc.LoadRegister? {
      LoadRegisterOpens(s, t, p);
    } else if p.pc.LoadClose? {
      OneOpens(s, p.table);
      GoesOpens(s, CloseIndex(s, p.table), t, p.(pc := LoadExit, ok := false), p.table);
    } else {
      LocksOpen(s, t, p);
    }
  }

  lemma LocksOpen(s: State, t: Tid, p: Proc)
    ensures OpensOrCloses(s, Goto(s.(loadMu := Some(t)), t, p.(pc := LoadCheck)), p.table)
    ensures OpensOrCloses(s, Goto(s.(loadMu := None), t, p.(pc := Done)), p.table)
    ensures OpensOrCloses(s, LoadCheckStep(s, t, p), p.table)
  {
    hide CanOpen, OpenIndex, CloseIndex, Loadable;
  }

  lemma ReloadOpenOpens(s: State, t: Tid, p: Proc, ok: bool)
    requires ok ==> CanOpen(s, NextKey(p))
    ensures OpensOrCloses(s, ReloadOpenStep(s, t, p, ok), NextKey(p))
  {
    hide OpensOrCloses, Goto, CanOpen, OpenIndex, NextKey;
    OneOpens(s, NextKey(p));
    SameOpens(s, s, NextKey(p));
    if ok {
      GoesOpens(s, OpenIndex(s, NextKey(p)), t, p.(pc := ReloadBuild), NextKey(p));
    } else {
      GoesOpens(s, s, t, p.(pc := ReloadAbortUnlink), NextKey(p));
    }
  }

  lemma SwitchOpens(s: State, t: Tid, p: Proc, ok: bool, kafka: bool)
    requires StepEnabled(s, t, p, ok) && Switching(p)
    ensures OpensOrCloses(s, SwitchStep(s, t, p, ok, kafka), NextKey(p))
  {
    hide Effect, Resolve, NextKey, KeyOf, ReloadOpenStep, ReloadBuildStep, OpensOrCloses, CanOpen, CloseIndex, Goto, UnlinkStaging, ReloadSwapStep;
    OneOpens(s, NextKey(p));
    if p.pc.ReloadOpen? {
      ReloadOpenOpens(s, t, p, ok);
    } else if p.pc.ReloadBuild? {
      BuildOpens(s, t, p, ok, kafka);
    } else if p.pc.ReloadClose? {
      GoesOpens(s, CloseIndex(s, NextKey(p)), t, p.(pc := ReloadOpen), NextKey(p));
    } else if p.pc.ReloadAbortClose? {
      GoesOpens(s, CloseIndex(s, NextKey(p)), t, p.(pc := ReloadAbortUnlink), NextKey(p));
    } else {
      SwapsOpen(s, t, p);
    }
  }

  lemma SwapsOpen(s: State, t: Tid, p: Proc)
    ensures OpensOrCloses(s, Goto(UnlinkStaging(s, p.table, NextKey(p)), t, p.(pc := ReloadExit, ok := false)), NextKey(p))
    ensures p.table in s.heads ==> OpensOrCloses(s, ReloadSwapStep(s, t, p), NextKey(p))
  {
    hide CanOpen, OpenIndex, CloseIndex, NextKey;
  }

  lemma RetireOpens(s: State, t: Tid, p: Proc)
    requires AfterSwap(p)
    ensures OpensOrCloses(s, RetireStep(s, t, p), PrevKey(p))
  {
    hide Effect, PrevKey, KeyOf, CloseIndex, UnlinkStaging, Goto, OpensOrCloses;
    var k := PrevKey(p);
    OneOpens(s, k);
    if p.pc.ReloadStop? {
      SameOpens(s, s.(consumers := s.consumers - {p.retired}), k);
      GoesOpens(s, s.(consumers := s.consumers - {p.retired}), t, p.(pc := ReloadDrain), k);
    } else if p.pc.ReloadDrain? {
      SameOpens(s, s, k);
      GoesOpens(s, s, t, p.(pc := ReloadClosePrev), k);
    } else if p.pc.ReloadClosePrev? {
      GoesOpens(s, CloseIndex(s, k), t, p.(pc := ReloadUnlinkPrev), k);
    } else {
      UnlinksOpen(s, p.table, k);
      GoesOpens(s, UnlinkStaging(s, p.table, k), t, p.(pc := ReloadExit, ok := true), k);
    }
  }

  lemma UnlinksOpen(s: State, table: string, k: string)
    ensures OpensOrCloses(s, UnlinkStaging(s, table, k), k)
  {
    hide CanOpen, OpenIndex, CloseIndex;
  }

  lemma LinksOpen(s: State, t: Tid, p: Proc, ok: bool)
    ensures OpensOrCloses(s, Goto(Unlink(s, NextKey(p)), t, p.(pc := ReloadLink)), "")
    ensures OpensOrCloses(s, ReloadLinkStep(s, t, p, ok), "")
  {
    hide CanOpen, OpenIndex, CloseIndex, NextKey;
    SameOpens(s, LinkTo(s, NextKey(p), p.cfg), "");
  }

  lemma CanonOpens(s: State, t: Tid, p: Proc, ok: bool)
    ensures OpensOrCloses(s, ReloadCanonStep(s, t, p, ok), "")
  {
    hide CanOpen, OpenIndex, CloseIndex, NextKey, Resolve, Goto, OpensOrCloses;
    SameOpens(s, s, "");
    GoesOpens(s, s, t, p.(pc := ReloadExit, ok := false), "");
    GoesOpens(s, s, t, p.(pc := ReloadUnlink, cfg := Resolve(s, p.table)), "");
    GoesOpens(s, s, t, p.(pc := ReloadClose, cfg := Resolve(s, p.table)), "");
  }

  lemma PrepareOpens(s: State, t: Tid, p: Proc, ok: bool)
    requires StepEnabled(s, t, p, ok) && Preparing(p)
    ensures OpensOrCloses(s, PrepareStep(s, t, p, ok), "")
  {
    hide Effect, Resolve, NextKey, KeyOf, Early, ReloadCanonStep, ReloadLinkStep, OpensOrCloses, Unlink, Goto, InReload;
    SameOpens(s, s, "");
    CanonOpens(s, t, p, ok);
    LinksOpen(s, t, p, ok);
    if p.pc.ReloadRead? {
      GoesOpens(s, s, t, p.(pc := ReloadCanon, live := s.heads[p.table].stagingIsLive), "");
    }
  }

  lemma EnterOpens(s: State, t: Tid, p: Proc, ok: bool)
    requires StepEnabled(s, t, p, ok)
    requires p.pc.ReloadCheck? || p.pc.ReloadDir? || p.pc.ReloadFind? || p.pc.ReloadLock? || p.pc.ReloadExit?
    ensures OpensOrCloses(s, EnterStep(s, t, p, ok), "")
  {
    hide Effect, KeyOf, Early, CanOpen, OpenIndex, CloseIndex;
  }

  lemma StepOpens(s: State, t: Tid, p: Proc, ok: bool, kafka: bool) returns (k: string)
    requires StepEnabled(s, t, p, ok)
    ensures OpensOrCloses(s, StepOf(s, t, p, ok, kafka), k)
  {
    hide LoadStep, EnterStep, PrepareStep, SwitchStep, RetireStep, OpensOrCloses, Effect;
    if p.pc.LoadLock? || InLoad(p) {
      k := p.table;
      LoadOpens(s, t, p, ok, kafka);
    } else if Preparing(p) {
      k := "";
      PrepareOpens(s, t, p, ok);
    } else if Switching(p) {
      k := NextKey(p);
      SwitchOpens(s, t, p, ok, kafka);
    } else if AfterSwap(p) {
      k := PrevKey(p);
      RetireOpens(s, t, p);
    } else {
      k := "";
      EnterOpens(s, t, p, ok);
    }
  }

  lemma ActionKeepsGone(s: State, a: Action, key: string, index: Index)
    requires Enabled(s, a) && Gone(s, key, index)
    ensures Gone(Apply(s, a), key, index)
  {
    hide StepOf, StepEnabled, CanOpen;
    if a.Step? {
      var k := StepOpens(s, a.t, s.procs[a.t], a.ok, a.kafka);
      CloseKeepsGone(s, k, key, index);
      if CanOpen(s, k) {
        OpenIsNew(s, k, key, index);
      }
    }
  }

  /** Each opening is new: an index that was closed never comes back, whatever its key is opened for later. */
  lemma {:induction false} ClosedStaysClosed(s: State, run: seq<Action>, key: string, index: Index)
    requires Legal(s, run) && Gone(s, key, index)
    ensures Gone(After(s, run), key, index)
    decreases |run|
  {
    hide Gone, Apply, Enabled;
    if run != [] {
      ActionKeepsGone(s, run[0], key, index);
      ClosedStaysClosed(Apply(s, run[0]), run[1..], key, index);
    }
  }

  /** Every open index has a number of its own, given before now. */
  predicate Dated(s: State) {
    && (forall k :: k in s.db ==> s.db[k].gen < s.nextGen)
    && (forall k, l :: k in s.db && l in s.db && k != l ==> s.db[k].gen != s.db[l].gen)
  }

  lemma OpensDated(s: State, r: State, k: string)
    requires Dated(s) && OpensOrCloses(s, r, k)
    ensures Dated(r)
  {
    hide Resolve;
  }

  lemma ActionDated(s: State, a: Action)
    requires Enabled(s, a) && Dated(s)
    ensures Dated(Apply(s, a))
    ensures forall key, index :: Lookup(s.db, key) == Some(index) && Lookup(Apply(s, a).db, key) != Some(index) ==> Gone(Apply(s, a), key, index)
  {
    hide StepOf, StepEnabled, CanOpen, OpenIndex, CloseIndex;
    if a.Step? {
      var k := StepOpens(s, a.t, s.procs[a.t], a.ok, a.kafka);
      var r := StepOf(s, a.t, s.procs[a.t], a.ok, a.kafka);
      OpensDated(s, r, k);
      NumbersGrow(s, r, k);
    }
  }

  lemma NumbersGrow(s: State, r: State, k: string)
    requires OpensOrCloses(s, r, k)
    ensures s.nextGen <= r.nextGen
  {
  }

  lemma {:induction false} RunDated(s: State, run: seq<Action>)
    requires Dated(s) && Legal(s, run)
    ensures Dated(After(s, run))
    decreases |run|
  {
    hide Dated, Apply, Enabled;
    if run != [] {
      ActionDated(s, run[0]);
      RunDated(Apply(s, run[0]), run[1..]);
    }
  }

  /** In every run, two keys never share an index, and an index that an action
      closes is never open again, also when the same directory is. */
  lemma NeverReopened(s: State, run: seq<Action>, a: Action, later: seq<Action>, key: string, index: Index)
    requires Init(s) && Legal(s, run) && Enabled(After(s, run), a) && Legal(Apply(After(s, run), a), later)
    requires Lookup(After(s, run).db, key) == Some(index)
    ensures forall other :: other != key ==> Lookup(After(s, run).db, other) != Some(index)
    ensures Lookup(Apply(After(s, run), a).db, key) != Some(index) ==>
      Lookup(After(Apply(After(s, run), a), later).db, key) != Some(index)
  {
    hide Apply, Enabled;
    RunDated(s, run);
    var r := After(s, run);
    ActionDated(r, a);
    if Lookup(Apply(r, a).db, key) != Some(index) {
      ClosedStaysClosed(Apply(r, a), later, key, index);
    }
  }

  lemma PinOf(s: State, h: nat)
    requires Inv(s) && h in s.handles
    ensures Pinned(ViewOf(s, s.handles[h].table), s.handles[h])
  {
    hide IsReserved, TableOf, ViewOk, ViewOf, Pinned, Feeding, LocksOk;
  }

  /** No action ever closes, or reopens under another generation, an index that a handle outliving the action refers to. */
  lemma CloseIsHarmless(s: State, a: Action, h: nat)
    requires Inv(s) && Enabled(s, a) && h in s.handles && h in Apply(s, a).handles
    ensures var s' := Apply(s, a);
      && s'.handles[h] == s.handles[h]
      && Lookup(s'.db, s.handles[h].key) == Lookup(s.db, s.handles[h].key) == Some(s.handles[h].index)
  {
    hide Inv;
    HandlesKept(s, a, h);
    ActionInv(s, a);
    PinOf(s, h);
    PinnedIsOpen(s, s.handles[h]);
    PinOf(Apply(s, a), h);
    PinnedIsOpen(Apply(s, a), s.handles[h]);
  }

  lemma HandlesKept(s: State, a: Action, h: nat)
    requires Enabled(s, a) && h in s.handles && h in Apply(s, a).handles
    ensures Apply(s, a).handles[h] == s.handles[h]
  {
    hide StepOf, StepEnabled;
  }

  lemma HandleStays(s: State, a: Action, h: nat)
    requires Enabled(s, a) && h in s.handles && a != Release(h)
    ensures h in Apply(s, a).handles && Apply(s, a).handles[h] == s.handles[h]
  {
    hide StepOf, StepEnabled;
    if a.Step? {
      HandlesOf(s, a.t, s.procs[a.t], a.ok, a.kafka);
    }
  }

  lemma HandlesOf(s: State, t: Tid, p: Proc, ok: bool, kafka: bool)
    requires StepEnabled(s, t, p, ok)
    ensures StepOf(s, t, p, ok, kafka).handles == s.handles
  {
    hide LoadStep, EnterStep, PrepareStep, SwitchStep, RetireStep, ChangesOnly, StepEnabled;
  }

  lemma {:induction false} HandleLasts(s: State, run: seq<Action>, h: nat)
    requires Legal(s, run) && h in s.handles && Release(h) !in run
    ensures h in After(s, run).handles && After(s, run).handles[h] == s.handles[h]
    decreases |run|
  {
    hide Apply, Enabled;
    if run != [] {
      HandleStays(s, run[0], h);
      HandleLasts(Apply(s, run[0]), run[1..], h);
    }
  }

  /** A copy of a handle is a handle of its own: until it is given back it keeps
      the slot open, also when the handle it was copied from is given back. */
  lemma CopyPins(s: State, run: seq<Action>, h: nat, from: nat, later: seq<Action>)
    requires Init(s) && Legal(s, run) && Enabled(After(s, run), CopyHandle(h, from))
    requires Legal(Apply(After(s, run), CopyHandle(h, from)), later) && Release(h) !in later
    ensures
      var r := After(s, run); var f := After(Apply(r, CopyHandle(h, from)), later);
      h in f.handles && f.handles[h] == r.handles[from] && SlotOpen(f, r.handles[from])
  {
    InitInv(s);
    hide Inv;
    RunInv(s, run);
    var r := After(s, run);
    ActionInv(r, CopyHandle(h, from));
    var c := Apply(r, CopyHandle(h, from));
    HandleLasts(c, later, h);
    RunInv(c, later);
    PinOf(After(c, later), h);
    PinnedIsOpen(After(c, later), r.handles[from]);
  }

  /** Branches that would dereference a null index, close a live key or lose a table are never taken,
      and the defensive close before a reopen never finds anything to close. */
  lemma DeadBranches(s: State, run: seq<Action>, t: Tid)
    requires Init(s) && Legal(s, run) && t in After(s, run).procs
    ensures var r := After(s, run); var p := r.procs[t];
      && (p.pc.LoadRegister? ==> p.table !in r.heads)
      && (p.pc.LoadBuild? ==> p.table in r.db)
      && (p.pc.ReloadFind? || p.pc.ReloadRead? || p.pc.ReloadSwap? ==> p.table in r.heads)
      && (p.pc.ReloadClose? ==> NextKey(p) !in r.db)
      && (p.pc.ReloadBuild? ==> NextKey(p) in r.db)
  {
    InitInv(s);
    hide Inv, LocksOk;
    RunInv(s, run);
    PhaseFacts(After(s, run), t);
  }

  // ─── Key isolation ─────────────────────────────────────────────────────────

  /** A thread working on one table never opens or closes a key of another. */
  lemma OtherTablesUntouched(s: State, run: seq<Action>, t: Tid, ok: bool, kafka: bool, m: string, b: bool)
    requires Init(s) && Legal(s, run)
    requires Enabled(After(s, run), Step(t, ok, kafka))
    requires !IsReserved(m) && After(s, run).procs[t].table != m
    ensures var r := After(s, run);
      Lookup(Apply(r, Step(t, ok, kafka)).db, LiveKey(m, b)) == Lookup(r.db, LiveKey(m, b))
  {
    hide Inv, StepOf, StepEnabled, TableOf, IsReserved, Loadable;
    var r := After(s, run);
    var p := r.procs[t];
    InitInv(s);
    RunInv(s, run);
    Focus(r, t);
    if InReload(p) || Opening(p) {
      KeyOfTable(p);
      KeyIsolation(m, m, b, b);
    }
  }

  // ─── No gap, no stale swap ─────────────────────────────────────────────────

  /** Whether an action is the live swap of table `n`. */
  predicate IsSwap(s: State, a: Action, n: string) {
    a.Step? && a.t in s.procs && s.procs[a.t].pc.ReloadSwap? && s.procs[a.t].table == n
  }

  /** A reload about to swap holds a newer slot than the live one. */
  lemma SwapIsNewer(s: State, t: Tid)
    requires Inv(s) && t in s.procs && s.procs[t].pc.ReloadSwap?
    ensures s.procs[t].table in s.heads
    ensures s.procs[t].live == s.heads[s.procs[t].table].stagingIsLive
    ensures s.heads[s.procs[t].table].slot.id < s.procs[t].slot.id
  {
    var n := s.procs[t].table;
    assert LockOf(s, t);
    assert ViewOk(ViewOf(s, n), n, s.nextSlot);
    hide Inv, IsReserved, TableOf, Loadable, StagingKey, LocksOk;
    assert ViewOf(s, n).reloader == s.procs[t];
  }

  lemma RegisterIsNew(s: State, t: Tid)
    requires Inv(s) && t in s.procs && s.procs[t].pc.LoadRegister?
    ensures s.procs[t].table !in s.heads
  {
    hide Inv;
    PhaseFacts(s, t);
  }

  lemma HeadStep(s: State, a: Action, n: string)
    requires Inv(s) && Enabled(s, a) && n in s.heads
    ensures n in Apply(s, a).heads
    ensures !IsSwap(s, a, n) ==> Apply(s, a).heads[n] == s.heads[n]
    ensures IsSwap(s, a, n) ==>
      && Apply(s, a).heads[n] == Head(s.procs[a.t].slot, !s.heads[n].stagingIsLive, s.heads[n].swaps + 1)
      && s.heads[n].slot.id < s.procs[a.t].slot.id
  {
    hide Inv, StepEnabled, LoadStep, SwitchStep, StepOf;
    if a.Step? {
      var p := s.procs[a.t];
      if p.pc.ReloadSwap? {
        SwapIsNewer(s, a.t);
        SwapHead(s, a.t, p, a.ok, a.kafka);
      } else if p.pc.LoadRegister? {
        RegisterIsNew(s, a.t);
        RegisterHead(s, a.t, p, a.ok, a.kafka);
      }
    }
  }

  lemma SwapHead(s: State, t: Tid, p: Proc, ok: bool, kafka: bool)
    requires StepEnabled(s, t, p, ok) && p.pc.ReloadSwap?
    ensures p.table in s.heads
    ensures StepOf(s, t, p, ok, kafka).heads == s.heads[p.table := Head(p.slot, !p.live, s.heads[p.table].swaps + 1)]
  {
  }

  lemma RegisterHead(s: State, t: Tid, p: Proc, ok: bool, kafka: bool)
    requires StepEnabled(s, t, p, ok) && p.pc.LoadRegister? && p.table !in s.heads
    ensures StepOf(s, t, p, ok, kafka).heads == s.heads[p.table := Head(p.slot, false, 0)]
  {
  }

  function SwapCount(s: State, run: seq<Action>, n: string): nat
    requires Legal(s, run)
    decreases |run|
  {
    if run == [] then 0
    else (if IsSwap(s, run[0], n) then 1 else 0) + SwapCount(Apply(s, run[0]), run[1..], n)
  }

  /** Once registered a table stays registered, its live slot only gets newer, and each swap flips the live key. */
  lemma {:induction false} HeadsOnlyAdvance(s: State, run: seq<Action>, n: string)
    requires Inv(s) && Legal(s, run) && n in s.heads
    ensures var r := After(s, run);
      && n in r.heads
      && s.heads[n].slot.id <= r.heads[n].slot.id
      && r.heads[n].swaps == s.heads[n].swaps + SwapCount(s, run, n)
      && (SwapCount(s, run, n) == 0 ==> r.heads[n] == s.heads[n])
    decreases |run|
  {
    hide Inv, Apply, Enabled;
    if run != [] {
      HeadStep(s, run[0], n);
      ActionInv(s, run[0]);
      HeadsOnlyAdvance(Apply(s, run[0]), run[1..], n);
    }
  }

  /** No gap: from registration on, every Acquire returns a handle on the live slot, over an open index. */
  lemma AcquireSucceeds(s: State, run: seq<Action>, n: string, h: nat)
    requires Inv(s) && n in s.heads && Legal(s, run) && h !in After(s, run).handles
    ensures var r := After(s, run); var r' := Apply(r, Acquire(h, n));
      && n in r.heads && h in r'.handles && r'.handles[h] == r.heads[n].slot && SlotOpen(r', r'.handles[h])
  {
    hide Inv;
    HeadsOnlyAdvance(s, run, n);
    RunInv(s, run);
    LiveIsPinned(After(s, run), n);
    PinnedIsOpen(After(s, run), After(s, run).heads[n].slot);
  }

  /** After the swap, and until it returns, a reload's slot is the live one. */
  lemma RetiringIsLive(s: State, t: Tid)
    requires Inv(s) && t in s.procs && AfterSwap(s.procs[t])
    ensures s.procs[t].table in s.heads && s.heads[s.procs[t].table].slot == s.procs[t].slot
  {
    var n := s.procs[t].table;
    assert LockOf(s, t);
    assert ViewOk(ViewOf(s, n), n, s.nextSlot);
    hide Inv, IsReserved, TableOf, Loadable, StagingKey, LocksOk;
    assert ViewOf(s, n).reloader == s.procs[t];
  }

  /** No stale swap: when a reload that found its table registered is about to report success, the slot
      it built is live, and every later Acquire sees that slot or a newer one. */
  lemma ReloadIsVisible(s: State, t: Tid, run: seq<Action>, h: nat)
    requires Inv(s) && t in s.procs && s.procs[t].pc.ReloadUnlinkPrev?
    requires Legal(s, run) && h !in After(s, run).handles
    ensures var p := s.procs[t]; var r' := Apply(After(s, run), Acquire(h, p.table));
      && p.table in s.heads && s.heads[p.table].slot == p.slot
      && h in r'.handles && p.slot.id <= r'.handles[h].id
  {
    hide Inv;
    RetiringIsLive(s, t);
    AcquireSucceeds(s, run, s.procs[t].table, h);
    HeadsOnlyAdvance(s, run, s.procs[t].table);
  }

  /** Only that step makes a reload inside its critical section succeed. */
  lemma OkOnlyAfterSwap(s: State, a: Action, t: Tid)
    requires Enabled(s, a) && t in s.procs && InReload(s.procs[t]) && !s.procs[t].pc.ReloadExit?
    requires Apply(s, a).procs[t].pc.ReloadExit? && Apply(s, a).procs[t].ok
    ensures s.procs[t].pc.ReloadUnlinkPrev?
  {
    hide LoadStep, EnterStep, PrepareStep, SwitchStep, RetireStep, StepEnabled, IsReserved, StagingKey, LiveKey;
  }

  /** Every step of a thread inside its reload leaves it before the swap, takes it past the swap, or ends the call. */
  lemma ReloadPhases(s: State, a: Action, t: Tid)
    requires Enabled(s, a) && t in s.procs && InReload(s.procs[t])
    ensures t in Apply(s, a).procs
    ensures var p, p' := s.procs[t], Apply(s, a).procs[t];
      && p'.table == p.table
      && (InReload(p') && Decided(p) ==> Decided(p'))
      && (IsSwap(s, a, p.table) && a.t == t ==> Decided(p'))
  {
    hide LoadStep, EnterStep, PrepareStep, StepEnabled, IsReserved, StagingKey, LiveKey, SwitchStep, RetireStep;
    if a.Step? && a.t == t {
      if s.procs[t].pc.ReloadExit? {
        ExitEnds(s, t, s.procs[t], a.ok);
      } else if s.procs[t].pc.ReloadSwap? {
        SwapDecides(s, t, s.procs[t], a.ok, a.kafka);
      }
    }
  }

  /** The thread has swapped: it is retiring the old slot, or has reported success. */
  predicate Decided(p: Proc) {
    AfterSwap(p) || (p.pc.ReloadExit? && p.ok)
  }

  lemma ExitEnds(s: State, t: Tid, p: Proc, ok: bool)
    requires StepEnabled(s, t, p, ok) && p.pc.ReloadExit?
    ensures EnterStep(s, t, p, ok).procs[t].pc.Done?
  {
  }

  lemma SwapDecides(s: State, t: Tid, p: Proc, ok: bool, kafka: bool)
    requires StepEnabled(s, t, p, ok) && p.pc.ReloadSwap?
    ensures AfterSwap(SwitchStep(s, t, p, ok, kafka).procs[t])
  {
  }

  /** Thread `t` stays inside its reload at every step of the run. */
  predicate StaysInReload(s: State, run: seq<Action>, t: Tid)
    requires Legal(s, run)
    decreases |run|
  {
    && t in s.procs && InReload(s.procs[t])
    && (run != [] ==> StaysInReload(Apply(s, run[0]), run[1..], t))
  }

  /** A table has one reload in its critical section. */
  lemma OneReloader(s: State, t: Tid, u: Tid)
    requires Inv(s) && t in s.procs && u in s.procs
    requires InReload(s.procs[t]) && InReload(s.procs[u]) && s.procs[t].table == s.procs[u].table
    ensures t == u
  {
    assert LockOf(s, t) && LockOf(s, u);
    hide Inv, InReload, Opening, Loadable;
  }

  lemma {:induction false} UndecidedKeepsHead(s: State, run: seq<Action>, t: Tid, h: Head)
    requires Inv(s) && Legal(s, run) && StaysInReload(s, run, t)
    requires s.procs[t].table in s.heads
    requires Decided(s.procs[t]) || s.heads[s.procs[t].table] == h
    ensures var r, n := After(s, run), s.procs[t].table;
      && n in r.heads && t in r.procs && r.procs[t].table == n && (Decided(r.procs[t]) || r.heads[n] == h)
    decreases |run|
  {
    hide Inv, InReload, Decided, Apply, Enabled;
    if run != [] {
      var a, n := run[0], s.procs[t].table;
      HeadStep(s, a, n);
      ReloadPhases(s, a, t);
      if IsSwap(s, a, n) {
        assert InReload(s.procs[a.t]) by { SwapIsInside(s.procs[a.t]); }
        OneReloader(s, t, a.t);
      }
      ActionInv(s, a);
      UndecidedKeepsHead(Apply(s, a), run[1..], t, h);
    }
  }

  lemma SwapIsInside(p: Proc)
    requires p.pc.ReloadSwap?
    ensures InReload(p)
  {
  }

  /** A reload that fails leaves the live slot and the live key exactly as it found them under its lock. */
  lemma FailedReloadKeepsHead(s: State, run: seq<Action>, t: Tid)
    requires Inv(s) && Legal(s, run) && StaysInReload(s, run, t)
    requires s.procs[t].pc.ReloadRead?
    requires t in After(s, run).procs && After(s, run).procs[t].pc.ReloadExit? && !After(s, run).procs[t].ok
    ensures var n := s.procs[t].table;
      n in s.heads && n in After(s, run).heads && After(s, run).heads[n] == s.heads[n]
  {
    assert LockOf(s, t);
    hide Inv, LocksOk;
    UndecidedKeepsHead(s, run, t, s.heads[s.procs[t].table]);
  }

  // ─── At rest ───────────────────────────────────────────────────────────────

  lemma RegisteredAtZero(s: State, a: Action, n: string)
    requires Inv(s) && Enabled(s, a) && n !in s.heads
    ensures !IsSwap(s, a, n)
    ensures n in Apply(s, a).heads ==> Apply(s, a).heads[n].swaps == 0
  {
    hide Inv, StepEnabled, LoadStep, SwitchStep, StepOf;
    if a.Step? {
      var p := s.procs[a.t];
      if p.pc.ReloadSwap? {
        SwapIsNewer(s, a.t);
        SwapHead(s, a.t, p, a.ok, a.kafka);
      } else if p.pc.LoadRegister? {
        RegisterIsNew(s, a.t);
        RegisterHead(s, a.t, p, a.ok, a.kafka);
      }
    }
  }

  lemma {:induction false} SwapsCounted(s: State, run: seq<Action>, n: string)
    requires Inv(s) && Legal(s, run) && n !in s.heads && n in After(s, run).heads
    ensures After(s, run).heads[n].swaps == SwapCount(s, run, n)
    decreases |run|
  {
    hide Inv, Apply, Enabled;
    if run != [] {
      var s' := Apply(s, run[0]);
      RegisteredAtZero(s, run[0], n);
      ActionInv(s, run[0]);
      if n in s'.heads {
        HeadsOnlyAdvance(s', run[1..], n);
      } else {
        SwapsCounted(s', run[1..], n);
      }
    }
  }

  lemma RestingKeys(s: State, n: string)
    requires Inv(s) && !IsReserved(n)
    requires n !in s.serial
    requires forall t :: t in s.procs && s.procs[t].table == n ==> !Opening(s.procs[t])
    ensures if n in s.heads then
        && (s.heads[n].stagingIsLive <==> s.heads[n].swaps % 2 == 1)
        && (StagingKey(n) in s.db <==> s.heads[n].stagingIsLive)
        && (n in s.db <==> !s.heads[n].stagingIsLive)
      else n !in s.db && StagingKey(n) !in s.db
  {
    var v := ViewOf(s, n);
    assert ViewOk(v, n, s.nextSlot);
    assert LocksOk(s);
    hide Inv, IsReserved, TableOf, Loadable, StagingKey;
    assert v.reloader == IDLE;
    assert !Opening(v.loader);
  }

  /** At rest exactly one of a registered table's keys is open, and it is `name~reload`
      iff the number of swaps completed in the run is odd; an unregistered table has none open. */
  lemma AtRestOneKey(s: State, run: seq<Action>, n: string)
    requires Init(s) && Legal(s, run) && !IsReserved(n)
    requires n !in After(s, run).serial
    requires forall t :: t in After(s, run).procs && After(s, run).procs[t].table == n ==> !Opening(After(s, run).procs[t])
    ensures var r := After(s, run);
      if n in r.heads then
        && (StagingKey(n) in r.db <==> SwapCount(s, run, n) % 2 == 1)
        && (n in r.db <==> SwapCount(s, run, n) % 2 == 0)
      else n !in r.db && StagingKey(n) !in r.db
  {
    InitInv(s);
    hide Inv, IsReserved, StagingKey, Opening;
    RunInv(s, run);
    RestingKeys(After(s, run), n);
    if n in After(s, run).heads {
      SwapsCounted(s, run, n);
    }
  }
}
