/**
 Nothing but an outstanding handle can hold up a load or a reload for ever: the
 drain waits for handles alone, and as long as none is outstanding some thread in
 the middle of a call can always take its next step.
 */
module RegistryProgress {
  import opened Wrappers
  import opened Registry
  import opened RegistryInvariant
  import opened RegistryTheorems
  import opened ReloadFreshness

  lemma HeldSlotTable(s: State, u: Tid, slot: Slot)
    requires Inv(s) && u in s.procs && Holds(s.procs[u], slot)
    ensures slot.table == s.procs[u].table
  {
    var p := s.procs[u];
    Focus(s, u);
    hide Inv, IsReserved, TableOf, Loadable, StagingKey, LocksOk, Pinned, Feeding;
    var v := ViewOf(s, p.table);
    assert InLoad(p) ==> v.loader == p;
    assert InReload(p) ==> v.reloader == p;
  }

  lemma RetiredIsOld(s: State, t: Tid)
    requires Inv(s) && t in s.procs && s.procs[t].pc.ReloadDrain?
    ensures
      var p := s.procs[t];
      p.retired.table == p.table && p.table in s.heads && s.heads[p.table].slot != p.retired
  {
    var p := s.procs[t];
    Focus(s, t);
    hide Inv, IsReserved, TableOf, Loadable, StagingKey, LocksOk, Pinned, Feeding;
    assert ViewOf(s, p.table).reloader == p;
  }

  /** The old slot is drained exactly when no handle refers to it: neither a head nor another thread can. */
  lemma DrainWaitsForHandles(s: State, t: Tid)
    requires Inv(s) && t in s.procs && s.procs[t].pc.ReloadDrain?
    ensures Drained(s, t, s.procs[t].retired) <==> forall h :: h in s.handles ==> s.handles[h] != s.procs[t].retired
  {
    hide Inv, Pinned;
    var p := s.procs[t];
    RetiredIsOld(s, t);
    forall n | n in s.heads ensures s.heads[n].slot != p.retired {
      LiveIsPinned(s, n);
    }
    forall u | u in s.procs && u != t ensures !Holds(s.procs[u], p.retired) {
      if Holds(s.procs[u], p.retired) {
        HeldSlotTable(s, u, p.retired);
        PhaseFacts(s, u);
        if InReload(s.procs[u]) {
          OneReloader(s, t, u);
        }
      }
    }
  }

  predicate InCall(p: Proc) {
    !p.pc.Idle? && !p.pc.Done?
  }

  predicate Waits(p: Proc) {
    p.pc.LoadLock? || p.pc.ReloadLock? || p.pc.ReloadDrain?
  }

  /** Everything but taking a lock and draining can proceed, if only by failing. */
  lemma StepPossible(s: State, t: Tid)
    requires Inv(s) && t in s.procs && InCall(s.procs[t]) && !Waits(s.procs[t])
    ensures StepEnabled(s, t, s.procs[t], false)
  {
    hide Inv;
    Focus(s, t);
  }

  lemma DrainPossible(s: State, t: Tid)
    requires Inv(s) && t in s.procs && s.procs[t].pc.ReloadDrain? && s.handles == map[]
    ensures StepEnabled(s, t, s.procs[t], false)
  {
    hide Inv;
    DrainWaitsForHandles(s, t);
  }

  /** The thread that holds what another waits for. */
  lemma Holder(s: State, t: Tid) returns (u: Tid)
    requires Inv(s) && t in s.procs && (s.procs[t].pc.LoadLock? || s.procs[t].pc.ReloadLock?)
    requires !StepEnabled(s, t, s.procs[t], false)
    ensures u in s.procs && (InLoad(s.procs[u]) || InReload(s.procs[u]))
  {
    hide ViewOk, ViewOf, Pinned, Feeding, IsReserved, TableOf;
    u := if s.procs[t].pc.LoadLock? then s.loadMu.value else s.serial[s.procs[t].table];
  }

  /** In every reachable state without outstanding handles in which some call is under way, a call can go on. */
  lemma NoDeadlock(s: State, run: seq<Action>, t: Tid)
    requires Init(s) && Legal(s, run)
    requires After(s, run).handles == map[] && t in After(s, run).procs && InCall(After(s, run).procs[t])
    ensures exists u :: u in After(s, run).procs && InCall(After(s, run).procs[u]) && Enabled(After(s, run), Step(u, false, false))
  {
    hide Inv, StepEnabled, Legal;
    InitInv(s);
    RunInv(s, run);
    var r := After(s, run);
    hide After;
    var u := t;
    if !StepEnabled(r, t, r.procs[t], false) {
      if !Waits(r.procs[t]) {
        StepPossible(r, t);
      } else if r.procs[t].pc.ReloadDrain? {
        DrainPossible(r, t);
      } else {
        u := Holder(r, t);
        if r.procs[u].pc.ReloadDrain? {
          DrainPossible(r, u);
        } else {
          StepPossible(r, u);
        }
      }
    }
    assert Enabled(r, Step(u, false, false));
  }

  /** Handles can always be given back, one by one, and then none is left; nothing else changes. */
  lemma {:induction false} HandlesReturn(s: State) returns (run: seq<Action>)
    ensures forall i :: 0 <= i < |run| ==> run[i].Release?
    ensures Legal(s, run) && After(s, run) == s.(handles := map[])
    decreases s.handles.Keys
  {
    hide StepEnabled, StepOf;
    if s.handles == map[] {
      run := [];
      assert s == s.(handles := map[]);
    } else {
      var h :| h in s.handles;
      var s' := Apply(s, Release(h));
      assert s'.handles.Keys == s.handles.Keys - {h};
      var rest := HandlesReturn(s');
      run := [Release(h)] + rest;
      assert run[1..] == rest;
      assert s'.(handles := map[]) == s.(handles := map[]);
    }
  }

  // ─── Every call ends ───────────────────────────────────────────────────────

  /** How many steps of its own a call at `pc` can still take. */
  function Rank(pc: Pc): (r: nat) {
    match pc
    case Idle => 0
    case Done => 0
    case LoadExit => 1
    case LoadClose => 2
    case LoadRegister => 2
    case LoadBuild => 3
    case LoadOpen => 4
    case LoadCheck => 5
    case LoadLock => 6
    case ReloadExit => 1
    case ReloadUnlinkPrev => 2
    case ReloadAbortUnlink => 2
    case ReloadClosePrev => 3
    case ReloadAbortClose => 3
    case ReloadDrain => 4
    case ReloadStop => 5
    case ReloadSwap => 6
    case ReloadBuild => 7
    case ReloadDir => 7
    case ReloadOpen => 8
    case ReloadClose => 9
    case ReloadLink => 10
    case ReloadUnlink => 11
    case ReloadCanon => 12
    case ReloadRead => 13
    case ReloadLock => 14
    case ReloadFind => 15
    case ReloadCheck => 16
  }

  lemma LoadRanks()
    ensures Rank(Done) == 0 && Rank(LoadExit) == 1 && Rank(LoadClose) == 2 && Rank(LoadRegister) == 2
    ensures Rank(LoadBuild) == 3 && Rank(LoadOpen) == 4 && Rank(LoadCheck) == 5 && Rank(LoadLock) == 6
  {
  }

  lemma PrepareRanks()
    ensures Rank(ReloadExit) == 1 && Rank(ReloadClose) == 9 && Rank(ReloadLink) == 10
    ensures Rank(ReloadUnlink) == 11 && Rank(ReloadCanon) == 12 && Rank(ReloadRead) == 13
  {
  }

  lemma SwitchRanks()
    ensures Rank(ReloadExit) == 1 && Rank(ReloadAbortUnlink) == 2 && Rank(ReloadAbortClose) == 3 && Rank(ReloadStop) == 5
    ensures Rank(ReloadSwap) == 6 && Rank(ReloadBuild) == 7 && Rank(ReloadOpen) == 8 && Rank(ReloadClose) == 9
  {
  }

  lemma RetireRanks()
    ensures Rank(ReloadExit) == 1 && Rank(ReloadUnlinkPrev) == 2 && Rank(ReloadClosePrev) == 3
    ensures Rank(ReloadDrain) == 4 && Rank(ReloadStop) == 5
  {
  }

  lemma EnterRanks()
    ensures Rank(Done) == 0 && Rank(LoadLock) == 6 && Rank(ReloadDir) == 7 && Rank(ReloadRead) == 13
    ensures Rank(ReloadExit) == 1 && Rank(ReloadLock) == 14 && Rank(ReloadFind) == 15 && Rank(ReloadCheck) == 16
  {
  }

  lemma LoadDescends(s: State, t: Tid, p: Proc, ok: bool, kafka: bool)
    requires StepEnabled(s, t, p, ok) && (p.pc.LoadLock? || InLoad(p))
    ensures Rank(LoadStep(s, t, p, ok, kafka).procs[t].pc) < Rank(p.pc)
  {
    hide Effect, Loadable, IsReserved, Resolve, Rank, LoadCheckStep, LoadOpenStep, LoadBuildStep, LoadRegisterStep;
    LoadRanks();
    if p.pc.LoadLock? {
      assert p.pc == LoadLock;
    } else if p.pc.LoadCheck? {
      assert p.pc == LoadCheck;
    } else if p.pc.LoadOpen? {
      assert p.pc == LoadOpen;
      LoadOpenPc(s, t, p, ok);
    } else if p.pc.LoadBuild? {
      assert p.pc == LoadBuild;
      LoadBuildPc(s, t, p, ok, kafka);
    } else if p.pc.LoadClose? {
      assert p.pc == LoadClose;
    } else if p.pc.LoadRegister? {
      assert p.pc == LoadRegister;
      LoadRegisterPc(s, t, p);
    } else {
      assert p.pc == LoadExit;
    }
  }

  lemma LoadOpenPc(s: State, t: Tid, p: Proc, ok: bool)
    requires ok ==> CanOpen(s, p.table)
    ensures LoadOpenStep(s, t, p, ok).procs[t].pc == if ok then LoadBuild else LoadExit
  {
    hide Resolve;
  }

  lemma LoadBuildPc(s: State, t: Tid, p: Proc, ok: bool, kafka: bool)
    requires ok ==> p.table in s.db
    ensures LoadBuildStep(s, t, p, ok, kafka).procs[t].pc == if ok then LoadRegister else LoadClose
  {
  }

  lemma LoadRegisterPc(s: State, t: Tid, p: Proc)
    ensures LoadRegisterStep(s, t, p).procs[t].pc == LoadExit
  {
  }

  lemma EnterDescends(s: State, t: Tid, p: Proc, ok: bool)
    requires StepEnabled(s, t, p, ok)
    requires p.pc.ReloadCheck? || p.pc.ReloadDir? || p.pc.ReloadFind? || p.pc.ReloadLock? || p.pc.ReloadExit?
    ensures Rank(EnterStep(s, t, p, ok).procs[t].pc) < Rank(p.pc)
  {
    hide Effect, IsReserved, Early, Rank, ReloadCheckStep;
    EnterRanks();
    if p.pc.ReloadCheck? {
      assert p.pc == ReloadCheck;
    } else if p.pc.ReloadDir? {
      assert p.pc == ReloadDir;
    } else if p.pc.ReloadFind? {
      assert p.pc == ReloadFind;
    } else if p.pc.ReloadLock? {
      assert p.pc == ReloadLock;
    } else {
      assert p.pc == ReloadExit;
    }
  }

  lemma PrepareDescends(s: State, t: Tid, p: Proc, ok: bool)
    requires StepEnabled(s, t, p, ok) && Preparing(p)
    ensures Rank(PrepareStep(s, t, p, ok).procs[t].pc) < Rank(p.pc)
  {
    hide Effect, Resolve, StagingKey, Early, Rank, LiveKey, LinkTo, Unlink;
    PrepareRanks();
    if p.pc.ReloadRead? {
      assert p.pc == ReloadRead;
    } else if p.pc.ReloadCanon? {
      assert p.pc == ReloadCanon;
      assert PrepareStep(s, t, p, ok) == ReloadCanonStep(s, t, p, ok);
    } else if p.pc.ReloadUnlink? {
      assert p.pc == ReloadUnlink;
    } else {
      assert p.pc == ReloadLink;
      assert PrepareStep(s, t, p, ok) == ReloadLinkStep(s, t, p, ok);
    }
  }

  lemma ReloadOpenPc(s: State, t: Tid, p: Proc, ok: bool)
    requires ok ==> CanOpen(s, NextKey(p))
    ensures ReloadOpenStep(s, t, p, ok).procs[t].pc == if ok then ReloadBuild else ReloadAbortUnlink
  {
    hide Resolve, NextKey;
  }

  lemma ReloadBuildPc(s: State, t: Tid, p: Proc, ok: bool, kafka: bool)
    requires ok ==> NextKey(p) in s.db
    ensures ReloadBuildStep(s, t, p, ok, kafka).procs[t].pc == if ok then ReloadSwap else ReloadAbortClose
  {
    hide NextKey;
  }

  lemma SwitchDescends(s: State, t: Tid, p: Proc, ok: bool, kafka: bool)
    requires StepEnabled(s, t, p, ok) && Switching(p)
    ensures Rank(SwitchStep(s, t, p, ok, kafka).procs[t].pc) < Rank(p.pc)
  {
    hide Effect, Resolve, Rank, NextKey, UnlinkStaging, CloseIndex, ReloadOpenStep, ReloadBuildStep;
    SwitchRanks();
    if p.pc.ReloadClose? {
      assert p.pc == ReloadClose;
    } else if p.pc.ReloadOpen? {
      assert p.pc == ReloadOpen;
      ReloadOpenPc(s, t, p, ok);
    } else if p.pc.ReloadBuild? {
      assert p.pc == ReloadBuild;
      ReloadBuildPc(s, t, p, ok, kafka);
    } else if p.pc.ReloadAbortClose? {
      assert p.pc == ReloadAbortClose;
    } else if p.pc.ReloadAbortUnlink? {
      assert p.pc == ReloadAbortUnlink;
    } else {
      assert p.pc == ReloadSwap;
    }
  }

  lemma RetireDescends(s: State, t: Tid, p: Proc)
    requires AfterSwap(p)
    ensures Rank(RetireStep(s, t, p).procs[t].pc) < Rank(p.pc)
  {
    hide Effect, StagingKey, Rank, LiveKey, UnlinkStaging, CloseIndex;
    RetireRanks();
    if p.pc.ReloadStop? {
      assert p.pc == ReloadStop;
    } else if p.pc.ReloadDrain? {
      assert p.pc == ReloadDrain;
    } else if p.pc.ReloadClosePrev? {
      assert p.pc == ReloadClosePrev;
    } else {
      assert p.pc == ReloadUnlinkPrev;
    }
  }

  /** Every step of a thread brings its call nearer to its end: a call takes at most 16 steps of its own. */
  lemma OwnStepDescends(s: State, t: Tid, ok: bool, kafka: bool)
    requires t in s.procs && StepEnabled(s, t, s.procs[t], ok)
    ensures Rank(StepOf(s, t, s.procs[t], ok, kafka).procs[t].pc) < Rank(s.procs[t].pc) <= 16
  {
    hide LoadStep, EnterStep, PrepareStep, SwitchStep, RetireStep, Rank;
    var p := s.procs[t];
    RankBound(p.pc);
    if p.pc.LoadLock? || InLoad(p) {
      LoadDescends(s, t, p, ok, kafka);
    } else if Preparing(p) {
      PrepareDescends(s, t, p, ok);
    } else if Switching(p) {
      SwitchDescends(s, t, p, ok, kafka);
    } else if AfterSwap(p) {
      RetireDescends(s, t, p);
    } else {
      EnterDescends(s, t, p, ok);
    }
  }

  lemma RankBound(pc: Pc)
    ensures Rank(pc) <= 16
  {
  }

  /** The steps all listed threads together can still take. */
  function Remaining(s: State, tids: seq<Tid>): (r: nat) {
    if tids == [] then 0 else Rank(ProcOf(s, tids[0]).pc) + Remaining(s, tids[1..])
  }

  lemma {:induction false} RemainingSame(s: State, r: State, tids: seq<Tid>)
    requires r.procs == s.procs
    ensures Remaining(r, tids) == Remaining(s, tids)
  {
    hide Rank;
    if tids != [] {
      RemainingSame(s, r, tids[1..]);
    }
  }

  lemma {:induction false} RemainingDescends(s: State, r: State, t: Tid, tids: seq<Tid>)
    requires t in s.procs && t in r.procs && r.procs == s.procs[t := r.procs[t]] && Rank(r.procs[t].pc) < Rank(s.procs[t].pc)
    ensures Remaining(r, tids) <= Remaining(s, tids) && (t in tids ==> Remaining(r, tids) < Remaining(s, tids))
  {
    hide Rank;
    if tids != [] {
      RemainingDescends(s, r, t, tids[1..]);
    }
  }

  predicate Lists(s: State, tids: seq<Tid>) {
    forall t :: t in s.procs ==> t in tids
  }

  /** Steps of calls under way, handles coming and going, paths re-pointed; no new call. */
  predicate Finishing(run: seq<Action>) {
    forall i :: 0 <= i < |run| ==> !run[i].StartLoad? && !run[i].StartReload?
  }

  function Steps(run: seq<Action>): (r: nat) {
    if run == [] then 0 else (if run[0].Step? then 1 else 0) + Steps(run[1..])
  }

  lemma FinishingStep(s: State, a: Action, tids: seq<Tid>)
    requires Enabled(s, a) && Lists(s, tids) && !a.StartLoad? && !a.StartReload?
    ensures Lists(Apply(s, a), tids)
    ensures Remaining(Apply(s, a), tids) + (if a.Step? then 1 else 0) <= Remaining(s, tids)
  {
    hide StepOf, StepEnabled, Rank, Remaining;
    if a.Step? {
      OwnStepDescends(s, a.t, a.ok, a.kafka);
      RemainingDescends(s, Apply(s, a), a.t, tids);
    } else {
      RemainingSame(s, Apply(s, a), tids);
    }
  }

  /** While no new call starts, only so many steps are left. */
  lemma {:induction false} StepsAreBounded(s: State, run: seq<Action>, tids: seq<Tid>)
    requires Legal(s, run) && Finishing(run) && Lists(s, tids)
    ensures Steps(run) + Remaining(After(s, run), tids) <= Remaining(s, tids)
    decreases |run|
  {
    hide Apply, Enabled, Remaining, Lists;
    if run != [] {
      FinishingStep(s, run[0], tids);
      StepsAreBounded(Apply(s, run[0]), run[1..], tids);
    }
  }

  /**
   So every call ends: once no new call starts and the handles are released, the
   server can take only boundedly many steps, and where it can take none every
   call has returned.
   */
  lemma EveryCallEnds(s: State, run1: seq<Action>, run2: seq<Action>, tids: seq<Tid>)
    requires Init(s) && Legal(s, run1) && Legal(After(s, run1), run2) && Finishing(run2) && Lists(After(s, run1), tids)
    ensures Steps(run2) <= Remaining(After(s, run1), tids)
    ensures
      var r := After(After(s, run1), run2);
      r.handles == map[] && (forall u, ok, kafka :: !Enabled(r, Step(u, ok, kafka))) ==>
        forall t :: t in r.procs ==> !InCall(r.procs[t])
  {
    hide Apply, Enabled, Legal, After, Remaining, Lists, Finishing, Steps;
    StepsAreBounded(After(s, run1), run2, tids);
    LegalConcat(s, run1, run2);
    var r := After(After(s, run1), run2);
    if r.handles == map[] && (forall u, ok, kafka :: !Enabled(r, Step(u, ok, kafka))) {
      forall t | t in r.procs ensures !InCall(r.procs[t]) {
        if InCall(r.procs[t]) {
          NoDeadlock(s, run1 + run2, t);
        }
      }
    }
  }
}
