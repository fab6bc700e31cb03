/**
 Loads and reloads do succeed: a call that nobody disturbs, for a table whose path
 resolves, ends with success and serves what the path resolves to.
 */
module RegistrySuccess {
  import opened Wrappers
  import opened Registry
  import opened RegistryInvariant
  import opened RegistryTheorems
  import opened RegistryProgress
  import opened ReloadFreshness

  /** No other thread is in a call, nobody holds a handle on the table, and its path resolves to `d`. */
  predicate Undisturbed(s: State, t: Tid, n: string, d: Dir) {
    && !IsReserved(n) && n in s.disk && s.disk[n] == d
    && (forall u :: u in s.procs && u != t ==> s.procs[u].pc.Idle? || s.procs[u].pc.Done?)
    && (forall h :: h in s.handles ==> s.handles[h].table != n)
  }

  /** The places a successful reload passes. */
  predicate OnReloadPath(p: Proc) {
    || p.pc.ReloadCheck? || p.pc.ReloadFind? || p.pc.ReloadLock? || p.pc.ReloadExit? || p.pc.Done?
    || Preparing(p) || AfterSwap(p)
    || (Switching(p) && !p.pc.ReloadAbortClose? && !p.pc.ReloadAbortUnlink?)
  }

  /** A reload on its way to success. */
  predicate Reloading(s: State, p: Proc, n: string, d: Dir) {
    && p.table == n && n in s.heads && OnReloadPath(p)
    && (p.pc.ReloadUnlink? || p.pc.ReloadLink? ==> p.cfg == Some(d) && !p.live)
    && (p.pc.ReloadClose? || p.pc.ReloadOpen? ==> Resolve(s, NextKey(p)) == Some(d))
    && (p.pc.ReloadOpen? ==> NextKey(p) !in s.db)
    && (p.pc.ReloadBuild? ==> NextKey(p) in s.db && s.db[NextKey(p)].dir == d)
    && (p.pc.ReloadSwap? ==> p.slot.index.dir == d)
    && (AfterSwap(p) || p.pc.ReloadExit? || p.pc.Done? ==> s.heads[n].slot.index.dir == d)
    && (p.pc.ReloadExit? || p.pc.Done? ==> p.ok)
  }

  predicate OnLoadPath(p: Proc) {
    p.pc.LoadLock? || p.pc.Done? || (InLoad(p) && !p.pc.LoadClose?)
  }

  /** A load on its way to success. */
  predicate Loading(s: State, p: Proc, n: string, d: Dir) {
    && p.table == n && Loadable(n) && OnLoadPath(p)
    && (n in s.heads <==> p.pc.LoadExit? || p.pc.Done?)
    && (p.pc.LoadOpen? ==> n !in s.db)
    && (p.pc.LoadBuild? ==> n in s.db && s.db[n].dir == d)
    && (p.pc.LoadRegister? ==> p.slot.index.dir == d)
    && (p.pc.LoadExit? || p.pc.Done? ==> p.ok && s.heads[n].slot.index.dir == d)
  }

  // ─── Locks are free ────────────────────────────────────────────────────────

  lemma LocksFree(s: State, t: Tid, n: string, d: Dir)
    requires Inv(s) && Undisturbed(s, t, n, d)
    ensures s.loadMu.None? || s.loadMu == Some(t)
    ensures n !in s.serial || s.serial[n] == t
  {
    hide ViewOk, ViewOf, Pinned, Feeding, IsReserved, TableOf;
  }

  lemma DrainFree(s: State, t: Tid, n: string, d: Dir)
    requires Inv(s) && Undisturbed(s, t, n, d) && t in s.procs && s.procs[t].pc.ReloadDrain? && s.procs[t].table == n
    ensures Drained(s, t, s.procs[t].retired)
  {
    hide Inv, IsReserved, Drained;
    RetiredIsOld(s, t);
    DrainWaitsForHandles(s, t);
  }

  // ─── One step of a reload ──────────────────────────────────────────────────

  predicate StepsTo(s: State, t: Tid, n: string, d: Dir, kafka: bool) {
    && t in s.procs && StepEnabled(s, t, s.procs[t], true)
    && var r := StepOf(s, t, s.procs[t], true, kafka);
    t in r.procs && Reloading(r, r.procs[t], n, d) && Undisturbed(r, t, n, d)
  }

  /** A step that changes neither handles, nor other threads, nor the table's own path leaves it undisturbed. */
  lemma StillUndisturbed(s: State, r: State, t: Tid, n: string, d: Dir)
    requires Undisturbed(s, t, n, d) && t in r.procs && r.procs == s.procs[t := r.procs[t]] && r.handles == s.handles
    requires Lookup(r.disk, n) == Lookup(s.disk, n)
    ensures Undisturbed(r, t, n, d)
  {
    hide IsReserved;
  }

  lemma Arrives(s: State, r: State, t: Tid, n: string, d: Dir, kafka: bool)
    requires t in s.procs && StepEnabled(s, t, s.procs[t], true) && StepOf(s, t, s.procs[t], true, kafka) == r
    requires t in r.procs && Reloading(r, r.procs[t], n, d)
    requires Undisturbed(s, t, n, d) && r.procs == s.procs[t := r.procs[t]] && r.handles == s.handles && Lookup(r.disk, n) == Lookup(s.disk, n)
    ensures StepsTo(s, t, n, d, kafka)
  {
    hide StepOf, StepEnabled, Undisturbed, Reloading;
    StillUndisturbed(s, r, t, n, d);
  }

  lemma EnterIs(s: State, t: Tid, p: Proc, kafka: bool)
    requires StepEnabled(s, t, p, true) && p.table in s.heads && (p.pc.ReloadCheck? || p.pc.ReloadFind? || p.pc.ReloadLock? || p.pc.ReloadExit?)
    ensures
      var r := StepOf(s, t, p, true, kafka);
      && r == s.(procs := s.procs[t := r.procs[t]], serial := r.serial)
      && r.procs[t] == p.(pc := if p.pc.ReloadCheck? then ReloadFind else if p.pc.ReloadFind? then ReloadLock else if p.pc.ReloadLock? then ReloadRead else Done)
  {
    hide Effect, Early, IsReserved;
  }

  lemma EnterEnabled(s: State, t: Tid, n: string, d: Dir)
    requires Inv(s) && Undisturbed(s, t, n, d) && t in s.procs && s.procs[t].table == n
    requires
      var pc := s.procs[t].pc;
      pc.ReloadCheck? || pc.ReloadFind? || pc.ReloadLock? || pc.ReloadExit?
    ensures StepEnabled(s, t, s.procs[t], true)
  {
    hide Inv, Undisturbed;
    LocksFree(s, t, n, d);
    Focus(s, t);
    hide ViewOk, IsReserved;
  }

  /** The reload's own view does not change with its lock. */
  lemma EnterLeads(s: State, r: State, t: Tid, n: string, d: Dir)
    requires t in s.procs && Reloading(s, s.procs[t], n, d) && t in r.procs && r.heads == s.heads
    requires
      var p := s.procs[t];
      && (p.pc.ReloadCheck? || p.pc.ReloadFind? || p.pc.ReloadLock? || p.pc.ReloadExit?)
      && r.procs[t] == p.(pc := if p.pc.ReloadCheck? then ReloadFind else if p.pc.ReloadFind? then ReloadLock else if p.pc.ReloadLock? then ReloadRead else Done)
    ensures Reloading(r, r.procs[t], n, d)
  {
    hide Resolve, NextKey;
  }

  lemma EnterGoes(s: State, t: Tid, n: string, d: Dir, kafka: bool)
    requires Inv(s) && Undisturbed(s, t, n, d) && t in s.procs && Reloading(s, s.procs[t], n, d)
    requires
      var pc := s.procs[t].pc;
      pc.ReloadCheck? || pc.ReloadFind? || pc.ReloadLock? || pc.ReloadExit?
    ensures StepsTo(s, t, n, d, kafka)
  {
    var p := s.procs[t];
    assert p.table == n && n in s.heads;
    hide *;
    EnterEnabled(s, t, n, d);
    EnterIs(s, t, p, kafka);
    var r := StepOf(s, t, p, true, kafka);
    EnterLeads(s, r, t, n, d);
    Arrives(s, r, t, n, d, kafka);
  }

  lemma ReadGoes(s: State, t: Tid, n: string, d: Dir, kafka: bool)
    requires Inv(s) && Undisturbed(s, t, n, d) && t in s.procs && Reloading(s, s.procs[t], n, d) && s.procs[t].pc.ReloadRead?
    ensures StepsTo(s, t, n, d, kafka)
  {
    hide Inv, Effect, Early, Undisturbed;
    var r := StepOf(s, t, s.procs[t], true, kafka);
    assert r.procs[t].pc == ReloadCanon;
    StillUndisturbed(s, r, t, n, d);
  }

  lemma PrepareIs(s: State, t: Tid, p: Proc, kafka: bool)
    requires p.pc.ReloadCanon? || p.pc.ReloadUnlink? || p.pc.ReloadLink?
    ensures StepEnabled(s, t, p, true)
    ensures
      var r := StepOf(s, t, p, true, kafka);
      && (p.pc.ReloadCanon? ==> r == ReloadCanonStep(s, t, p, true))
      && (p.pc.ReloadUnlink? ==> r == Goto(Unlink(s, NextKey(p)), t, p.(pc := ReloadLink)))
      && (p.pc.ReloadLink? ==> r == ReloadLinkStep(s, t, p, true))
  {
    hide Effect, Early, NextKey, Unlink, ReloadCanonStep, ReloadLinkStep, InReload;
  }

  lemma CanonLeads(s: State, t: Tid, p: Proc, n: string, d: Dir)
    requires p.pc.ReloadCanon? && p.table == n && n in s.heads && !IsReserved(n) && Lookup(s.disk, n) == Some(d)
    ensures
      var r := ReloadCanonStep(s, t, p, true);
      && t in r.procs && r == s.(procs := s.procs[t := r.procs[t]]) && Reloading(r, r.procs[t], n, d)
  {
    ResolveOwn(s, n);
    NextIsOwn(p);
    var p' := p.(pc := if p.live then ReloadClose else ReloadUnlink, cfg := Some(d));
    var r := Goto(s, t, p');
    ResolveOwn(r, n);
    NextIsOwn(p');
    hide Resolve, NextKey, IsReserved;
    assert ReloadCanonStep(s, t, p, true) == r;
  }

  /** The path is resolved; the primary key can be opened right away. */
  lemma CanonGoes(s: State, t: Tid, n: string, d: Dir, kafka: bool)
    requires Inv(s) && Undisturbed(s, t, n, d) && t in s.procs && Reloading(s, s.procs[t], n, d) && s.procs[t].pc.ReloadCanon?
    ensures StepsTo(s, t, n, d, kafka)
  {
    var p := s.procs[t];
    assert p.table == n && n in s.heads && !IsReserved(n) && Lookup(s.disk, n) == Some(d);
    hide *;
    PrepareIs(s, t, p, kafka);
    CanonLeads(s, t, p, n, d);
    Arrives(s, ReloadCanonStep(s, t, p, true), t, n, d, kafka);
  }

  lemma NextIsOwn(p: Proc)
    requires !IsReserved(p.table)
    ensures NextKey(p) == p.table <==> p.live
    ensures PrevKey(p) == p.table <==> !p.live
  {
    KeyIsolation(p.table, p.table, !p.live, false);
    KeyIsolation(p.table, p.table, p.live, false);
  }

  lemma UnlinkLeads(s: State, t: Tid, p: Proc, n: string, d: Dir)
    requires p.pc.ReloadUnlink? && !IsReserved(n) && Reloading(s, p, n, d)
    ensures
      var r := Goto(Unlink(s, NextKey(p)), t, p.(pc := ReloadLink));
      && t in r.procs && r.procs == s.procs[t := r.procs[t]] && r.handles == s.handles && Lookup(r.disk, n) == Lookup(s.disk, n)
      && Reloading(r, r.procs[t], n, d)
  {
    NextIsOwn(p);
    hide Resolve, NextKey, IsReserved;
  }

  lemma UnlinkGoes(s: State, t: Tid, n: string, d: Dir, kafka: bool)
    requires Inv(s) && Undisturbed(s, t, n, d) && t in s.procs && Reloading(s, s.procs[t], n, d) && s.procs[t].pc.ReloadUnlink?
    ensures StepsTo(s, t, n, d, kafka)
  {
    var p := s.procs[t];
    assert !IsReserved(n);
    hide *;
    PrepareIs(s, t, p, kafka);
    UnlinkLeads(s, t, p, n, d);
    Arrives(s, Goto(Unlink(s, NextKey(p)), t, p.(pc := ReloadLink)), t, n, d, kafka);
  }

  lemma LinkLeads(s: State, t: Tid, p: Proc, n: string, d: Dir)
    requires p.pc.ReloadLink? && !IsReserved(n) && Reloading(s, p, n, d)
    ensures
      var r := ReloadLinkStep(s, t, p, true);
      && t in r.procs && r.procs == s.procs[t := r.procs[t]] && r.handles == s.handles && Lookup(r.disk, n) == Lookup(s.disk, n)
      && Reloading(r, r.procs[t], n, d)
  {
    NextIsOwn(p);
    hide IsReserved, StagingKey, LiveKey, TableOf;
    var p' := p.(pc := ReloadClose);
    var r := Goto(LinkTo(s, NextKey(p), p.cfg), t, p');
    assert NextKey(p') == NextKey(p) && Resolve(r, NextKey(p)) == Some(d);
  }

  lemma LinkGoes(s: State, t: Tid, n: string, d: Dir, kafka: bool)
    requires Inv(s) && Undisturbed(s, t, n, d) && t in s.procs && Reloading(s, s.procs[t], n, d) && s.procs[t].pc.ReloadLink?
    ensures StepsTo(s, t, n, d, kafka)
  {
    var p := s.procs[t];
    assert !IsReserved(n);
    hide *;
    PrepareIs(s, t, p, kafka);
    LinkLeads(s, t, p, n, d);
    Arrives(s, ReloadLinkStep(s, t, p, true), t, n, d, kafka);
  }

  lemma CloseGoes(s: State, t: Tid, n: string, d: Dir, kafka: bool)
    requires Inv(s) && Undisturbed(s, t, n, d) && t in s.procs && Reloading(s, s.procs[t], n, d) && s.procs[t].pc.ReloadClose?
    ensures StepsTo(s, t, n, d, kafka)
  {
    hide Inv, Effect, Early, Undisturbed, StagingKey, IsReserved, LiveKey, TableOf;
    var p := s.procs[t];
    var r := StepOf(s, t, p, true, kafka);
    assert r == Goto(CloseIndex(s, NextKey(p)), t, p.(pc := ReloadOpen));
    assert NextKey(r.procs[t]) == NextKey(p) && Resolve(r, NextKey(p)) == Resolve(s, NextKey(p));
    StillUndisturbed(s, r, t, n, d);
  }

  lemma OpenGoes(s: State, t: Tid, n: string, d: Dir, kafka: bool)
    requires Inv(s) && Undisturbed(s, t, n, d) && t in s.procs && Reloading(s, s.procs[t], n, d) && s.procs[t].pc.ReloadOpen?
    ensures StepsTo(s, t, n, d, kafka)
  {
    hide Inv, Effect, Early, Undisturbed, StagingKey, IsReserved, LiveKey, Resolve;
    var p := s.procs[t];
    assert CanOpen(s, NextKey(p));
    var r := StepOf(s, t, p, true, kafka);
    assert r == ReloadOpenStep(s, t, p, true);
    ReloadOpenPc(s, t, p, true);
    assert r.procs[t].pc == ReloadBuild && NextKey(r.procs[t]) == NextKey(p);
    StillUndisturbed(s, r, t, n, d);
  }

  lemma BuildGoes(s: State, t: Tid, n: string, d: Dir, kafka: bool)
    requires Inv(s) && Undisturbed(s, t, n, d) && t in s.procs && Reloading(s, s.procs[t], n, d) && s.procs[t].pc.ReloadBuild?
    ensures StepsTo(s, t, n, d, kafka)
  {
    hide Inv, Effect, Early, Undisturbed, StagingKey, IsReserved, LiveKey, Resolve;
    var p := s.procs[t];
    var r := StepOf(s, t, p, true, kafka);
    assert r == ReloadBuildStep(s, t, p, true, kafka);
    StillUndisturbed(s, r, t, n, d);
  }

  lemma SwapGoes(s: State, t: Tid, n: string, d: Dir, kafka: bool)
    requires Inv(s) && Undisturbed(s, t, n, d) && t in s.procs && Reloading(s, s.procs[t], n, d) && s.procs[t].pc.ReloadSwap?
    ensures StepsTo(s, t, n, d, kafka)
  {
    hide Inv, Effect, Early, Undisturbed, StagingKey, IsReserved, LiveKey, Resolve;
    var p := s.procs[t];
    var r := StepOf(s, t, p, true, kafka);
    assert r == ReloadSwapStep(s, t, p);
    StillUndisturbed(s, r, t, n, d);
  }

  lemma RetireIs(s: State, t: Tid, p: Proc, kafka: bool)
    requires AfterSwap(p) && (p.pc.ReloadDrain? ==> Drained(s, t, p.retired))
    ensures StepEnabled(s, t, p, true) && StepOf(s, t, p, true, kafka) == RetireStep(s, t, p)
  {
    hide Effect, Early, PrevKey, Drained, RetireStep;
  }

  lemma RetireStepIs(s: State, t: Tid, p: Proc)
    requires AfterSwap(p)
    ensures
      var r := RetireStep(s, t, p);
      && (p.pc.ReloadStop? ==> r == Goto(s.(consumers := s.consumers - {p.retired}), t, p.(pc := ReloadDrain)))
      && (p.pc.ReloadDrain? ==> r == Goto(s, t, p.(pc := ReloadClosePrev)))
      && (p.pc.ReloadClosePrev? ==> r == Goto(CloseIndex(s, PrevKey(p)), t, p.(pc := ReloadUnlinkPrev)))
      && (p.pc.ReloadUnlinkPrev? ==> r == Goto(UnlinkStaging(s, p.table, PrevKey(p)), t, p.(pc := ReloadExit, ok := true)))
  {
    hide Effect, PrevKey, CloseIndex, UnlinkStaging, Goto;
  }

  lemma UnlinkKeeps(s: State, table: string, key: string)
    ensures
      var r := UnlinkStaging(s, table, key);
      r.procs == s.procs && r.handles == s.handles && r.heads == s.heads && Lookup(r.disk, table) == Lookup(s.disk, table)
  {
  }

  lemma RetireKeeps(s: State, t: Tid, p: Proc)
    requires AfterSwap(p) && !IsReserved(p.table)
    ensures
      var r := RetireStep(s, t, p);
      && t in r.procs && r.procs == s.procs[t := r.procs[t]] && r.handles == s.handles && r.heads == s.heads
      && Lookup(r.disk, p.table) == Lookup(s.disk, p.table)
      && r.procs[t].table == p.table
      && r.procs[t].pc == (if p.pc.ReloadStop? then ReloadDrain else if p.pc.ReloadDrain? then ReloadClosePrev else if p.pc.ReloadClosePrev? then ReloadUnlinkPrev else ReloadExit)
      && (p.pc.ReloadUnlinkPrev? ==> r.procs[t].ok)
  {
    hide RetireStep, PrevKey, IsReserved, StagingKey, UnlinkStaging, CloseIndex;
    RetireStepIs(s, t, p);
    UnlinkKeeps(s, p.table, PrevKey(p));
    CloseKeeps(s, PrevKey(p));
  }

  lemma CloseKeeps(s: State, key: string)
    ensures
      var r := CloseIndex(s, key);
      r.procs == s.procs && r.handles == s.handles && r.heads == s.heads && r.disk == s.disk
  {
  }

  lemma RetireLeads(s: State, r: State, t: Tid, n: string, d: Dir)
    requires t in s.procs && Reloading(s, s.procs[t], n, d) && AfterSwap(s.procs[t]) && t in r.procs && r.heads == s.heads && r.procs[t].table == n
    requires
      var p := s.procs[t];
      && r.procs[t].pc == (if p.pc.ReloadStop? then ReloadDrain else if p.pc.ReloadDrain? then ReloadClosePrev else if p.pc.ReloadClosePrev? then ReloadUnlinkPrev else ReloadExit)
      && (p.pc.ReloadUnlinkPrev? ==> r.procs[t].ok)
    ensures Reloading(r, r.procs[t], n, d)
  {
    hide Resolve, NextKey;
  }

  lemma RetireGoes(s: State, t: Tid, n: string, d: Dir, kafka: bool)
    requires Inv(s) && Undisturbed(s, t, n, d) && t in s.procs && Reloading(s, s.procs[t], n, d) && AfterSwap(s.procs[t])
    ensures StepsTo(s, t, n, d, kafka)
  {
    var p := s.procs[t];
    assert !IsReserved(n) && p.table == n;
    hide *;
    if p.pc.ReloadDrain? {
      DrainFree(s, t, n, d);
    }
    RetireIs(s, t, p, kafka);
    RetireKeeps(s, t, p);
    RetireLeads(s, RetireStep(s, t, p), t, n, d);
    Arrives(s, RetireStep(s, t, p), t, n, d, kafka);
  }

  lemma ReloadGoes(s: State, t: Tid, n: string, d: Dir, kafka: bool)
    requires Inv(s) && Undisturbed(s, t, n, d) && t in s.procs && Reloading(s, s.procs[t], n, d) && !s.procs[t].pc.Done?
    ensures StepsTo(s, t, n, d, kafka)
  {
    var p := s.procs[t];
    hide Inv, Undisturbed, StepsTo, Resolve, NextKey;
    if p.pc.ReloadRead? {
      ReadGoes(s, t, n, d, kafka);
    } else if p.pc.ReloadCanon? {
      CanonGoes(s, t, n, d, kafka);
    } else if p.pc.ReloadUnlink? {
      UnlinkGoes(s, t, n, d, kafka);
    } else if p.pc.ReloadLink? {
      LinkGoes(s, t, n, d, kafka);
    } else if p.pc.ReloadClose? {
      CloseGoes(s, t, n, d, kafka);
    } else if p.pc.ReloadOpen? {
      OpenGoes(s, t, n, d, kafka);
    } else if p.pc.ReloadBuild? {
      BuildGoes(s, t, n, d, kafka);
    } else if p.pc.ReloadSwap? {
      SwapGoes(s, t, n, d, kafka);
    } else if AfterSwap(p) {
      RetireGoes(s, t, n, d, kafka);
    } else {
      EnterGoes(s, t, n, d, kafka);
    }
  }

  /** The steps of one thread, all of them successful. */
  predicate OwnSteps(run: seq<Action>, t: Tid, kafka: bool) {
    forall i :: 0 <= i < |run| ==> run[i] == Step(t, true, kafka)
  }

  lemma {:induction false} ReloadFinishes(s: State, t: Tid, n: string, d: Dir, kafka: bool) returns (run: seq<Action>)
    requires Inv(s) && Undisturbed(s, t, n, d) && t in s.procs && Reloading(s, s.procs[t], n, d)
    ensures OwnSteps(run, t, kafka) && Legal(s, run) && Inv(After(s, run))
    ensures
      var r := After(s, run);
      t in r.procs && r.procs[t].pc.Done? && r.procs[t].ok && n in r.heads && r.heads[n].slot.index.dir == d && Undisturbed(r, t, n, d)
    decreases Rank(s.procs[t].pc)
  {
    hide Inv, Undisturbed, StepEnabled, StepOf, Rank;
    if s.procs[t].pc.Done? {
      run := [];
    } else {
      ReloadGoes(s, t, n, d, kafka);
      OwnStepDescends(s, t, true, kafka);
      var a := Step(t, true, kafka);
      ActionInv(s, a);
      var rest := ReloadFinishes(Apply(s, a), t, n, d, kafka);
      run := [a] + rest;
      assert run[1..] == rest;
    }
  }

  /** A reload of a registered table that nobody disturbs succeeds and serves what the table's path resolves to. */
  lemma ReloadSucceeds(s: State, t: Tid, n: string, d: Dir, kafka: bool) returns (run: seq<Action>)
    requires Inv(s) && Undisturbed(s, t, n, d) && n in s.heads && Enabled(s, StartReload(t, n))
    ensures Legal(s, run) && Inv(After(s, run))
    ensures |run| > 0 && run[0] == StartReload(t, n) && OwnSteps(run[1..], t, kafka)
    ensures
      var r := After(s, run);
      t in r.procs && r.procs[t].pc.Done? && r.procs[t].ok && n in r.heads && r.heads[n].slot.index.dir == d
  {
    hide Inv;
    var a := StartReload(t, n);
    var s' := Apply(s, a);
    ActionInv(s, a);
    StillUndisturbed(s, s', t, n, d);
    var rest := ReloadFinishes(s', t, n, d, kafka);
    run := [a] + rest;
    assert run[1..] == rest;
  }

  // ─── Loads ─────────────────────────────────────────────────────────────────

  predicate LoadStepsTo(s: State, t: Tid, n: string, d: Dir, kafka: bool) {
    && t in s.procs && StepEnabled(s, t, s.procs[t], true)
    && var r := StepOf(s, t, s.procs[t], true, kafka);
    t in r.procs && Loading(r, r.procs[t], n, d) && Undisturbed(r, t, n, d)
  }

  /** Nothing is open for a table that is not registered and not being loaded. */
  lemma NothingOpen(s: State, t: Tid, n: string, d: Dir)
    requires Inv(s) && Undisturbed(s, t, n, d) && t in s.procs && s.procs[t].pc.LoadCheck? && s.procs[t].table == n && n !in s.heads
    ensures n !in s.db
  {
    Focus(s, t);
    assert ViewOf(s, n).loader == s.procs[t];
    hide Inv, IsReserved, TableOf, LocksOk;
  }

  lemma LoadIs(s: State, t: Tid, p: Proc, kafka: bool)
    requires StepEnabled(s, t, p, true) && (p.pc.LoadLock? || InLoad(p))
    ensures StepOf(s, t, p, true, kafka) == LoadStep(s, t, p, true, kafka)
  {
    hide LoadStep, Effect;
  }

  lemma LoadStepIs(s: State, t: Tid, p: Proc, kafka: bool)
    requires StepEnabled(s, t, p, true) && (p.pc.LoadLock? || p.pc.LoadCheck? || p.pc.LoadOpen? || p.pc.LoadBuild? || p.pc.LoadRegister? || p.pc.LoadExit?)
    ensures
      var r := LoadStep(s, t, p, true, kafka);
      && (p.pc.LoadLock? ==> r == Goto(s.(loadMu := Some(t)), t, p.(pc := LoadCheck)))
      && (p.pc.LoadCheck? ==> r == LoadCheckStep(s, t, p))
      && (p.pc.LoadOpen? ==> CanOpen(s, p.table) && r == LoadOpenStep(s, t, p, true))
      && (p.pc.LoadBuild? ==> p.table in s.db && r == LoadBuildStep(s, t, p, true, kafka))
      && (p.pc.LoadRegister? ==> r == LoadRegisterStep(s, t, p))
      && (p.pc.LoadExit? ==> r == Goto(s.(loadMu := None), t, p.(pc := Done)))
  {
    hide Effect, Goto, LoadCheckStep, LoadOpenStep, LoadBuildStep, LoadRegisterStep, CanOpen;
  }

  /** The table after each step of its load. */
  lemma LoadLeads(s: State, t: Tid, p: Proc, n: string, d: Dir, kafka: bool)
    requires StepEnabled(s, t, p, true) && Loading(s, p, n, d) && !p.pc.Done? && !IsReserved(n) && Lookup(s.disk, n) == Some(d)
    requires p.pc.LoadCheck? ==> n !in s.db
    ensures
      var r := LoadStep(s, t, p, true, kafka);
      t in r.procs && Loading(r, r.procs[t], n, d)
  {
    hide LoadStep, StepEnabled, IsReserved, LoadOpenStep, LoadBuildStep, LoadRegisterStep, CanOpen;
    LoadStepIs(s, t, p, kafka);
    if p.pc.LoadOpen? {
      LoadOpenLeads(s, t, p, n, d);
    } else if p.pc.LoadBuild? {
      LoadBuildLeads(s, t, p, n, d, kafka);
    } else if p.pc.LoadRegister? {
      LoadRegisterLeads(s, t, p, n, d);
    }
  }

  lemma LoadOpenLeads(s: State, t: Tid, p: Proc, n: string, d: Dir)
    requires p.pc.LoadOpen? && Loading(s, p, n, d) && !IsReserved(n) && Lookup(s.disk, n) == Some(d) && CanOpen(s, n)
    ensures
      var r := LoadOpenStep(s, t, p, true);
      t in r.procs && Loading(r, r.procs[t], n, d)
  {
    ResolveOwn(s, n);
    hide StagingKey, IsReserved, Resolve;
  }

  lemma LoadBuildLeads(s: State, t: Tid, p: Proc, n: string, d: Dir, kafka: bool)
    requires p.pc.LoadBuild? && Loading(s, p, n, d)
    ensures
      var r := LoadBuildStep(s, t, p, true, kafka);
      t in r.procs && Loading(r, r.procs[t], n, d)
  {
    hide IsReserved;
  }

  lemma LoadRegisterLeads(s: State, t: Tid, p: Proc, n: string, d: Dir)
    requires p.pc.LoadRegister? && Loading(s, p, n, d)
    ensures
      var r := LoadRegisterStep(s, t, p);
      t in r.procs && Loading(r, r.procs[t], n, d)
  {
    hide IsReserved;
  }

  lemma LoadGoes(s: State, t: Tid, n: string, d: Dir, kafka: bool)
    requires Inv(s) && Undisturbed(s, t, n, d) && t in s.procs && Loading(s, s.procs[t], n, d) && !s.procs[t].pc.Done?
    ensures LoadStepsTo(s, t, n, d, kafka)
  {
    var p := s.procs[t];
    LocksFree(s, t, n, d);
    Focus(s, t);
    ResolveOwn(s, n);
    if p.pc.LoadCheck? {
      NothingOpen(s, t, n, d);
    }
    assert StepEnabled(s, t, p, true);
    hide Inv, StepOf, StepEnabled, LoadStep, IsReserved, Resolve, LocksOk, ViewOk, LockOf;
    LoadIs(s, t, p, kafka);
    LoadLeads(s, t, p, n, d, kafka);
    LoadKeepsPath(s, t, p, kafka);
    hide Undisturbed, Loading;
    StillUndisturbed(s, LoadStep(s, t, p, true, kafka), t, n, d);
  }

  lemma LoadKeepsPath(s: State, t: Tid, p: Proc, kafka: bool)
    requires StepEnabled(s, t, p, true) && (p.pc.LoadLock? || InLoad(p))
    ensures
      var r := LoadStep(s, t, p, true, kafka);
      t in r.procs && r.procs == s.procs[t := r.procs[t]] && r.handles == s.handles && r.disk == s.disk
  {
    hide LoadStep, StagingKey, IsReserved;
  }

  lemma {:induction false} LoadFinishes(s: State, t: Tid, n: string, d: Dir, kafka: bool) returns (run: seq<Action>)
    requires Inv(s) && Undisturbed(s, t, n, d) && t in s.procs && Loading(s, s.procs[t], n, d)
    ensures OwnSteps(run, t, kafka) && Legal(s, run) && Inv(After(s, run))
    ensures
      var r := After(s, run);
      t in r.procs && r.procs[t].pc.Done? && r.procs[t].ok && n in r.heads && r.heads[n].slot.index.dir == d
    decreases Rank(s.procs[t].pc)
  {
    hide Inv, Undisturbed, StepEnabled, StepOf, Rank;
    if s.procs[t].pc.Done? {
      run := [];
    } else {
      LoadGoes(s, t, n, d, kafka);
      OwnStepDescends(s, t, true, kafka);
      var a := Step(t, true, kafka);
      ActionInv(s, a);
      var rest := LoadFinishes(Apply(s, a), t, n, d, kafka);
      run := [a] + rest;
      assert run[1..] == rest;
    }
  }

  /** A load of a table that is not registered, undisturbed, registers it over what its path resolves to. */
  lemma LoadSucceeds(s: State, t: Tid, n: string, d: Dir, kafka: bool) returns (run: seq<Action>)
    requires Inv(s) && Undisturbed(s, t, n, d) && n !in s.heads && Loadable(n) && Enabled(s, StartLoad(t, n))
    ensures Legal(s, run) && Inv(After(s, run))
    ensures |run| > 0 && run[0] == StartLoad(t, n) && OwnSteps(run[1..], t, kafka)
    ensures
      var r := After(s, run);
      t in r.procs && r.procs[t].pc.Done? && r.procs[t].ok && n in r.heads && r.heads[n].slot.index.dir == d
  {
    hide Inv;
    var a := StartLoad(t, n);
    var s' := Apply(s, a);
    ActionInv(s, a);
    StillUndisturbed(s, s', t, n, d);
    var rest := LoadFinishes(s', t, n, d, kafka);
    run := [a] + rest;
    assert run[1..] == rest;
  }
}
