/**
 From which directory the live slot was opened when a reload returns ok.  As long
 as nobody re-points the table's path while the call runs, a successful reload
 serves the directory the path resolves to, except when the table was not
 registered yet and another thread's LoadTable had already opened it from
 another directory.
 */
module ReloadFreshness {
  import opened Wrappers
  import opened Registry
  import opened RegistryInvariant
  import opened RegistryTheorems

  predicate Relinks(a: Action, n: string) {
    a.Relink? && (a.leaf == n || a.leaf == StagingKey(n))
  }

  predicate NoRelink(run: seq<Action>, n: string) {
    forall i :: 0 <= i < |run| ==> !Relinks(run[i], n)
  }

  /** Thread `t` works on `n` and whatever it has resolved, linked, opened, built or published comes from `b`. */
  predicate Carries(s: State, t: Tid, n: string, b: Dir) {
    && t in s.procs && Lookup(s.disk, n) == Some(b)
    && var p := s.procs[t];
    && p.table == n
    && (p.pc.ReloadUnlink? || p.pc.ReloadLink? ==> p.cfg == Some(b))
    && ((p.pc.ReloadClose? || p.pc.ReloadOpen?) && !p.live ==> Resolve(s, StagingKey(n)) == Some(b))
    && (p.pc.LoadBuild? || p.pc.ReloadBuild? ==> KeyOf(p) in s.db && s.db[KeyOf(p)].dir == b)
    && (p.pc.LoadRegister? || p.pc.ReloadSwap? || Decided(p) ==> p.slot.index.dir == b)
    && (Decided(p) ==> n in s.heads && s.heads[n].slot == p.slot)
    && (p.pc.LoadExit? && p.ok ==> n in s.heads)
  }

  // ─── Other threads do not disturb it ───────────────────────────────────────

  predicate Owning(p: Proc) {
    InReload(p) || Opening(p)
  }

  /** While one thread reloads or opens a table no other thread touches the table's keys. */
  lemma NobodyElse(s: State, t: Tid, u: Tid)
    requires Inv(s) && t in s.procs && u in s.procs && t != u
    requires s.procs[t].table == s.procs[u].table && Owning(s.procs[t])
    ensures !Owning(s.procs[u])
  {
    hide Inv, LocksOk;
    PhaseFacts(s, t);
    PhaseFacts(s, u);
    assert Opening(s.procs[t]) && Opening(s.procs[u]) ==> false;
  }

  lemma OtherKeys(s: State, u: Tid, ok: bool, kafka: bool, m: string, x: bool)
    requires Inv(s) && u in s.procs && StepEnabled(s, u, s.procs[u], ok)
    requires !IsReserved(m) && s.procs[u].table != m
    ensures Lookup(StepOf(s, u, s.procs[u], ok, kafka).db, LiveKey(m, x)) == Lookup(s.db, LiveKey(m, x))
  {
    hide Inv, StepOf, StepEnabled, TableOf, IsReserved, Loadable;
    var p := s.procs[u];
    Focus(s, u);
    if InReload(p) || Opening(p) {
      KeyOfTable(p);
      KeyIsolation(m, m, x, x);
    }
  }

  /** An unreserved leaf is never a staging link. */
  lemma ResolveOwn(s: State, n: string)
    requires !IsReserved(n)
    ensures Resolve(s, n) == Lookup(s.disk, n)
  {
  }

  /** A reload about to make the staging link of table `n`. */
  predicate AboutToLink(s: State, t: Tid, n: string) {
    t in s.procs && s.procs[t].pc.ReloadLink? && s.procs[t].table == n && !s.procs[t].live && !IsReserved(n)
  }

  /** The link is made, the table's path is re-pointed to `d`, and the staging key is closed: what it then resolves to. */
  function Relinked(s: State, t: Tid, n: string, d: Dir): (r: State)
    requires AboutToLink(s, t, n)
  {
    var s1 := Apply(s, Step(t, true, false));
    Apply(s1, Relink(n, Some(d)))
  }

  /**
   The link holds the directory that was resolved before it was made: re-pointing the
   table's path afterwards does not change what the reload opens.  If nothing could be
   resolved the link leads to the path itself, and opens whatever that leads to by then.
   */
  lemma LinkHoldsDirectory(s: State, t: Tid, n: string, d: Dir)
    requires AboutToLink(s, t, n)
    ensures
      var cfg := s.procs[t].cfg;
      Resolve(Relinked(s, t, n, d), StagingKey(n)) == Some(if cfg.Some? then cfg.value else d)
  {
    StagingKeyFacts(n);
    KeyIsolation(n, n, true, false);
    hide IsReserved, StagingKey, TableOf, Effect;
    var p := s.procs[t];
    assert NextKey(p) == StagingKey(n);
    assert Apply(s, Step(t, true, false)) == ReloadLinkStep(s, t, p, true);
  }

  /** A re-pointed path resolves to its new directory, and so does a link that leads through it; nothing else changes. */
  lemma RelinkResolves(s: State, leaf: string, dir: Option<Dir>, other: string)
    ensures
      var r := Apply(s, Relink(leaf, dir));
      && Resolve(r, leaf) == dir
      && (other != leaf ==> Resolve(r, other) == if other in s.through && TableOf(other) == leaf then dir else Resolve(s, other))
  {
    hide TableOf;
  }

  /** What a staging leaf resolves to depends on two paths and one mark. */
  lemma ResolveStaging(s: State, r: State, n: string)
    requires Lookup(r.disk, n) == Lookup(s.disk, n) && Lookup(r.disk, StagingKey(n)) == Lookup(s.disk, StagingKey(n))
    requires StagingKey(n) in r.through <==> StagingKey(n) in s.through
    ensures Resolve(r, StagingKey(n)) == Resolve(s, StagingKey(n))
  {
    hide StagingKey, TableOf;
    StagingKeyFacts(n);
  }

  lemma OtherLinks(s: State, u: Tid, ok: bool, kafka: bool, n: string)
    requires Inv(s) && u in s.procs && StepEnabled(s, u, s.procs[u], ok) && !IsReserved(n)
    ensures Lookup(StepOf(s, u, s.procs[u], ok, kafka).disk, n) == Lookup(s.disk, n)
    ensures s.procs[u].table != n ==>
      Resolve(StepOf(s, u, s.procs[u], ok, kafka), StagingKey(n)) == Resolve(s, StagingKey(n))
  {
    hide Inv, StepOf, StepEnabled, Loadable, InReload, Opening, KeyOf;
    LiveFacts(s, u);
    StagingKeyFacts(n);
    StagingKeyFacts(s.procs[u].table);
    var r, k, m := StepOf(s, u, s.procs[u], ok, kafka), StagingKey(n), StagingKey(s.procs[u].table);
    if s.procs[u].table != n {
      assert k in s.through - {m} <==> k in r.through - {m};
      ResolveStaging(s, r, n);
    }
  }

  /** Neither the table's path, nor the links and keys under its owner's lock, change by another thread's step. */
  lemma OthersDisturbNothing(s: State, a: Action, t: Tid, n: string)
    requires Inv(s) && Enabled(s, a) && !Relinks(a, n) && !IsReserved(n)
    requires t in s.procs && s.procs[t].table == n && !(a.Step? && a.t == t)
    ensures Lookup(Apply(s, a).disk, n) == Lookup(s.disk, n)
    ensures Owning(s.procs[t]) ==>
      && Resolve(Apply(s, a), StagingKey(n)) == Resolve(s, StagingKey(n))
      && forall x :: Lookup(Apply(s, a).db, LiveKey(n, x)) == Lookup(s.db, LiveKey(n, x))
  {
    hide Inv, StepOf, StepEnabled, Owning, Loadable, IsReserved, StagingKey, LiveKey, Resolve;
    if a.Step? {
      OtherLinks(s, a.t, a.ok, a.kafka, n);
      if s.procs[a.t].table != n {
        forall x ensures Lookup(Apply(s, a).db, LiveKey(n, x)) == Lookup(s.db, LiveKey(n, x)) {
          OtherKeys(s, a.t, a.ok, a.kafka, n, x);
        }
      } else if Owning(s.procs[t]) {
        NobodyElse(s, t, a.t);
        QuietEffect(s, a.t, s.procs[a.t], a.ok, a.kafka);
        ResolveStaging(s, Apply(s, a), n);
      }
    } else {
      ResolveStaging(s, Apply(s, a), n);
    }
  }

  lemma QuietEffect(s: State, u: Tid, p: Proc, ok: bool, kafka: bool)
    requires StepEnabled(s, u, p, ok) && !Owning(p)
    ensures StepOf(s, u, p, ok, kafka).db == s.db && StepOf(s, u, p, ok, kafka).disk == s.disk && StepOf(s, u, p, ok, kafka).through == s.through
  {
    hide StepOf, StepEnabled;
  }

  /** Nor does the live slot of a table change under the thread that has just swapped it in. */
  lemma OthersKeepHead(s: State, a: Action, t: Tid, n: string)
    requires Inv(s) && Enabled(s, a) && n in s.heads
    requires t in s.procs && s.procs[t].table == n && Decided(s.procs[t]) && !(a.Step? && a.t == t)
    ensures n in Apply(s, a).heads && Apply(s, a).heads[n] == s.heads[n]
  {
    hide Inv, Apply, Enabled;
    HeadStep(s, a, n);
    if IsSwap(s, a, n) {
      NobodyElse(s, t, a.t);
    }
  }

  lemma CarriesOther(s: State, a: Action, t: Tid, n: string, b: Dir)
    requires Inv(s) && Enabled(s, a) && !Relinks(a, n) && !IsReserved(n) && Carries(s, t, n, b)
    requires t in Apply(s, a).procs && Apply(s, a).procs[t] == s.procs[t] && !(a.Step? && a.t == t)
    ensures Carries(Apply(s, a), t, n, b)
  {
    hide Inv, Apply, Enabled, Loadable, IsReserved, StagingKey;
    OthersDisturbNothing(s, a, t, n);
    var p := s.procs[t];
    assert KeyOf(p) == LiveKey(n, true) || KeyOf(p) == LiveKey(n, false);
    if Decided(p) {
      OthersKeepHead(s, a, t, n);
    }
    if n in s.heads {
      HeadStep(s, a, n);
    }
  }

  // ─── Its own steps carry the directory along ───────────────────────────────

  /** Phases in which a thread has resolved, opened or built nothing. */
  lemma CarriesNothing(s: State, t: Tid, p: Proc, n: string, b: Dir)
    requires Lookup(s.disk, n) == Some(b) && p.table == n
    requires p.pc.LoadOpen? || p.pc.ReloadFind? || p.pc.ReloadDir? || p.pc.Done? || (p.pc.LoadExit? && (p.ok ==> n in s.heads))
    ensures Carries(Goto(s, t, p), t, n, b)
  {
  }

  lemma CarriesEnter(s: State, t: Tid, ok: bool, n: string, b: Dir)
    requires Carries(s, t, n, b) && StepEnabled(s, t, s.procs[t], ok)
    requires var p := s.procs[t]; p.pc.ReloadCheck? || p.pc.ReloadDir? || p.pc.ReloadFind?
    ensures Carries(EnterStep(s, t, s.procs[t], ok), t, n, b)
  {
    hide ReloadCheckStep, Effect, IsReserved, StagingKey, LiveKey;
    if s.procs[t].pc.ReloadCheck? {
      var r := ReloadCheckStep(s, t, s.procs[t]);
      CarriesNothing(s, t, r.procs[t], n, b);
    }
  }

  lemma CarriesLock(s: State, t: Tid, ok: bool, n: string, b: Dir)
    requires Inv(s) && Carries(s, t, n, b) && StepEnabled(s, t, s.procs[t], ok)
    requires var p := s.procs[t]; p.pc.ReloadLock? || p.pc.ReloadExit?
    ensures Carries(EnterStep(s, t, s.procs[t], ok), t, n, b)
  {
    hide Inv, Effect, IsReserved, StagingKey, Loadable, LiveKey;
  }

  lemma CarriesLoadCheck(s: State, t: Tid, ok: bool, kafka: bool, n: string, b: Dir)
    requires Carries(s, t, n, b) && StepEnabled(s, t, s.procs[t], ok)
    requires var p := s.procs[t]; p.pc.LoadLock? || p.pc.LoadCheck? || p.pc.LoadExit?
    ensures Carries(LoadStep(s, t, s.procs[t], ok, kafka), t, n, b)
  {
    hide LoadCheckStep, Effect, IsReserved, StagingKey, Loadable, LiveKey;
    if s.procs[t].pc.LoadCheck? {
      var r := LoadCheckStep(s, t, s.procs[t]);
      CarriesNothing(s, t, r.procs[t], n, b);
    }
  }

  lemma CarriesLoadOpen(s: State, t: Tid, ok: bool, kafka: bool, n: string, b: Dir)
    requires Inv(s) && Carries(s, t, n, b) && StepEnabled(s, t, s.procs[t], ok) && s.procs[t].pc.LoadOpen?
    ensures Carries(LoadStep(s, t, s.procs[t], ok, kafka), t, n, b)
  {
    hide Inv, Effect, IsReserved, StagingKey, Loadable, LiveKey, LocksOk, Resolve, LockOf, ViewOk;
    assert !IsReserved(n) && n !in s.db by {
      PhaseFacts(s, t);
      Focus(s, t);
    }
    ResolveOwn(s, n);
  }

  lemma CarriesLoadBuild(s: State, t: Tid, ok: bool, kafka: bool, n: string, b: Dir)
    requires Inv(s) && Carries(s, t, n, b) && StepEnabled(s, t, s.procs[t], ok) && s.procs[t].pc.LoadBuild?
    ensures Carries(LoadStep(s, t, s.procs[t], ok, kafka), t, n, b)
  {
    hide Inv, Effect, IsReserved, StagingKey, Loadable, LiveKey, LocksOk, Resolve;
  }

  lemma CarriesRegister(s: State, t: Tid, ok: bool, kafka: bool, n: string, b: Dir)
    requires Inv(s) && Carries(s, t, n, b) && StepEnabled(s, t, s.procs[t], ok)
    requires var p := s.procs[t]; p.pc.LoadClose? || p.pc.LoadRegister?
    ensures Carries(LoadStep(s, t, s.procs[t], ok, kafka), t, n, b)
  {
    hide Inv, Effect, IsReserved, StagingKey, Loadable, LiveKey, LocksOk;
    PhaseFacts(s, t);
  }

  lemma CarriesPrepare(s: State, t: Tid, ok: bool, n: string, b: Dir)
    requires Inv(s) && Carries(s, t, n, b) && StepEnabled(s, t, s.procs[t], ok) && Preparing(s.procs[t])
    ensures Carries(PrepareStep(s, t, s.procs[t], ok), t, n, b)
  {
    hide Inv, Effect, IsReserved, Loadable;
    LiveFacts(s, t);
    Focus(s, t);
    StagingKeyFacts(n);
  }

  lemma CarriesOpen(s: State, t: Tid, ok: bool, kafka: bool, n: string, b: Dir)
    requires Inv(s) && Carries(s, t, n, b) && StepEnabled(s, t, s.procs[t], ok)
    requires s.procs[t].pc.ReloadClose? || s.procs[t].pc.ReloadOpen?
    ensures Carries(SwitchStep(s, t, s.procs[t], ok, kafka), t, n, b)
  {
    hide Inv, Effect, IsReserved, Loadable, LocksOk, StagingKey, Resolve, LockOf, ViewOk;
    var p := s.procs[t];
    assert !IsReserved(n) && (p.pc.ReloadOpen? ==> NextKey(p) !in s.db) by {
      PhaseFacts(s, t);
      Focus(s, t);
    }
    ResolveOwn(s, n);
    ResolveStaging(s, SwitchStep(s, t, p, ok, kafka), n);
  }

  lemma CarriesSwap(s: State, t: Tid, ok: bool, kafka: bool, n: string, b: Dir)
    requires Inv(s) && Carries(s, t, n, b) && StepEnabled(s, t, s.procs[t], ok)
    requires s.procs[t].pc.ReloadBuild? || s.procs[t].pc.ReloadSwap?
    ensures Carries(SwitchStep(s, t, s.procs[t], ok, kafka), t, n, b)
  {
    hide Inv, Effect, IsReserved, Loadable, StagingKey, TableOf, Resolve, LiveKey;
    var p := s.procs[t];
    if p.pc.ReloadBuild? {
      assert SwitchStep(s, t, p, ok, kafka) == ReloadBuildStep(s, t, p, ok, kafka);
    } else {
      assert SwitchStep(s, t, p, ok, kafka) == ReloadSwapStep(s, t, p);
    }
  }

  lemma CarriesAbort(s: State, t: Tid, ok: bool, kafka: bool, n: string, b: Dir)
    requires Inv(s) && Carries(s, t, n, b) && StepEnabled(s, t, s.procs[t], ok)
    requires s.procs[t].pc.ReloadAbortClose? || s.procs[t].pc.ReloadAbortUnlink?
    ensures Carries(SwitchStep(s, t, s.procs[t], ok, kafka), t, n, b)
  {
    hide Inv, Effect, IsReserved, Loadable, StagingKey, TableOf, Resolve;
  }

  lemma CarriesRetire(s: State, t: Tid, ok: bool, n: string, b: Dir)
    requires Inv(s) && Carries(s, t, n, b) && StepEnabled(s, t, s.procs[t], ok) && AfterSwap(s.procs[t])
    ensures Carries(RetireStep(s, t, s.procs[t]), t, n, b)
  {
    hide Inv, Effect, IsReserved, Loadable, LocksOk;
    Focus(s, t);
    StagingKeyFacts(n);
  }

  lemma CarriesOwn(s: State, t: Tid, ok: bool, kafka: bool, n: string, b: Dir)
    requires Inv(s) && t in s.procs && Carries(s, t, n, b) && StepEnabled(s, t, s.procs[t], ok)
    ensures Carries(StepOf(s, t, s.procs[t], ok, kafka), t, n, b)
  {
    hide Inv, Effect, Carries, LoadStep, EnterStep, PrepareStep, SwitchStep, RetireStep;
    var p := s.procs[t];
    if p.pc.LoadLock? || InLoad(p) {
      if p.pc.LoadOpen? {
        CarriesLoadOpen(s, t, ok, kafka, n, b);
      } else if p.pc.LoadBuild? {
        CarriesLoadBuild(s, t, ok, kafka, n, b);
      } else if p.pc.LoadClose? || p.pc.LoadRegister? {
        CarriesRegister(s, t, ok, kafka, n, b);
      } else {
        CarriesLoadCheck(s, t, ok, kafka, n, b);
      }
    } else if Preparing(p) {
      CarriesPrepare(s, t, ok, n, b);
    } else if Switching(p) {
      if p.pc.ReloadClose? || p.pc.ReloadOpen? {
        CarriesOpen(s, t, ok, kafka, n, b);
      } else if p.pc.ReloadBuild? || p.pc.ReloadSwap? {
        CarriesSwap(s, t, ok, kafka, n, b);
      } else {
        CarriesAbort(s, t, ok, kafka, n, b);
      }
    } else if AfterSwap(p) {
      CarriesRetire(s, t, ok, n, b);
    } else if p.pc.ReloadLock? || p.pc.ReloadExit? {
      CarriesLock(s, t, ok, n, b);
    } else {
      CarriesEnter(s, t, ok, n, b);
    }
  }

  // ─── Every thread of the table ─────────────────────────────────────────────

  /** Everything that serves, or is about to serve, table `n` comes from `b`. */
  ghost predicate Sourced(s: State, n: string, b: Dir) {
    && Lookup(s.disk, n) == Some(b)
    && (n in s.heads ==> s.heads[n].slot.index.dir == b)
    && (forall t :: t in s.procs && s.procs[t].table == n ==> Carries(s, t, n, b))
  }

  lemma SourcedThread(s: State, a: Action, n: string, b: Dir, t: Tid)
    requires Inv(s) && Enabled(s, a) && !Relinks(a, n) && !IsReserved(n) && Sourced(s, n, b)
    requires t in Apply(s, a).procs && Apply(s, a).procs[t].table == n
    ensures Carries(Apply(s, a), t, n, b)
  {
    hide Inv, Carries, StepOf, StepEnabled, IsReserved;
    if a.Step? && a.t == t {
      CarriesOwn(s, t, a.ok, a.kafka, n, b);
    } else if (a.StartLoad? || a.StartReload?) && a.t == t {
      StartCarries(s, t, n, b);
    } else {
      CarriesOther(s, a, t, n, b);
    }
  }

  lemma StartCarries(s: State, t: Tid, n: string, b: Dir)
    requires Lookup(s.disk, n) == Some(b)
    ensures Carries(Goto(s, t, IDLE.(pc := LoadLock, table := n)), t, n, b)
    ensures Carries(Goto(s, t, IDLE.(pc := ReloadCheck, table := n)), t, n, b)
  {
  }

  lemma SourcedHead(s: State, a: Action, n: string, b: Dir)
    requires Inv(s) && Enabled(s, a) && !Relinks(a, n) && !IsReserved(n) && Sourced(s, n, b)
    ensures n in Apply(s, a).heads ==> Apply(s, a).heads[n].slot.index.dir == b
    ensures Lookup(Apply(s, a).disk, n) == Some(b)
  {
    hide Inv, StepOf, StepEnabled, IsReserved, StagingKey;
    if n in s.heads {
      HeadStep(s, a, n);
      if IsSwap(s, a, n) {
        assert Carries(s, a.t, n, b);
      }
    } else {
      FirstHead(s, a, n, b);
    }
    if a.Step? {
      OtherLinks(s, a.t, a.ok, a.kafka, n);
    }
  }

  lemma FirstHead(s: State, a: Action, n: string, b: Dir)
    requires Inv(s) && Enabled(s, a) && Sourced(s, n, b) && n !in s.heads
    ensures n in Apply(s, a).heads ==> Apply(s, a).heads[n].slot.index.dir == b
  {
    hide Inv, StepOf, StepEnabled;
    if a.Step? {
      var p := s.procs[a.t];
      if p.pc.ReloadSwap? {
        SwapIsNewer(s, a.t);
        SwapHead(s, a.t, p, a.ok, a.kafka);
      } else if p.pc.LoadRegister? {
        RegisterIsNew(s, a.t);
        RegisterHead(s, a.t, p, a.ok, a.kafka);
        assert p.table == n ==> Carries(s, a.t, n, b);
      }
    }
  }

  lemma SourcedStep(s: State, a: Action, n: string, b: Dir)
    requires Inv(s) && Enabled(s, a) && !Relinks(a, n) && !IsReserved(n) && Sourced(s, n, b)
    ensures Sourced(Apply(s, a), n, b)
  {
    var s' := Apply(s, a);
    SourcedHead(s, a, n, b);
    forall t | t in s'.procs && s'.procs[t].table == n ensures Carries(s', t, n, b) {
      SourcedThread(s, a, n, b, t);
    }
    hide Inv, Carries, Apply, IsReserved;
  }

  lemma {:induction false} SourcedRun(s: State, run: seq<Action>, n: string, b: Dir)
    requires Inv(s) && Legal(s, run) && NoRelink(run, n) && !IsReserved(n) && Sourced(s, n, b)
    ensures Sourced(After(s, run), n, b)
    decreases |run|
  {
    hide Inv, Apply, Enabled, Sourced, Relinks, IsReserved;
    if run != [] {
      SourcedStep(s, run[0], n, b);
      ActionInv(s, run[0]);
      SourcedRun(Apply(s, run[0]), run[1..], n, b);
    }
  }

  // ─── When a reload serves what the path resolves to ────────────────────────

  /** No LoadTable in flight has already opened the unregistered table from another directory. */
  ghost predicate Fresh(s: State, n: string, b: Dir) {
    n in s.heads || forall u :: u in s.procs && s.procs[u].table == n && (s.procs[u].pc.LoadBuild? || s.procs[u].pc.LoadRegister?) ==>
      n in s.db && s.db[n].dir == b
  }

  /** The call of thread `t` has not returned anywhere along the run. */
  predicate Running(s: State, run: seq<Action>, t: Tid)
    requires Legal(s, run)
    decreases |run|
  {
    && t in s.procs && !s.procs[t].pc.Done? && !s.procs[t].pc.Idle?
    && (run != [] ==> Running(Apply(s, run[0]), run[1..], t))
  }

  /** The call is about to return ok: through the swap, or through the first open. */
  predicate ReturnsOk(p: Proc) {
    p.ok && (p.pc.ReloadExit? || p.pc.LoadExit?)
  }

  lemma UnregisteredIsSourced(s: State, n: string, b: Dir)
    requires Inv(s) && !IsReserved(n) && n !in s.heads && Lookup(s.disk, n) == Some(b) && Fresh(s, n, b)
    ensures Sourced(s, n, b)
  {
    forall t | t in s.procs && s.procs[t].table == n ensures Carries(s, t, n, b) {
      UnregisteredCarries(s, n, b, t);
    }
    hide Inv, Carries;
  }

  lemma UnregisteredCarries(s: State, n: string, b: Dir, t: Tid)
    requires Inv(s) && !IsReserved(n) && n !in s.heads && Lookup(s.disk, n) == Some(b) && Fresh(s, n, b)
    requires t in s.procs && s.procs[t].table == n
    ensures Carries(s, t, n, b)
  {
    hide Inv, IsReserved, TableOf, StagingKey, Loadable, LocksOk;
    PhaseFacts(s, t);
    if s.procs[t].pc.LoadRegister? {
      RegisteringSlot(s, t);
    }
  }

  lemma RegisteringSlot(s: State, t: Tid)
    requires Inv(s) && t in s.procs && s.procs[t].pc.LoadRegister?
    ensures Lookup(s.db, s.procs[t].table) == Some(s.procs[t].slot.index)
  {
    var n := s.procs[t].table;
    RegisterIsNew(s, t);
    Focus(s, t);
    hide Inv, IsReserved, TableOf, StagingKey, Loadable, LocksOk;
    assert ViewOf(s, n).loader == s.procs[t];
  }

  /** A call that found its table registered never takes the first-open branch. */
  predicate OnReloadPath(p: Proc) {
    p.pc.ReloadCheck? || p.pc.ReloadFind? || p.pc.ReloadLock? || InReload(p)
  }

  lemma ReloadPathStep(s: State, a: Action, t: Tid)
    requires Enabled(s, a) && t in s.procs && OnReloadPath(s.procs[t]) && s.procs[t].table in s.heads
    requires t in Apply(s, a).procs && !Apply(s, a).procs[t].pc.Done?
    ensures OnReloadPath(Apply(s, a).procs[t]) && Apply(s, a).procs[t].table == s.procs[t].table
  {
    hide StepOf, IsReserved, StagingKey, LiveKey, Loadable;
    if a.Step? && a.t == t {
      PathStep(s, t, s.procs[t], a.ok, a.kafka);
    }
  }

  lemma PathStep(s: State, t: Tid, p: Proc, ok: bool, kafka: bool)
    requires StepEnabled(s, t, p, ok) && OnReloadPath(p) && p.table in s.heads
    ensures var p' := StepOf(s, t, p, ok, kafka).procs[t]; p'.table == p.table && (p'.pc.Done? || OnReloadPath(p'))
  {
    hide LoadStep, EnterStep, PrepareStep, SwitchStep, RetireStep, StepEnabled;
  }

  lemma CarriesStep(s: State, a: Action, t: Tid, n: string, b: Dir)
    requires Inv(s) && Enabled(s, a) && !Relinks(a, n) && n in s.heads && Carries(s, t, n, b) && OnReloadPath(s.procs[t])
    requires t in Apply(s, a).procs && !Apply(s, a).procs[t].pc.Done?
    ensures Carries(Apply(s, a), t, n, b)
  {
    hide Inv, Carries, StepEnabled, StepOf, IsReserved;
    assert t in s.procs && s.procs[t].table == n by { CarriesTable(s, t, n, b); }
    Focus(s, t);
    if a.Step? && a.t == t {
      CarriesOwn(s, t, a.ok, a.kafka, n, b);
    } else {
      CarriesOther(s, a, t, n, b);
    }
  }

  lemma CarriesTable(s: State, t: Tid, n: string, b: Dir)
    requires Carries(s, t, n, b)
    ensures t in s.procs && s.procs[t].table == n
  {
  }

  lemma {:induction false} PathRun(s: State, run: seq<Action>, t: Tid, n: string, b: Dir)
    requires Inv(s) && Legal(s, run) && NoRelink(run, n) && Running(s, run, t)
    requires n in s.heads && Carries(s, t, n, b) && OnReloadPath(s.procs[t])
    ensures Carries(After(s, run), t, n, b) && t in After(s, run).procs && OnReloadPath(After(s, run).procs[t])
    decreases |run|
  {
    hide Inv, Apply, Enabled, Carries, Relinks, OnReloadPath;
    if run != [] {
      assert Running(Apply(s, run[0]), run[1..], t);
      CarriesTable(s, t, n, b);
      CarriesStep(s, run[0], t, n, b);
      ReloadPathStep(s, run[0], t);
      HeadStep(s, run[0], n);
      ActionInv(s, run[0]);
      PathRun(Apply(s, run[0]), run[1..], t, n, b);
    }
  }

  lemma {:induction false} RunningThread(s: State, run: seq<Action>, t: Tid)
    requires Legal(s, run) && Running(s, run, t)
    ensures t in After(s, run).procs && After(s, run).procs[t].table == s.procs[t].table
    decreases |run|
  {
    hide StepOf, StepEnabled;
    if run != [] {
      assert Apply(s, run[0]).procs[t].table == s.procs[t].table;
      RunningThread(Apply(s, run[0]), run[1..], t);
    }
  }

  /** If nobody re-points the table's path while ReloadTable runs, and no LoadTable in flight at its start had
      already opened the unregistered table from elsewhere, then whenever the call returns ok the live slot
      is the index opened from the directory the path resolves to, in every interleaving. */
  lemma ReloadServesPath(s: State, run: seq<Action>, t: Tid, n: string, b: Dir)
    requires Inv(s) && t in s.procs && s.procs[t].pc.ReloadCheck? && s.procs[t].table == n
    requires Lookup(s.disk, n) == Some(b) && Fresh(s, n, b)
    requires Legal(s, run) && NoRelink(run, n) && Running(s, run, t)
    requires t in After(s, run).procs && ReturnsOk(After(s, run).procs[t])
    ensures n in After(s, run).heads && After(s, run).heads[n].slot.index.dir == b
  {
    hide Inv, Legal, NoRelink, IsReserved, Running, StepEnabled;
    var r := After(s, run);
    hide After;
    RunInv(s, run);
    RunningThread(s, run, t);
    Focus(r, t);
    if n in s.heads {
      PathRun(s, run, t, n, b);
    } else {
      UnregisteredIsSourced(s, n, b);
      SourcedRun(s, run, n, b);
    }
  }

  // ─── And exactly when it may not ───────────────────────────────────────────

  lemma {:induction false} Extend(s: State, run: seq<Action>, a: Action)
    requires Legal(s, run) && Enabled(After(s, run), a)
    ensures Legal(s, run + [a]) && After(s, run + [a]) == Apply(After(s, run), a)
    decreases |run|
  {
    hide Apply, Enabled;
    if run == [] {
      assert [a][1..] == [];
    } else {
      assert (run + [a])[1..] == run[1..] + [a];
      Extend(Apply(s, run[0]), run[1..], a);
    }
  }

  lemma Then(s: State, run: seq<Action>, a: Action, n: string) returns (run': seq<Action>)
    requires Legal(s, run) && NoRelink(run, n) && Enabled(After(s, run), a) && !a.Relink?
    ensures Legal(s, run') && NoRelink(run', n) && After(s, run') == Apply(After(s, run), a)
  {
    hide Apply, Enabled, Legal, After;
    Extend(s, run, a);
    run' := run + [a];
  }

  /** Thread `t` is at `pc` in a call on `n`, and nothing but threads has changed since `s`, `u` excepted. */
  predicate Parked(s: State, r: State, t: Tid, u: Tid, n: string, pc: Pc) {
    && t in r.procs && r.procs[t].pc == pc && r.procs[t].table == n
    && u in s.procs && u in r.procs && r.procs[u] == s.procs[u]
    && r.heads == s.heads && r.db == s.db && r.disk == s.disk && r.through == s.through && r.loadMu == s.loadMu && r.nextSlot == s.nextSlot
  }

  lemma StartParked(s: State, t: Tid, u: Tid, n: string)
    requires ProcOf(s, t).pc.Idle? && u in s.procs && u != t
    ensures Enabled(s, StartReload(t, n)) && Parked(s, Apply(s, StartReload(t, n)), t, u, n, ReloadCheck)
  {
  }

  lemma CheckParked(s: State, r: State, t: Tid, u: Tid, n: string)
    requires Parked(s, r, t, u, n, ReloadCheck) && t != u && n !in s.heads && !IsReserved(n)
    ensures Enabled(r, Step(t, true, false)) && Parked(s, Apply(r, Step(t, true, false)), t, u, n, ReloadDir)
  {
    hide Effect, IsReserved;
    assert EnterStep(r, t, r.procs[t], true) == Goto(r, t, r.procs[t].(pc := ReloadDir));
  }

  lemma DirParked(s: State, r: State, t: Tid, u: Tid, n: string)
    requires Parked(s, r, t, u, n, ReloadDir) && t != u && n in s.disk
    ensures Enabled(r, Step(t, true, false)) && Parked(s, Apply(r, Step(t, true, false)), t, u, n, LoadLock)
  {
    hide Effect;
    assert EnterStep(r, t, r.procs[t], true) == Goto(r, t, r.procs[t].(pc := LoadLock));
  }

  /** Thread `u` has published the index it had opened, and `t` still waits to load the table. */
  predicate Overtaken(s: State, r: State, t: Tid, u: Tid, n: string, pc: Pc) {
    && t in r.procs && r.procs[t].pc.LoadLock? && r.procs[t].table == n
    && u in r.procs && r.procs[u].pc == pc && r.procs[u].table == n
    && n in s.db && n in r.db && r.db[n] == s.db[n]
    && (pc.LoadRegister? ==> r.procs[u].slot.index == s.db[n] && n !in r.heads)
    && (pc.LoadExit? || pc.Done? ==> n in r.heads && r.heads[n].slot.index == s.db[n])
    && (pc.Done? ==> r.loadMu.None?)
  }

  lemma BuildOvertakes(s: State, r: State, t: Tid, u: Tid, n: string)
    requires Parked(s, r, t, u, n, LoadLock) && t != u && n in s.db && n !in s.heads
    requires s.procs[u].pc.LoadBuild? && s.procs[u].table == n
    ensures Enabled(r, Step(u, true, false)) && Overtaken(s, Apply(r, Step(u, true, false)), t, u, n, LoadRegister)
  {
    hide Effect;
    assert LoadStep(r, u, r.procs[u], true, false) == LoadBuildStep(r, u, r.procs[u], true, false);
  }

  lemma RegisterOvertakes(s: State, r: State, t: Tid, u: Tid, n: string)
    requires Overtaken(s, r, t, u, n, LoadRegister) && t != u
    ensures Enabled(r, Step(u, true, false)) && Overtaken(s, Apply(r, Step(u, true, false)), t, u, n, LoadExit)
  {
    hide Effect;
    assert LoadStep(r, u, r.procs[u], true, false) == LoadRegisterStep(r, u, r.procs[u]);
  }

  lemma ExitOvertakes(s: State, r: State, t: Tid, u: Tid, n: string)
    requires Overtaken(s, r, t, u, n, LoadExit) && t != u
    ensures Enabled(r, Step(u, true, false)) && Overtaken(s, Apply(r, Step(u, true, false)), t, u, n, Done)
  {
    hide Effect;
    assert LoadStep(r, u, r.procs[u], true, false) == Goto(r.(loadMu := None), u, r.procs[u].(pc := Done));
  }

  /** The waiting thread finds the table registered and returns ok without opening anything. */
  predicate Served(s: State, r: State, t: Tid, n: string, pc: Pc) {
    && t in r.procs && r.procs[t].pc == pc && r.procs[t].table == n && (pc.LoadExit? ==> r.procs[t].ok)
    && n in s.db && n in r.heads && r.heads[n].slot.index == s.db[n]
  }

  lemma LockServed(s: State, r: State, t: Tid, u: Tid, n: string)
    requires Overtaken(s, r, t, u, n, Done) && t != u
    ensures Enabled(r, Step(t, true, false)) && Served(s, Apply(r, Step(t, true, false)), t, n, LoadCheck)
  {
    hide Effect;
    assert LoadStep(r, t, r.procs[t], true, false) == Goto(r.(loadMu := Some(t)), t, r.procs[t].(pc := LoadCheck));
  }

  lemma CheckServed(s: State, r: State, t: Tid, n: string)
    requires Served(s, r, t, n, LoadCheck) && Loadable(n)
    ensures Enabled(r, Step(t, true, false)) && Served(s, Apply(r, Step(t, true, false)), t, n, LoadExit)
  {
    hide Effect, Loadable;
    assert LoadStep(r, t, r.procs[t], true, false) == Goto(r, t, r.procs[t].(pc := LoadExit, ok := true));
  }

  lemma OvertakenRun(s: State, t: Tid, u: Tid, n: string) returns (run: seq<Action>)
    requires u in s.procs && u != t && ProcOf(s, t).pc.Idle? && n !in s.heads && !IsReserved(n)
    requires s.procs[u].table == n && n in s.db && n in s.disk
    requires s.procs[u].pc.LoadBuild? || (s.procs[u].pc.LoadRegister? && s.procs[u].slot.index == s.db[n])
    ensures Legal(s, run) && NoRelink(run, n) && Overtaken(s, After(s, run), t, u, n, LoadRegister)
  {
    hide Apply, Enabled, IsReserved, Parked, Overtaken, Legal, NoRelink, After;
    run := [];
    EmptyRun(s, n);
    StartParked(s, t, u, n);
    run := Then(s, run, StartReload(t, n), n);
    CheckParked(s, After(s, run), t, u, n);
    run := Then(s, run, Step(t, true, false), n);
    DirParked(s, After(s, run), t, u, n);
    run := Then(s, run, Step(t, true, false), n);
    if s.procs[u].pc.LoadBuild? {
      BuildOvertakes(s, After(s, run), t, u, n);
      run := Then(s, run, Step(u, true, false), n);
    } else {
      BuiltOvertakes(s, After(s, run), t, u, n);
    }
  }

  lemma EmptyRun(s: State, n: string)
    ensures Legal(s, []) && After(s, []) == s && NoRelink([], n)
  {
  }

  lemma BuiltOvertakes(s: State, r: State, t: Tid, u: Tid, n: string)
    requires Parked(s, r, t, u, n, LoadLock) && t != u && n in s.db && n !in s.heads
    requires u in s.procs && s.procs[u].pc.LoadRegister? && s.procs[u].table == n && s.procs[u].slot.index == s.db[n]
    ensures Overtaken(s, r, t, u, n, LoadRegister)
  {
  }

  /** Whenever the table is unregistered but a LoadTable in flight has opened it from a directory other than the
      one its path now resolves to, some interleaving makes a reload return ok and serve that other directory. */
  lemma StaleReload(s: State, t: Tid, n: string, b: Dir)
    requires Inv(s) && ProcOf(s, t).pc.Idle? && Lookup(s.disk, n) == Some(b) && !Fresh(s, n, b)
    ensures exists run :: Legal(s, run) && NoRelink(run, n) && StaleAt(After(s, run), t, n, b)
  {
    hide Inv, Apply, Enabled, IsReserved, Loadable;
    var u :| u in s.procs && s.procs[u].table == n && (s.procs[u].pc.LoadBuild? || s.procs[u].pc.LoadRegister?)
      && !(n in s.db && s.db[n].dir == b);
    Focus(s, u);
    PhaseFacts(s, u);
    if s.procs[u].pc.LoadRegister? {
      RegisteringSlot(s, u);
    }
    assert Loadable(n) && !IsReserved(n) && n in s.db by { OpeningLoads(s, u); }
    var run := OvertakenRun(s, t, u, n);
    RegisterOvertakes(s, After(s, run), t, u, n);
    run := Then(s, run, Step(u, true, false), n);
    ExitOvertakes(s, After(s, run), t, u, n);
    run := Then(s, run, Step(u, true, false), n);
    LockServed(s, After(s, run), t, u, n);
    run := Then(s, run, Step(t, true, false), n);
    CheckServed(s, After(s, run), t, n);
    run := Then(s, run, Step(t, true, false), n);
    assert StaleAt(After(s, run), t, n, b);
  }

  predicate StaleAt(r: State, t: Tid, n: string, b: Dir) {
    t in r.procs && r.procs[t].table == n && ReturnsOk(r.procs[t]) && n in r.heads && r.heads[n].slot.index.dir != b
  }

  lemma OpeningLoads(s: State, u: Tid)
    requires Inv(s) && u in s.procs && (s.procs[u].pc.LoadBuild? || s.procs[u].pc.LoadRegister?)
    ensures Loadable(s.procs[u].table) && !IsReserved(s.procs[u].table) && s.procs[u].table in s.db
  {
    hide Inv, LocksOk;
    PhaseFacts(s, u);
  }

  // ─── And such states are reached ───────────────────────────────────────────

  /** Thread `u` alone is in a call: it loads `n`, and nothing else has happened but that. */
  predicate Loading(s: State, r: State, u: Tid, n: string, pc: Pc) {
    && r.procs == map[u := IDLE.(pc := pc, table := n)] && r.heads == map[] && r.disk == s.disk && r.through == s.through
    && (pc.LoadLock? ==> r.loadMu.None?) && (!pc.LoadBuild? ==> r.db == map[])
  }

  lemma LoadingLock(s: State, r: State, u: Tid, n: string)
    requires Loading(s, r, u, n, LoadLock)
    ensures Enabled(r, Step(u, true, false)) && Loading(s, Apply(r, Step(u, true, false)), u, n, LoadCheck)
  {
    hide Effect;
    assert LoadStep(r, u, r.procs[u], true, false) == Goto(r.(loadMu := Some(u)), u, r.procs[u].(pc := LoadCheck));
  }

  lemma LoadingCheck(s: State, r: State, u: Tid, n: string)
    requires Loading(s, r, u, n, LoadCheck) && Loadable(n)
    ensures Enabled(r, Step(u, true, false)) && Loading(s, Apply(r, Step(u, true, false)), u, n, LoadOpen)
  {
    hide Effect, Loadable;
    assert LoadStep(r, u, r.procs[u], true, false) == LoadCheckStep(r, u, r.procs[u]);
  }

  lemma LoadingOpen(s: State, r: State, u: Tid, n: string, a: Dir)
    requires Loading(s, r, u, n, LoadOpen) && Lookup(s.disk, n) == Some(a) && !IsReserved(n)
    ensures
      var r' := Apply(r, Step(u, true, false));
      && Enabled(r, Step(u, true, false)) && Loading(s, r', u, n, LoadBuild)
      && n in r'.db && r'.db[n].dir == a
  {
    hide Effect, Resolve, IsReserved;
    ResolveOwn(r, n);
    assert LoadStep(r, u, r.procs[u], true, false) == LoadOpenStep(r, u, r.procs[u], true);
  }

  lemma {:induction false} LegalConcat(s: State, run1: seq<Action>, run2: seq<Action>)
    requires Legal(s, run1) && Legal(After(s, run1), run2)
    ensures Legal(s, run1 + run2) && After(s, run1 + run2) == After(After(s, run1), run2)
    decreases |run1|
  {
    hide Apply, Enabled;
    if run1 == [] {
      assert run1 + run2 == run2;
    } else {
      assert (run1 + run2)[0] == run1[0] && (run1 + run2)[1..] == run1[1..] + run2;
      LegalConcat(Apply(s, run1[0]), run1[1..], run2);
    }
  }

  /** From the start: a load opens the table from one directory and the path is re-pointed before it registers it. */
  lemma OpenedElsewhere(s: State, u: Tid, n: string, a: Dir, b: Dir) returns (run: seq<Action>)
    requires Init(s) && Loadable(n) && Lookup(s.disk, n) == Some(a) && a != b
    ensures Legal(s, run)
    ensures
      var r := After(s, run);
      && r.procs.Keys == {u} && Lookup(r.disk, n) == Some(b) && !Fresh(r, n, b)
  {
    hide StepOf, StepEnabled, Legal, After, NoRelink, IsReserved;
    assert !IsReserved(n);
    run := [];
    EmptyRun(s, n);
    assert Loading(s, Apply(s, StartLoad(u, n)), u, n, LoadLock);
    run := Then(s, run, StartLoad(u, n), n);
    LoadingLock(s, After(s, run), u, n);
    run := Then(s, run, Step(u, true, false), n);
    LoadingCheck(s, After(s, run), u, n);
    run := Then(s, run, Step(u, true, false), n);
    LoadingOpen(s, After(s, run), u, n, a);
    run := Then(s, run, Step(u, true, false), n);
    var r := After(s, run);
    Extend(s, run, Relink(n, Some(b)));
    run := run + [Relink(n, Some(b))];
    assert After(s, run).procs[u].pc.LoadBuild?;
  }

  /**
   So for every table, every two directories and every two threads, some run from
   the start ends with a reload that returns ok and serves the directory its path
   no longer named when it began.
   */
  lemma StaleReloadHappens(s: State, t: Tid, u: Tid, n: string, a: Dir, b: Dir)
    requires Init(s) && Loadable(n) && Lookup(s.disk, n) == Some(a) && a != b && t != u
    ensures exists run :: Legal(s, run) && StaleAt(After(s, run), t, n, b)
  {
    hide Inv, Apply, Enabled, Loadable, Fresh, Legal, After, StaleAt;
    var run1 := OpenedElsewhere(s, u, n, a, b);
    InitInv(s);
    RunInv(s, run1);
    var r := After(s, run1);
    StaleReload(r, t, n, b);
    var run2 :| Legal(r, run2) && NoRelink(run2, n) && StaleAt(After(r, run2), t, n, b);
    LegalConcat(s, run1, run2);
    assert StaleAt(After(s, run1 + run2), t, n, b);
  }
}
