/**
 `deploy_index` from end to end.  One machine runs the agent that pulls a build,
 replaces the table's link below `db_path` and asks for a reload, together with
 the server's threads and RPCs and with pushes to the store.  What `db_path/<table>`
 resolves to is not assumed: it follows the link, `active` and the version
 directories at every step.
 */
module Deploy {
  import opened Wrappers
  import opened Registry
  import opened RegistryInvariant
  import opened RegistryTheorems
  import opened ReloadFreshness
  import Artifacts

  // ─── A reload needs the path ───────────────────────────────────────────────

  /** The table's path does not resolve, and the reload has not got past the opening of the table. */
  predicate Blocked(s: State, t: Tid, n: string) {
    && n !in s.disk && t in s.procs
    && var p := s.procs[t];
    && p.table == n && Early(p)
    && (p.pc.ReloadUnlink? || p.pc.ReloadLink? ==> p.cfg.None?)
    && ((p.pc.ReloadClose? || p.pc.ReloadOpen?) && !p.live ==> Resolve(s, StagingKey(n)).None?)
  }

  lemma NothingStaged(s: State, n: string)
    requires n !in s.disk && StagingKey(n) !in s.disk
    ensures Resolve(s, StagingKey(n)).None?
  {
    hide StagingKey, TableOf;
    StagingKeyFacts(n);
  }

  lemma BlockedRead(s: State, t: Tid, ok: bool, n: string)
    requires Blocked(s, t, n) && StepEnabled(s, t, s.procs[t], ok) && !IsReserved(n)
    requires s.procs[t].pc.ReloadRead? || s.procs[t].pc.ReloadCanon?
    ensures Blocked(PrepareStep(s, t, s.procs[t], ok), t, n)
  {
    hide Effect, IsReserved, StagingKey, TableOf, Resolve;
    var p := s.procs[t];
    ResolveOwn(s, n);
    if p.pc.ReloadCanon? {
      assert PrepareStep(s, t, p, ok) == ReloadCanonStep(s, t, p, ok);
      if !p.live {
        NextIsStaging(p);
      }
    }
  }

  lemma NextIsStaging(p: Proc)
    requires !p.live
    ensures NextKey(p) == StagingKey(p.table) && NextKey(p) != p.table
  {
  }

  lemma BlockedLink(s: State, t: Tid, ok: bool, n: string)
    requires Blocked(s, t, n) && StepEnabled(s, t, s.procs[t], ok) && !IsReserved(n) && !s.procs[t].live
    requires s.procs[t].pc.ReloadUnlink? || s.procs[t].pc.ReloadLink?
    ensures Blocked(PrepareStep(s, t, s.procs[t], ok), t, n)
  {
    hide Effect, IsReserved, StagingKey, TableOf, Resolve, NextKey;
    var p := s.procs[t];
    var r := PrepareStep(s, t, p, ok);
    NextIsStaging(p);
    if p.pc.ReloadLink? {
      assert r == ReloadLinkStep(s, t, p, ok);
      if ok {
        NothingStaged(r, n);
      }
    } else {
      assert r == Goto(Unlink(s, NextKey(p)), t, p.(pc := ReloadLink));
    }
  }

  lemma BlockedClose(s: State, t: Tid, ok: bool, kafka: bool, n: string)
    requires Blocked(s, t, n) && StepEnabled(s, t, s.procs[t], ok) && s.procs[t].pc.ReloadClose?
    ensures Blocked(SwitchStep(s, t, s.procs[t], ok, kafka), t, n)
  {
    hide Effect, IsReserved, StagingKey, TableOf, Resolve, NextKey;
    var p := s.procs[t];
    assert SwitchStep(s, t, p, ok, kafka) == Goto(CloseIndex(s, NextKey(p)), t, p.(pc := ReloadOpen));
    ResolveStaging(s, SwitchStep(s, t, p, ok, kafka), n);
  }

  /** The opening fails: neither the table's path nor a link through it leads anywhere. */
  lemma BlockedOpen(s: State, t: Tid, ok: bool, kafka: bool, n: string)
    requires Blocked(s, t, n) && StepEnabled(s, t, s.procs[t], ok) && s.procs[t].pc.ReloadOpen? && !IsReserved(n)
    requires NextKey(s.procs[t]) !in s.db
    ensures Blocked(SwitchStep(s, t, s.procs[t], ok, kafka), t, n)
  {
    hide Effect, IsReserved, StagingKey, TableOf, Resolve;
    var p := s.procs[t];
    ResolveOwn(s, n);
    assert !ok;
    assert SwitchStep(s, t, p, ok, kafka) == Goto(s, t, p.(pc := ReloadAbortUnlink));
  }

  lemma BlockedAbort(s: State, t: Tid, ok: bool, kafka: bool, n: string)
    requires Blocked(s, t, n) && StepEnabled(s, t, s.procs[t], ok) && s.procs[t].pc.ReloadAbortUnlink?
    ensures Blocked(SwitchStep(s, t, s.procs[t], ok, kafka), t, n)
  {
    hide Effect, IsReserved, StagingKey, TableOf, Resolve, NextKey;
    var p := s.procs[t];
    assert SwitchStep(s, t, p, ok, kafka) == Goto(UnlinkStaging(s, n, NextKey(p)), t, p.(pc := ReloadExit, ok := false));
  }

  lemma BlockedOwn(s: State, t: Tid, ok: bool, kafka: bool, n: string)
    requires Inv(s) && Blocked(s, t, n) && StepEnabled(s, t, s.procs[t], ok) && !IsReserved(n)
    ensures Blocked(StepOf(s, t, s.procs[t], ok, kafka), t, n)
  {
    hide Inv, IsReserved, LoadStep, SwitchStep, RetireStep, EnterStep, PrepareStep, StepEnabled, StagingKey, Resolve, LockOf;
    var p := s.procs[t];
    PhaseFacts(s, t);
    LiveFacts(s, t);
    OtherLinks(s, t, ok, kafka, n);
    if p.pc.ReloadRead? || p.pc.ReloadCanon? {
      BlockedRead(s, t, ok, n);
    } else if Preparing(p) {
      BlockedLink(s, t, ok, n);
    } else if p.pc.ReloadClose? {
      BlockedClose(s, t, ok, kafka, n);
    } else if p.pc.ReloadOpen? {
      BlockedOpen(s, t, ok, kafka, n);
    } else if Switching(p) {
      BlockedAbort(s, t, ok, kafka, n);
    }
  }

  lemma BlockedStep(s: State, a: Action, t: Tid, n: string)
    requires Inv(s) && Enabled(s, a) && !Relinks(a, n) && !IsReserved(n) && Blocked(s, t, n)
    requires !s.procs[t].pc.Done?
    ensures Blocked(Apply(s, a), t, n)
  {
    hide Inv, StepOf, StepEnabled, IsReserved, StagingKey, Loadable, Resolve;
    if a.Step? && a.t == t {
      BlockedOwn(s, t, a.ok, a.kafka, n);
    } else {
      OthersDisturbNothing(s, a, t, n);
    }
  }

  lemma {:induction false} BlockedRun(s: State, run: seq<Action>, t: Tid, n: string)
    requires Inv(s) && Legal(s, run) && NoRelink(run, n) && Running(s, run, t) && !IsReserved(n) && Blocked(s, t, n)
    ensures Blocked(After(s, run), t, n)
    decreases |run|
  {
    hide Inv, Apply, Enabled, Blocked, Relinks, IsReserved;
    if run != [] {
      BlockedStep(s, run[0], t, n);
      ActionInv(s, run[0]);
      BlockedRun(Apply(s, run[0]), run[1..], t, n);
    }
  }

  /** A reload of a table whose path dangles, and keeps dangling, does not return ok. */
  lemma ReloadNeedsPath(s: State, run: seq<Action>, t: Tid, n: string)
    requires Inv(s) && t in s.procs && s.procs[t].pc.ReloadCheck? && s.procs[t].table == n && !IsReserved(n)
    requires n !in s.disk && Legal(s, run) && NoRelink(run, n) && Running(s, run, t)
    ensures t in After(s, run).procs && !ReturnsOk(After(s, run).procs[t])
  {
    hide Inv, Legal, NoRelink, IsReserved, Resolve;
    BlockedRun(s, run, t, n);
  }

  // ─── The joint machine ─────────────────────────────────────────────────────

  /** A table and the root below which its versions and the link `active` live. */
  datatype Site = Site(table: string, root: string)

  function VersionDir(site: Site, build: string): (r: Dir) {
    site.root + "/" + build
  }

  /** Two builds have two directories, also when their contents are equal. */
  lemma VersionDirsDiffer(site: Site, b1: string, b2: string)
    requires VersionDir(site, b1) == VersionDir(site, b2)
    ensures b1 == b2
  {
    var p := site.root + "/";
    assert b1 == (p + b1)[|p|..] && b2 == (p + b2)[|p|..];
  }

  /** `db_path/<table>`: absent, a link to `<root>/active`, or whatever was there before. */
  datatype Link = NoLink | ToActive | Elsewhere(dir: Option<Dir>)

  /** Where `deploy_index` is. */
  datatype Agent = Pulling | Unlinking | Linking | Sending | Waiting(t: Tid) | Failed

  datatype World = World(files: Artifacts.Files, link: Link, reg: State, agent: Agent)

  function ActiveDir(site: Site, f: Artifacts.Files): (r: Option<Dir>) {
    match f.active
    case None => None
    case Some(b) => if b in f.local then Some(VersionDir(site, b)) else None
  }

  function PathOf(site: Site, w: World): (r: Option<Dir>) {
    match w.link
    case NoLink => None
    case ToActive => ActiveDir(site, w.files)
    case Elsewhere(d) => d
  }

  /** The server sees what the file system says. */
  predicate Consistent(site: Site, w: World) {
    Lookup(w.reg.disk, site.table) == PathOf(site, w)
  }

  /** After a change of the files or the link, the server's view of the table's path is what they say. */
  function Seen(site: Site, w: World): (r: World) {
    if Consistent(site, w) then w else w.(reg := Apply(w.reg, Relink(site.table, PathOf(site, w))))
  }

  datatype Move =
    | PushBuild(build: string, content: Artifacts.Content)
    | PullStep(step: Artifacts.Action)
    | UnlinkTable
    | LinkTable
    | SendReload(t: Tid)
    | Server(action: Action)

  /** The table's own path is re-pointed by the agent alone; everything else in the server is free. */
  predicate Allowed(site: Site, w: World, m: Move) {
    match m
    case PushBuild(_, _) => true
    case PullStep(a) =>
      w.agent.Pulling? && Artifacts.Enabled(w.files, a) && (a.Copy? || a.Missing? || a.Remove? || a.PruneDone? || a.SwitchLink?)
    case UnlinkTable => w.agent.Unlinking?
    case LinkTable => w.agent.Linking?
    case SendReload(t) => w.agent.Sending? && Enabled(w.reg, StartReload(t, site.table))
    case Server(a) => Enabled(w.reg, a) && !Relinks(a, site.table)
  }

  /** The world before the server sees the change. */
  function Unseen(site: Site, w: World, m: Move): (r: World)
    requires Allowed(site, w, m)
  {
    match m
    case PullStep(a) =>
      w.(files := Artifacts.Step(w.files, a), agent := if a.SwitchLink? then Unlinking else if a.Missing? then Failed else Pulling)
    case UnlinkTable => w.(link := NoLink, agent := Linking)
    case LinkTable => w.(link := ToActive, agent := Sending)
    case _ => w
  }

  function Moved(site: Site, w: World, m: Move): (r: World)
    requires Allowed(site, w, m)
  {
    match m
    case PushBuild(b, c) => w.(files := Artifacts.Step(w.files, Artifacts.Push(b, c)))
    case PullStep(_) => Seen(site, Unseen(site, w, m))
    case UnlinkTable => Seen(site, Unseen(site, w, m))
    case LinkTable => Seen(site, Unseen(site, w, m))
    case SendReload(t) => w.(reg := Apply(w.reg, StartReload(t, site.table)), agent := Waiting(t))
    case Server(a) => w.(reg := Apply(w.reg, a))
  }

  ghost predicate Deployment(site: Site, w: World, moves: seq<Move>, w': World)
    decreases |moves|
  {
    if moves == [] then w' == w
    else Allowed(site, w, moves[0]) && Deployment(site, Moved(site, w, moves[0]), moves[1..], w')
  }

  // ─── Every move is a move of the server ────────────────────────────────────

  lemma SeenIsConsistent(site: Site, w: World)
    ensures Consistent(site, Seen(site, w))
  {
  }

  /** What a move does to the server is one of its actions, or nothing. */
  function Projected(site: Site, w: World, m: Move): (r: seq<Action>)
    requires Allowed(site, w, m)
  {
    match m
    case SendReload(t) => [StartReload(t, site.table)]
    case Server(a) => [a]
    case _ => if Moved(site, w, m).reg == w.reg then [] else [Relink(site.table, PathOf(site, Moved(site, w, m)))]
  }

  lemma OneAction(s: State, a: Action)
    requires Enabled(s, a)
    ensures Legal(s, [a]) && After(s, [a]) == Apply(s, a)
  {
    hide Enabled, Apply;
    assert [a][1..] == [];
  }

  lemma ProjectMove(site: Site, w: World, m: Move)
    requires Allowed(site, w, m)
    ensures Legal(w.reg, Projected(site, w, m)) && After(w.reg, Projected(site, w, m)) == Moved(site, w, m).reg
  {
    hide Legal, After, StepOf, StepEnabled, Artifacts.Step;
    EmptyRun(w.reg, site.table);
    var run := Projected(site, w, m);
    if run != [] {
      OneAction(w.reg, run[0]);
    }
  }

  lemma InvMove(site: Site, w: World, m: Move)
    requires Allowed(site, w, m) && Inv(w.reg)
    ensures Inv(Moved(site, w, m).reg)
  {
    hide Inv, Legal, After, Projected, Moved, Allowed;
    ProjectMove(site, w, m);
    RunInv(w.reg, Projected(site, w, m));
  }

  lemma ServerKeepsPath(s: State, a: Action, n: string)
    requires Enabled(s, a) && Inv(s) && !Relinks(a, n) && !IsReserved(n)
    ensures Lookup(Apply(s, a).disk, n) == Lookup(s.disk, n)
  {
    hide Inv, IsReserved, StepOf, StepEnabled, StagingKey;
    if a.Step? {
      OtherLinks(s, a.t, a.ok, a.kafka, n);
    }
  }

  lemma ConsistentMove(site: Site, w: World, m: Move)
    requires Allowed(site, w, m) && Consistent(site, w) && Inv(w.reg) && !IsReserved(site.table)
    ensures Consistent(site, Moved(site, w, m))
  {
    hide Inv, IsReserved, Apply, Enabled, Seen, Artifacts.Step, Artifacts.Enabled;
    match m
    case Server(a) => ServerKeepsPath(w.reg, a, site.table);
    case PushBuild(b, c) => PushKeepsPath(site, w, b, c);
    case PullStep(a) => SeenIsConsistent(site, Unseen(site, w, m));
    case UnlinkTable => SeenIsConsistent(site, Unseen(site, w, m));
    case LinkTable => SeenIsConsistent(site, Unseen(site, w, m));
    case SendReload(t) => ServerKeepsPath(w.reg, StartReload(t, site.table), site.table);
  }

  lemma PushKeepsPath(site: Site, w: World, b: string, c: Artifacts.Content)
    ensures PathOf(site, w.(files := Artifacts.Step(w.files, Artifacts.Push(b, c)))) == PathOf(site, w)
  {
  }

  lemma {:induction false} ConsistentRun(site: Site, w: World, moves: seq<Move>, w': World)
    requires Deployment(site, w, moves, w') && Consistent(site, w) && Inv(w.reg) && !IsReserved(site.table)
    ensures Consistent(site, w') && Inv(w'.reg)
    decreases |moves|
  {
    hide Inv, IsReserved, Consistent, Allowed, Moved;
    if moves != [] {
      ConsistentMove(site, w, moves[0]);
      InvMove(site, w, moves[0]);
      ConsistentRun(site, Moved(site, w, moves[0]), moves[1..], w');
    }
  }

  lemma {:induction false} ProjectRun(site: Site, w: World, moves: seq<Move>, w': World) returns (run: seq<Action>)
    requires Deployment(site, w, moves, w')
    ensures Legal(w.reg, run) && After(w.reg, run) == w'.reg
    decreases |moves|
  {
    hide Legal, After, Allowed, Moved, Projected;
    if moves == [] {
      run := [];
      EmptyRun(w.reg, site.table);
    } else {
      var w1 := Moved(site, w, moves[0]);
      ProjectMove(site, w, moves[0]);
      var rest := ProjectRun(site, w1, moves[1..], w');
      LegalConcat(w.reg, Projected(site, w, moves[0]), rest);
      run := Projected(site, w, moves[0]) + rest;
    }
  }

  /**
   A deployment never interrupts service: at every step, also while the link is
   absent or `active` is being replaced, every Acquire of a registered table
   returns a handle on an open index.
   */
  lemma DeployKeepsServing(site: Site, w: World, moves: seq<Move>, w': World, n: string, h: nat)
    requires Deployment(site, w, moves, w') && Inv(w.reg) && n in w.reg.heads && h !in w'.reg.handles
    ensures
      var r := Apply(w'.reg, Acquire(h, n));
      n in w'.reg.heads && h in r.handles && r.handles[h] == w'.reg.heads[n].slot && SlotOpen(r, r.handles[h])
  {
    hide Inv, Deployment, Legal, After;
    var run := ProjectRun(site, w, moves, w');
    AcquireSucceeds(w.reg, run, n, h);
  }

  // ─── What the agent has done so far ────────────────────────────────────────

  /** The deployment of a build begins: its pull has resolved it and is about to copy it. */
  predicate Begins(site: Site, w: World) {
    && w.agent.Pulling? && w.files.pull.Some? && w.files.pull.value.stage.Copying? && w.files.pull.value.build in w.files.store
    && Consistent(site, w)
  }

  predicate SameFiles(f: Artifacts.Files, f': Artifacts.Files) {
    f'.local == f.local && f'.active == f.active && f'.pull == f.pull
  }

  /** The build is being pulled, or was and is what `active` names; then the link goes and comes back. */
  predicate Progress(f0: Artifacts.Files, w: World)
    requires f0.pull.Some?
  {
    var p := f0.pull.value;
    var before := f0.local.Keys + {p.build};
    match w.agent
    case Pulling =>
      || (SameFiles(f0, w.files) && p.build in w.files.store)
      || (w.files.pull.Some? && Artifacts.Underway(w.files, before, p.build, p.keepN, f0.active))
    case Failed => true
    case Unlinking => Pulled(f0, w.files)
    case Linking => Pulled(f0, w.files) && w.link.NoLink?
    case Sending => Pulled(f0, w.files) && w.link.ToActive?
    case Waiting(_) => Pulled(f0, w.files) && w.link.ToActive?
  }

  predicate Pulled(f0: Artifacts.Files, f: Artifacts.Files)
    requires f0.pull.Some?
  {
    var p := f0.pull.value;
    f.pull.None? && Artifacts.Underway(f, f0.local.Keys + {p.build}, p.build, p.keepN, f0.active)
  }

  lemma CopyBegins(f0: Artifacts.Files, f: Artifacts.Files)
    requires f0.pull.Some? && f0.pull.value.stage.Copying? && SameFiles(f0, f) && Artifacts.Enabled(f, Artifacts.Copy)
    ensures
      var p := f0.pull.value;
      Artifacts.Underway(Artifacts.Step(f, Artifacts.Copy), f0.local.Keys + {p.build}, p.build, p.keepN, f0.active)
  {
    hide Artifacts.Victims;
    var p, g := f0.pull.value, Artifacts.Step(f, Artifacts.Copy);
    assert g.local.Keys == f0.local.Keys + {p.build};
  }

  lemma ProgressPull(site: Site, f0: Artifacts.Files, w: World, a: Artifacts.Action)
    requires f0.pull.Some? && f0.pull.value.stage.Copying? && Progress(f0, w) && Allowed(site, w, PullStep(a))
    ensures Progress(f0, Moved(site, w, PullStep(a)))
  {
    hide Artifacts.Victims, Artifacts.Underway, StepOf, StepEnabled;
    var p := f0.pull.value;
    var before := f0.local.Keys + {p.build};
    if a.Copy? && SameFiles(f0, w.files) {
      CopyBegins(f0, w.files);
    } else if !SameFiles(f0, w.files) || p.build !in w.files.store {
      UnderwayStage(w.files, before, p.build, p.keepN, f0.active);
      Artifacts.UnderwayStep(w.files, a, before, p.build, p.keepN, f0.active);
    }
  }

  lemma UnderwayStage(f: Artifacts.Files, before: set<string>, build: string, keepN: int, active: Option<string>)
    requires Artifacts.Underway(f, before, build, keepN, active) && f.pull.Some?
    ensures !f.pull.value.stage.Copying?
  {
  }

  lemma UnderwayPush(f: Artifacts.Files, b: string, c: Artifacts.Content, before: set<string>, build: string, keepN: int, active: Option<string>)
    requires Artifacts.Underway(f, before, build, keepN, active)
    ensures Artifacts.Underway(Artifacts.Step(f, Artifacts.Push(b, c)), before, build, keepN, active)
  {
  }

  lemma ProgressMove(site: Site, f0: Artifacts.Files, w: World, m: Move)
    requires f0.pull.Some? && f0.pull.value.stage.Copying? && Progress(f0, w) && Allowed(site, w, m)
    ensures Progress(f0, Moved(site, w, m))
  {
    hide Artifacts.Underway, StepOf, StepEnabled, Apply, Enabled;
    match m
    case PullStep(a) => ProgressPull(site, f0, w, a);
    case PushBuild(b, c) =>
      var p := f0.pull.value;
      var before := f0.local.Keys + {p.build};
      if Artifacts.Underway(w.files, before, p.build, p.keepN, f0.active) {
        UnderwayPush(w.files, b, c, before, p.build, p.keepN, f0.active);
      }
    case _ =>
  }

  lemma {:induction false} ProgressRun(site: Site, f0: Artifacts.Files, w: World, moves: seq<Move>, w': World)
    requires f0.pull.Some? && f0.pull.value.stage.Copying? && Progress(f0, w) && Deployment(site, w, moves, w')
    ensures Progress(f0, w')
    decreases |moves|
  {
    hide Progress, Allowed, Moved;
    if moves != [] {
      ProgressMove(site, f0, w, moves[0]);
      ProgressRun(site, f0, Moved(site, w, moves[0]), moves[1..], w');
    }
  }

  // ─── Deploy ────────────────────────────────────────────────────────────────

  /** Thread `t`, which serves the agent's request, has not returned anywhere along the moves. */
  predicate Serving(site: Site, w: World, moves: seq<Move>, t: Tid)
    decreases |moves|
  {
    && t in w.reg.procs && !w.reg.procs[t].pc.Done? && !w.reg.procs[t].pc.Idle?
    && (moves != [] && Allowed(site, w, moves[0]) ==> Serving(site, Moved(site, w, moves[0]), moves[1..], t))
  }

  /** While the agent waits, the files and the link are at rest and the server runs on a path nobody re-points. */
  lemma {:induction false} WaitingRun(site: Site, w: World, moves: seq<Move>, w': World, t: Tid) returns (run: seq<Action>)
    requires Deployment(site, w, moves, w') && w.agent.Waiting? && Serving(site, w, moves, t)
    ensures Legal(w.reg, run) && After(w.reg, run) == w'.reg && NoRelink(run, site.table) && Running(w.reg, run, t)
    ensures w'.agent == w.agent && w'.link == w.link && SameFiles(w.files, w'.files)
    decreases |moves|
  {
    hide Apply, Enabled, Relinks;
    if moves == [] {
      run := [];
    } else {
      var w1 := Moved(site, w, moves[0]);
      var rest := WaitingRun(site, w1, moves[1..], w', t);
      if moves[0].Server? {
        run := [moves[0].action] + rest;
        assert run[1..] == rest;
      } else {
        run := rest;
      }
    }
  }

  /** A deployment up to its reload: `w1` is the world in which the agent sends the request, `w2` some later one. */
  ghost predicate Deploys(site: Site, w0: World, moves1: seq<Move>, w1: World, t: Tid, moves2: seq<Move>, w2: World) {
    && Begins(site, w0) && Inv(w0.reg) && !IsReserved(site.table)
    && Deployment(site, w0, moves1, w1) && Allowed(site, w1, SendReload(t))
    && Deployment(site, Moved(site, w1, SendReload(t)), moves2, w2)
    && Serving(site, Moved(site, w1, SendReload(t)), moves2, t)
  }

  /** No LoadTable of `n` is between opening and registering it. */
  predicate NoLoadInFlight(s: State, n: string) {
    forall u :: u in s.procs && s.procs[u].table == n ==> !Opening(s.procs[u])
  }

  lemma NoLoadIsFresh(s: State, n: string, b: Dir, t: Tid)
    requires NoLoadInFlight(s, n) && Enabled(s, StartReload(t, n))
    ensures Fresh(Apply(s, StartReload(t, n)), n, b)
  {
  }

  /** When the request is sent: the pull is over, `active` names the build, the link leads to it, and the server sees that. */
  lemma AtSending(site: Site, w0: World, moves1: seq<Move>, w1: World)
    requires Begins(site, w0) && Inv(w0.reg) && !IsReserved(site.table)
    requires Deployment(site, w0, moves1, w1) && w1.agent.Sending?
    ensures
      var p := w0.files.pull.value;
      && Inv(w1.reg) && w1.link.ToActive? && w1.files.active == Some(p.build)
      && Lookup(w1.reg.disk, site.table) == ActiveDir(site, w1.files)
      && (p.build in w1.files.local <==> Artifacts.Survives(w0.files.local.Keys + {p.build}, p.build, p.keepN, p.build))
  {
    hide Inv, IsReserved, Deployment, Artifacts.Survives, Artifacts.Victims;
    var p := w0.files.pull.value;
    ConsistentRun(site, w0, moves1, w1);
    ProgressRun(site, w0.files, w0, moves1, w1);
    Artifacts.VictimsIff(w0.files.local.Keys + {p.build}, p.build, p.keepN, p.build);
  }

  lemma ReloadOf(site: Site, w1: World, t: Tid, moves2: seq<Move>, w2: World) returns (run: seq<Action>)
    requires Inv(w1.reg) && Allowed(site, w1, SendReload(t))
    requires
      var w := Moved(site, w1, SendReload(t));
      Deployment(site, w, moves2, w2) && Serving(site, w, moves2, t)
    ensures
      var s := Apply(w1.reg, StartReload(t, site.table));
      && Inv(s) && t in s.procs && s.procs[t].pc.ReloadCheck? && s.procs[t].table == site.table && s.disk == w1.reg.disk
      && Legal(s, run) && After(s, run) == w2.reg && NoRelink(run, site.table) && Running(s, run, t)
      && SameFiles(w1.files, w2.files)
  {
    hide Inv, Legal, After, NoRelink, Running, Deployment, Serving;
    ActionInv(w1.reg, StartReload(t, site.table));
    run := WaitingRun(site, Moved(site, w1, SendReload(t)), moves2, w2, t);
  }

  /**
   If the reload that `deploy_index` asked for is about to return ok, and no load of
   the table was in flight when it was asked for, then `active` resolves to the
   pulled build and the live slot was opened from that build's own directory: in
   every interleaving with other threads, other tables, other reloads and pushes.
   */
  lemma DeployServes(site: Site, w0: World, moves1: seq<Move>, w1: World, t: Tid, moves2: seq<Move>, w2: World)
    requires Deploys(site, w0, moves1, w1, t, moves2, w2) && NoLoadInFlight(w1.reg, site.table)
    requires t in w2.reg.procs && ReturnsOk(w2.reg.procs[t])
    ensures
      var b := w0.files.pull.value.build;
      && w2.files.active == Some(b) && b in w2.files.local
      && site.table in w2.reg.heads && w2.reg.heads[site.table].slot.index.dir == VersionDir(site, b)
    ensures forall b' :: w2.reg.heads[site.table].slot.index.dir == VersionDir(site, b') ==> b' == w0.files.pull.value.build
  {
    hide Inv, IsReserved, Deployment, Serving, ReturnsOk, Legal, NoRelink, Running, After, Fresh, NoLoadInFlight, VersionDir, Artifacts.Survives;
    AtSending(site, w0, moves1, w1);
    var run := ReloadOf(site, w1, t, moves2, w2);
    var s, n, b := Apply(w1.reg, StartReload(t, site.table)), site.table, w0.files.pull.value.build;
    if b in w1.files.local {
      NoLoadIsFresh(w1.reg, n, VersionDir(site, b), t);
      ReloadServesPath(s, run, t, n, VersionDir(site, b));
    } else {
      ReloadNeedsPath(s, run, t, n);
    }
    forall b' | VersionDir(site, b) == VersionDir(site, b') ensures b' == b {
      VersionDirsDiffer(site, b, b');
    }
  }

  /** The pull is of `b`, and what it copies or has copied is `c`. */
  predicate Carrying(f: Artifacts.Files, b: string, c: Artifacts.Content) {
    && (b in f.local ==> f.local[b] == c)
    && (f.pull.Some? ==> f.pull.value.build == b)
    && (f.pull.Some? && f.pull.value.stage.Copying? ==> b in f.store && f.store[b] == c)
  }

  predicate PushesOf(m: Move, b: string) {
    m.PushBuild? && m.build == b
  }

  lemma CarryingMove(site: Site, w: World, m: Move, b: string, c: Artifacts.Content)
    requires Allowed(site, w, m) && Carrying(w.files, b, c) && !PushesOf(m, b)
    ensures Carrying(Moved(site, w, m).files, b, c)
  {
    hide Enabled, Apply, Consistent, Artifacts.Victims, Artifacts.ResolveBuild;
  }

  lemma {:induction false} CarryingMoves(site: Site, w: World, moves: seq<Move>, w': World, b: string, c: Artifacts.Content)
    requires Deployment(site, w, moves, w') && Carrying(w.files, b, c) && forall i :: 0 <= i < |moves| ==> !PushesOf(moves[i], b)
    ensures Carrying(w'.files, b, c)
    decreases |moves|
  {
    hide Carrying, Moved, Allowed;
    if moves != [] {
      assert !PushesOf(moves[0], b);
      CarryingMove(site, w, moves[0], b, c);
      CarryingMoves(site, Moved(site, w, moves[0]), moves[1..], w', b, c);
    }
  }

  /** What was pushed last before the copy is what the deployed directory holds. */
  lemma DeployDelivers(site: Site, w: World, b: string, c: Artifacts.Content, moves: seq<Move>, w': World)
    requires Deployment(site, w, [PushBuild(b, c)] + moves, w') && forall i :: 0 <= i < |moves| ==> !PushesOf(moves[i], b)
    requires w.files.pull.Some? && w.files.pull.value.build == b && w.files.pull.value.stage.Copying? && b !in w.files.local
    ensures b in w'.files.local ==> w'.files.local[b] == c
  {
    var push := PushBuild(b, c);
    assert ([push] + moves)[1..] == moves;
    CarryingMoves(site, Moved(site, w, push), moves, w', b, c);
  }

  /**
   A build that its own pull prunes away is never reported as deployed, load in
   flight or not: the agent finds `active` dangling and the reload fails.
   */
  lemma PrunedBuildIsNotDeployed(site: Site, w0: World, moves1: seq<Move>, w1: World, t: Tid, moves2: seq<Move>, w2: World)
    requires Deploys(site, w0, moves1, w1, t, moves2, w2)
    requires
      var p := w0.files.pull.value;
      !Artifacts.Survives(w0.files.local.Keys + {p.build}, p.build, p.keepN, p.build)
    ensures t in w2.reg.procs && !ReturnsOk(w2.reg.procs[t])
  {
    hide Inv, IsReserved, Deployment, Serving, ReturnsOk, Legal, NoRelink, Running, After, VersionDir, Artifacts.Survives;
    AtSending(site, w0, moves1, w1);
    var run := ReloadOf(site, w1, t, moves2, w2);
    ReloadNeedsPath(Apply(w1.reg, StartReload(t, site.table)), run, t, site.table);
  }

  /** In the window in which the link is absent the server's path does not resolve, whatever it did before. */
  lemma LinkWindow(site: Site, w0: World, moves: seq<Move>, w: World)
    requires Begins(site, w0) && Inv(w0.reg) && !IsReserved(site.table)
    requires Deployment(site, w0, moves, w) && w.agent.Linking?
    ensures Resolve(w.reg, site.table).None?
  {
    hide Inv, IsReserved, Deployment, Artifacts.Underway;
    ConsistentRun(site, w0, moves, w);
    ProgressRun(site, w0.files, w0, moves, w);
    ResolveOwn(w.reg, site.table);
  }
}
