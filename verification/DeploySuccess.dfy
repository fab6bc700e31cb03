/**
 A deployment does succeed: from every world in which a pull has begun and nobody else
 uses the table, the agent's moves lead to a reload that returns ok and to the table
 being served from the pulled build, provided the build survives its own pruning.
 */
module DeploySuccess {
  import opened Wrappers
  import opened Registry
  import opened RegistryInvariant
  import opened RegistryTheorems
  import opened RegistrySuccess
  import opened Deploy
  import Artifacts

  /** The table is registered and nobody is using it. */
  ghost predicate Calm(site: Site, s: State, t: Tid) {
    && Inv(s) && !IsReserved(site.table) && site.table in s.heads
    && (forall u :: u in s.procs ==> s.procs[u].pc.Idle? || s.procs[u].pc.Done?)
    && (forall h :: h in s.handles ==> s.handles[h].table != site.table)
  }

  /** Some moves of the agent and the server lead from one world to the other. */
  ghost predicate Leads(site: Site, w: World, w': World) {
    exists moves :: Deployment(site, w, moves, w')
  }

  lemma {:induction false} DeploymentTrans(site: Site, w: World, a: seq<Move>, w1: World, b: seq<Move>, w2: World)
    requires Deployment(site, w, a, w1) && Deployment(site, w1, b, w2)
    ensures Deployment(site, w, a + b, w2)
    decreases |a|
  {
    hide Allowed, Moved;
    if a == [] {
      assert a + b == b;
    } else {
      assert (a + b)[0] == a[0] && (a + b)[1..] == a[1..] + b;
      DeploymentTrans(site, Moved(site, w, a[0]), a[1..], w1, b, w2);
    }
  }

  lemma LeadsTrans(site: Site, w: World, w1: World, w2: World)
    requires Leads(site, w, w1) && Leads(site, w1, w2)
    ensures Leads(site, w, w2)
  {
    hide Deployment;
    var a :| Deployment(site, w, a, w1);
    var b :| Deployment(site, w1, b, w2);
    DeploymentTrans(site, w, a, w1, b, w2);
  }

  lemma LeadsMove(site: Site, w: World, m: Move)
    requires Allowed(site, w, m)
    ensures Leads(site, w, Moved(site, w, m)) && Leads(site, w, w)
  {
    hide Allowed, Moved;
    assert [m][1..] == [];
    assert Deployment(site, w, [m], Moved(site, w, m));
    assert Deployment(site, w, [], w);
  }

  /** The server is calm through every move of the agent. */
  lemma CalmMove(site: Site, w: World, m: Move, t: Tid)
    requires Allowed(site, w, m) && Calm(site, w.reg, t) && !m.Server? && !m.SendReload?
    ensures
      var s := Moved(site, w, m).reg;
      Calm(site, s, t) && s.procs == w.reg.procs
  {
    hide Inv, IsReserved, Artifacts.Step, Artifacts.Enabled;
    InvMove(site, w, m);
  }

  // ─── The pull ──────────────────────────────────────────────────────────────

  lemma PullMove(site: Site, w: World, a: Artifacts.Action, t: Tid) returns (w': World)
    requires w.agent.Pulling? && Artifacts.Enabled(w.files, a) && (a.Copy? || a.Remove? || a.PruneDone? || a.SwitchLink?) && Calm(site, w.reg, t)
    ensures Leads(site, w, w') && Calm(site, w'.reg, t) && w'.files == Artifacts.Step(w.files, a) && w'.reg.procs == w.reg.procs
    ensures w'.agent == if a.SwitchLink? then Unlinking else Pulling
  {
    hide Calm, Artifacts.Step, Artifacts.Enabled, Leads;
    var m := PullStep(a);
    assert Allowed(site, w, m);
    w' := Moved(site, w, m);
    LeadsMove(site, w, m);
    CalmMove(site, w, m, t);
  }

  lemma {:induction false} PruneAll(site: Site, w: World, t: Tid) returns (w': World)
    requires w.agent.Pulling? && w.files.pull.Some? && w.files.pull.value.stage.Pruning? && Calm(site, w.reg, t)
    ensures Leads(site, w, w') && Calm(site, w'.reg, t) && w'.agent.Unlinking? && w'.reg.procs == w.reg.procs
    decreases w.files.pull.value.stage.victims
  {
    hide Calm, Leads, IsReserved;
    var victims := w.files.pull.value.stage.victims;
    if victims == {} {
      var w1 := PullMove(site, w, Artifacts.PruneDone, t);
      w' := PullMove(site, w1, Artifacts.SwitchLink, t);
      LeadsTrans(site, w, w1, w');
    } else {
      var v :| v in victims;
      var w1 := PullMove(site, w, Artifacts.Remove(v), t);
      assert victims - {v} < victims;
      w' := PruneAll(site, w1, t);
      LeadsTrans(site, w, w1, w');
    }
  }

  // ─── The reload ────────────────────────────────────────────────────────────

  lemma {:induction false} ServerRun(site: Site, w: World, run: seq<Action>, t: Tid, kafka: bool) returns (w': World)
    requires Legal(w.reg, run) && OwnSteps(run, t, kafka)
    ensures Leads(site, w, w') && w'.reg == After(w.reg, run) && w'.files == w.files
    decreases |run|
  {
    hide Leads, StepOf, StepEnabled;
    if run == [] {
      w' := w;
      LeadsMove(site, w, PushBuild("", 0));
    } else {
      var m := Server(run[0]);
      assert Allowed(site, w, m);
      LeadsMove(site, w, m);
      var w1 := Moved(site, w, m);
      w' := ServerRun(site, w1, run[1..], t, kafka);
      LeadsTrans(site, w, w1, w');
    }
  }

  /** From the request on: the reload ends with ok and the table is served from the build's directory. */
  lemma RequestSucceeds(site: Site, w: World, t: Tid, d: Dir, kafka: bool) returns (w': World)
    requires w.agent.Sending? && Calm(site, w.reg, t) && Lookup(w.reg.disk, site.table) == Some(d) && Enabled(w.reg, StartReload(t, site.table))
    ensures Leads(site, w, w')
    ensures t in w'.reg.procs && w'.reg.procs[t].pc.Done? && w'.reg.procs[t].ok
    ensures site.table in w'.reg.heads && w'.reg.heads[site.table].slot.index.dir == d && w'.files == w.files
  {
    hide Inv, Leads, IsReserved, StepOf, StepEnabled, OwnSteps;
    var n := site.table;
    var run := ReloadSucceeds(w.reg, t, n, d, kafka);
    var m := SendReload(t);
    LeadsMove(site, w, m);
    var w1 := Moved(site, w, m);
    assert w1.reg == Apply(w.reg, run[0]);
    w' := ServerRun(site, w1, run[1..], t, kafka);
    LeadsTrans(site, w, w1, w');
  }

  // ─── The deployment ────────────────────────────────────────────────────────

  /** Pull, with a push of anything in front of it, up to the moment in which the request is sent. */
  lemma DeployUpToRequest(site: Site, w: World, t: Tid, b: string, c: Artifacts.Content) returns (w': World)
    requires Begins(site, w) && Calm(site, w.reg, t)
    ensures Leads(site, w, w') && Calm(site, w'.reg, t) && w'.agent.Sending? && w'.reg.procs == w.reg.procs
  {
    hide Calm, Leads, IsReserved;
    var push := PushBuild(b, c);
    LeadsMove(site, w, push);
    var w1 := Moved(site, w, push);
    assert w1.reg == w.reg && w1.agent == w.agent && Artifacts.Enabled(w1.files, Artifacts.Copy);
    var w2 := PullMove(site, w1, Artifacts.Copy, t);
    assert w2.files.pull.Some? && w2.files.pull.value.stage.Pruning?;
    var w3 := PruneAll(site, w2, t);
    LeadsTrans(site, w, w1, w2);
    LeadsTrans(site, w, w2, w3);
    LeadsMove(site, w3, UnlinkTable);
    CalmMove(site, w3, UnlinkTable, t);
    var w4 := Moved(site, w3, UnlinkTable);
    LeadsTrans(site, w, w3, w4);
    assert w4.agent.Linking?;
    LeadsMove(site, w4, LinkTable);
    CalmMove(site, w4, LinkTable, t);
    w' := Moved(site, w4, LinkTable);
    LeadsTrans(site, w, w4, w');
  }

  /** A deployment of a build that survives its own pruning, of a table nobody is using, succeeds. */
  lemma DeploySucceeds(site: Site, w: World, t: Tid, b: string, c: Artifacts.Content, kafka: bool) returns (w': World)
    requires Begins(site, w) && Calm(site, w.reg, t)
    requires
      var p := w.files.pull.value;
      Artifacts.Survives(w.files.local.Keys + {p.build}, p.build, p.keepN, p.build)
    ensures Leads(site, w, w')
    ensures t in w'.reg.procs && w'.reg.procs[t].pc.Done? && w'.reg.procs[t].ok
    ensures
      var build := w.files.pull.value.build;
      && w'.files.active == Some(build) && site.table in w'.reg.heads
      && w'.reg.heads[site.table].slot.index.dir == VersionDir(site, build)
  {
    hide Artifacts.Survives, VersionDir, Leads, Deployment, Inv;
    var w1 := DeployUpToRequest(site, w, t, b, c);
    assert exists moves :: Deployment(site, w, moves, w1) by {
      LeadsMeans(site, w, w1);
    }
    var moves :| Deployment(site, w, moves, w1);
    AtSending(site, w, moves, w1);
    w' := RequestSucceeds(site, w1, t, VersionDir(site, w.files.pull.value.build), kafka);
    LeadsTrans(site, w, w1, w');
  }

  lemma LeadsMeans(site: Site, w: World, w': World)
    requires Leads(site, w, w')
    ensures exists moves :: Deployment(site, w, moves, w')
  {
  }
}
