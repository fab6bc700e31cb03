/**
 Which tables read their topic.  A consumer is started when a slot is built for a
 table with a kafka section, runs while the slot is on its way in, live, or waiting
 to be stopped, and ends with its own stop; nothing else starts or ends one.
 */
module RegistryConsumers {
  import opened Wrappers
  import opened Registry
  import opened RegistryInvariant
  import opened RegistryTheorems

  // ─── Slots in use ──────────────────────────────────────────────────────────

  /** The slot a thread has built and not yet published, or has replaced and not yet stopped. */
  function Held(p: Proc): (r: set<Slot>) {
    if p.pc.LoadRegister? || p.pc.ReloadSwap? then {p.slot} else if p.pc.ReloadStop? then {p.retired} else {}
  }

  predicate InUse(s: State, c: Slot) {
    (exists n :: n in s.heads && s.heads[n].slot == c) || (exists t :: t in s.procs && c in Held(s.procs[t]))
  }

  /** A step that builds a slot. */
  predicate IsBuild(s: State, a: Action) {
    a.Step? && a.ok && a.t in s.procs && (s.procs[a.t].pc.LoadBuild? || s.procs[a.t].pc.ReloadBuild?)
  }

  /** A step that stops the consumer of a replaced slot. */
  predicate IsStop(s: State, a: Action) {
    a.Step? && a.t in s.procs && s.procs[a.t].pc.ReloadStop?
  }

  /** The slots that a run built for a table with a kafka section. */
  function KafkaSlots(s: State, run: seq<Action>): (r: set<Slot>)
    requires Legal(s, run)
    decreases |run|
  {
    if run == [] then {}
    else
      var s' := Apply(s, run[0]);
      (if IsBuild(s, run[0]) && run[0].kafka && run[0].t in s'.procs then {s'.procs[run[0].t].slot} else {}) + KafkaSlots(s', run[1..])
  }

  /** The consumers that run are those of slots in use that are among `built`; slots have the ids given out so far. */
  ghost predicate FedBy(s: State, built: set<Slot>) {
    && (forall c :: c in s.consumers <==> c in built && InUse(s, c))
    && (forall c :: c in built || InUse(s, c) ==> c.id < s.nextSlot)
  }

  // ─── What the invariant says about slots in use ────────────────────────────

  lemma HeadTable(s: State, n: string)
    requires Inv(s) && n in s.heads
    ensures s.heads[n].slot.table == n
  {
    hide Inv;
    LiveIsPinned(s, n);
  }

  lemma HeldTable(s: State, t: Tid, c: Slot)
    requires Inv(s) && t in s.procs && c in Held(s.procs[t])
    ensures c.table == s.procs[t].table && !IsReserved(c.table)
    ensures s.procs[t].pc.LoadRegister? ==> s.loadMu == Some(t) && c.table !in s.heads
    ensures !s.procs[t].pc.LoadRegister? ==> Lookup(s.serial, c.table) == Some(t) && c.table in s.heads && c != s.heads[c.table].slot
  {
    var p := s.procs[t];
    Focus(s, t);
    var v := ViewOf(s, p.table);
    assert p.pc.LoadRegister? ==> v.loader == p;
    assert !p.pc.LoadRegister? ==> v.reloader == p;
    hide Inv, IsReserved, TableOf, Loadable, StagingKey, LocksOk;
  }

  /** The slot that is about to be stopped is in use by the stopping thread alone. */
  lemma StoppedIsUnused(s: State, t: Tid)
    requires Inv(s) && t in s.procs && s.procs[t].pc.ReloadStop?
    ensures
      var c := s.procs[t].retired;
      && (forall n :: n in s.heads ==> s.heads[n].slot != c)
      && (forall u :: u in s.procs && u != t ==> c !in Held(s.procs[u]))
  {
    hide Inv, Held, LocksOk;
    var c := s.procs[t].retired;
    StopHolds(s.procs[t]);
    HeldTable(s, t, c);
    forall n | n in s.heads ensures s.heads[n].slot != c {
      HeadTable(s, n);
    }
    forall u | u in s.procs && u != t ensures c !in Held(s.procs[u]) {
      if c in Held(s.procs[u]) {
        HeldTable(s, u, c);
      }
    }
  }

  lemma StopHolds(p: Proc)
    requires p.pc.ReloadStop?
    ensures p.retired in Held(p)
  {
  }

  // ─── One step ──────────────────────────────────────────────────────────────

  /** The slots of the heads and of one thread, before and after a step. */
  lemma BuildUse(s: State, t: Tid, p: Proc, kafka: bool)
    requires StepEnabled(s, t, p, true) && (p.pc.LoadBuild? || p.pc.ReloadBuild?)
    ensures
      var r := StepOf(s, t, p, true, kafka);
      && r.heads == s.heads && r.procs == s.procs[t := r.procs[t]] && r.nextSlot == s.nextSlot + 1
      && Held(p) == {} && Held(r.procs[t]) == {r.procs[t].slot} && r.procs[t].slot.id == s.nextSlot
      && r.consumers == if kafka then s.consumers + {r.procs[t].slot} else s.consumers
  {
    hide Effect, NextKey, IsReserved;
  }

  lemma StopUse(s: State, t: Tid, p: Proc, ok: bool, kafka: bool)
    requires StepEnabled(s, t, p, ok) && p.pc.ReloadStop?
    ensures
      var r := StepOf(s, t, p, ok, kafka);
      && r.heads == s.heads && r.procs == s.procs[t := r.procs[t]] && r.nextSlot == s.nextSlot
      && Held(r.procs[t]) == {} && r.consumers == s.consumers - {p.retired}
  {
    hide Effect, IsReserved;
  }

  lemma RegisterUse(s: State, t: Tid, p: Proc, ok: bool, kafka: bool)
    requires StepEnabled(s, t, p, ok) && p.pc.LoadRegister? && p.table !in s.heads
    ensures
      var r := StepOf(s, t, p, ok, kafka);
      && r.heads == s.heads[p.table := Head(p.slot, false, 0)] && r.procs == s.procs[t := r.procs[t]] && r.nextSlot == s.nextSlot
      && Held(r.procs[t]) == {} && r.consumers == s.consumers
  {
    hide Effect, IsReserved;
  }

  lemma SwapUse(s: State, t: Tid, p: Proc, ok: bool, kafka: bool)
    requires StepEnabled(s, t, p, ok) && p.pc.ReloadSwap?
    ensures
      var r := StepOf(s, t, p, ok, kafka);
      && p.table in s.heads && p.table in r.heads && r.heads == s.heads[p.table := r.heads[p.table]] && r.heads[p.table].slot == p.slot
      && r.procs == s.procs[t := r.procs[t]] && r.nextSlot == s.nextSlot
      && Held(r.procs[t]) == {s.heads[p.table].slot} && r.consumers == s.consumers
  {
    hide Effect, IsReserved;
  }

  /** Steps that build, stop, register and swap nothing. */
  predicate Uneventful(p: Proc, ok: bool) {
    && !p.pc.LoadRegister? && !p.pc.ReloadSwap? && !p.pc.ReloadStop?
    && (p.pc.LoadBuild? || p.pc.ReloadBuild? ==> !ok)
  }

  lemma LoadUse(s: State, t: Tid, p: Proc, ok: bool, kafka: bool)
    requires StepEnabled(s, t, p, ok) && Uneventful(p, ok)
    requires p.pc.LoadLock? || p.pc.LoadCheck? || p.pc.LoadOpen? || p.pc.LoadBuild? || p.pc.LoadClose? || p.pc.LoadExit?
    ensures
      var r := LoadStep(s, t, p, ok, kafka);
      r.heads == s.heads && r.nextSlot == s.nextSlot && r.consumers == s.consumers && Held(r.procs[t]) == {}
  {
    hide Effect, IsReserved, Loadable;
  }

  lemma EnterUse(s: State, t: Tid, p: Proc, ok: bool)
    requires StepEnabled(s, t, p, ok)
    requires p.pc.ReloadCheck? || p.pc.ReloadDir? || p.pc.ReloadFind? || p.pc.ReloadLock? || p.pc.ReloadExit?
    ensures
      var r := EnterStep(s, t, p, ok);
      r.heads == s.heads && r.nextSlot == s.nextSlot && r.consumers == s.consumers && Held(r.procs[t]) == {}
  {
    hide Effect, IsReserved;
  }

  lemma Went(s: State, t: Tid, p: Proc)
    ensures
      var r := Goto(s, t, p);
      t in r.procs && r.procs[t] == p && r.heads == s.heads && r.nextSlot == s.nextSlot && r.consumers == s.consumers
  {
  }

  lemma CanonUse(s: State, t: Tid, p: Proc, ok: bool)
    ensures
      var r := ReloadCanonStep(s, t, p, ok);
      t in r.procs && r.heads == s.heads && r.nextSlot == s.nextSlot && r.consumers == s.consumers && Held(r.procs[t]) == {}
  {
    hide NextKey, Resolve, Goto;
    Went(s, t, p.(pc := ReloadExit, ok := false));
    Went(s, t, p.(pc := ReloadUnlink, cfg := Resolve(s, p.table)));
    Went(s, t, p.(pc := ReloadClose, cfg := Resolve(s, p.table)));
  }

  lemma LinkUse(s: State, t: Tid, p: Proc, ok: bool)
    requires p.pc.ReloadLink?
    ensures
      var r := ReloadLinkStep(s, t, p, ok);
      t in r.procs && r.heads == s.heads && r.nextSlot == s.nextSlot && r.consumers == s.consumers && Held(r.procs[t]) == {}
  {
    hide NextKey, Goto;
    Went(s, t, p.(pc := ReloadExit, ok := false));
    Went(LinkTo(s, NextKey(p), p.cfg), t, p.(pc := ReloadClose));
  }

  lemma PrepareUse(s: State, t: Tid, p: Proc, ok: bool)
    requires StepEnabled(s, t, p, ok) && (p.pc.ReloadRead? || p.pc.ReloadCanon? || p.pc.ReloadUnlink? || p.pc.ReloadLink?)
    ensures
      var r := PrepareStep(s, t, p, ok);
      r.heads == s.heads && r.nextSlot == s.nextSlot && r.consumers == s.consumers && Held(r.procs[t]) == {}
  {
    hide Effect, NextKey, ReloadCanonStep, ReloadLinkStep, Early, InReload;
    if p.pc.ReloadCanon? {
      CanonUse(s, t, p, ok);
    } else if p.pc.ReloadLink? {
      LinkUse(s, t, p, ok);
    }
  }

  lemma SwitchUse(s: State, t: Tid, p: Proc, ok: bool, kafka: bool)
    requires StepEnabled(s, t, p, ok) && Uneventful(p, ok)
    requires p.pc.ReloadClose? || p.pc.ReloadOpen? || p.pc.ReloadBuild? || p.pc.ReloadAbortClose? || p.pc.ReloadAbortUnlink?
    ensures
      var r := SwitchStep(s, t, p, ok, kafka);
      r.heads == s.heads && r.nextSlot == s.nextSlot && r.consumers == s.consumers && Held(r.procs[t]) == {}
  {
    hide Effect, NextKey, CanOpen;
  }

  lemma RetireUse(s: State, t: Tid, p: Proc)
    requires p.pc.ReloadDrain? || p.pc.ReloadClosePrev? || p.pc.ReloadUnlinkPrev?
    ensures
      var r := RetireStep(s, t, p);
      r.heads == s.heads && r.nextSlot == s.nextSlot && r.consumers == s.consumers && Held(r.procs[t]) == {}
  {
    hide Effect, PrevKey;
  }

  lemma UneventfulUse(s: State, t: Tid, p: Proc, ok: bool, kafka: bool)
    requires StepEnabled(s, t, p, ok) && Uneventful(p, ok)
    ensures
      var r := StepOf(s, t, p, ok, kafka);
      && r.heads == s.heads && r.procs == s.procs[t := r.procs[t]] && r.nextSlot == s.nextSlot && r.consumers == s.consumers
      && Held(p) == {} && Held(r.procs[t]) == {}
  {
    hide LoadStep, EnterStep, PrepareStep, SwitchStep, RetireStep;
    if p.pc.LoadLock? || InLoad(p) {
      LoadUse(s, t, p, ok, kafka);
    } else if Preparing(p) {
      PrepareUse(s, t, p, ok);
    } else if Switching(p) {
      SwitchUse(s, t, p, ok, kafka);
    } else if AfterSwap(p) {
      RetireUse(s, t, p);
    } else {
      EnterUse(s, t, p, ok);
    }
  }

  /** Only a build puts a slot into use, and only its stop takes it out. */
  lemma UseStep(s: State, a: Action, c: Slot)
    requires Inv(s) && Enabled(s, a) && a.Step?
    ensures
      var s', t := Apply(s, a), a.t;
      && t in s'.procs
      && (InUse(s', c) <==> (InUse(s, c) && !(IsStop(s, a) && c == s.procs[t].retired)) || (IsBuild(s, a) && c == s'.procs[t].slot))
  {
    hide Inv, StepOf, StepEnabled, Held;
    var s', t, p := Apply(s, a), a.t, s.procs[a.t];
    if IsBuild(s, a) {
      BuildUse(s, t, p, a.kafka);
      SameUse(s, s', t, c);
    } else if p.pc.ReloadStop? {
      StopUse(s, t, p, a.ok, a.kafka);
      StoppedIsUnused(s, t);
      StopHeld(p);
      SameUse(s, s', t, c);
    } else if p.pc.LoadRegister? {
      RegisterIsNew(s, t);
      RegisterUse(s, t, p, a.ok, a.kafka);
      BuiltHeld(p);
      RegisteredUse(s, s', t, c);
    } else if p.pc.ReloadSwap? {
      SwapUse(s, t, p, a.ok, a.kafka);
      BuiltHeld(p);
      SwappedUse(s, s', t, c);
    } else {
      UneventfulUse(s, t, p, a.ok, a.kafka);
      SameUse(s, s', t, c);
    }
  }

  lemma StopHeld(p: Proc)
    requires p.pc.ReloadStop?
    ensures Held(p) == {p.retired}
  {
  }

  lemma BuiltHeld(p: Proc)
    requires p.pc.LoadRegister? || p.pc.ReloadSwap?
    ensures Held(p) == {p.slot}
  {
  }

  /** The heads stay; one thread's slot changes. */
  lemma SameUse(s: State, s': State, t: Tid, c: Slot)
    requires t in s.procs && t in s'.procs && s'.procs == s.procs[t := s'.procs[t]] && s'.heads == s.heads
    ensures InUse(s', c) <==>
      c in Held(s'.procs[t]) || (exists n :: n in s.heads && s.heads[n].slot == c) || (exists u :: u in s.procs && u != t && c in Held(s.procs[u]))
    ensures InUse(s, c) <==>
      c in Held(s.procs[t]) || (exists n :: n in s.heads && s.heads[n].slot == c) || (exists u :: u in s.procs && u != t && c in Held(s.procs[u]))
  {
    hide Held;
    forall u | u in s.procs && u != t ensures s'.procs[u] == s.procs[u] {
    }
  }

  lemma RegisteredUse(s: State, s': State, t: Tid, c: Slot)
    requires t in s.procs && t in s'.procs && s'.procs == s.procs[t := s'.procs[t]] && Held(s'.procs[t]) == {} && Held(s.procs[t]) == {s.procs[t].slot}
    requires
      var p := s.procs[t];
      p.table !in s.heads && p.table in s'.heads && s'.heads == s.heads[p.table := s'.heads[p.table]] && s'.heads[p.table].slot == p.slot
    ensures InUse(s', c) <==> InUse(s, c)
  {
    hide Held;
    var p := s.procs[t];
    forall n | n in s.heads ensures n in s'.heads && s'.heads[n] == s.heads[n] {
    }
    forall u | u in s.procs && u != t ensures s'.procs[u] == s.procs[u] {
    }
  }

  lemma SwappedUse(s: State, s': State, t: Tid, c: Slot)
    requires t in s.procs && t in s'.procs && s'.procs == s.procs[t := s'.procs[t]] && Held(s.procs[t]) == {s.procs[t].slot}
    requires
      var p := s.procs[t];
      && p.table in s.heads && p.table in s'.heads && s'.heads == s.heads[p.table := s'.heads[p.table]] && s'.heads[p.table].slot == p.slot
      && Held(s'.procs[t]) == {s.heads[p.table].slot}
    ensures InUse(s', c) <==> InUse(s, c)
  {
    hide Held;
    var p := s.procs[t];
    forall n | n in s.heads && n != p.table ensures n in s'.heads && s'.heads[n] == s.heads[n] {
    }
    forall u | u in s.procs && u != t ensures s'.procs[u] == s.procs[u] {
    }
  }

  lemma StepConsumers(s: State, a: Action)
    requires Inv(s) && Enabled(s, a) && a.Step?
    ensures
      var s', t := Apply(s, a), a.t;
      && t in s'.procs && s.nextSlot <= s'.nextSlot
      && (IsBuild(s, a) ==> s'.procs[t].slot.id == s.nextSlot < s'.nextSlot)
      && s'.consumers ==
           if IsBuild(s, a) && a.kafka then s.consumers + {s'.procs[t].slot}
           else if IsStop(s, a) then s.consumers - {s.procs[t].retired}
           else s.consumers
  {
    hide Inv, StepOf, StepEnabled, Held;
    var t, p := a.t, s.procs[a.t];
    if IsBuild(s, a) {
      BuildUse(s, t, p, a.kafka);
    } else if p.pc.ReloadStop? {
      StopUse(s, t, p, a.ok, a.kafka);
    } else if p.pc.LoadRegister? {
      RegisterIsNew(s, t);
      RegisterUse(s, t, p, a.ok, a.kafka);
    } else if p.pc.ReloadSwap? {
      SwapUse(s, t, p, a.ok, a.kafka);
    } else {
      UneventfulUse(s, t, p, a.ok, a.kafka);
    }
  }

  /** Actions that are not steps of a thread leave slots and consumers alone. */
  lemma OtherActions(s: State, a: Action, c: Slot)
    requires Inv(s) && Enabled(s, a) && !a.Step?
    ensures Apply(s, a).consumers == s.consumers && Apply(s, a).nextSlot == s.nextSlot
    ensures InUse(Apply(s, a), c) <==> InUse(s, c)
  {
    hide Inv, InUse, StepEnabled;
    if a.StartLoad? {
      StartUse(s, a.t, IDLE.(pc := LoadLock, table := a.table), c);
    } else if a.StartReload? {
      StartUse(s, a.t, IDLE.(pc := ReloadCheck, table := a.table), c);
    } else {
      SameProcs(s, Apply(s, a), c);
    }
  }

  lemma SameProcs(s: State, s': State, c: Slot)
    requires s'.heads == s.heads && s'.procs == s.procs
    ensures InUse(s', c) <==> InUse(s, c)
  {
    hide Held;
  }

  lemma StartUse(s: State, t: Tid, p: Proc, c: Slot)
    requires (ProcOf(s, t).pc.Idle? || ProcOf(s, t).pc.Done?) && (p.pc.LoadLock? || p.pc.ReloadCheck?)
    ensures InUse(Goto(s, t, p), c) <==> InUse(s, c)
  {
    var s' := Goto(s, t, p);
    assert Held(ProcOf(s, t)) == {} && Held(p) == {};
    hide Held;
    forall u | u != t ensures (u in s'.procs <==> u in s.procs) && (u in s.procs ==> s'.procs[u] == s.procs[u]) {
    }
  }

  lemma FedAction(s: State, a: Action, built: set<Slot>)
    requires Inv(s) && Enabled(s, a) && FedBy(s, built)
    ensures
      var s' := Apply(s, a);
      var more := if IsBuild(s, a) && a.kafka && a.t in s'.procs then {s'.procs[a.t].slot} else {};
      FedBy(s', built + more)
  {
    hide Inv, InUse, Apply, Enabled;
    var s' := Apply(s, a);
    if a.Step? {
      StepConsumers(s, a);
      forall c ensures InUse(s', c) <==> (InUse(s, c) && !(IsStop(s, a) && c == s.procs[a.t].retired)) || (IsBuild(s, a) && c == s'.procs[a.t].slot) {
        UseStep(s, a, c);
      }
    } else {
      forall c ensures (InUse(s', c) <==> InUse(s, c)) && s'.consumers == s.consumers && s'.nextSlot == s.nextSlot {
        OtherActions(s, a, c);
      }
      OtherActions(s, a, NO_SLOT);
    }
  }

  lemma {:induction false} FedRun(s: State, run: seq<Action>, built: set<Slot>)
    requires Inv(s) && Legal(s, run) && FedBy(s, built)
    ensures Inv(After(s, run)) && FedBy(After(s, run), built + KafkaSlots(s, run))
    decreases |run|
  {
    hide Inv, FedBy, Apply, Enabled;
    if run == [] {
      assert built + {} == built;
    } else {
      var s' := Apply(s, run[0]);
      var more := if IsBuild(s, run[0]) && run[0].kafka && run[0].t in s'.procs then {s'.procs[run[0].t].slot} else {};
      ActionInv(s, run[0]);
      FedAction(s, run[0], built);
      FedRun(s', run[1..], built + more);
      assert built + more + KafkaSlots(s', run[1..]) == built + (more + KafkaSlots(s', run[1..]));
    }
  }

  // ─── Over every run ────────────────────────────────────────────────────────

  /**
   In every interleaving a consumer runs exactly if its slot was built for a table with
   a kafka section and is still in use: on its way in, live, or not yet stopped.
   */
  lemma ConsumersRun(s: State, run: seq<Action>, c: Slot)
    requires Init(s) && Legal(s, run)
    ensures c in After(s, run).consumers <==> c in KafkaSlots(s, run) && InUse(After(s, run), c)
  {
    InitInv(s);
    hide Inv;
    FedRun(s, run, {});
    assert {} + KafkaSlots(s, run) == KafkaSlots(s, run);
  }

  /** The live slot of a table reads its topic exactly if it was built with a kafka section. */
  lemma LiveSlotConsumes(s: State, run: seq<Action>, n: string)
    requires Init(s) && Legal(s, run) && n in After(s, run).heads
    ensures
      var slot := After(s, run).heads[n].slot;
      slot in After(s, run).consumers <==> slot in KafkaSlots(s, run)
  {
    ConsumersRun(s, run, After(s, run).heads[n].slot);
  }

  /** At rest a table has the consumer of its live slot, if that was built with a kafka section, and no other. */
  lemma AtRestOneConsumer(s: State, run: seq<Action>, n: string)
    requires Init(s) && Legal(s, run)
    requires n !in After(s, run).serial
    requires forall t :: t in After(s, run).procs && After(s, run).procs[t].table == n ==> !Opening(After(s, run).procs[t])
    ensures
      var r := After(s, run);
      (set c | c in r.consumers && c.table == n) ==
        if n in r.heads && r.heads[n].slot in KafkaSlots(s, run) then {r.heads[n].slot} else {}
  {
    InitInv(s);
    hide Inv, Held, KafkaSlots;
    RunInv(s, run);
    var r := After(s, run);
    if n in r.heads {
      HeadTable(r, n);
      LiveSlotConsumes(s, run, n);
    }
    forall c | c in r.consumers && c.table == n ensures n in r.heads && c == r.heads[n].slot && c in KafkaSlots(s, run) {
      ConsumersRun(s, run, c);
      AtRestUse(r, c);
    }
  }

  lemma AtRestUse(s: State, c: Slot)
    requires Inv(s) && InUse(s, c) && c.table !in s.serial
    requires forall t :: t in s.procs && s.procs[t].table == c.table ==> !Opening(s.procs[t])
    ensures c.table in s.heads && c == s.heads[c.table].slot
  {
    hide Inv, Held, Opening;
    forall t | t in s.procs ensures c !in Held(s.procs[t]) {
      if c in Held(s.procs[t]) {
        HeldTable(s, t, c);
        AtRestNothingHeld(s, t);
      }
    }
    var m :| m in s.heads && s.heads[m].slot == c;
    HeadTable(s, m);
  }

  lemma AtRestNothingHeld(s: State, t: Tid)
    requires Inv(s) && t in s.procs && s.procs[t].table !in s.serial && !Opening(s.procs[t])
    ensures Held(s.procs[t]) == {}
  {
    hide Inv, IsReserved, TableOf, LocksOk;
    Focus(s, t);
  }

  /** A slot built with a kafka section is being read into from the step that builds it. */
  lemma BuildStartsConsumer(s: State, a: Action)
    requires Inv(s) && Enabled(s, a) && IsBuild(s, a)
    ensures
      var s' := Apply(s, a);
      a.t in s'.procs && (a.kafka ==> s'.procs[a.t].slot in s'.consumers) && (!a.kafka ==> s'.consumers == s.consumers)
  {
    hide Inv;
    StepConsumers(s, a);
  }
}
