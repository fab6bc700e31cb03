/**
 The hot-reload protocol of `TableRegistry` as a state machine.

 One action is one critical section of the server: it takes a lock, reads or
 writes `heads_` under its mutex, opens or closes one key of the process-wide
 DB, or touches one path below `db_path`.  Any number of threads interleave
 these actions with each other, with RPCs acquiring and dropping handles and
 with the deployment tools re-pointing `db_path/<table>`.
 */
module Registry {
  import opened Wrappers

  // ─── Names and keys ────────────────────────────────────────────────────────

  const RELOAD_SUFFIX := "~reload"

  predicate IsReserved(name: string) {
    |name| >= |RELOAD_SUFFIX| && name[|name| - |RELOAD_SUFFIX|..] == RELOAD_SUFFIX
  }

  function StagingKey(table: string): string {
    table + RELOAD_SUFFIX
  }

  /** The DB key a table is served from, given which of its two keys is live. */
  function LiveKey(table: string, onStaging: bool): string {
    if onStaging then StagingKey(table) else table
  }

  predicate Loadable(name: string) {
    name != "" && name[0] != '.' && !IsReserved(name)
  }

  /** The table a DB key belongs to. */
  function TableOf(key: string): string {
    if IsReserved(key) then key[..|key| - |RELOAD_SUFFIX|] else key
  }

  lemma StagingKeyFacts(table: string)
    ensures IsReserved(StagingKey(table))
    ensures TableOf(StagingKey(table)) == table
  {
    var k := StagingKey(table);
    assert k[|k| - |RELOAD_SUFFIX|..] == RELOAD_SUFFIX;
    assert k[..|k| - |RELOAD_SUFFIX|] == table;
  }

  /** Key pairs of distinct tables are disjoint, and the two keys of one table differ. */
  lemma KeyIsolation(a: string, b: string, sa: bool, sb: bool)
    requires !IsReserved(a) && !IsReserved(b)
    ensures LiveKey(a, sa) == LiveKey(b, sb) <==> a == b && sa == sb
    ensures TableOf(LiveKey(a, sa)) == a
  {
    StagingKeyFacts(a);
    StagingKeyFacts(b);
  }

  // ─── State ─────────────────────────────────────────────────────────────────

  type Tid = nat
  type Dir = string        // the canonical path of a directory

  /** An index registered in the DB: each successful open is a new generation. */
  datatype Index = Index(gen: nat, dir: Dir)

  /** A `TableSlot`: `id` is its identity, `index` what its `kv` pointer refers to. */
  datatype Slot = Slot(id: nat, table: string, key: string, index: Index)

  /** A `TableHead`; `swaps` counts the live swaps done so far. */
  datatype Head = Head(slot: Slot, stagingIsLive: bool, swaps: nat)

  const NO_SLOT := Slot(0, "", "", Index(0, ""))

  /** Where a thread is inside `LoadTable` or `ReloadTable`. */
  datatype Pc =
    | Idle
    | Done
      // LoadTable; everything after LoadLock runs under load_table_mu_
    | LoadLock
    | LoadCheck
    | LoadOpen
    | LoadBuild
    | LoadClose
    | LoadRegister
    | LoadExit
      // ReloadTable; everything after ReloadLock runs under reload_serial
    | ReloadCheck
    | ReloadDir
    | ReloadFind
    | ReloadLock
    | ReloadRead
    | ReloadCanon
    | ReloadUnlink
    | ReloadLink
    | ReloadClose
    | ReloadOpen
    | ReloadBuild
    | ReloadAbortClose
    | ReloadAbortUnlink
    | ReloadSwap
    | ReloadStop
    | ReloadDrain
    | ReloadClosePrev
    | ReloadUnlinkPrev
    | ReloadExit

  /** A thread: its program counter and the locals of the call it is in.
      `live` is `live_on_staging`, `cfg` is `table_config_dir`, `slot` the slot
      it built, `retired` is `old_sp`, `ok` whether the call succeeded. */
  datatype Proc = Proc(pc: Pc, table: string, live: bool, cfg: Option<Dir>, slot: Slot, retired: Slot, ok: bool)

  const IDLE := Proc(Idle, "", false, None, NO_SLOT, NO_SLOT, false)

  predicate InLoad(p: Proc) {
    p.pc.LoadCheck? || p.pc.LoadOpen? || p.pc.LoadBuild? || p.pc.LoadClose? || p.pc.LoadRegister? || p.pc.LoadExit?
  }

  /** Inside `LoadTable`, past the test that the table is not registered. */
  predicate Opening(p: Proc) {
    p.pc.LoadOpen? || p.pc.LoadBuild? || p.pc.LoadClose? || p.pc.LoadRegister?
  }

  predicate Preparing(p: Proc) {
    p.pc.ReloadRead? || p.pc.ReloadCanon? || p.pc.ReloadUnlink? || p.pc.ReloadLink?
  }

  predicate Switching(p: Proc) {
    || p.pc.ReloadClose? || p.pc.ReloadOpen? || p.pc.ReloadBuild?
    || p.pc.ReloadAbortClose? || p.pc.ReloadAbortUnlink? || p.pc.ReloadSwap?
  }

  /** The thread has read the live flag and has not swapped yet. */
  predicate BeforeSwap(p: Proc) {
    (Preparing(p) && !p.pc.ReloadRead?) || Switching(p)
  }

  predicate AfterSwap(p: Proc) {
    p.pc.ReloadStop? || p.pc.ReloadDrain? || p.pc.ReloadClosePrev? || p.pc.ReloadUnlinkPrev?
  }

  predicate InReload(p: Proc) {
    Preparing(p) || Switching(p) || AfterSwap(p) || p.pc.ReloadExit?
  }

  /** The key a reload opens, and the key it closes after the drain. */
  function NextKey(p: Proc): string {
    LiveKey(p.table, !p.live)
  }

  function PrevKey(p: Proc): string {
    LiveKey(p.table, p.live)
  }

  /** The one key a thread may open or close in its phase. */
  function KeyOf(p: Proc): string {
    if BeforeSwap(p) then NextKey(p) else if AfterSwap(p) then PrevKey(p) else p.table
  }

  datatype State = State(
    db: map<string, Index>,        // DB::Instance(): open keys
    heads: map<string, Head>,      // heads_
    disk: map<string, Dir>,        // what db_path/<leaf> resolves to by itself
    through: set<string>,          // staging links that lead to the table's own path
    handles: map<nat, Slot>,       // outstanding TableHandles
    consumers: set<Slot>,          // slots whose KafkaSource thread is running
    procs: map<Tid, Proc>,
    loadMu: Option<Tid>,           // holder of load_table_mu_
    serial: map<string, Tid>,      // holders of each head's reload_serial
    nextGen: nat,
    nextSlot: nat)

  function ProcOf(s: State, t: Tid): Proc {
    if t in s.procs then s.procs[t] else IDLE
  }

  function Goto(s: State, t: Tid, p: Proc): State {
    s.(procs := s.procs[t := p])
  }

  // ─── DB operations ─────────────────────────────────────────────────────────

  /** What `db_path/<leaf>` resolves to at the moment. */
  function Resolve(s: State, leaf: string): Option<Dir> {
    var l := if leaf in s.through then TableOf(leaf) else leaf;
    if l in s.disk then Some(s.disk[l]) else None
  }

  /** `OpenIndex` returns early on a registered key, and otherwise registers what the path resolves to. */
  predicate CanOpen(s: State, key: string) {
    key in s.db || Resolve(s, key).Some?
  }

  function OpenIndex(s: State, key: string): State
    requires CanOpen(s, key)
  {
    if key in s.db then s
    else s.(db := s.db[key := Index(s.nextGen, Resolve(s, key).value)], nextGen := s.nextGen + 1)
  }

  function CloseIndex(s: State, key: string): State {
    s.(db := s.db - {key})
  }

  function Unlink(s: State, leaf: string): State {
    s.(disk := s.disk - {leaf}, through := s.through - {leaf})
  }

  /** `BuildSlotAfterOpen`: a slot over whatever index is registered under `key`, with or without a KafkaSource. */
  function BuildSlot(s: State, table: string, key: string): Slot
    requires key in s.db
  {
    Slot(s.nextSlot, table, key, s.db[key])
  }

  function WithSlot(s: State, slot: Slot, kafka: bool): State {
    s.(nextSlot := s.nextSlot + 1,
       consumers := if kafka then s.consumers + {slot} else s.consumers)
  }

  /** No owner of the shared pointer is left except the local that waits on it. */
  predicate Drained(s: State, t: Tid, retired: Slot) {
    && (forall h :: h in s.handles ==> s.handles[h] != retired)
    && (forall n :: n in s.heads ==> s.heads[n].slot != retired)
    && (forall u :: u in s.procs && u != t ==> !Holds(s.procs[u], retired))
  }

  predicate Holds(p: Proc, slot: Slot) {
    || ((p.pc.LoadRegister? || p.pc.ReloadSwap?) && p.slot == slot)
    || ((p.pc.ReloadStop? || p.pc.ReloadDrain?) && p.retired == slot)
  }

  // ─── Actions ───────────────────────────────────────────────────────────────

  datatype Action =
    | StartLoad(t: Tid, table: string)
    | StartReload(t: Tid, table: string)
    | Step(t: Tid, ok: bool, kafka: bool)   // the choices: may fail, has a kafka section
    | Acquire(h: nat, table: string)
    | CopyHandle(h: nat, from: nat)
    | Release(h: nat)
    | Relink(leaf: string, dir: Option<Dir>)

  predicate Enabled(s: State, a: Action) {
    match a
    case StartLoad(t, _) => ProcOf(s, t).pc.Idle? || ProcOf(s, t).pc.Done?
    case StartReload(t, _) => ProcOf(s, t).pc.Idle? || ProcOf(s, t).pc.Done?
    case Step(t, ok, _) => t in s.procs && StepEnabled(s, t, s.procs[t], ok)
    case Acquire(h, table) => h !in s.handles
    case CopyHandle(h, from) => h !in s.handles && from in s.handles
    case Release(h) => h in s.handles
    case Relink(_, _) => true
  }

  /** Blocking steps wait; a step that opens an index can only succeed when the path resolves. */
  predicate StepEnabled(s: State, t: Tid, p: Proc, ok: bool) {
    match p.pc
    case Idle => false
    case Done => false
    case LoadLock => s.loadMu.None?
    case LoadOpen => ok ==> CanOpen(s, p.table)
    case LoadBuild => ok ==> p.table in s.db
    case ReloadDir => ok ==> p.table in s.disk
    case ReloadLock => p.table !in s.serial
    case ReloadRead => p.table in s.heads
    case ReloadOpen => ok ==> CanOpen(s, NextKey(p))
    case ReloadBuild => ok ==> NextKey(p) in s.db
    case ReloadSwap => p.table in s.heads
    case ReloadDrain => Drained(s, t, p.retired)
    case _ => true
  }

  function Apply(s: State, a: Action): State
    requires Enabled(s, a)
  {
    match a
    case StartLoad(t, n) => Goto(s, t, IDLE.(pc := LoadLock, table := n))
    case StartReload(t, n) => Goto(s, t, IDLE.(pc := ReloadCheck, table := n))
    case Step(t, ok, kafka) => StepOf(s, t, s.procs[t], ok, kafka)
    case Acquire(h, n) => if n in s.heads then s.(handles := s.handles[h := s.heads[n].slot]) else s
    case CopyHandle(h, from) => s.(handles := s.handles[h := s.handles[from]])
    case Release(h) => s.(handles := s.handles - {h})
    case Relink(leaf, None) => Unlink(s, leaf)
    case Relink(leaf, Some(d)) => s.(disk := s.disk[leaf := d], through := s.through - {leaf})
  }

  /** The maps agree except perhaps at `key`. */
  predicate ChangesOnly<T(==)>(m: map<string, T>, m': map<string, T>, key: string) {
    m' == m || m' == m - {key} || (key in m' && m' == m[key := m'[key]])
  }

  /** What one step of a thread can change: its own locals, the one key of its phase, the table's
      staging link, and at registration or swap its table's head; never a handle. */
  ghost predicate Effect(s: State, r: State, t: Tid, p: Proc) {
    && t in r.procs && r.procs[t].table == p.table && r.procs == s.procs[t := r.procs[t]]
    && r.handles == s.handles
    && ChangesOnly(s.db, r.db, KeyOf(p))
    && (!InReload(p) && !Opening(p) ==> r.db == s.db)
    && (!InReload(p) ==> r.disk == s.disk && r.through == s.through)
    && ((p.pc.ReloadUnlink? || p.pc.ReloadLink? ==> !p.live) ==>
          ChangesOnly(s.disk, r.disk, StagingKey(p.table)) && s.through - {StagingKey(p.table)} == r.through - {StagingKey(p.table)})
    && (!p.pc.LoadRegister? && !p.pc.ReloadSwap? ==> r.heads == s.heads)
  }

  /** One step of thread `t`, which is at `p`. */
  function StepOf(s: State, t: Tid, p: Proc, ok: bool, kafka: bool): (r: State)
    requires StepEnabled(s, t, p, ok)
    ensures Effect(s, r, t, p)
  {
    if p.pc.LoadLock? || InLoad(p) then LoadStep(s, t, p, ok, kafka)
    else if Preparing(p) then PrepareStep(s, t, p, ok)
    else if Switching(p) then SwitchStep(s, t, p, ok, kafka)
    else if AfterSwap(p) then RetireStep(s, t, p)
    else EnterStep(s, t, p, ok)
  }

  /** `LoadTable`. */
  function LoadStep(s: State, t: Tid, p: Proc, ok: bool, kafka: bool): (r: State)
    requires StepEnabled(s, t, p, ok)
    requires p.pc.LoadLock? || p.pc.LoadCheck? || p.pc.LoadOpen? || p.pc.LoadBuild? || p.pc.LoadClose? || p.pc.LoadRegister? || p.pc.LoadExit?
    ensures Effect(s, r, t, p)
  {
    if p.pc.LoadLock? then Goto(s.(loadMu := Some(t)), t, p.(pc := LoadCheck))
    else if p.pc.LoadCheck? then LoadCheckStep(s, t, p)
    else if p.pc.LoadOpen? then LoadOpenStep(s, t, p, ok)
    else if p.pc.LoadBuild? then LoadBuildStep(s, t, p, ok, kafka)
    else if p.pc.LoadClose? then Goto(CloseIndex(s, p.table), t, p.(pc := LoadExit, ok := false))
    else if p.pc.LoadRegister? then LoadRegisterStep(s, t, p)
    else Goto(s.(loadMu := None), t, p.(pc := Done))
  }

  /** A reload that has not yet opened the table, or has failed. */
  predicate Early(p: Proc) {
    || p.pc.ReloadCheck? || p.pc.ReloadDir? || p.pc.ReloadFind? || p.pc.ReloadLock?
    || Preparing(p) || p.pc.ReloadClose? || p.pc.ReloadOpen? || p.pc.ReloadAbortUnlink?
    || ((p.pc.ReloadExit? || p.pc.Done?) && !p.ok)
  }

  /** `ReloadTable`: entry, the branch for a table not yet registered that continues in `LoadTable`, the serial lock, the exits. */
  function EnterStep(s: State, t: Tid, p: Proc, ok: bool): (r: State)
    requires StepEnabled(s, t, p, ok)
    requires p.pc.ReloadCheck? || p.pc.ReloadDir? || p.pc.ReloadFind? || p.pc.ReloadLock? || p.pc.ReloadExit?
    ensures Effect(s, r, t, p)
    ensures Early(p) && p.table !in s.disk ==> Early(r.procs[t])
    ensures
      || r.procs[t].pc.ReloadFind? || r.procs[t].pc.ReloadDir? || r.procs[t].pc.ReloadLock? || r.procs[t].pc.ReloadRead?
      || r.procs[t].pc.LoadLock? || r.procs[t].pc.Done?
    ensures p.table in s.heads && !p.pc.ReloadDir? ==>
      r.procs[t].pc.ReloadFind? || r.procs[t].pc.ReloadLock? || r.procs[t].pc.ReloadRead? || r.procs[t].pc.Done?
  {
    if p.pc.ReloadCheck? then ReloadCheckStep(s, t, p)
    else if p.pc.ReloadDir? then Goto(s, t, if ok then p.(pc := LoadLock) else p.(pc := Done, ok := false))
    else if p.pc.ReloadFind? then Goto(s, t, if p.table in s.heads then p.(pc := ReloadLock) else p.(pc := Done, ok := false))
    else if p.pc.ReloadLock? then Goto(s.(serial := s.serial[p.table := t]), t, p.(pc := ReloadRead))
    else Goto(s.(serial := s.serial - {p.table}), t, p.(pc := Done))
  }

  /** `ReloadTable`: read the live flag, resolve the table's path, point the staging link at it. */
  function PrepareStep(s: State, t: Tid, p: Proc, ok: bool): (r: State)
    requires StepEnabled(s, t, p, ok)
    requires p.pc.ReloadRead? || p.pc.ReloadCanon? || p.pc.ReloadUnlink? || p.pc.ReloadLink?
    ensures Effect(s, r, t, p)
    ensures InReload(r.procs[t]) && (r.procs[t].pc.ReloadExit? ==> !r.procs[t].ok)
    ensures Early(r.procs[t])
  {
    if p.pc.ReloadRead? then Goto(s, t, p.(pc := ReloadCanon, live := s.heads[p.table].stagingIsLive))
    else if p.pc.ReloadCanon? then ReloadCanonStep(s, t, p, ok)
    else if p.pc.ReloadUnlink? then Goto(Unlink(s, NextKey(p)), t, p.(pc := ReloadLink))
    else ReloadLinkStep(s, t, p, ok)
  }

  /** `ReloadTable`: reopen the other key, build the new slot and swap it in, or clean up. */
  function SwitchStep(s: State, t: Tid, p: Proc, ok: bool, kafka: bool): (r: State)
    requires StepEnabled(s, t, p, ok)
    requires p.pc.ReloadClose? || p.pc.ReloadOpen? || p.pc.ReloadBuild? || p.pc.ReloadAbortClose? || p.pc.ReloadAbortUnlink? || p.pc.ReloadSwap?
    ensures Effect(s, r, t, p)
    ensures InReload(r.procs[t]) && (r.procs[t].pc.ReloadExit? ==> !r.procs[t].ok)
  {
    if p.pc.ReloadClose? then Goto(CloseIndex(s, NextKey(p)), t, p.(pc := ReloadOpen))
    else if p.pc.ReloadOpen? then ReloadOpenStep(s, t, p, ok)
    else if p.pc.ReloadBuild? then ReloadBuildStep(s, t, p, ok, kafka)
    else if p.pc.ReloadAbortClose? then Goto(CloseIndex(s, NextKey(p)), t, p.(pc := ReloadAbortUnlink))
    else if p.pc.ReloadAbortUnlink? then Goto(UnlinkStaging(s, p.table, NextKey(p)), t, p.(pc := ReloadExit, ok := false))
    else ReloadSwapStep(s, t, p)
  }

  /** `ReloadTable` after the live swap: stop the old consumer, drain, close the old key. */
  function RetireStep(s: State, t: Tid, p: Proc): (r: State)
    requires p.pc.ReloadStop? || p.pc.ReloadDrain? || p.pc.ReloadClosePrev? || p.pc.ReloadUnlinkPrev?
    ensures Effect(s, r, t, p)
    ensures AfterSwap(r.procs[t]) || (p.pc.ReloadUnlinkPrev? && r.procs[t].pc.ReloadExit? && r.procs[t].ok)
  {
    if p.pc.ReloadStop? then Goto(s.(consumers := s.consumers - {p.retired}), t, p.(pc := ReloadDrain))
    else if p.pc.ReloadDrain? then Goto(s, t, p.(pc := ReloadClosePrev))
    else if p.pc.ReloadClosePrev? then Goto(CloseIndex(s, PrevKey(p)), t, p.(pc := ReloadUnlinkPrev))
    else Goto(UnlinkStaging(s, p.table, PrevKey(p)), t, p.(pc := ReloadExit, ok := true))
  }

  // `LoadTable`

  function LoadCheckStep(s: State, t: Tid, p: Proc): (r: State)
    ensures t in r.procs && r == Goto(s, t, p.(pc := r.procs[t].pc, ok := r.procs[t].ok))
    ensures r.procs[t].pc.LoadOpen? || (r.procs[t].pc.LoadExit? && (r.procs[t].ok ==> p.table in s.heads))
  {
    if !Loadable(p.table) then Goto(s, t, p.(pc := LoadExit, ok := false))
    else if p.table in s.heads then Goto(s, t, p.(pc := LoadExit, ok := true))
    else Goto(s, t, p.(pc := LoadOpen))
  }

  function LoadOpenStep(s: State, t: Tid, p: Proc, ok: bool): State
    requires ok ==> CanOpen(s, p.table)
  {
    if ok then Goto(OpenIndex(s, p.table), t, p.(pc := LoadBuild))
    else Goto(s, t, p.(pc := LoadExit, ok := false))
  }

  function LoadBuildStep(s: State, t: Tid, p: Proc, ok: bool, kafka: bool): State
    requires ok ==> p.table in s.db
  {
    if ok then
      var slot := BuildSlot(s, p.table, p.table);
      Goto(WithSlot(s, slot, kafka), t, p.(pc := LoadRegister, slot := slot))
    else Goto(s, t, p.(pc := LoadClose))
  }

  /** The second already-present test stops the consumer and closes the key again. */
  function LoadRegisterStep(s: State, t: Tid, p: Proc): State {
    if p.table in s.heads then
      Goto(CloseIndex(s.(consumers := s.consumers - {p.slot}), p.table), t, p.(pc := LoadExit, ok := true))
    else
      Goto(s.(heads := s.heads[p.table := Head(p.slot, false, 0)]), t, p.(pc := LoadExit, ok := true))
  }

  // `ReloadTable`

  function ReloadCheckStep(s: State, t: Tid, p: Proc): (r: State)
    ensures t in r.procs && r == Goto(s, t, p.(pc := r.procs[t].pc, ok := r.procs[t].ok))
    ensures r.procs[t].pc.ReloadFind? || r.procs[t].pc.ReloadDir? || (r.procs[t].pc.Done? && !r.procs[t].ok)
  {
    if p.table in s.heads then Goto(s, t, p.(pc := ReloadFind))
    else if IsReserved(p.table) then Goto(s, t, p.(pc := Done, ok := false))
    else Goto(s, t, p.(pc := ReloadDir))
  }

  /** `weakly_canonical` of a path that does not resolve is the path itself: `cfg == None`. */
  function ReloadCanonStep(s: State, t: Tid, p: Proc, ok: bool): State {
    if !ok then Goto(s, t, p.(pc := ReloadExit, ok := false))
    else if NextKey(p) != p.table then Goto(s, t, p.(pc := ReloadUnlink, cfg := Resolve(s, p.table)))
    else Goto(s, t, p.(pc := ReloadClose, cfg := Resolve(s, p.table)))
  }

  function LinkTo(s: State, leaf: string, cfg: Option<Dir>): State {
    match cfg
    case Some(d) => s.(disk := s.disk[leaf := d], through := s.through - {leaf})
    case None => s.(disk := s.disk - {leaf}, through := s.through + {leaf})
  }

  function ReloadLinkStep(s: State, t: Tid, p: Proc, ok: bool): State {
    if ok then Goto(LinkTo(s, NextKey(p), p.cfg), t, p.(pc := ReloadClose))
    else Goto(s, t, p.(pc := ReloadExit, ok := false))
  }

  function ReloadOpenStep(s: State, t: Tid, p: Proc, ok: bool): State
    requires ok ==> CanOpen(s, NextKey(p))
  {
    if ok then Goto(OpenIndex(s, NextKey(p)), t, p.(pc := ReloadBuild))
    else Goto(s, t, p.(pc := ReloadAbortUnlink))
  }

  function ReloadBuildStep(s: State, t: Tid, p: Proc, ok: bool, kafka: bool): State
    requires ok ==> NextKey(p) in s.db
  {
    if ok then
      var slot := BuildSlot(s, p.table, NextKey(p));
      Goto(WithSlot(s, slot, kafka), t, p.(pc := ReloadSwap, slot := slot))
    else Goto(s, t, p.(pc := ReloadAbortClose))
  }

  function ReloadSwapStep(s: State, t: Tid, p: Proc): State
    requires p.table in s.heads
  {
    var h := s.heads[p.table];
    Goto(s.(heads := s.heads[p.table := Head(p.slot, !p.live, h.swaps + 1)]), t,
         p.(pc := ReloadStop, retired := h.slot))
  }

  function UnlinkStaging(s: State, table: string, key: string): State {
    if key != table then Unlink(s, key) else s
  }

  // ─── Runs ──────────────────────────────────────────────────────────────────

  predicate Init(s: State) {
    s.db == map[] && s.heads == map[] && s.handles == map[] && s.consumers == {} && s.procs == map[]
    && s.loadMu == None && s.serial == map[]
  }

  /** The slot's key is open, at the very generation the slot was built from. */
  predicate SlotOpen(s: State, slot: Slot) {
    slot.key in s.db && s.db[slot.key] == slot.index
  }

  /** A sequence of actions, each enabled where it happens. */
  predicate Legal(s: State, run: seq<Action>)
    decreases |run|
  {
    run == [] || (Enabled(s, run[0]) && Legal(Apply(s, run[0]), run[1..]))
  }

  function After(s: State, run: seq<Action>): State
    requires Legal(s, run)
    decreases |run|
  {
    if run == [] then s else After(Apply(s, run[0]), run[1..])
  }
}
