/**
 The invariant of the hot-reload protocol, and the proof that every action of
 the state machine keeps it.  The invariant is stated table by table: a `View`
 collects everything that belongs to one table, and a step of a thread working
 on that table leaves the views of all other tables alone.
 */
module RegistryInvariant {
  import opened Wrappers
  import opened Registry

  // ─── Invariant ─────────────────────────────────────────────────────────────

  /** Everything in the state that belongs to one table. */
  datatype View = View(
    head: Option<Head>,
    primary: Option<Index>,     // the index open under `name`
    staging: Option<Index>,     // the index open under `name~reload`
    loader: Proc,               // the thread inside LoadTable, if it is loading this table
    reloader: Proc)             // the thread inside ReloadTable of this table
  {
    function Open(onStaging: bool): Option<Index> {
      if onStaging then staging else primary
    }
  }

  function Lookup<T>(m: map<string, T>, k: string): Option<T> {
    if k in m then Some(m[k]) else None
  }

  function Loader(s: State, n: string): Proc {
    if s.loadMu.Some? && ProcOf(s, s.loadMu.value).table == n then ProcOf(s, s.loadMu.value) else IDLE
  }

  function Reloader(s: State, n: string): Proc {
    if n in s.serial then ProcOf(s, s.serial[n]) else IDLE
  }

  function ViewOf(s: State, n: string): View {
    View(Lookup(s.heads, n), Lookup(s.db, n), Lookup(s.db, StagingKey(n)), Loader(s, n), Reloader(s, n))
  }

  /** `slot` serves table `n` over the index open under one of its keys. */
  predicate SlotOk(v: View, slot: Slot, n: string, onStaging: bool) {
    slot.table == n && slot.key == LiveKey(n, onStaging) && v.Open(onStaging) == Some(slot.index)
  }

  /** A table that is not registered: nothing is open for it except by the thread loading it. */
  predicate AbsentOk(v: View, n: string, bound: nat) {
    var l := v.loader;
    && v.reloader == IDLE
    && v.staging.None?
    && (Opening(l) ==> Loadable(n))
    && (if l.pc.LoadRegister? then SlotOk(v, l.slot, n, false) && l.slot.id < bound
        else v.primary.Some? <==> (l.pc.LoadBuild? || l.pc.LoadClose?))
  }

  /** A registered table: its live key is open at the live slot's generation, and
      the other key is open exactly while the table's reload needs it. */
  predicate PresentOk(v: View, h: Head, n: string, bound: nat) {
    var r := v.reloader;
    && Loadable(n)
    && !Opening(v.loader)
    && SlotOk(v, h.slot, n, h.stagingIsLive)
    && h.slot.id < bound
    && (h.stagingIsLive <==> h.swaps % 2 == 1)
    && (r == IDLE || (InReload(r) && r.table == n))
    && (BeforeSwap(r) ==> r.live == h.stagingIsLive)
    && (AfterSwap(r) ==> r.live != h.stagingIsLive && r.slot == h.slot)
    && OtherKeyOk(v, h, n, bound)
  }

  predicate OtherKeyOk(v: View, h: Head, n: string, bound: nat) {
    var r := v.reloader;
    if r.pc.ReloadSwap? then
      SlotOk(v, r.slot, n, !h.stagingIsLive) && h.slot.id < r.slot.id < bound
    else if (r.pc.ReloadStop? || r.pc.ReloadDrain?) then
      SlotOk(v, r.retired, n, !h.stagingIsLive) && r.retired.id < h.slot.id
    else
      v.Open(!h.stagingIsLive).Some? <==> (r.pc.ReloadBuild? || r.pc.ReloadAbortClose? || r.pc.ReloadClosePrev?)
  }

  predicate ViewOk(v: View, n: string, bound: nat) {
    if v.head.Some? then PresentOk(v, v.head.value, n, bound) else AbsentOk(v, n, bound)
  }

  /** A pinned slot is the live one, or the one the table's reload is waiting for. */
  predicate Pinned(v: View, slot: Slot) {
    && v.head.Some?
    && (slot == v.head.value.slot
        || ((v.reloader.pc.ReloadStop? || v.reloader.pc.ReloadDrain?) && slot == v.reloader.retired))
  }

  /** A running consumer feeds the live slot, one about to be published, or one about to be stopped. */
  predicate Feeding(v: View, slot: Slot) {
    || (v.head.Some? && slot == v.head.value.slot)
    || (v.reloader.pc.ReloadStop? && slot == v.reloader.retired)
    || (v.reloader.pc.ReloadSwap? && slot == v.reloader.slot)
    || (v.loader.pc.LoadRegister? && slot == v.loader.slot)
  }

  /** Critical sections are entered only with their lock, and locks are held only by threads inside them. */
  predicate LocksOk(s: State) {
    && (s.loadMu.Some? ==> InLoad(ProcOf(s, s.loadMu.value)))
    && (forall n :: n in s.serial ==> InReload(ProcOf(s, s.serial[n])) && ProcOf(s, s.serial[n]).table == n)
    && (forall t :: t in s.procs ==> LockOf(s, t))
  }

  predicate LockOf(s: State, t: Tid) {
    var p := ProcOf(s, t);
    && (InLoad(p) <==> s.loadMu == Some(t))
    && (InReload(p) <==> Lookup(s.serial, p.table) == Some(t))
    && (InReload(p) || (p.pc.ReloadLock? || p.pc.ReloadFind?) ==> p.table in s.heads)
    && (Opening(p) ==> Loadable(p.table))
    && (p.pc.ReloadUnlink? || p.pc.ReloadLink? ==> !p.live)
    && (p.pc.LoadExit? && p.ok ==> p.table in s.heads)
  }

  ghost predicate Inv(s: State) {
    && LocksOk(s)
    && (forall n {:trigger ViewOf(s, n)} :: !IsReserved(n) ==> ViewOk(ViewOf(s, n), n, s.nextSlot))
    && (forall n :: n in s.heads ==> !IsReserved(n))
    && (forall k {:trigger k in s.db} :: k in s.db ==> !IsReserved(TableOf(k)))
    && (forall h :: h in s.handles ==> Pinned(ViewOf(s, s.handles[h].table), s.handles[h]))
    && (forall c :: c in s.consumers ==> !IsReserved(c.table) && Feeding(ViewOf(s, c.table), c))
  }

  // ─── Steps change one table's view ─────────────────────────────────────────

  lemma InitInv(s: State)
    requires Init(s)
    ensures Inv(s)
  {
  }

  /** What a step of thread `t`, working on table `n` and going to `p`, may change. */
  ghost predicate Shape(s: State, s': State, t: Tid, n: string, p: Proc) {
    && !ProcOf(s, t).pc.Idle? && ProcOf(s, t).table == n && p.table == n
    && s'.procs == s.procs[t := p]
    && s'.handles == s.handles
    && s.nextSlot <= s'.nextSlot
    && ShapeLock(s.loadMu, s'.loadMu, t) && (s'.loadMu == Some(t) <==> InLoad(p))
    && ShapeLock(Lookup(s.serial, n), Lookup(s'.serial, n), t) && (Lookup(s'.serial, n) == Some(t) <==> InReload(p))
    && (forall m :: m != n ==> Lookup(s'.serial, m) == Lookup(s.serial, m))
    && (forall m :: m != n ==> Lookup(s'.heads, m) == Lookup(s.heads, m))
    && (n in s.heads ==> n in s'.heads)
    && (forall k {:trigger Lookup(s'.db, k)} :: TableOf(k) != n ==> Lookup(s'.db, k) == Lookup(s.db, k))
  }

  /** A lock is left alone, taken from nobody, or given up by its holder. */
  predicate ShapeLock(mu: Option<Tid>, mu': Option<Tid>, t: Tid) {
    mu' == mu || ((mu.None? || mu == Some(t)) && (mu'.None? || mu' == Some(t)))
  }

  lemma ShapeSerial(s: State, s': State, t: Tid, n: string, p: Proc, m: string)
    requires LocksOk(s) && Shape(s, s', t, n, p) && m in s'.serial
    ensures InReload(ProcOf(s', s'.serial[m])) && ProcOf(s', s'.serial[m]).table == m
  {
    hide InLoad, InReload, TableOf;
    assert Lookup(s'.serial, m) == Some(s'.serial[m]);
    assert m != n ==> Lookup(s'.serial, m) == Lookup(s.serial, m);
  }

  lemma ShapeOther(s: State, s': State, t: Tid, n: string, p: Proc, u: Tid)
    requires LocksOk(s) && Shape(s, s', t, n, p)
    requires u in s.procs && u != t
    ensures LockOf(s', u)
  {
    hide InLoad, InReload, Opening, TableOf, Loadable;
    assert LockOf(s, u);
    var m := s.procs[u].table;
    assert m != n ==> Lookup(s'.serial, m) == Lookup(s.serial, m) && Lookup(s'.heads, m) == Lookup(s.heads, m);
  }

  lemma ShapeLocks(s: State, s': State, t: Tid, n: string, p: Proc)
    requires LocksOk(s) && Shape(s, s', t, n, p) && LockOf(s', t)
    ensures LocksOk(s')
  {
    forall m | m in s'.serial ensures InReload(ProcOf(s', s'.serial[m])) && ProcOf(s', s'.serial[m]).table == m {
      ShapeSerial(s, s', t, n, p, m);
    }
    forall u | u in s'.procs ensures LockOf(s', u) {
      if u != t {
        ShapeOther(s, s', t, n, p, u);
      }
    }
    hide LockOf, InLoad, InReload, TableOf;
  }

  lemma ShapeProcs(s: State, s': State, t: Tid, n: string, p: Proc, m: string)
    requires LocksOk(s) && Shape(s, s', t, n, p) && m != n
    ensures Loader(s', m) == Loader(s, m)
    ensures Reloader(s', m) == Reloader(s, m)
  {
    hide InLoad, InReload, LockOf, TableOf;
    assert Lookup(s'.serial, m) == Lookup(s.serial, m);
  }

  lemma ShapeKeys(s: State, s': State, t: Tid, n: string, p: Proc, m: string)
    requires Shape(s, s', t, n, p) && !IsReserved(m) && m != n
    ensures Lookup(s'.db, m) == Lookup(s.db, m)
    ensures Lookup(s'.db, StagingKey(m)) == Lookup(s.db, StagingKey(m))
  {
    assert TableOf(m) == m;
    StagingKeyFacts(m);
  }

  lemma ShapeFrame(s: State, s': State, t: Tid, n: string, p: Proc, m: string)
    requires LocksOk(s) && Shape(s, s', t, n, p)
    requires !IsReserved(m) && m != n
    ensures ViewOf(s', m) == ViewOf(s, m)
  {
    hide IsReserved, TableOf, LocksOk;
    ShapeProcs(s, s', t, n, p, m);
    ShapeKeys(s, s', t, n, p, m);
    assert Lookup(s'.heads, m) == Lookup(s.heads, m);
  }

  lemma BoundMono(v: View, n: string, b: nat, c: nat)
    requires ViewOk(v, n, b) && b <= c
    ensures ViewOk(v, n, c)
  {
  }

  lemma KeepViews(s: State, s': State, t: Tid, n: string, p: Proc, m: string)
    requires Inv(s) && Shape(s, s', t, n, p)
    requires !IsReserved(n) ==> ViewOk(ViewOf(s', n), n, s'.nextSlot)
    requires !IsReserved(m)
    ensures ViewOk(ViewOf(s', m), m, s'.nextSlot)
  {
    hide IsReserved, TableOf, PresentOk, AbsentOk, ViewOf, Pinned, Feeding, LocksOk;
    if m != n {
      ShapeFrame(s, s', t, n, p, m);
      BoundMono(ViewOf(s, m), m, s.nextSlot, s'.nextSlot);
    }
  }

  lemma KeepPins(s: State, s': State, t: Tid, n: string, p: Proc, h: nat)
    requires Inv(s) && Shape(s, s', t, n, p)
    requires h in s.handles && s.handles[h].table != n
    ensures Pinned(ViewOf(s', s.handles[h].table), s.handles[h])
  {
    var m := s.handles[h].table;
    assert Pinned(ViewOf(s, m), s.handles[h]);
    assert m in s.heads;
    hide IsReserved, TableOf, ViewOk, ViewOf, Pinned, Feeding, LocksOk;
    ShapeFrame(s, s', t, n, p, m);
  }

  lemma KeepFeeds(s: State, s': State, t: Tid, n: string, p: Proc, c: Slot)
    requires Inv(s) && Shape(s, s', t, n, p)
    requires c in s.consumers && c.table != n
    ensures !IsReserved(c.table) && Feeding(ViewOf(s', c.table), c)
  {
    hide IsReserved, TableOf, ViewOk, ViewOf, Pinned, Feeding, LocksOk;
    ShapeFrame(s, s', t, n, p, c.table);
  }

  lemma KeepNames(s: State, s': State, t: Tid, n: string, p: Proc)
    requires Inv(s) && Shape(s, s', t, n, p)
    requires IsReserved(n) ==> s'.db == s.db && s'.heads == s.heads
    ensures forall m :: m in s'.heads ==> !IsReserved(m)
    ensures forall k {:trigger k in s'.db} :: k in s'.db ==> !IsReserved(TableOf(k))
  {
    hide IsReserved, TableOf, ViewOk, ViewOf, Pinned, Feeding, LocksOk;
    forall m | m in s'.heads ensures !IsReserved(m) {
      assert m != n ==> Lookup(s'.heads, m) == Lookup(s.heads, m);
    }
    forall k | k in s'.db ensures !IsReserved(TableOf(k)) {
      assert TableOf(k) != n ==> Lookup(s'.db, k) == Lookup(s.db, k);
    }
  }

  /** To keep the invariant it is enough to check the view of the table a step works on. */
  lemma Keep(s: State, s': State, t: Tid, n: string, p: Proc)
    requires Inv(s) && Shape(s, s', t, n, p) && LockOf(s', t) && s'.handles == s.handles
    requires IsReserved(n) ==> s'.db == s.db && s'.heads == s.heads && s'.consumers == s.consumers
    requires !IsReserved(n) ==> ViewOk(ViewOf(s', n), n, s'.nextSlot)
    requires forall h :: h in s'.handles && s'.handles[h].table == n ==> Pinned(ViewOf(s', n), s'.handles[h])
    requires forall c :: c in s'.consumers ==> c in s.consumers || c.table == n
    requires forall c :: c in s'.consumers && c.table == n ==> Feeding(ViewOf(s', n), c)
    ensures Inv(s')
  {
    hide IsReserved, TableOf, ViewOk, ViewOf, Pinned, Feeding, LocksOk, LockOf, Shape;
    assert LocksOk(s') by { ShapeLocks(s, s', t, n, p); }
    forall m {:trigger ViewOf(s', m)} | !IsReserved(m) ensures ViewOk(ViewOf(s', m), m, s'.nextSlot) {
      KeepViews(s, s', t, n, p, m);
    }
    forall h | h in s'.handles ensures Pinned(ViewOf(s', s'.handles[h].table), s'.handles[h]) {
      if s'.handles[h].table != n {
        KeepPins(s, s', t, n, p, h);
      }
    }
    forall c | c in s'.consumers ensures !IsReserved(c.table) && Feeding(ViewOf(s', c.table), c) {
      if c.table != n {
        KeepFeeds(s, s', t, n, p, c);
      }
    }
    KeepNames(s, s', t, n, p);
  }

  /** What the invariant says about the table thread `t` works on. */
  lemma Focus(s: State, t: Tid)
    requires Inv(s) && t in s.procs
    ensures LockOf(s, t)
    ensures !IsReserved(s.procs[t].table) ==> ViewOk(ViewOf(s, s.procs[t].table), s.procs[t].table, s.nextSlot)
    ensures InReload(s.procs[t]) || Opening(s.procs[t]) ==> !IsReserved(s.procs[t].table)
    ensures s.procs[t].table in s.heads ==> !IsReserved(s.procs[t].table)
  {
    hide IsReserved, TableOf, ViewOk, ViewOf, Pinned, Feeding;
  }

  /** A step inside a critical section (or outside both) that leaves the locks and the heads alone. */
  predicate Inside(s: State, s': State, t: Tid, p: Proc) {
    && t in s.procs && !s.procs[t].pc.Idle? && p.table == s.procs[t].table
    && s' == s.(procs := s.procs[t := p], db := s'.db, disk := s'.disk, through := s'.through, consumers := s'.consumers,
                nextGen := s'.nextGen, nextSlot := s'.nextSlot)
    && s.nextSlot <= s'.nextSlot
    && InLoad(p) == InLoad(s.procs[t]) && InReload(p) == InReload(s.procs[t])
    && (p.pc.ReloadLock? || p.pc.ReloadFind? ==> p.table in s.heads)
    && (Opening(p) ==> Loadable(p.table))
    && (p.pc.ReloadUnlink? || p.pc.ReloadLink? ==> !p.live)
    && (p.pc.LoadExit? && p.ok ==> p.table in s.heads)
  }

  lemma ShapeInside(s: State, s': State, t: Tid, p: Proc, key: string)
    requires Inside(s, s', t, p) && LockOf(s, t)
    requires ChangesOnly(s.db, s'.db, key) && TableOf(key) == p.table
    ensures Shape(s, s', t, p.table, p) && LockOf(s', t)
  {
    hide IsReserved, TableOf, Loadable, InLoad, InReload, Opening;
  }

  /** How such a step changes its own table's view. */
  lemma InsideView(s: State, s': State, t: Tid, p: Proc)
    requires Inside(s, s', t, p) && LocksOk(s) && LockOf(s, t)
    ensures ViewOf(s', p.table).head == ViewOf(s, p.table).head
    ensures InLoad(p) ==> ViewOf(s, p.table).loader == s.procs[t] && ViewOf(s', p.table).loader == p
    ensures !InLoad(p) ==> ViewOf(s', p.table).loader == ViewOf(s, p.table).loader
    ensures InReload(p) ==> ViewOf(s, p.table).reloader == s.procs[t] && ViewOf(s', p.table).reloader == p
    ensures !InReload(p) ==> ViewOf(s', p.table).reloader == ViewOf(s, p.table).reloader
  {
    hide IsReserved, TableOf, Loadable, InLoad, InReload, Opening;
  }

  /** The phases in which a thread accounts for an open key, a slot of its own or a retired one. */
  predicate Quiet(p: Proc) {
    !(p.pc.LoadRegister? || p.pc.ReloadSwap? || p.pc.ReloadStop? || p.pc.ReloadDrain?)
  }

  predicate HasKey(p: Proc) {
    p.pc.LoadBuild? || p.pc.LoadClose? || p.pc.ReloadBuild? || p.pc.ReloadAbortClose? || p.pc.ReloadClosePrev?
  }

  /** A step between quiet phases that keeps what the thread accounts for. */
  predicate QuietStep(s: State, p: Proc, p': Proc) {
    && Quiet(p) && Quiet(p')
    && (Opening(p') ==> p'.table !in s.heads)
    && (BeforeSwap(p') ==> p'.table in s.heads && p'.live == s.heads[p'.table].stagingIsLive)
    && (AfterSwap(p') ==> AfterSwap(p) && p'.live == p.live && p'.slot == p.slot)
  }

  /** One that may open or close the thread's key, which is open afterwards exactly if its new phase says so. */
  predicate KeyStep(s: State, s': State, p: Proc, p': Proc) {
    && (Opening(p) || BeforeSwap(p) || AfterSwap(p)) && p'.live == p.live
    && ChangesOnly(s.db, s'.db, KeyOf(p)) && (HasKey(p') <==> KeyOf(p) in s'.db)
  }

  lemma QuietView(s: State, s': State, t: Tid, p: Proc)
    requires Inside(s, s', t, p) && LocksOk(s) && LockOf(s, t)
    requires QuietStep(s, s.procs[t], p) && s'.db == s.db && HasKey(s.procs[t]) == HasKey(p)
    requires ViewOk(ViewOf(s, p.table), p.table, s.nextSlot)
    ensures ViewOk(ViewOf(s', p.table), p.table, s'.nextSlot)
  {
    hide IsReserved, TableOf, Loadable, LocksOk, LockOf, StagingKey;
    InsideView(s, s', t, p);
  }

  lemma KeyView(s: State, s': State, t: Tid, p: Proc)
    requires Inside(s, s', t, p) && LocksOk(s) && LockOf(s, t) && !IsReserved(p.table)
    requires QuietStep(s, s.procs[t], p) && KeyStep(s, s', s.procs[t], p)
    requires ViewOk(ViewOf(s, p.table), p.table, s.nextSlot)
    ensures ViewOk(ViewOf(s', p.table), p.table, s'.nextSlot)
  {
    hide IsReserved, TableOf, Loadable, LocksOk, LockOf, StagingKey;
    InsideView(s, s', t, p);
    KeyIsolation(p.table, p.table, true, false);
  }

  lemma QuietPins(s: State, s': State, t: Tid, p: Proc, slot: Slot)
    requires Inside(s, s', t, p) && LocksOk(s) && LockOf(s, t)
    requires Quiet(s.procs[t])
    ensures Pinned(ViewOf(s, p.table), slot) ==> Pinned(ViewOf(s', p.table), slot)
    ensures Feeding(ViewOf(s, p.table), slot) ==> Feeding(ViewOf(s', p.table), slot)
  {
    hide IsReserved, TableOf, Loadable, LocksOk, LockOf, StagingKey, InLoad, InReload, Opening;
    InsideView(s, s', t, p);
  }

  /** From a quiet phase, only the new view and a newly started consumer need checking. */
  lemma KeepQuiet(s: State, s': State, t: Tid, p: Proc, key: string)
    requires Inv(s) && Inside(s, s', t, p) && Quiet(s.procs[t])
    requires ChangesOnly(s.db, s'.db, key) && TableOf(key) == p.table
    requires s'.consumers == s.consumers || s'.consumers == s.consumers + {p.slot}
    requires s'.consumers != s.consumers ==> p.slot.table == p.table && Feeding(ViewOf(s', p.table), p.slot)
    requires IsReserved(p.table) ==> s'.db == s.db && s'.consumers == s.consumers
    requires !IsReserved(p.table) ==> ViewOk(ViewOf(s', p.table), p.table, s'.nextSlot)
    ensures Inv(s')
  {
    var n := p.table;
    Focus(s, t);
    ShapeInside(s, s', t, p, key);
    forall h | h in s'.handles && s'.handles[h].table == n ensures Pinned(ViewOf(s', n), s'.handles[h]) {
      QuietPins(s, s', t, p, s'.handles[h]);
      hide IsReserved, TableOf, ViewOk, ViewOf, Pinned, Feeding, LocksOk, LockOf, Shape, InLoad, InReload, Opening, Loadable;
    }
    forall c | c in s'.consumers && c.table == n ensures Feeding(ViewOf(s', n), c) {
      QuietPins(s, s', t, p, c);
      hide IsReserved, TableOf, ViewOk, ViewOf, Pinned, Feeding, LocksOk, LockOf, Shape, InLoad, InReload, Opening, Loadable;
    }
    hide IsReserved, TableOf, ViewOk, ViewOf, Pinned, Feeding, LocksOk, LockOf, Shape, InLoad, InReload, Opening, Loadable;
    Keep(s, s', t, n, p);
  }

  lemma KeyOfTable(p: Proc)
    requires !IsReserved(p.table)
    ensures TableOf(KeyOf(p)) == p.table
  {
    StagingKeyFacts(p.table);
  }

  lemma QuietInv(s: State, s': State, t: Tid, p: Proc)
    requires Inv(s) && Inside(s, s', t, p) && QuietStep(s, s.procs[t], p)
    requires s'.db == s.db && s'.consumers == s.consumers && HasKey(s.procs[t]) == HasKey(p)
    ensures Inv(s')
  {
    Focus(s, t);
    StagingKeyFacts(p.table);
    if !IsReserved(p.table) {
      QuietView(s, s', t, p);
    }
    hide IsReserved, ViewOk, ViewOf, Pinned, Feeding, LocksOk, LockOf, InLoad, InReload, Opening, Loadable, TableOf, StagingKey;
    KeepQuiet(s, s', t, p, StagingKey(p.table));
  }

  lemma KeyInv(s: State, s': State, t: Tid, p: Proc)
    requires Inv(s) && Inside(s, s', t, p) && QuietStep(s, s.procs[t], p)
    requires KeyStep(s, s', s.procs[t], p) && s'.consumers == s.consumers
    ensures Inv(s')
  {
    Focus(s, t);
    KeyOfTable(s.procs[t]);
    KeyView(s, s', t, p);
    hide IsReserved, ViewOk, ViewOf, Pinned, Feeding, LocksOk, LockOf, InLoad, InReload, Opening, Loadable, TableOf, StagingKey;
    KeepQuiet(s, s', t, p, KeyOf(s.procs[t]));
  }

  /** Building a slot over the key a thread has just opened. */
  predicate Built(s: State, s': State, p: Proc, p': Proc) {
    && ((p.pc.LoadBuild? && p'.pc.LoadRegister?) || (p.pc.ReloadBuild? && p'.pc.ReloadSwap?))
    && KeyOf(p) in s.db && p'.live == p.live && p'.slot == BuildSlot(s, p.table, KeyOf(p))
    && s'.db == s.db && s'.nextSlot == s.nextSlot + 1
    && (s'.consumers == s.consumers || s'.consumers == s.consumers + {p'.slot})
  }

  lemma BuiltView(s: State, s': State, t: Tid, p: Proc)
    requires Inside(s, s', t, p) && LocksOk(s) && LockOf(s, t) && !IsReserved(p.table)
    requires Built(s, s', s.procs[t], p)
    requires ViewOk(ViewOf(s, p.table), p.table, s.nextSlot)
    ensures ViewOk(ViewOf(s', p.table), p.table, s'.nextSlot) && Feeding(ViewOf(s', p.table), p.slot)
  {
    hide IsReserved, TableOf, Loadable, LocksOk, LockOf, StagingKey;
    InsideView(s, s', t, p);
    KeyIsolation(p.table, p.table, true, false);
  }

  lemma BuiltInv(s: State, s': State, t: Tid, p: Proc)
    requires Inv(s) && Inside(s, s', t, p) && Built(s, s', s.procs[t], p)
    ensures Inv(s')
  {
    Focus(s, t);
    KeyOfTable(s.procs[t]);
    BuiltView(s, s', t, p);
    hide IsReserved, ViewOk, ViewOf, Pinned, Feeding, LocksOk, LockOf, InLoad, InReload, Opening, Loadable, TableOf, StagingKey;
    KeepQuiet(s, s', t, p, KeyOf(s.procs[t]));
  }

  /** Stopping the retired slot's consumer, and seeing its last handle go. */
  predicate Retiring(s: State, s': State, t: Tid, p: Proc, p': Proc) {
    && s'.db == s.db && p'.live == p.live && p'.slot == p.slot && p'.retired == p.retired
    && s'.nextSlot == s.nextSlot
    && ((p.pc.ReloadStop? && p'.pc.ReloadDrain? && s'.consumers == s.consumers - {p.retired})
        || (p.pc.ReloadDrain? && p'.pc.ReloadClosePrev? && s'.consumers == s.consumers && Drained(s, t, p.retired)))
  }

  lemma RetiringView(s: State, s': State, t: Tid, p: Proc)
    requires Inside(s, s', t, p) && LocksOk(s) && LockOf(s, t)
    requires Retiring(s, s', t, s.procs[t], p)
    requires ViewOk(ViewOf(s, p.table), p.table, s.nextSlot)
    ensures ViewOk(ViewOf(s', p.table), p.table, s'.nextSlot)
  {
    hide IsReserved, TableOf, Loadable, LocksOk, LockOf, StagingKey, Drained;
    InsideView(s, s', t, p);
  }

  lemma RetiringPins(s: State, s': State, t: Tid, p: Proc, slot: Slot)
    requires Inside(s, s', t, p) && LocksOk(s) && LockOf(s, t)
    requires Retiring(s, s', t, s.procs[t], p)
    ensures Pinned(ViewOf(s, p.table), slot) && (p.pc.ReloadDrain? || slot != p.retired) ==> Pinned(ViewOf(s', p.table), slot)
    ensures Feeding(ViewOf(s, p.table), slot) && (p.pc.ReloadDrain? ==> slot != p.retired) ==> Feeding(ViewOf(s', p.table), slot)
  {
    hide IsReserved, TableOf, Loadable, LocksOk, LockOf, StagingKey, Drained, Opening;
    InsideView(s, s', t, p);
  }

  lemma RetiringInv(s: State, s': State, t: Tid, p: Proc)
    requires Inv(s) && Inside(s, s', t, p) && Retiring(s, s', t, s.procs[t], p)
    ensures Inv(s')
  {
    var n := p.table;
    Focus(s, t);
    StagingKeyFacts(n);
    ShapeInside(s, s', t, p, StagingKey(n));
    RetiringView(s, s', t, p);
    forall h | h in s'.handles && s'.handles[h].table == n ensures Pinned(ViewOf(s', n), s'.handles[h]) {
      RetiringPins(s, s', t, p, s'.handles[h]);
      hide IsReserved, TableOf, ViewOk, ViewOf, Pinned, Feeding, LocksOk, LockOf, Shape, InLoad, InReload, Opening, Loadable;
    }
    forall c | c in s'.consumers && c.table == n ensures Feeding(ViewOf(s', n), c) {
      RetiringPins(s, s', t, p, c);
      hide IsReserved, TableOf, ViewOk, ViewOf, Pinned, Feeding, LocksOk, LockOf, Shape, InLoad, InReload, Opening, Loadable;
    }
    hide IsReserved, TableOf, ViewOk, ViewOf, Pinned, Feeding, LocksOk, LockOf, Shape, InLoad, InReload, Opening, Loadable;
    Keep(s, s', t, n, p);
  }

  /** Publishing a slot: the first registration of a table, or the live swap. */
  predicate Publishing(s: State, s': State, p: Proc, p': Proc) {
    && p'.table == p.table && p'.slot == p.slot && p'.live == p.live
    && s'.db == s.db && s'.nextSlot == s.nextSlot && s'.consumers == s.consumers
    && s'.handles == s.handles && s'.loadMu == s.loadMu && s'.serial == s.serial
    && ((p.pc.LoadRegister? && p'.pc.LoadExit? && p.table !in s.heads
         && s'.heads == s.heads[p.table := Head(p.slot, false, 0)])
        || (p.pc.ReloadSwap? && p'.pc.ReloadStop? && p.table in s.heads
            && p'.retired == s.heads[p.table].slot
            && s'.heads == s.heads[p.table := Head(p.slot, !p.live, s.heads[p.table].swaps + 1)]))
  }

  lemma PublishingShape(s: State, s': State, t: Tid, p: Proc)
    requires t in s.procs && s'.procs == s.procs[t := p] && LockOf(s, t)
    requires Publishing(s, s', s.procs[t], p)
    ensures Shape(s, s', t, p.table, p) && LockOf(s', t)
  {
    hide IsReserved, TableOf, Loadable;
  }

  lemma PublishingView(s: State, s': State, t: Tid, p: Proc)
    requires t in s.procs && s'.procs == s.procs[t := p] && LocksOk(s) && LockOf(s, t)
    requires Publishing(s, s', s.procs[t], p)
    requires ViewOk(ViewOf(s, p.table), p.table, s.nextSlot)
    ensures ViewOk(ViewOf(s', p.table), p.table, s'.nextSlot)
  {
    hide IsReserved, TableOf, Loadable, LocksOk, StagingKey;
  }

  lemma PublishingPins(s: State, s': State, t: Tid, p: Proc, slot: Slot)
    requires t in s.procs && s'.procs == s.procs[t := p] && LocksOk(s) && LockOf(s, t)
    requires Publishing(s, s', s.procs[t], p)
    ensures Pinned(ViewOf(s, p.table), slot) ==> Pinned(ViewOf(s', p.table), slot)
    ensures ViewOk(ViewOf(s, p.table), p.table, s.nextSlot) && Feeding(ViewOf(s, p.table), slot) ==> Feeding(ViewOf(s', p.table), slot)
  {
    hide IsReserved, TableOf, Loadable, LocksOk, StagingKey, SlotOk;
  }

  lemma PublishingInv(s: State, s': State, t: Tid, p: Proc)
    requires Inv(s) && t in s.procs && s'.procs == s.procs[t := p]
    requires Publishing(s, s', s.procs[t], p)
    ensures Inv(s')
  {
    var n := p.table;
    Focus(s, t);
    PublishingShape(s, s', t, p);
    PublishingView(s, s', t, p);
    forall h | h in s'.handles && s'.handles[h].table == n ensures Pinned(ViewOf(s', n), s'.handles[h]) {
      PublishingPins(s, s', t, p, s'.handles[h]);
      hide IsReserved, TableOf, ViewOk, ViewOf, Pinned, Feeding, LocksOk, LockOf, Shape, InLoad, InReload, Opening, Loadable;
    }
    forall c | c in s'.consumers && c.table == n ensures Feeding(ViewOf(s', n), c) {
      PublishingPins(s, s', t, p, c);
      hide IsReserved, TableOf, ViewOk, ViewOf, Pinned, Feeding, LocksOk, LockOf, Shape, InLoad, InReload, Opening, Loadable;
    }
    hide IsReserved, TableOf, ViewOk, ViewOf, Pinned, Feeding, LocksOk, LockOf, Shape, InLoad, InReload, Opening, Loadable;
    Keep(s, s', t, n, p);
  }

  /** Taking or giving back `load_table_mu_` or a table's `reload_serial`. */
  predicate Locking(s: State, s': State, t: Tid, p: Proc, p': Proc) {
    && p'.table == p.table
    && s' == s.(procs := s.procs[t := p'], loadMu := s'.loadMu, serial := s'.serial)
    && ((p.pc.LoadLock? && p'.pc.LoadCheck? && s.loadMu.None? && s'.loadMu == Some(t) && s'.serial == s.serial)
        || (p.pc.LoadExit? && p'.pc.Done? && s'.loadMu == None && s'.serial == s.serial)
        || (p.pc.ReloadLock? && p'.pc.ReloadRead? && p.table !in s.serial && s'.loadMu == s.loadMu && s'.serial == s.serial[p.table := t])
        || (p.pc.ReloadExit? && p'.pc.Done? && s'.loadMu == s.loadMu && s'.serial == s.serial - {p.table}))
  }

  lemma LockingShape(s: State, s': State, t: Tid, p: Proc)
    requires t in s.procs && LockOf(s, t) && Locking(s, s', t, s.procs[t], p)
    ensures Shape(s, s', t, p.table, p) && LockOf(s', t)
  {
    hide IsReserved, TableOf, Loadable;
  }

  lemma LockingView(s: State, s': State, t: Tid, p: Proc)
    requires t in s.procs && LocksOk(s) && LockOf(s, t) && Locking(s, s', t, s.procs[t], p)
    requires ViewOk(ViewOf(s, p.table), p.table, s.nextSlot)
    ensures ViewOk(ViewOf(s', p.table), p.table, s'.nextSlot)
  {
    hide IsReserved, TableOf, Loadable, LocksOk, StagingKey;
  }

  lemma LockingPins(s: State, s': State, t: Tid, p: Proc, slot: Slot)
    requires t in s.procs && LocksOk(s) && LockOf(s, t) && Locking(s, s', t, s.procs[t], p)
    ensures Pinned(ViewOf(s, p.table), slot) ==> Pinned(ViewOf(s', p.table), slot)
    ensures Feeding(ViewOf(s, p.table), slot) ==> Feeding(ViewOf(s', p.table), slot)
  {
    hide IsReserved, TableOf, Loadable, LocksOk, StagingKey, SlotOk;
  }

  lemma LockingInv(s: State, s': State, t: Tid, p: Proc)
    requires Inv(s) && t in s.procs && Locking(s, s', t, s.procs[t], p)
    ensures Inv(s')
  {
    var n := p.table;
    Focus(s, t);
    LockingShape(s, s', t, p);
    if !IsReserved(n) {
      LockingView(s, s', t, p);
    }
    forall h | h in s'.handles && s'.handles[h].table == n ensures Pinned(ViewOf(s', n), s'.handles[h]) {
      LockingPins(s, s', t, p, s'.handles[h]);
      hide IsReserved, TableOf, ViewOk, ViewOf, Pinned, Feeding, LocksOk, LockOf, Shape, InLoad, InReload, Opening, Loadable;
    }
    forall c | c in s'.consumers && c.table == n ensures Feeding(ViewOf(s', n), c) {
      LockingPins(s, s', t, p, c);
      hide IsReserved, TableOf, ViewOk, ViewOf, Pinned, Feeding, LocksOk, LockOf, Shape, InLoad, InReload, Opening, Loadable;
    }
    hide IsReserved, TableOf, ViewOk, ViewOf, Pinned, Feeding, LocksOk, LockOf, Shape, InLoad, InReload, Opening, Loadable;
    Keep(s, s', t, n, p);
  }

  predicate Phase(s: State, p: Proc) {
    && (Opening(p) ==> p.table !in s.heads)
    && (BeforeSwap(p) || AfterSwap(p) ==> p.table in s.heads && (p.live == s.heads[p.table].stagingIsLive <==> BeforeSwap(p)))
    && (Opening(p) || BeforeSwap(p) || AfterSwap(p) ==> (KeyOf(p) in s.db <==> HasKey(p) || !Quiet(p)))
  }

  /** In its critical section a thread's key is open exactly in the phases that account for it, and
      the live flag it read is the head's until its own swap. */
  lemma PhaseFacts(s: State, t: Tid)
    requires Inv(s) && t in s.procs
    ensures LockOf(s, t) && Phase(s, s.procs[t])
  {
    var p := s.procs[t];
    Focus(s, t);
    if InLoad(p) || InReload(p) {
      var v := ViewOf(s, p.table);
      assert InLoad(p) ==> v.loader == p;
      assert InReload(p) ==> v.reloader == p;
    }
    hide IsReserved, TableOf, Inv, LocksOk, Loadable, StagingKey;
  }

  /** A move that changes no shared state but the file system. */
  predicate CanMove(s: State, p: Proc, p': Proc) {
    && !p.pc.Idle? && p'.table == p.table && QuietStep(s, p, p') && HasKey(p) == HasKey(p')
    && InLoad(p') == InLoad(p) && InReload(p') == InReload(p)
    && (p'.pc.ReloadLock? || p'.pc.ReloadFind? ==> p'.table in s.heads)
    && (Opening(p') ==> Loadable(p'.table))
    && (p'.pc.ReloadUnlink? || p'.pc.ReloadLink? ==> !p'.live)
    && (p'.pc.LoadExit? && p'.ok ==> p'.table in s.heads)
  }

  predicate CanUseKey(s: State, p: Proc, p': Proc) {
    && !p.pc.Idle? && p'.table == p.table && QuietStep(s, p, p') && p'.live == p.live
    && (Opening(p) || BeforeSwap(p) || AfterSwap(p))
    && InLoad(p') == InLoad(p) && InReload(p') == InReload(p)
    && (p'.pc.ReloadLock? || p'.pc.ReloadFind? ==> p'.table in s.heads)
    && (Opening(p') ==> Loadable(p'.table))
    && (p'.pc.ReloadUnlink? || p'.pc.ReloadLink? ==> !p'.live)
    && (p'.pc.LoadExit? && p'.ok ==> p'.table in s.heads)
  }

  lemma MoveInv(s: State, t: Tid, p: Proc, d: State)
    requires Inv(s) && t in s.procs && CanMove(s, s.procs[t], p)
    ensures Inv(s.(procs := s.procs[t := p], disk := d.disk, through := d.through))
  {
    hide Inv, IsReserved, TableOf, Loadable, StagingKey, LiveKey, LocksOk, Drained, QuietStep, HasKey, InLoad, InReload;
    QuietInv(s, s.(procs := s.procs[t := p], disk := d.disk, through := d.through), t, p);
  }

  lemma CloseKeyInv(s: State, t: Tid, p: Proc)
    requires Inv(s) && t in s.procs && CanUseKey(s, s.procs[t], p) && !HasKey(p)
    ensures Inv(Goto(CloseIndex(s, KeyOf(s.procs[t])), t, p))
  {
    hide Inv, IsReserved, TableOf, Loadable, StagingKey, LiveKey, LocksOk, Drained, QuietStep, HasKey, InLoad, InReload, Opening, BeforeSwap, AfterSwap, KeyOf;
    KeyInv(s, Goto(CloseIndex(s, KeyOf(s.procs[t])), t, p), t, p);
  }

  lemma OpenKeyInv(s: State, t: Tid, p: Proc)
    requires Inv(s) && t in s.procs && CanUseKey(s, s.procs[t], p) && HasKey(p)
    requires CanOpen(s, KeyOf(s.procs[t])) && KeyOf(s.procs[t]) !in s.db
    ensures Inv(Goto(OpenIndex(s, KeyOf(s.procs[t])), t, p))
  {
    hide Inv, IsReserved, TableOf, Loadable, StagingKey, LiveKey, LocksOk, Drained, QuietStep, HasKey, InLoad, InReload, Opening, BeforeSwap, AfterSwap, KeyOf;
    KeyInv(s, Goto(OpenIndex(s, KeyOf(s.procs[t])), t, p), t, p);
  }

  lemma BuildInv(s: State, t: Tid, p: Proc, kafka: bool)
    requires Inv(s) && t in s.procs && KeyOf(s.procs[t]) in s.db
    requires s.procs[t].pc.LoadBuild? || s.procs[t].pc.ReloadBuild?
    requires var q, slot := s.procs[t], BuildSlot(s, s.procs[t].table, KeyOf(s.procs[t]));
      p == q.(pc := if q.pc.LoadBuild? then LoadRegister else ReloadSwap, slot := slot)
    ensures Inv(Goto(WithSlot(s, p.slot, kafka), t, p))
  {
    hide Inv, IsReserved, TableOf, Loadable, StagingKey, LiveKey, LocksOk, Drained;
    Focus(s, t);
    BuiltInv(s, Goto(WithSlot(s, p.slot, kafka), t, p), t, p);
  }

  /** Until its own swap a reload's live flag is the head's. */
  lemma LiveFacts(s: State, t: Tid)
    requires Inv(s) && t in s.procs
    ensures s.procs[t].pc.ReloadUnlink? || s.procs[t].pc.ReloadLink? ==> !s.procs[t].live
    ensures BeforeSwap(s.procs[t]) ==> s.procs[t].table in s.heads && s.procs[t].live == s.heads[s.procs[t].table].stagingIsLive
  {
    PhaseFacts(s, t);
  }

  lemma LoadCheckInv(s: State, t: Tid, p: Proc)
    requires Inv(s) && t in s.procs && s.procs[t] == p && p.pc.LoadCheck?
    ensures Inv(LoadCheckStep(s, t, p))
  {
    hide Inv, IsReserved, TableOf, Loadable, StagingKey, LiveKey, LocksOk, Drained;
    if !Loadable(p.table) {
      MoveInv(s, t, p.(pc := LoadExit, ok := false), s);
    } else if p.table in s.heads {
      MoveInv(s, t, p.(pc := LoadExit, ok := true), s);
    } else {
      MoveInv(s, t, p.(pc := LoadOpen), s);
    }
  }

  lemma LoadOpenInv(s: State, t: Tid, p: Proc, ok: bool)
    requires Inv(s) && t in s.procs && s.procs[t] == p && p.pc.LoadOpen? && (ok ==> CanOpen(s, p.table))
    ensures Inv(LoadOpenStep(s, t, p, ok))
  {
    hide Inv, IsReserved, TableOf, Loadable, StagingKey, LiveKey, LocksOk, Drained;
    PhaseFacts(s, t);
    if ok {
      OpenKeyInv(s, t, p.(pc := LoadBuild));
    } else {
      MoveInv(s, t, p.(pc := LoadExit, ok := false), s);
    }
  }

  lemma LoadBuildInv(s: State, t: Tid, p: Proc, ok: bool, kafka: bool)
    requires Inv(s) && t in s.procs && s.procs[t] == p && p.pc.LoadBuild? && (ok ==> p.table in s.db)
    ensures Inv(LoadBuildStep(s, t, p, ok, kafka))
  {
    hide Inv, IsReserved, TableOf, Loadable, StagingKey, LiveKey, LocksOk, Drained;
    PhaseFacts(s, t);
    if ok {
      BuildInv(s, t, p.(pc := LoadRegister, slot := BuildSlot(s, p.table, p.table)), kafka);
    } else {
      MoveInv(s, t, p.(pc := LoadClose), s);
    }
  }

  lemma LoadCloseInv(s: State, t: Tid, p: Proc)
    requires Inv(s) && t in s.procs && s.procs[t] == p && p.pc.LoadClose?
    ensures Inv(Goto(CloseIndex(s, p.table), t, p.(pc := LoadExit, ok := false)))
  {
    hide Inv, IsReserved, TableOf, Loadable, StagingKey, LiveKey, LocksOk, Drained;
    PhaseFacts(s, t);
    CloseKeyInv(s, t, p.(pc := LoadExit, ok := false));
  }

  lemma LoadRegisterInv(s: State, t: Tid, p: Proc)
    requires Inv(s) && t in s.procs && s.procs[t] == p && p.pc.LoadRegister?
    ensures Inv(LoadRegisterStep(s, t, p))
  {
    hide Inv, IsReserved, TableOf, Loadable, StagingKey, LiveKey, LocksOk, Drained;
    PhaseFacts(s, t);
    PublishingInv(s, LoadRegisterStep(s, t, p), t, p.(pc := LoadExit, ok := true));
  }

  lemma ReloadCheckInv(s: State, t: Tid, p: Proc)
    requires Inv(s) && t in s.procs && s.procs[t] == p && p.pc.ReloadCheck?
    ensures Inv(ReloadCheckStep(s, t, p))
  {
    hide Inv, IsReserved, TableOf, Loadable, StagingKey, LiveKey, LocksOk, Drained;
    if p.table in s.heads {
      MoveInv(s, t, p.(pc := ReloadFind), s);
    } else if IsReserved(p.table) {
      MoveInv(s, t, p.(pc := Done, ok := false), s);
    } else {
      MoveInv(s, t, p.(pc := ReloadDir), s);
    }
  }

  lemma ReloadDirInv(s: State, t: Tid, p: Proc, ok: bool)
    requires Inv(s) && t in s.procs && s.procs[t] == p && p.pc.ReloadDir?
    ensures Inv(Goto(s, t, if ok then p.(pc := LoadLock) else p.(pc := Done, ok := false)))
  {
    hide Inv, IsReserved, TableOf, Loadable, StagingKey, LiveKey, LocksOk, Drained;
    if ok {
      MoveInv(s, t, p.(pc := LoadLock), s);
    } else {
      MoveInv(s, t, p.(pc := Done, ok := false), s);
    }
  }

  lemma ReloadFindInv(s: State, t: Tid, p: Proc)
    requires Inv(s) && t in s.procs && s.procs[t] == p && p.pc.ReloadFind?
    ensures Inv(Goto(s, t, if p.table in s.heads then p.(pc := ReloadLock) else p.(pc := Done, ok := false)))
  {
    hide Inv, IsReserved, TableOf, Loadable, StagingKey, LiveKey, LocksOk, Drained;
    if p.table in s.heads {
      MoveInv(s, t, p.(pc := ReloadLock), s);
    } else {
      MoveInv(s, t, p.(pc := Done, ok := false), s);
    }
  }

  lemma ReloadReadInv(s: State, t: Tid, p: Proc)
    requires Inv(s) && t in s.procs && s.procs[t] == p && p.pc.ReloadRead? && p.table in s.heads
    ensures Inv(Goto(s, t, p.(pc := ReloadCanon, live := s.heads[p.table].stagingIsLive)))
  {
    hide Inv, IsReserved, TableOf, Loadable, StagingKey, LiveKey, LocksOk, Drained;
    MoveInv(s, t, p.(pc := ReloadCanon, live := s.heads[p.table].stagingIsLive), s);
  }

  lemma ReloadCanonInv(s: State, t: Tid, p: Proc, ok: bool)
    requires Inv(s) && t in s.procs && s.procs[t] == p && p.pc.ReloadCanon?
    ensures Inv(ReloadCanonStep(s, t, p, ok))
  {
    hide Inv, IsReserved, TableOf, Loadable, StagingKey, LocksOk, Drained, KeyOf;
    LiveFacts(s, t);
    if !ok {
      MoveInv(s, t, p.(pc := ReloadExit, ok := false), s);
    } else if NextKey(p) != p.table {
      MoveInv(s, t, p.(pc := ReloadUnlink, cfg := Resolve(s, p.table)), s);
    } else {
      MoveInv(s, t, p.(pc := ReloadClose, cfg := Resolve(s, p.table)), s);
    }
  }

  lemma ReloadUnlinkInv(s: State, t: Tid, p: Proc)
    requires Inv(s) && t in s.procs && s.procs[t] == p && p.pc.ReloadUnlink?
    ensures Inv(Goto(Unlink(s, NextKey(p)), t, p.(pc := ReloadLink)))
  {
    hide Inv, IsReserved, TableOf, Loadable, StagingKey, LiveKey, LocksOk, Drained, KeyOf;
    LiveFacts(s, t);
    MoveInv(s, t, p.(pc := ReloadLink), Unlink(s, NextKey(p)));
  }

  lemma ReloadLinkInv(s: State, t: Tid, p: Proc, ok: bool)
    requires Inv(s) && t in s.procs && s.procs[t] == p && p.pc.ReloadLink?
    ensures Inv(ReloadLinkStep(s, t, p, ok))
  {
    hide Inv, IsReserved, TableOf, Loadable, StagingKey, LiveKey, LocksOk, Drained, KeyOf;
    LiveFacts(s, t);
    if ok {
      MoveInv(s, t, p.(pc := ReloadClose), LinkTo(s, NextKey(p), p.cfg));
    } else {
      MoveInv(s, t, p.(pc := ReloadExit, ok := false), s);
    }
  }

  lemma ReloadCloseInv(s: State, t: Tid, p: Proc)
    requires Inv(s) && t in s.procs && s.procs[t] == p && p.pc.ReloadClose?
    ensures Inv(Goto(CloseIndex(s, NextKey(p)), t, p.(pc := ReloadOpen)))
  {
    hide Inv, IsReserved, TableOf, Loadable, StagingKey, LiveKey, LocksOk, Drained;
    PhaseFacts(s, t);
    CloseKeyInv(s, t, p.(pc := ReloadOpen));
  }

  lemma ReloadOpenInv(s: State, t: Tid, p: Proc, ok: bool)
    requires Inv(s) && t in s.procs && s.procs[t] == p && p.pc.ReloadOpen? && (ok ==> CanOpen(s, NextKey(p)))
    ensures Inv(ReloadOpenStep(s, t, p, ok))
  {
    hide Inv, IsReserved, TableOf, Loadable, StagingKey, LiveKey, LocksOk, Drained;
    PhaseFacts(s, t);
    if ok {
      OpenKeyInv(s, t, p.(pc := ReloadBuild));
    } else {
      MoveInv(s, t, p.(pc := ReloadAbortUnlink), s);
    }
  }

  lemma ReloadBuildInv(s: State, t: Tid, p: Proc, ok: bool, kafka: bool)
    requires Inv(s) && t in s.procs && s.procs[t] == p && p.pc.ReloadBuild? && (ok ==> NextKey(p) in s.db)
    ensures Inv(ReloadBuildStep(s, t, p, ok, kafka))
  {
    hide Inv, IsReserved, TableOf, Loadable, StagingKey, LiveKey, LocksOk, Drained;
    PhaseFacts(s, t);
    if ok {
      BuildInv(s, t, p.(pc := ReloadSwap, slot := BuildSlot(s, p.table, NextKey(p))), kafka);
    } else {
      MoveInv(s, t, p.(pc := ReloadAbortClose), s);
    }
  }

  lemma ReloadAbortCloseInv(s: State, t: Tid, p: Proc)
    requires Inv(s) && t in s.procs && s.procs[t] == p && p.pc.ReloadAbortClose?
    ensures Inv(Goto(CloseIndex(s, NextKey(p)), t, p.(pc := ReloadAbortUnlink)))
  {
    hide Inv, IsReserved, TableOf, Loadable, StagingKey, LiveKey, LocksOk, Drained;
    PhaseFacts(s, t);
    CloseKeyInv(s, t, p.(pc := ReloadAbortUnlink));
  }

  lemma ReloadAbortUnlinkInv(s: State, t: Tid, p: Proc)
    requires Inv(s) && t in s.procs && s.procs[t] == p && p.pc.ReloadAbortUnlink?
    ensures Inv(Goto(UnlinkStaging(s, p.table, NextKey(p)), t, p.(pc := ReloadExit, ok := false)))
  {
    hide Inv, IsReserved, TableOf, Loadable, StagingKey, LiveKey, LocksOk, Drained, KeyOf;
    LiveFacts(s, t);
    MoveInv(s, t, p.(pc := ReloadExit, ok := false), UnlinkStaging(s, p.table, NextKey(p)));
  }

  lemma ReloadSwapInv(s: State, t: Tid, p: Proc)
    requires Inv(s) && t in s.procs && s.procs[t] == p && p.pc.ReloadSwap? && p.table in s.heads
    ensures Inv(ReloadSwapStep(s, t, p))
  {
    hide Inv, IsReserved, TableOf, Loadable, StagingKey, LiveKey, LocksOk, Drained;
    PublishingInv(s, ReloadSwapStep(s, t, p), t, p.(pc := ReloadStop, retired := s.heads[p.table].slot));
  }

  lemma ReloadStopInv(s: State, t: Tid, p: Proc)
    requires Inv(s) && t in s.procs && s.procs[t] == p && p.pc.ReloadStop?
    ensures Inv(Goto(s.(consumers := s.consumers - {p.retired}), t, p.(pc := ReloadDrain)))
  {
    hide Inv, IsReserved, TableOf, Loadable, StagingKey, LiveKey, LocksOk, Drained;
    RetiringInv(s, Goto(s.(consumers := s.consumers - {p.retired}), t, p.(pc := ReloadDrain)), t, p.(pc := ReloadDrain));
  }

  lemma ReloadDrainInv(s: State, t: Tid, p: Proc)
    requires Inv(s) && t in s.procs && s.procs[t] == p && p.pc.ReloadDrain? && Drained(s, t, p.retired)
    ensures Inv(Goto(s, t, p.(pc := ReloadClosePrev)))
  {
    hide Inv, IsReserved, TableOf, Loadable, StagingKey, LiveKey, LocksOk, Drained;
    RetiringInv(s, Goto(s, t, p.(pc := ReloadClosePrev)), t, p.(pc := ReloadClosePrev));
  }

  lemma ReloadClosePrevInv(s: State, t: Tid, p: Proc)
    requires Inv(s) && t in s.procs && s.procs[t] == p && p.pc.ReloadClosePrev?
    ensures Inv(Goto(CloseIndex(s, PrevKey(p)), t, p.(pc := ReloadUnlinkPrev)))
  {
    hide Inv, IsReserved, TableOf, Loadable, StagingKey, LiveKey, LocksOk, Drained;
    PhaseFacts(s, t);
    CloseKeyInv(s, t, p.(pc := ReloadUnlinkPrev));
  }

  lemma ReloadUnlinkPrevInv(s: State, t: Tid, p: Proc)
    requires Inv(s) && t in s.procs && s.procs[t] == p && p.pc.ReloadUnlinkPrev?
    ensures Inv(Goto(UnlinkStaging(s, p.table, PrevKey(p)), t, p.(pc := ReloadExit, ok := true)))
  {
    hide Inv, IsReserved, TableOf, Loadable, StagingKey, LiveKey, LocksOk, Drained, KeyOf;
    MoveInv(s, t, p.(pc := ReloadExit, ok := true), UnlinkStaging(s, p.table, PrevKey(p)));
  }

  lemma LockStepInv(s: State, t: Tid, p: Proc, ok: bool, kafka: bool)
    requires Inv(s) && t in s.procs && s.procs[t] == p && StepEnabled(s, t, p, ok)
    requires p.pc.LoadLock? || p.pc.LoadExit? || p.pc.ReloadLock? || p.pc.ReloadExit?
    ensures Inv(StepOf(s, t, p, ok, kafka))
  {
    hide Effect, Inv, IsReserved, TableOf, Loadable, StagingKey, LiveKey, LocksOk, Drained;
    var s' := StepOf(s, t, p, ok, kafka);
    LockingInv(s, s', t, s'.procs[t]);
  }

  lemma StepInv(s: State, t: Tid, p: Proc, ok: bool, kafka: bool)
    requires Inv(s) && t in s.procs && s.procs[t] == p && StepEnabled(s, t, p, ok)
    ensures Inv(StepOf(s, t, p, ok, kafka))
  {
    hide Inv, IsReserved, TableOf, Loadable, StagingKey, LiveKey, LocksOk, Drained, ProcOf, LoadCheckStep, LoadOpenStep,
      LoadBuildStep, LoadRegisterStep, ReloadCheckStep, ReloadCanonStep, ReloadLinkStep, ReloadOpenStep, ReloadBuildStep,
      ReloadSwapStep, UnlinkStaging, CloseIndex, Unlink, Goto, CanOpen, NextKey, PrevKey, Effect;
    match p.pc {
      case LoadCheck => LoadCheckInv(s, t, p);
      case LoadOpen => LoadOpenInv(s, t, p, ok);
      case LoadBuild => LoadBuildInv(s, t, p, ok, kafka);
      case LoadClose => LoadCloseInv(s, t, p);
      case LoadRegister => LoadRegisterInv(s, t, p);
      case ReloadCheck => ReloadCheckInv(s, t, p);
      case ReloadDir => ReloadDirInv(s, t, p, ok);
      case ReloadFind => ReloadFindInv(s, t, p);
      case ReloadRead => ReloadReadInv(s, t, p);
      case ReloadCanon => ReloadCanonInv(s, t, p, ok);
      case ReloadUnlink => ReloadUnlinkInv(s, t, p);
      case ReloadLink => ReloadLinkInv(s, t, p, ok);
      case ReloadClose => ReloadCloseInv(s, t, p);
      case ReloadOpen => ReloadOpenInv(s, t, p, ok);
      case ReloadBuild => ReloadBuildInv(s, t, p, ok, kafka);
      case ReloadAbortClose => ReloadAbortCloseInv(s, t, p);
      case ReloadAbortUnlink => ReloadAbortUnlinkInv(s, t, p);
      case ReloadSwap => ReloadSwapInv(s, t, p);
      case ReloadStop => ReloadStopInv(s, t, p);
      case ReloadDrain => ReloadDrainInv(s, t, p);
      case ReloadClosePrev => ReloadClosePrevInv(s, t, p);
      case ReloadUnlinkPrev => ReloadUnlinkPrevInv(s, t, p);
      case _ => LockStepInv(s, t, p, ok, kafka);
    }
  }

  // ─── Every action keeps the invariant ──────────────────────────────────────

  /** States that agree on everything but the handles and the file system. */
  predicate SameTables(s: State, s': State) {
    s' == s.(handles := s'.handles, disk := s'.disk, through := s'.through)
  }

  lemma SameTablesInv(s: State, s': State)
    requires Inv(s) && SameTables(s, s')
    requires forall h :: h in s'.handles ==> Pinned(ViewOf(s, s'.handles[h].table), s'.handles[h])
    ensures Inv(s')
  {
    assert forall n {:trigger ViewOf(s', n)} :: ViewOf(s', n) == ViewOf(s, n) by {
      hide Inv, IsReserved, TableOf, StagingKey;
    }
    assert LocksOk(s') by {
      assert LocksOk(s);
      hide IsReserved, TableOf, ViewOk, ViewOf, Pinned, Feeding, InLoad, InReload, Opening, Loadable;
    }
    hide IsReserved, TableOf, ViewOk, ViewOf, Pinned, Feeding, LocksOk;
  }

  lemma StartViews(s: State, t: Tid, p: Proc, n: string)
    requires LocksOk(s) && (ProcOf(s, t).pc.Idle? || ProcOf(s, t).pc.Done?)
    ensures ViewOf(Goto(s, t, p), n) == ViewOf(s, n)
  {
    hide IsReserved, TableOf, StagingKey, Loadable, LockOf;
  }

  lemma StartLock(s: State, t: Tid, p: Proc, u: Tid)
    requires u in s.procs && u != t && LockOf(s, u)
    ensures LockOf(Goto(s, t, p), u)
  {
    hide Loadable, InLoad, InReload, Opening;
  }

  lemma StartLocks(s: State, t: Tid, p: Proc)
    requires LocksOk(s) && (ProcOf(s, t).pc.Idle? || ProcOf(s, t).pc.Done?)
    requires p.pc.LoadLock? || p.pc.ReloadCheck?
    ensures LocksOk(Goto(s, t, p))
  {
    hide LockOf;
    var s' := Goto(s, t, p);
    assert s.loadMu != Some(t) && Lookup(s.serial, p.table) != Some(t);
    assert LockOf(s', t) by {
      StartOwnLock(s, t, p);
    }
    forall u | u in s'.procs ensures LockOf(s', u) {
      if u != t {
        StartLock(s, t, p, u);
      }
    }
  }

  lemma StartOwnLock(s: State, t: Tid, p: Proc)
    requires s.loadMu != Some(t) && Lookup(s.serial, p.table) != Some(t)
    requires p.pc.LoadLock? || p.pc.ReloadCheck?
    ensures LockOf(Goto(s, t, p), t)
  {
  }

  lemma StartInv(s: State, t: Tid, p: Proc)
    requires Inv(s) && (ProcOf(s, t).pc.Idle? || ProcOf(s, t).pc.Done?)
    requires p.pc.LoadLock? || p.pc.ReloadCheck?
    ensures Inv(Goto(s, t, p))
  {
    hide IsReserved, TableOf, ViewOk, ViewOf, Pinned, Feeding, LocksOk;
    StartLocks(s, t, p);
    forall n {:trigger ViewOf(Goto(s, t, p), n)} ensures ViewOf(Goto(s, t, p), n) == ViewOf(s, n) {
      StartViews(s, t, p, n);
    }
  }

  lemma LiveIsPinned(s: State, n: string)
    requires Inv(s) && n in s.heads
    ensures s.heads[n].slot.table == n && Pinned(ViewOf(s, n), s.heads[n].slot)
  {
    var v := ViewOf(s, n);
    hide LocksOk, IsReserved, TableOf, Loadable, StagingKey;
  }

  /** Every action of every thread, RPC and deployment tool keeps the invariant. */
  lemma ActionInv(s: State, a: Action)
    requires Inv(s) && Enabled(s, a)
    ensures Inv(Apply(s, a))
  {
    hide IsReserved, TableOf, ViewOk, ViewOf, Pinned, Feeding, LocksOk, StepEnabled, StepOf;
    match a {
      case StartLoad(t, n) => StartInv(s, t, IDLE.(pc := LoadLock, table := n));
      case StartReload(t, n) => StartInv(s, t, IDLE.(pc := ReloadCheck, table := n));
      case Step(t, ok, kafka) => StepInv(s, t, s.procs[t], ok, kafka);
      case Acquire(h, n) =>
        if n in s.heads {
          LiveIsPinned(s, n);
        }
        SameTablesInv(s, Apply(s, a));
      case _ => SameTablesInv(s, Apply(s, a));
    }
  }
}
