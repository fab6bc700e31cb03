/**
 Tables whose members are numbers, strings, vectors of numbers and vectors of
 strings, as the messages of the RPC protocol are: built by commands, read by the
 accessors of the generated code, member by member.
 */
module FlatRecords {
  import opened Wrappers
  import opened Bits
  import opened Seqs
  import opened FlatReader
  import opened FlatBuilder
  import opened FlatRoundTrip
  import opened FlatInvariant
  import opened FlatTheorems

  /** A member and its value; `None` is an offset that is not set. */
  datatype Member =
    | Num(id: nat, w: nat, v: nat)
    | Str(id: nat, s: Option<seq<byte>>)
    | Nums(id: nat, w: nat, vs: Option<seq<nat>>)
    | Strs(id: nat, ss: Option<seq<seq<byte>>>)

  // ─── Reading ───────────────────────────────────────────────────────────────

  /** `String`: its length and that many bytes. */
  function ReadString(data: seq<byte>, p: int): (r: Option<seq<byte>>) {
    match Load(data, p, 4)
    case None => None
    case Some(n) => if p + 4 + n <= |data| then Some(data[p + 4..p + 4 + n]) else None
  }

  /** The first `n` scalars of width `w` from `p` on. */
  function ReadElements(data: seq<byte>, p: int, w: nat, n: nat): (r: Option<seq<nat>>) {
    if n == 0 then Some([])
    else match (ReadElements(data, p, w, n - 1), Load(data, p + w * (n - 1), w))
      case (Some(xs), Some(x)) => Some(xs + [x])
      case _ => None
  }

  /** `Vector<T>` of scalars. */
  function ReadNumbers(data: seq<byte>, p: int, w: nat): (r: Option<seq<nat>>) {
    match Load(data, p, 4)
    case None => None
    case Some(n) => ReadElements(data, p + 4, w, n)
  }

  /** The targets of the first `n` offsets from `p` on. */
  function ReadTargets(data: seq<byte>, p: int, n: nat): (r: Option<seq<int>>) {
    if n == 0 then Some([])
    else match (ReadTargets(data, p, n - 1), Follow(data, p + 4 * (n - 1)))
      case (Some(xs), To(x)) => Some(xs + [x])
      case _ => None
  }

  /** `Vector<Offset<T>>`: where its elements are. */
  function ReadOffsets(data: seq<byte>, p: int): (r: Option<seq<int>>) {
    match Load(data, p, 4)
    case None => None
    case Some(n) => ReadTargets(data, p + 4, n)
  }

  function ReadStringsAt(data: seq<byte>, ps: seq<int>): (r: Option<seq<seq<byte>>>) {
    if ps == [] then Some([])
    else match (ReadStringsAt(data, ps[..|ps| - 1]), ReadString(data, ps[|ps| - 1]))
      case (Some(ss), Some(s)) => Some(ss + [s])
      case _ => None
  }

  function ReadStrings(data: seq<byte>, p: int): (r: Option<seq<seq<byte>>>) {
    match ReadOffsets(data, p)
    case None => None
    case Some(ps) => ReadStringsAt(data, ps)
  }

  /** The value a reader finds for the member, given its kind: `None` is an undefined read. */
  predicate MemberReads(data: seq<byte>, table: int, m: Member) {
    match m
    case Num(id, w, v) => GetField(data, table, id, w, 0) == Some(v)
    case Str(id, None) => GetPointer(data, table, id) == Null
    case Str(id, Some(s)) => var p := GetPointer(data, table, id); p.To? && ReadString(data, p.position) == Some(s)
    case Nums(id, _, None) => GetPointer(data, table, id) == Null
    case Nums(id, w, Some(vs)) => var p := GetPointer(data, table, id); p.To? && ReadNumbers(data, p.position, w) == Some(vs)
    case Strs(id, None) => GetPointer(data, table, id) == Null
    case Strs(id, Some(ss)) => var p := GetPointer(data, table, id); p.To? && ReadStrings(data, p.position) == Some(ss)
  }

  // ─── What the objects of a catalog read as ─────────────────────────────────

  lemma StringAt(data: seq<byte>, off: nat, s: seq<byte>, offs: seq<nat>, m: nat)
    requires Reads(data, off, Text(s), offs, m)
    ensures ReadString(data, |data| - off) == Some(s)
  {
    hide Load, Sits;
    var p, n := |data| - off, |s|;
    var t := s + [0];
    assert data[p + 4..p + 4 + |t|] == t;
    assert data[p + 4..p + 4 + n] == data[p + 4..p + 4 + |t|][..n];
    assert t[..n] == s;
  }

  lemma {:induction false} ElementsAt(data: seq<byte>, off: nat, w: nat, vs: seq<nat>, offs: seq<nat>, m: nat, n: nat)
    requires 4 <= off <= |data| && n <= |vs|
    requires forall i :: 0 <= i < |vs| ==> w * i <= off - 4 && Holds(data, off - 4 - w * i, Scalar(w, vs[i]), offs, m)
    ensures ReadElements(data, |data| - off + 4, w, n) == Some(vs[..n])
  {
    hide Load, Sits;
    if n > 0 {
      ElementsAt(data, off, w, vs, offs, m, n - 1);
      assert Holds(data, off - 4 - w * (n - 1), Scalar(w, vs[n - 1]), offs, m);
      assert vs[..n] == vs[..n - 1] + [vs[n - 1]];
    }
  }

  lemma NumbersAt(data: seq<byte>, off: nat, w: nat, a: nat, vs: seq<nat>, offs: seq<nat>, m: nat)
    requires Reads(data, off, Scalars(w, a, vs), offs, m)
    ensures ReadNumbers(data, |data| - off, w) == Some(vs)
  {
    hide Load, Sits, Holds, ReadElements;
    ElementsAt(data, off, w, vs, offs, m, |vs|);
    assert vs[..|vs|] == vs;
  }

  function Positions(size: nat, offs: seq<nat>, targets: seq<nat>): (r: seq<int>)
    ensures |r| == |targets| && forall i :: 0 <= i < |targets| ==> r[i] == size - OffsetOf(offs, targets[i])
  {
    seq(|targets|, i requires 0 <= i < |targets| => size - OffsetOf(offs, targets[i]))
  }

  lemma {:induction false} TargetsAt(data: seq<byte>, off: nat, targets: seq<nat>, offs: seq<nat>, m: nat, n: nat)
    requires 4 <= off <= |data| && n <= |targets|
    requires forall i :: 0 <= i < |targets| ==> 4 * i <= off - 4 && Holds(data, off - 4 - 4 * i, Ref(targets[i]), offs, m)
    ensures ReadTargets(data, |data| - off + 4, n) == Some(Positions(|data|, offs, targets)[..n])
  {
    hide Follow, Sits;
    if n > 0 {
      TargetsAt(data, off, targets, offs, m, n - 1);
      assert Holds(data, off - 4 - 4 * (n - 1), Ref(targets[n - 1]), offs, m);
      var ps := Positions(|data|, offs, targets);
      assert ps[..n] == ps[..n - 1] + [ps[n - 1]];
    }
  }

  lemma OffsetsAt(data: seq<byte>, off: nat, targets: seq<nat>, offs: seq<nat>, m: nat)
    requires Reads(data, off, Refs(targets), offs, m)
    ensures ReadOffsets(data, |data| - off) == Some(Positions(|data|, offs, targets))
  {
    hide Load, Sits, Holds, ReadTargets, Positions;
    TargetsAt(data, off, targets, offs, m, |targets|);
    var ps := Positions(|data|, offs, targets);
    assert ps[..|targets|] == ps;
  }

  /** The targets are strings of the catalog. */
  predicate TextsIn(cat: seq<Object>, targets: seq<nat>, ss: seq<seq<byte>>) {
    |targets| == |ss| && forall i :: 0 <= i < |ss| ==> targets[i] < |cat| && cat[targets[i]] == Text(ss[i])
  }

  lemma {:induction false} StringsAt(s: Session, cat: seq<Object>, targets: seq<nat>, ss: seq<seq<byte>>)
    requires AllRead(s, cat) && TextsIn(cat, targets, ss)
    ensures ReadStringsAt(s.b.data, Positions(|s.b.data|, s.offs, targets)) == Some(ss)
  {
    hide Reads, ReadString;
    var ps := Positions(|s.b.data|, s.offs, targets);
    if ss != [] {
      var n := |ss| - 1;
      StringsAt(s, cat, targets[..n], ss[..n]);
      assert ps[..n] == Positions(|s.b.data|, s.offs, targets[..n]);
      var k := targets[n];
      StringAt(s.b.data, s.offs[k], ss[n], s.offs, s.b.minalign);
      assert ss == ss[..n] + [ss[n]];
    }
  }

  // ─── Writing ───────────────────────────────────────────────────────────────

  function StringCommands(ss: seq<seq<byte>>): (r: seq<Command>)
    ensures |r| == |ss|
  {
    seq(|ss|, i requires 0 <= i < |ss| => StringCommand(ss[i]))
  }

  function From(k: nat, n: nat): (r: seq<nat>)
    ensures |r| == n && forall i :: 0 <= i < n ==> r[i] == k + i
  {
    seq(n, i => k + i)
  }

  /** The objects a member needs, when `k` objects exist before it. */
  function PartCommands(m: Member, k: nat): (r: seq<Command>) {
    match m
    case Num(_, _, _) => []
    case Str(_, None) => []
    case Str(_, Some(s)) => [StringCommand(s)]
    case Nums(_, _, None) => []
    case Nums(_, w, Some(vs)) => [VectorCommand(w, w, vs)]
    case Strs(_, None) => []
    case Strs(_, Some(ss)) => StringCommands(ss) + [OffsetsCommand(From(k, |ss|))]
  }

  function PartCount(m: Member): (r: nat) {
    match m
    case Num(_, _, _) => 0
    case Str(_, s) => if s.Some? then 1 else 0
    case Nums(_, _, vs) => if vs.Some? then 1 else 0
    case Strs(_, ss) => if ss.Some? then |ss.value| + 1 else 0
  }

  /** How the table refers to the member: its value, or the last of its objects. */
  function AddOf(m: Member, k: nat): (r: Add) {
    if m.Num? then AddScalar(m.id, m.w, m.v, Some(0))
    else AddRef(m.id, if PartCount(m) == 0 then None else Some(k + PartCount(m) - 1))
  }

  function Counts(ms: seq<Member>): (r: nat) {
    if ms == [] then 0 else Counts(ms[..|ms| - 1]) + PartCount(ms[|ms| - 1])
  }

  function AllParts(ms: seq<Member>, k: nat): (r: seq<Command>) {
    if ms == [] then []
    else
      var init := ms[..|ms| - 1];
      AllParts(init, k) + PartCommands(ms[|ms| - 1], k + Counts(init))
  }

  function AddsOf(ms: seq<Member>, k: nat): (r: seq<Add>)
    ensures |r| == |ms|
  {
    if ms == [] then []
    else
      var init := ms[..|ms| - 1];
      AddsOf(init, k) + [AddOf(ms[|ms| - 1], k + Counts(init))]
  }

  /** A table: first everything its members refer to, then the table itself. */
  function RecordCommands(ms: seq<Member>, k: nat): (r: seq<Command>) {
    AllParts(ms, k) + [TableCommand(AddsOf(ms, k))]
  }

  // ─── What was written ──────────────────────────────────────────────────────

  /** The member's objects are in the catalog where its add says. */
  predicate Backed(cat: seq<Object>, m: Member, add: Add) {
    match m
    case Num(id, w, v) => add == AddScalar(id, w, v, Some(0))
    case Str(id, None) => add == AddRef(id, None)
    case Str(id, Some(s)) => add.AddRef? && add.id == id && add.target.Some? && At(cat, add.target.value) == Some(Text(s))
    case Nums(id, _, None) => add == AddRef(id, None)
    case Nums(id, w, Some(vs)) => add.AddRef? && add.id == id && add.target.Some? && At(cat, add.target.value) == Some(Scalars(w, w, vs))
    case Strs(id, None) => add == AddRef(id, None)
    case Strs(id, Some(ss)) =>
      && add.AddRef? && add.id == id && add.target.Some?
      && At(cat, add.target.value).Some? && At(cat, add.target.value).value.Refs?
      && TextsIn(cat, At(cat, add.target.value).value.targets, ss)
  }

  function At(cat: seq<Object>, k: nat): (r: Option<Object>) {
    if k < |cat| then Some(cat[k]) else None
  }

  lemma BackedGrows(cat: seq<Object>, more: seq<Object>, m: Member, add: Add)
    requires Backed(cat, m, add)
    ensures Backed(cat + more, m, add)
  {
  }

  /** A member whose objects are in a readable catalog reads as what it was given. */
  lemma BackedReads(s: Session, cat: seq<Object>, table: int, m: Member, add: Add)
    requires AllRead(s, cat) && Backed(cat, m, add) && ReadsAdd(s.b.data, table, add, s.offs)
    ensures MemberReads(s.b.data, table, m)
  {
    hide Reads, GetField, GetPointer, ReadString, ReadNumbers, ReadOffsets, ReadStringsAt, TextsIn;
    match m
    case Num(_, _, _) =>
    case Str(_, None) =>
    case Str(_, Some(t)) =>
      StringAt(s.b.data, s.offs[add.target.value], t, s.offs, s.b.minalign);
    case Nums(_, _, None) =>
    case Nums(_, w, Some(vs)) =>
      NumbersAt(s.b.data, s.offs[add.target.value], w, w, vs, s.offs, s.b.minalign);
    case Strs(_, None) =>
    case Strs(_, Some(ss)) =>
      var k := add.target.value;
      OffsetsAt(s.b.data, s.offs[k], cat[k].targets, s.offs, s.b.minalign);
      StringsAt(s, cat, cat[k].targets, ss);
  }

  // ─── Catalogs of command sequences ─────────────────────────────────────────

  /** The objects commands add to a catalog, when they do not switch the forcing of defaults. */
  function Added(cmds: seq<Command>, force: bool): (r: seq<Object>) {
    if cmds == [] then [] else Added(cmds[..|cmds| - 1], force) + Created(cmds[|cmds| - 1], force)
  }

  predicate Plain(cmds: seq<Command>) {
    forall i :: 0 <= i < |cmds| ==> !cmds[i].ForceDefaults?
  }

  lemma {:induction false} CatalogConcat(a: seq<Command>, b: seq<Command>)
    requires Plain(b)
    ensures Catalog(a + b) == Catalog(a) + Added(b, Forced(a)) && Forced(a + b) == Forced(a)
  {
    hide Stored, Catalog, Created;
    if b == [] {
      assert a + b == a;
      assert Catalog(a) + [] == Catalog(a);
    } else {
      var init, last := b[..|b| - 1], b[|b| - 1];
      CatalogConcat(a, init);
      assert (a + b)[..|a + b| - 1] == a + init;
      CatalogGrows(a + b);
      Assoc(Catalog(a), Added(init, Forced(a)), Created(last, Forced(a)));
    }
  }

  lemma {:induction false} AddedConcat(a: seq<Command>, b: seq<Command>, force: bool)
    ensures Added(a + b, force) == Added(a, force) + Added(b, force)
  {
    hide Created;
    if b == [] {
      assert a + b == a;
      assert Added(a, force) + [] == Added(a, force);
    } else {
      AddedConcat(a, b[..|b| - 1], force);
      assert (a + b)[..|a + b| - 1] == a + b[..|b| - 1];
      var x, y, z := Added(a, force), Added(b[..|b| - 1], force), Created(b[|b| - 1], force);
      assert (x + y) + z == x + (y + z);
    }
  }

  lemma AddedOne(cmd: Command, force: bool)
    ensures Added([cmd], force) == Created(cmd, force)
  {
    hide Created;
    assert [cmd][..0] == [];
    assert [] + Created(cmd, force) == Created(cmd, force);
  }

  function TextObjects(ss: seq<seq<byte>>): (r: seq<Object>)
    ensures |r| == |ss| && forall i :: 0 <= i < |ss| ==> r[i] == Text(ss[i])
  {
    seq(|ss|, i requires 0 <= i < |ss| => Text(ss[i]))
  }

  lemma {:induction false} AddedStrings(ss: seq<seq<byte>>, force: bool)
    ensures Added(StringCommands(ss), force) == TextObjects(ss)
  {
    if ss != [] {
      var n := |ss| - 1;
      AddedStrings(ss[..n], force);
      assert StringCommands(ss)[..n] == StringCommands(ss[..n]);
    }
  }

  /** The objects of a member, appended to a catalog, back it. */
  lemma PartBacked(cat: seq<Object>, m: Member, force: bool)
    ensures |Added(PartCommands(m, |cat|), force)| == PartCount(m)
    ensures Backed(cat + Added(PartCommands(m, |cat|), force), m, AddOf(m, |cat|))
  {
    hide Added, StringCommands;
    match m
    case Str(_, Some(s)) => AddedOne(StringCommand(s), force);
    case Nums(_, w, Some(vs)) => AddedOne(VectorCommand(w, w, vs), force);
    case Strs(_, Some(ss)) =>
      var c := OffsetsCommand(From(|cat|, |ss|));
      AddedConcat(StringCommands(ss), [c], force);
      AddedStrings(ss, force);
      AddedOne(c, force);
    case _ => NothingAdded(force);
  }

  lemma NothingAdded(force: bool)
    ensures Added([], force) == []
  {
  }

  lemma BackedPush(mid: seq<Object>, more: seq<Object>, ms: seq<Member>, adds: seq<Add>, m: Member, add: Add)
    requires AllAreBacked(mid, ms, adds) && Backed(mid + more, m, add)
    ensures AllAreBacked(mid + more, ms + [m], adds + [add])
  {
    hide Backed;
    forall i | 0 <= i < |ms| ensures Backed(mid + more, ms[i], adds[i]) {
      BackedGrows(mid, more, ms[i], adds[i]);
    }
  }

  lemma NoParts(cat: seq<Object>, force: bool)
    ensures |Added(AllParts([], |cat|), force)| == Counts([])
    ensures AllAreBacked(cat + Added(AllParts([], |cat|), force), [], AddsOf([], |cat|))
  {
  }

  lemma LastPart(ms: seq<Member>, k: nat)
    requires ms != []
    ensures
      var init, last := ms[..|ms| - 1], ms[|ms| - 1];
      && ms == init + [last] && Counts(ms) == Counts(init) + PartCount(last)
      && AllParts(ms, k) == AllParts(init, k) + PartCommands(last, k + Counts(init))
      && AddsOf(ms, k) == AddsOf(init, k) + [AddOf(last, k + Counts(init))]
  {
    hide PartCommands, AddOf, PartCount;
  }

  lemma {:induction false} AllBacked(cat: seq<Object>, ms: seq<Member>, force: bool)
    ensures |Added(AllParts(ms, |cat|), force)| == Counts(ms)
    ensures AllAreBacked(cat + Added(AllParts(ms, |cat|), force), ms, AddsOf(ms, |cat|))
  {
    hide AllAreBacked, PartCommands, AddOf, PartCount, Added, AllParts, AddsOf, Counts, Backed;
    if ms == [] {
      NoParts(cat, force);
    } else {
      var init, last := ms[..|ms| - 1], ms[|ms| - 1];
      LastPart(ms, |cat|);
      AllBacked(cat, init, force);
      var before := Added(AllParts(init, |cat|), force);
      var mid := cat + before;
      PartBacked(mid, last, force);
      var more := Added(PartCommands(last, |mid|), force);
      AddedConcat(AllParts(init, |cat|), PartCommands(last, |mid|), force);
      Assoc(cat, before, more);
      BackedPush(mid, more, init, AddsOf(init, |cat|), last, AddOf(last, |mid|));
    }
  }

  // ─── Records ───────────────────────────────────────────────────────────────

  predicate AllAreBacked(cat: seq<Object>, ms: seq<Member>, adds: seq<Add>) {
    |adds| == |ms| && forall i :: 0 <= i < |ms| ==> Backed(cat, ms[i], adds[i])
  }

  /** Object `t` is a table that holds these members. */
  ghost predicate RecordAt(cat: seq<Object>, t: nat, ms: seq<Member>) {
    t < |cat| && exists adds, force {:trigger Stored(adds, force), AllAreBacked(cat, ms, adds)} :: cat[t] == Table(Stored(adds, force)) && AllAreBacked(cat, ms, adds)
  }

  lemma RecordGrows(cat: seq<Object>, more: seq<Object>, t: nat, ms: seq<Member>)
    requires RecordAt(cat, t, ms)
    ensures RecordAt(cat + more, t, ms)
  {
    hide Backed, Stored;
    var adds: seq<Add>, force: bool :| cat[t] == Table(Stored(adds, force)) && AllAreBacked(cat, ms, adds);
    forall i | 0 <= i < |ms| ensures Backed(cat + more, ms[i], adds[i]) {
      BackedGrows(cat, more, ms[i], adds[i]);
    }
    assert AllAreBacked(cat + more, ms, adds);
  }

  lemma RecordWritten(cat: seq<Object>, ms: seq<Member>, force: bool)
    ensures
      var more := Added(RecordCommands(ms, |cat|), force);
      |more| == Counts(ms) + 1 && RecordAt(cat + more, |cat| + Counts(ms), ms)
  {
    hide Backed, Added, AllParts, AddsOf, Stored;
    var parts, adds := AllParts(ms, |cat|), AddsOf(ms, |cat|);
    AllBacked(cat, ms, force);
    AddedConcat(parts, [TableCommand(adds)], force);
    AddedOne(TableCommand(adds), force);
    var mid, tab := cat + Added(parts, force), [Table(Stored(adds, force))];
    Assoc(cat, Added(parts, force), tab);
    forall i | 0 <= i < |ms| ensures Backed(mid + tab, ms[i], adds[i]) {
      BackedGrows(mid, tab, ms[i], adds[i]);
    }
    assert AllAreBacked(mid + tab, ms, adds);
  }

  predicate GoodMembers(ms: seq<Member>) {
    && (forall i :: 0 <= i < |ms| ==> FieldId(ms[i].id))
    && (forall i, j :: 0 <= i < j < |ms| ==> ms[i].id != ms[j].id)
  }

  lemma BackedId(cat: seq<Object>, m: Member, add: Add)
    requires Backed(cat, m, add)
    ensures add.id == m.id
  {
    hide TextsIn;
  }

  /** Every member of a record reads as what it was given. */
  lemma RecordReads(s: Session, cat: seq<Object>, t: nat, ms: seq<Member>, i: nat)
    requires AllRead(s, cat) && RecordAt(cat, t, ms) && GoodMembers(ms) && i < |ms|
    ensures MemberReads(s.b.data, |s.b.data| - s.offs[t], ms[i])
  {
    hide Backed, Stored, Reads, MemberReads, FieldId, ReadsAdd;
    var adds: seq<Add>, force: bool :| cat[t] == Table(Stored(adds, force)) && AllAreBacked(cat, ms, adds);
    forall j | 0 <= j < |ms| ensures adds[j].id == ms[j].id {
      BackedId(cat, ms[j], adds[j]);
    }
    assert FieldId(ms[i].id);
    ReadsStored(s.b.data, s.offs[t], adds, force, s.offs, s.b.minalign, i);
    BackedReads(s, cat, |s.b.data| - s.offs[t], ms[i], adds[i]);
  }

  // ─── A table with a vector of records ──────────────────────────────────────

  function RecordsCount(rs: seq<seq<Member>>): (r: nat) {
    if rs == [] then 0 else RecordsCount(rs[..|rs| - 1]) + Counts(rs[|rs| - 1]) + 1
  }

  function AllRecords(rs: seq<seq<Member>>, k: nat): (r: seq<Command>) {
    if rs == [] then []
    else
      var init := rs[..|rs| - 1];
      AllRecords(init, k) + RecordCommands(rs[|rs| - 1], k + RecordsCount(init))
  }

  /** Which objects the records are. */
  function Tables(rs: seq<seq<Member>>, k: nat): (r: seq<nat>)
    ensures |r| == |rs|
  {
    if rs == [] then []
    else
      var init := rs[..|rs| - 1];
      Tables(init, k) + [k + RecordsCount(init) + Counts(rs[|rs| - 1])]
  }

  const ROWS_FIELD: nat := 4     // the first member of a table

  /** The records, the vector of them, and a table with that vector as its first member. */
  function RowCommands(rs: seq<seq<Member>>, k: nat): (r: seq<Command>) {
    AllRecords(rs, k) + [OffsetsCommand(Tables(rs, k)), TableCommand([AddRef(ROWS_FIELD, Some(k + RecordsCount(rs)))])]
  }

  ghost predicate RecordsAt(cat: seq<Object>, ts: seq<nat>, rs: seq<seq<Member>>) {
    |ts| == |rs| && forall i :: 0 <= i < |rs| ==> RecordAt(cat, ts[i], rs[i])
  }

  lemma RecordsGrow(cat: seq<Object>, more: seq<Object>, ts: seq<nat>, rs: seq<seq<Member>>)
    requires RecordsAt(cat, ts, rs)
    ensures RecordsAt(cat + more, ts, rs)
  {
    hide RecordAt;
    forall i | 0 <= i < |rs| ensures RecordAt(cat + more, ts[i], rs[i]) {
      RecordGrows(cat, more, ts[i], rs[i]);
    }
  }

  lemma RecordsPush(mid: seq<Object>, more: seq<Object>, ts: seq<nat>, rs: seq<seq<Member>>, t: nat, r: seq<Member>)
    requires RecordsAt(mid, ts, rs) && RecordAt(mid + more, t, r)
    ensures RecordsAt(mid + more, ts + [t], rs + [r])
  {
    hide RecordAt;
    RecordsGrow(mid, more, ts, rs);
  }

  lemma NoRecords(cat: seq<Object>, force: bool)
    ensures
      var more := Added(AllRecords([], |cat|), force);
      |more| == RecordsCount([]) && RecordsAt(cat + more, Tables([], |cat|), [])
  {
  }

  lemma LastRecord(rs: seq<seq<Member>>, k: nat)
    requires rs != []
    ensures
      var init, last := rs[..|rs| - 1], rs[|rs| - 1];
      && rs == init + [last] && RecordsCount(rs) == RecordsCount(init) + Counts(last) + 1
      && AllRecords(rs, k) == AllRecords(init, k) + RecordCommands(last, k + RecordsCount(init))
      && Tables(rs, k) == Tables(init, k) + [k + RecordsCount(init) + Counts(last)]
  {
    hide RecordCommands, Counts;
  }

  lemma {:induction false} RecordsWritten(cat: seq<Object>, rs: seq<seq<Member>>, force: bool)
    ensures
      var more := Added(AllRecords(rs, |cat|), force);
      |more| == RecordsCount(rs) && RecordsAt(cat + more, Tables(rs, |cat|), rs)
  {
    hide RecordAt, RecordsAt, RecordCommands, Counts, Added, AllRecords, RecordsCount, Tables;
    if rs == [] {
      NoRecords(cat, force);
    } else {
      var init, last := rs[..|rs| - 1], rs[|rs| - 1];
      LastRecord(rs, |cat|);
      RecordsWritten(cat, init, force);
      var before := Added(AllRecords(init, |cat|), force);
      var mid := cat + before;
      RecordWritten(mid, last, force);
      var more := Added(RecordCommands(last, |mid|), force);
      AddedConcat(AllRecords(init, |cat|), RecordCommands(last, |mid|), force);
      Assoc(cat, before, more);
      RecordsPush(mid, more, Tables(init, |cat|), init, |mid| + Counts(last), last);
    }
  }

  /** Object `t` is a table whose first member is a vector of these records. */
  ghost predicate RowAt(cat: seq<Object>, t: nat, rs: seq<seq<Member>>) {
    && 0 < t < |cat| && cat[t - 1].Refs? && RecordsAt(cat, cat[t - 1].targets, rs)
    && cat[t] == Table([Field(ROWS_FIELD, Ref(t - 1))])
  }

  lemma RowWritten(cat: seq<Object>, rs: seq<seq<Member>>, force: bool)
    ensures
      var more := Added(RowCommands(rs, |cat|), force);
      |more| == RecordsCount(rs) + 2 && RowAt(cat + more, |cat| + RecordsCount(rs) + 1, rs)
  {
    hide RecordAt, Added, AllRecords, RecordsAt, Tables;
    var k := |cat| + RecordsCount(rs);
    var vec, tab := OffsetsCommand(Tables(rs, |cat|)), TableCommand([AddRef(ROWS_FIELD, Some(k))]);
    RecordsWritten(cat, rs, force);
    assert [vec, tab] == [vec] + [tab];
    AddedConcat(AllRecords(rs, |cat|), [vec] + [tab], force);
    AddedConcat([vec], [tab], force);
    AddedOne(vec, force);
    AddedOne(tab, force);
    OneRef(k, force);
    var mid, more := cat + Added(AllRecords(rs, |cat|), force), [Refs(Tables(rs, |cat|)), Table([Field(ROWS_FIELD, Ref(k))])];
    assert Added(RowCommands(rs, |cat|), force) == Added(AllRecords(rs, |cat|), force) + more;
    Assoc(cat, Added(AllRecords(rs, |cat|), force), more);
    RecordsGrow(mid, more, Tables(rs, |cat|), rs);
  }

  lemma OneRef(k: nat, force: bool)
    ensures Stored([AddRef(ROWS_FIELD, Some(k))], force) == [Field(ROWS_FIELD, Ref(k))]
  {
    var adds := [AddRef(ROWS_FIELD, Some(k))];
    assert adds[..0] == [];
    assert Stored(adds[..0], force) == [];
  }

  /** Where a reader of the table finds its records. */
  function ReadRecords(data: seq<byte>, table: int): (r: Option<seq<int>>) {
    match GetPointer(data, table, ROWS_FIELD)
    case Undefined => None
    case Null => Some([])
    case To(p) => ReadOffsets(data, p)
  }

  lemma RowPointer(s: Session, cat: seq<Object>, t: nat)
    requires AllRead(s, cat) && 0 < t < |cat| && cat[t] == Table([Field(ROWS_FIELD, Ref(t - 1))])
    ensures GetPointer(s.b.data, |s.b.data| - s.offs[t], ROWS_FIELD) == To(|s.b.data| - s.offs[t - 1])
  {
    hide GetOptionalFieldOffset, Follow, HasId, VTableSits;
    var fields := [Field(ROWS_FIELD, Ref(t - 1))];
    assert Reads(s.b.data, s.offs[t], Table(fields), s.offs, s.b.minalign);
    assert FieldReads(s.b.data, s.offs[t], fields[0], s.offs, s.b.minalign);
  }

  /** Every record of the vector is found, in order, and every member of it reads as what it was given. */
  lemma RowReads(s: Session, cat: seq<Object>, t: nat, rs: seq<seq<Member>>)
    requires AllRead(s, cat) && RowAt(cat, t, rs)
    ensures
      var data := s.b.data;
      var ps := ReadRecords(data, |data| - s.offs[t]);
      && ps.Some? && |ps.value| == |rs|
      && forall i, j :: 0 <= i < |rs| && 0 <= j < |rs[i]| && GoodMembers(rs[i]) ==> MemberReads(data, ps.value[i], rs[i][j])
  {
    hide RecordAt, MemberReads, GoodMembers, GetPointer, ReadOffsets, Reads;
    var data, ts := s.b.data, cat[t - 1].targets;
    RowPointer(s, cat, t);
    assert Reads(data, s.offs[t - 1], Refs(ts), s.offs, s.b.minalign);
    OffsetsAt(data, s.offs[t - 1], ts, s.offs, s.b.minalign);
    var ps := Positions(|data|, s.offs, ts);
    forall i, j | 0 <= i < |rs| && 0 <= j < |rs[i]| && GoodMembers(rs[i]) ensures MemberReads(data, ps[i], rs[i][j]) {
      InCatalog(cat, ts[i], rs[i]);
      RecordReads(s, cat, ts[i], rs[i], j);
    }
  }

  lemma InCatalog(cat: seq<Object>, t: nat, ms: seq<Member>)
    requires RecordAt(cat, t, ms)
    ensures t < |cat|
  {
  }
}
