/**
 The round trip between builder and reader.  A run is a sequence of commands;
 the catalog says, from the commands alone, what each object holds.  After every
 run, every object reads back as the catalog says, whichever vtables were
 shared on the way, and sits where its alignment asks.
 */
module FlatRoundTrip {
  import opened Wrappers
  import opened Bits
  import opened FlatReader
  import opened FlatBuilder

  // ─── What was asked for ────────────────────────────────────────────────────

  datatype Add =
    | AddScalar(id: nat, w: nat, v: nat, def: Option<nat>)
    | AddRef(id: nat, target: Option<nat>)       // an earlier object, or the null offset

  datatype Command =
    | StringCommand(bytes: seq<byte>)
    | VectorCommand(w: nat, alignment: nat, values: seq<nat>)
    | OffsetsCommand(targets: seq<nat>)
    | TableCommand(adds: seq<Add>)
    | ForceDefaults(fd: bool)
    | DedupVtables(on: bool)

  datatype Value = Scalar(w: nat, v: nat) | Ref(target: nat)

  datatype Field = Field(id: nat, value: Value)

  datatype Object =
    | Table(fields: seq<Field>)
    | Text(bytes: seq<byte>)
    | Scalars(w: nat, alignment: nat, values: seq<nat>)
    | Refs(targets: seq<nat>)

  /** A member is present unless it equals its default (and defaults are not forced) or is the null offset. */
  function StoredAdd(fields: seq<Field>, add: Add, force: bool): (r: seq<Field>) {
    match add
    case AddScalar(id, w, v, def) => if def == Some(v) && !force then fields else fields + [Field(id, Scalar(w, v))]
    case AddRef(id, None) => fields
    case AddRef(id, Some(k)) => fields + [Field(id, Ref(k))]
  }

  function Stored(adds: seq<Add>, force: bool): (r: seq<Field>) {
    if adds == [] then [] else StoredAdd(Stored(adds[..|adds| - 1], force), adds[|adds| - 1], force)
  }

  function Forced(cmds: seq<Command>): (r: bool) {
    if cmds == [] then false
    else match cmds[|cmds| - 1]
      case ForceDefaults(fd) => fd
      case _ => Forced(cmds[..|cmds| - 1])
  }

  function Catalog(cmds: seq<Command>): (r: seq<Object>) {
    if cmds == [] then []
    else
      var init := cmds[..|cmds| - 1];
      match cmds[|cmds| - 1]
      case StringCommand(s) => Catalog(init) + [Text(s)]
      case VectorCommand(w, a, values) => Catalog(init) + [Scalars(w, a, values)]
      case OffsetsCommand(targets) => Catalog(init) + [Refs(targets)]
      case TableCommand(adds) => Catalog(init) + [Table(Stored(adds, Forced(init)))]
      case ForceDefaults(_) => Catalog(init)
      case DedupVtables(_) => Catalog(init)
  }

  // ─── What the builder does ─────────────────────────────────────────────────

  /** A builder and the offsets it returned so far. */
  datatype Session = Session(b: Builder, offs: seq<nat>)

  function OffsetOf(offs: seq<nat>, k: nat): (r: nat) {
    if k < |offs| then offs[k] else 0
  }

  function OffsetsOf(offs: seq<nat>, ks: seq<nat>): (r: seq<nat>)
    ensures |r| == |ks| && forall i :: 0 <= i < |ks| ==> r[i] == OffsetOf(offs, ks[i])
  {
    seq(|ks|, i requires 0 <= i < |ks| => OffsetOf(offs, ks[i]))
  }

  function ExecAdd(b: Builder, offs: seq<nat>, add: Add): (r: Builder) {
    match add
    case AddScalar(id, w, v, def) => AddElement(b, id, Max(w, 1), v, def)
    case AddRef(id, None) => AddOffset(b, id, 0)
    case AddRef(id, Some(k)) => AddOffset(b, id, OffsetOf(offs, k))
  }

  function ExecAdds(b: Builder, offs: seq<nat>, adds: seq<Add>): (r: Builder) {
    if adds == [] then b
    else ExecAdd(ExecAdds(b, offs, adds[..|adds| - 1]), offs, adds[|adds| - 1])
  }

  function Exec(s: Session, cmd: Command): (r: Session) {
    match cmd
    case StringCommand(bytes) =>
      var b := CreateString(s.b, bytes);
      Session(b, s.offs + [|b.data|])
    case VectorCommand(w, a, values) =>
      var b := CreateVector(s.b, values, w, Max(a, 1));
      Session(b, s.offs + [|b.data|])
    case OffsetsCommand(targets) =>
      var b := CreateOffsetVector(s.b, OffsetsOf(s.offs, targets));
      Session(b, s.offs + [|b.data|])
    case TableCommand(adds) =>
      var b := ExecAdds(StartTable(s.b), s.offs, adds);
      Session(EndTable(b, |s.b.data|), s.offs + [TableLoc(b)])
    case ForceDefaults(fd) => s.(b := s.b.(forceDefaults := fd))
    case DedupVtables(on) => s.(b := s.b.(dedup := on))
  }

  function Run(cmds: seq<Command>): (r: Session) {
    if cmds == [] then Session(Empty(), [])
    else Exec(Run(cmds[..|cmds| - 1]), cmds[|cmds| - 1])
  }

  // ─── What the builder asserts of its callers ───────────────────────────────

  predicate ScalarWidth(w: nat) {
    w == 1 || w == 2 || w == 4 || w == 8
  }

  predicate FieldId(id: nat) {
    id % 2 == 0 && 4 <= id < 0xFFFE
  }

  predicate WellTyped(add: Add, n: nat) {
    FieldId(add.id) &&
    match add
    case AddScalar(_, w, v, def) => ScalarWidth(w) && v < Pow256(w)
    case AddRef(_, target) => target.Some? ==> target.value < n
  }

  /** No member is stored twice. */
  predicate DistinctIds(fields: seq<Field>) {
    forall i, j :: 0 <= i < j < |fields| ==> fields[i].id != fields[j].id
  }

  ghost predicate Allowed(s: Session, cmd: Command) {
    match cmd
    case StringCommand(_) => |Exec(s, cmd).b.data| < MAX_BUFFER_SIZE
    case VectorCommand(w, a, values) =>
      && ScalarWidth(w) && IsPow2(a) && a >= w
      && (forall i :: 0 <= i < |values| ==> values[i] < Pow256(w))
      && |Exec(s, cmd).b.data| < MAX_BUFFER_SIZE
    case OffsetsCommand(targets) =>
      && (forall i :: 0 <= i < |targets| ==> targets[i] < |s.offs|)
      && |Exec(s, cmd).b.data| < MAX_BUFFER_SIZE
    case TableCommand(adds) =>
      var b := ExecAdds(StartTable(s.b), s.offs, adds);
      && (forall i :: 0 <= i < |adds| ==> WellTyped(adds[i], |s.offs|))
      && DistinctIds(Stored(adds, s.b.forceDefaults))
      && TableLoc(b) - |s.b.data| < 0x1_0000
      && TableLoc(b) + VTableSize(b.locs) < MAX_BUFFER_SIZE
    case _ => true
  }

  ghost predicate Legal(cmds: seq<Command>) {
    cmds != [] ==> Legal(cmds[..|cmds| - 1]) && Allowed(Run(cmds[..|cmds| - 1]), cmds[|cmds| - 1])
  }

  // ─── What a reader finds ───────────────────────────────────────────────────

  /** At distance `off` from the end, a datum of size `w` in a buffer of alignment `m`. */
  predicate Sits(off: nat, w: nat, m: nat) {
    w > 0 && m > 0 && off % w == 0 && m % w == 0
  }

  predicate Holds(data: seq<byte>, off: nat, value: Value, offs: seq<nat>, m: nat) {
    off <= |data| &&
    match value
    case Scalar(w, v) => Sits(off, w, m) && Load(data, |data| - off, w) == Some(v)
    case Ref(k) => k < |offs| && Sits(off, 4, m) && Follow(data, |data| - off) == To(|data| - offs[k])
  }

  predicate FieldReads(data: seq<byte>, off: nat, f: Field, offs: seq<nat>, m: nat) {
    var o := GetOptionalFieldOffset(data, |data| - off, f.id);
    o.Some? && 0 < o.value <= off && Holds(data, off - o.value, f.value, offs, m)
  }

  /** The vtable and so each of its 16-bit entries is aligned. */
  predicate VTableSits(data: seq<byte>, off: nat, m: nat) {
    var v := GetVTable(data, |data| - off);
    v.Some? && v.value <= |data| && Sits(|data| - v.value, 2, m)
  }

  predicate HasId(fields: seq<Field>, id: nat) {
    exists i :: 0 <= i < |fields| && fields[i].id == id
  }

  ghost predicate Reads(data: seq<byte>, off: nat, obj: Object, offs: seq<nat>, m: nat) {
    4 <= off <= |data| && Sits(off, 4, m) &&
    match obj
    case Table(fields) =>
      && VTableSits(data, off, m)
      && (forall i :: 0 <= i < |fields| ==> FieldReads(data, off, fields[i], offs, m))
      && (forall id :: FieldId(id) && !HasId(fields, id) ==> GetOptionalFieldOffset(data, |data| - off, id) == Some(0))
    case Text(s) =>
      && Load(data, |data| - off, 4) == Some(|s|)
      && BytesAt(data, off - 4, s + [0])
    case Scalars(w, a, values) =>
      && Load(data, |data| - off, 4) == Some(|values|)
      && (values != [] ==> Sits(off - 4, a, m))
      && (forall i :: 0 <= i < |values| ==>
            w * i <= off - 4 && Holds(data, off - 4 - w * i, Scalar(w, values[i]), offs, m))
    case Refs(targets) =>
      && Load(data, |data| - off, 4) == Some(|targets|)
      && (forall i :: 0 <= i < |targets| ==>
            4 * i <= off - 4 && Holds(data, off - 4 - 4 * i, Ref(targets[i]), offs, m))
  }

  // ─── Growth at the front ───────────────────────────────────────────────────

  predicate Extends(data: seq<byte>, data': seq<byte>) {
    |data| <= |data'| && data'[|data'| - |data|..] == data
  }

  lemma ExtendsTrans(d0: seq<byte>, d1: seq<byte>, d2: seq<byte>)
    requires Extends(d0, d1) && Extends(d1, d2)
    ensures Extends(d0, d2)
  {
    assert d2[|d2| - |d0|..] == d2[|d2| - |d1|..][|d1| - |d0|..];
  }

  lemma ExtendsSplit(data: seq<byte>, data': seq<byte>)
    requires Extends(data, data')
    ensures data' == data'[..|data'| - |data|] + data
  {
  }

  predicate Divides(m: nat, m': nat) {
    m > 0 && m' > 0 && m' % m == 0
  }

  lemma SitsGrows(off: nat, w: nat, m: nat, m': nat)
    requires Sits(off, w, m) && Divides(m, m')
    ensures Sits(off, w, m')
  {
    ModChain(m', m, w);
  }

  lemma HoldsGrows(data: seq<byte>, data': seq<byte>, off: nat, value: Value, offs: seq<nat>, more: seq<nat>, m: nat, m': nat)
    requires Holds(data, off, value, offs, m) && Extends(data, data') && Divides(m, m')
    ensures Holds(data', off, value, offs + more, m')
  {
    hide Load, Sits, Divides;
    ExtendsSplit(data, data');
    var pre := data'[..|data'| - |data|];
    match value
    case Scalar(w, v) =>
      SitsGrows(off, w, m, m');
      LoadGrows(pre, data, |data| - off, w);
    case Ref(k) =>
      SitsGrows(off, 4, m, m');
      LoadGrows(pre, data, |data| - off, 4);
  }

  lemma FieldReadsGrows(data: seq<byte>, data': seq<byte>, off: nat, f: Field, offs: seq<nat>, more: seq<nat>, m: nat, m': nat)
    requires FieldReads(data, off, f, offs, m) && Extends(data, data') && Divides(m, m')
    ensures FieldReads(data', off, f, offs + more, m')
  {
    hide GetOptionalFieldOffset, Holds, Divides;
    ExtendsSplit(data, data');
    var pre := data'[..|data'| - |data|];
    FieldOffsetGrows(pre, data, |data| - off, f.id);
    var o := GetOptionalFieldOffset(data, |data| - off, f.id).value;
    HoldsGrows(data, data', off - o, f.value, offs, more, m, m');
  }

  lemma TableReadsGrows(data: seq<byte>, data': seq<byte>, off: nat, fields: seq<Field>, offs: seq<nat>, more: seq<nat>, m: nat, m': nat)
    requires Reads(data, off, Table(fields), offs, m) && Extends(data, data') && Divides(m, m')
    ensures Reads(data', off, Table(fields), offs + more, m')
  {
    hide GetOptionalFieldOffset, FieldReads, Divides, Sits, HasId, FieldId, GetVTable;
    SitsGrows(off, 4, m, m');
    ExtendsSplit(data, data');
    var pre := data'[..|data'| - |data|];
    VTableGrows(pre, data, |data| - off);
    SitsGrows(|data| - GetVTable(data, |data| - off).value, 2, m, m');
    forall i | 0 <= i < |fields| ensures FieldReads(data', off, fields[i], offs + more, m') {
      FieldReadsGrows(data, data', off, fields[i], offs, more, m, m');
    }
    forall id | FieldId(id) && !HasId(fields, id)
      ensures GetOptionalFieldOffset(data', |data'| - off, id) == Some(0)
    {
      FieldOffsetGrows(pre, data, |data| - off, id);
    }
  }

  lemma BytesAtGrows(data: seq<byte>, data': seq<byte>, off: nat, bytes: seq<byte>)
    requires off <= |data| && Extends(data, data')
    ensures BytesAt(data', off, bytes) == BytesAt(data, off, bytes)
  {
    ExtendsSplit(data, data');
    var pre := data'[..|data'| - |data|];
    if |bytes| <= off {
      var p := |data| - off;
      assert (pre + data)[|pre| + p..|pre| + p + |bytes|] == data[p..p + |bytes|];
    }
  }

  /** Later writes leave every reading of an object as it was. */
  lemma ReadsGrows(data: seq<byte>, data': seq<byte>, off: nat, obj: Object, offs: seq<nat>, more: seq<nat>, m: nat, m': nat)
    requires Reads(data, off, obj, offs, m) && Extends(data, data') && Divides(m, m')
    ensures Reads(data', off, obj, offs + more, m')
  {
    hide Load, Holds, Sits, Divides, BytesAt, GetOptionalFieldOffset, FieldReads, FieldId, HasId, VTableSits;
    SitsGrows(off, 4, m, m');
    ExtendsSplit(data, data');
    var pre := data'[..|data'| - |data|];
    match obj
    case Table(fields) => TableReadsGrows(data, data', off, fields, offs, more, m, m');
    case Text(s) =>
      LoadGrows(pre, data, |data| - off, 4);
      BytesAtGrows(data, data', off - 4, s + [0]);
    case Scalars(w, a, values) =>
      LoadGrows(pre, data, |data| - off, 4);
      if values != [] {
        SitsGrows(off - 4, a, m, m');
      }
      forall i | 0 <= i < |values|
        ensures w * i <= off - 4 && Holds(data', off - 4 - w * i, Scalar(w, values[i]), offs + more, m')
      {
        HoldsGrows(data, data', off - 4 - w * i, Scalar(w, values[i]), offs, more, m, m');
      }
    case Refs(targets) =>
      LoadGrows(pre, data, |data| - off, 4);
      forall i | 0 <= i < |targets|
        ensures 4 * i <= off - 4 && Holds(data', off - 4 - 4 * i, Ref(targets[i]), offs + more, m')
      {
        HoldsGrows(data, data', off - 4 - 4 * i, Ref(targets[i]), offs, more, m, m');
      }
  }
}
