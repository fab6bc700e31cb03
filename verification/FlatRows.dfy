/**
 Rows over the actual bytes: the field values of a row are written by the
 FlatBuffers builder with the members of proto/yikv_server.fbs and read back
 through vtables and offsets, and the row read makes the document it was built
 from.
 */
module FlatRows {
  import opened Wrappers
  import opened Bits
  import opened FlatReader
  import FlatBuilder
  import opened FlatRoundTrip
  import opened FlatTheorems
  import opened FlatFinish
  import opened FlatRecords
  import Ingest = StreamIngest
  import Rows = RowCodec

  type Cell = Ingest.Cell
  type FieldValue = Rows.FieldValue

  // ─── Values as bits ────────────────────────────────────────────────────────

  /** The bits of floating-point numbers, which are not interpreted here. */
  datatype Floats = Floats(enc32: real -> nat, dec32: nat -> real, enc64: real -> nat, dec64: nat -> real)

  predicate Fits32(fc: Floats, r: real) {
    fc.enc32(r) < 0x1_0000_0000 && fc.dec32(fc.enc32(r)) == r
  }

  predicate Fits64(fc: Floats, r: real) {
    fc.enc64(r) < WORD && fc.dec64(fc.enc64(r)) == r
  }

  /** Two's complement in 32 and 64 bits. */
  function Word32(i: int): (r: nat)
    ensures r < 0x1_0000_0000
  {
    i % 0x1_0000_0000
  }

  function Int32Of(x: nat): (r: int) {
    if x < 0x8000_0000 then x else x - 0x1_0000_0000
  }

  function Word64(i: int): (r: nat)
    ensures r < WORD
  {
    i % WORD
  }

  function Int64Of(x: nat): (r: int) {
    if x < WORD / 2 then x else x - WORD
  }

  predicate IsInt32(i: int) {
    -0x8000_0000 <= i < 0x8000_0000
  }

  predicate IsInt64(i: int) {
    -(WORD / 2) <= i < WORD / 2
  }

  lemma Words(i: int)
    ensures IsInt32(i) ==> Int32Of(Word32(i)) == i
    ensures IsInt64(i) ==> Int64Of(Word64(i)) == i
  {
  }

  /** Strings of the server are byte strings. */
  predicate IsBytes(s: string) {
    forall i :: 0 <= i < |s| ==> (s[i] as int) < 256
  }

  function BytesOf(s: string): (r: seq<byte>)
    requires IsBytes(s)
    ensures |r| == |s|
  {
    seq(|s|, i requires 0 <= i < |s| => s[i] as int)
  }

  function TextOf(b: seq<byte>): (r: string)
    ensures |r| == |b|
  {
    seq(|b|, i requires 0 <= i < |b| => b[i] as char)
  }

  lemma TextTrip(s: string)
    requires IsBytes(s)
    ensures TextOf(BytesOf(s)) == s
  {
  }

  // ─── Cells of arrays ───────────────────────────────────────────────────────

  datatype Kind = KI32 | KI64 | KF32 | KF64

  predicate CellFits(fc: Floats, k: Kind, c: Cell) {
    match k
    case KI32 => c.CInt? && IsInt32(c.i)
    case KI64 => c.CInt? && IsInt64(c.i)
    case KF32 => c.CReal? && Fits32(fc, c.r)
    case KF64 => c.CReal? && Fits64(fc, c.r)
  }

  function NumOf(fc: Floats, k: Kind, c: Cell): (r: nat)
    requires CellFits(fc, k, c)
  {
    match k
    case KI32 => Word32(c.i)
    case KI64 => Word64(c.i)
    case KF32 => fc.enc32(c.r)
    case KF64 => fc.enc64(c.r)
  }

  function CellOf(fc: Floats, k: Kind, x: nat): (r: Cell) {
    match k
    case KI32 => Ingest.CInt(Int32Of(x))
    case KI64 => Ingest.CInt(Int64Of(x))
    case KF32 => Ingest.CReal(fc.dec32(x))
    case KF64 => Ingest.CReal(fc.dec64(x))
  }

  lemma CellTrip(fc: Floats, k: Kind, c: Cell)
    requires CellFits(fc, k, c)
    ensures CellOf(fc, k, NumOf(fc, k, c)) == c
  {
    if c.CInt? {
      Words(c.i);
    }
  }

  predicate CellsFit(fc: Floats, k: Kind, cs: Option<seq<Cell>>) {
    cs.Some? ==> forall i :: 0 <= i < |cs.value| ==> CellFits(fc, k, cs.value[i])
  }

  function NumsOf(fc: Floats, k: Kind, cs: Option<seq<Cell>>): (r: Option<seq<nat>>)
    requires CellsFit(fc, k, cs)
  {
    match cs
    case None => None
    case Some(v) => Some(seq(|v|, i requires 0 <= i < |v| => NumOf(fc, k, v[i])))
  }

  function CellsOf(fc: Floats, k: Kind, xs: Option<seq<nat>>): (r: Option<seq<Cell>>) {
    match xs
    case None => None
    case Some(v) => Some(seq(|v|, i requires 0 <= i < |v| => CellOf(fc, k, v[i])))
  }

  lemma CellsTrip(fc: Floats, k: Kind, cs: Option<seq<Cell>>)
    requires CellsFit(fc, k, cs)
    ensures CellsOf(fc, k, NumsOf(fc, k, cs)) == cs
  {
    hide CellFits, NumOf, CellOf;
    if cs.Some? {
      var v := cs.value;
      forall i | 0 <= i < |v| ensures CellOf(fc, k, NumOf(fc, k, v[i])) == v[i] {
        CellTrip(fc, k, v[i]);
      }
      assert CellsOf(fc, k, NumsOf(fc, k, cs)).value == v;
    }
  }

  predicate StrsFit(cs: Option<seq<Cell>>) {
    cs.Some? ==> forall i :: 0 <= i < |cs.value| ==> cs.value[i].CStr? && IsBytes(cs.value[i].s)
  }

  function StrsOf(cs: Option<seq<Cell>>): (r: Option<seq<seq<byte>>>)
    requires StrsFit(cs)
  {
    match cs
    case None => None
    case Some(v) => Some(seq(|v|, i requires 0 <= i < |v| => BytesOf(v[i].s)))
  }

  function StrCells(ss: Option<seq<seq<byte>>>): (r: Option<seq<Cell>>) {
    match ss
    case None => None
    case Some(v) => Some(seq(|v|, i requires 0 <= i < |v| => Ingest.CStr(TextOf(v[i]))))
  }

  lemma StrsTrip(cs: Option<seq<Cell>>)
    requires StrsFit(cs)
    ensures StrCells(StrsOf(cs)) == cs
  {
    hide IsBytes, BytesOf, TextOf;
    if cs.Some? {
      var v := cs.value;
      forall i | 0 <= i < |v| ensures Ingest.CStr(TextOf(BytesOf(v[i].s))) == v[i] {
        TextTrip(v[i].s);
      }
      assert StrCells(StrsOf(cs)).value == v;
    }
  }

  // ─── Value types ───────────────────────────────────────────────────────────

  function TypeCode(vt: Rows.ValueType): (r: nat)
    ensures r < 13
  {
    match vt
    case NONE => 0
    case BOOL => 1
    case I32 => 2
    case I64 => 3
    case F32 => 4
    case F64 => 5
    case STRING => 6
    case BYTES => 7
    case ARR_I32 => 8
    case ARR_I64 => 9
    case ARR_F32 => 10
    case ARR_F64 => 11
    case ARR_STRING => 12
  }

  function TypeOf(code: nat): (r: Rows.ValueType) {
    if code == 1 then Rows.BOOL else if code == 2 then Rows.I32 else if code == 3 then Rows.I64
    else if code == 4 then Rows.F32 else if code == 5 then Rows.F64 else if code == 6 then Rows.STRING
    else if code == 7 then Rows.BYTES else if code == 8 then Rows.ARR_I32 else if code == 9 then Rows.ARR_I64
    else if code == 10 then Rows.ARR_F32 else if code == 11 then Rows.ARR_F64 else if code == 12 then Rows.ARR_STRING
    else Rows.NONE
  }

  lemma TypeTrip(vt: Rows.ValueType)
    ensures TypeOf(TypeCode(vt)) == vt
  {
  }

  // ─── A field value as a table ──────────────────────────────────────────────

  predicate OptBytes(s: Option<string>) {
    s.Some? ==> IsBytes(s.value)
  }

  /** The values are in the range of their wire types. */
  predicate Fits(fc: Floats, fv: FieldValue) {
    && fv.id < 0x1_0000 && IsInt32(fv.i32) && IsInt64(fv.i64) && Fits32(fc, fv.f32) && Fits64(fc, fv.f64)
    && OptBytes(fv.s) && OptBytes(fv.raw)
    && CellsFit(fc, KI32, fv.ai32) && CellsFit(fc, KI64, fv.ai64) && CellsFit(fc, KF32, fv.af32) && CellsFit(fc, KF64, fv.af64)
    && StrsFit(fv.strs)
  }

  function OptBytesOf(s: Option<string>): (r: Option<seq<byte>>)
    requires OptBytes(s)
  {
    if s.None? then None else Some(BytesOf(s.value))
  }

  function RawOf(s: Option<string>): (r: Option<seq<nat>>)
    requires OptBytes(s)
  {
    if s.None? then None else Some(seq(|s.value|, i requires 0 <= i < |s.value| => s.value[i] as int))
  }

  /** The members of the table FieldValue, in the order of the schema; `name` is its last member. */
  function Members(fc: Floats, fv: FieldValue, name: seq<byte>): (r: seq<Member>)
    requires Fits(fc, fv)
    ensures |r| == 14
  {
    [ Num(4, 2, fv.id), Num(6, 1, TypeCode(fv.vtype)), Num(8, 4, Word32(fv.i32)), Num(10, 8, Word64(fv.i64)),
      Num(12, 4, fc.enc32(fv.f32)), Num(14, 8, fc.enc64(fv.f64)),
      Str(16, OptBytesOf(fv.s)), Nums(18, 1, RawOf(fv.raw)),
      Nums(20, 4, NumsOf(fc, KI32, fv.ai32)), Nums(22, 8, NumsOf(fc, KI64, fv.ai64)),
      Nums(24, 4, NumsOf(fc, KF32, fv.af32)), Nums(26, 8, NumsOf(fc, KF64, fv.af64)),
      Strs(28, StrsOf(fv.strs)), Str(30, Some(name)) ]
  }

  lemma MembersGood(fc: Floats, fv: FieldValue, name: seq<byte>)
    requires Fits(fc, fv)
    ensures GoodMembers(Members(fc, fv, name))
  {
    hide Fits32, Fits64, CellsFit, StrsFit, OptBytes;
    var ms := Members(fc, fv, name);
    assert forall i :: 0 <= i < 14 ==> ms[i].id == 4 + 2 * i;
  }

  // ─── Reading it ────────────────────────────────────────────────────────────

  function ReadStr(data: seq<byte>, t: int, id: nat): (r: Option<Option<seq<byte>>>) {
    match GetPointer(data, t, id)
    case Undefined => None
    case Null => Some(None)
    case To(p) => match ReadString(data, p) case None => None case Some(s) => Some(Some(s))
  }

  function ReadNums(data: seq<byte>, t: int, id: nat, w: nat): (r: Option<Option<seq<nat>>>) {
    match GetPointer(data, t, id)
    case Undefined => None
    case Null => Some(None)
    case To(p) => match ReadNumbers(data, p, w) case None => None case Some(v) => Some(Some(v))
  }

  function ReadStrs(data: seq<byte>, t: int, id: nat): (r: Option<Option<seq<seq<byte>>>>) {
    match GetPointer(data, t, id)
    case Undefined => None
    case Null => Some(None)
    case To(p) => match ReadStrings(data, p) case None => None case Some(v) => Some(Some(v))
  }

  /** What the accessors give for a member of its kind. */
  lemma MemberRead(data: seq<byte>, t: int, m: Member)
    requires MemberReads(data, t, m)
    ensures match m
      case Num(id, w, v) => GetField(data, t, id, w, 0) == Some(v)
      case Str(id, s) => ReadStr(data, t, id) == Some(s)
      case Nums(id, w, vs) => ReadNums(data, t, id, w) == Some(vs)
      case Strs(id, ss) => ReadStrs(data, t, id) == Some(ss)
  {
    hide GetField, GetPointer, ReadString, ReadNumbers, ReadStrings;
  }

  function OptText(b: Option<seq<byte>>): (r: Option<string>) {
    if b.None? then None else Some(TextOf(b.value))
  }

  function RawText(b: Option<seq<nat>>): (r: Option<string>) {
    if b.None? then None else Some(seq(|b.value|, i requires 0 <= i < |b.value| => (b.value[i] % 256) as char))
  }

  /** The numbers of a field value, decoded. */
  datatype Numbers = Numbers(id: nat, vtype: nat, i32: nat, i64: nat, f32: nat, f64: nat)

  function ReadScalars(data: seq<byte>, t: int): (r: Option<Numbers>) {
    var id, vt, i32 := GetField(data, t, 4, 2, 0), GetField(data, t, 6, 1, 0), GetField(data, t, 8, 4, 0);
    var i64, f32, f64 := GetField(data, t, 10, 8, 0), GetField(data, t, 12, 4, 0), GetField(data, t, 14, 8, 0);
    if id.Some? && vt.Some? && i32.Some? && i64.Some? && f32.Some? && f64.Some?
    then Some(Numbers(id.value, vt.value, i32.value, i64.value, f32.value, f64.value)) else None
  }

  function ReadValue(fc: Floats, data: seq<byte>, t: int): (r: Option<FieldValue>) {
    var n := ReadScalars(data, t);
    var s, raw, strs := ReadStr(data, t, 16), ReadNums(data, t, 18, 1), ReadStrs(data, t, 28);
    var a, b, c, d := ReadNums(data, t, 20, 4), ReadNums(data, t, 22, 8), ReadNums(data, t, 24, 4), ReadNums(data, t, 26, 8);
    if n.Some? && s.Some? && raw.Some? && strs.Some? && a.Some? && b.Some? && c.Some? && d.Some? then
      Some(Rows.FieldValue(
        n.value.id, TypeOf(n.value.vtype), Int32Of(n.value.i32), Int64Of(n.value.i64), fc.dec32(n.value.f32), fc.dec64(n.value.f64),
        OptText(s.value), RawText(raw.value),
        CellsOf(fc, KI32, a.value), CellsOf(fc, KI64, b.value), CellsOf(fc, KF32, c.value), CellsOf(fc, KF64, d.value),
        StrCells(strs.value)))
    else None
  }

  lemma RawTrip(s: Option<string>)
    requires OptBytes(s)
    ensures RawText(RawOf(s)) == s && OptText(OptBytesOf(s)) == s
  {
    if s.Some? {
      TextTrip(s.value);
      assert RawText(RawOf(s)).value == s.value;
    }
  }

  predicate AllMembersRead(data: seq<byte>, t: int, ms: seq<Member>) {
    forall j :: 0 <= j < |ms| ==> MemberReads(data, t, ms[j])
  }

  lemma ScalarsRead(fc: Floats, data: seq<byte>, t: int, fv: FieldValue, name: seq<byte>)
    requires Fits(fc, fv) && AllMembersRead(data, t, Members(fc, fv, name))
    ensures ReadScalars(data, t) ==
      Some(Numbers(fv.id, TypeCode(fv.vtype), Word32(fv.i32), Word64(fv.i64), fc.enc32(fv.f32), fc.enc64(fv.f64)))
  {
    hide Fits, MemberReads, GetField, Word32, Word64, TypeCode;
    var ms := Members(fc, fv, name);
    forall j | 0 <= j < 6 ensures GetField(data, t, ms[j].id, ms[j].w, 0) == Some(ms[j].v) {
      assert MemberReads(data, t, ms[j]);
      MemberRead(data, t, ms[j]);
    }
    assert ms[0] == Num(4, 2, fv.id) && ms[1] == Num(6, 1, TypeCode(fv.vtype)) && ms[2] == Num(8, 4, Word32(fv.i32));
    assert ms[3] == Num(10, 8, Word64(fv.i64)) && ms[4] == Num(12, 4, fc.enc32(fv.f32)) && ms[5] == Num(14, 8, fc.enc64(fv.f64));
  }

  lemma VectorsRead(fc: Floats, data: seq<byte>, t: int, fv: FieldValue, name: seq<byte>)
    requires Fits(fc, fv) && AllMembersRead(data, t, Members(fc, fv, name))
    ensures ReadStr(data, t, 16) == Some(OptBytesOf(fv.s)) && ReadNums(data, t, 18, 1) == Some(RawOf(fv.raw))
    ensures ReadNums(data, t, 20, 4) == Some(NumsOf(fc, KI32, fv.ai32)) && ReadNums(data, t, 22, 8) == Some(NumsOf(fc, KI64, fv.ai64))
    ensures ReadNums(data, t, 24, 4) == Some(NumsOf(fc, KF32, fv.af32)) && ReadNums(data, t, 26, 8) == Some(NumsOf(fc, KF64, fv.af64))
    ensures ReadStrs(data, t, 28) == Some(StrsOf(fv.strs))
  {
    hide MemberReads, ReadStr, ReadNums, ReadStrs, NumsOf, StrsOf, RawOf, OptBytesOf, CellsFit, StrsFit, OptBytes, Fits32, Fits64;
    var ms := Members(fc, fv, name);
    assert MemberReads(data, t, ms[6]) && MemberReads(data, t, ms[7]) && MemberReads(data, t, ms[8]) && MemberReads(data, t, ms[9]);
    assert MemberReads(data, t, ms[10]) && MemberReads(data, t, ms[11]) && MemberReads(data, t, ms[12]);
    MemberRead(data, t, ms[6]);
    MemberRead(data, t, ms[7]);
    MemberRead(data, t, ms[8]);
    MemberRead(data, t, ms[9]);
    MemberRead(data, t, ms[10]);
    MemberRead(data, t, ms[11]);
    MemberRead(data, t, ms[12]);
  }

  /** A field value reads back from its table. */
  lemma ValueReads(fc: Floats, data: seq<byte>, t: int, fv: FieldValue, name: seq<byte>)
    requires Fits(fc, fv) && AllMembersRead(data, t, Members(fc, fv, name))
    ensures ReadValue(fc, data, t) == Some(fv)
  {
    hide AllMembersRead, Members, ReadStr, ReadNums, ReadStrs, ReadScalars, NumsOf, StrsOf, RawOf, OptBytesOf, CellsOf, StrCells, OptText, RawText,
      CellsFit, StrsFit, OptBytes, TypeCode, TypeOf, Word32, Word64, Int32Of, Int64Of;
    ScalarsRead(fc, data, t, fv, name);
    VectorsRead(fc, data, t, fv, name);
    Words(fv.i32);
    Words(fv.i64);
    TypeTrip(fv.vtype);
    RawTrip(fv.s);
    RawTrip(fv.raw);
    CellsTrip(fc, KI32, fv.ai32);
    CellsTrip(fc, KI64, fv.ai64);
    CellsTrip(fc, KF32, fv.af32);
    CellsTrip(fc, KF64, fv.af64);
    StrsTrip(fv.strs);
  }

  // ─── A row ─────────────────────────────────────────────────────────────────

  predicate AllFit(fc: Floats, fvs: seq<FieldValue>) {
    forall i :: 0 <= i < |fvs| ==> Fits(fc, fvs[i])
  }

  function AllMembers(fc: Floats, fvs: seq<FieldValue>, names: seq<seq<byte>>): (r: seq<seq<Member>>)
    requires AllFit(fc, fvs) && |names| == |fvs|
    ensures |r| == |fvs| && forall i :: 0 <= i < |fvs| ==> r[i] == Members(fc, fvs[i], names[i])
  {
    seq(|fvs|, i requires 0 <= i < |fvs| => Members(fc, fvs[i], names[i]))
  }

  function ReadValues(fc: Floats, data: seq<byte>, ps: seq<int>): (r: Option<seq<Option<FieldValue>>>) {
    if ps == [] then Some([])
    else match (ReadValues(fc, data, ps[..|ps| - 1]), ReadValue(fc, data, ps[|ps| - 1]))
      case (Some(vs), Some(v)) => Some(vs + [Some(v)])
      case _ => None
  }

  /** The table Row as the generated accessors read it. */
  function ReadRow(fc: Floats, data: seq<byte>, t: int): (r: Option<Rows.Row>) {
    if GetPointer(data, t, ROWS_FIELD) == Null then Some(Rows.Row(None))
    else match ReadRecords(data, t)
      case None => None
      case Some(ps) =>
        match ReadValues(fc, data, ps)
        case None => None
        case Some(vs) => Some(Rows.Row(Some(vs)))
  }

  function Entries(fvs: seq<FieldValue>): (r: seq<Option<FieldValue>>)
    ensures |r| == |fvs| && forall i :: 0 <= i < |fvs| ==> r[i] == Some(fvs[i])
  {
    seq(|fvs|, i requires 0 <= i < |fvs| => Some(fvs[i]))
  }

  lemma {:induction false} ValuesRead(fc: Floats, data: seq<byte>, ps: seq<int>, fvs: seq<FieldValue>)
    requires |ps| == |fvs| && forall i :: 0 <= i < |fvs| ==> ReadValue(fc, data, ps[i]) == Some(fvs[i])
    ensures ReadValues(fc, data, ps) == Some(Entries(fvs))
  {
    hide ReadValue;
    if ps != [] {
      var n := |ps| - 1;
      ValuesRead(fc, data, ps[..n], fvs[..n]);
      assert Entries(fvs) == Entries(fvs[..n]) + [Some(fvs[n])];
    }
  }

  /** A row written after any other objects is read back, field value by field value. */
  lemma RowOverBytes(fc: Floats, s: Session, cat: seq<Object>, t: nat, fvs: seq<FieldValue>, names: seq<seq<byte>>)
    requires AllFit(fc, fvs) && |names| == |fvs| && AllRead(s, cat) && RowAt(cat, t, AllMembers(fc, fvs, names))
    ensures ReadRow(fc, s.b.data, |s.b.data| - s.offs[t]) == Some(Rows.Row(Some(Entries(fvs))))
  {
    hide Fits, Members, MemberReads, ReadValue, ReadOffsets, RecordAt, RecordsAt, Reads, GetPointer, GoodMembers;
    var data, rs := s.b.data, AllMembers(fc, fvs, names);
    var table := |data| - s.offs[t];
    RowPointer(s, cat, t);
    RowReads(s, cat, t, rs);
    var ps := ReadRecords(data, table).value;
    forall i | 0 <= i < |fvs| ensures ReadValue(fc, data, ps[i]) == Some(fvs[i]) {
      assert Fits(fc, fvs[i]);
      MembersGood(fc, fvs[i], names[i]);
      forall j | 0 <= j < |rs[i]| ensures MemberReads(data, ps[i], rs[i][j]) {
      }
      ValueReads(fc, data, ps[i], fvs[i], names[i]);
    }
    ValuesRead(fc, data, ps, fvs);
  }

  /** The member `field_name` of each field value. */
  function ReadNames(data: seq<byte>, ps: seq<int>): (r: Option<seq<seq<byte>>>) {
    if ps == [] then Some([])
    else match (ReadNames(data, ps[..|ps| - 1]), ReadStr(data, ps[|ps| - 1], 30))
      case (Some(ns), Some(Some(n))) => Some(ns + [n])
      case _ => None
  }

  function ReadRowNames(data: seq<byte>, t: int): (r: Option<seq<seq<byte>>>) {
    match ReadRecords(data, t)
    case None => None
    case Some(ps) => ReadNames(data, ps)
  }

  lemma {:induction false} NamesRead(data: seq<byte>, ps: seq<int>, names: seq<seq<byte>>)
    requires |ps| == |names| && forall i :: 0 <= i < |names| ==> ReadStr(data, ps[i], 30) == Some(Some(names[i]))
    ensures ReadNames(data, ps) == Some(names)
  {
    hide ReadStr;
    if ps != [] {
      var n := |ps| - 1;
      NamesRead(data, ps[..n], names[..n]);
      assert names == names[..n] + [names[n]];
    }
  }

  /** Every field value carries the name it was written with. */
  lemma NamesOverBytes(fc: Floats, s: Session, cat: seq<Object>, t: nat, fvs: seq<FieldValue>, names: seq<seq<byte>>)
    requires AllFit(fc, fvs) && |names| == |fvs| && AllRead(s, cat) && RowAt(cat, t, AllMembers(fc, fvs, names))
    ensures ReadRowNames(s.b.data, |s.b.data| - s.offs[t]) == Some(names)
  {
    hide Fits, MemberReads, ReadStr, ReadOffsets, RecordAt, RecordsAt, Reads, GetPointer, GoodMembers, ReadRecords;
    var data, rs := s.b.data, AllMembers(fc, fvs, names);
    var table := |data| - s.offs[t];
    RowReads(s, cat, t, rs);
    var ps := ReadRecords(data, table).value;
    forall i | 0 <= i < |names| ensures ReadStr(data, ps[i], 30) == Some(Some(names[i])) {
      assert Fits(fc, fvs[i]);
      MembersGood(fc, fvs[i], names[i]);
      assert rs[i][13] == Str(30, Some(names[i]));
      assert MemberReads(data, ps[i], rs[i][13]);
      MemberRead(data, ps[i], rs[i][13]);
    }
    NamesRead(data, ps, names);
  }

  /** A table that was given no field values reads as a row without any, and without names. */
  lemma RowWithoutValues(fc: Floats, cmds: seq<Command>, p: nat)
    requires Legal(cmds) && p < |cmds| && cmds[p].TableCommand?
    requires forall j :: 0 <= j < |cmds[p].adds| ==> cmds[p].adds[j].id != ROWS_FIELD
    ensures
      var s, k := Run(cmds), |Catalog(cmds[..p])|;
      && k < |s.offs|
      && ReadRow(fc, s.b.data, |s.b.data| - s.offs[k]) == Some(Rows.Row(None))
      && ReadRowNames(s.b.data, |s.b.data| - s.offs[k]) == Some([])
  {
    hide Legal, Run, Catalog, GetPointer, ReadValues;
    NeverAddedIsDefault(cmds, p, ROWS_FIELD, 1, 0);
  }

  // ─── Get over the wire ─────────────────────────────────────────────────────

  function ValuesOf(doc: Ingest.Doc, fields: seq<Ingest.FieldDef>): (r: seq<FieldValue>)
    ensures |r| == |fields| && forall i :: 0 <= i < |fields| ==> r[i] == Rows.BuildFieldValue(doc, fields[i])
  {
    seq(|fields|, i requires 0 <= i < |fields| => Rows.BuildFieldValue(doc, fields[i]))
  }

  lemma BuiltEntries(schema: Ingest.Schema, doc: Ingest.Doc)
    ensures Rows.BuildRow(schema, doc) == Rows.Row(Some(Entries(ValuesOf(doc, schema.fields))))
  {
    hide Rows.BuildFieldValue;
    assert Rows.BuildEntries(doc, schema.fields) == Entries(ValuesOf(doc, schema.fields));
  }

  lemma {:induction false} PartsPlain(ms: seq<Member>, k: nat)
    ensures Plain(AllParts(ms, k))
  {
    if ms != [] {
      PartsPlain(ms[..|ms| - 1], k);
    }
  }

  lemma {:induction false} RecordsPlain(rs: seq<seq<Member>>, k: nat)
    ensures Plain(AllRecords(rs, k))
  {
    hide AllParts;
    if rs != [] {
      var init := rs[..|rs| - 1];
      RecordsPlain(init, k);
      PartsPlain(rs[|rs| - 1], k + RecordsCount(init));
    }
  }

  /** The row is in the catalog of every run that builds it, whatever comes before and after. */
  lemma RowInCatalog(before: seq<Command>, rs: seq<seq<Member>>, after: seq<Command>)
    requires Plain(after)
    ensures
      var k := |Catalog(before)|;
      RowAt(Catalog(before + RowCommands(rs, k) + after), k + RecordsCount(rs) + 1, rs)
  {
    hide Catalog, Added, RowAt, RowCommands, RecordsCount, Forced, Plain;
    var k := |Catalog(before)|;
    var row := RowCommands(rs, k);
    RowPlain(rs, k);
    CatalogConcat(before, row);
    CatalogConcat(before + row, after);
    RowWritten(Catalog(before), rs, Forced(before));
    RowGrows(Catalog(before + row), Added(after, Forced(before)), k + RecordsCount(rs) + 1, rs);
  }

  lemma RowPlain(rs: seq<seq<Member>>, k: nat)
    ensures Plain(RowCommands(rs, k))
  {
    hide AllRecords, RecordsCount, Tables;
    RecordsPlain(rs, k);
  }

  lemma RowGrows(cat: seq<Object>, more: seq<Object>, t: nat, rs: seq<seq<Member>>)
    requires RowAt(cat, t, rs)
    ensures RowAt(cat + more, t, rs)
  {
    hide RecordAt;
    RecordsGrow(cat, more, cat[t - 1].targets, rs);
  }
}
