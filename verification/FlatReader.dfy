/**
 Reading a serialized buffer: `ReadScalar` and the accessors of `Table`.
 Pointers are positions counted from the front.  A load that would leave the
 buffer has no defined result in the original; here it gives `None`, so a
 result `Some(_)` also says that every byte touched lies inside the buffer.
 */
module FlatReader {
  import opened Wrappers
  import opened Bits

  function Load(data: seq<byte>, p: int, w: nat): (r: Option<nat>) {
    if 0 <= p && p + w <= |data| then Some(Decode(data[p..p + w])) else None
  }

  /** `soffset_t`: 32 bits, two's complement. */
  function Signed32(x: nat): (r: int) {
    if x < 0x8000_0000 then x else x - 0x1_0000_0000
  }

  function Unsigned32(x: int): (r: nat) {
    x % 0x1_0000_0000
  }

  lemma SignedUnsigned(x: int)
    requires -0x8000_0000 <= x < 0x8000_0000
    ensures Signed32(Unsigned32(x)) == x && Unsigned32(x) < 0x1_0000_0000
  {
    if x < 0 {
      DivModUnique(x, 0x1_0000_0000, -1, x + 0x1_0000_0000);
    }
  }

  function GetVTable(data: seq<byte>, table: int): (r: Option<int>) {
    match Load(data, table, 4)
    case None => None
    case Some(s) => Some(table - Signed32(s))
  }

  function GetOptionalFieldOffset(data: seq<byte>, table: int, field: nat): (r: Option<nat>) {
    match GetVTable(data, table)
    case None => None
    case Some(vtable) =>
      match Load(data, vtable, 2)
      case None => None
      case Some(vtsize) => if field < vtsize then Load(data, vtable + field, 2) else Some(0)
  }

  function GetField(data: seq<byte>, table: int, field: nat, w: nat, defaultval: nat): (r: Option<nat>) {
    match GetOptionalFieldOffset(data, table, field)
    case None => None
    case Some(o) => if o != 0 then Load(data, table + o, w) else Some(defaultval)
  }

  datatype Pointer = Undefined | Null | To(position: int)

  /** The target of an offset stored at `p`. */
  function Follow(data: seq<byte>, p: int): (r: Pointer) {
    match Load(data, p, 4)
    case None => Undefined
    case Some(o) => To(p + o)
  }

  function GetPointer(data: seq<byte>, table: int, field: nat): (r: Pointer) {
    match GetOptionalFieldOffset(data, table, field)
    case None => Undefined
    case Some(o) => if o != 0 then Follow(data, table + o) else Null
  }

  function GetRoot(data: seq<byte>, buf: int): (r: Pointer) {
    Follow(data, buf)
  }

  // ─── Growth at the front moves no object relative to the end ───────────────

  lemma LoadGrows(pre: seq<byte>, data: seq<byte>, p: int, w: nat)
    requires Load(data, p, w).Some?
    ensures Load(pre + data, |pre| + p, w) == Load(data, p, w)
  {
    assert (pre + data)[|pre| + p..|pre| + p + w] == data[p..p + w];
  }

  lemma FieldOffsetGrows(pre: seq<byte>, data: seq<byte>, table: int, field: nat)
    requires GetOptionalFieldOffset(data, table, field).Some?
    ensures GetOptionalFieldOffset(pre + data, |pre| + table, field) == GetOptionalFieldOffset(data, table, field)
  {
    hide Load;
    LoadGrows(pre, data, table, 4);
    var vtable := GetVTable(data, table).value;
    LoadGrows(pre, data, vtable, 2);
    if field < Load(data, vtable, 2).value {
      LoadGrows(pre, data, vtable + field, 2);
    }
  }

  lemma VTableGrows(pre: seq<byte>, data: seq<byte>, table: int)
    requires GetVTable(data, table).Some?
    ensures GetVTable(pre + data, |pre| + table) == Some(|pre| + GetVTable(data, table).value)
  {
    hide Load;
    LoadGrows(pre, data, table, 4);
  }

  lemma LoadPrefix(s: seq<byte>, t: seq<byte>, p: int, w: nat)
    requires 0 <= p && p + w <= |s|
    ensures Load(s + t, p, w) == Load(s, p, w)
  {
    assert (s + t)[p..p + w] == s[p..p + w];
  }

  lemma LoadEncoded(v: nat, w: nat, t: seq<byte>)
    requires v < Pow256(w)
    ensures Load(Encode(v, w) + t, 0, w) == Some(v)
  {
    assert (Encode(v, w) + t)[0..w] == Encode(v, w);
    DecodeEncode(v, w);
  }
}
