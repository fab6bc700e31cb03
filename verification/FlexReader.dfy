/** The reader of FlexBuffers: references, vectors, maps, and a whole tree from the end of the buffer. */
module FlexReader {
  import opened Wrappers
  import opened Bits
  import opened Seqs
  import opened FlatReader
  import opened FlexBuffers
  import opened FlexVectorTypes
  import opened FlexKeys

  /** `Packed` is a typed vector, with its length in the type when `fixed`. */
  datatype Tree =
    | Nil
    | Flag(b: bool)
    | Signed(i: int)
    | Unsigned(u: nat)
    | Real(bits: nat)
    | Text(chars: seq<byte>)
    | Blob(bytes: seq<byte>)
    | Key(chars: seq<byte>)
    | List(items: seq<Tree>)
    | Packed(fixed: bool, items: seq<Tree>)
    | Dict(entries: seq<Keyed<Tree>>)

  /** `Reference`: where the element is, how wide it is there, and the width and type its packed type names. */
  datatype Ref = Ref(p: int, parent: BitWidth, w: BitWidth, ty: nat)

  /** The inline values; `widen` takes single precision to double precision. */
  function ReadNumber(widen: nat -> nat, data: seq<byte>, p: int, W: BitWidth, ty: nat): (r: Option<Tree>) {
    if ty == 0 then Some(Nil)
    else if ty == FBT_INT then
      match ReadInt(data, p, W) { case None => None case Some(i) => Some(Signed(i)) }
    else
      match Load(data, p, Bytes(W))
      case None => None
      case Some(x) =>
        if ty == FBT_UINT then Some(Unsigned(x))
        else if ty == FBT_BOOL then Some(Flag(x != 0))
        else if W == 3 then Some(Real(x))
        else if W == 2 then Some(Real(widen(x)))
        else None
  }

  /** A string or blob: the length in front, then the bytes. */
  function ReadBytes(data: seq<byte>, at: int, w: BitWidth): (r: Option<seq<byte>>) {
    match Load(data, at - Bytes(w), Bytes(w))
    case None => None
    case Some(n) => if 0 <= at && at + n <= |data| then Some(data[at..at + n]) else None
  }

  /** The bytes up to the first zero. */
  function CString(data: seq<byte>, at: int): (r: Option<seq<byte>>)
    decreases |data| - at
  {
    if !(0 <= at < |data|) then None
    else if data[at] == 0 then Some([])
    else match CString(data, at + 1) { case None => None case Some(s) => Some([data[at]] + s) }
  }

  /** `Vector::operator[]`. */
  function Item(data: seq<byte>, at: int, w: BitWidth, n: nat, k: nat): (r: Option<Ref>) {
    var q := at + n * Bytes(w) + k;
    if 0 <= q < |data| then Some(Ref(at + k * Bytes(w), w, data[q] % 4, data[q] / 4)) else None
  }

  /** `TypedVector::operator[]` and `FixedTypedVector::operator[]`. */
  function TypedItem(at: int, w: BitWidth, ty: nat, k: nat): (r: Ref) {
    Ref(at + k * Bytes(w), w, 0, ty)
  }

  function WidthOf(bytes: nat): (r: Option<BitWidth>) {
    if bytes == 1 then Some(0) else if bytes == 2 then Some(1) else if bytes == 4 then Some(2) else if bytes == 8 then Some(3) else None
  }

  /** Position, element width and length of a map's keys. */
  datatype KeyVector = KeyVector(at: int, w: BitWidth, n: nat)

  /** `Map::Keys`. */
  function Keys(data: seq<byte>, at: int, w: BitWidth): (r: Option<KeyVector>) {
    var B := Bytes(w);
    var o, kb := Load(data, at - 3 * B, B), Load(data, at - 2 * B, B);
    if o.None? || kb.None? || WidthOf(kb.value % 0x100).None? then None
    else
      var keysAt, kw := at - 3 * B - o.value, WidthOf(kb.value % 0x100).value;
      match Load(data, keysAt - Bytes(kw), Bytes(kw))
      case None => None
      case Some(n) => Some(KeyVector(keysAt, kw, n))
  }

  function KeyOf(data: seq<byte>, kv: KeyVector, k: nat): (r: Option<seq<byte>>) {
    var p := kv.at + k * Bytes(kv.w);
    match Load(data, p, Bytes(kv.w))
    case None => None
    case Some(o) => CString(data, p - o)
  }

  predicate IsTyped(ty: nat) {
    11 <= ty <= 15 || ty == 36
  }

  function TextOf(o: Option<seq<byte>>): (r: Option<Tree>) {
    if o.Some? then Some(Text(o.value)) else None
  }

  function BlobOf(o: Option<seq<byte>>): (r: Option<Tree>) {
    if o.Some? then Some(Blob(o.value)) else None
  }

  function KeyTree(o: Option<seq<byte>>): (r: Option<Tree>) {
    if o.Some? then Some(Key(o.value)) else None
  }

  function ListOf(o: Option<seq<Tree>>): (r: Option<Tree>) {
    if o.Some? then Some(List(o.value)) else None
  }

  function PackedOf(fixed: bool, o: Option<seq<Tree>>): (r: Option<Tree>) {
    if o.Some? then Some(Packed(fixed, o.value)) else None
  }

  function DictOf(o: Option<seq<Keyed<Tree>>>): (r: Option<Tree>) {
    if o.Some? then Some(Dict(o.value)) else None
  }

  /** `AsTypedVector`: the elements of a vector of strings are read as keys. */
  function TypedElement(ty: nat): (r: nat)
    requires IsTyped(ty)
  {
    if ty - 10 == FBT_STRING then FBT_KEY else ty - 10
  }

  /** The tree a reference leads to, down to `depth` levels. */
  function Read(widen: nat -> nat, data: seq<byte>, ref: Ref, depth: nat): (r: Option<Tree>)
    decreases depth, 1
  {
    if IsInline(ref.ty) then ReadNumber(widen, data, ref.p, ref.parent, ref.ty)
    else
      match Load(data, ref.p, Bytes(ref.parent))
      case None => None
      case Some(o) => ReadAt(widen, data, ref.p - o, ref.w, ref.ty, depth)
  }

  function ReadAt(widen: nat -> nat, data: seq<byte>, at: int, w: BitWidth, ty: nat, depth: nat): (r: Option<Tree>)
    decreases depth, 0
  {
    if ty == FBT_STRING then TextOf(ReadBytes(data, at, w))
    else if ty == FBT_BLOB then BlobOf(ReadBytes(data, at, w))
    else if ty == FBT_KEY then KeyTree(CString(data, at))
    else if depth == 0 then None
    else if 16 <= ty <= 24 then
      var (elem, n) := FixedElementType(ty);
      PackedOf(true, ReadItems(widen, data, at, w, n, n, Some(elem), depth - 1))
    else
      match Load(data, at - Bytes(w), Bytes(w))
      case None => None
      case Some(n) =>
        if ty == FBT_VECTOR then ListOf(ReadItems(widen, data, at, w, n, n, None, depth - 1))
        else if IsTyped(ty) then PackedOf(false, ReadItems(widen, data, at, w, n, n, Some(TypedElement(ty)), depth - 1))
        else if ty == FBT_MAP && Keys(data, at, w).Some? && Keys(data, at, w).value.n == n then
          DictOf(ReadEntries(widen, data, at, w, n, n, Keys(data, at, w).value, depth - 1))
        else None
  }

  /** The first `k` of the `n` elements. */
  function ReadItems(widen: nat -> nat, data: seq<byte>, at: int, w: BitWidth, n: nat, k: nat, ty: Option<nat>, depth: nat): (r: Option<seq<Tree>>)
    decreases depth, k + 2
  {
    if k == 0 then Some([])
    else
      var ref := if ty.Some? then Some(TypedItem(at, w, ty.value, k - 1)) else Item(data, at, w, n, k - 1);
      match ref
      case None => None
      case Some(x) =>
        var front, last := ReadItems(widen, data, at, w, n, k - 1, ty, depth), Read(widen, data, x, depth);
        if front.Some? && last.Some? then Some(front.value + [last.value]) else None
  }

  /** The first `k` of the `n` entries of a map. */
  function ReadEntries(widen: nat -> nat, data: seq<byte>, at: int, w: BitWidth, n: nat, k: nat, kv: KeyVector, depth: nat): (r: Option<seq<Keyed<Tree>>>)
    decreases depth, k + 2
  {
    if k == 0 then Some([])
    else
      match Item(data, at, w, n, k - 1)
      case None => None
      case Some(x) =>
        var front := ReadEntries(widen, data, at, w, n, k - 1, kv, depth);
        var key, last := KeyOf(data, kv, k - 1), Read(widen, data, x, depth);
        if front.Some? && key.Some? && last.Some? then Some(front.value + [Keyed(key.value, last.value)]) else None
  }

  /** `GetRoot`: byte width and packed type are the last two bytes. */
  function RootRef(data: seq<byte>): (r: Option<Ref>) {
    var n := |data|;
    if n < 2 || WidthOf(data[n - 1]).None? then None
    else Some(Ref(n - 2 - data[n - 1], WidthOf(data[n - 1]).value, data[n - 2] % 4, data[n - 2] / 4))
  }

  // ─── What was read is still read when the buffer grows ─────────────────────

  lemma LoadExtends(data: seq<byte>, more: seq<byte>, p: int, w: nat)
    ensures Load(data, p, w).Some? ==> Load(data + more, p, w) == Load(data, p, w)
  {
    if Load(data, p, w).Some? {
      LoadPrefix(data, more, p, w);
    }
  }

  lemma BytesGrow(data: seq<byte>, more: seq<byte>, at: int, w: BitWidth)
    ensures ReadBytes(data, at, w).Some? ==> ReadBytes(data + more, at, w) == ReadBytes(data, at, w)
  {
    hide Load;
    LoadExtends(data, more, at - Bytes(w), Bytes(w));
    if ReadBytes(data, at, w).Some? {
      SliceLeft(data, more, at, at + Load(data, at - Bytes(w), Bytes(w)).value);
    }
  }

  lemma {:induction false} CStringGrows(data: seq<byte>, more: seq<byte>, at: int)
    ensures CString(data, at).Some? ==> CString(data + more, at) == CString(data, at)
    decreases |data| - at
  {
    if 0 <= at < |data| && data[at] != 0 {
      CStringGrows(data, more, at + 1);
    }
  }

  lemma KeysGrow(data: seq<byte>, more: seq<byte>, at: int, w: BitWidth)
    ensures Keys(data, at, w).Some? ==> Keys(data + more, at, w) == Keys(data, at, w)
  {
    hide Load;
    var B := Bytes(w);
    LoadExtends(data, more, at - 3 * B, B);
    LoadExtends(data, more, at - 2 * B, B);
    if Keys(data, at, w).Some? {
      var kv := Keys(data, at, w).value;
      LoadExtends(data, more, kv.at - Bytes(kv.w), Bytes(kv.w));
    }
  }

  lemma KeyOfGrows(data: seq<byte>, more: seq<byte>, kv: KeyVector, k: nat)
    ensures KeyOf(data, kv, k).Some? ==> KeyOf(data + more, kv, k) == KeyOf(data, kv, k)
  {
    hide Load, CString;
    var p := kv.at + k * Bytes(kv.w);
    LoadExtends(data, more, p, Bytes(kv.w));
    if KeyOf(data, kv, k).Some? {
      CStringGrows(data, more, p - Load(data, p, Bytes(kv.w)).value);
    }
  }

  lemma ItemGrows(data: seq<byte>, more: seq<byte>, at: int, w: BitWidth, n: nat, k: nat)
    ensures Item(data, at, w, n, k).Some? ==> Item(data + more, at, w, n, k) == Item(data, at, w, n, k)
  {
    var q := at + n * Bytes(w) + k;
    if 0 <= q < |data| {
      assert (data + more)[q] == data[q];
    }
  }

  lemma NumberGrows(widen: nat -> nat, data: seq<byte>, more: seq<byte>, p: int, W: BitWidth, ty: nat)
    ensures ReadNumber(widen, data, p, W, ty).Some? ==> ReadNumber(widen, data + more, p, W, ty) == ReadNumber(widen, data, p, W, ty)
  {
    hide Load;
    LoadExtends(data, more, p, Bytes(W));
  }

  lemma {:induction false} ReadGrows(widen: nat -> nat, data: seq<byte>, more: seq<byte>, ref: Ref, depth: nat)
    ensures Read(widen, data, ref, depth).Some? ==> Read(widen, data + more, ref, depth) == Read(widen, data, ref, depth)
    decreases depth, 1
  {
    hide Load, ReadNumber, ReadAt;
    NumberGrows(widen, data, more, ref.p, ref.parent, ref.ty);
    LoadExtends(data, more, ref.p, Bytes(ref.parent));
    var o := Load(data, ref.p, Bytes(ref.parent));
    if o.Some? {
      ReadAtGrows(widen, data, more, ref.p - o.value, ref.w, ref.ty, depth);
    }
  }

  lemma {:induction false} ReadAtGrows(widen: nat -> nat, data: seq<byte>, more: seq<byte>, at: int, w: BitWidth, ty: nat, depth: nat)
    ensures ReadAt(widen, data, at, w, ty, depth).Some? ==> ReadAt(widen, data + more, at, w, ty, depth) == ReadAt(widen, data, at, w, ty, depth)
    decreases depth, 0
  {
    hide Load, ReadBytes, Keys, ReadItems, ReadEntries, CString;
    BytesGrow(data, more, at, w);
    CStringGrows(data, more, at);
    LoadExtends(data, more, at - Bytes(w), Bytes(w));
    KeysGrow(data, more, at, w);
    if depth > 0 && ReadAt(widen, data, at, w, ty, depth).Some? && ty != FBT_STRING && ty != FBT_BLOB && ty != FBT_KEY {
      if 16 <= ty <= 24 {
        var (elem, n) := FixedElementType(ty);
        ItemsGrow(widen, data, more, at, w, n, n, Some(elem), depth - 1);
      } else {
        var n := Load(data, at - Bytes(w), Bytes(w)).value;
        ItemsGrow(widen, data, more, at, w, n, n, None, depth - 1);
        if IsTyped(ty) {
          ItemsGrow(widen, data, more, at, w, n, n, Some(TypedElement(ty)), depth - 1);
        }
        if ty == FBT_MAP {
          EntriesGrow(widen, data, more, at, w, n, n, Keys(data, at, w).value, depth - 1);
        }
      }
    }
  }

  lemma {:induction false} ItemsGrow(widen: nat -> nat, data: seq<byte>, more: seq<byte>, at: int, w: BitWidth, n: nat, k: nat, ty: Option<nat>, depth: nat)
    ensures ReadItems(widen, data, at, w, n, k, ty, depth).Some? ==>
      ReadItems(widen, data + more, at, w, n, k, ty, depth) == ReadItems(widen, data, at, w, n, k, ty, depth)
    decreases depth, k + 2
  {
    hide Read, Item, TypedItem;
    if k > 0 && ReadItems(widen, data, at, w, n, k, ty, depth).Some? {
      ItemsGrow(widen, data, more, at, w, n, k - 1, ty, depth);
      ItemGrows(data, more, at, w, n, k - 1);
      var ref := if ty.Some? then Some(TypedItem(at, w, ty.value, k - 1)) else Item(data, at, w, n, k - 1);
      ReadGrows(widen, data, more, ref.value, depth);
    }
  }

  lemma {:induction false} EntriesGrow(widen: nat -> nat, data: seq<byte>, more: seq<byte>, at: int, w: BitWidth, n: nat, k: nat, kv: KeyVector, depth: nat)
    ensures ReadEntries(widen, data, at, w, n, k, kv, depth).Some? ==>
      ReadEntries(widen, data + more, at, w, n, k, kv, depth) == ReadEntries(widen, data, at, w, n, k, kv, depth)
    decreases depth, k + 2
  {
    hide Read, Item, KeyOf;
    if k > 0 && ReadEntries(widen, data, at, w, n, k, kv, depth).Some? {
      EntriesGrow(widen, data, more, at, w, n, k - 1, kv, depth);
      ItemGrows(data, more, at, w, n, k - 1);
      KeyOfGrows(data, more, kv, k - 1);
      ReadGrows(widen, data, more, Item(data, at, w, n, k - 1).value, depth);
    }
  }
}
