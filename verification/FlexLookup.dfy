/** Looking up keys in a map that is read from a buffer. */
module FlexLookup {
  import opened Wrappers
  import opened Bits
  import opened FlatReader
  import opened FlexBuffers
  import opened FlexVectorTypes
  import opened FlexKeys
  import opened FlexReader
  import opened FlexTrees
  import opened FlexRoundTrip

  /** The map at a position of the buffer reads as these entries. */
  predicate MapAt(widen: nat -> nat, data: seq<byte>, at: int, w: BitWidth, xs: seq<Keyed<Tree>>, depth: nat) {
    ReadAt(widen, data, at, w, FBT_MAP, depth + 1) == Some(Dict(xs))
  }

  lemma {:induction false} EntryAt(widen: nat -> nat, data: seq<byte>, at: int, w: BitWidth, n: nat, m: nat, kv: KeyVector, xs: seq<Keyed<Tree>>, depth: nat, k: nat)
    requires ReadEntries(widen, data, at, w, n, m, kv, depth) == Some(xs) && k < m
    ensures
      && |xs| == m && KeyOf(data, kv, k) == Some(xs[k].key)
      && Item(data, at, w, n, k).Some? && Read(widen, data, Item(data, at, w, n, k).value, depth) == Some(xs[k].value)
    decreases m
  {
    hide Read, Item, KeyOf;
    var front := ReadEntries(widen, data, at, w, n, m - 1, kv, depth);
    if k < m - 1 {
      EntryAt(widen, data, at, w, n, m - 1, kv, front.value, depth, k);
    } else {
      EntriesLength(widen, data, at, w, n, m - 1, kv, front.value, depth);
    }
  }

  lemma {:induction false} EntriesLength(widen: nat -> nat, data: seq<byte>, at: int, w: BitWidth, n: nat, m: nat, kv: KeyVector, xs: seq<Keyed<Tree>>, depth: nat)
    requires ReadEntries(widen, data, at, w, n, m, kv, depth) == Some(xs)
    ensures |xs| == m
    decreases m
  {
    hide Read, Item, KeyOf;
    if m > 0 {
      EntriesLength(widen, data, at, w, n, m - 1, kv, ReadEntries(widen, data, at, w, n, m - 1, kv, depth).value, depth);
    }
  }

  lemma MapParts(widen: nat -> nat, data: seq<byte>, at: int, w: BitWidth, xs: seq<Keyed<Tree>>, depth: nat)
    requires MapAt(widen, data, at, w, xs, depth)
    ensures
      var kv := Keys(data, at, w);
      kv.Some? && kv.value.n == |xs| && ReadEntries(widen, data, at, w, |xs|, |xs|, kv.value, depth) == Some(xs)
  {
    hide ReadEntries, Keys, Load;
    var kv := Keys(data, at, w).value;
    EntriesLength(widen, data, at, w, kv.n, kv.n, kv, xs, depth);
  }

  /** `AsMap`: a reference that reads as a map leads to one. */
  lemma RefToMap(widen: nat -> nat, data: seq<byte>, ref: Ref, xs: seq<Keyed<Tree>>, depth: nat)
    requires Read(widen, data, ref, depth + 1) == Some(Dict(xs))
    ensures
      var o := Load(data, ref.p, Bytes(ref.parent));
      o.Some? && MapAt(widen, data, ref.p - o.value, ref.w, xs, depth)
  {
    hide ReadEntries, ReadItems, Keys, Load, ReadBytes, CString;
  }

  /**
   `AsMap` and `Map::operator[]` with its binary search over the keys: for entries in the
   order of their keys it finds the value of the key that was asked for, and
   nothing exactly when no entry has that key.
   */
  method Lookup(widen: nat -> nat, data: seq<byte>, ref: Ref, key: seq<byte>, ghost xs: seq<Keyed<Tree>>, ghost depth: nat)
    returns (r: Option<Ref>)
    requires Read(widen, data, ref, depth + 1) == Some(Dict(xs)) && Ascending(xs)
    ensures r.None? <==> NoKey(xs, key)
    ensures r.Some? ==> exists k :: 0 <= k < |xs| && xs[k].key == key && Read(widen, data, r.value, depth) == Some(xs[k].value)
  {
    hide MapAt, ReadEntries, Keys, KeyOf, Item, Read, Below, Load;
    RefToMap(widen, data, ref, xs, depth);
    var at, w := ref.p - Load(data, ref.p, Bytes(ref.parent)).value, ref.w;
    MapParts(widen, data, at, w, xs, depth);
    var kv := Keys(data, at, w).value;
    var lo, hi := 0, kv.n;
    while lo < hi
      invariant 0 <= lo <= hi <= |xs|
      invariant forall k :: 0 <= k < lo ==> Below(xs[k].key, key)
      invariant forall k :: hi <= k < |xs| ==> Below(key, xs[k].key)
    {
      var mid := (lo + hi) / 2;
      EntryAt(widen, data, at, w, |xs|, |xs|, kv, xs, depth, mid);
      var found := KeyOf(data, kv, mid).value;
      if found == key {
        r := Item(data, at, w, kv.n, mid);
        return;
      }
      BelowTotal(key, found);
      if Below(key, found) {
        forall k | mid <= k < |xs| ensures Below(key, xs[k].key) {
          if k > mid {
            BelowTrans(key, found, xs[k].key);
          }
        }
        hi := mid;
      } else {
        forall k | 0 <= k <= mid ensures Below(xs[k].key, key) {
          if k < mid {
            BelowTrans(xs[k].key, found, key);
          }
        }
        lo := mid + 1;
      }
    }
    forall k | 0 <= k < |xs| ensures xs[k].key != key {
      BelowTotal(xs[k].key, key);
    }
    r := None;
  }

  /** The entries of a map that was built are in the order of their keys. */
  lemma BuiltMapsAscend(e: Env, t: Tree)
    requires t.Dict? && Legal(e, t)
    ensures Ascending(Canon(t).entries)
    ensures forall key :: NoKey(Canon(t).entries, key) <==> NoKey(t.entries, key)
  {
    hide Canon, CanonEntries, Legal, Sorted, Below;
    CanonOf(t);
    var xs, c := t.entries, CanonEntries(t.entries);
    DistinctOf(e, t);
    forall k | 0 <= k < |xs| ensures c[k].key == xs[k].key {
      CanonAt(xs, k);
    }
    SortedAscends(c);
    SortedPermutes(c);
    forall key ensures NoKey(Sorted(c), key) <==> NoKey(xs, key) {
      SameKeys(c, Sorted(c), key);
      SameKeys(Sorted(c), c, key);
    }
  }

  lemma DistinctOf(e: Env, t: Tree)
    requires t.Dict? && Legal(e, t)
    ensures Distinct(t.entries)
  {
  }

  lemma SameKeys(xs: seq<Keyed<Tree>>, ys: seq<Keyed<Tree>>, key: seq<byte>)
    requires multiset(xs) == multiset(ys)
    ensures NoKey(ys, key) ==> NoKey(xs, key)
  {
    if NoKey(ys, key) {
      forall k | 0 <= k < |xs| ensures xs[k].key != key {
        var j := MemberOf(xs, ys, k);
      }
    }
  }
}
