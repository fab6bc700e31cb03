/** Map keys: the order of `strcmp`, and entries sorted by it. */
module FlexKeys {
  import opened Bits

  datatype Keyed<T> = Keyed(key: seq<byte>, value: T)

  /** `strcmp(a, b) < 0` for strings without a zero byte. */
  predicate Below(a: seq<byte>, b: seq<byte>) {
    b != [] && (a == [] || a[0] < b[0] || (a[0] == b[0] && Below(a[1..], b[1..])))
  }

  lemma {:induction false} BelowTotal(a: seq<byte>, b: seq<byte>)
    ensures Below(a, b) || a == b || Below(b, a)
    ensures !(Below(a, b) && Below(b, a)) && !Below(a, a)
  {
    if a != [] {
      BelowTotal(a[1..], a[1..]);
      if b != [] && a[0] == b[0] {
        BelowTotal(a[1..], b[1..]);
        if a[1..] == b[1..] {
          assert a == [a[0]] + a[1..] && b == [b[0]] + b[1..];
        }
      }
    }
  }

  lemma {:induction false} BelowTrans(a: seq<byte>, b: seq<byte>, c: seq<byte>)
    requires Below(a, b) && Below(b, c)
    ensures Below(a, c)
  {
    if a != [] && a[0] == b[0] && b[0] == c[0] {
      BelowTrans(a[1..], b[1..], c[1..]);
    }
  }

  predicate NoKey<T>(xs: seq<Keyed<T>>, key: seq<byte>) {
    forall k :: 0 <= k < |xs| ==> xs[k].key != key
  }

  predicate Distinct<T>(xs: seq<Keyed<T>>) {
    forall i, j :: 0 <= i < j < |xs| ==> xs[i].key != xs[j].key
  }

  predicate Ascending<T>(xs: seq<Keyed<T>>) {
    forall i, j :: 0 <= i < j < |xs| ==> Below(xs[i].key, xs[j].key)
  }

  function Insert<T>(x: Keyed<T>, xs: seq<Keyed<T>>): (r: seq<Keyed<T>>)
    ensures |r| == |xs| + 1
  {
    if xs == [] || Below(x.key, xs[0].key) then [x] + xs else [xs[0]] + Insert(x, xs[1..])
  }

  /** What `std::sort` leaves of entries with distinct keys. */
  function Sorted<T>(xs: seq<Keyed<T>>): (r: seq<Keyed<T>>)
    ensures |r| == |xs|
  {
    if xs == [] then [] else Insert(xs[|xs| - 1], Sorted(xs[..|xs| - 1]))
  }

  lemma {:induction false} InsertPermutes<T>(x: Keyed<T>, xs: seq<Keyed<T>>)
    ensures multiset(Insert(x, xs)) == multiset(xs) + multiset{x}
  {
    if !(xs == [] || Below(x.key, xs[0].key)) {
      InsertPermutes(x, xs[1..]);
      assert xs == [xs[0]] + xs[1..];
    }
  }

  lemma {:induction false} SortedPermutes<T>(xs: seq<Keyed<T>>)
    ensures multiset(Sorted(xs)) == multiset(xs)
  {
    if xs != [] {
      var last := |xs| - 1;
      SortedPermutes(xs[..last]);
      InsertPermutes(xs[last], Sorted(xs[..last]));
      assert xs == xs[..last] + [xs[last]];
    }
  }

  lemma MemberOf<T>(xs: seq<Keyed<T>>, ys: seq<Keyed<T>>, k: nat) returns (j: nat)
    requires multiset(xs) == multiset(ys) && k < |xs|
    ensures j < |ys| && ys[j] == xs[k]
  {
    assert xs[k] in multiset(ys);
    j :| 0 <= j < |ys| && ys[j] == xs[k];
  }

  lemma {:induction false} InsertAscends<T>(x: Keyed<T>, xs: seq<Keyed<T>>)
    requires Ascending(xs) && NoKey(xs, x.key)
    ensures Ascending(Insert(x, xs))
  {
    if xs == [] {
    } else if Below(x.key, xs[0].key) {
      forall j | 0 <= j < |xs| ensures Below(x.key, xs[j].key) {
        if j > 0 {
          BelowTrans(x.key, xs[0].key, xs[j].key);
        }
      }
    } else {
      BelowTotal(x.key, xs[0].key);
      InsertAscends(x, xs[1..]);
      var r := Insert(x, xs[1..]);
      InsertPermutes(x, xs[1..]);
      forall j | 0 <= j < |r| ensures Below(xs[0].key, r[j].key) {
        assert r[j] in multiset(r);
        assert r[j] == x || r[j] in xs[1..];
      }
    }
  }

  lemma {:induction false} SortedAscends<T>(xs: seq<Keyed<T>>)
    requires Distinct(xs)
    ensures Ascending(Sorted(xs))
  {
    if xs != [] {
      var last := |xs| - 1;
      SortedAscends(xs[..last]);
      var s := Sorted(xs[..last]);
      SortedPermutes(xs[..last]);
      forall k | 0 <= k < |s| ensures s[k].key != xs[last].key {
        var j := MemberOf(s, xs[..last], k);
      }
      InsertAscends(xs[last], s);
    }
  }

  /** Any arrangement in ascending order is this one, whatever the algorithm that made it. */
  lemma {:induction false} AscendingIsUnique<T>(xs: seq<Keyed<T>>, ys: seq<Keyed<T>>)
    requires Ascending(xs) && Ascending(ys) && multiset(xs) == multiset(ys)
    ensures xs == ys
  {
    assert |xs| == |multiset(xs)| && |ys| == |multiset(ys)|;
    if xs != [] {
      FirstAgrees(xs, ys);
      assert xs == [xs[0]] + xs[1..] && ys == [ys[0]] + ys[1..];
      assert multiset(xs[1..]) == multiset(xs) - multiset{xs[0]};
      assert multiset(ys[1..]) == multiset(ys) - multiset{ys[0]};
      AscendingIsUnique(xs[1..], ys[1..]);
    }
  }

  lemma FirstAgrees<T>(xs: seq<Keyed<T>>, ys: seq<Keyed<T>>)
    requires Ascending(xs) && Ascending(ys) && multiset(xs) == multiset(ys) && xs != [] && ys != []
    ensures xs[0] == ys[0]
  {
    var j := MemberOf(xs, ys, 0);
    var i := MemberOf(ys, xs, 0);
    if i > 0 && j > 0 {
      BelowTotal(xs[0].key, ys[0].key);
    }
  }
}
