/** Build ids in lexicographic order, and the pruning of local version directories. */
module Versions {

  // ─── Order ─────────────────────────────────────────────────────────────────

  /** Comparison of strings by code point, as Python's `<`. */
  predicate Less(a: string, b: string) {
    b != [] && (a == [] || a[0] < b[0] || (a[0] == b[0] && Less(a[1..], b[1..])))
  }

  lemma {:induction false} Total(a: string, b: string)
    ensures Less(a, b) || a == b || Less(b, a)
  {
    if a != [] && b != [] && a[0] == b[0] {
      Total(a[1..], b[1..]);
      assert a == [a[0]] + a[1..] && b == [b[0]] + b[1..];
    }
  }

  lemma {:induction false} Irreflexive(a: string)
    ensures !Less(a, a)
  {
    if a != [] {
      Irreflexive(a[1..]);
    }
  }

  lemma {:induction false} Transitive(a: string, b: string, c: string)
    requires Less(a, b) && Less(b, c)
    ensures Less(a, c)
  {
    if a != [] && a[0] == b[0] && b[0] == c[0] {
      Transitive(a[1..], b[1..], c[1..]);
    }
  }

  lemma Asymmetric(a: string, b: string)
    requires Less(a, b)
    ensures !Less(b, a)
  {
    if Less(b, a) {
      Transitive(a, b, a);
      Irreflexive(a);
    }
  }

  /** The strings agree up to `i`, where the first has the smaller character. */
  predicate SmallerAt(a: string, b: string, i: nat) {
    i < |a| && i < |b| && a[..i] == b[..i] && a[i] < b[i]
  }

  predicate ProperPrefix(a: string, b: string) {
    |a| < |b| && b[..|a|] == a
  }

  /** The order of strings: a proper prefix comes first, else the first difference decides. */
  lemma {:induction false} LessIff(a: string, b: string)
    ensures Less(a, b) <==> ProperPrefix(a, b) || exists i: nat :: SmallerAt(a, b, i)
  {
    if a == [] {
      assert forall i: nat :: !SmallerAt(a, b, i);
      assert b != [] ==> b[..0] == [];
    } else if b == [] {
      assert forall i: nat :: !SmallerAt(a, b, i);
    } else if a[0] == b[0] {
      LessIff(a[1..], b[1..]);
      SameFirst(a, b);
    } else {
      DifferentFirst(a, b);
    }
  }

  lemma SameFirst(a: string, b: string)
    requires a != [] && b != [] && a[0] == b[0]
    ensures ProperPrefix(a, b) <==> ProperPrefix(a[1..], b[1..])
    ensures (exists i: nat :: SmallerAt(a, b, i)) <==> (exists i: nat :: SmallerAt(a[1..], b[1..], i))
  {
    assert a == [a[0]] + a[1..] && b == [b[0]] + b[1..];
    if ProperPrefix(a[1..], b[1..]) {
      assert b[..|a|] == [b[0]] + b[1..][..|a| - 1];
    }
    if ProperPrefix(a, b) {
      assert b[1..][..|a| - 1] == b[..|a|][1..];
    }
    forall i: nat ensures SmallerAt(a[1..], b[1..], i) ==> SmallerAt(a, b, i + 1) {
      if SmallerAt(a[1..], b[1..], i) {
        assert a[..i + 1] == [a[0]] + a[1..][..i] && b[..i + 1] == [b[0]] + b[1..][..i];
      }
    }
    forall i: nat ensures SmallerAt(a, b, i) ==> i > 0 && SmallerAt(a[1..], b[1..], i - 1) {
      if SmallerAt(a, b, i) {
        assert i > 0;
        assert a[1..][..i - 1] == a[..i][1..] && b[1..][..i - 1] == b[..i][1..];
      }
    }
  }

  lemma DifferentFirst(a: string, b: string)
    requires a != [] && b != [] && a[0] != b[0]
    ensures !ProperPrefix(a, b)
    ensures (exists i: nat :: SmallerAt(a, b, i)) <==> a[0] < b[0]
  {
    if |a| < |b| {
      assert b[..|a|][0] == b[0];
    }
    forall i: nat | 0 < i < |a| && i < |b| ensures a[..i] != b[..i] {
      assert a[..i][0] == a[0] && b[..i][0] == b[0];
    }
    if a[0] < b[0] {
      assert a[..0] == b[..0];
      assert SmallerAt(a, b, 0);
    }
  }

  // ─── Time stamps ───────────────────────────────────────────────────────────

  function Power(n: nat): (r: nat)
    ensures r >= 1
  {
    if n == 0 then 1 else 10 * Power(n - 1)
  }

  predicate Digits(s: string) {
    forall i :: 0 <= i < |s| ==> '0' <= s[i] <= '9'
  }

  function Digit(c: char): (r: nat)
    requires '0' <= c <= '9'
  {
    (c - '0') as nat
  }

  /** The number a string of digits writes. */
  function Number(s: string): (r: nat)
    requires Digits(s)
  {
    if s == [] then 0 else Digit(s[0]) * Power(|s| - 1) + Number(s[1..])
  }

  lemma Leading(p: nat, x: nat, y: nat, r: nat, q: nat)
    requires r < p && q < p
    ensures x * p + r < y * p + q <==> x < y || (x == y && r < q)
  {
    if x < y {
      assert (x + 1) * p <= y * p;
    } else if y < x {
      assert (y + 1) * p <= x * p;
    }
  }

  lemma {:induction false} NumberBound(s: string)
    requires Digits(s)
    ensures Number(s) < Power(|s|)
  {
    if s != [] {
      NumberBound(s[1..]);
      var p, x := Power(|s| - 1), Digit(s[0]);
      Leading(p, x, 10, Number(s[1..]), 0);
    }
  }

  /** Ids of equal length made of digits are ordered as numbers. */
  lemma {:induction false} NumericOrder(a: string, b: string)
    requires Digits(a) && Digits(b) && |a| == |b|
    ensures Less(a, b) <==> Number(a) < Number(b)
  {
    hide Power;
    if a != [] {
      NumericOrder(a[1..], b[1..]);
      NumberBound(a[1..]);
      NumberBound(b[1..]);
      Leading(Power(|a| - 1), Digit(a[0]), Digit(b[0]), Number(a[1..]), Number(b[1..]));
    }
  }

  predicate IsMax(s: set<string>, m: string) {
    m in s && forall x :: x in s ==> x == m || Less(x, m)
  }

  predicate IsMin(s: set<string>, m: string) {
    m in s && forall x :: x in s ==> x == m || Less(m, x)
  }

  lemma {:induction false} MaxExists(s: set<string>)
    requires s != {}
    ensures exists m :: IsMax(s, m)
  {
    var x :| x in s;
    var rest := s - {x};
    if rest == {} {
      forall y | y in s ensures y == x {
        assert y !in rest;
      }
      assert IsMax(s, x);
    } else {
      MaxExists(rest);
      var m :| IsMax(rest, m);
      Total(x, m);
      if Less(m, x) {
        forall y | y in s ensures y == x || Less(y, x) {
          if y != x && y != m {
            Transitive(y, m, x);
          }
        }
        assert IsMax(s, x);
      } else {
        assert IsMax(s, m);
      }
    }
  }

  lemma {:induction false} MinExists(s: set<string>)
    requires s != {}
    ensures exists m :: IsMin(s, m)
  {
    var x :| x in s;
    var rest := s - {x};
    if rest == {} {
      forall y | y in s ensures y == x {
        assert y !in rest;
      }
      assert IsMin(s, x);
    } else {
      MinExists(rest);
      var m :| IsMin(rest, m);
      Total(x, m);
      if Less(x, m) {
        forall y | y in s ensures y == x || Less(x, y) {
          if y != x && y != m {
            Transitive(x, m, y);
          }
        }
        assert IsMin(s, x);
      } else {
        assert IsMin(s, m);
      }
    }
  }

  lemma Extremes(s: set<string>)
    ensures forall a, b :: IsMax(s, a) && IsMax(s, b) ==> a == b
    ensures forall a, b :: IsMin(s, a) && IsMin(s, b) ==> a == b
  {
    forall a, b | IsMax(s, a) && IsMax(s, b) ensures a == b {
      if a != b {
        Asymmetric(a, b);
      }
    }
    forall a, b | IsMin(s, a) && IsMin(s, b) ensures a == b {
      if a != b {
        Asymmetric(a, b);
      }
    }
  }

  /** Python's `max` of a non-empty set. */
  function Max(s: set<string>): (m: string)
    requires s != {}
    ensures IsMax(s, m)
  {
    MaxExists(s);
    Extremes(s);
    var m :| IsMax(s, m);
    m
  }

  /** Of builds named by time stamps of one length the latest is the one with the greatest stamp. */
  lemma LatestStamp(s: set<string>, len: nat)
    requires s != {} && forall x :: x in s ==> Digits(x) && |x| == len
    ensures Max(s) in s && Digits(Max(s)) && forall x :: x in s ==> Digits(x) && Number(x) <= Number(Max(s))
  {
    hide Less, Number;
    forall x | x in s ensures Number(x) <= Number(Max(s)) {
      NumericOrder(x, Max(s));
    }
  }

  function Min(s: set<string>): (m: string)
    requires s != {}
    ensures IsMin(s, m)
  {
    MinExists(s);
    Extremes(s);
    var m :| IsMin(s, m);
    m
  }

  // ─── Rank ──────────────────────────────────────────────────────────────────

  function Above(s: set<string>, x: string): (r: set<string>) {
    set y | y in s && Less(x, y)
  }

  /** The `n` largest: those with fewer than `n` elements above them. */
  function Newest(s: set<string>, n: nat): (r: set<string>) {
    set x | x in s && |Above(s, x)| < n
  }

  /** `sorted(s, reverse=True)`. */
  function Descending(s: set<string>): (r: seq<string>)
    ensures |r| == |s|
  {
    if s == {} then [] else [Max(s)] + Descending(s - {Max(s)})
  }

  function Elements(r: seq<string>): (s: set<string>) {
    set x | x in r
  }

  lemma {:induction false} DescendingElements(s: set<string>)
    ensures Elements(Descending(s)) == s
  {
    if s != {} {
      DescendingElements(s - {Max(s)});
      assert s == {Max(s)} + (s - {Max(s)});
      assert forall x :: x in Descending(s) <==> x == Max(s) || x in Elements(Descending(s - {Max(s)}));
    }
  }

  lemma NothingAboveMax(s: set<string>)
    requires s != {}
    ensures Above(s, Max(s)) == {}
  {
    var m := Max(s);
    forall y | y in s ensures !Less(m, y) {
      if y == m {
        Irreflexive(m);
      } else {
        Asymmetric(y, m);
      }
    }
  }

  lemma AboveSplit(s: set<string>, x: string)
    requires s != {} && x in s && x != Max(s)
    ensures Above(s, x) == Above(s - {Max(s)}, x) + {Max(s)} && Max(s) !in Above(s - {Max(s)}, x)
  {
    hide Less;
    assert Less(x, Max(s));
  }

  lemma ElementsCons(m: string, r: seq<string>)
    ensures Elements([m] + r) == {m} + Elements(r)
  {
  }

  /** In descending order the elements above the i-th are those before it. */
  lemma {:induction false} AboveIsBefore(s: set<string>, i: nat)
    requires i < |s|
    ensures Above(s, Descending(s)[i]) == Elements(Descending(s)[..i]) && |Above(s, Descending(s)[i])| == i
  {
    hide Less, Above, Max, Elements;
    var m := Max(s);
    var rest, d := s - {m}, Descending(s);
    if i == 0 {
      NothingAboveMax(s);
      assert d[..0] == [];
      ElementsEmpty();
    } else {
      var e := Descending(rest);
      AboveIsBefore(rest, i - 1);
      var x := d[i];
      assert x == e[i - 1];
      InDescending(rest, i - 1);
      AboveSplit(s, x);
      assert d[..i] == [m] + e[..i - 1];
      ElementsCons(m, e[..i - 1]);
    }
  }

  lemma ElementsEmpty()
    ensures Elements([]) == {}
  {
  }

  lemma InDescending(s: set<string>, i: nat)
    requires i < |s|
    ensures Descending(s)[i] in s
  {
    DescendingElements(s);
    assert Descending(s)[i] in Elements(Descending(s));
  }

  lemma NewestIsPrefix(s: set<string>, n: nat)
    requires n <= |s|
    ensures Elements(Descending(s)[..n]) == Newest(s, n) && |Newest(s, n)| == n
  {
    hide Less, Above, Descending;
    var d := Descending(s);
    forall x | x in d[..n] ensures x in Newest(s, n) {
      var j :| 0 <= j < n && d[..n][j] == x;
      AboveIsBefore(s, j);
      InDescending(s, j);
    }
    forall x | x in Newest(s, n) ensures x in d[..n] {
      DescendingElements(s);
      assert x in Elements(d);
      var i :| 0 <= i < |d| && d[i] == x;
      AboveIsBefore(s, i);
      assert d[..n][i] == x;
    }
    PrefixSize(s, n);
  }

  lemma PrefixSize(s: set<string>, n: nat)
    requires n <= |s|
    ensures |Elements(Descending(s)[..n])| == n
  {
    var d := Descending(s);
    if n < |s| {
      AboveIsBefore(s, n);
    } else {
      assert d[..n] == d;
      DescendingElements(s);
    }
  }

  lemma NewestAll(s: set<string>, n: nat)
    requires n >= |s|
    ensures Newest(s, n) == s
  {
    NewestIsPrefix(s, |s|);
    var d := Descending(s);
    assert d[..|s|] == d;
    DescendingElements(s);
    forall x | x in s ensures |Above(s, x)| < n {
      assert x in Newest(s, |s|);
    }
  }

  // ─── Pruning ───────────────────────────────────────────────────────────────

  /** The directories `_prune_local_versions` leaves. */
  function Kept(local: set<string>, keepN: int, pulled: string): (r: set<string>) {
    if keepN <= 0 then local else local * Newest(local + {pulled}, keepN)
  }

  /** The minimum of the newest and an older one is the older one. */
  lemma OlderIsMin(s: set<string>, n: nat, x: string)
    requires x in s && x !in Newest(s, n)
    ensures Min(Newest(s, n) + {x}) == x
  {
    var t := Newest(s, n) + {x};
    var m := Min(t);
    if m != x {
      assert Less(m, x);
      assert m in s && |Above(s, m)| < n;
      forall y | y in Above(s, x) ensures y in Above(s, m) {
        Transitive(m, x, y);
      }
      SubsetSize(Above(s, x), Above(s, m));
    }
  }

  lemma SubsetSize(a: set<string>, b: set<string>)
    requires a <= b
    ensures |a| <= |b|
  {
    assert b == a + (b - a);
  }

  /**
   `_prune_local_versions`: exactly the `keepN` largest of the local versions and
   the pulled one are left.  In particular the pulled one is removed when `keepN`
   versions are newer, whatever its doc string says.
   */
  method PruneLocalVersions(local: set<string>, keepN: int, mustKeep: string) returns (left: set<string>)
    ensures left == Kept(local, keepN, mustKeep)
    ensures keepN > 0 && mustKeep in local ==>
      (mustKeep in left <==> |Above(local + {mustKeep}, mustKeep)| < keepN)
  {
    hide Less, Above, Descending, Newest;
    if keepN <= 0 || local == {} {
      return local;
    }
    var combined := local + {mustKeep};
    var ordered := Descending(combined);
    var keep: set<string> := {};
    var i := 0;
    while i < |ordered|
      invariant 0 <= i <= |ordered| && i <= keepN
      invariant keep == Elements(ordered[..i]) && |keep| == i
    {
      if |keep| >= keepN {
        break;
      }
      PrefixGrows(combined, i);
      keep := keep + {ordered[i]};
      i := i + 1;
    }
    TakenNewest(combined, i, keepN);
    ghost var newest := Newest(combined, keepN);
    if mustKeep !in keep {
      OlderIsMin(combined, keepN, mustKeep);
      keep := keep + {mustKeep};
    }
    while |keep| > keepN
      invariant keep == newest || (keep == newest + {mustKeep} && Min(keep) == mustKeep && mustKeep !in newest && |newest| == keepN)
      invariant |newest| <= keepN
      decreases |keep|
    {
      keep := keep - {Min(keep)};
    }
    left := local * keep;
    NewestMeans(combined, keepN, mustKeep);
  }

  lemma NewestMeans(s: set<string>, n: nat, x: string)
    requires x in s
    ensures x in Newest(s, n) <==> |Above(s, x)| < n
  {
  }

  lemma PrefixGrows(s: set<string>, i: nat)
    requires i < |s|
    ensures Elements(Descending(s)[..i + 1]) == Elements(Descending(s)[..i]) + {Descending(s)[i]}
    ensures |Elements(Descending(s)[..i + 1])| == i + 1
  {
    hide Descending;
    var d := Descending(s);
    assert d[..i + 1] == d[..i] + [d[i]];
    PrefixSize(s, i + 1);
  }

  lemma TakenNewest(s: set<string>, i: nat, n: nat)
    requires i <= |s| && i <= n && (i == n || i == |s|)
    ensures Elements(Descending(s)[..i]) == Newest(s, n) && |Newest(s, n)| == i
    ensures i < n ==> Newest(s, n) == s
  {
    hide Less, Above, Descending;
    NewestIsPrefix(s, i);
    if i < n {
      NewestAll(s, i);
      NewestAll(s, n);
    }
  }
}
