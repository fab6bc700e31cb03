/** Slices of sequences. */
module Seqs {

  lemma SliceLeft<T>(a: seq<T>, b: seq<T>, i: nat, j: nat)
    requires i <= j <= |a|
    ensures (a + b)[i..j] == a[i..j]
  {
  }

  lemma SliceSlice<T>(s: seq<T>, a: nat, b: nat, i: nat, j: nat)
    requires a <= b <= |s| && i <= j <= b - a
    ensures s[a..b][i..j] == s[a + i..a + j]
  {
    var u, v := s[a..b][i..j], s[a + i..a + j];
    forall k | 0 <= k < |v| ensures u[k] == v[k] {
      assert u[k] == s[a..b][i + k] == s[a + (i + k)];
    }
  }

  lemma Assoc<T>(a: seq<T>, b: seq<T>, c: seq<T>)
    ensures (a + b) + c == a + (b + c)
  {
  }

  lemma TakeConcat<T>(a: seq<T>, b: seq<T>)
    ensures (a + b)[..|a|] == a && (a + b)[|a|..] == b
  {
  }

  lemma Two<T>(s: seq<T>, i: nat)
    requires i + 2 <= |s|
    ensures s[i..i + 2] == [s[i], s[i + 1]]
  {
  }

  /** The part from `cur` on of contents that were overwritten at `at`. */
  lemma TailOfSplice<T>(c: seq<T>, c': seq<T>, cur: nat, at: nat, bytes: seq<T>)
    requires cur <= at && at + |bytes| <= |c| == |c'|
    requires c'[..at] == c[..at] && c'[at..at + |bytes|] == bytes && c'[at + |bytes|..] == c[at + |bytes|..]
    ensures c'[cur..] == c[cur..][..at - cur] + bytes + c[cur..][at - cur + |bytes|..]
  {
    var n := |bytes|;
    var v := c[cur..][..at - cur] + bytes + c[cur..][at - cur + n..];
    forall k | 0 <= k < |v| ensures c'[cur..][k] == v[k] {
      var p := cur + k;
      if p < at {
        assert c'[p] == c'[..at][p] == c[..at][p];
      } else if p < at + n {
        assert c'[p] == c'[at..at + n][p - at];
      } else {
        assert c'[p] == c'[at + n..][p - (at + n)] == c[at + n..][p - (at + n)];
      }
    }
  }
}
