/**
 Bytes, little-endian scalars, and the two bit tricks FlatBuffers aligns with.
 Unsigned machine words are naturals; bitwise operations are defined on their
 binary digits, so that what `~x + 1 & (a - 1)` computes is proved, not assumed.
 */
module Bits {
  type byte = x: int | 0 <= x < 256

  function Zeros(n: nat): (s: seq<byte>)
    ensures |s| == n && forall i :: 0 <= i < n ==> s[i] == 0
  {
    seq(n, i => 0)
  }

  function Max(a: nat, b: nat): (r: nat)
    ensures r >= a && r >= b && (r == a || r == b)
  {
    if a > b then a else b
  }

  // ─── Little-endian scalars ─────────────────────────────────────────────────

  function Pow256(w: nat): (r: nat)
    ensures r >= 1
  {
    if w == 0 then 1 else 256 * Pow256(w - 1)
  }

  /** The low `w` bytes of `v`, least significant first. */
  function Encode(v: nat, w: nat): (s: seq<byte>)
    ensures |s| == w
    decreases w
  {
    if w == 0 then [] else [v % 256] + Encode(v / 256, w - 1)
  }

  function Decode(s: seq<byte>): (v: nat) {
    if s == [] then 0 else s[0] + 256 * Decode(s[1..])
  }

  lemma {:induction false} DecodeEncode(v: nat, w: nat)
    requires v < Pow256(w)
    ensures Decode(Encode(v, w)) == v
    decreases w
  {
    if w > 0 {
      assert v / 256 < Pow256(w - 1);
      DecodeEncode(v / 256, w - 1);
      assert Encode(v, w)[1..] == Encode(v / 256, w - 1);
    }
  }

  lemma {:induction false} EncodeDecode(s: seq<byte>)
    ensures Decode(s) < Pow256(|s|)
    ensures Encode(Decode(s), |s|) == s
  {
    if s != [] {
      EncodeDecode(s[1..]);
      var d := Decode(s[1..]);
      assert Decode(s) % 256 == s[0] && Decode(s) / 256 == d;
    }
  }

  lemma Widths()
    ensures Pow256(1) == 0x100 && Pow256(2) == 0x1_0000 && Pow256(4) == 0x1_0000_0000
    ensures Pow256(8) == 0x1_0000_0000_0000_0000
  {
    assert Pow256(3) == 0x100_0000 && Pow256(4) == 256 * Pow256(3);
    assert Pow256(5) == 256 * Pow256(4) && Pow256(6) == 256 * Pow256(5) && Pow256(7) == 256 * Pow256(6);
  }

  // ─── Division ──────────────────────────────────────────────────────────────

  lemma MulAtLeast(d: int, k: int)
    requires d > 0 && k >= 1
    ensures d * k >= d
  {
  }

  lemma DivModUnique(x: int, d: int, q: int, r: int)
    requires d > 0 && 0 <= r < d && x == d * q + r
    ensures x / d == q && x % d == r
  {
    var q', r' := x / d, x % d;
    var z := q' - q;
    assert d * z == r - r' by {
      assert x == d * q' + r';
      assert d * z == d * q' - d * q;
    }
    if z >= 1 {
      MulAtLeast(d, z);
    } else if z <= -1 {
      assert d * (-z) == -(d * z);
      MulAtLeast(d, -z);
    }
  }

  lemma HalfMod(x: nat, m: nat)
    requires m >= 1
    ensures x % 2 + 2 * ((x / 2) % m) == x % (2 * m)
  {
    var h := x / 2;
    var q, r := h / m, h % m;
    assert h == m * q + r;
    assert x == (2 * m) * q + (x % 2 + 2 * r) by {
      assert (2 * m) * q == 2 * (m * q);
    }
    DivModUnique(x, 2 * m, q, x % 2 + 2 * r);
  }

  // ─── Bitwise operations ────────────────────────────────────────────────────

  const WORD: nat := 0x1_0000_0000_0000_0000

  function Pow2(k: nat): (r: nat)
    ensures r >= 1
  {
    if k == 0 then 1 else 2 * Pow2(k - 1)
  }

  ghost predicate IsPow2(a: nat) {
    exists k: nat {:trigger Pow2(k)} :: k <= 32 && a == Pow2(k)
  }

  /** Bitwise and. */
  function And(x: nat, y: nat): (r: nat)
    decreases x
  {
    if x == 0 then 0
    else (if x % 2 == 1 && y % 2 == 1 then 1 else 0) + 2 * And(x / 2, y / 2)
  }

  /** Bitwise or. */
  function Or(x: nat, y: nat): (r: nat)
    decreases x
  {
    if x == 0 then y
    else (if x % 2 == 1 || y % 2 == 1 then 1 else 0) + 2 * Or(x / 2, y / 2)
  }

  /** Bitwise complement of a 64-bit word. */
  function Not(x: nat): (r: nat)
    requires x < WORD
  {
    WORD - 1 - x
  }

  lemma {:induction false} AndZero(x: nat)
    ensures And(x, 0) == 0
  {
    if x > 0 {
      AndZero(x / 2);
    }
  }

  /** Masking with `2^k - 1` is the remainder modulo `2^k`. */
  lemma {:induction false} AndMask(x: nat, k: nat)
    ensures And(x, Pow2(k) - 1) == x % Pow2(k)
    decreases k
  {
    if k == 0 {
      AndZero(x);
    } else {
      var m := Pow2(k - 1);
      var y := Pow2(k) - 1;
      assert y % 2 == 1 && y / 2 == m - 1;
      AndMask(x / 2, k - 1);
      HalfMod(x, m);
    }
  }

  /** Masking a `w`-bit word with the complement of `2^k - 1` clears its low `k` bits. */
  lemma {:induction false} AndClear(x: nat, w: nat, k: nat)
    requires k <= w && x < Pow2(w)
    ensures Pow2(k) <= Pow2(w) && And(x, Pow2(w) - Pow2(k)) == x - x % Pow2(k)
    decreases k
  {
    if k == 0 {
      AndMask(x, w);
      DivModUnique(x, Pow2(w), 0, x);
    } else {
      var m := Pow2(k - 1);
      var y := Pow2(w) - Pow2(k);
      assert y % 2 == 0 && y / 2 == Pow2(w - 1) - m;
      AndClear(x / 2, w - 1, k - 1);
      HalfMod(x, m);
    }
  }

  /** Disjoint digits: `x | (y << k)` is a sum for `x` below `2^k`. */
  lemma {:induction false} OrShifted(x: nat, y: nat, k: nat)
    requires x < Pow2(k)
    ensures Or(x, y * Pow2(k)) == x + y * Pow2(k)
    decreases k
  {
    if x > 0 {
      var m := Pow2(k - 1);
      assert y * Pow2(k) == 2 * (y * m);
      OrShifted(x / 2, y, k - 1);
    }
  }

  lemma {:induction false} Pow2Add(i: nat, j: nat)
    ensures Pow2(i + j) == Pow2(i) * Pow2(j)
  {
    if i > 0 {
      Pow2Add(i - 1, j);
      assert Pow2(i) * Pow2(j) == 2 * (Pow2(i - 1) * Pow2(j));
    }
  }

  lemma Pow2Sixteen()
    ensures Pow2(16) == 0x1_0000
  {
    assert Pow2(4) == 16;
    hide Pow2;
    Pow2Add(4, 4);
    Pow2Add(8, 8);
  }

  lemma Pow2Word()
    ensures Pow2(64) == WORD && Pow2(32) == 0x1_0000_0000
  {
    hide Pow2;
    assert Pow2(16) == 0x1_0000 by {
      Pow2Sixteen();
    }
    Pow2Add(16, 16);
    Pow2Add(32, 32);
  }

  lemma WordSplit(k: nat)
    requires k <= 32
    ensures Pow2(k) * Pow2(64 - k) == WORD && Pow2(k) < WORD
  {
    hide Pow2;
    Pow2Add(k, 64 - k);
    Pow2Word();
    Pow2Grows(k, 32);
  }

  lemma {:induction false} Pow2Grows(i: nat, j: nat)
    requires i <= j
    ensures Pow2(i) <= Pow2(j)
    decreases j
  {
    if i < j {
      Pow2Grows(i, j - 1);
    }
  }

  // ─── Alignment ─────────────────────────────────────────────────────────────

  /** `PaddingBytes`: how many bytes to write so that the buffer size becomes a multiple of `a`. */
  function PaddingBytes(size: nat, a: nat): (r: nat)
    requires size < WORD && a >= 1
  {
    And((Not(size) + 1) % WORD, a - 1)
  }

  lemma NegMod(size: nat, a: nat, w: nat)
    requires a >= 1 && 0 < size <= a * w
    ensures (size + (a * w - size) % a) % a == 0
    ensures size % a == 0 ==> (a * w - size) % a == 0
  {
    var q, r := size / a, size % a;
    assert size == a * q + r;
    if r == 0 {
      assert a * w - size == a * (w - q);
      DivModUnique(a * w - size, a, w - q, 0);
    } else {
      assert a * w - size == a * (w - q - 1) + (a - r) by {
        assert a * (w - q - 1) == a * w - a * q - a;
      }
      DivModUnique(a * w - size, a, w - q - 1, a - r);
      assert size + (a - r) == a * (q + 1);
      DivModUnique(size + (a - r), a, q + 1, 0);
    }
  }

  /** It is the least number of bytes that does so, for every power of two. */
  lemma PaddingAligns(size: nat, a: nat)
    requires size < WORD && IsPow2(a)
    ensures PaddingBytes(size, a) < a
    ensures (size + PaddingBytes(size, a)) % a == 0
    ensures size % a == 0 ==> PaddingBytes(size, a) == 0
  {
    hide Pow2, And;
    var k: nat :| k <= 32 && a == Pow2(k);
    WordSplit(k);
    var w := Pow2(64 - k);
    AndMask((Not(size) + 1) % WORD, k);
    if size == 0 {
      DivModUnique(0, a, 0, 0);
    } else {
      assert (Not(size) + 1) % WORD == a * w - size;
      NegMod(size, a, w);
    }
  }

  /** `(x + a - 1) & ~(a - 1)`. */
  function RoundUp(x: nat, a: nat): (r: nat)
    requires 1 <= a < WORD
  {
    And(x + a - 1, Not(a - 1))
  }

  /** It is the least multiple of `a` that is not below `x`. */
  lemma RoundUpAligns(x: nat, a: nat)
    requires IsPow2(a) && x + a <= WORD
    ensures a < WORD && x <= RoundUp(x, a) < x + a && RoundUp(x, a) % a == 0
  {
    hide Pow2, And;
    var k: nat :| k <= 32 && a == Pow2(k);
    WordSplit(k);
    Pow2Word();
    var y := x + a - 1;
    AndClear(y, 64, k);
    var q := y / a;
    assert y == a * q + y % a;
    DivModUnique(a * q, a, q, 0);
  }

  // ─── Divisibility ──────────────────────────────────────────────────────────

  lemma MultipleMod(x: int, d: int, q: int)
    requires d > 0 && x == d * q
    ensures x % d == 0
  {
    DivModUnique(x, d, q, 0);
  }

  lemma ModSum(x: int, y: int, d: int)
    requires d > 0 && x % d == 0 && y % d == 0
    ensures (x + y) % d == 0 && (x - y) % d == 0
  {
    assert x + y == d * (x / d + y / d) && x - y == d * (x / d - y / d);
    MultipleMod(x + y, d, x / d + y / d);
    MultipleMod(x - y, d, x / d - y / d);
  }

  lemma ModChain(x: int, m: int, d: int)
    requires m > 0 && d > 0 && x % m == 0 && m % d == 0
    ensures x % d == 0
  {
    var k, l := x / m, m / d;
    assert x == m * k && m == d * l;
    assert m * k == d * (l * k);
    MultipleMod(x, d, l * k);
  }

  /** Of two powers of two the smaller divides the larger. */
  lemma Pow2Divides(a: nat, b: nat)
    requires IsPow2(a) && IsPow2(b) && a <= b
    ensures a >= 1 && b % a == 0
  {
    hide Pow2;
    var i: nat :| i <= 32 && a == Pow2(i);
    var j: nat :| j <= 32 && b == Pow2(j);
    if i <= j {
      Pow2Add(i, j - i);
      MultipleMod(b, a, Pow2(j - i));
    } else {
      Pow2Grows(j, i);
      MultipleMod(b, a, 1);
    }
  }

  /** The padding as arithmetic: what is missing to the next multiple of `a`. */
  function Padding(size: nat, a: nat): (r: nat)
    requires a >= 1
    ensures r < a
  {
    if size % a == 0 then 0 else a - size % a
  }

  lemma PaddedMod(size: nat, a: nat)
    requires a >= 1
    ensures (size + Padding(size, a)) % a == 0
  {
    if size % a != 0 {
      assert size + Padding(size, a) == a * (size / a + 1);
      MultipleMod(size + Padding(size, a), a, size / a + 1);
    }
  }

  lemma PaddingUnique(size: nat, a: nat, p: nat)
    requires a >= 1 && p < a && (size + p) % a == 0
    ensures p == Padding(size, a)
  {
    var q := Padding(size, a);
    PaddedMod(size, a);
    ModSum(size + p, size + q, a);
    if p > q {
      DivModUnique(p - q, a, 0, p - q);
    } else if p < q {
      assert (size + p) - (size + q) == p - q;
      DivModUnique(p - q, a, -1, p - q + a);
    }
  }

  /** The bit trick computes it, for every power of two. */
  lemma PaddingBytesIsPadding(size: nat, a: nat)
    requires size < WORD && IsPow2(a)
    ensures a >= 1 && PaddingBytes(size, a) == Padding(size, a)
  {
    PaddingAligns(size, a);
    PaddingUnique(size, a, PaddingBytes(size, a));
  }

  lemma ScalarSizes()
    ensures IsPow2(1) && IsPow2(2) && IsPow2(4) && IsPow2(8)
  {
    assert Pow2(0) == 1 && Pow2(1) == 2 && Pow2(2) == 4 && Pow2(3) == 8;
  }
}
