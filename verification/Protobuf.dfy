/** The hand-written protobuf envelope: varints, and a message with one bytes field. */
module Protobuf {
  import opened Wrappers
  import opened Bits

  // ─── Varints ───────────────────────────────────────────────────────────────

  /** Seven bits a byte, least significant first; all but the last byte have the top bit set. */
  function Varint(n: nat): (r: seq<byte>)
    ensures |r| >= 1
  {
    if n < 128 then [n] else [n % 128 + 128] + Varint(n / 128)
  }

  /** The number at `pos` and the position after it; `None` when the bytes end early. */
  function VarintAt(buf: seq<byte>, pos: nat): (r: Option<(nat, nat)>)
    ensures r.Some? ==> pos < r.value.1 <= |buf|
    decreases if pos < |buf| then |buf| - pos else 0
  {
    if pos >= |buf| then None
    else if buf[pos] < 128 then Some((buf[pos], pos + 1))
    else match VarintAt(buf, pos + 1)
      case None => None
      case Some((v, next)) => Some((buf[pos] % 128 + 128 * v, next))
  }

  lemma LowSeven(x: nat)
    ensures And(x, 0x7F) == x % 128
  {
    Pow2Seven();
    AndMask(x, 7);
  }

  lemma Pow2Seven()
    ensures Pow2(3) == 8 && Pow2(7) == 128 && Pow2(8) == 256
  {
    assert Pow2(4) == 16;
  }

  lemma TopBit(b: byte)
    ensures And(b, 0x80) != 0 <==> b >= 128
  {
    Pow2Seven();
    AndClear(b, 8, 7);
  }

  lemma SetTopBit(x: nat)
    requires x < 128
    ensures Or(x, 0x80) == x + 128
  {
    Pow2Seven();
    OrShifted(x, 1, 7);
  }

  method EncodeVarint(n: nat) returns (out: seq<byte>)
    ensures out == Varint(n)
  {
    hide And, Or;
    out := [];
    var m := n;
    while m >= 0x80
      invariant out + Varint(m) == Varint(n)
      decreases m
    {
      LowSeven(m);
      SetTopBit(m % 128);
      var b := Or(And(m, 0x7F), 0x80);
      assert Varint(m) == [b] + Varint(m / 128);
      assert out + ([b] + Varint(m / 128)) == (out + [b]) + Varint(m / 128);
      out := out + [b];
      m := m / 128;
    }
    out := out + [m];
  }

  /** What is left to decode, added above the `shift` bits decoded so far. */
  function Shifted(r: Option<(nat, nat)>, x: nat, shift: nat): (s: Option<(nat, nat)>) {
    match r
    case None => None
    case Some((v, next)) => Some((x + v * Pow2(shift), next))
  }

  lemma ShiftMore(buf: seq<byte>, pos: nat, x: nat, shift: nat)
    requires pos < |buf| && x < Pow2(shift)
    ensures
      var b := buf[pos];
      var x' := Or(x, And(b, 0x7F) * Pow2(shift));
      && x' < Pow2(shift + 7)
      && (b < 128 ==> Shifted(VarintAt(buf, pos), x, shift) == Some((x', pos + 1)))
      && (b >= 128 ==> Shifted(VarintAt(buf, pos), x, shift) == Shifted(VarintAt(buf, pos + 1), x', shift + 7))
  {
    hide And, Or, Pow2;
    var b := buf[pos];
    LowSeven(b);
    OrShifted(x, b % 128, shift);
    SevenMore(x, b % 128, shift);
    if b >= 128 && VarintAt(buf, pos + 1).Some? {
      Distribute(b % 128, VarintAt(buf, pos + 1).value.0, shift);
    }
  }

  lemma SevenMore(x: nat, d: nat, shift: nat)
    requires x < Pow2(shift) && d < 128
    ensures x + d * Pow2(shift) < Pow2(shift + 7)
  {
    hide Pow2;
    Pow2Add(shift, 7);
    Pow2Seven();
    MulLe(d, 127, Pow2(shift));
  }

  lemma MulLe(a: nat, b: nat, p: nat)
    requires a <= b
    ensures a * p <= b * p
  {
  }

  lemma Distribute(d: nat, v: nat, shift: nat)
    ensures (d + 128 * v) * Pow2(shift) == d * Pow2(shift) + v * Pow2(shift + 7)
  {
    hide Pow2;
    Pow2Add(shift, 7);
    Pow2Seven();
    var p := Pow2(shift);
    assert (d + 128 * v) * p == d * p + v * (p * 128);
  }

  /** `None` is the ValueError for a truncated varint. */
  method DecodeVarint(buf: seq<byte>, start: nat) returns (r: Option<(nat, nat)>)
    ensures r == VarintAt(buf, start)
  {
    hide And, Or, VarintAt;
    var x: nat, shift: nat, pos: nat := 0, 0, start;
    ShiftNone(VarintAt(buf, start));
    while pos < |buf|
      invariant x < Pow2(shift)
      invariant VarintAt(buf, start) == Shifted(VarintAt(buf, pos), x, shift)
      decreases |buf| - pos
    {
      var b := buf[pos];
      ShiftMore(buf, pos, x, shift);
      TopBit(b);
      pos := pos + 1;
      x := Or(x, And(b, 0x7F) * Pow2(shift));
      if And(b, 0x80) == 0 {
        return Some((x, pos));
      }
      shift := shift + 7;
    }
    PastEnd(buf, pos);
    return None;
  }

  lemma ShiftNone(r: Option<(nat, nat)>)
    ensures Shifted(r, 0, 0) == r && 0 < Pow2(0)
  {
  }

  lemma PastEnd(buf: seq<byte>, pos: nat)
    requires pos >= |buf|
    ensures VarintAt(buf, pos) == None
  {
  }

  /** Decoding finds every encoded number and where it ends, whatever surrounds it. */
  lemma {:induction false} VarintRoundTrip(pre: seq<byte>, n: nat, rest: seq<byte>)
    ensures VarintAt(pre + Varint(n) + rest, |pre|) == Some((n, |pre| + |Varint(n)|))
    decreases n
  {
    var buf := pre + Varint(n) + rest;
    assert buf[|pre|] == Varint(n)[0];
    if n >= 128 {
      var b: byte := n % 128 + 128;
      VarintRoundTrip(pre + [b], n / 128, rest);
      assert buf == (pre + [b]) + Varint(n / 128) + rest;
    }
  }

  // ─── The envelope ──────────────────────────────────────────────────────────

  function Wrap(body: seq<byte>): (r: seq<byte>) {
    Varint(8 + 2) + Varint(|body|) + body
  }

  function Clamp(i: nat, n: nat): (r: nat)
    ensures r <= n && r <= i
  {
    if i < n then i else n
  }

  /** A Python slice: bounds beyond the end are cut. */
  function Slice(buf: seq<byte>, from: nat, to: nat): (r: seq<byte>)
    requires from <= to
  {
    buf[Clamp(from, |buf|)..Clamp(to, |buf|)]
  }

  /** What is left of the message, given the payload seen so far; `None` is a ValueError. */
  function UnwrapFrom(buf: seq<byte>, pos: nat, payload: seq<byte>): (r: Option<seq<byte>>)
    decreases if pos < |buf| then |buf| - pos else 0
  {
    if pos >= |buf| then Some(payload)
    else
      match VarintAt(buf, pos)
      case None => None
      case Some((key, p)) =>
        if key % 8 == 2 then
          match VarintAt(buf, p)
          case None => None
          case Some((ln, q)) => UnwrapFrom(buf, q + ln, if key / 8 == 1 then Slice(buf, q, q + ln) else payload)
        else if key % 8 == 0 then
          match VarintAt(buf, p)
          case None => None
          case Some((_, q)) => UnwrapFrom(buf, q, payload)
        else if key % 8 == 5 then UnwrapFrom(buf, p + 4, payload)
        else if key % 8 == 1 then UnwrapFrom(buf, p + 8, payload)
        else None
  }

  method Unwrap(buf: seq<byte>) returns (r: Option<seq<byte>>)
    ensures r == UnwrapFrom(buf, 0, [])
  {
    hide And, VarintAt, Slice;
    var pos: nat, payload: seq<byte> := 0, [];
    while pos < |buf|
      invariant UnwrapFrom(buf, 0, []) == UnwrapFrom(buf, pos, payload)
      decreases if pos < |buf| then |buf| - pos else 0
    {
      var key := DecodeVarint(buf, pos);
      if key.None? {
        return None;
      }
      var (k, p) := key.value;
      KeyBits(k);
      var field, wt := k / 8, And(k, 7);
      if wt == 2 {
        var len := DecodeVarint(buf, p);
        if len.None? {
          return None;
        }
        var (ln, q) := len.value;
        if field == 1 {
          payload := Slice(buf, q, q + ln);
        }
        pos := q + ln;
      } else if wt == 0 {
        var skipped := DecodeVarint(buf, p);
        if skipped.None? {
          return None;
        }
        pos := skipped.value.1;
      } else if wt == 5 {
        pos := p + 4;
      } else if wt == 1 {
        pos := p + 8;
      } else {
        return None;
      }
    }
    return Some(payload);
  }

  lemma KeyBits(k: nat)
    ensures And(k, 7) == k % 8
  {
    Pow2Seven();
    AndMask(k, 3);
  }

  // ─── Well-formed messages ──────────────────────────────────────────────────

  datatype Field =
    | Number(id: nat, value: nat)
    | Fixed64(id: nat, bytes: seq<byte>)
    | Bytes(id: nat, payload: seq<byte>)
    | Fixed32(id: nat, bytes: seq<byte>)

  predicate WellFormed(f: Field) {
    (f.Fixed64? ==> |f.bytes| == 8) && (f.Fixed32? ==> |f.bytes| == 4)
  }

  function FieldKey(f: Field): (r: nat) {
    8 * f.id + match f
      case Number(_, _) => 0
      case Fixed64(_, _) => 1
      case Bytes(_, _) => 2
      case Fixed32(_, _) => 5
  }

  function FieldBody(f: Field): (r: seq<byte>) {
    match f
    case Number(_, v) => Varint(v)
    case Fixed64(_, b) => b
    case Bytes(_, p) => Varint(|p|) + p
    case Fixed32(_, b) => b
  }

  function Serialize(fields: seq<Field>): (r: seq<byte>) {
    if fields == [] then [] else Varint(FieldKey(fields[0])) + FieldBody(fields[0]) + Serialize(fields[1..])
  }

  /** The last payload of field 1, or what was there before. */
  function LastPayload(fields: seq<Field>, before: seq<byte>): (r: seq<byte>)
    decreases |fields|
  {
    if fields == [] then before
    else LastPayload(fields[1..], if fields[0].Bytes? && fields[0].id == 1 then fields[0].payload else before)
  }

  lemma BytesField(pre: seq<byte>, p: seq<byte>, rest: seq<byte>)
    ensures VarintAt(pre + Varint(|p|) + (p + rest), |pre|) == Some((|p|, |pre + Varint(|p|)|))
    ensures Slice(pre + Varint(|p|) + (p + rest), |pre + Varint(|p|)|, |pre + Varint(|p|)| + |p|) == p
  {
    hide Varint, VarintAt, Slice;
    VarintRoundTrip(pre, |p|, p + rest);
    SliceMiddle(pre + Varint(|p|), p, rest);
  }

  lemma SliceMiddle(a: seq<byte>, b: seq<byte>, c: seq<byte>)
    ensures Slice(a + (b + c), |a|, |a| + |b|) == b
  {
  }

  /** One field is consumed whole. */
  lemma UnwrapField(pre: seq<byte>, f: Field, rest: seq<byte>, payload: seq<byte>)
    requires WellFormed(f)
    ensures
      var whole := pre + Varint(FieldKey(f)) + FieldBody(f);
      UnwrapFrom(whole + rest, |pre|, payload)
      == UnwrapFrom(whole + rest, |whole|, if f.Bytes? && f.id == 1 then f.payload else payload)
  {
    hide Varint, VarintAt, Slice;
    var k := Varint(FieldKey(f));
    var whole := pre + k + FieldBody(f);
    var buf, head := whole + rest, pre + k;
    assert buf == pre + k + (FieldBody(f) + rest);
    VarintRoundTrip(pre, FieldKey(f), FieldBody(f) + rest);
    assert FieldKey(f) / 8 == f.id;
    match f
    case Number(_, v) =>
      assert buf == head + Varint(v) + rest;
      VarintRoundTrip(head, v, rest);
    case Bytes(_, p) =>
      assert buf == head + Varint(|p|) + (p + rest);
      BytesField(head, p, rest);
    case Fixed64(_, _) =>
    case Fixed32(_, _) =>
  }

  lemma {:induction false} UnwrapFields(pre: seq<byte>, fields: seq<Field>, payload: seq<byte>)
    requires forall i :: 0 <= i < |fields| ==> WellFormed(fields[i])
    ensures UnwrapFrom(pre + Serialize(fields), |pre|, payload) == Some(LastPayload(fields, payload))
    decreases |fields|
  {
    hide Varint, FieldBody, FieldKey;
    if fields == [] {
      assert pre + [] == pre;
    } else {
      var f, rest := fields[0], Serialize(fields[1..]);
      var whole := pre + Varint(FieldKey(f)) + FieldBody(f);
      assert pre + Serialize(fields) == whole + rest;
      UnwrapField(pre, f, rest, payload);
      UnwrapFields(whole, fields[1..], if f.Bytes? && f.id == 1 then f.payload else payload);
    }
  }

  /** Unwrapping a well-formed message of the supported wire types gives its last field-1 payload. */
  lemma UnwrapSerialized(fields: seq<Field>)
    requires forall i :: 0 <= i < |fields| ==> WellFormed(fields[i])
    ensures UnwrapFrom(Serialize(fields), 0, []) == Some(LastPayload(fields, []))
  {
    hide Serialize, LastPayload, UnwrapFrom;
    UnwrapFields([], fields, []);
    assert [] + Serialize(fields) == Serialize(fields);
  }

  /** What was wrapped is unwrapped, for every byte string. */
  lemma UnwrapWrap(body: seq<byte>)
    ensures UnwrapFrom(Wrap(body), 0, []) == Some(body)
  {
    hide UnwrapFrom, Varint;
    var fields := [Bytes(1, body)];
    assert fields[1..] == [];
    UnwrapSerialized(fields);
    assert Serialize(fields) == Varint(10) + (Varint(|body|) + body) + [];
    assert Wrap(body) == Serialize(fields);
  }
}
