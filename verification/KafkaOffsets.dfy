/** The offset file: a decimal number and a newline, possibly cut short by a crash. */
module KafkaOffsets {
  import opened Wrappers
  import opened StreamIngest
  import opened Bits

  const BEGINNING: int := -2      // RD_KAFKA_OFFSET_BEGINNING

  function OffsetText(offset: int): (r: string) {
    Decimal(offset) + "\n"
  }

  predicate IsDigit(c: char) {
    '0' <= c <= '9'
  }

  /** The digits at the front of a text. */
  function LeadingDigits(s: string): (r: string) {
    if s == [] || !IsDigit(s[0]) then [] else [s[0]] + LeadingDigits(s[1..])
  }

  function ValueOf(s: string): (r: nat) {
    if s == [] then 0
    else
      var c := s[|s| - 1];
      10 * ValueOf(s[..|s| - 1]) + if IsDigit(c) then (c - '0') as nat else 0
  }

  function SkipSpace(s: string): (r: string) {
    if s != [] && (s[0] == ' ' || s[0] == '\n') then SkipSpace(s[1..]) else s
  }

  /**
   `stream >> off`: an exhausted stream leaves `off` as it was, a text without a
   number stores zero.
   */
  function Extract(text: string, off: int): (r: int) {
    var s := SkipSpace(text);
    if s == [] then off
    else if s[0] == '-' then
      var magnitude: int := ValueOf(LeadingDigits(s[1..]));
      -magnitude
    else ValueOf(LeadingDigits(s))
  }

  function LoadOffset(file: Option<string>): (r: int) {
    match file
    case None => BEGINNING
    case Some(text) =>
      var off := Extract(text, BEGINNING);
      if off >= 0 then off + 1 else BEGINNING
  }

  /** The message a consumer started with this offset reads first. */
  function ResumeAt(offset: int): (r: nat) {
    if offset >= 0 then offset else 0
  }

  function Resume(file: Option<string>): (r: nat) {
    ResumeAt(LoadOffset(file))
  }

  /** White space in front of the number does not matter. */
  lemma LeadingSpace(text: string, off: int)
    ensures Extract(" " + text, off) == Extract(text, off) && Extract("\n" + text, off) == Extract(text, off)
  {
    assert (" " + text)[1..] == text && ("\n" + text)[1..] == text;
  }

  // ─── Cut-off numbers ───────────────────────────────────────────────────────

  lemma {:induction false} DigitsValue(n: nat)
    ensures ValueOf(Digits(n)) == n
  {
    var d := Digits(n);
    if n >= 10 {
      DigitsValue(n / 10);
      assert d[..|d| - 1] == Digits(n / 10);
    } else {
      assert d[..0] == [];
    }
  }

  lemma {:induction false} PrefixValue(s: string, k: nat)
    requires k <= |s|
    ensures ValueOf(s[..k]) <= ValueOf(s)
  {
    if k == |s| {
      assert s[..k] == s;
    } else {
      PrefixValue(s[..|s| - 1], k);
      assert s[..|s| - 1][..k] == s[..k];
    }
  }

  lemma {:induction false} LeadingOfDigits(s: string, t: string)
    requires (forall i :: 0 <= i < |s| ==> IsDigit(s[i])) && (t == [] || !IsDigit(t[0]))
    ensures LeadingDigits(s + t) == s
  {
    if s == [] {
      assert s + t == t;
    } else {
      assert (s + t)[1..] == s[1..] + t;
      LeadingOfDigits(s[1..], t);
    }
  }

  /** A prefix of the text is a prefix of the digits, perhaps with the newline. */
  lemma CutText(n: nat, k: nat)
    requires k <= |OffsetText(n)|
    ensures
      var d := Digits(n);
      OffsetText(n)[..k] == if k <= |d| then d[..k] else d + "\n"
  {
  }

  function Pow10(k: nat): (r: nat)
    ensures r >= 1
  {
    if k == 0 then 1 else 10 * Pow10(k - 1)
  }

  lemma DivTwice(n: nat, p: nat)
    requires p >= 1
    ensures (n / 10) / p == n / (10 * p)
  {
    var m := n / 10;
    var q, r := m / p, m % p;
    assert n == (10 * p) * q + (10 * r + n % 10) by {
      assert m == p * q + r;
      assert 10 * (p * q) == (10 * p) * q;
    }
    DivModUnique(n, 10 * p, q, 10 * r + n % 10);
  }

  lemma DropLast(n: nat, k: nat)
    requires n >= 10 && k < |Digits(n)|
    ensures |Digits(n / 10)| == |Digits(n)| - 1 && Digits(n)[..k] == Digits(n / 10)[..k]
  {
  }

  /** The first digits of a number are what repeated division by ten leaves. */
  lemma {:induction false} CutDigits(n: nat, k: nat)
    requires k <= |Digits(n)|
    ensures ValueOf(Digits(n)[..k]) == n / Pow10(|Digits(n)| - k)
  {
    var d := Digits(n);
    if k == |d| {
      assert d[..k] == d;
      DigitsValue(n);
    } else if n >= 10 {
      hide ValueOf;
      DropLast(n, k);
      CutDigits(n / 10, k);
      DivTwice(n, Pow10(|d| - 1 - k));
    } else {
      assert d[..0] == [];
    }
  }

  /** Exactly where a cut offset resumes: at the beginning if no digit is left, else after the number they form. */
  lemma TruncatedResumeIs(n: nat, k: nat)
    requires k <= |Digits(n)|
    ensures k <= |OffsetText(n)|
    ensures Resume(Some(OffsetText(n)[..k])) == if k == 0 then 0 else n / Pow10(|Digits(n)| - k) + 1
  {
    hide ValueOf, LeadingDigits, Pow10;
    CutText(n, k);
    if k > 0 {
      var d := Digits(n);
      CutDigits(n, k);
      assert d[..k] + "" == d[..k];
      LeadingOfDigits(d[..k], "");
    }
  }

  /**
   However the text of a non-negative offset is cut, the consumer resumes at or
   before the message after it; exactly there if all digits are left.
   */
  lemma TruncatedResume(n: nat, k: nat)
    requires k <= |OffsetText(n)|
    ensures Resume(Some(OffsetText(n)[..k])) <= n + 1
    ensures k >= |Digits(n)| ==> Resume(Some(OffsetText(n)[..k])) == n + 1
  {
    hide ValueOf, LeadingDigits;
    var d := Digits(n);
    CutText(n, k);
    DigitsValue(n);
    if k > 0 {
      var m := if k <= |d| then k else |d|;
      var cut := if k <= |d| then "" else "\n";
      assert d[..|d|] == d;
      assert d[..m] + cut == OffsetText(n)[..k];
      LeadingOfDigits(d[..m], cut);
      PrefixValue(d, m);
    }
  }

  lemma CutNegative(n: int, k: nat)
    requires n < 0 && 0 < k <= |OffsetText(n)|
    ensures
      var d, text := Digits(-n), OffsetText(n)[..k];
      && text[0] == '-'
      && text[1..] == if k - 1 <= |d| then d[..k - 1] + "" else d[..|d|] + "\n"
  {
    var d := Digits(-n);
    assert OffsetText(n) == "-" + (d + "\n");
    assert OffsetText(n)[..k][1..] == (d + "\n")[..k - 1];
  }

  /**
   A negative offset, as a catch-up without messages saves it, is different: cut
   after its sign it reads as zero, and message 0 is passed over.  Every other
   cut resumes at the beginning.
   */
  lemma TruncatedNegative(n: int, k: nat)
    requires n < 0 && k <= |OffsetText(n)|
    ensures Resume(Some(OffsetText(n)[..k])) == if k == 1 then 1 else 0
  {
    hide ValueOf, LeadingDigits, OffsetText, Digits;
    if k > 0 {
      var d, text := Digits(-n), OffsetText(n)[..k];
      CutNegative(n, k);
      var m := if k - 1 <= |d| then k - 1 else |d|;
      LeadingOfDigits(d[..m], if k - 1 <= |d| then "" else "\n");
      if k == 1 {
        assert d[..0] == "";
        EmptyValue();
      } else {
        PositiveValue(-n, m);
      }
    }
  }

  lemma EmptyValue()
    ensures ValueOf("") == 0
  {
  }

  /** The first digit of a positive number is not zero. */
  lemma {:induction false} PositiveValue(n: nat, m: nat)
    requires n > 0 && 0 < m <= |Digits(n)|
    ensures ValueOf(Digits(n)[..m]) > 0
  {
    var d := Digits(n);
    if m == |d| {
      DigitsValue(n);
      assert d[..m] == d;
    } else {
      assert d[..|d| - 1] == Digits(n / 10);
      assert Digits(n / 10)[..m] == d[..m];
      PositiveValue(n / 10, m);
    }
  }
}
