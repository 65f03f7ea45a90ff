/** Decimal numbers as text: two-place formatting, reading, and the trimming that surrounds reading. */
module Decimals {
  import opened Prelude
  import opened Text

  /** `units / 10^places`. */
  datatype Dec = Dec(units: int, places: nat)

  function Pow10(n: nat): (p: int)
    ensures p > 0
  {
    if n == 0 then 1 else 10 * Pow10(n - 1)
  }

  /** The number is `num / den`. */
  predicate Is(d: Dec, num: int, den: int) {
    d.units * den == num * Pow10(d.places)
  }

  /** A whole number of cents, for numbers of at most two places. */
  predicate IsCents(d: Dec, cents: int) {
    || (d.places == 0 && 100 * d.units == cents)
    || (d.places == 1 && 10 * d.units == cents)
    || (d.places == 2 && d.units == cents)
  }

  function Plus(a: Dec, b: Dec): Dec {
    if a.places >= b.places then Dec(a.units + b.units * Pow10(a.places - b.places), a.places)
    else Dec(a.units * Pow10(b.places - a.places) + b.units, b.places)
  }

  lemma PlusCents(a: Dec, x: int, b: Dec, y: int)
    requires IsCents(a, x) && IsCents(b, y)
    ensures IsCents(Plus(a, b), x + y)
  {
    assert Pow10(0) == 1 && Pow10(1) == 10 && Pow10(2) == 100;
  }

  lemma CentsAreHundredths(d: Dec, cents: int)
    requires IsCents(d, cents)
    ensures Is(d, cents, 100)
  {
    assert Pow10(0) == 1 && Pow10(1) == 10 && Pow10(2) == 100;
  }

  // ---- White space ----

  predicate IsSpace(c: char) {
    || '\t' <= c <= '\r' || '\U{1C}' <= c <= ' ' || c == '\U{85}' || c == '\U{A0}' || c == '\U{1680}'
    || '\U{2000}' <= c <= '\U{200A}' || c == '\U{2028}' || c == '\U{2029}' || c == '\U{202F}' || c == '\U{205F}'
    || c == '\U{3000}'
  }

  function Strip(s: string): string {
    if s == "" then ""
    else if IsSpace(s[0]) then Strip(s[1..])
    else if IsSpace(s[|s| - 1]) then Strip(s[..|s| - 1])
    else s
  }

  predicate Trimmed(s: string) {
    s == "" || (!IsSpace(s[0]) && !IsSpace(s[|s| - 1]))
  }

  /** Trimming leaves trimmed text, and only that alone. */
  lemma {:induction false} StripTrims(s: string)
    ensures Trimmed(Strip(s)) && (Strip(s) == s <==> Trimmed(s)) && |Strip(s)| <= |s|
    decreases |s|
  {
    if s != "" {
      if IsSpace(s[0]) {
        StripTrims(s[1..]);
      } else if IsSpace(s[|s| - 1]) {
        StripTrims(s[..|s| - 1]);
      }
    }
  }

  /** Trimming only cuts white space off both ends. */
  lemma {:induction false} StripCuts(s: string) returns (before: string, after: string)
    ensures s == before + Strip(s) + after
    ensures forall i :: 0 <= i < |before| ==> IsSpace(before[i])
    ensures forall i :: 0 <= i < |after| ==> IsSpace(after[i])
    decreases |s|
  {
    before, after := "", "";
    if s != "" {
      if IsSpace(s[0]) {
        before, after := StripCuts(s[1..]);
        assert s == [s[0]] + s[1..];
        before := [s[0]] + before;
      } else if IsSpace(s[|s| - 1]) {
        before, after := StripCuts(s[..|s| - 1]);
        assert s == s[..|s| - 1] + [s[|s| - 1]];
        after := after + [s[|s| - 1]];
      }
    }
  }

  /** White space is 29 characters: tab to carriage return, the four separators, the space, next line, the no-break
      space and the Unicode spaces. */
  lemma SpacesAre(c: char)
    ensures IsSpace(c) <==>
            c as int in {9, 10, 11, 12, 13, 28, 29, 30, 31, 32, 133, 160, 5760, 8192, 8193, 8194, 8195, 8196, 8197,
                         8198, 8199, 8200, 8201, 8202, 8232, 8233, 8239, 8287, 12288}
  {
  }

  lemma DigitsAreTrimmed(s: string)
    requires s != "" && IsDigit(s[0]) && IsDigit(s[|s| - 1])
    ensures Strip(s) == s
  {
    StripTrims(s);
  }

  // ---- Numbers ----

  /** Two places after the point, as `f"{value:.2f}"` writes a number of cents. */
  function Fmt(cents: int): string {
    var n: nat := if cents < 0 then -cents else cents;
    (if cents < 0 then "-" else "") + Digits(n / 100) + "." + [DigitChar(n / 10 % 10), DigitChar(n % 10)]
  }

  function Unsigned(text: string): Option<Dec> {
    var whole, part := Before(text, '.'), After(text, '.');
    if AllDigits(whole) && AllDigits(part) && whole + part != "" then Some(Dec(Value(whole + part), |part|)) else None
  }

  function Negated(d: Option<Dec>): Option<Dec> {
    if d.Some? then Some(d.value.(units := -d.value.units)) else None
  }

  /** `Decimal(text)`, for text without exponents: an optional sign, digits, and an optional point. */
  function ParseDec(text: string): Option<Dec> {
    if text != "" && text[0] == '-' then Negated(Unsigned(text[1..]))
    else if text != "" && text[0] == '+' then Unsigned(text[1..])
    else Unsigned(text)
  }

  lemma DigitsHaveNoPoint(s: string)
    requires AllDigits(s)
    ensures '.' !in s
  {
  }

  lemma TwoMoreDigits(a: string, x: nat, y: nat)
    requires AllDigits(a) && x < 10 && y < 10
    ensures AllDigits(a + [DigitChar(x), DigitChar(y)])
    ensures Value(a + [DigitChar(x), DigitChar(y)]) == 100 * Value(a) + 10 * x + y
  {
    var s := a + [DigitChar(x), DigitChar(y)];
    assert s[..|s| - 1] == a + [DigitChar(x)];
    assert (a + [DigitChar(x)])[..|a|] == a;
  }

  lemma UnsignedReadsBack(n: nat)
    ensures var text := Digits(n / 100) + "." + [DigitChar(n / 10 % 10), DigitChar(n % 10)];
            Unsigned(text) == Some(Dec(n, 2)) && IsDigit(text[0])
  {
    var whole, part := Digits(n / 100), [DigitChar(n / 10 % 10), DigitChar(n % 10)];
    DigitsReadBack(n / 100);
    DigitsHaveNoPoint(whole);
    SplitFirst(whole, '.', part);
    assert whole + "." + part == whole + ['.'] + part;
    TwoMoreDigits(whole, n / 10 % 10, n % 10);
    CentsOf(n);
  }

  lemma CentsOf(n: nat)
    ensures 10 * (10 * (n / 100) + n / 10 % 10) + n % 10 == n
  {
    assert n / 10 / 10 == n / 100;
  }

  /** Formatted cents read back as the same cents, of any sign, and carry no white space. */
  lemma FmtReadsBack(cents: int)
    ensures Strip(Fmt(cents)) == Fmt(cents) && Fmt(cents) != "" && ParseDec(Fmt(cents)) == Some(Dec(cents, 2))
  {
    var n: nat := if cents < 0 then -cents else cents;
    var body := Digits(n / 100) + "." + [DigitChar(n / 10 % 10), DigitChar(n % 10)];
    UnsignedReadsBack(n);
    StripTrims(Fmt(cents));
    if cents < 0 {
      assert Fmt(cents) == "-" + body;
      assert Fmt(cents)[1..] == body;
    } else {
      assert Fmt(cents) == body;
    }
  }

  /** A minus for a negative amount, the whole part without leading zeros, a point and two digits. */
  lemma FmtLooks(cents: int)
    ensures var t := Fmt(cents); var n := if cents < 0 then 1 else 0;
            && |t| >= n + 4 && t[|t| - 3] == '.' && (t[0] == '-' <==> cents < 0)
            && (forall i :: n <= i < |t| && i != |t| - 3 ==> IsDigit(t[i]))
            && (t[n] == '0' ==> |t| == n + 4)
  {
    var n: nat := if cents < 0 then -cents else cents;
    DigitsReadBack(n / 100);
    NoLeadingZero(n / 100);
  }

  lemma {:induction false} NoLeadingZero(n: nat)
    ensures Digits(n)[0] == '0' <==> n == 0
  {
    if n >= 10 {
      NoLeadingZero(n / 10);
      DigitsReadBack(n / 10);
    }
  }

  lemma WholeReadsBack(n: nat)
    ensures Strip(Digits(n)) == Digits(n) && ParseDec(Digits(n)) == Some(Dec(n, 0))
  {
    DigitsReadBack(n);
    DigitsHaveNoPoint(Digits(n));
    NoSeparator(Digits(n), '.');
    DigitsAreTrimmed(Digits(n));
    assert Digits(n) + "" == Digits(n);
  }
}
