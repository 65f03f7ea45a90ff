/** Decimal digits as text: writing, zero padding, reading back, and splitting at a separator. */
module Text {

  predicate IsDigit(c: char) {
    '0' <= c <= '9'
  }

  predicate AllDigits(s: string) {
    forall i :: 0 <= i < |s| ==> IsDigit(s[i])
  }

  function DigitChar(d: nat): char
    requires d < 10
  {
    ('0' as int + d) as char
  }

  function DigitValue(c: char): nat
    requires IsDigit(c)
  {
    c as int - '0' as int
  }

  /** The usual decimal rendering, without leading zeros. */
  function Digits(n: nat): string {
    if n < 10 then [DigitChar(n)] else Digits(n / 10) + [DigitChar(n % 10)]
  }

  /** Reading digits; leading zeros are allowed. */
  function Value(s: string): nat
    requires AllDigits(s)
  {
    if s == "" then 0 else Value(s[..|s| - 1]) * 10 + DigitValue(s[|s| - 1])
  }

  function ZeroPad(s: string, width: nat): (r: string)
    decreases width - |s|
  {
    if |s| >= width then s else ZeroPad("0" + s, width)
  }

  lemma {:induction false} DigitsReadBack(n: nat)
    ensures Digits(n) != "" && AllDigits(Digits(n)) && Value(Digits(n)) == n
  {
    if n >= 10 {
      DigitsReadBack(n / 10);
      var s := Digits(n / 10) + [DigitChar(n % 10)];
      assert s[..|s| - 1] == Digits(n / 10);
    }
  }

  lemma {:induction false} LeadingZero(s: string)
    requires AllDigits(s)
    ensures AllDigits("0" + s) && Value("0" + s) == Value(s)
  {
    if s == "" {
      assert "0" + s == "0";
      assert Value("0") == Value("") * 10;
    } else {
      LeadingZero(s[..|s| - 1]);
      assert ("0" + s)[..|s|] == "0" + s[..|s| - 1];
    }
  }

  lemma {:induction false} ZeroPadReadBack(s: string, width: nat)
    requires s != "" && AllDigits(s)
    ensures ZeroPad(s, width) != "" && AllDigits(ZeroPad(s, width)) && Value(ZeroPad(s, width)) == Value(s)
    ensures |ZeroPad(s, width)| == if |s| < width then width else |s|
    decreases width - |s|
  {
    if |s| < width {
      LeadingZero(s);
      ZeroPadReadBack("0" + s, width);
    }
  }

  /** The four-digit years. */
  lemma FourDigits(n: nat)
    ensures |Digits(n)| == 4 <==> 1000 <= n <= 9999
  {
    DigitsCount(n);
    DigitsCount(n / 10);
    DigitsCount(n / 100);
    DigitsCount(n / 1000);
    DigitsCount(n / 10000);
    assert n / 10 / 10 == n / 100 && n / 100 / 10 == n / 1000 && n / 1000 / 10 == n / 10000;
  }

  lemma DigitsCount(n: nat)
    ensures 1 <= |Digits(n)| && (n < 10 <==> |Digits(n)| == 1)
    ensures n >= 10 ==> |Digits(n)| == |Digits(n / 10)| + 1
  {
    if n >= 10 {
      DigitsReadBack(n / 10);
    }
  }

  /** The part of `s` before the first `sep`, and what follows it. */
  function Before(s: string, sep: char): string {
    if s == "" || s[0] == sep then "" else [s[0]] + Before(s[1..], sep)
  }

  function After(s: string, sep: char): string {
    if s == "" then "" else if s[0] == sep then s[1..] else After(s[1..], sep)
  }

  lemma {:induction false} SplitFirst(a: string, sep: char, rest: string)
    requires sep !in a
    ensures Before(a + [sep] + rest, sep) == a && After(a + [sep] + rest, sep) == rest
  {
    var s := a + [sep] + rest;
    if a == "" {
      assert s[1..] == rest;
    } else {
      assert s[1..] == a[1..] + [sep] + rest;
      SplitFirst(a[1..], sep, rest);
      assert [a[0]] + a[1..] == a;
    }
  }

  lemma {:induction false} NoSeparator(a: string, sep: char)
    requires sep !in a
    ensures Before(a, sep) == a && After(a, sep) == ""
  {
    if a != "" {
      NoSeparator(a[1..], sep);
    }
  }
}
