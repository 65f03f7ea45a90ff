/** Warehouse document numbers `TYPE/YYYY/0001`: `_allocate_document_number` and the migration that
    rebuilds the counters from the numbers already given. */
module Numbering {
  import opened Text

  datatype DocType = PZ | WZ | KK | TRANSFER

  function Code(t: DocType): string {
    match t
    case PZ => "PZ"
    case WZ => "WZ"
    case KK => "KK"
    case TRANSFER => "TRANSFER"
  }

  function FormatNumber(t: DocType, year: nat, seqNo: nat): string {
    Code(t) + "/" + Digits(year) + "/" + ZeroPad(Digits(seqNo), 4)
  }

  /** SQL's `split_part(number, '/', k)` for k = 1, 2, 3. */
  function Part1(number: string): string { Before(number, '/') }

  function Part2(number: string): string { Before(After(number, '/'), '/') }

  function Part3(number: string): string { Before(After(After(number, '/'), '/'), '/') }

  /** The migration's pattern: a type without slashes, a four-digit year, a sequence of digits. */
  predicate MatchesPattern(number: string) {
    var a, b, c := Part1(number), Part2(number), Part3(number);
    && a != "" && |b| == 4 && AllDigits(b) && c != "" && AllDigits(c)
    && number == a + "/" + b + "/" + c
  }

  lemma Regrouped(a: string, b: string, c: string)
    ensures a + "/" + b + "/" + c == a + ['/'] + (b + ['/'] + c)
  {
  }

  /** A type, a year and a sequence as the migration's pattern wants them. */
  ghost predicate IsNumber(number: string, a: string, b: string, c: string) {
    && number == a + ['/'] + (b + ['/'] + c)
    && |a| > 0 && '/' !in a
    && |b| == 4 && (forall x :: x in b ==> '0' <= x <= '9')
    && |c| > 0 && (forall x :: x in c ==> '0' <= x <= '9')
  }

  /** The pattern accepts a text exactly when it has those three parts. */
  lemma PatternIs(number: string)
    ensures MatchesPattern(number) <==> exists a, b, c :: IsNumber(number, a, b, c)
  {
    if MatchesPattern(number) {
      var a, b, c := Part1(number), Part2(number), Part3(number);
      NotInBefore(number, '/');
      Regrouped(a, b, c);
      assert IsNumber(number, a, b, c);
    }
    if a, b, c :| IsNumber(number, a, b, c) {
      PartsAre(number, a, b, c);
      Regrouped(a, b, c);
      assert (forall i :: 0 <= i < |b| ==> b[i] in b) && forall i :: 0 <= i < |c| ==> c[i] in c;
    }
  }

  lemma PartsAre(number: string, a: string, b: string, c: string)
    requires IsNumber(number, a, b, c)
    ensures Part1(number) == a && Part2(number) == b && Part3(number) == c
  {
    assert '/' !in b && '/' !in c;
    SplitFirst(a, '/', b + ['/'] + c);
    SplitFirst(b, '/', c);
    NoSeparator(c, '/');
  }

  lemma {:induction false} NotInBefore(s: string, sep: char)
    ensures sep !in Before(s, sep)
  {
    if s != "" && s[0] != sep {
      NotInBefore(s[1..], sep);
    }
  }

  /** A number splits back into the type, year and sequence it was made from. */
  lemma FormatSplits(t: DocType, year: nat, seqNo: nat)
    ensures var n := FormatNumber(t, year, seqNo);
            && Part1(n) == Code(t) && Part2(n) == Digits(year) && Part3(n) == ZeroPad(Digits(seqNo), 4)
            && AllDigits(Part3(n)) && Part3(n) != "" && Value(Part3(n)) == seqNo
  {
    var y, k := Digits(year), ZeroPad(Digits(seqNo), 4);
    DigitsReadBack(year);
    DigitsReadBack(seqNo);
    ZeroPadReadBack(Digits(seqNo), 4);
    assert '/' !in y && '/' !in k;
    Regrouped(Code(t), y, k);
    SplitFirst(Code(t), '/', y + ['/'] + k);
    SplitFirst(y, '/', k);
    NoSeparator(k, '/');
  }

  /** Two documents share a number only if they share type, year and sequence. */
  lemma FormatInjective(t1: DocType, y1: nat, k1: nat, t2: DocType, y2: nat, k2: nat)
    requires FormatNumber(t1, y1, k1) == FormatNumber(t2, y2, k2)
    ensures t1 == t2 && y1 == y2 && k1 == k2
  {
    FormatSplits(t1, y1, k1);
    FormatSplits(t2, y2, k2);
    DigitsReadBack(y1);
    DigitsReadBack(y2);
  }

  /** The migration's pattern accepts a formatted number exactly when the year has four digits. */
  lemma FormatMatches(t: DocType, year: nat, seqNo: nat)
    ensures MatchesPattern(FormatNumber(t, year, seqNo)) <==> |Digits(year)| == 4
  {
    FormatSplits(t, year, seqNo);
    DigitsReadBack(year);
  }
}
