/** What the parser reads from any document, not only from mapped ones: defaults, sums, lines, terms and forms of
    payment. */
module Fa3Reading {
  import opened Prelude
  import opened Text
  import opened Decimals
  import opened Rounding
  import opened Fa3
  import opened Fa3Lookup

  // ---- Single fields ----

  /** The trimmed text of the first element with the tag, or the default for a missing or blank one. */
  ghost predicate ReadsText(es: seq<Element>, tag: Tag, default: string, text: string) {
    match Find(es, tag)
    case None => text == default
    case Some(e) => text == if |Strip(e.text)| == 0 then default else Strip(e.text)
  }

  /** The number in the first element with the tag, or the default for a missing, blank or unreadable one. */
  ghost predicate ReadsNumber(es: seq<Element>, tag: Tag, default: Dec, number: Dec) {
    match Find(es, tag)
    case None => number == default
    case Some(e) =>
      number == if |Strip(e.text)| == 0 then default
                else match ParseDec(Strip(e.text)) case None => default case Some(d) => d
  }

  lemma NumberIsRead(es: seq<Element>, tag: Tag, default: Dec)
    ensures ReadsNumber(es, tag, default, DecAt(es, tag, default))
  {
  }

  /** A document without an issue date is refused; every other one is read. A missing sale date is the issue date, a
      missing currency PLN, a missing kind VAT, a blank number none. */
  lemma HeaderIsRead(fa: Element)
    ensures var es, r := fa.children, Parse(fa);
            && (ReadsText(es, P1, "", "") <==> r == Err(NoIssueDate))
            && (r.Err? <==> r == Err(NoIssueDate))
            && (r.Ok? ==>
                  && ReadsText(es, P1, "", r.value.issueDate)
                  && ReadsText(es, P1M, r.value.issueDate, r.value.saleDate)
                  && ReadsText(es, P2, "", match r.value.number case None => "" case Some(n) => n)
                  && r.value.number != Some("")
                  && ReadsText(es, KodWaluty, "PLN", r.value.currency)
                  && ReadsText(es, RodzajFaktury, "VAT", r.value.kind))
  {
  }

  // ---- Sums ----

  /** The fields of an amount of net and of VAT, and what each reads. */
  ghost predicate NetFields(es: seq<Element>, cents: nat -> int) {
    forall f :: f in {1, 2, 3, 4, 6, 7, 8, 9, 10, 11} ==> IsCents(DecAt(es, P13(f), ZERO), cents(f))
  }

  ghost predicate VatFields(es: seq<Element>, cents: nat -> int) {
    forall f :: f in {1, 2, 3, 4, 5} ==> IsCents(DecAt(es, P14(f), ZERO), cents(f))
  }

  /** The amounts of the first `n` fields together. */
  ghost function Together(fields: seq<nat>, cents: nat -> int, n: nat): int
    requires n <= |fields|
  {
    if n == 0 then 0 else Together(fields, cents, n - 1) + cents(fields[n - 1])
  }

  lemma FieldsAre(n: nat)
    ensures n < |P13_FIELDS| ==> P13_FIELDS[n] in {1, 2, 3, 4, 6, 7, 8, 9, 10, 11}
    ensures n < |P14_FIELDS| ==> P14_FIELDS[n] in {1, 2, 3, 4, 5}
  {
  }

  lemma {:induction false} NetsAdd(es: seq<Element>, cents: nat -> int, n: nat)
    requires n <= |P13_FIELDS| && NetFields(es, cents)
    ensures IsCents(NetSum(es, n), Together(P13_FIELDS, cents, n))
  {
    if n > 0 {
      NetsAdd(es, cents, n - 1);
      FieldsAre(n - 1);
      var f := P13_FIELDS[n - 1];
      PlusCents(NetSum(es, n - 1), Together(P13_FIELDS, cents, n - 1), DecAt(es, P13(f), ZERO), cents(f));
    }
  }

  lemma {:induction false} VatsAdd(es: seq<Element>, cents: nat -> int, n: nat)
    requires n <= |P14_FIELDS| && VatFields(es, cents)
    ensures IsCents(VatSum(es, n), Together(P14_FIELDS, cents, n))
  {
    if n > 0 {
      VatsAdd(es, cents, n - 1);
      FieldsAre(n - 1);
      var f := P14_FIELDS[n - 1];
      PlusCents(VatSum(es, n - 1), Together(P14_FIELDS, cents, n - 1), DecAt(es, P14(f), ZERO), cents(f));
    }
  }

  lemma TenNets(cents: nat -> int)
    ensures |P13_FIELDS| == 10
    ensures Together(P13_FIELDS, cents, 10) == cents(1) + cents(2) + cents(3) + cents(4) + cents(6) + cents(7)
                                               + cents(8) + cents(9) + cents(10) + cents(11)
  {
  }

  lemma FiveVats(cents: nat -> int)
    ensures |P14_FIELDS| == 5
    ensures Together(P14_FIELDS, cents, 5) == cents(1) + cents(2) + cents(3) + cents(4) + cents(5)
  {
  }

  /** On any document with amounts in cents: net is the sum of P_13_1 to P_13_4 and P_13_6 to P_13_11, VAT that of
      P_14_1 to P_14_5, and gross P_15, unless that is zero or missing and net positive, then net and VAT together. */
  lemma TotalsAreRead(fa: Element, net: nat -> int, vat: nat -> int, gross: int)
    requires NetFields(fa.children, net) && VatFields(fa.children, vat)
    requires IsCents(DecAt(fa.children, P15, ZERO), gross)
    ensures var r := Parse(fa);
            var n := net(1) + net(2) + net(3) + net(4) + net(6) + net(7) + net(8) + net(9) + net(10) + net(11);
            var v := vat(1) + vat(2) + vat(3) + vat(4) + vat(5);
            r.Ok? ==> && IsCents(r.value.net, n) && IsCents(r.value.vat, v)
                      && IsCents(r.value.gross, if gross == 0 && n > 0 then n + v else gross)
  {
    var es := fa.children;
    NetsAdd(es, net, |P13_FIELDS|);
    VatsAdd(es, vat, |P14_FIELDS|);
    TenNets(net);
    FiveVats(vat);
    var n := net(1) + net(2) + net(3) + net(4) + net(6) + net(7) + net(8) + net(9) + net(10) + net(11);
    GrossIsRead(es, n, vat(1) + vat(2) + vat(3) + vat(4) + vat(5), gross);
  }

  lemma GrossIsRead(es: seq<Element>, n: int, v: int, gross: int)
    requires IsCents(NetSum(es, |P13_FIELDS|), n) && IsCents(VatSum(es, |P14_FIELDS|), v)
    requires IsCents(DecAt(es, P15, ZERO), gross)
    ensures IsCents(GrossSum(es), if gross == 0 && n > 0 then n + v else gross)
  {
    PlusCents(NetSum(es, |P13_FIELDS|), n, VatSum(es, |P14_FIELDS|), v);
  }

  // ---- Lines ----

  /** Every row is read, in order and numbered from one: a missing quantity is one, a missing unit "szt.", other missing
      amounts and an unreadable rate are zero. */
  lemma {:induction false} LineIsRead(rows: seq<Element>, k: nat)
    requires k < |rows|
    ensures var p, es := ParseRows(rows)[k], rows[k].children;
            && ReadsText(es, P7, "", p.name) && ReadsText(es, P8A, "szt.", p.unit)
            && ReadsNumber(es, P8B, Dec(1, 0), p.quantity) && ReadsNumber(es, P9A, Dec(0, 0), p.price)
            && ReadsNumber(es, P12, Dec(0, 0), p.rate) && ReadsNumber(es, P11, Dec(0, 0), p.net)
            && p.sortOrder == k + 1
  {
    if k < |rows| - 1 {
      LineIsRead(rows[..|rows| - 1], k);
    } else {
      RowIsRead(rows[k], k + 1);
    }
  }

  lemma RowIsRead(row: Element, order: nat)
    ensures var p, es := ParseRow(row, order), row.children;
            && ReadsText(es, P7, "", p.name) && ReadsText(es, P8A, "szt.", p.unit)
            && ReadsNumber(es, P8B, Dec(1, 0), p.quantity) && ReadsNumber(es, P9A, Dec(0, 0), p.price)
            && ReadsNumber(es, P12, Dec(0, 0), p.rate) && ReadsNumber(es, P11, Dec(0, 0), p.net)
            && p.sortOrder == order
  {
    NumberIsRead(row.children, P8B, Dec(1, 0));
    NumberIsRead(row.children, P9A, Dec(0, 0));
    NumberIsRead(row.children, P12, Dec(0, 0));
    NumberIsRead(row.children, P11, Dec(0, 0));
  }

  lemma {:induction false} PowersAdd(a: nat, b: nat)
    ensures Pow10(a + b) == Pow10(a) * Pow10(b)
  {
    if a > 0 {
      PowersAdd(a - 1, b);
      assert Pow10(a + b) == 10 * Pow10(a - 1 + b);
      assert 10 * (Pow10(a - 1) * Pow10(b)) == (10 * Pow10(a - 1)) * Pow10(b);
    }
  }

  /** The VAT of a line is the nearest cent to net times rate over a hundred, of any number of places and any sign, the
      even one on a tie. */
  lemma LineVatIsNearest(net: Dec, rate: Dec, cents: int)
    ensures var (n, d) := (net.units * rate.units, Pow10(net.places) * Pow10(rate.places));
            d > 0 && (cents == LineVat(net, rate) <==> NearestEven(n, d, cents))
  {
    PowersAdd(net.places, rate.places);
    HalfEvenIsTheNearest(net.units * rate.units, Pow10(net.places + rate.places), cents);
  }

  /** The sum of two numbers of any places is exact. */
  lemma PlusIsExact(a: Dec, b: Dec)
    ensures Plus(a, b).units * (Pow10(a.places) * Pow10(b.places))
            == (a.units * Pow10(b.places) + b.units * Pow10(a.places)) * Pow10(Plus(a, b).places)
  {
    if a.places >= b.places {
      PowersAdd(a.places - b.places, b.places);
      Aligned(a.units, b.units, Pow10(a.places), Pow10(b.places), Pow10(a.places - b.places));
    } else {
      PowersAdd(b.places - a.places, a.places);
      Aligned(b.units, a.units, Pow10(b.places), Pow10(a.places), Pow10(b.places - a.places));
    }
  }

  lemma Aligned(x: int, y: int, p: int, q: int, k: int)
    requires p == k * q
    ensures (x + y * k) * (p * q) == (x * q + y * p) * p
    ensures (x + y * k) * (q * p) == (y * p + x * q) * p
  {
    assert (x + y * k) * (p * q) == (x + y * k) * q * p;
    assert (x + y * k) * q == x * q + y * (k * q);
  }

  /** The gross of a line is its net and the VAT in cents. */
  lemma LineGross(row: Element, order: nat)
    ensures var p := ParseRow(row, order); p.vat == LineVat(p.net, p.rate) && p.gross == Plus(p.net, Dec(p.vat, 2))
  {
  }

  // ---- Numbers ----

  lemma PointReads(a: string, b: string, text: string)
    requires AllDigits(a) && AllDigits(b) && a + b != "" && text == a + ['.'] + b
    ensures text != "" && text[0] != '-' && text[0] != '+' && Unsigned(text) == Some(Dec(Value(a + b), |b|))
  {
    DigitsHaveNoPoint(a);
    SplitFirst(a, '.', b);
  }

  /** Digits with a point somewhere among them, and perhaps a sign, read as that number of places. */
  lemma NumberReads(a: string, b: string, text: string)
    requires AllDigits(a) && AllDigits(b) && a + b != "" && text == a + ['.'] + b
    ensures var n: int := Value(a + b);
            && ParseDec(text) == Some(Dec(n, |b|))
            && ParseDec(['-'] + text) == Some(Dec(-n, |b|))
            && ParseDec(['+'] + text) == Some(Dec(n, |b|))
  {
    PointReads(a, b, text);
    SignsRead(text, Value(a + b), |b|);
  }

  lemma SignsRead(text: string, units: int, places: nat)
    requires text != "" && text[0] != '-' && text[0] != '+' && Unsigned(text) == Some(Dec(units, places))
    ensures ParseDec(text) == Some(Dec(units, places)) == ParseDec(['+'] + text)
    ensures ParseDec(['-'] + text) == Some(Dec(-units, places))
  {
    assert (['-'] + text)[1..] == text && (['+'] + text)[1..] == text;
  }

  /** Nothing else reads: a number has a digit, and besides digits at most one point and one sign in front. */
  lemma OnlyNumbersRead(text: string)
    requires ParseDec(text).Some?
    ensures exists c :: c in text && IsDigit(c)
    ensures forall i :: 0 <= i < |text| ==>
              IsDigit(text[i]) || text[i] == '.' || (i == 0 && (text[0] == '-' || text[0] == '+'))
  {
    var body := if text[0] == '-' || text[0] == '+' then text[1..] else text;
    UnsignedIsDigits(body);
    var c :| c in body && IsDigit(c);
    assert c in text;
    forall i | 0 <= i < |text|
      ensures IsDigit(text[i]) || text[i] == '.' || (i == 0 && (text[0] == '-' || text[0] == '+'))
    {
      assert text == body || (i > 0 ==> text[i] == body[i - 1]);
    }
  }

  lemma UnsignedIsDigits(text: string)
    requires Unsigned(text).Some?
    ensures text != "" && exists c :: c in text && IsDigit(c)
    ensures forall i :: 0 <= i < |text| ==> IsDigit(text[i]) || text[i] == '.'
  {
    var a, b := Before(text, '.'), After(text, '.');
    Cut(text, '.');
    assert (a + b)[0] in a || (a + b)[0] in b;
    assert IsDigit((a + b)[0]);
  }

  lemma {:induction false} Cut(text: string, sep: char)
    ensures text == Before(text, sep) + After(text, sep) || text == Before(text, sep) + [sep] + After(text, sep)
  {
    if text != "" && text[0] != sep {
      var first, rest := [text[0]], text[1..];
      var before, after := Before(rest, sep), After(rest, sep);
      Cut(rest, sep);
      assert text == first + rest;
      assert first + (before + after) == first + before + after;
      assert first + (before + [sep] + after) == first + before + [sep] + after;
    }
  }

  // ---- Payment ----

  /** A payment form with a known code: 1 is cash, 6 a transfer. */
  predicate IsForm(e: Element, m: PaymentMethod) {
    e.tag == FormaPlatnosci && match m case CashPayment => Strip(e.text) == "1" case Transfer => Strip(e.text) == "6"
  }

  ghost predicate AnyForm(e: Element) {
    exists m: PaymentMethod :: IsForm(e, m)
  }

  ghost predicate FormAt(es: seq<Element>, m: PaymentMethod, k: nat) {
    k < |es| && IsForm(es[k], m) && forall j :: 0 <= j < k ==> !AnyForm(es[j])
  }

  ghost predicate NoForm(es: seq<Element>) {
    forall k :: 0 <= k < |es| ==> !AnyForm(es[k])
  }

  /** The first payment form with a known code decides; forms with other codes are passed over. */
  lemma {:induction false} MethodIsFirst(es: seq<Element>, m: PaymentMethod)
    ensures FirstMethod(es) == Some(m) <==> exists k: nat :: FormAt(es, m, k)
    ensures FirstMethod(es) == None <==> NoForm(es)
  {
    if es != [] {
      CodesDiffer(es[0]);
      if AnyForm(es[0]) {
        assert FirstMethod(es).Some? && IsForm(es[0], FirstMethod(es).value);
        assert FormAt(es, FirstMethod(es).value, 0);
      } else {
        MethodIsFirst(es[1..], m);
        ShiftedForm(es, m);
      }
    }
  }

  lemma CodesDiffer(e: Element)
    ensures !(IsForm(e, CashPayment) && IsForm(e, Transfer))
    ensures AnyForm(e) <==> IsForm(e, CashPayment) || IsForm(e, Transfer)
  {
    assert "1"[0] == '1' && "6"[0] == '6';
  }

  lemma ShiftedForm(es: seq<Element>, m: PaymentMethod)
    requires es != [] && !AnyForm(es[0])
    ensures (exists k: nat :: FormAt(es, m, k)) <==> (exists k: nat :: FormAt(es[1..], m, k))
    ensures NoForm(es) <==> NoForm(es[1..])
  {
    var tail := es[1..];
    assert forall k :: 1 <= k < |es| ==> es[k] == tail[k - 1];
    if k: nat :| FormAt(es, m, k) {
      assert FormAt(tail, m, k - 1);
    }
    if k: nat :| FormAt(tail, m, k) {
      assert FormAt(es, m, k + 1);
    }
  }

  // ---- Terms of payment ----

  predicate IsTerm(e: Element) {
    e.tag in {Termin, TerminPlatnosci, DataPlatnosci} && |Strip(e.text)| > 0
  }

  ghost predicate TermAt(es: seq<Element>, date: string, k: nat) {
    k < |es| && IsTerm(es[k]) && Strip(es[k].text) == date && forall j :: 0 <= j < k ==> !IsTerm(es[j])
  }

  /** The first date in a block is the first of the three elements that is not blank. */
  lemma {:induction false} DateIsFirst(es: seq<Element>, date: string)
    ensures FirstDate(es) == Some(date) <==> exists k: nat :: TermAt(es, date, k)
    ensures FirstDate(es) == None <==> forall k :: 0 <= k < |es| ==> !IsTerm(es[k])
  {
    if es != [] {
      var tail := es[1..];
      assert forall k :: 1 <= k < |es| ==> es[k] == tail[k - 1];
      if IsTerm(es[0]) {
        assert TermAt(es, Strip(es[0].text), 0);
      } else {
        DateIsFirst(tail, date);
        if k: nat :| TermAt(es, date, k) {
          assert TermAt(tail, date, k - 1);
        }
        if k: nat :| TermAt(tail, date, k) {
          assert TermAt(es, date, k + 1);
        }
      }
    }
  }

  /** A block of payment terms with a date in it. */
  predicate IsBlock(e: Element) {
    e.tag in {Platnosc, WarunkiPlatnosci, TerminyPlatnosci} && FirstDate(Iter(e)) != None
  }

  ghost predicate BlockAt(es: seq<Element>, date: string, k: nat) {
    k < |es| && IsBlock(es[k]) && FirstDate(Iter(es[k])) == Some(date) && forall j :: 0 <= j < k ==> !IsBlock(es[j])
  }

  lemma ShiftedBlock(es: seq<Element>, date: string)
    requires es != [] && !IsBlock(es[0])
    ensures (exists k: nat :: BlockAt(es, date, k)) <==> (exists k: nat :: BlockAt(es[1..], date, k))
  {
    var tail := es[1..];
    assert forall k :: 1 <= k < |es| ==> es[k] == tail[k - 1];
    if k: nat :| BlockAt(es, date, k) {
      assert BlockAt(tail, date, k - 1);
    }
    if k: nat :| BlockAt(tail, date, k) {
      assert BlockAt(es, date, k + 1);
    }
  }

  /** The first block with a date in it gives the term. */
  lemma {:induction false} TermIsFirst(es: seq<Element>, date: string)
    ensures FirstTerm(es) == Some(date) <==> exists k: nat :: BlockAt(es, date, k)
    ensures FirstTerm(es) == None <==> forall k :: 0 <= k < |es| ==> !IsBlock(es[k])
  {
    if es != [] {
      if IsBlock(es[0]) {
        assert BlockAt(es, FirstDate(Iter(es[0])).value, 0);
      } else {
        TermIsFirst(es[1..], date);
        ShiftedBlock(es, date);
        assert forall k :: 1 <= k < |es| ==> es[k] == es[1..][k - 1];
      }
    }
  }

  /** A due date directly in the body, in TerminPlatnosci or else in DataPlatnosci, comes before any block. */
  lemma DueDateIsRead(fa: Element)
    ensures Parse(fa).Ok? ==>
              (ReadsText(fa.children, TerminPlatnosci, "", "") && ReadsText(fa.children, DataPlatnosci, "", "") ==>
                 Parse(fa).value.dueDate == FirstTerm(Iter(fa)))
    ensures Parse(fa).Ok? ==>
              (ReadsText(fa.children, TerminPlatnosci, "", "") && !ReadsText(fa.children, DataPlatnosci, "", "") ==>
                 && Parse(fa).value.dueDate.Some?
                 && ReadsText(fa.children, DataPlatnosci, "", Parse(fa).value.dueDate.value))
    ensures Parse(fa).Ok? ==>
              (!ReadsText(fa.children, TerminPlatnosci, "", "") ==>
                 && Parse(fa).value.dueDate.Some?
                 && ReadsText(fa.children, TerminPlatnosci, "", Parse(fa).value.dueDate.value))
  {
  }

  /** The walk is the whole document, every element before what is below it. */
  lemma WalkIs(e: Element)
    ensures Iter(e) == [e] + IterAll(e.children)
    ensures forall a: seq<Element>, b: seq<Element> :: IterAll(a + b) == IterAll(a) + IterAll(b)
    ensures IterAll([e]) == Iter(e)
  {
    forall a: seq<Element>, b: seq<Element> ensures IterAll(a + b) == IterAll(a) + IterAll(b) {
      IterAppend(a, b);
    }
    IterOne(e);
  }
}
