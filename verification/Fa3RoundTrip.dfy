/** Parsing the mapped document gives back the invoice: header fields, totals and lines. */
module Fa3RoundTrip {
  import opened Prelude
  import opened Text
  import opened Decimals
  import opened InvoiceTotals
  import opened Fa3
  import opened Fa3Lookup

  // ---- Dates ----

  lemma IsoIsClean(d: Date)
    ensures Iso(d) != "" && Strip(Iso(d)) == Iso(d)
  {
    DigitsReadBack(d.year);
    DigitsReadBack(d.day);
    ZeroPadReadBack(Digits(d.year), 4);
    ZeroPadReadBack(Digits(d.day), 2);
    DigitsAreTrimmed(Iso(d));
  }

  /** Year, month and day with four, two and two digits. */
  lemma IsoLooks(d: Date)
    requires d.year <= 9999 && d.month <= 99 && d.day <= 99
    ensures |Iso(d)| == 10 && Iso(d)[4] == '-' && Iso(d)[7] == '-'
  {
    DigitsReadBack(d.year);
    DigitsReadBack(d.month);
    DigitsReadBack(d.day);
    ZeroPadReadBack(Digits(d.year), 4);
    ZeroPadReadBack(Digits(d.month), 2);
    ZeroPadReadBack(Digits(d.day), 2);
    FourDigitsAtMost(d.year);
    TwoDigitsAtMost(d.month);
    TwoDigitsAtMost(d.day);
  }

  lemma TwoDigitsAtMost(n: nat)
    requires n <= 99
    ensures |Digits(n)| <= 2
  {
    DigitsCount(n);
    DigitsCount(n / 10);
  }

  lemma FourDigitsAtMost(n: nat)
    requires n <= 9999
    ensures |Digits(n)| <= 4
  {
    DigitsCount(n);
    DigitsCount(n / 10);
    TwoDigitsAtMost(n / 100);
    assert n / 10 / 10 == n / 100;
  }

  /** Dates written alike are the same date. */
  lemma IsoReadsBack(d: Date)
    ensures var s := Iso(d);
            && AllDigits(Before(s, '-')) && Value(Before(s, '-')) == d.year
            && AllDigits(Before(After(s, '-'), '-')) && Value(Before(After(s, '-'), '-')) == d.month
            && AllDigits(After(After(s, '-'), '-')) && Value(After(After(s, '-'), '-')) == d.day
  {
    var y, m, n := ZeroPad(Digits(d.year), 4), ZeroPad(Digits(d.month), 2), ZeroPad(Digits(d.day), 2);
    DigitsReadBack(d.year);
    DigitsReadBack(d.month);
    DigitsReadBack(d.day);
    ZeroPadReadBack(Digits(d.year), 4);
    ZeroPadReadBack(Digits(d.month), 2);
    ZeroPadReadBack(Digits(d.day), 2);
    assert Iso(d) == y + ['-'] + (m + ['-'] + n);
    SplitFirst(y, '-', m + ['-'] + n);
    SplitFirst(m, '-', n);
  }

  // ---- Header ----

  lemma FirstThree(a: Element, b: Element, c: Element, rest: seq<Element>)
    requires a.tag != b.tag && a.tag != c.tag && b.tag != c.tag
    ensures var es := [a, b, c] + rest;
            Find(es, a.tag) == Some(a) && Find(es, b.tag) == Some(b) && Find(es, c.tag) == Some(c)
  {
    var es := [a, b, c] + rest;
    FindAt(es, 0);
    FindAt(es, 1);
    FindAt(es, 2);
  }

  lemma OpeningFinds(inv: Invoice)
    ensures Find(OpeningOf(inv), KodWaluty) == Some(Leaf(KodWaluty, if inv.currency == "" then "PLN" else inv.currency))
    ensures Find(OpeningOf(inv), P1) == Some(Leaf(P1, Iso(inv.issueDate)))
    ensures Find(OpeningOf(inv), P2) == Some(Leaf(P2, if inv.number.Some? then inv.number.value else ""))
  {
    var delivered := if inv.deliveryDate.Some? then inv.deliveryDate.value else inv.saleDate;
    FirstThree(Leaf(KodWaluty, if inv.currency == "" then "PLN" else inv.currency), Leaf(P1, Iso(inv.issueDate)),
               Leaf(P2, if inv.number.Some? then inv.number.value else ""),
               if delivered != inv.issueDate then [Leaf(P6, Iso(delivered))] else []);
  }

  lemma OpeningReads(scale: int, inv: Invoice)
    requires scale > 0
    ensures var es := Children(scale, inv);
            && TextAt(es, P1) == Iso(inv.issueDate)
            && TextAt(es, P2) == Strip(if inv.number.Some? then inv.number.value else "")
            && TextAt(es, KodWaluty) == Strip(if inv.currency == "" then "PLN" else inv.currency)
  {
    OpeningFinds(inv);
    FindInDocument(scale, inv, P1);
    FindInDocument(scale, inv, P2);
    FindInDocument(scale, inv, KodWaluty);
    IsoIsClean(inv.issueDate);
  }

  lemma KindIsClean(k: Kind)
    ensures KindText(k) != "" && Strip(KindText(k)) == KindText(k)
  {
    StripTrims(KindText(k));
  }

  /** The last of two neighbours after a head without its tag. */
  lemma FoundAfter(first: Element, head: seq<Element>, near: Element, e: Element, rest: seq<Element>)
    requires first.tag != e.tag && Absent(head, e.tag) && near.tag != e.tag
    ensures Find([first] + head + [near, e] + rest, e.tag) == Some(e)
    ensures Find([first] + head + [near, e] + rest, first.tag) == Some(first)
  {
    var es := [first] + head + [near, e] + rest;
    FindAt(es, |head| + 2);
    FindAt(es, 0);
  }

  lemma MiddleFinds(inv: Invoice)
    ensures Find(MiddleOf(inv), RodzajFaktury) == Some(Leaf(RodzajFaktury, KindText(inv.kind)))
    ensures Find(MiddleOf(inv), P15) == Some(Leaf(P15, Fmt(inv.totals.gross)))
  {
    FoundAfter(Leaf(P15, Fmt(inv.totals.gross)), ExchangeOf(inv), Leaf(Adnotacje, ""),
               Leaf(RodzajFaktury, KindText(inv.kind)), CorrectionOf(inv));
  }

  lemma MiddleReads(scale: int, inv: Invoice)
    requires scale > 0
    ensures var es := Children(scale, inv);
            && TextAt(es, RodzajFaktury) == KindText(inv.kind)
            && Find(es, P15) == Some(Leaf(P15, Fmt(inv.totals.gross)))
  {
    MiddleFinds(inv);
    FindInDocument(scale, inv, RodzajFaktury);
    FindInDocument(scale, inv, P15);
    KindIsClean(inv.kind);
  }

  // ---- Payment ----

  lemma PaymentWalk(inv: Invoice)
    ensures var p := PaymentOf(inv);
            Iter(p) == if inv.dueDate.Some?
                       then [p, p.children[0], Leaf(Termin, Iso(inv.dueDate.value)),
                             Leaf(FormaPlatnosci, MethodCode(inv.payBy))]
                       else [p, Leaf(FormaPlatnosci, MethodCode(inv.payBy))]
  {
    var p, form := PaymentOf(inv), Leaf(FormaPlatnosci, MethodCode(inv.payBy));
    IterOne(form);
    assert Iter(form) == [form];
    if inv.dueDate.Some? {
      var date := Leaf(Termin, Iso(inv.dueDate.value));
      var term := Element(TerminPlatnosci, "", [date]);
      IterOne(date);
      IterOne(term);
      IterAppend([term], [form]);
      assert Iter(term) == [term, date];
    } else {
      assert p.children == [form];
    }
  }

  lemma FormReads(m: PaymentMethod)
    ensures var form := Leaf(FormaPlatnosci, MethodCode(m));
            FirstMethod([form]) == Some(m) && FirstDate([form]) == None && FirstTerm([form]) == None
  {
    assert Strip("1") == "1" && Strip("6") == "6";
    assert [Leaf(FormaPlatnosci, MethodCode(m))][1..] == [];
  }

  lemma TermReads(payment: Element, term: Element, date: string, form: Element)
    requires payment.tag == Platnosc && Iter(payment) == [payment, term, Leaf(Termin, date), form]
    requires term.tag == TerminPlatnosci && term.text == "" && date != "" && Strip(date) == date
    ensures FirstTerm(Iter(payment)) == Some(date)
    ensures FirstMethod(Iter(payment)) == FirstMethod([form])
  {
    var walk := Iter(payment);
    assert walk[1..] == [term, Leaf(Termin, date), form];
    assert walk[1..][1..] == [Leaf(Termin, date), form];
    assert walk[1..][1..][1..] == [form];
    assert Strip("") == "";
    assert FirstDate(walk[1..][1..]) == Some(date);
    assert FirstDate(walk[1..]) == Some(date);
    assert FirstMethod(walk[1..][1..]) == FirstMethod([form]);
    assert FirstMethod(walk[1..]) == FirstMethod([form]);
  }

  lemma PaymentReads(inv: Invoice)
    ensures var walk := Iter(PaymentOf(inv));
            && FirstMethod(walk) == Some(inv.payBy)
            && FirstTerm(walk) == if inv.dueDate.Some? then Some(Iso(inv.dueDate.value)) else None
  {
    var p, form := PaymentOf(inv), Leaf(FormaPlatnosci, MethodCode(inv.payBy));
    PaymentWalk(inv);
    FormReads(inv.payBy);
    if inv.dueDate.Some? {
      IsoIsClean(inv.dueDate.value);
      TermReads(p, p.children[0], Iso(inv.dueDate.value), form);
    } else {
      assert Iter(p)[1..] == [form];
    }
  }

  lemma NothingReads(scale: int, inv: Invoice, tag: Tag)
    requires scale > 0 && tag != FaWiersz && tag != Platnosc
    requires !OpeningTag(tag) && !IsVatField(tag) && !MiddleTag(tag)
    ensures TextAt(Children(scale, inv), tag) == ""
  {
    FindInDocument(scale, inv, tag);
  }

  lemma NoDirectTerm(scale: int, inv: Invoice)
    requires scale > 0
    ensures TextAt(Children(scale, inv), TerminPlatnosci) == "" && TextAt(Children(scale, inv), DataPlatnosci) == ""
  {
    NothingReads(scale, inv, TerminPlatnosci);
    NothingReads(scale, inv, DataPlatnosci);
  }

  lemma DueDateFromWalk(fa: Element, due: Option<string>)
    requires TextAt(fa.children, TerminPlatnosci) == "" && TextAt(fa.children, DataPlatnosci) == ""
             && FirstTerm(Iter(fa)) == due
    ensures DueDate(fa) == due
  {
  }

  lemma DocumentPayment(scale: int, inv: Invoice)
    requires scale > 0
    ensures var fa := Element(Fa, "", Children(scale, inv));
            && FirstMethod(Iter(fa)) == Some(inv.payBy)
            && DueDate(fa) == if inv.dueDate.Some? then Some(Iso(inv.dueDate.value)) else None
  {
    NoDirectTerm(scale, inv);
    WalkReachesPayment(scale, inv);
    PaymentReads(inv);
    DueDateFromWalk(Element(Fa, "", Children(scale, inv)),
                    if inv.dueDate.Some? then Some(Iso(inv.dueDate.value)) else None);
  }

  // ---- VAT sums ----

  /** The percentage behind a P_13/P_14 field. */
  function PercentOf(field: nat): Option<nat> {
    if field == 1 then Some(23) else if field == 2 then Some(8) else if field == 3 then Some(5)
    else if field == 4 then Some(0) else None
  }

  lemma TableIsByField(j: nat)
    requires j < |TABLE|
    ensures PercentOf(TABLE[j].field) == Some(TABLE[j].percent)
    ensures forall i :: 0 <= i < |TABLE| && i != j ==> TABLE[i].field != TABLE[j].field
  {
  }

  lemma PairHas(scale: nat, items: seq<Item>, foreign: bool, f: VatField, tag: Tag)
    requires tag != P13(f.field) && tag != P14(f.field) && tag != P14W(f.field)
    ensures Absent(VatPair(scale, items, foreign, f), tag)
  {
  }

  lemma PairFinds(scale: nat, items: seq<Item>, foreign: bool, f: VatField)
    ensures var pair := VatPair(scale, items, foreign, f); var rate := f.percent * scale;
            if HasRate(items, rate)
            then Find(pair, P13(f.field)) == Some(Leaf(P13(f.field), Fmt(Sum(NetAt(rate), items))))
                 && Find(pair, P14(f.field)) == Some(Leaf(P14(f.field), Fmt(Sum(VatAt(rate), items))))
            else pair == []
  {
    var pair := VatPair(scale, items, foreign, f);
    if pair != [] {
      FindAt(pair, 0);
      FindAt(pair, 1);
    }
  }

  lemma SkipTail(head: seq<Element>, tail: seq<Element>, tag: Tag)
    requires Absent(tail, tag)
    ensures Find(head + tail, tag) == Find(head, tag)
  {
    FindAppend(head, tail, tag);
    FindNone(tail, tag);
  }

  lemma SkipHead(head: seq<Element>, tail: seq<Element>, tag: Tag)
    requires Find(head, tag) == None
    ensures Find(head + tail, tag) == Find(tail, tag)
  {
    FindAppend(head, tail, tag);
  }

  /** A field of another rate is not among the first `n` pairs. */
  lemma {:induction false} OtherFieldsAbsent(scale: nat, items: seq<Item>, foreign: bool, n: nat, tag: Tag)
    requires n <= |TABLE| && !tag.P14W?
    requires forall i :: 0 <= i < n ==> tag != P13(TABLE[i].field) && tag != P14(TABLE[i].field)
    ensures Find(VatElements(scale, items, foreign, n), tag) == None
  {
    if n > 0 {
      OtherFieldsAbsent(scale, items, foreign, n - 1, tag);
      PairHas(scale, items, foreign, TABLE[n - 1], tag);
      SkipTail(VatElements(scale, items, foreign, n - 1), VatPair(scale, items, foreign, TABLE[n - 1]), tag);
    }
  }

  /** The fields of a rate are those of its pair. */
  lemma {:induction false} FieldInTable(scale: nat, items: seq<Item>, foreign: bool, n: nat, j: nat, tag: Tag)
    requires j < n <= |TABLE| && (tag == P13(TABLE[j].field) || tag == P14(TABLE[j].field))
    ensures Find(VatElements(scale, items, foreign, n), tag) == Find(VatPair(scale, items, foreign, TABLE[j]), tag)
  {
    TableIsByField(j);
    var init, pair := VatElements(scale, items, foreign, n - 1), VatPair(scale, items, foreign, TABLE[n - 1]);
    if j == n - 1 {
      OtherFieldsAbsent(scale, items, foreign, n - 1, tag);
      SkipHead(init, pair, tag);
    } else {
      FieldInTable(scale, items, foreign, n - 1, j, tag);
      PairHas(scale, items, foreign, TABLE[n - 1], tag);
      SkipTail(init, pair, tag);
    }
  }

  function FieldNet(scale: nat, items: seq<Item>, field: nat): int {
    var percent := PercentOf(field);
    if percent.Some? then Sum(NetAt(percent.value * scale), items) else 0
  }

  function FieldVat(scale: nat, items: seq<Item>, field: nat): int {
    var percent := PercentOf(field);
    if percent.Some? then Sum(VatAt(percent.value * scale), items) else 0
  }

  lemma PresentReads(es: seq<Element>, tag: Tag, cents: int)
    requires Find(es, tag) == Some(Leaf(tag, Fmt(cents)))
    ensures forall default :: DecAt(es, tag, default) == Dec(cents, 2)
  {
    FmtReadsBack(cents);
  }

  lemma AbsentReads(es: seq<Element>, tag: Tag)
    requires Find(es, tag) == None
    ensures DecAt(es, tag, ZERO) == ZERO
  {
  }

  ghost predicate FieldReads(es: seq<Element>, scale: nat, items: seq<Item>, field: nat) {
    && IsCents(DecAt(es, P13(field), ZERO), FieldNet(scale, items, field))
    && IsCents(DecAt(es, P14(field), ZERO), FieldVat(scale, items, field))
  }

  lemma UnusedTagReads(scale: int, inv: Invoice, tag: Tag)
    requires scale > 0 && (tag.P13? || tag.P14?)
    requires forall i :: 0 <= i < |TABLE| ==> tag != P13(TABLE[i].field) && tag != P14(TABLE[i].field)
    ensures DecAt(Children(scale, inv), tag, ZERO) == ZERO
  {
    FindInDocument(scale, inv, tag);
    OtherFieldsAbsent(scale, inv.items, Foreign(inv), |TABLE|, tag);
    AbsentReads(Children(scale, inv), tag);
  }

  lemma UnusedFieldReads(scale: int, inv: Invoice, field: nat)
    requires scale > 0 && PercentOf(field).None?
    ensures FieldReads(Children(scale, inv), scale, inv.items, field)
  {
    forall i | 0 <= i < |TABLE| ensures TABLE[i].field != field {
      TableIsByField(i);
    }
    UnusedTagReads(scale, inv, P13(field));
    UnusedTagReads(scale, inv, P14(field));
  }

  lemma PairReads(es: seq<Element>, scale: nat, items: seq<Item>, foreign: bool, f: VatField)
    requires PercentOf(f.field) == Some(f.percent)
    requires Find(es, P13(f.field)) == Find(VatPair(scale, items, foreign, f), P13(f.field))
    requires Find(es, P14(f.field)) == Find(VatPair(scale, items, foreign, f), P14(f.field))
    ensures FieldReads(es, scale, items, f.field)
  {
    var rate := f.percent * scale;
    PairFinds(scale, items, foreign, f);
    if HasRate(items, rate) {
      PresentReads(es, P13(f.field), Sum(NetAt(rate), items));
      PresentReads(es, P14(f.field), Sum(VatAt(rate), items));
    } else {
      AbsentReads(es, P13(f.field));
      AbsentReads(es, P14(f.field));
      SumZero(NetAt(rate), items);
      SumZero(VatAt(rate), items);
    }
  }

  lemma TableFieldReads(scale: int, inv: Invoice, j: nat)
    requires scale > 0 && j < |TABLE|
    ensures FieldReads(Children(scale, inv), scale, inv.items, TABLE[j].field)
  {
    var field := TABLE[j].field;
    TableIsByField(j);
    FindInDocument(scale, inv, P13(field));
    FindInDocument(scale, inv, P14(field));
    FieldInTable(scale, inv.items, Foreign(inv), |TABLE|, j, P13(field));
    FieldInTable(scale, inv.items, Foreign(inv), |TABLE|, j, P14(field));
    PairReads(Children(scale, inv), scale, inv.items, Foreign(inv), TABLE[j]);
  }

  /** A field reads as its rate's aggregate; a missing field reads as zero, which is the aggregate then. */
  lemma EveryFieldReads(scale: int, inv: Invoice)
    requires scale > 0
    ensures forall field: nat :: FieldReads(Children(scale, inv), scale, inv.items, field)
  {
    forall field: nat ensures FieldReads(Children(scale, inv), scale, inv.items, field) {
      if PercentOf(field).None? {
        UnusedFieldReads(scale, inv, field);
      } else {
        TableFieldReads(scale, inv, if field == 4 then 0 else if field == 1 then 1 else if field == 3 then 2 else 3);
      }
    }
  }

  function NetOfFields(scale: nat, items: seq<Item>, n: nat): int
    requires n <= |P13_FIELDS|
  {
    if n == 0 then 0 else NetOfFields(scale, items, n - 1) + FieldNet(scale, items, P13_FIELDS[n - 1])
  }

  function VatOfFields(scale: nat, items: seq<Item>, n: nat): int
    requires n <= |P14_FIELDS|
  {
    if n == 0 then 0 else VatOfFields(scale, items, n - 1) + FieldVat(scale, items, P14_FIELDS[n - 1])
  }

  lemma NetStep(es: seq<Element>, scale: nat, items: seq<Item>, n: nat, field: nat)
    requires n < |P13_FIELDS| && field == P13_FIELDS[n] && FieldReads(es, scale, items, field)
    requires IsCents(NetSum(es, n), NetOfFields(scale, items, n))
    ensures IsCents(NetSum(es, n + 1), NetOfFields(scale, items, n + 1))
  {
    PlusCents(NetSum(es, n), NetOfFields(scale, items, n), DecAt(es, P13(field), ZERO), FieldNet(scale, items, field));
  }

  lemma VatStep(es: seq<Element>, scale: nat, items: seq<Item>, n: nat, field: nat)
    requires n < |P14_FIELDS| && field == P14_FIELDS[n] && FieldReads(es, scale, items, field)
    requires IsCents(VatSum(es, n), VatOfFields(scale, items, n))
    ensures IsCents(VatSum(es, n + 1), VatOfFields(scale, items, n + 1))
  {
    PlusCents(VatSum(es, n), VatOfFields(scale, items, n), DecAt(es, P14(field), ZERO), FieldVat(scale, items, field));
  }

  lemma {:induction false} NetSumReads(es: seq<Element>, scale: nat, items: seq<Item>, n: nat)
    requires n <= |P13_FIELDS| && forall field: nat :: FieldReads(es, scale, items, field)
    ensures IsCents(NetSum(es, n), NetOfFields(scale, items, n))
  {
    if n > 0 {
      NetSumReads(es, scale, items, n - 1);
      NetStep(es, scale, items, n - 1, P13_FIELDS[n - 1]);
    }
  }

  lemma {:induction false} VatSumReads(es: seq<Element>, scale: nat, items: seq<Item>, n: nat)
    requires n <= |P14_FIELDS| && forall field: nat :: FieldReads(es, scale, items, field)
    ensures IsCents(VatSum(es, n), VatOfFields(scale, items, n))
  {
    if n > 0 {
      VatSumReads(es, scale, items, n - 1);
      VatStep(es, scale, items, n - 1, P14_FIELDS[n - 1]);
    }
  }

  /** The four rates with fields, in field order. */
  function FieldRates(scale: nat): seq<nat> {
    [23 * scale, 8 * scale, 5 * scale, 0]
  }

  lemma FourFields(scale: nat, items: seq<Item>)
    ensures NetOfFields(scale, items, 4) ==
            Sum(NetAt(23 * scale), items) + Sum(NetAt(8 * scale), items) + Sum(NetAt(5 * scale), items)
                + Sum(NetAt(0), items)
    ensures VatOfFields(scale, items, 4) ==
            Sum(VatAt(23 * scale), items) + Sum(VatAt(8 * scale), items) + Sum(VatAt(5 * scale), items)
                + Sum(VatAt(0), items)
  {
    assert NetOfFields(scale, items, 1) == FieldNet(scale, items, 1);
    assert NetOfFields(scale, items, 2) == NetOfFields(scale, items, 1) + FieldNet(scale, items, 2);
    assert NetOfFields(scale, items, 3) == NetOfFields(scale, items, 2) + FieldNet(scale, items, 3);
    assert NetOfFields(scale, items, 4) == NetOfFields(scale, items, 3) + FieldNet(scale, items, 4);
    assert VatOfFields(scale, items, 1) == FieldVat(scale, items, 1);
    assert VatOfFields(scale, items, 2) == VatOfFields(scale, items, 1) + FieldVat(scale, items, 2);
    assert VatOfFields(scale, items, 3) == VatOfFields(scale, items, 2) + FieldVat(scale, items, 3);
    assert VatOfFields(scale, items, 4) == VatOfFields(scale, items, 3) + FieldVat(scale, items, 4);
  }

  lemma OtherFieldsAreEmpty(scale: nat, items: seq<Item>)
    ensures NetOfFields(scale, items, 10) == NetOfFields(scale, items, 4)
    ensures VatOfFields(scale, items, 5) == VatOfFields(scale, items, 4)
  {
    assert NetOfFields(scale, items, 5) == NetOfFields(scale, items, 4);
    assert NetOfFields(scale, items, 6) == NetOfFields(scale, items, 5);
    assert NetOfFields(scale, items, 7) == NetOfFields(scale, items, 6);
    assert NetOfFields(scale, items, 8) == NetOfFields(scale, items, 7);
    assert NetOfFields(scale, items, 9) == NetOfFields(scale, items, 8);
  }

  lemma OverFour(items: seq<Item>, a: nat, b: nat, c: nat, d: nat)
    ensures NetOver(items, [a, b, c, d])
            == Sum(NetAt(a), items) + Sum(NetAt(b), items) + Sum(NetAt(c), items) + Sum(NetAt(d), items)
    ensures VatOver(items, [a, b, c, d])
            == Sum(VatAt(a), items) + Sum(VatAt(b), items) + Sum(VatAt(c), items) + Sum(VatAt(d), items)
  {
    assert [a, b, c, d][..3] == [a, b, c] && [a, b, c][..2] == [a, b] && [a, b][..1] == [a] && [a][..0] == [];
    assert NetOver(items, [a]) == Sum(NetAt(a), items) && VatOver(items, [a]) == Sum(VatAt(a), items);
    assert NetOver(items, [a, b]) == NetOver(items, [a]) + Sum(NetAt(b), items);
    assert VatOver(items, [a, b]) == VatOver(items, [a]) + Sum(VatAt(b), items);
    assert NetOver(items, [a, b, c]) == NetOver(items, [a, b]) + Sum(NetAt(c), items);
    assert VatOver(items, [a, b, c]) == VatOver(items, [a, b]) + Sum(VatAt(c), items);
  }

  lemma FieldsAreRates(scale: nat, items: seq<Item>)
    ensures NetOfFields(scale, items, |P13_FIELDS|) == NetOver(items, FieldRates(scale))
    ensures VatOfFields(scale, items, |P14_FIELDS|) == VatOver(items, FieldRates(scale))
  {
    FourFields(scale, items);
    OtherFieldsAreEmpty(scale, items);
    OverFour(items, 23 * scale, 8 * scale, 5 * scale, 0);
  }

  lemma SumsAreTotals(scale: int, items: seq<Item>)
    requires scale > 0 && RatesKnown(scale, items)
    ensures NetOfFields(scale, items, |P13_FIELDS|) == TotalsOf(items).net
    ensures VatOfFields(scale, items, |P14_FIELDS|) == TotalsOf(items).vat
  {
    FieldsAreRates(scale, items);
    RatesCover(scale, items);
    AggregatesPartition(items, FieldRates(scale));
  }

  lemma GrossReads(es: seq<Element>, t: Totals)
    requires Find(es, P15) == Some(Leaf(P15, Fmt(t.gross))) && t.gross == t.net + t.vat
    requires IsCents(NetSum(es, |P13_FIELDS|), t.net) && IsCents(VatSum(es, |P14_FIELDS|), t.vat)
    ensures IsCents(GrossSum(es), t.gross)
  {
    PresentReads(es, P15, t.gross);
    PlusCents(NetSum(es, |P13_FIELDS|), t.net, VatSum(es, |P14_FIELDS|), t.vat);
  }

  /** The parsed sums are the header totals: every line is in exactly one field. */
  lemma TotalsRead(scale: int, inv: Invoice)
    requires scale > 0 && RatesKnown(scale, inv.items) && inv.totals == TotalsOf(inv.items) && Consistent(inv.items)
    ensures var es := Children(scale, inv);
            && IsCents(NetSum(es, |P13_FIELDS|), inv.totals.net)
            && IsCents(VatSum(es, |P14_FIELDS|), inv.totals.vat)
            && IsCents(GrossSum(es), inv.totals.gross)
  {
    var es := Children(scale, inv);
    EveryFieldReads(scale, inv);
    NetSumReads(es, scale, inv.items, |P13_FIELDS|);
    VatSumReads(es, scale, inv.items, |P14_FIELDS|);
    SumsAreTotals(scale, inv.items);
    TotalsAdd(inv.items);
    MiddleReads(scale, inv);
    GrossReads(es, inv.totals);
  }

  lemma RatesCover(scale: int, items: seq<Item>)
    requires scale > 0 && RatesKnown(scale, items)
    ensures var rates := FieldRates(scale);
            && (forall i, j :: 0 <= i < j < |rates| ==> rates[i] != rates[j])
            && (forall k :: 0 <= k < |items| ==> items[k].rate in rates)
  {
    forall k | 0 <= k < |items| ensures items[k].rate in FieldRates(scale) {
      assert KnownRate(scale, items[k].rate);
      assert FieldRates(scale)[0] == 23 * scale && FieldRates(scale)[1] == 8 * scale
             && FieldRates(scale)[2] == 5 * scale && FieldRates(scale)[3] == 0;
    }
  }
}
