/** Lines of a mapped invoice read back, the round trip as a whole, and the rounding gap it leaves in line VAT. */
module Fa3Lines {
  import opened Prelude
  import opened Text
  import opened Decimals
  import opened Rounding
  import opened InvoiceTotals
  import opened Fa3
  import opened Fa3Lookup
  import opened Fa3RoundTrip
  import opened Fa3Document

  // ---- One line ----

  lemma RowField(scale: int, item: Item, k: nat)
    requires scale > 0 && k < 7
    ensures var row := RowOf(scale, item).children;
            Find(row, row[k].tag) == Some(row[k]) && TextAt(row, row[k].tag) == Strip(row[k].text)
  {
    FindAt(RowOf(scale, item).children, k);
  }

  lemma NameReads(scale: int, item: Item)
    requires scale > 0 && Trimmed(item.name)
    ensures TextAt(RowOf(scale, item).children, P7) == item.name
  {
    RowField(scale, item, 1);
    StripTrims(item.name);
  }

  lemma UnitReads(scale: int, item: Item)
    requires scale > 0
    ensures TextAt(RowOf(scale, item).children, P8A) == Strip(item.unit)
  {
    RowField(scale, item, 2);
    assert RowOf(scale, item).children[2] == Leaf(P8A, item.unit);
  }

  lemma AmountsRead(scale: int, item: Item)
    requires scale > 0
    ensures var row := RowOf(scale, item).children;
            && DecAt(row, P8B, Dec(1, 0)) == Dec(100 * item.quantity, 2)
            && DecAt(row, P9A, ZERO) == Dec(HalfEven(100 * item.price, scale), 2)
            && DecAt(row, P11, ZERO) == Dec(item.net, 2)
  {
    var row := RowOf(scale, item).children;
    RowField(scale, item, 3);
    RowField(scale, item, 4);
    RowField(scale, item, 5);
    PresentReads(row, P8B, 100 * item.quantity);
    PresentReads(row, P9A, HalfEven(100 * item.price, scale));
    PresentReads(row, P11, item.net);
  }

  lemma ZeroRateText()
    ensures Strip("0 KR") == "0 KR" && ParseDec("0 KR") == None
  {
    StripTrims("0 KR");
    NoSeparator("0 KR", '.');
    assert "0 KR"[1] == ' ';
  }

  /** The rate of a line reads back; the code of the zero rate is no number and reads as zero. */
  lemma RateReads(scale: int, item: Item)
    requires scale > 0 && KnownRate(scale, item.rate)
    ensures item.rate == item.rate / scale * scale
    ensures DecAt(RowOf(scale, item).children, P12, ZERO) == Dec(item.rate / scale, 0)
  {
    RowField(scale, item, 6);
    KnownRateIsWhole(scale, item.rate);
    if item.rate == 0 {
      ZeroRateText();
    } else {
      WholeReadsBack(item.rate / scale);
      DigitsReadBack(item.rate / scale);
    }
  }

  lemma KnownRateIsWhole(scale: int, rate: nat)
    requires scale > 0 && KnownRate(scale, rate)
    ensures rate == rate / scale * scale && rate / scale >= 0 && (rate == 0 ==> rate / scale == 0)
  {
    var k := if rate == 0 then 0 else if rate == 5 * scale then 5 else if rate == 8 * scale then 8 else 23;
    QuotientIs(rate, scale, k);
  }

  lemma ScaledRounding(n: int, d: int, s: int)
    requires d > 0 && s > 0
    ensures d * s > 0 && HalfEven(n * s, d * s) == HalfEven(n, d)
  {
    if n < 0 {
      ScaledEven(-n, d, s);
      assert -(n * s) == (-n) * s;
      NegativeProduct(n, s);
    } else {
      ScaledEven(n, d, s);
    }
  }

  lemma NegativeProduct(n: int, s: int)
    requires n < 0 < s
    ensures n * s < 0
  {
  }

  lemma ScaledEven(n: nat, d: int, s: int)
    requires d > 0 && s > 0
    ensures d * s > 0 && n * s >= 0 && EvenOf(n * s, d * s) == EvenOf(n, d)
  {
    var q, r := n / d, n % d;
    DivisionBounds(n, d);
    ScaledQuotient(n, d, s, q, r);
    Compared(r, d, s);
  }

  lemma QuotientAndRest(n: int, d: int, q: int, r: int)
    requires d > 0 && n == q * d + r && 0 <= r < d
    ensures n / d == q && n % d == r
  {
    QuotientIs(n, d, q);
    DivisionBounds(n, d);
  }

  lemma Distributed(q: int, d: int, r: int, s: int)
    ensures (q * d + r) * s == q * (d * s) + r * s
  {
  }

  lemma ScaledQuotient(n: nat, d: int, s: int, q: int, r: int)
    requires d > 0 && s > 0 && n == q * d + r && 0 <= r < d
    ensures d * s > 0 && n * s >= 0 && n * s / (d * s) == q && n * s % (d * s) == r * s
  {
    Distributed(q, d, r, s);
    Steps(r, d, s);
    Steps(0, s, d);
    QuotientAndRest(n * s, d * s, q, r * s);
  }

  lemma Compared(r: int, d: int, s: int)
    requires s > 0
    ensures 2 * r < d <==> 2 * (r * s) < d * s
    ensures 2 * r == d <==> 2 * (r * s) == d * s
  {
    assert 2 * (r * s) == (2 * r) * s;
    if 2 * r < d {
      Steps(2 * r, d, s);
    } else if 2 * r > d {
      Steps(d, 2 * r, s);
    }
  }

  /** What a line becomes: everything the invoice says, with the price to the cent and the VAT rounded to even. */
  ghost predicate ReadsAs(scale: int, item: Item, p: ParsedItem)
    requires scale > 0
  {
    && p.name == item.name && p.unit == OrElse(Strip(item.unit), "szt.")
    && Is(p.quantity, item.quantity, 1) && IsCents(p.price, HalfEven(100 * item.price, scale))
    && Is(p.rate, item.rate, scale) && IsCents(p.net, item.net)
    && p.vat == HalfEven(item.net * item.rate, 100 * scale)
    && IsCents(p.gross, item.net + p.vat) && p.sortOrder == item.sortOrder
  }

  lemma LineVatOfCents(net: int, percent: int)
    ensures LineVat(Dec(net, 2), Dec(percent, 0)) == HalfEven(net * percent, 100)
  {
    assert Pow10(2) == 10 * Pow10(1) && Pow10(1) == 10 * Pow10(0);
  }

  lemma ScaledVat(net: int, percent: int, rate: int, scale: int)
    requires scale > 0 && rate == percent * scale
    ensures HalfEven(net * percent, 100) == HalfEven(net * rate, 100 * scale)
  {
    ScaledRounding(net * percent, 100, scale);
    Regrouped(net, percent, scale);
  }

  lemma Regrouped(a: int, b: int, c: int)
    ensures (a * b) * c == a * (b * c)
  {
  }

  lemma LineVatReads(scale: int, item: Item)
    requires scale > 0 && item.rate == item.rate / scale * scale
    ensures LineVat(Dec(item.net, 2), Dec(item.rate / scale, 0)) == HalfEven(item.net * item.rate, 100 * scale)
  {
    LineVatOfCents(item.net, item.rate / scale);
    ScaledVat(item.net, item.rate / scale, item.rate, scale);
  }

  lemma ExactReading(scale: int, item: Item, p: ParsedItem)
    requires scale > 0 && item.rate == item.rate / scale * scale
    requires p.name == item.name && p.unit == OrElse(Strip(item.unit), "szt.") && p.sortOrder == item.sortOrder
    requires p.quantity == Dec(100 * item.quantity, 2) && p.price == Dec(HalfEven(100 * item.price, scale), 2)
    requires p.rate == Dec(item.rate / scale, 0) && p.net == Dec(item.net, 2)
    requires p.vat == HalfEven(item.net * item.rate, 100 * scale) && p.gross == Plus(Dec(item.net, 2), Dec(p.vat, 2))
    ensures ReadsAs(scale, item, p)
  {
    PlusCents(Dec(item.net, 2), item.net, Dec(p.vat, 2), p.vat);
    assert Pow10(0) == 1 && Pow10(1) == 10 && Pow10(2) == 100;
  }

  lemma LineReads(scale: int, item: Item)
    requires scale > 0 && KnownRate(scale, item.rate) && Trimmed(item.name)
    ensures ReadsAs(scale, item, ParseRow(RowOf(scale, item), item.sortOrder))
  {
    NameReads(scale, item);
    UnitReads(scale, item);
    AmountsRead(scale, item);
    RateReads(scale, item);
    LineVatReads(scale, item);
    ExactReading(scale, item, ParseRow(RowOf(scale, item), item.sortOrder));
  }

  /** The price of a line survives exactly when it is a whole number of cents. */
  lemma PriceSurvivesIff(scale: int, item: Item, p: ParsedItem)
    requires scale > 0 && ReadsAs(scale, item, p)
    ensures Is(p.price, item.price, scale) <==> 100 * item.price % scale == 0
  {
    ExactOnly(100 * item.price, scale);
    CentsAreHundredths(p.price, HalfEven(100 * item.price, scale));
    CentsAgainstScale(p.price, HalfEven(100 * item.price, scale), item.price, scale);
  }

  /** A number of cents is `num / den` exactly when cross-multiplication says so. */
  lemma CentsAgainstScale(d: Dec, cents: int, num: int, den: int)
    requires IsCents(d, cents) && den > 0
    ensures Is(d, num, den) <==> cents * den == 100 * num
  {
    assert Pow10(0) == 1 && Pow10(1) == 10 && Pow10(2) == 100;
    if d.places == 0 {
      assert cents * den == 100 * (d.units * den);
    } else if d.places == 1 {
      assert cents * den == 10 * (d.units * den);
    }
  }

  // ---- The whole document ----

  lemma {:induction false} ParseRowAt(rows: seq<Element>, k: nat)
    requires k < |rows|
    ensures ParseRows(rows)[k] == ParseRow(rows[k], k + 1)
  {
    if k < |rows| - 1 {
      ParseRowAt(rows[..|rows| - 1], k);
    }
  }

  lemma ParseRowsAt(rows: seq<Element>)
    ensures forall k :: 0 <= k < |rows| ==> ParseRows(rows)[k] == ParseRow(rows[k], k + 1)
  {
    forall k | 0 <= k < |rows| ensures ParseRows(rows)[k] == ParseRow(rows[k], k + 1) {
      ParseRowAt(rows, k);
    }
  }

  /** The lines without their VAT in PLN, which is set later. */
  function Plain(items: seq<Item>): (r: seq<Item>)
    ensures |r| == |items| && forall k :: 0 <= k < |r| ==> r[k] == items[k].(vatPln := None)
  {
    seq(|items|, k requires 0 <= k < |items| => items[k].(vatPln := None))
  }

  /** An invoice as the builder makes it: lines from accepted input, numbered from one, and their totals; the lines
      may carry any VAT in PLN. */
  ghost predicate Built(scale: int, raws: seq<RawItem>, inv: Invoice)
    requires scale > 0
  {
    BuildItems(scale, raws) == Ok(Plain(inv.items)) && inv.totals == TotalsOf(inv.items)
  }

  lemma BuiltLines(scale: int, raws: seq<RawItem>, inv: Invoice)
    requires scale > 0 && Built(scale, raws, inv)
    ensures Consistent(inv.items)
    ensures forall k :: 0 <= k < |inv.items| ==>
              && inv.items[k].sortOrder == k + 1 && Trimmed(inv.items[k].name) && 0 <= inv.items[k].net
              && inv.items[k].vat == HalfUp(inv.items[k].net * inv.items[k].rate, 100 * scale)
  {
    BuildItemsVerdict(scale, raws);
    forall k | 0 <= k < |inv.items|
      ensures inv.items[k].gross == inv.items[k].net + inv.items[k].vat
      ensures inv.items[k].sortOrder == k + 1 && Trimmed(inv.items[k].name) && 0 <= inv.items[k].net
      ensures inv.items[k].vat == HalfUp(inv.items[k].net * inv.items[k].rate, 100 * scale)
    {
      assert Plain(inv.items)[k] == BuildItem(scale, raws[k], k + 1);
      LineIsNearest(scale, raws[k], k + 1);
    }
  }

  lemma LineAt(scale: int, items: seq<Item>, k: nat)
    requires scale > 0 && k < |items|
    requires KnownRate(scale, items[k].rate) && items[k].sortOrder == k + 1 && Trimmed(items[k].name)
    ensures ReadsAs(scale, items[k], ParseRows(RowsOf(scale, items))[k])
  {
    RowsAt(scale, items);
    ParseRowsAt(RowsOf(scale, items));
    LineReads(scale, items[k]);
  }

  ghost predicate SameLines(scale: int, items: seq<Item>, lines: seq<ParsedItem>)
    requires scale > 0
  {
    |lines| == |items| && forall k :: 0 <= k < |lines| ==> ReadsAs(scale, items[k], lines[k])
  }

  lemma LinesRead(scale: int, raws: seq<RawItem>, inv: Invoice)
    requires scale > 0 && Built(scale, raws, inv) && RatesKnown(scale, inv.items)
    ensures SameLines(scale, inv.items, ParseRows(RowsOf(scale, inv.items)))
  {
    BuiltLines(scale, raws, inv);
    forall k | 0 <= k < |inv.items| ensures ReadsAs(scale, inv.items[k], ParseRows(RowsOf(scale, inv.items))[k]) {
      LineAt(scale, inv.items, k);
    }
  }

  /** Blank or untrimmed texts come back trimmed, or as their defaults. */
  ghost predicate SameHeader(inv: Invoice, p: Parsed) {
    && (forall k: Kind :: KindIs(k, p.kind) <==> k == inv.kind)
    && p.number
       == (var n := Strip(if inv.number.Some? then inv.number.value else ""); if n == "" then None else Some(n))
    && p.issueDate == Iso(inv.issueDate)
    && p.currency == OrElse(Strip(inv.currency), "PLN")
    && p.payBy == Some(inv.payBy)
    && p.dueDate == (if inv.dueDate.Some? then Some(Iso(inv.dueDate.value)) else None)
  }

  predicate SameTotals(t: Totals, p: Parsed) {
    IsCents(p.net, t.net) && IsCents(p.vat, t.vat) && IsCents(p.gross, t.gross)
  }

  lemma DefaultCurrency(currency: string)
    ensures OrElse(Strip(if currency == "" then "PLN" else currency), "PLN") == OrElse(Strip(currency), "PLN")
  {
    StripTrims("PLN");
  }

  lemma FieldsRead(scale: int, inv: Invoice)
    requires scale > 0
    ensures var es := Children(scale, inv);
            && TextAt(es, P1) == Iso(inv.issueDate) != ""
            && TextAt(es, P2) == Strip(if inv.number.Some? then inv.number.value else "")
            && OrElse(TextAt(es, RodzajFaktury), "VAT") == KindText(inv.kind)
  {
    OpeningReads(scale, inv);
    MiddleReads(scale, inv);
    IsoIsClean(inv.issueDate);
    KindIsClean(inv.kind);
  }

  lemma HeaderReads(scale: int, inv: Invoice)
    requires scale > 0
    ensures var r := Parse(Element(Fa, "", Children(scale, inv))); r.Ok? && SameHeader(inv, r.value)
  {
    FieldsRead(scale, inv);
    OpeningReads(scale, inv);
    DefaultCurrency(inv.currency);
    DocumentPayment(scale, inv);
    KindIsWritten(inv.kind);
  }

  /** Round trip: whatever lines and header an invoice is built from, if the mapper accepts it then parsing its
      document succeeds and gives back the header, the totals and every line in order. */
  lemma RoundTrip(scale: int, raws: seq<RawItem>, inv: Invoice, fa: Element)
    requires scale > 0 && Built(scale, raws, inv) && ToXml(scale, inv) == Ok(fa)
    ensures var r := Parse(fa);
            && r.Ok? && SameHeader(inv, r.value) && SameTotals(inv.totals, r.value)
            && SameLines(scale, inv.items, r.value.items)
  {
    assert fa == Element(Fa, "", Children(scale, inv));
    BuiltLines(scale, raws, inv);
    HeaderReads(scale, inv);
    TotalsRead(scale, inv);
    RowsAreFound(scale, inv);
    LinesRead(scale, raws, inv);
  }

  // ---- The rounding gap ----

  function ParsedVat(): ParsedItem -> int {
    (p: ParsedItem) => p.vat
  }

  /** One for a line whose exact VAT ends in half a cent above an even cent. */
  function RoundedDown(scale: int): Item -> int
    requires scale > 0
  {
    (i: Item) =>
      if i.net >= 0 && Tie(i.net * i.rate, 100 * scale) && (i.net * i.rate / (100 * scale)) % 2 == 0 then 1 else 0
  }

  lemma LineGap(scale: int, item: Item, line: ParsedItem)
    requires scale > 0 && ReadsAs(scale, item, line)
    requires 0 <= item.net && item.vat == HalfUp(item.net * item.rate, 100 * scale)
    ensures item.vat - line.vat == RoundedDown(scale)(item) && 0 <= RoundedDown(scale)(item) <= 1
  {
    RoundingsCompared(item.net * item.rate, 100 * scale);
  }

  lemma {:induction false} GapIsTies(scale: int, items: seq<Item>, lines: seq<ParsedItem>)
    requires scale > 0 && SameLines(scale, items, lines)
    requires forall k :: 0 <= k < |items| ==>
               0 <= items[k].net && items[k].vat == HalfUp(items[k].net * items[k].rate, 100 * scale)
    ensures Sum(VatOf(), items) - Sum(ParsedVat(), lines) == Sum(RoundedDown(scale), items)
    ensures 0 <= Sum(RoundedDown(scale), items) <= |items|
  {
    if items != [] {
      var n := |items| - 1;
      LineGap(scale, items[n], lines[n]);
      GapIsTies(scale, items[..n], lines[..n]);
    }
  }

  /** The parser rounds line VAT to even where the builder rounded up. On a document mapped from a built invoice
      the header VAT exceeds the sum of the parsed lines by one cent for each such line, hence by nothing up to
      a cent per line. */
  lemma RoundingGap(scale: int, raws: seq<RawItem>, inv: Invoice, fa: Element)
    requires scale > 0 && Built(scale, raws, inv) && ToXml(scale, inv) == Ok(fa)
    ensures var r := Parse(fa);
            && r.Ok?
            && inv.totals.vat - Sum(ParsedVat(), r.value.items) == Sum(RoundedDown(scale), inv.items)
            && 0 <= inv.totals.vat - Sum(ParsedVat(), r.value.items) <= |inv.items|
  {
    RoundTrip(scale, raws, inv, fa);
    BuiltLines(scale, raws, inv);
    GapIsTies(scale, inv.items, Parse(fa).value.items);
  }

  /** The lines an import stores: as mapped, with the parsed VAT. */
  function Imported(items: seq<Item>, lines: seq<ParsedItem>): (r: seq<Item>)
    requires |items| == |lines|
    ensures |r| == |items|
  {
    if items == [] then []
    else
      var n := |items| - 1;
      Imported(items[..n], lines[..n]) + [items[n].(vat := lines[n].vat, gross := items[n].net + lines[n].vat)]
  }

  lemma {:induction false} ImportedSums(items: seq<Item>, lines: seq<ParsedItem>)
    requires |items| == |lines|
    ensures var t := TotalsOf(Imported(items, lines));
            t == Totals(Sum(NetOf(), items), Sum(ParsedVat(), lines), Sum(NetOf(), items) + Sum(ParsedVat(), lines))
  {
    if items != [] {
      var n := |items| - 1;
      ImportedSums(items[..n], lines[..n]);
      var last := items[n].(vat := lines[n].vat, gross := items[n].net + lines[n].vat);
      SumAppend(NetOf(), Imported(items[..n], lines[..n]), last);
      SumAppend(VatOf(), Imported(items[..n], lines[..n]), last);
      SumAppend(GrossOf(), Imported(items[..n], lines[..n]), last);
    }
  }

  lemma SmallGapPasses(items: seq<Item>, t: Totals)
    requires var s := TotalsOf(items); s.net == t.net && s.gross == s.net + s.vat
    requires t.gross == t.net + t.vat && 0 <= t.vat - TotalsOf(items).vat <= |items|
    ensures FormalSums(items, t) && VatSums(items, t)
  {
  }

  lemma BuiltTotals(scale: int, raws: seq<RawItem>, inv: Invoice)
    requires scale > 0 && Built(scale, raws, inv)
    ensures inv.totals.net == Sum(NetOf(), inv.items) && inv.totals.gross == inv.totals.net + inv.totals.vat
  {
    BuiltLines(scale, raws, inv);
    TotalsAdd(inv.items);
  }

  /** So a round-tripped invoice, with the header it was sent with, passes every sum check of the validators. */
  lemma ImportedInvoicesPass(scale: int, raws: seq<RawItem>, inv: Invoice, fa: Element)
    requires scale > 0 && Built(scale, raws, inv) && ToXml(scale, inv) == Ok(fa)
    ensures var r := Parse(fa);
            && r.Ok? && |r.value.items| == |inv.items|
            && FormalSums(Imported(inv.items, r.value.items), inv.totals)
            && VatSums(Imported(inv.items, r.value.items), inv.totals)
  {
    RoundTrip(scale, raws, inv, fa);
    RoundingGap(scale, raws, inv, fa);
    BuiltTotals(scale, raws, inv);
    var lines := Parse(fa).value.items;
    ImportedSums(inv.items, lines);
    SmallGapPasses(Imported(inv.items, lines), inv.totals);
  }
}
