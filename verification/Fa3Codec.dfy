/** The mapper and the parser as they run: elements appended field by field, dictionaries of sums, and loops
    over lines. */
module Fa3Codec {
  import opened Prelude
  import opened Decimals
  import opened Rounding
  import opened InvoiceTotals
  import opened Text
  import opened Fa3

  // ---- Mapper ----

  /** A pair of fields per rate present, in the order of the rates' text keys, and on a foreign invoice the VAT in
      PLN of a taxed rate that carries one. */
  method BuildVatTotals(scale: int, items: seq<Item>, totals: Totals, foreign: bool)
    returns (r: Result<seq<Element>, MapError>)
    requires scale > 0
    ensures r == if items == [] then Ok([Leaf(P13(1), Fmt(totals.net)), Leaf(P14(1), Fmt(totals.vat))])
                 else if RatesKnown(scale, items) then Ok(VatElements(scale, items, foreign, |TABLE|))
                 else Err(UnknownRate)
  {
    var net, vat, pln := AggregateVatTotals(items);
    NoRates(items, net, vat);
    if net == map[] {
      return Ok([Leaf(P13(1), Fmt(totals.net)), Leaf(P14(1), Fmt(totals.vat))]);
    }
    UnknownRatesShow(scale, items, net, vat);
    if exists rate :: rate in net && !KnownRate(scale, rate) {
      return Err(UnknownRate);
    }
    var fields := BuildVatFields(scale, items, foreign, net, vat, pln);
    return Ok(fields);
  }

  lemma NoRates(items: seq<Item>, net: map<nat, int>, vat: map<nat, int>)
    requires AreAggregates(net, vat, items)
    ensures net == map[] <==> items == []
  {
    if items != [] {
      assert HasRate(items, items[0].rate);
    }
    assert net != map[] ==> exists rate :: rate in net;
  }

  method BuildVatFields(scale: int, items: seq<Item>, foreign: bool, net: map<nat, int>, vat: map<nat, int>,
                        pln: map<nat, int>)
    returns (fields: seq<Element>)
    requires scale > 0 && AreAggregates(net, vat, items) && ArePln(pln, items)
    ensures fields == VatElements(scale, items, foreign, |TABLE|)
  {
    fields := [];
    for j := 0 to |TABLE|
      invariant fields == VatElements(scale, items, foreign, j)
    {
      var field := BuildVatPair(scale, items, foreign, TABLE[j], net, vat, pln);
      fields := fields + field;
    }
  }

  method BuildVatPair(scale: int, items: seq<Item>, foreign: bool, f: VatField, net: map<nat, int>, vat: map<nat, int>,
                      pln: map<nat, int>)
    returns (fields: seq<Element>)
    requires scale > 0 && AreAggregates(net, vat, items) && ArePln(pln, items)
    ensures fields == VatPair(scale, items, foreign, f)
  {
    var rate := f.percent * scale;
    fields := [];
    if rate in net {
      fields := [Leaf(P13(f.field), Fmt(net[rate])), Leaf(P14(f.field), Fmt(vat[rate]))];
      if foreign && f.percent != 0 && rate in pln {
        fields := fields + [Leaf(P14W(f.field), Fmt(pln[rate]))];
      }
    }
  }

  lemma UnknownRatesShow(scale: nat, items: seq<Item>, net: map<nat, int>, vat: map<nat, int>)
    requires AreAggregates(net, vat, items)
    ensures RatesKnown(scale, items) <==> !exists rate :: rate in net && !KnownRate(scale, rate)
  {
    if !RatesKnown(scale, items) {
      var k :| 0 <= k < |items| && !KnownRate(scale, items[k].rate);
      assert HasRate(items, items[k].rate);
      assert items[k].rate in net;
    }
  }

  method BuildPlatnosc(inv: Invoice) returns (platnosc: Element)
    ensures platnosc == PaymentOf(inv)
  {
    var fields: seq<Element> := [];
    if inv.dueDate.Some? {
      var termin := Element(TerminPlatnosci, "", [Leaf(Termin, Iso(inv.dueDate.value))]);
      fields := fields + [termin];
    }
    fields := fields + [Leaf(FormaPlatnosci, MethodCode(inv.payBy))];
    platnosc := Element(Platnosc, "", fields);
  }

  method InvoiceToXml(scale: int, inv: Invoice) returns (r: Result<Element, MapError>)
    requires scale > 0
    ensures r == ToXml(scale, inv)
  {
    if Invalid(inv).Some? {
      return Err(Invalid(inv).value);
    }
    var fa := AppendOpening(inv);
    var sums := BuildVatTotals(scale, inv.items, inv.totals, Foreign(inv));
    if sums.Err? {
      return Err(sums.error);
    }
    fa := fa + sums.value;
    var middle := AppendMiddle(inv);
    var rows := AppendRows(scale, inv.items);
    var platnosc := BuildPlatnosc(inv);
    return Ok(Element(Fa, "", fa + middle + rows + [platnosc]));
  }

  method AppendOpening(inv: Invoice) returns (fields: seq<Element>)
    ensures fields == OpeningOf(inv)
  {
    fields := [Leaf(KodWaluty, if inv.currency != "" then inv.currency else "PLN")];
    fields := fields + [Leaf(P1, Iso(inv.issueDate))];
    fields := fields + [Leaf(P2, if inv.number.Some? then inv.number.value else "")];
    var delivered := if inv.deliveryDate.Some? then inv.deliveryDate.value else inv.saleDate;
    if delivered != inv.issueDate {
      fields := fields + [Leaf(P6, Iso(delivered))];
    }
  }

  method AppendMiddle(inv: Invoice) returns (fields: seq<Element>)
    ensures fields == MiddleOf(inv)
  {
    fields := [Leaf(P15, Fmt(inv.totals.gross))];
    var exchange: seq<Element> := [];
    if inv.currency != "PLN" {
      if inv.exchangeRate.Some? {
        exchange := exchange + [Leaf(KursWaluty, Fmt(HalfEven(inv.exchangeRate.value, 10000)))];
      }
      if inv.exchangeDate.Some? {
        exchange := exchange + [Leaf(DataKursuWaluty, Iso(inv.exchangeDate.value))];
      }
    }
    fields := fields + exchange + [Leaf(Adnotacje, ""), Leaf(RodzajFaktury, KindText(inv.kind))];
    var correction: seq<Element> := [];
    if IsCorrection(inv.kind) {
      if inv.reason.Some? && inv.reason.value != "" {
        correction := correction + [Leaf(PrzyczynaKorekty, inv.reason.value)];
      }
      correction := correction + [Leaf(DaneFaKorygowanej, "")];
    }
    fields := fields + correction;
  }

  method AppendRow(scale: int, item: Item) returns (row: Element)
    requires scale > 0
    ensures row == RowOf(scale, item)
  {
    var fields := [Leaf(NrWierszaFa, Digits(item.sortOrder))];
    fields := fields + [Leaf(P7, item.name)];
    fields := fields + [Leaf(P8A, item.unit)];
    fields := fields + [Leaf(P8B, Fmt(100 * item.quantity))];
    fields := fields + [Leaf(P9A, Fmt(HalfEven(100 * item.price, scale)))];
    fields := fields + [Leaf(P11, Fmt(item.net))];
    fields := fields + [Leaf(P12, RateText(scale, item.rate))];
    row := Element(FaWiersz, "", fields);
  }

  method AppendRows(scale: int, items: seq<Item>) returns (rows: seq<Element>)
    requires scale > 0
    ensures rows == RowsOf(scale, items)
  {
    rows := [];
    for k := 0 to |items|
      invariant rows == RowsOf(scale, items[..k])
    {
      var row := AppendRow(scale, items[k]);
      assert items[..k + 1][..k] == items[..k];
      rows := rows + [row];
    }
    assert items[..|items|] == items;
  }

  // ---- Parser ----

  method ParseItems(fa: Element) returns (items: seq<ParsedItem>)
    ensures items == ParseRows(FindAll(fa.children, FaWiersz))
  {
    var rows := FindAll(fa.children, FaWiersz);
    items := [];
    for k := 0 to |rows|
      invariant items == ParseRows(rows[..k])
    {
      assert rows[..k + 1][..k] == rows[..k];
      items := items + [ParseRow(rows[k], k + 1)];
    }
    assert rows[..|rows|] == rows;
  }

  method SumNets(es: seq<Element>) returns (net: Dec)
    ensures net == NetSum(es, |P13_FIELDS|)
  {
    net := ZERO;
    for j := 0 to |P13_FIELDS|
      invariant net == NetSum(es, j)
    {
      net := Plus(net, DecAt(es, P13(P13_FIELDS[j]), ZERO));
    }
  }

  method SumVats(es: seq<Element>) returns (vat: Dec)
    ensures vat == VatSum(es, |P14_FIELDS|)
  {
    vat := ZERO;
    for j := 0 to |P14_FIELDS|
      invariant vat == VatSum(es, j)
    {
      vat := Plus(vat, DecAt(es, P14(P14_FIELDS[j]), ZERO));
    }
  }

  method ExtractTotals(fa: Element) returns (net: Dec, vat: Dec, gross: Dec)
    ensures net == NetSum(fa.children, |P13_FIELDS|) && vat == VatSum(fa.children, |P14_FIELDS|)
            && gross == GrossSum(fa.children)
  {
    net := SumNets(fa.children);
    vat := SumVats(fa.children);
    gross := DecAt(fa.children, P15, ZERO);
    if gross.units == 0 && net.units > 0 {
      gross := Plus(net, vat);
    }
  }

  /** The walk stops at the first payment form with a known code. */
  method ExtractPaymentMethod(fa: Element) returns (found: Option<PaymentMethod>)
    ensures found == FirstMethod(Iter(fa))
  {
    var walk := Iter(fa);
    for k := 0 to |walk|
      invariant FirstMethod(walk) == FirstMethod(walk[k..])
    {
      assert walk[k..][0] == walk[k] && walk[k..][1..] == walk[k + 1..];
      if walk[k].tag == FormaPlatnosci {
        var code := Strip(walk[k].text);
        if code == "1" {
          return Some(CashPayment);
        }
        if code == "6" {
          return Some(Transfer);
        }
      }
    }
    return None;
  }
}
