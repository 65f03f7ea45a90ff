/** Mapping an invoice to the FA(3) logical structure and parsing it back, on trees of tagged elements. The
    tags are the schema's element names; attributes, namespaces and the parties' blocks are not modelled. */
module Fa3 {
  import opened Prelude
  import opened Text
  import opened Decimals
  import opened Rounding
  import opened InvoiceTotals
  import Nip

  // ---- Documents ----

  datatype Tag =
    | Fa | KodWaluty | P1 | P1M | P2 | P6 | P13(field: nat) | P14(field: nat) | P14W(field: nat) | P15
    | KursWaluty | DataKursuWaluty | Adnotacje | RodzajFaktury | PrzyczynaKorekty | DaneFaKorygowanej
    | FaWiersz | NrWierszaFa | P7 | P8A | P8B | P9A | P11 | P12
    | Platnosc | TerminPlatnosci | Termin | DataPlatnosci | WarunkiPlatnosci | TerminyPlatnosci | FormaPlatnosci

  datatype Element = Element(tag: Tag, text: string, children: seq<Element>)

  function Leaf(tag: Tag, text: string): Element {
    Element(tag, text, [])
  }

  function Find(es: seq<Element>, tag: Tag): Option<Element> {
    if es == [] then None else if es[0].tag == tag then Some(es[0]) else Find(es[1..], tag)
  }

  function FindAll(es: seq<Element>, tag: Tag): seq<Element> {
    if es == [] then [] else (if es[0].tag == tag then [es[0]] else []) + FindAll(es[1..], tag)
  }

  /** An element and all below it, in document order. */
  function Iter(e: Element): seq<Element>
    decreases e
  {
    [e] + IterAll(e.children)
  }

  function IterAll(es: seq<Element>): seq<Element>
    decreases es
  {
    if es == [] then [] else Iter(es[0]) + IterAll(es[1..])
  }

  // ---- Invoices ----

  datatype Kind = VatInvoice | Kor | Zal | Roz | Upr | KorZal | KorRoz

  datatype PaymentMethod = CashPayment | Transfer

  datatype Date = Date(year: nat, month: nat, day: nat)

  /** `exchangeRate` is in millionths; `corrects` tells whether a corrected invoice is named. */
  datatype Invoice = Invoice(
    kind: Kind, number: Option<string>, currency: string, sellerNip: string,
    issueDate: Date, saleDate: Date, deliveryDate: Option<Date>, dueDate: Option<Date>, payBy: PaymentMethod,
    exchangeRate: Option<nat>, exchangeDate: Option<Date>, corrects: bool, reason: Option<string>,
    items: seq<Item>, totals: Totals)

  function KindText(k: Kind): string {
    match k
    case VatInvoice => "VAT"
    case Kor => "KOR"
    case Zal => "ZAL"
    case Roz => "ROZ"
    case Upr => "UPR"
    case KorZal => "KOR_ZAL"
    case KorRoz => "KOR_ROZ"
  }

  function MethodCode(m: PaymentMethod): string {
    if m == CashPayment then "1" else "6"
  }

  function Iso(d: Date): string {
    ZeroPad(Digits(d.year), 4) + "-" + ZeroPad(Digits(d.month), 2) + "-" + ZeroPad(Digits(d.day), 2)
  }

  predicate IsCorrection(k: Kind) {
    k == Kor || k == KorZal || k == KorRoz
  }

  // ---- Mapper ----

  datatype MapError = BadNip | NoItems | NothingCorrected | UnknownRate

  predicate IsLetter(c: char) {
    'a' <= c <= 'z' || 'A' <= c <= 'Z'
  }

  function NormalizeNip(nip: string): string {
    var s := Strip(nip);
    var bare := if |s| > 2 && IsLetter(s[0]) && IsLetter(s[1]) then s[2..] else s;
    Nip.Without(Nip.Without(bare, '-'), ' ')
  }

  function Invalid(inv: Invoice): Option<MapError> {
    if !Nip.InvoiceAccepts(NormalizeNip(inv.sellerNip)) then Some(BadNip)
    else if inv.items == [] then Some(NoItems)
    else if IsCorrection(inv.kind) && !inv.corrects then Some(NothingCorrected)
    else None
  }

  /** A percentage and the number of its P_13 and P_14 fields. */
  datatype VatField = VatField(percent: nat, field: nat)

  /** The rates with fields, in the order of their keys as text. */
  const TABLE: seq<VatField> := [VatField(0, 4), VatField(23, 1), VatField(5, 3), VatField(8, 2)]

  predicate KnownRate(scale: nat, rate: nat) {
    rate == 0 || rate == 5 * scale || rate == 8 * scale || rate == 23 * scale
  }

  predicate RatesKnown(scale: nat, items: seq<Item>) {
    forall k :: 0 <= k < |items| ==> KnownRate(scale, items[k].rate)
  }

  predicate Foreign(inv: Invoice) {
    inv.currency != "PLN"
  }

  /** The VAT in PLN of a taxed rate, when the invoice is foreign and a line of the rate carries it. */
  function PlnField(scale: nat, items: seq<Item>, foreign: bool, f: VatField): seq<Element> {
    var rate := f.percent * scale;
    if foreign && f.percent != 0 && HasPln(items, rate) then [Leaf(P14W(f.field), Fmt(Sum(PlnAt(rate), items)))] else []
  }

  function VatPair(scale: nat, items: seq<Item>, foreign: bool, f: VatField): seq<Element> {
    var rate := f.percent * scale;
    if HasRate(items, rate)
    then [Leaf(P13(f.field), Fmt(Sum(NetAt(rate), items))), Leaf(P14(f.field), Fmt(Sum(VatAt(rate), items)))]
         + PlnField(scale, items, foreign, f)
    else []
  }

  function VatElements(scale: nat, items: seq<Item>, foreign: bool, n: nat): seq<Element>
    requires n <= |TABLE|
  {
    if n == 0 then [] else VatElements(scale, items, foreign, n - 1) + VatPair(scale, items, foreign, TABLE[n - 1])
  }

  function RateText(scale: int, rate: nat): string
    requires scale > 0
  {
    if rate == 0 then "0 KR" else Digits(rate / scale)
  }

  function RowOf(scale: int, item: Item): Element
    requires scale > 0
  {
    Element(FaWiersz, "", [
      Leaf(NrWierszaFa, Digits(item.sortOrder)), Leaf(P7, item.name), Leaf(P8A, item.unit),
      Leaf(P8B, Fmt(100 * item.quantity)), Leaf(P9A, Fmt(HalfEven(100 * item.price, scale))),
      Leaf(P11, Fmt(item.net)), Leaf(P12, RateText(scale, item.rate))])
  }

  function RowsOf(scale: int, items: seq<Item>): (rows: seq<Element>)
    requires scale > 0
    ensures |rows| == |items|
  {
    if items == [] then [] else RowsOf(scale, items[..|items| - 1]) + [RowOf(scale, items[|items| - 1])]
  }

  function PaymentOf(inv: Invoice): Element {
    var term := if inv.dueDate.None? then []
                else [Element(TerminPlatnosci, "", [Leaf(Termin, Iso(inv.dueDate.value))])];
    Element(Platnosc, "", term + [Leaf(FormaPlatnosci, MethodCode(inv.payBy))])
  }

  /** The first fields: currency, date, number, and the delivery date when it is another day. */
  function OpeningOf(inv: Invoice): seq<Element> {
    var delivered := if inv.deliveryDate.Some? then inv.deliveryDate.value else inv.saleDate;
    [Leaf(KodWaluty, if inv.currency == "" then "PLN" else inv.currency), Leaf(P1, Iso(inv.issueDate)),
     Leaf(P2, if inv.number.Some? then inv.number.value else "")]
    + if delivered != inv.issueDate then [Leaf(P6, Iso(delivered))] else []
  }

  function ExchangeOf(inv: Invoice): seq<Element> {
    if !Foreign(inv) then []
    else
      (if inv.exchangeRate.Some? then [Leaf(KursWaluty, Fmt(HalfEven(inv.exchangeRate.value, 10000)))] else [])
      + if inv.exchangeDate.Some? then [Leaf(DataKursuWaluty, Iso(inv.exchangeDate.value))] else []
  }

  /** The contents of the annotations and of the corrected invoice's data are not modelled. */
  function CorrectionOf(inv: Invoice): seq<Element> {
    if !IsCorrection(inv.kind) then []
    else (if inv.reason.Some? && inv.reason.value != "" then [Leaf(PrzyczynaKorekty, inv.reason.value)] else [])
         + [Leaf(DaneFaKorygowanej, "")]
  }

  /** The fields between the VAT sums and the lines. */
  function MiddleOf(inv: Invoice): seq<Element> {
    [Leaf(P15, Fmt(inv.totals.gross))] + ExchangeOf(inv)
    + [Leaf(Adnotacje, ""), Leaf(RodzajFaktury, KindText(inv.kind))] + CorrectionOf(inv)
  }

  function ToXml(scale: int, inv: Invoice): Result<Element, MapError>
    requires scale > 0
  {
    if Invalid(inv).Some? then Err(Invalid(inv).value)
    else if !RatesKnown(scale, inv.items) then Err(UnknownRate)
    else Ok(Element(Fa, "",
                    OpeningOf(inv) + VatElements(scale, inv.items, Foreign(inv), |TABLE|) + MiddleOf(inv)
                    + RowsOf(scale, inv.items) + [PaymentOf(inv)]))
  }

  // ---- Parser ----

  datatype ParsedItem = ParsedItem(
    name: string, quantity: Dec, unit: string, price: Dec, rate: Dec, net: Dec, vat: int, gross: Dec, sortOrder: nat)

  datatype Parsed = Parsed(
    number: Option<string>, issueDate: string, saleDate: string, currency: string,
    net: Dec, vat: Dec, gross: Dec, kind: string, items: seq<ParsedItem>,
    dueDate: Option<string>, payBy: Option<PaymentMethod>)

  datatype ParseError = NoIssueDate

  function TextAt(es: seq<Element>, tag: Tag): string {
    var e := Find(es, tag);
    if e.None? then "" else Strip(e.value.text)
  }

  function DecAt(es: seq<Element>, tag: Tag, default: Dec): Dec {
    var d := ParseDec(TextAt(es, tag));
    if TextAt(es, tag) == "" || d.None? then default else d.value
  }

  function OrElse(text: string, other: string): string {
    if text == "" then other else text
  }

  const ZERO := Dec(0, 0)

  /** Line VAT in cents: `net * rate / 100` to two places, a tie to even. */
  function LineVat(net: Dec, rate: Dec): int {
    HalfEven(net.units * rate.units, Pow10(net.places + rate.places))
  }

  function ParseRow(row: Element, order: nat): ParsedItem {
    var rate := DecAt(row.children, P12, ZERO);
    var net := DecAt(row.children, P11, ZERO);
    var vat := LineVat(net, rate);
    ParsedItem(TextAt(row.children, P7), DecAt(row.children, P8B, Dec(1, 0)), OrElse(TextAt(row.children, P8A), "szt."),
               DecAt(row.children, P9A, ZERO), rate, net, vat, Plus(net, Dec(vat, 2)), order)
  }

  function ParseRows(rows: seq<Element>): (items: seq<ParsedItem>)
    ensures |items| == |rows|
  {
    if rows == [] then [] else ParseRows(rows[..|rows| - 1]) + [ParseRow(rows[|rows| - 1], |rows|)]
  }

  const P13_FIELDS: seq<nat> := [1, 2, 3, 4, 6, 7, 8, 9, 10, 11]
  const P14_FIELDS: seq<nat> := [1, 2, 3, 4, 5]

  function NetSum(es: seq<Element>, n: nat): Dec
    requires n <= |P13_FIELDS|
  {
    if n == 0 then ZERO else Plus(NetSum(es, n - 1), DecAt(es, P13(P13_FIELDS[n - 1]), ZERO))
  }

  function VatSum(es: seq<Element>, n: nat): Dec
    requires n <= |P14_FIELDS|
  {
    if n == 0 then ZERO else Plus(VatSum(es, n - 1), DecAt(es, P14(P14_FIELDS[n - 1]), ZERO))
  }

  function GrossSum(es: seq<Element>): Dec {
    var net, vat, gross := NetSum(es, |P13_FIELDS|), VatSum(es, |P14_FIELDS|), DecAt(es, P15, ZERO);
    if gross.units == 0 && net.units > 0 then Plus(net, vat) else gross
  }

  /** The first payment form with a known code. */
  function FirstMethod(es: seq<Element>): Option<PaymentMethod> {
    if es == [] then None
    else if es[0].tag == FormaPlatnosci && Strip(es[0].text) == "1" then Some(CashPayment)
    else if es[0].tag == FormaPlatnosci && Strip(es[0].text) == "6" then Some(Transfer)
    else FirstMethod(es[1..])
  }

  function FirstDate(es: seq<Element>): Option<string> {
    if es == [] then None
    else if (es[0].tag == Termin || es[0].tag == TerminPlatnosci || es[0].tag == DataPlatnosci)
        && Strip(es[0].text) != ""
    then Some(Strip(es[0].text))
    else FirstDate(es[1..])
  }

  function FirstTerm(es: seq<Element>): Option<string> {
    if es == [] then None
    else if (es[0].tag == Platnosc || es[0].tag == WarunkiPlatnosci || es[0].tag == TerminyPlatnosci)
        && FirstDate(Iter(es[0])).Some?
    then FirstDate(Iter(es[0]))
    else FirstTerm(es[1..])
  }

  function DueDate(fa: Element): Option<string> {
    var direct := OrElse(TextAt(fa.children, TerminPlatnosci), TextAt(fa.children, DataPlatnosci));
    if direct != "" then Some(direct) else FirstTerm(Iter(fa))
  }

  function Parse(fa: Element): Result<Parsed, ParseError> {
    var es := fa.children;
    var issued, number := TextAt(es, P1), TextAt(es, P2);
    if issued == "" then Err(NoIssueDate)
    else Ok(Parsed(if number == "" then None else Some(number), issued, OrElse(TextAt(es, P1M), issued),
                   OrElse(TextAt(es, KodWaluty), "PLN"),
                   NetSum(es, |P13_FIELDS|), VatSum(es, |P14_FIELDS|), GrossSum(es),
                   OrElse(TextAt(es, RodzajFaktury), "VAT"), ParseRows(FindAll(es, FaWiersz)), DueDate(fa),
                   FirstMethod(Iter(fa))))
  }
}
