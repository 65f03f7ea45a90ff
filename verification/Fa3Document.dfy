/** What a mapped document says, element by element, with the schema's own codes: which invoices are mapped, which
    fields appear and what they read, and their order. */
module Fa3Document {
  import opened Prelude
  import opened Text
  import opened Decimals
  import opened Rounding
  import opened InvoiceTotals
  import opened Fa3
  import opened Fa3Lookup
  import opened Fa3RoundTrip
  import Nip

  // ---- Codes ----

  predicate KindIs(k: Kind, text: string) {
    match k
    case VatInvoice => text == "VAT"
    case Kor => text == "KOR"
    case Zal => text == "ZAL"
    case Roz => text == "ROZ"
    case Upr => text == "UPR"
    case KorZal => text == "KOR_ZAL"
    case KorRoz => text == "KOR_ROZ"
  }

  /** The seven codes are different, and the one written names the kind. */
  lemma KindIsWritten(k: Kind)
    ensures forall j: Kind :: KindIs(j, KindText(k)) <==> j == k
  {
    assert "VAT"[0] == 'V' && "KOR"[0] == 'K' && "ZAL"[0] == 'Z' && "ROZ"[0] == 'R' && "UPR"[0] == 'U';
    assert |"KOR"| == 3 && |"KOR_ZAL"| == 7 && "KOR_ZAL"[4] == 'Z' && "KOR_ROZ"[4] == 'R';
  }

  predicate RateCodeIs(scale: int, rate: nat, text: string) {
    || (rate == 0 && text == "0 KR") || (rate == 5 * scale && text == "5")
    || (rate == 8 * scale && text == "8") || (rate == 23 * scale && text == "23")
  }

  lemma RateIsWritten(scale: int, rate: nat)
    requires scale > 0 && KnownRate(scale, rate)
    ensures RateCodeIs(scale, rate, RateText(scale, rate))
  {
    var k := if rate == 0 then 0 else if rate == 5 * scale then 5 else if rate == 8 * scale then 8 else 23;
    QuotientIs(rate, scale, k);
    assert Digits(23) == Digits(2) + [DigitChar(3)];
    assert DigitChar(2) == '2' && DigitChar(3) == '3' && DigitChar(5) == '5' && DigitChar(8) == '8';
  }

  // ---- Which invoices are mapped ----

  predicate LatinLetter(c: char) {
    65 <= c as int <= 90 || 97 <= c as int <= 122
  }

  function WithoutPrefix(s: string): string {
    if |s| >= 3 && LatinLetter(s[0]) && LatinLetter(s[1]) then s[2..] else s
  }

  /** A seller's NIP is read without white space around it, without two leading letters if more follows, and without
      hyphens and spaces. */
  lemma NipIsRead(nip: string)
    ensures NormalizeNip(nip) == Nip.Without(Nip.Without(WithoutPrefix(Strip(nip)), '-'), ' ')
  {
    LettersAre(Strip(nip));
  }

  lemma LettersAre(s: string)
    ensures forall i :: 0 <= i < |s| ==> (IsLetter(s[i]) <==> LatinLetter(s[i]))
  {
  }

  lemma KnownIs(scale: nat, items: seq<Item>)
    ensures RatesKnown(scale, items)
       <==> forall k :: 0 <= k < |items| ==> items[k].rate in {0, 5 * scale, 8 * scale, 23 * scale}
  {
  }

  /** Exactly the invoices whose seller has a valid NIP, that have a line, that name what they correct if they are a
      correction, and whose rates are 0, 5, 8 or 23 percent; the first of these that fails is reported. */
  lemma MappedIff(scale: int, inv: Invoice)
    requires scale > 0
    ensures var nip := Nip.InvoiceAccepts(NormalizeNip(inv.sellerNip));
            var names := inv.kind in {Kor, KorZal, KorRoz} ==> inv.corrects;
            var known := forall k :: 0 <= k < |inv.items| ==>
                           inv.items[k].rate in {0, 5 * scale, 8 * scale, 23 * scale};
            var r := ToXml(scale, inv);
            && (r.Ok? <==> nip && |inv.items| > 0 && names && known)
            && (!nip ==> r == Err(BadNip))
            && (nip && |inv.items| == 0 ==> r == Err(NoItems))
            && (nip && |inv.items| > 0 && !names ==> r == Err(NothingCorrected))
            && (nip && |inv.items| > 0 && names && !known ==> r == Err(UnknownRate))
            && (r.Ok? ==> r.value == Element(Fa, "", Children(scale, inv)))
  {
    KnownIs(scale, inv.items);
  }

  // ---- Single fields ----

  /** The document has the field exactly if there is a text for it, once, with that text and nothing below. */
  ghost predicate Says(es: seq<Element>, tag: Tag, text: Option<string>) {
    match text
    case None => Find(es, tag) == None
    case Some(t) => Find(es, tag) == Some(Element(tag, t, []))
  }

  lemma OpeningSays(scale: int, inv: Invoice)
    requires scale > 0
    ensures var es := Children(scale, inv);
            var day := match inv.deliveryDate case Some(d) => d case None => inv.saleDate;
            && Says(es, KodWaluty, Some(if |inv.currency| == 0 then "PLN" else inv.currency))
            && Says(es, P1, Some(Iso(inv.issueDate)))
            && Says(es, P2, Some(match inv.number case Some(n) => n case None => ""))
            && Says(es, P6, if day == inv.issueDate then None else Some(Iso(day)))
  {
    OpeningFinds(inv);
    FindInDocument(scale, inv, KodWaluty);
    FindInDocument(scale, inv, P1);
    FindInDocument(scale, inv, P2);
    FindInDocument(scale, inv, P6);
    DeliveryIsSaid(inv);
  }

  lemma DeliveryIsSaid(inv: Invoice)
    ensures var day := match inv.deliveryDate case Some(d) => d case None => inv.saleDate;
            Says(OpeningOf(inv), P6, if day == inv.issueDate then None else Some(Iso(day)))
  {
    var es := OpeningOf(inv);
    if |es| == 3 {
      FindNone(es, P6);
    } else {
      FindAt(es, 3);
    }
  }

  lemma FindBehind(head: seq<Element>, e: Element, rest: seq<Element>)
    requires Absent(head, e.tag)
    ensures Find(head + [e] + rest, e.tag) == Some(e)
  {
    FindAt(head + [e] + rest, |head|);
  }

  /** The exchange rate and its date, on a foreign invoice that has them. */
  lemma ExchangeSays(scale: int, inv: Invoice)
    requires scale > 0
    ensures var es := Children(scale, inv);
            && Says(es, KursWaluty, if inv.currency == "PLN" || inv.exchangeRate == None then None
                                    else Some(Fmt(HalfEven(inv.exchangeRate.value, 10000))))
            && Says(es, DataKursuWaluty, if inv.currency == "PLN" || inv.exchangeDate == None then None
                                         else Some(Iso(inv.exchangeDate.value)))
  {
    InMiddle(scale, inv, KursWaluty);
    InMiddle(scale, inv, DataKursuWaluty);
    RateIsSaid(inv);
    RateDateIsSaid(inv);
  }

  lemma MiddleHolds(o: seq<Element>, v: seq<Element>, m: seq<Element>, r: seq<Element>, p: seq<Element>, tag: Tag)
    requires Parts(o, v, m, r, p) && Absent(p, tag) && MiddleTag(tag)
    ensures Find(o + v + m + r + p, tag) == Find(m, tag)
  {
    FindBeforeRows(o + v + m, r, p, tag);
    FindInHead(o, v, m, tag);
  }

  lemma InMiddle(scale: int, inv: Invoice, tag: Tag)
    requires scale > 0 && MiddleTag(tag)
    ensures Find(Children(scale, inv), tag) == Find(MiddleOf(inv), tag)
  {
    DocumentParts(scale, inv);
    MiddleHolds(OpeningOf(inv), VatElements(scale, inv.items, Foreign(inv), |TABLE|), MiddleOf(inv),
                RowsOf(scale, inv.items), [PaymentOf(inv)], tag);
  }

  lemma RateIsSaid(inv: Invoice)
    ensures Says(MiddleOf(inv), KursWaluty, if inv.currency == "PLN" || inv.exchangeRate == None then None
                                            else Some(Fmt(HalfEven(inv.exchangeRate.value, 10000))))
  {
    var es := MiddleOf(inv);
    if inv.currency == "PLN" || inv.exchangeRate == None {
      FindNone(es, KursWaluty);
    } else {
      FindAt(es, 1);
    }
  }

  lemma RateDateIsSaid(inv: Invoice)
    ensures Says(MiddleOf(inv), DataKursuWaluty, if inv.currency == "PLN" || inv.exchangeDate == None then None
                                                 else Some(Iso(inv.exchangeDate.value)))
  {
    var es := MiddleOf(inv);
    if inv.currency == "PLN" || inv.exchangeDate == None {
      FindNone(es, DataKursuWaluty);
    } else {
      FindAt(es, if inv.exchangeRate == None then 1 else 2);
    }
  }

  /** The gross amount, the annotations, and the kind by its code. */
  lemma MiddleSays(scale: int, inv: Invoice)
    requires scale > 0
    ensures var es := Children(scale, inv);
            && Says(es, P15, Some(Fmt(inv.totals.gross)))
            && Find(es, Adnotacje).Some?
            && Find(es, RodzajFaktury).Some?
            && (forall k: Kind :: KindIs(k, Find(es, RodzajFaktury).value.text) <==> k == inv.kind)
  {
    MiddleFinds(inv);
    InMiddle(scale, inv, P15);
    InMiddle(scale, inv, RodzajFaktury);
    InMiddle(scale, inv, Adnotacje);
    KindIsWritten(inv.kind);
    AnnotationsAreSaid(inv);
  }

  lemma AnnotationsAreSaid(inv: Invoice)
    ensures Find(MiddleOf(inv), Adnotacje).Some?
  {
    FindAt(MiddleOf(inv), 1 + |ExchangeOf(inv)|);
  }

  predicate Corrects(k: Kind) {
    match k
    case Kor => true
    case KorZal => true
    case KorRoz => true
    case _ => false
  }

  /** The data of the corrected invoice, on corrections only, and the reason if it is not blank. */
  lemma CorrectionSays(scale: int, inv: Invoice)
    requires scale > 0
    ensures var es := Children(scale, inv);
            && (Find(es, DaneFaKorygowanej).Some? <==> Corrects(inv.kind))
            && Says(es, PrzyczynaKorekty, if !Corrects(inv.kind) then None
                                          else match inv.reason
                                               case None => None
                                               case Some(text) => if |text| == 0 then None else Some(text))
  {
    InMiddle(scale, inv, DaneFaKorygowanej);
    InMiddle(scale, inv, PrzyczynaKorekty);
    ReasonIsSaid(inv);
    CorrectedIsSaid(inv);
  }

  /** Neither is before the correction's own elements. */
  lemma NothingCorrectedBefore(inv: Invoice, tag: Tag)
    requires tag == PrzyczynaKorekty || tag == DaneFaKorygowanej
    ensures Find(MiddleOf(inv), tag) == Find(CorrectionOf(inv), tag)
  {
    var front := [Leaf(P15, Fmt(inv.totals.gross))] + ExchangeOf(inv)
                 + [Leaf(Adnotacje, ""), Leaf(RodzajFaktury, KindText(inv.kind))];
    FindNone(front, tag);
    SkipHead(front, CorrectionOf(inv), tag);
  }

  lemma ReasonIsSaid(inv: Invoice)
    ensures Says(MiddleOf(inv), PrzyczynaKorekty, if !Corrects(inv.kind) then None
                                                  else match inv.reason
                                                       case None => None
                                                       case Some(text) => if |text| == 0 then None else Some(text))
  {
    var es := CorrectionOf(inv);
    NothingCorrectedBefore(inv, PrzyczynaKorekty);
    if |es| == 2 {
      FindAt(es, 0);
    } else {
      FindNone(es, PrzyczynaKorekty);
    }
  }

  lemma CorrectedIsSaid(inv: Invoice)
    ensures Find(MiddleOf(inv), DaneFaKorygowanej).Some? <==> Corrects(inv.kind)
  {
    var es := CorrectionOf(inv);
    NothingCorrectedBefore(inv, DaneFaKorygowanej);
    if es == [] {
      FindNone(es, DaneFaKorygowanej);
    } else {
      FindAt(es, |es| - 1);
    }
  }

  // ---- Rows ----

  /** The seven fields of a row, in order. */
  ghost predicate RowSays(scale: int, item: Item, row: Element)
    requires scale > 0
  {
    && row.tag == FaWiersz && row.text == "" && |row.children| == 7
    && row.children[0] == Element(NrWierszaFa, Digits(item.sortOrder), [])
    && row.children[1] == Element(P7, item.name, [])
    && row.children[2] == Element(P8A, item.unit, [])
    && row.children[3] == Element(P8B, Fmt(100 * item.quantity), [])
    && row.children[4] == Element(P9A, Fmt(HalfEven(100 * item.price, scale)), [])
    && row.children[5] == Element(P11, Fmt(item.net), [])
    && row.children[6].tag == P12 && row.children[6].children == []
    && RateCodeIs(scale, item.rate, row.children[6].text)
  }

  /** One row a line, in the order of the lines, each with its number, name, unit, quantity, price to the nearest cent,
      net and the code of its rate. */
  lemma RowsSay(scale: int, inv: Invoice)
    requires scale > 0 && RatesKnown(scale, inv.items)
    ensures var rows := FindAll(Children(scale, inv), FaWiersz);
            |rows| == |inv.items| && forall k :: 0 <= k < |rows| ==> RowSays(scale, inv.items[k], rows[k])
  {
    RowsAreFound(scale, inv);
    RowsAt(scale, inv.items);
    forall k | 0 <= k < |inv.items| ensures RowSays(scale, inv.items[k], RowOf(scale, inv.items[k])) {
      RowSaysItsLine(scale, inv.items[k]);
    }
  }

  lemma RowSaysItsLine(scale: int, item: Item)
    requires scale > 0 && KnownRate(scale, item.rate)
    ensures RowSays(scale, item, RowOf(scale, item))
  {
    RateIsWritten(scale, item.rate);
  }

  // ---- VAT sums ----

  /** A rate in percent and the number of its fields. */
  predicate IsFieldOf(field: nat, percent: nat) {
    || (field == 1 && percent == 23) || (field == 2 && percent == 8)
    || (field == 3 && percent == 5) || (field == 4 && percent == 0)
  }

  /** The rate at a place of the table, and its place. */
  lemma PlaceOf(field: nat, percent: nat) returns (j: nat)
    requires IsFieldOf(field, percent)
    ensures j < |TABLE| && TABLE[j] == VatField(percent, field)
  {
    j := if field == 4 then 0 else if field == 1 then 1 else if field == 3 then 2 else 3;
  }

  lemma PairSays(scale: nat, items: seq<Item>, foreign: bool, f: VatField)
    ensures var pair := VatPair(scale, items, foreign, f); var rate := f.percent * scale;
            && Says(pair, P13(f.field), if HasRate(items, rate) then Some(Fmt(Sum(NetAt(rate), items))) else None)
            && Says(pair, P14(f.field), if HasRate(items, rate) then Some(Fmt(Sum(VatAt(rate), items))) else None)
            && Says(pair, P14W(f.field),
                    if HasRate(items, rate) && foreign && f.percent > 0 && HasPln(items, rate)
                    then Some(Fmt(Sum(PlnAt(rate), items))) else None)
  {
    var rate := f.percent * scale;
    if HasRate(items, rate) {
      var net := Leaf(P13(f.field), Fmt(Sum(NetAt(rate), items)));
      var vat := Leaf(P14(f.field), Fmt(Sum(VatAt(rate), items)));
      TwoThenRest(net, vat, PlnField(scale, items, foreign, f), P14W(f.field));
    }
  }

  lemma TwoThenRest(a: Element, b: Element, rest: seq<Element>, tag: Tag)
    requires a.tag != b.tag && a.tag != tag && b.tag != tag
    ensures var es := [a, b] + rest;
            Find(es, a.tag) == Some(a) && Find(es, b.tag) == Some(b) && Find(es, tag) == Find(rest, tag)
  {
    FindAt([a, b] + rest, 0);
    FindAt([a, b] + rest, 1);
    FindNone([a, b], tag);
    SkipHead([a, b], rest, tag);
  }

  lemma {:induction false} OtherPlnAbsent(scale: nat, items: seq<Item>, foreign: bool, n: nat, field: nat)
    requires n <= |TABLE| && forall i :: 0 <= i < n ==> field != TABLE[i].field
    ensures Find(VatElements(scale, items, foreign, n), P14W(field)) == None
  {
    if n > 0 {
      OtherPlnAbsent(scale, items, foreign, n - 1, field);
      PairHas(scale, items, foreign, TABLE[n - 1], P14W(field));
      SkipTail(VatElements(scale, items, foreign, n - 1), VatPair(scale, items, foreign, TABLE[n - 1]), P14W(field));
    }
  }

  lemma {:induction false} PlnInTable(scale: nat, items: seq<Item>, foreign: bool, n: nat, j: nat)
    requires j < n <= |TABLE|
    ensures Find(VatElements(scale, items, foreign, n), P14W(TABLE[j].field))
            == Find(VatPair(scale, items, foreign, TABLE[j]), P14W(TABLE[j].field))
  {
    TableIsByField(j);
    var init, pair := VatElements(scale, items, foreign, n - 1), VatPair(scale, items, foreign, TABLE[n - 1]);
    if j == n - 1 {
      OtherPlnAbsent(scale, items, foreign, n - 1, TABLE[j].field);
      SkipHead(init, pair, P14W(TABLE[j].field));
    } else {
      PlnInTable(scale, items, foreign, n - 1, j);
      PairHas(scale, items, foreign, TABLE[n - 1], P14W(TABLE[j].field));
      SkipTail(init, pair, P14W(TABLE[j].field));
    }
  }

  /** The net and VAT fields of a rate in the document are those of its place in the table. */
  lemma PairInDocument(scale: int, inv: Invoice, j: nat)
    requires scale > 0 && j < |TABLE|
    ensures var es, pair := Children(scale, inv), VatPair(scale, inv.items, Foreign(inv), TABLE[j]);
            && Find(es, P13(TABLE[j].field)) == Find(pair, P13(TABLE[j].field))
            && Find(es, P14(TABLE[j].field)) == Find(pair, P14(TABLE[j].field))
  {
    FindInDocument(scale, inv, P13(TABLE[j].field));
    FindInDocument(scale, inv, P14(TABLE[j].field));
    FieldInTable(scale, inv.items, Foreign(inv), |TABLE|, j, P13(TABLE[j].field));
    FieldInTable(scale, inv.items, Foreign(inv), |TABLE|, j, P14(TABLE[j].field));
  }

  lemma PlnInDocument(scale: int, inv: Invoice, j: nat)
    requires scale > 0 && j < |TABLE|
    ensures Find(Children(scale, inv), P14W(TABLE[j].field))
            == Find(VatPair(scale, inv.items, Foreign(inv), TABLE[j]), P14W(TABLE[j].field))
  {
    FindInDocument(scale, inv, P14W(TABLE[j].field));
    PlnInTable(scale, inv.items, Foreign(inv), |TABLE|, j);
  }

  /** Each rate's net and VAT, exactly if a line has the rate; and its VAT in PLN, exactly if the invoice is not in PLN,
      the rate is not zero and a line of it carries one. */
  lemma VatFieldsSay(scale: int, inv: Invoice, field: nat, percent: nat)
    requires scale > 0 && IsFieldOf(field, percent)
    ensures var es, rate := Children(scale, inv), percent * scale;
            && Says(es, P13(field), if HasRate(inv.items, rate) then Some(Fmt(Sum(NetAt(rate), inv.items))) else None)
            && Says(es, P14(field), if HasRate(inv.items, rate) then Some(Fmt(Sum(VatAt(rate), inv.items))) else None)
            && Says(es, P14W(field),
                    if HasRate(inv.items, rate) && inv.currency != "PLN" && percent > 0 && HasPln(inv.items, rate)
                    then Some(Fmt(Sum(PlnAt(rate), inv.items))) else None)
  {
    var j := PlaceOf(field, percent);
    PairSays(scale, inv.items, Foreign(inv), TABLE[j]);
    PairInDocument(scale, inv, j);
    PlnInDocument(scale, inv, j);
  }

  // ---- Order ----

  /** The place of an element in the document; VAT fields go by their rate written as text: 0, 23, 5, 8. */
  function Rank(tag: Tag): nat {
    match tag
    case KodWaluty => 0
    case P1 => 1
    case P2 => 2
    case P6 => 3
    case P13(f) => VatRank(f)
    case P14(f) => VatRank(f) + 1
    case P14W(f) => VatRank(f) + 2
    case P15 => 30
    case KursWaluty => 31
    case DataKursuWaluty => 32
    case Adnotacje => 33
    case RodzajFaktury => 34
    case PrzyczynaKorekty => 35
    case DaneFaKorygowanej => 36
    case FaWiersz => 37
    case Platnosc => 38
    case _ => 39
  }

  function VatRank(field: nat): nat {
    if field == 4 then 10 else if field == 1 then 13 else if field == 3 then 16 else 19
  }

  /** Ranks within bounds that go up from each element to every later one, except from row to row. */
  ghost predicate Ordered(es: seq<Element>, low: nat, high: nat) {
    && (forall k :: 0 <= k < |es| ==> low <= Rank(es[k].tag) < high)
    && (forall j, k :: 0 <= j < k < |es| ==> Rank(es[j].tag) < Rank(es[k].tag) || es[j].tag == es[k].tag == FaWiersz)
  }

  lemma Joined(a: seq<Element>, b: seq<Element>, low: nat, mid: nat, high: nat)
    requires Ordered(a, low, mid) && Ordered(b, mid, high) && low <= mid <= high
    ensures Ordered(a + b, low, high)
  {
    forall j, k | 0 <= j < |a| <= k < |a + b| ensures Rank((a + b)[j].tag) < Rank((a + b)[k].tag) {
      assert (a + b)[j] == a[j] && (a + b)[k] == b[k - |a|];
    }
  }

  lemma Wider(es: seq<Element>, low: nat, high: nat, lower: nat, higher: nat)
    requires Ordered(es, low, high) && lower <= low && high <= higher
    ensures Ordered(es, lower, higher)
  {
  }

  lemma {:induction false} VatInOrder(scale: nat, items: seq<Item>, foreign: bool, n: nat)
    requires n <= |TABLE|
    ensures Ordered(VatElements(scale, items, foreign, n), 10, 10 + 3 * n)
  {
    if n > 0 {
      VatInOrder(scale, items, foreign, n - 1);
      PlaceRank(n - 1);
      PairInOrder(scale, items, foreign, TABLE[n - 1]);
      Joined(VatElements(scale, items, foreign, n - 1), VatPair(scale, items, foreign, TABLE[n - 1]),
             10, 7 + 3 * n, 10 + 3 * n);
    }
  }

  lemma PlaceRank(j: nat)
    requires j < |TABLE|
    ensures VatRank(TABLE[j].field) == 10 + 3 * j
  {
  }

  lemma OneInOrder(e: Element)
    ensures Ordered([e], Rank(e.tag), Rank(e.tag) + 1)
  {
  }

  /** An element that may be missing. */
  lemma SlotInOrder(es: seq<Element>, tag: Tag)
    requires |es| <= 1 && forall k :: 0 <= k < |es| ==> es[k].tag == tag
    ensures Ordered(es, Rank(tag), Rank(tag) + 1)
  {
  }

  /** Two elements that may be missing. */
  lemma SlotsInOrder(es: seq<Element>, n: nat, first: Tag, second: Tag)
    requires n <= 1 && n <= |es| <= n + 1 && Rank(first) < Rank(second)
    requires (n == 1 ==> es[0].tag == first) && (|es| > n ==> es[n].tag == second)
    ensures Ordered(es, Rank(first), Rank(second) + 1)
  {
    if |es| == 2 {
      TwoInOrder(es[0], es[1]);
      assert es == [es[0], es[1]];
    } else if |es| == 1 {
      SlotInOrder(es, es[0].tag);
    }
  }

  lemma TwoInOrder(a: Element, b: Element)
    requires Rank(a.tag) < Rank(b.tag)
    ensures Ordered([a, b], Rank(a.tag), Rank(b.tag) + 1)
  {
  }

  lemma PairInOrder(scale: nat, items: seq<Item>, foreign: bool, f: VatField)
    ensures Ordered(VatPair(scale, items, foreign, f), VatRank(f.field), VatRank(f.field) + 3)
  {
    var rate := f.percent * scale;
    if HasRate(items, rate) {
      var net := Leaf(P13(f.field), Fmt(Sum(NetAt(rate), items)));
      var vat := Leaf(P14(f.field), Fmt(Sum(VatAt(rate), items)));
      TwoInOrder(net, vat);
      PlnInOrder(scale, items, foreign, f);
      Joined([net, vat], PlnField(scale, items, foreign, f),
             VatRank(f.field), VatRank(f.field) + 2, VatRank(f.field) + 3);
    }
  }

  lemma PlnInOrder(scale: nat, items: seq<Item>, foreign: bool, f: VatField)
    ensures Ordered(PlnField(scale, items, foreign, f), VatRank(f.field) + 2, VatRank(f.field) + 3)
  {
  }

  lemma OpeningInOrder(inv: Invoice)
    ensures Ordered(OpeningOf(inv), 0, 10)
  {
    var es := OpeningOf(inv);
    assert es == [es[0], es[1]] + [es[2]] + es[3..];
    TwoInOrder(es[0], es[1]);
    OneInOrder(es[2]);
    SlotInOrder(es[3..], P6);
    Joined([es[0], es[1]], [es[2]], 0, 2, 3);
    Joined([es[0], es[1]] + [es[2]], es[3..], 0, 3, 4);
    Wider(es, 0, 4, 0, 10);
  }

  lemma ExchangeInOrder(inv: Invoice)
    ensures Ordered(ExchangeOf(inv), 31, 33)
  {
    SlotsInOrder(ExchangeOf(inv), if Foreign(inv) && inv.exchangeRate.Some? then 1 else 0, KursWaluty, DataKursuWaluty);
  }

  lemma CorrectionInOrder(inv: Invoice)
    ensures Ordered(CorrectionOf(inv), 35, 37)
  {
    var n := |CorrectionOf(inv)|;
    SlotsInOrder(CorrectionOf(inv), if n == 0 then 0 else n - 1, PrzyczynaKorekty, DaneFaKorygowanej);
  }

  lemma KindInOrder(inv: Invoice)
    ensures Ordered([Leaf(Adnotacje, ""), Leaf(RodzajFaktury, KindText(inv.kind))], 33, 35)
  {
  }

  lemma GrossInOrder(inv: Invoice)
    ensures Ordered([Leaf(P15, Fmt(inv.totals.gross))] + ExchangeOf(inv), 30, 33)
  {
    ExchangeInOrder(inv);
    Joined([Leaf(P15, Fmt(inv.totals.gross))], ExchangeOf(inv), 30, 31, 33);
  }

  lemma MiddleInOrder(inv: Invoice)
    ensures Ordered(MiddleOf(inv), 30, 37)
  {
    var gross := [Leaf(P15, Fmt(inv.totals.gross))] + ExchangeOf(inv);
    var kind := [Leaf(Adnotacje, ""), Leaf(RodzajFaktury, KindText(inv.kind))];
    GrossInOrder(inv);
    KindInOrder(inv);
    Joined(gross, kind, 30, 33, 35);
    CorrectionInOrder(inv);
    Joined(gross + kind, CorrectionOf(inv), 30, 35, 37);
  }

  lemma EveryRowInOrder(es: seq<Element>)
    requires forall k :: 0 <= k < |es| ==> es[k].tag == FaWiersz
    ensures Ordered(es, 37, 38)
  {
  }

  lemma RowsInOrder(scale: int, items: seq<Item>)
    requires scale > 0
    ensures Ordered(RowsOf(scale, items), 37, 38)
  {
    RowsAreRows(scale, items);
    EveryRowInOrder(RowsOf(scale, items));
  }

  lemma FiveInOrder(o: seq<Element>, v: seq<Element>, m: seq<Element>, r: seq<Element>, p: seq<Element>)
    requires Ordered(o, 0, 10) && Ordered(v, 10, 22) && Ordered(m, 22, 37) && Ordered(r, 37, 38) && Ordered(p, 38, 39)
    ensures Ordered(o + v + m + r + p, 0, 39)
  {
    Joined(o, v, 0, 10, 22);
    Joined(o + v, m, 0, 22, 37);
    Joined(o + v + m, r, 0, 37, 38);
    Joined(o + v + m + r, p, 0, 38, 39);
  }

  lemma PaymentInOrder(inv: Invoice)
    ensures Ordered([PaymentOf(inv)], 38, 39)
  {
    OneInOrder(PaymentOf(inv));
  }

  lemma MiddleBehindVat(inv: Invoice)
    ensures Ordered(MiddleOf(inv), 22, 37)
  {
    MiddleInOrder(inv);
    Wider(MiddleOf(inv), 30, 37, 22, 37);
  }

  lemma AllVatInOrder(scale: nat, items: seq<Item>, foreign: bool)
    ensures Ordered(VatElements(scale, items, foreign, |TABLE|), 10, 22)
  {
    VatInOrder(scale, items, foreign, |TABLE|);
  }

  /** The elements come in this order, and so nothing but rows comes twice. */
  lemma DocumentInOrder(scale: int, inv: Invoice)
    requires scale > 0
    ensures Ordered(Children(scale, inv), 0, 39)
  {
    OpeningInOrder(inv);
    AllVatInOrder(scale, inv.items, Foreign(inv));
    MiddleBehindVat(inv);
    RowsInOrder(scale, inv.items);
    PaymentInOrder(inv);
    FiveInOrder(OpeningOf(inv), VatElements(scale, inv.items, Foreign(inv), |TABLE|), MiddleOf(inv),
                RowsOf(scale, inv.items), [PaymentOf(inv)]);
  }

  // ---- Payment ----

  /** The payment block: the due date if there is one, then the form, 1 for cash and 6 for a transfer. */
  lemma PaymentSays(scale: int, inv: Invoice)
    requires scale > 0
    ensures var es := Children(scale, inv);
            var term := match inv.dueDate
                        case None => []
                        case Some(d) => [Element(TerminPlatnosci, "", [Element(Termin, Iso(d), [])])];
            var form := match inv.payBy case CashPayment => "1" case Transfer => "6";
            && |es| > 0
            && es[|es| - 1] == Element(Platnosc, "", term + [Element(FormaPlatnosci, form, [])])
  {
  }
}
