/** Looking elements up in the documents the mapper builds. */
module Fa3Lookup {
  import opened Prelude
  import opened Decimals
  import opened InvoiceTotals
  import opened Fa3

  // ---- Lists of elements ----

  ghost predicate Absent(es: seq<Element>, tag: Tag) {
    forall k :: 0 <= k < |es| ==> es[k].tag != tag
  }

  lemma {:induction false} FindAppend(a: seq<Element>, b: seq<Element>, tag: Tag)
    ensures Find(a + b, tag) == if Find(a, tag).Some? then Find(a, tag) else Find(b, tag)
  {
    if a == [] {
      assert a + b == b;
    } else {
      assert (a + b)[1..] == a[1..] + b;
      FindAppend(a[1..], b, tag);
    }
  }

  lemma {:induction false} FindNone(es: seq<Element>, tag: Tag)
    requires Absent(es, tag)
    ensures Find(es, tag) == None
  {
    if es != [] {
      FindNone(es[1..], tag);
    }
  }

  lemma {:induction false} FindAt(es: seq<Element>, k: nat)
    requires k < |es| && Absent(es[..k], es[k].tag)
    ensures Find(es, es[k].tag) == Some(es[k])
  {
    if k > 0 {
      assert es[..k][0] == es[0];
      assert es[1..][..k - 1] == es[..k][1..];
      FindAt(es[1..], k - 1);
    }
  }

  lemma {:induction false} FindAllAppend(a: seq<Element>, b: seq<Element>, tag: Tag)
    ensures FindAll(a + b, tag) == FindAll(a, tag) + FindAll(b, tag)
  {
    if a == [] {
      assert a + b == b;
    } else {
      assert (a + b)[1..] == a[1..] + b;
      FindAllAppend(a[1..], b, tag);
    }
  }

  lemma {:induction false} FindAllNone(es: seq<Element>, tag: Tag)
    requires Absent(es, tag)
    ensures FindAll(es, tag) == []
  {
    if es != [] {
      FindAllNone(es[1..], tag);
    }
  }

  lemma {:induction false} FindAllEvery(es: seq<Element>, tag: Tag)
    requires forall k :: 0 <= k < |es| ==> es[k].tag == tag
    ensures FindAll(es, tag) == es
  {
    if es != [] {
      FindAllEvery(es[1..], tag);
    }
  }

  lemma {:induction false} IterAppend(a: seq<Element>, b: seq<Element>)
    ensures IterAll(a + b) == IterAll(a) + IterAll(b)
  {
    if a == [] {
      assert a + b == b;
    } else {
      assert (a + b)[1..] == a[1..] + b;
      IterAppend(a[1..], b);
    }
  }

  // ---- The parts of a document ----

  ghost predicate IsVatField(tag: Tag) {
    tag.P13? || tag.P14? || tag.P14W?
  }

  lemma {:induction false} VatElementsAreFields(scale: nat, items: seq<Item>, foreign: bool, n: nat)
    requires n <= |TABLE|
    ensures forall k :: 0 <= k < |VatElements(scale, items, foreign, n)| ==>
              IsVatField(VatElements(scale, items, foreign, n)[k].tag)
                  && VatElements(scale, items, foreign, n)[k].children == []
  {
    if n > 0 {
      VatElementsAreFields(scale, items, foreign, n - 1);
    }
  }

  lemma {:induction false} RowsAt(scale: int, items: seq<Item>)
    requires scale > 0
    ensures forall k :: 0 <= k < |items| ==> RowsOf(scale, items)[k] == RowOf(scale, items[k])
  {
    if items != [] {
      RowsAt(scale, items[..|items| - 1]);
      assert forall k :: 0 <= k < |items| - 1 ==> items[..|items| - 1][k] == items[k];
    }
  }

  lemma RowsAreRows(scale: int, items: seq<Item>)
    requires scale > 0
    ensures forall k :: 0 <= k < |RowsOf(scale, items)| ==> RowsOf(scale, items)[k].tag == FaWiersz
  {
    RowsAt(scale, items);
  }

  predicate OpeningTag(tag: Tag) {
    tag == KodWaluty || tag == P1 || tag == P2 || tag == P6
  }

  predicate MiddleTag(tag: Tag) {
    || tag == P15 || tag == KursWaluty || tag == DataKursuWaluty || tag == Adnotacje || tag == RodzajFaktury
    || tag == PrzyczynaKorekty || tag == DaneFaKorygowanej
  }

  function Children(scale: int, inv: Invoice): seq<Element>
    requires scale > 0
  {
    OpeningOf(inv) + VatElements(scale, inv.items, Foreign(inv), |TABLE|) + MiddleOf(inv) + RowsOf(scale, inv.items)
        + [PaymentOf(inv)]
  }

  /** The five parts of the body, by their tags; only rows and the payment block have children. */
  ghost predicate Parts(o: seq<Element>, v: seq<Element>, m: seq<Element>, r: seq<Element>, p: seq<Element>) {
    && (forall k :: 0 <= k < |o| ==> OpeningTag(o[k].tag) && o[k].children == [])
    && (forall k :: 0 <= k < |v| ==> IsVatField(v[k].tag) && v[k].children == [])
    && (forall k :: 0 <= k < |m| ==> MiddleTag(m[k].tag) && m[k].children == [])
    && (forall k :: 0 <= k < |r| ==> r[k].tag == FaWiersz)
    && (forall k :: 0 <= k < |p| ==> p[k].tag == Platnosc)
  }

  lemma OpeningTags(inv: Invoice)
    ensures Parts(OpeningOf(inv), [], [], [], [])
  {
  }

  ghost predicate MiddleLeaves(m: seq<Element>) {
    forall k :: 0 <= k < |m| ==> MiddleTag(m[k].tag) && m[k].children == []
  }

  lemma MiddleAppend(a: seq<Element>, b: seq<Element>)
    requires MiddleLeaves(a) && MiddleLeaves(b)
    ensures MiddleLeaves(a + b)
  {
  }

  lemma ExchangeTags(inv: Invoice)
    ensures MiddleLeaves(ExchangeOf(inv))
  {
  }

  lemma CorrectionTags(inv: Invoice)
    ensures MiddleLeaves(CorrectionOf(inv))
  {
  }

  lemma MiddleTags(inv: Invoice)
    ensures MiddleLeaves(MiddleOf(inv))
  {
    var gross := [Leaf(P15, Fmt(inv.totals.gross))];
    var kind := [Leaf(Adnotacje, ""), Leaf(RodzajFaktury, KindText(inv.kind))];
    ExchangeTags(inv);
    CorrectionTags(inv);
    MiddleAppend(gross, ExchangeOf(inv));
    MiddleAppend(gross + ExchangeOf(inv), kind);
    MiddleAppend(gross + ExchangeOf(inv) + kind, CorrectionOf(inv));
  }

  lemma DocumentParts(scale: int, inv: Invoice)
    requires scale > 0
    ensures Parts(OpeningOf(inv), VatElements(scale, inv.items, Foreign(inv), |TABLE|), MiddleOf(inv),
                  RowsOf(scale, inv.items), [PaymentOf(inv)])
  {
    OpeningTags(inv);
    MiddleTags(inv);
    VatElementsAreFields(scale, inv.items, Foreign(inv), |TABLE|);
    RowsAreRows(scale, inv.items);
  }

  /** A field is found in the one of three parts that can hold it. */
  lemma FindInHead(o: seq<Element>, v: seq<Element>, m: seq<Element>, tag: Tag)
    requires Parts(o, v, m, [], [])
    ensures Find(o + v + m, tag) ==
            if OpeningTag(tag) then Find(o, tag)
            else if IsVatField(tag) then Find(v, tag)
            else if MiddleTag(tag) then Find(m, tag)
            else None
  {
    FindAppend(o, v, tag);
    FindAppend(o + v, m, tag);
    AbsentElsewhere(o, v, m, tag);
  }

  lemma AbsentElsewhere(o: seq<Element>, v: seq<Element>, m: seq<Element>, tag: Tag)
    requires Parts(o, v, m, [], [])
    ensures !OpeningTag(tag) ==> Find(o, tag) == None
    ensures !IsVatField(tag) ==> Find(v, tag) == None
    ensures !MiddleTag(tag) ==> Find(m, tag) == None
  {
    if !OpeningTag(tag) {
      FindNone(o, tag);
    }
    if !IsVatField(tag) {
      FindNone(v, tag);
    }
    if !MiddleTag(tag) {
      FindNone(m, tag);
    }
  }

  lemma FindBeforeRows(head: seq<Element>, r: seq<Element>, p: seq<Element>, tag: Tag)
    requires Absent(r, tag) && Absent(p, tag)
    ensures Find(head + r + p, tag) == Find(head, tag)
  {
    FindAppend(head, r, tag);
    FindAppend(head + r, p, tag);
    FindNone(r, tag);
    FindNone(p, tag);
  }

  /** A field is found in the part that can hold it. */
  lemma FindInDocument(scale: int, inv: Invoice, tag: Tag)
    requires scale > 0 && tag != FaWiersz && tag != Platnosc
    ensures Find(Children(scale, inv), tag) ==
            if OpeningTag(tag) then Find(OpeningOf(inv), tag)
            else if IsVatField(tag) then Find(VatElements(scale, inv.items, Foreign(inv), |TABLE|), tag)
            else if MiddleTag(tag) then Find(MiddleOf(inv), tag)
            else None
  {
    var o, v, m := OpeningOf(inv), VatElements(scale, inv.items, Foreign(inv), |TABLE|), MiddleOf(inv);
    DocumentParts(scale, inv);
    FindBeforeRows(o + v + m, RowsOf(scale, inv.items), [PaymentOf(inv)], tag);
    FindInHead(o, v, m, tag);
  }

  lemma RowsInParts(o: seq<Element>, v: seq<Element>, m: seq<Element>, r: seq<Element>, p: seq<Element>)
    requires Parts(o, v, m, r, p)
    ensures FindAll(o + v + m + r + p, FaWiersz) == r
  {
    FindAllNone(o, FaWiersz);
    FindAllNone(v, FaWiersz);
    FindAllNone(m, FaWiersz);
    FindAllNone(p, FaWiersz);
    FindAllEvery(r, FaWiersz);
    FindAllAppend(o, v, FaWiersz);
    FindAllAppend(o + v, m, FaWiersz);
    FindAllAppend(o + v + m, r, FaWiersz);
    FindAllAppend(o + v + m + r, p, FaWiersz);
  }

  lemma RowsAreFound(scale: int, inv: Invoice)
    requires scale > 0
    ensures FindAll(Children(scale, inv), FaWiersz) == RowsOf(scale, inv.items)
  {
    DocumentParts(scale, inv);
    RowsInParts(OpeningOf(inv), VatElements(scale, inv.items, Foreign(inv), |TABLE|), MiddleOf(inv),
                RowsOf(scale, inv.items), [PaymentOf(inv)]);
  }

  // ---- Walking the document ----

  /** Nothing a search for payment terms looks at. */
  ghost predicate Quiet(es: seq<Element>) {
    forall k :: 0 <= k < |es| ==> es[k].tag !in {FormaPlatnosci, Platnosc, WarunkiPlatnosci, TerminyPlatnosci}
  }

  lemma {:induction false} QuietLeaves(es: seq<Element>)
    requires Quiet(es) && forall k :: 0 <= k < |es| ==> es[k].children == []
    ensures Quiet(IterAll(es))
  {
    if es != [] {
      QuietLeaves(es[1..]);
      assert IterAll(es[0].children) == [];
    }
  }

  lemma QuietRow(scale: int, item: Item)
    requires scale > 0
    ensures Quiet(Iter(RowOf(scale, item)))
  {
    QuietLeaves(RowOf(scale, item).children);
  }

  lemma {:induction false} QuietRows(scale: int, items: seq<Item>)
    requires scale > 0
    ensures Quiet(IterAll(RowsOf(scale, items)))
  {
    if items != [] {
      var init, row := items[..|items| - 1], RowOf(scale, items[|items| - 1]);
      QuietRows(scale, init);
      IterAppend(RowsOf(scale, init), [row]);
      QuietRow(scale, items[|items| - 1]);
      IterOne(row);
    }
  }

  lemma IterOne(e: Element)
    ensures IterAll([e]) == Iter(e)
  {
    assert [e][1..] == [];
  }

  lemma {:induction false} SkipQuiet(quiet: seq<Element>, rest: seq<Element>)
    requires Quiet(quiet)
    ensures FirstMethod(quiet + rest) == FirstMethod(rest) && FirstTerm(quiet + rest) == FirstTerm(rest)
  {
    if quiet == [] {
      assert quiet + rest == rest;
    } else {
      assert (quiet + rest)[1..] == quiet[1..] + rest;
      SkipQuiet(quiet[1..], rest);
    }
  }

  lemma QuietAppend(a: seq<Element>, b: seq<Element>)
    requires Quiet(a) && Quiet(b)
    ensures Quiet(a + b)
  {
  }

  lemma IterFive(o: seq<Element>, v: seq<Element>, m: seq<Element>, r: seq<Element>, e: Element)
    ensures IterAll(o + v + m + r + [e]) == IterAll(o) + IterAll(v) + IterAll(m) + IterAll(r) + Iter(e)
  {
    IterAppend(o, v);
    IterAppend(o + v, m);
    IterAppend(o + v + m, r);
    IterAppend(o + v + m + r, [e]);
    IterOne(e);
  }

  lemma WalkPast(fa: Element, quiet: seq<Element>, rest: seq<Element>)
    requires Quiet(quiet) && fa.tag == Fa && IterAll(fa.children) == quiet + rest
    ensures FirstMethod(Iter(fa)) == FirstMethod(rest) && FirstTerm(Iter(fa)) == FirstTerm(rest)
  {
    SkipQuiet(quiet, rest);
    SkipQuiet([fa], quiet + rest);
  }

  lemma QuietFour(a: seq<Element>, b: seq<Element>, c: seq<Element>, d: seq<Element>)
    requires Quiet(a) && Quiet(b) && Quiet(c) && Quiet(d)
    ensures Quiet(a + b + c + d)
  {
    QuietAppend(a, b);
    QuietAppend(a + b, c);
    QuietAppend(a + b + c, d);
  }

  lemma QuietParts(o: seq<Element>, v: seq<Element>, m: seq<Element>)
    requires Parts(o, v, m, [], [])
    ensures Quiet(IterAll(o)) && Quiet(IterAll(v)) && Quiet(IterAll(m))
  {
    QuietLeaves(o);
    QuietLeaves(v);
    QuietLeaves(m);
  }

  lemma QuietHead(scale: int, inv: Invoice)
    requires scale > 0
    ensures Quiet(IterAll(OpeningOf(inv))) && Quiet(IterAll(VatElements(scale, inv.items, Foreign(inv), |TABLE|)))
            && Quiet(IterAll(MiddleOf(inv)))
  {
    DocumentParts(scale, inv);
    QuietParts(OpeningOf(inv), VatElements(scale, inv.items, Foreign(inv), |TABLE|), MiddleOf(inv));
  }

  /** Up to the payment block, a walk over the document meets nothing about payment. */
  lemma WalkReachesPayment(scale: int, inv: Invoice)
    requires scale > 0
    ensures var walk := Iter(Element(Fa, "", Children(scale, inv)));
            && FirstMethod(walk) == FirstMethod(Iter(PaymentOf(inv)))
            && FirstTerm(walk) == FirstTerm(Iter(PaymentOf(inv)))
  {
    var o, v := OpeningOf(inv), VatElements(scale, inv.items, Foreign(inv), |TABLE|);
    var m, r := MiddleOf(inv), RowsOf(scale, inv.items);
    QuietHead(scale, inv);
    QuietRows(scale, inv.items);
    QuietFour(IterAll(o), IterAll(v), IterAll(m), IterAll(r));
    IterFive(o, v, m, r, PaymentOf(inv));
    WalkPast(Element(Fa, "", Children(scale, inv)), IterAll(o) + IterAll(v) + IterAll(m) + IterAll(r),
             Iter(PaymentOf(inv)));
  }
}
