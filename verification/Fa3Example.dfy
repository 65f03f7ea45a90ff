/** A built invoice of one line whose round trip loses a cent of line VAT. */
module Fa3Example {
  import opened Prelude
  import opened Decimals
  import opened Rounding
  import opened InvoiceTotals
  import opened Fa3
  import opened Fa3Lines
  import Nip

  /** One piece at 0.10, five percent: the exact VAT is half a cent. The scale is hundredths. */
  const RAW := RawItem("Book", 100, Some("szt."), 10, 500)

  const LINE := Item("Book", 1, "szt.", 10, 500, 10, 1, 11, 1, None)

  const SALE := Invoice(VatInvoice, Some("FV/1"), "PLN", "1111111111", Date(2026, 2, 1), Date(2026, 2, 1), None, None,
                        Transfer, None, None, false, None, [LINE], Totals(10, 1, 11))

  lemma LineIsBuilt()
    ensures ProblemOf(100, RAW) == None && BuildItem(100, RAW, 1) == LINE
  {
    StripTrims("Book");
    assert HalfUp(1000, 100) == 10 && HalfUp(5000, 10000) == 1;
  }

  lemma SaleIsBuilt()
    ensures Built(100, [RAW], SALE)
  {
    LineIsBuilt();
    assert [RAW][..0] == [];
    assert BuildItems(100, []) == Ok([]);
    assert BuildItems(100, [RAW]) == Ok([] + [LINE]);
    assert Plain([LINE]) == [LINE];
    SumAppend(NetOf(), [], LINE);
    SumAppend(VatOf(), [], LINE);
    SumAppend(GrossOf(), [], LINE);
    assert [] + [LINE] == [LINE];
  }

  lemma TenOnesAreValid(nip: string)
    requires |nip| == 10 && forall i :: 0 <= i < 10 ==> nip[i] == '1'
    ensures Nip.InvoiceAccepts(NormalizeNip(nip))
  {
    StripTrims(nip);
    Nip.WithoutNothing(nip, '-');
    Nip.WithoutNothing(nip, ' ');
    TenOnesWeigh(nip);
  }

  lemma TenOnesWeigh(nip: string)
    requires |nip| == 10 && forall i :: 0 <= i < 10 ==> nip[i] == '1'
    ensures Nip.Weighted(nip, 9) == 45
  {
    assert Nip.Weighted(nip, 1) == 6;
    assert Nip.Weighted(nip, 2) == 11;
    assert Nip.Weighted(nip, 3) == 18;
    assert Nip.Weighted(nip, 4) == 20;
    assert Nip.Weighted(nip, 5) == 23;
    assert Nip.Weighted(nip, 6) == 27;
    assert Nip.Weighted(nip, 7) == 32;
    assert Nip.Weighted(nip, 8) == 38;
  }

  lemma Accepted(scale: int, inv: Invoice)
    requires scale > 0 && Invalid(inv).None? && RatesKnown(scale, inv.items)
    ensures ToXml(scale, inv).Ok?
  {
  }

  lemma NothingInvalid(inv: Invoice)
    requires Nip.InvoiceAccepts(NormalizeNip(inv.sellerNip)) && inv.items != [] && inv.kind == VatInvoice
    ensures Invalid(inv).None?
  {
  }

  lemma SaleIsMapped()
    ensures ToXml(100, SALE).Ok?
  {
    TenOnesAreValid(SALE.sellerNip);
    NothingInvalid(SALE);
    Accepted(100, SALE);
  }

  lemma OneTie()
    ensures Sum(RoundedDown(100), [LINE]) == 1
  {
    SumAppend(RoundedDown(100), [], LINE);
    assert [] + [LINE] == [LINE];
    assert 10 * 500 % 10000 == 5000 && 10 * 500 / 10000 == 0;
  }

  /** The gap of a cent per line is reached: the header says one cent of VAT, the parsed line none. */
  lemma GapIsReached(fa: Element)
    requires ToXml(100, SALE) == Ok(fa)
    ensures Parse(fa).Ok? && Sum(ParsedVat(), Parse(fa).value.items) == 0 && SALE.totals.vat == 1
  {
    SaleIsBuilt();
    OneTie();
    RoundingGap(100, [RAW], SALE, fa);
  }
}
