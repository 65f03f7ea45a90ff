/** Concrete runs: a transfer matched to a correction, and a form payment that can no longer be cleared. */
module PaymentExamples {
  import opened Prelude
  import Matcher
  import opened Payments
  import opened PaymentRuns
  import opened PaymentOverspend

  lemma RunStep(ops: seq<Op>, op: Op)
    ensures Run(ops + [op]) == Step(Run(ops), op)
  {
    assert (ops + [op])[..|ops|] == ops;
  }

  // ---- A transfer matched to a correction ----

  const CORRECTION := AddInvoice(Purchase, 1, -10000)

  const TRANSFER := Row(Some(BankRef("x")), Some(500), false)

  const SEEN := [Sighting(0, Matcher.EVERYTHING)]

  const UNSEEN := [Sighting(0, Matcher.NOTHING)]

  const IMPORTED := State([Tx(Some(BankRef("x")), 500, 500, Unmatched)], [], [Invoice(Purchase, 1, -10000, Unpaid)])

  lemma TransferIsImported()
    ensures Run([CORRECTION]) == State([], [], IMPORTED.invoices)
    ensures ImportRows([], [TRANSFER]) == IMPORTED.txs && !RowsRaise([], [TRANSFER])
  {
    RunStep([], CORRECTION);
    assert [] + [CORRECTION] == [CORRECTION];
    assert [TRANSFER][..0] == [];
    assert Imports([], TRANSFER);
  }

  lemma TransferIsMatched()
    ensures MatchAll(IMPORTED, 0, [SEEN]).Ok?
    ensures MatchAll(IMPORTED, 0, [SEEN]).value.allocs == [Alloc(0, 0, 500, false, AutoMatch)]
  {
    FullEvidencePicks(IMPORTED, 0, 0);
    assert OnlySeen(1, 0) == SEEN;
    assert [SEEN][..0] == [];
    assert MatchAll(IMPORTED, 0, []) == Ok(IMPORTED);
  }

  /** In a run with only positive transfers, one of 5.00 is allocated automatically to an invoice of -100.00. */
  lemma CorrectionIsPaid()
    ensures var ops := [CORRECTION, ImportOp([TRANSFER], [SEEN])];
            && ProperRun(ops)
            && Run(ops).allocs == [Alloc(0, 0, 500, false, AutoMatch)]
            && |Run(ops).invoices| == 1 && Run(ops).invoices[0].gross == -10000
  {
    var ops := [CORRECTION, ImportOp([TRANSFER], [SEEN])];
    TransferIsImported();
    TransferIsMatched();
    RunStep([CORRECTION], ops[1]);
    assert [CORRECTION] + [ops[1]] == ops;
    assert ops[..1] == [CORRECTION] && [CORRECTION][..0] == [];
    assert ProperRun([CORRECTION]);
    var s := Run([CORRECTION]);
    assert s.(txs := ImportRows(s.txs, [TRANSFER])) == IMPORTED;
    StepKeepsGross(s, ops[1]);
  }

  lemma StepKeepsGross(s: State, op: Op)
    requires op.ImportOp?
    ensures |Step(s, op).invoices| == |s.invoices|
    ensures forall i :: 0 <= i < |s.invoices| ==> Step(s, op).invoices[i].gross == s.invoices[i].gross
  {
    if Call(s, op).Ok? {
      MatchAllKeepsGross(s.(txs := ImportRows(s.txs, op.rows)), |s.txs|, op.listings);
    }
  }

  lemma {:induction false} MatchAllKeepsGross(s: State, from: nat, listings: seq<seq<Sighting>>)
    requires MatchAll(s, from, listings).Ok?
    ensures |MatchAll(s, from, listings).value.invoices| == |s.invoices|
    ensures forall i :: 0 <= i < |s.invoices| ==>
              MatchAll(s, from, listings).value.invoices[i].gross == s.invoices[i].gross
    decreases |listings|
  {
    if listings != [] {
      MatchAllKeepsGross(s, from, listings[..|listings| - 1]);
    }
  }

  // ---- A form that cannot be cleared ----

  const BIG := Row(Some(BankRef("y")), Some(15000), false)

  const FORM := Alloc(0, 0, 4000, false, Cash)

  const HAND := Alloc(1, 0, 15000, false, ByHand)

  const FORMED := State([Tx(Some(CashFor(0)), 4000, 0, Matched)], [FORM], [Invoice(Sale, 1, 10000, PartiallyPaid)])

  const ARRIVED := FORMED.(txs := FORMED.txs + [Tx(Some(BankRef("y")), 15000, 15000, Unmatched)])

  const OVERPAID := State([Tx(Some(CashFor(0)), 4000, 0, Matched), Tx(Some(BankRef("y")), 15000, 0, Matched)],
                          [FORM, HAND], [Invoice(Sale, 1, 10000, Paid)])

  const OVERPAYING := [AddInvoice(Sale, 1, 10000), FormOp(0, 4000), ImportOp([BIG], [UNSEEN]), ManualOp(1, 0, 15000)]

  const UNPAID := State([], [], [Invoice(Sale, 1, 10000, Unpaid)])

  lemma CashIsPaid()
    ensures PayCash(UNPAID, 0, 4000) == FORMED
  {
    SumsOfOne(OfTx(0), FORM);
    SumsOfOne(OfInvoice(0), FORM);
    assert UNPAID.allocs + [FORM] == [FORM];
  }

  lemma FormIsPaid()
    ensures Step(UNPAID, FormOp(0, 4000)) == FORMED
  {
    CashIsPaid();
    assert FormAlloc(UNPAID, 0) == None;
    assert PaidOtherwise(UNPAID, 0) == 0;
    assert FormPayment(UNPAID, 0, 4000) == Ok(PayCash(UNPAID, 0, 4000));
  }

  /** Texts that show nothing match nothing: the amount alone gives 30 points at most. */
  lemma NothingIsMatched(s: State, t: nat, listing: seq<Sighting>)
    requires t < |s.txs| && Lists(s.invoices, listing)
    requires forall k :: 0 <= k < |listing| ==> listing[k].evidence == Matcher.NOTHING
    ensures Match(s, t, listing) == Ok((s, Matcher.NoMatch))
  {
    Matcher.DecisionIsBest(s.txs[t].amount, Offered(s.invoices, listing));
  }

  /** The transfer shows nothing of the one invoice there is. */
  lemma TransferIsNotMatched()
    ensures Match(ARRIVED, 1, UNSEEN) == Ok((ARRIVED, Matcher.NoMatch))
  {
    NothingIsMatched(ARRIVED, 1, UNSEEN);
  }

  lemma TransferIsImportedToo()
    ensures ImportRows(FORMED.txs, [BIG]) == ARRIVED.txs && !RowsRaise(FORMED.txs, [BIG])
  {
    assert [BIG][..0] == [];
    ByExternalFinds(FORMED.txs, BankRef("y"));
    assert Imports(FORMED.txs, BIG);
    assert ImportRows(FORMED.txs, []) == FORMED.txs;
  }

  lemma TransferArrives()
    ensures Step(FORMED, ImportOp([BIG], [UNSEEN])) == ARRIVED
  {
    TransferIsImportedToo();
    TransferIsNotMatched();
    assert [UNSEEN][..0] == [];
    assert MatchAll(ARRIVED, 1, []) == Ok(ARRIVED);
    assert FORMED.(txs := ImportRows(FORMED.txs, [BIG])) == ARRIVED;
  }

  lemma TransferIsSpent()
    ensures Step(ARRIVED, ManualOp(1, 0, 15000)) == OVERPAID
  {
    SumsOfTwo(OfTx(1), FORM, HAND);
    SumsOfTwo(OfInvoice(0), FORM, HAND);
    assert ARRIVED.allocs + [HAND] == [FORM, HAND];
  }

  lemma OverpayingStep(k: nat)
    requires k < |OVERPAYING|
    ensures Run(OVERPAYING[..k + 1]) == Step(Run(OVERPAYING[..k]), OVERPAYING[k])
  {
    assert OVERPAYING[..k + 1][..k] == OVERPAYING[..k];
  }

  lemma InvoiceIsAdded()
    ensures Run(OVERPAYING[..1]) == UNPAID
  {
    OverpayingStep(0);
  }

  lemma FormIsFirst()
    ensures Run(OVERPAYING[..2]) == FORMED
  {
    InvoiceIsAdded();
    OverpayingStep(1);
    FormIsPaid();
  }

  lemma TransferIsNext()
    ensures Run(OVERPAYING[..3]) == ARRIVED
  {
    FormIsFirst();
    OverpayingStep(2);
    TransferArrives();
  }

  lemma HandIsLast()
    ensures Run(OVERPAYING) == OVERPAID
  {
    TransferIsNext();
    OverpayingStep(3);
    TransferIsSpent();
    assert OVERPAYING[..4] == OVERPAYING;
  }

  lemma OverpaidIsStuck(amount: int)
    requires amount > -5000
    ensures FormPayment(OVERPAID, 0, amount) == Err(TooMuch) && FormAmount(OVERPAID, 0) == 4000
  {
    SumsOfTwo(OfInvoice(0), FORM, HAND);
    FormOfOverpaid();
  }

  /** Paid 40.00 by its form and 150.00 by a transfer, an invoice of 100.00: the form's payment can neither be
      cleared nor lowered any more. */
  lemma FormCannotBeCleared(amount: int)
    requires amount > -5000
    ensures Run(OVERPAYING) == OVERPAID && FormPayment(OVERPAID, 0, amount) == Err(TooMuch)
            && FormAmount(OVERPAID, 0) == 4000
  {
    HandIsLast();
    OverpaidIsStuck(amount);
  }

  lemma FormOfOverpaid()
    ensures FormAlloc(OVERPAID, 0) == Some(0)
  {
    ByExternalFinds(OVERPAID.txs, CashFor(0));
    NewestActiveFinds(OVERPAID.allocs, 0, 0);
    assert FromTo(OVERPAID.allocs[0], 0, 0);
  }
}
