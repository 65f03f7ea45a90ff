/** What a form payment does to a cash transaction that was also spent from outside the form: an example, and
    exactly when it is overspent. */
module PaymentOverspend {
  import opened Prelude
  import opened Payments
  import opened PaymentLedger

  /** What is allocated from the invoice's cash transaction besides the form's own allocation. */
  function SpentOutside(s: State, i: nat): int {
    var cash := ByExternal(s.txs, CashFor(i));
    (if cash.Some? then AllocatedFrom(s.allocs, cash.value) else 0) - FormAmount(s, i)
  }

  lemma PayCashRemaining(s: State, i: nat, amount: int)
    requires LedgerOk(s)
    ensures var after := PayCash(s, i, amount);
            var cash := ByExternal(s.txs, CashFor(i));
            var t := if cash.Some? then cash.value else |s.txs|;
            t < |after.txs| && after.txs[t].external == Some(CashFor(i)) && after.txs[t].amount == amount
            && after.txs[t].remaining == - (if cash.Some? then AllocatedFrom(s.allocs, t) else 0)
  {
    var cash := ByExternal(s.txs, CashFor(i));
    ByExternalFinds(s.txs, CashFor(i));
    var t := if cash.Some? then cash.value else |s.txs|;
    SumAppend(OfTx(t), s.allocs, Alloc(t, i, amount, false, Cash));
    if cash.None? {
      SumZero(OfTx(t), s.allocs);
    }
  }

  /** Clearing the form leaves exactly the outside spending on the cash transaction. */
  lemma ClearedSpending(s: State, i: nat)
    requires LedgerOk(s) && FormAlloc(s, i).Some?
    ensures FormAlloc(s, i).value < |s.allocs| && ByExternal(s.txs, CashFor(i)).Some?
    ensures var cleared := Reversed(s, FormAlloc(s, i).value);
            && ByExternal(cleared.txs, CashFor(i)) == ByExternal(s.txs, CashFor(i))
            && AllocatedFrom(cleared.allocs, ByExternal(s.txs, CashFor(i)).value) == SpentOutside(s, i)
  {
    var f, t := FormAlloc(s, i).value, ByExternal(s.txs, CashFor(i)).value;
    FormAllocFinds(s, i);
    ByExternalFinds(s.txs, CashFor(i));
    SumUpdate(OfTx(t), s.allocs, f, s.allocs[f].(reversed := true));
    ReversedKeeps(s, f);
    var cleared := Reversed(s, f);
    ByExternalFinds(cleared.txs, CashFor(i));
    assert cleared.txs[t].external == Some(CashFor(i));
    assert FormAmount(s, i) == s.allocs[f].amount && cleared.allocs == s.allocs[f := s.allocs[f].(reversed := true)];
  }

  /** A form payment that changes the amount, from any state of the ledger, leaves the cash transaction short by
      exactly what was spent from outside before: it is overspent if and only if that is positive. */
  lemma OverspentExactlyByOutsideUse(s: State, i: nat, amount: int)
    requires LedgerOk(s) && FormPayment(s, i, amount).Ok? && amount > 0 && FormAmount(s, i) != amount
    ensures var after := FormPayment(s, i, amount).value;
            exists t :: 0 <= t < |after.txs| && after.txs[t].external == Some(CashFor(i))
                && after.txs[t].amount == amount
                        && after.txs[t].remaining == - SpentOutside(s, i)
                        && (after.txs[t].remaining < 0 <==> SpentOutside(s, i) > 0)
  {
    var form := FormAlloc(s, i);
    if form.None? {
      PayCashRemaining(s, i, amount);
    } else {
      FormClears(s, i);
      ClearedSpending(s, i);
      ReversedKeeps(s, form.value);
      PayCashRemaining(Reversed(s, form.value), i, amount);
    }
  }

  // ---- An overspent transaction ----

  const OVERSPENDING := [AddInvoice(Sale, 1, 10000), AddInvoice(Sale, 1, 10000), FormOp(0, 10000), FormOp(0, 0),
                         ManualOp(0, 1, 10000), FormOp(0, 3000)]

  const UNPAID := State([], [], [Invoice(Sale, 1, 10000, Unpaid), Invoice(Sale, 1, 10000, Unpaid)])

  const PAID := State([Tx(Some(CashFor(0)), 10000, 0, Matched)],
                      [Alloc(0, 0, 10000, false, Cash)],
                      [Invoice(Sale, 1, 10000, Paid), Invoice(Sale, 1, 10000, Unpaid)])

  const CLEARED := State([Tx(Some(CashFor(0)), 10000, 10000, Unmatched)],
                         [Alloc(0, 0, 10000, true, Cash)],
                         [Invoice(Sale, 1, 10000, Unpaid), Invoice(Sale, 1, 10000, Unpaid)])

  const SPENT_ELSEWHERE := State([Tx(Some(CashFor(0)), 10000, 0, Matched)],
                                 [Alloc(0, 0, 10000, true, Cash), Alloc(0, 1, 10000, false, ByHand)],
                                 [Invoice(Sale, 1, 10000, Unpaid), Invoice(Sale, 1, 10000, Paid)])

  lemma SumsOfOne(f: Alloc -> int, a: Alloc)
    ensures Sum(f, [a]) == f(a)
  {
    SumAppend(f, [], a);
    assert [] + [a] == [a];
  }

  lemma SumsOfTwo(f: Alloc -> int, a: Alloc, b: Alloc)
    ensures Sum(f, [a, b]) == f(a) + f(b)
  {
    SumsOfOne(f, a);
    SumAppend(f, [a], b);
    assert [a] + [b] == [a, b];
  }

  lemma SumsOfThree(f: Alloc -> int, a: Alloc, b: Alloc, c: Alloc)
    ensures Sum(f, [a, b, c]) == f(a) + f(b) + f(c)
  {
    SumsOfTwo(f, a, b);
    SumAppend(f, [a, b], c);
    assert [a, b] + [c] == [a, b, c];
  }

  lemma OverspendingStep(k: nat)
    requires k < |OVERSPENDING|
    ensures Run(OVERSPENDING[..k + 1]) == Step(Run(OVERSPENDING[..k]), OVERSPENDING[k])
  {
    assert OVERSPENDING[..k + 1][..k] == OVERSPENDING[..k];
  }

  lemma InvoicesAreAdded()
    ensures Run(OVERSPENDING[..2]) == UNPAID
  {
    OverspendingStep(0);
    OverspendingStep(1);
  }

  lemma CashPays()
    ensures PayCash(UNPAID, 0, 10000) == PAID
  {
    var cash := Alloc(0, 0, 10000, false, Cash);
    SumsOfOne(OfTx(0), cash);
    SumsOfOne(OfInvoice(0), cash);
    assert UNPAID.allocs + [cash] == [cash];
  }

  lemma FormPays()
    ensures Step(UNPAID, FormOp(0, 10000)) == PAID
  {
    CashPays();
    assert FormAlloc(UNPAID, 0) == None;
    assert PaidOtherwise(UNPAID, 0) == 0;
    assert FormPayment(UNPAID, 0, 10000) == Ok(PayCash(UNPAID, 0, 10000));
  }

  lemma FormIsClearedAgain()
    ensures Step(PAID, FormOp(0, 0)) == CLEARED
  {
    var cash := Alloc(0, 0, 10000, false, Cash);
    SumsOfOne(OfInvoice(0), cash);
    SumsOfOne(OfInvoice(0), cash.(reversed := true));
    SumsOfOne(OfTx(0), cash.(reversed := true));
  }

  lemma CashIsSpentByHand()
    ensures Step(CLEARED, ManualOp(0, 1, 10000)) == SPENT_ELSEWHERE
  {
    var cash, hand := Alloc(0, 0, 10000, true, Cash), Alloc(0, 1, 10000, false, ByHand);
    SumsOfTwo(OfTx(0), cash, hand);
    SumsOfTwo(OfInvoice(1), cash, hand);
    assert CLEARED.allocs + [hand] == [cash, hand];
  }

  lemma PaidAgain()
    ensures var last := Step(SPENT_ELSEWHERE, FormOp(0, 3000));
            |last.txs| == 1 && last.txs[0].amount == 3000 && last.txs[0].remaining == -10000
  {
    var old0, hand := Alloc(0, 0, 10000, true, Cash), Alloc(0, 1, 10000, false, ByHand);
    SumsOfTwo(OfInvoice(0), old0, hand);
    SumsOfThree(OfTx(0), old0, hand, Alloc(0, 0, 3000, false, Cash));
    assert ByExternal(SPENT_ELSEWHERE.txs, CashFor(0)) == Some(0);
    NewestActiveFinds(SPENT_ELSEWHERE.allocs, 0, 0);
    assert FormAlloc(SPENT_ELSEWHERE, 0) == None;
    assert SPENT_ELSEWHERE.allocs + [Alloc(0, 0, 3000, false, Cash)] == [old0, hand, Alloc(0, 0, 3000, false, Cash)];
  }

  lemma PaidFirst()
    ensures Run(OVERSPENDING[..3]) == PAID
  {
    InvoicesAreAdded();
    OverspendingStep(2);
    FormPays();
  }

  lemma ClearedNext()
    ensures Run(OVERSPENDING[..4]) == CLEARED
  {
    PaidFirst();
    OverspendingStep(3);
    FormIsClearedAgain();
  }

  lemma SpentFromOutside()
    ensures Run(OVERSPENDING[..5]) == SPENT_ELSEWHERE
  {
    ClearedNext();
    OverspendingStep(4);
    CashIsSpentByHand();
  }

  /** A form paid, cleared, its cash spent by hand on another invoice, and paid again: 100 more is spent from
      the transaction than it holds. */
  lemma OutsideUseOverspends()
    ensures var s := Run(OVERSPENDING);
            |s.txs| == 1 && s.txs[0].amount == 3000 && s.txs[0].remaining == -10000
  {
    SpentFromOutside();
    OverspendingStep(5);
    PaidAgain();
    assert OVERSPENDING[..6] == OVERSPENDING;
  }
}
