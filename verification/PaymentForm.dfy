/** The in-place form payment: what an accepted call changes and leaves alone, that the last writer wins over
    whole runs, and what goes wrong when a cash transaction is spent from outside. */
module PaymentForm {
  import opened Prelude
  import opened Payments
  import opened PaymentLedger
  import opened PaymentRuns

  function Positive(amount: int): nat {
    if amount > 0 then amount else 0
  }

  predicate Accepts(s: State, i: nat, amount: int) {
    && i < |s.invoices| && s.invoices[i].direction == Sale
    && amount + PaidOtherwise(s, i) <= s.invoices[i].gross
  }

  // ---- One call ----

  /** `after` differs from `s` only in the cash transaction and form allocation of invoice `i`. */
  ghost predicate OnlyForm(s: State, after: State, i: nat) {
    && |s.allocs| <= |after.allocs| && |s.txs| <= |after.txs| && |after.invoices| == |s.invoices|
    && (forall k :: 0 <= k < |s.allocs| && !ActiveCash(s.allocs[k], i) ==> after.allocs[k] == s.allocs[k])
    && (forall k :: 0 <= k < |s.allocs| ==> after.allocs[k].(reversed := s.allocs[k].reversed) == s.allocs[k])
    && (forall k :: |s.allocs| <= k < |after.allocs| ==> ActiveCash(after.allocs[k], i))
    && (forall t :: 0 <= t < |s.txs| && s.txs[t].external != Some(CashFor(i)) ==> after.txs[t] == s.txs[t])
    && (forall t :: |s.txs| <= t < |after.txs| ==> after.txs[t].external == Some(CashFor(i)))
    && (forall j: nat :: j < |s.invoices| && j != i ==> after.invoices[j] == s.invoices[j])
  }

  lemma PayCashEffect(s: State, i: nat, amount: int)
    requires Clean(s) && i < |s.invoices| && amount > 0
    requires forall k :: 0 <= k < |s.allocs| ==> !ActiveCash(s.allocs[k], i)
    ensures var after := PayCash(s, i, amount);
            && Clean(after) && OnlyForm(s, after, i)
            && FormAmount(after, i) == amount
            && PaidTo(after.allocs, i) == PaidTo(s.allocs, i) + amount
  {
    var after := PayCash(s, i, amount);
    PayCashStaysClean(s, i, amount);
    var t := PayCashShape(s, i, amount);
    SumAppend(OfInvoice(i), s.allocs, Alloc(t, i, amount, false, Cash));
    FormIsTheActiveCash(after, i);
    assert ActiveCash(after.allocs[|s.allocs|], i);
  }

  lemma ClearEffect(s: State, i: nat)
    requires Clean(s) && i < |s.invoices| && FormAlloc(s, i).Some?
    ensures FormAlloc(s, i).value < |s.allocs|
    ensures var after := Reversed(s, FormAlloc(s, i).value);
            && Clean(after) && OnlyForm(s, after, i)
            && FormAmount(after, i) == 0 && FormAlloc(after, i).None?
            && (forall k :: 0 <= k < |after.allocs| ==> !ActiveCash(after.allocs[k], i))
            && PaidTo(after.allocs, i) == PaidOtherwise(s, i)
  {
    var f := FormAlloc(s, i).value;
    FormIsTheActiveCash(s, i);
    ReversedStaysClean(s, f);
    var after := Reversed(s, f);
    FormIsTheActiveCash(after, i);
    assert AllocOk(s, s.allocs[f]);
    SumUpdate(OfInvoice(i), s.allocs, f, s.allocs[f].(reversed := true));
  }

  ghost predicate FormSet(s: State, after: State, i: nat, amount: nat) {
    && Clean(after) && OnlyForm(s, after, i)
    && FormAmount(after, i) == amount
    && PaidTo(after.allocs, i) == PaidOtherwise(s, i) + amount
  }

  lemma OnlyFormTwice(s: State, mid: State, after: State, i: nat)
    requires OnlyForm(s, mid, i) && |mid.allocs| == |s.allocs| && |mid.txs| == |s.txs|
    requires OnlyForm(mid, after, i)
    ensures OnlyForm(s, after, i)
  {
    forall k | 0 <= k < |s.allocs| && !ActiveCash(s.allocs[k], i) ensures after.allocs[k] == s.allocs[k] {
      assert mid.allocs[k] == s.allocs[k];
    }
    forall t | 0 <= t < |s.txs| && s.txs[t].external != Some(CashFor(i)) ensures after.txs[t] == s.txs[t] {
      assert mid.txs[t] == s.txs[t];
    }
  }

  /** Reverse, rewrite, reallocate. */
  lemma ReplaceEffect(s: State, i: nat, amount: int)
    requires Clean(s) && i < |s.invoices| && amount > 0 && FormAlloc(s, i).Some?
    ensures FormAlloc(s, i).value < |s.allocs|
    ensures FormSet(s, PayCash(Reversed(s, FormAlloc(s, i).value), i, amount), i, amount)
  {
    ClearEffect(s, i);
    var mid := Reversed(s, FormAlloc(s, i).value);
    PayCashEffect(mid, i, amount);
    OnlyFormTwice(s, mid, PayCash(mid, i, amount), i);
  }

  lemma FormIsSetFirst(s: State, i: nat, amount: int)
    requires Clean(s) && Accepts(s, i, amount) && FormAlloc(s, i).None?
    ensures FormPayment(s, i, amount).Ok? && FormSet(s, FormPayment(s, i, amount).value, i, Positive(amount))
  {
    FormIsTheActiveCash(s, i);
    if amount > 0 {
      PayCashEffect(s, i, amount);
    } else {
      NothingToClear(s, i);
    }
  }

  lemma NothingToClear(s: State, i: nat)
    requires Clean(s) && FormAlloc(s, i).None?
    ensures FormSet(s, s, i, 0)
  {
  }

  lemma FormIsCleared(s: State, i: nat, amount: int)
    requires Clean(s) && Accepts(s, i, amount) && FormAlloc(s, i).Some? && amount <= 0
    ensures FormPayment(s, i, amount).Ok? && FormSet(s, FormPayment(s, i, amount).value, i, 0)
  {
    FormClears(s, i);
    ClearEffect(s, i);
  }

  lemma FormIsReplaced(s: State, i: nat, amount: int)
    requires Clean(s) && Accepts(s, i, amount) && FormAlloc(s, i).Some? && amount > 0 && FormAmount(s, i) != amount
    ensures FormPayment(s, i, amount).Ok? && FormSet(s, FormPayment(s, i, amount).value, i, amount)
  {
    FormClears(s, i);
    ReplaceEffect(s, i, amount);
  }

  lemma FormIsSet(s: State, i: nat, amount: int)
    requires Clean(s) && Accepts(s, i, amount)
    ensures FormPayment(s, i, amount).Ok? && FormSet(s, FormPayment(s, i, amount).value, i, Positive(amount))
  {
    if FormAlloc(s, i).None? {
      FormIsSetFirst(s, i, amount);
    } else if amount <= 0 {
      FormIsCleared(s, i, amount);
    } else if FormAmount(s, i) != amount {
      FormIsReplaced(s, i, amount);
    }
  }

  /** An accepted form payment sets the form's amount (zero for no positive amount), keeps every other payment
      and row as it was, and, when positive, leaves the invoice paid at most its gross. It is accepted exactly
      when it fits beside the other payments; so clearing the form is refused once they exceed the gross. */
  lemma FormPaymentEffect(s: State, i: nat, amount: int)
    requires Clean(s)
    ensures FormPayment(s, i, amount).Ok? <==> Accepts(s, i, amount)
    ensures Accepts(s, i, amount) ==>
              var after := FormPayment(s, i, amount).value;
              && Clean(after) && OnlyForm(s, after, i)
              && FormAmount(after, i) == Positive(amount)
              && PaidOtherwise(after, i) == PaidOtherwise(s, i)
              && (amount > 0 ==> PaidTo(after.allocs, i) <= s.invoices[i].gross)
  {
    if Accepts(s, i, amount) {
      FormIsSet(s, i, amount);
    }
  }

  // ---- Runs ----

  /** The form's allocation to `i` is the same before and after. */
  ghost predicate SameForm(s: State, after: State, i: nat) {
    && |s.allocs| <= |after.allocs|
    && (forall k :: 0 <= k < |s.allocs| ==> (ActiveCash(after.allocs[k], i) <==> ActiveCash(s.allocs[k], i)))
    && (forall k :: 0 <= k < |s.allocs| ==> after.allocs[k].amount == s.allocs[k].amount)
    && (forall k :: |s.allocs| <= k < |after.allocs| ==> !ActiveCash(after.allocs[k], i))
  }

  lemma SameFormSameAmount(s: State, after: State, i: nat)
    requires Clean(s) && Clean(after) && SameForm(s, after, i)
    ensures FormAmount(after, i) == FormAmount(s, i)
  {
    FormIsTheActiveCash(s, i);
    FormIsTheActiveCash(after, i);
  }

  lemma {:induction false} MatchAllKeepsForms(s: State, from: nat, listings: seq<seq<Sighting>>, i: nat)
    requires MatchAll(s, from, listings).Ok?
    ensures SameForm(s, MatchAll(s, from, listings).value, i)
    decreases |listings|
  {
    if listings != [] {
      MatchAllKeepsForms(s, from, listings[..|listings| - 1], i);
    }
  }

  /** What a run leaves in the form of invoice `i`: the last amount accepted by the state it met, or nothing once
      its allocation was reversed by hand. */
  ghost function LastForm(ops: seq<Op>, i: nat): nat {
    if ops == [] then 0
    else
      var init, op := ops[..|ops| - 1], ops[|ops| - 1];
      var s := Run(init);
      match op
      case FormOp(j, amount) => if j == i && Accepts(s, i, amount) then Positive(amount) else LastForm(init, i)
      case ReverseOp(a) => if a < |s.allocs| && ActiveCash(s.allocs[a], i) then 0 else LastForm(init, i)
      case _ => LastForm(init, i)
  }

  lemma ReversalOfForm(s: State, a: nat, i: nat)
    requires Clean(s) && a < |s.allocs| && ActiveCash(s.allocs[a], i)
    ensures Step(s, ReverseOp(a)) == Reversed(s, a) && FormAmount(Reversed(s, a), i) == 0
  {
    FormIsTheActiveCash(s, i);
    assert AllocOk(s, s.allocs[a]);
    ClearEffect(s, i);
  }

  /** The calls that leave the form of `i` alone. */
  ghost predicate Bystander(s: State, op: Op, i: nat) {
    match op
    case FormOp(j, amount) => j != i || !Accepts(s, i, amount)
    case ReverseOp(a) => a < |s.allocs| ==> !ActiveCash(s.allocs[a], i)
    case _ => true
  }

  lemma OtherFormKept(s: State, after: State, j: nat, i: nat)
    requires OnlyForm(s, after, j) && j != i
    ensures SameForm(s, after, i)
  {
    forall k | 0 <= k < |s.allocs|
      ensures (ActiveCash(after.allocs[k], i) <==> ActiveCash(s.allocs[k], i))
              && after.allocs[k].amount == s.allocs[k].amount
    {
      assert after.allocs[k].(reversed := s.allocs[k].reversed) == s.allocs[k];
      assert !ActiveCash(s.allocs[k], j) ==> after.allocs[k] == s.allocs[k];
    }
  }

  lemma OtherFormPaid(s: State, j: nat, amount: int, i: nat)
    requires Clean(s) && FormPayment(s, j, amount).Ok? && (j != i || !Accepts(s, i, amount))
    ensures SameForm(s, FormPayment(s, j, amount).value, i)
  {
    FormPaymentEffect(s, j, amount);
    OtherFormKept(s, FormPayment(s, j, amount).value, j, i);
  }

  lemma ImportKeepsForms(s: State, rows: seq<Row>, listings: seq<seq<Sighting>>, i: nat)
    requires Import(s, rows, listings).Ok?
    ensures SameForm(s, Import(s, rows, listings).value, i)
  {
    MatchAllKeepsForms(s.(txs := ImportRows(s.txs, rows)), |s.txs|, listings, i);
  }

  lemma MatchKeepsForms(s: State, t: nat, listing: seq<Sighting>, i: nat)
    requires Match(s, t, listing).Ok?
    ensures SameForm(s, Match(s, t, listing).value.0, i)
  {
  }

  lemma ManualKeepsForms(s: State, t: nat, j: nat, amount: int, i: nat)
    requires AllocateManual(s, t, j, amount).Ok?
    ensures SameForm(s, AllocateManual(s, t, j, amount).value, i)
  {
  }

  lemma ReversalKeepsForms(s: State, a: nat, i: nat)
    requires a < |s.allocs| && !ActiveCash(s.allocs[a], i)
    ensures SameForm(s, Reversed(s, a), i)
  {
  }

  lemma BystandersKeepForms(s: State, op: Op, i: nat)
    requires Clean(s) && Proper(s, op) && Bystander(s, op, i)
    ensures SameForm(s, Step(s, op), i)
  {
    if Call(s, op).Ok? {
      match op
      case AddInvoice(direction, month, gross) =>
      case ImportOp(rows, listings) => ImportKeepsForms(s, rows, listings, i);
      case MatchOp(t, listing) => MatchKeepsForms(s, t, listing, i);
      case ManualOp(t, j, amount) => ManualKeepsForms(s, t, j, amount, i);
      case ReverseOp(a) => ReversalKeepsForms(s, a, i);
      case FormOp(j, amount) => OtherFormPaid(s, j, amount, i);
    }
  }

  /** Last writer wins: after any run in which only the form and reversals touch cash transactions, the form of
      every invoice holds its last accepted amount. */
  lemma {:induction false} LastWriterWins(ops: seq<Op>, i: nat)
    requires ProperRun(ops)
    ensures FormAmount(Run(ops), i) == LastForm(ops, i)
  {
    if ops != [] {
      var init, op := ops[..|ops| - 1], ops[|ops| - 1];
      var s := Run(init);
      ProperRunsAreClean(init);
      LastWriterWins(init, i);
      if Bystander(s, op, i) {
        BystandersKeepForms(s, op, i);
        StepStaysClean(s, op);
        SameFormSameAmount(s, Step(s, op), i);
      } else if op.FormOp? {
        FormPaymentEffect(s, i, op.amount);
      } else {
        ReversalOfForm(s, op.alloc, i);
      }
    }
  }

  /** An invoice has at most one cash transaction and at most one active allocation from it, which spends it
      whole. */
  lemma OneFormPayment(ops: seq<Op>, i: nat)
    requires ProperRun(ops)
    ensures var s := Run(ops);
            && (forall t, u :: 0 <= t < u < |s.txs| ==>
                  !(s.txs[t].external == Some(CashFor(i)) && s.txs[u].external == Some(CashFor(i))))
            && (forall j, k :: 0 <= j < k < |s.allocs| ==> !(ActiveCash(s.allocs[j], i) && ActiveCash(s.allocs[k], i)))
            && (forall k :: 0 <= k < |s.allocs| && ActiveCash(s.allocs[k], i) ==>
                  s.allocs[k].tx < |s.txs| && s.txs[s.allocs[k].tx].amount == s.allocs[k].amount == FormAmount(s, i))
  {
    var s := Run(ops);
    ProperRunsAreClean(ops);
    FormIsTheActiveCash(s, i);
    forall k | 0 <= k < |s.allocs| && ActiveCash(s.allocs[k], i)
      ensures s.allocs[k].tx < |s.txs| && s.txs[s.allocs[k].tx].amount == s.allocs[k].amount
    {
      assert AllocOk(s, s.allocs[k]);
    }
  }
}
