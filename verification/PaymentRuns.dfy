/** Runs in which bank amounts are positive and the cash transactions behind form payments are left to the
    form: no transaction is overspent and automatic matches stay near the gross. */
module PaymentRuns {
  import opened Prelude
  import Matcher
  import opened Payments
  import opened PaymentLedger

  // ---- Runs ----

  predicate IsCash(tx: Tx) {
    tx.external.Some? && tx.external.value.CashFor?
  }

  ghost predicate ProperRow(row: Row) {
    (row.external.Some? ==> row.external.value.BankRef?) && (row.amount.Some? ==> row.amount.value > 0)
  }

  /** Imported amounts are positive and carry bank references, and no one matches or hand-allocates a cash
      transaction. Reversing a form's allocation is allowed. */
  ghost predicate Proper(s: State, op: Op) {
    match op
    case ImportOp(rows, _) => forall k :: 0 <= k < |rows| ==> ProperRow(rows[k])
    case MatchOp(tx, _) => tx < |s.txs| ==> !IsCash(s.txs[tx])
    case ManualOp(tx, _, _) => tx < |s.txs| ==> !IsCash(s.txs[tx])
    case _ => true
  }

  ghost predicate ProperRun(ops: seq<Op>) {
    ops == [] || (ProperRun(ops[..|ops| - 1]) && Proper(Run(ops[..|ops| - 1]), ops[|ops| - 1]))
  }

  // ---- The invariant ----

  ghost predicate Solvent(tx: Tx) {
    tx.amount > 0 && 0 <= tx.remaining
  }

  ghost predicate NearGross(invoices: seq<Invoice>, a: Alloc)
    requires a.invoice < |invoices|
  {
    a.how == AutoMatch && invoices[a.invoice].gross >= 0 ==> 100 * a.amount <= 102 * invoices[a.invoice].gross
  }

  /** Form allocations, and only they, come from the cash transaction of their invoice; an active one spends
      all of it. */
  ghost predicate AllocOk(s: State, a: Alloc)
    requires a.tx < |s.txs| && a.invoice < |s.invoices|
  {
    var tx := s.txs[a.tx];
    && 0 <= a.amount && NearGross(s.invoices, a)
    && (a.how == Cash <==> IsCash(tx))
    && (a.how == Cash ==> tx.external == Some(CashFor(a.invoice)) && (!a.reversed ==> a.amount == tx.amount))
  }

  predicate ActiveCash(a: Alloc, i: nat) {
    a.how == Cash && a.invoice == i && !a.reversed
  }

  ghost predicate OneForm(allocs: seq<Alloc>) {
    forall j, k :: 0 <= j < k < |allocs| && ActiveCash(allocs[k], allocs[k].invoice)
        ==> !ActiveCash(allocs[j], allocs[k].invoice)
  }

  ghost predicate Clean(s: State) {
    && LedgerOk(s) && OneForm(s.allocs)
    && (forall t :: 0 <= t < |s.txs| ==> Solvent(s.txs[t]))
    && (forall k :: 0 <= k < |s.allocs| ==> AllocOk(s, s.allocs[k]))
  }

  // ---- Steps ----

  lemma AllocateStaysClean(s: State, t: nat, i: nat, amount: int, how: Method)
    requires Clean(s) && t < |s.txs| && i < |s.invoices| && how != Cash && !IsCash(s.txs[t])
    requires 0 <= amount <= s.txs[t].remaining
    requires NearGross(s.invoices, Alloc(t, i, amount, false, how))
    ensures Clean(Allocate(s, t, i, amount, how))
  {
    AllocateKeeps(s, t, i, amount, how);
    assert TxOk(s, t);
    SumAppend(OfTx(t), s.allocs, Alloc(t, i, amount, false, how));
    var s' := Allocate(s, t, i, amount, how);
    forall k | 0 <= k < |s'.allocs| ensures AllocOk(s', s'.allocs[k]) {
      assert k < |s.allocs| ==> AllocOk(s, s.allocs[k]);
    }
  }

  lemma ReversedStaysClean(s: State, a: nat)
    requires Clean(s) && a < |s.allocs| && !s.allocs[a].reversed
    ensures Clean(Reversed(s, a))
  {
    ReversedKeeps(s, a);
    var row := s.allocs[a];
    assert AllocOk(s, row) && TxOk(s, row.tx);
    SumUpdate(OfTx(row.tx), s.allocs, a, row.(reversed := true));
    var s' := Reversed(s, a);
    forall k | 0 <= k < |s'.allocs| ensures AllocOk(s', s'.allocs[k]) {
      assert AllocOk(s, s.allocs[k]);
    }
  }

  lemma NewRowStaysClean(s: State, tx: Tx)
    requires Clean(s) && tx.amount > 0 && tx.remaining == tx.amount && tx.status == Unmatched
    requires tx.external.Some? ==> ByExternal(s.txs, tx.external.value).None?
    ensures Clean(s.(txs := s.txs + [tx]))
  {
    NewRowKeeps(s, tx);
    var s' := s.(txs := s.txs + [tx]);
    forall k | 0 <= k < |s'.allocs| ensures AllocOk(s', s'.allocs[k]) {
      assert AllocOk(s, s.allocs[k]);
    }
  }

  ghost predicate SameKeys(txs: seq<Tx>, txs': seq<Tx>) {
    |txs| <= |txs'| && forall t :: 0 <= t < |txs| ==> txs'[t].external == txs[t].external
  }

  lemma {:induction false} ImportRowsStaysClean(s: State, rows: seq<Row>)
    requires Clean(s) && forall k :: 0 <= k < |rows| ==> ProperRow(rows[k])
    ensures Clean(s.(txs := ImportRows(s.txs, rows)))
    ensures SameKeys(s.txs, ImportRows(s.txs, rows))
    ensures NoCashFrom(ImportRows(s.txs, rows), |s.txs|)
  {
    if rows != [] {
      var init, row := ImportRows(s.txs, rows[..|rows| - 1]), rows[|rows| - 1];
      ImportRowsStaysClean(s, rows[..|rows| - 1]);
      assert ProperRow(row);
      if Imports(init, row) {
        NewRowStaysClean(s.(txs := init), Tx(row.external, row.amount.value, row.amount.value, Unmatched));
      }
    }
  }

  /** The chosen invoice is within two percent of the transaction, and at most the transaction is left. */
  lemma AutoIsCapped(s: State, t: nat, listing: seq<Sighting>)
    requires Clean(s) && Match(s, t, listing).Ok? && Match(s, t, listing).value.1.Auto?
    ensures var i := listing[Match(s, t, listing).value.1.row].invoice;
            NearGross(s.invoices, Alloc(t, i, s.txs[t].remaining, false, AutoMatch))
  {
    var offered := Offered(s.invoices, listing);
    var row := Match(s, t, listing).value.1.row;
    Matcher.DecisionIsBest(s.txs[t].amount, offered);
    assert Matcher.Wins(s.txs[t].amount, offered, row);
    RemainingIsBounded(s, t);
    Matcher.AutoIsNearIff(s.txs[t].amount, offered[row].gross, offered[row].invoice);
    assert offered[row] == Matcher.Candidate(offered[row].invoice, offered[row].gross, offered[row].evidence);
  }

  /** Exactly when automatic matching respects an invoice's gross: whatever the texts show in the listing of all
      invoices a matching run reads, what it would allocate to the invoice is at most 1.02 of the gross, if and
      only if the gross is not negative. */
  lemma AutoStaysNearIff(s: State, t: nat, i: nat)
    requires Clean(s) && t < |s.txs| && i < |s.invoices|
    ensures (forall listing: seq<Sighting> ::
               PicksInvoice(s, t, listing, i) ==> 100 * s.txs[t].remaining <= 102 * s.invoices[i].gross)
       <==> s.invoices[i].gross >= 0
  {
    RemainingIsBounded(s, t);
    assert Solvent(s.txs[t]);
    if s.invoices[i].gross < 0 {
      FullEvidencePicks(s, t, i);
    } else {
      forall listing: seq<Sighting> | PicksInvoice(s, t, listing, i)
        ensures 100 * s.txs[t].remaining <= 102 * s.invoices[i].gross
      {
        AutoIsCapped(s, t, listing);
      }
    }
  }

  predicate PicksInvoice(s: State, t: nat, listing: seq<Sighting>, i: nat) {
    && Match(s, t, listing).Ok? && Match(s, t, listing).value.1.Auto?
    && listing[Match(s, t, listing).value.1.row].invoice == i
  }

  /** Every invoice in the order of the table; the texts point at invoice `i` and at no other. */
  function OnlySeen(n: nat, i: nat): seq<Sighting> {
    seq(n, k requires 0 <= k < n => Sighting(k, if k == i then Matcher.EVERYTHING else Matcher.NOTHING))
  }

  lemma OnlySeenIsOffered(invoices: seq<Invoice>, i: nat)
    ensures Lists(invoices, OnlySeen(|invoices|, i))
    ensures Matcher.PointsAt(Offered(invoices, OnlySeen(|invoices|, i)), i)
  {
  }

  /** An invoice of negative gross that the texts point at is picked from all invoices, whatever the amount. */
  lemma FullEvidencePicks(s: State, t: nat, i: nat)
    requires t < |s.txs| && i < |s.invoices| && s.invoices[i].gross < 0
    ensures PicksInvoice(s, t, OnlySeen(|s.invoices|, i), i)
  {
    var offered := Offered(s.invoices, OnlySeen(|s.invoices|, i));
    OnlySeenIsOffered(s.invoices, i);
    Matcher.DecisionIsBest(s.txs[t].amount, offered);
    Matcher.CorrectionWins(s.txs[t].amount, offered, i);
  }

  lemma RemainingIsBounded(s: State, t: nat)
    requires Clean(s) && t < |s.txs|
    ensures 0 <= s.txs[t].remaining <= s.txs[t].amount
  {
    assert TxOk(s, t) && Solvent(s.txs[t]);
    forall k | 0 <= k < |s.allocs| ensures 0 <= OfTx(t)(s.allocs[k]) {
      assert AllocOk(s, s.allocs[k]);
    }
    SumNonNegative(OfTx(t), s.allocs);
  }

  lemma MatchStaysClean(s: State, t: nat, listing: seq<Sighting>)
    requires Clean(s) && Match(s, t, listing).Ok? && !IsCash(s.txs[t])
    ensures Clean(Match(s, t, listing).value.0)
    ensures SameKeys(s.txs, Match(s, t, listing).value.0.txs) && |Match(s, t, listing).value.0.txs| == |s.txs|
  {
    var s' := Match(s, t, listing).value.0;
    match Match(s, t, listing).value.1 {
      case Auto(row) =>
        AutoIsCapped(s, t, listing);
        RemainingIsBounded(s, t);
        AllocateStaysClean(s, t, listing[row].invoice, s.txs[t].remaining, AutoMatch);
      case Review =>
        MatchKeeps(s, t, listing);
        forall k | 0 <= k < |s'.allocs| ensures AllocOk(s', s'.allocs[k]) {
          assert AllocOk(s, s.allocs[k]);
        }
      case NoMatch =>
    }
  }

  ghost predicate NoCashFrom(txs: seq<Tx>, from: nat) {
    forall t :: from <= t < |txs| ==> !IsCash(txs[t])
  }

  lemma SameKeysTwice(a: seq<Tx>, b: seq<Tx>, c: seq<Tx>)
    requires SameKeys(a, b) && SameKeys(b, c)
    ensures SameKeys(a, c)
  {
  }

  lemma SameKeysSameKind(a: seq<Tx>, b: seq<Tx>, from: nat, t: nat)
    requires SameKeys(a, b) && NoCashFrom(a, from) && from <= t < |a|
    ensures !IsCash(b[t])
  {
    assert b[t].external == a[t].external && !IsCash(a[t]);
  }

  /** The last matching run of an import, and the state it met. */
  lemma LastMatch(s: State, from: nat, listings: seq<seq<Sighting>>) returns (m: State)
    requires listings != [] && MatchAll(s, from, listings).Ok?
    ensures MatchAll(s, from, listings[..|listings| - 1]) == Ok(m)
    ensures var last := Match(m, from + |listings| - 1, listings[|listings| - 1]);
            last.Ok? && MatchAll(s, from, listings).value == last.value.0
  {
    m := MatchAll(s, from, listings[..|listings| - 1]).value;
  }

  /** Clean, with the same transactions by their references. */
  ghost predicate CleanAfter(s: State, s': State) {
    Clean(s') && SameKeys(s.txs, s'.txs) && |s'.txs| == |s.txs|
  }

  lemma OneMoreMatch(s: State, m: State, from: nat, t: nat, listing: seq<Sighting>)
    requires CleanAfter(s, m) && from <= t < |s.txs| && NoCashFrom(s.txs, from) && Match(m, t, listing).Ok?
    ensures CleanAfter(s, Match(m, t, listing).value.0)
  {
    SameKeysSameKind(s.txs, m.txs, from, t);
    MatchStaysClean(m, t, listing);
    SameKeysTwice(s.txs, m.txs, Match(m, t, listing).value.0.txs);
  }

  lemma {:induction false} MatchAllStaysClean(s: State, from: nat, listings: seq<seq<Sighting>>)
    requires Clean(s) && MatchAll(s, from, listings).Ok? && from + |listings| <= |s.txs| && NoCashFrom(s.txs, from)
    ensures CleanAfter(s, MatchAll(s, from, listings).value)
    decreases |listings|
  {
    if listings != [] {
      var m := LastMatch(s, from, listings);
      MatchAllStaysClean(s, from, listings[..|listings| - 1]);
      OneMoreMatch(s, m, from, from + |listings| - 1, listings[|listings| - 1]);
    }
  }

  // ---- Form payments ----

  /** With no active form allocation, nothing is allocated from the invoice's cash transaction, existing or new. */
  lemma CashIsUnspent(s: State, i: nat, t: nat)
    requires Clean(s) && i < |s.invoices|
    requires forall k :: 0 <= k < |s.allocs| ==> !ActiveCash(s.allocs[k], i)
    requires t < |s.txs| ==> s.txs[t].external == Some(CashFor(i))
    requires t <= |s.txs|
    ensures AllocatedFrom(s.allocs, t) == 0
  {
    forall k | 0 <= k < |s.allocs| ensures OfTx(t)(s.allocs[k]) == 0 {
      assert AllocOk(s, s.allocs[k]) && !ActiveCash(s.allocs[k], i);
    }
    SumZero(OfTx(t), s.allocs);
  }

  /** The cash transaction is rewritten and spent whole. */
  lemma PayCashShape(s: State, i: nat, amount: int) returns (t: nat)
    requires Clean(s) && i < |s.invoices| && amount > 0
    requires forall k :: 0 <= k < |s.allocs| ==> !ActiveCash(s.allocs[k], i)
    ensures var s' := PayCash(s, i, amount);
            && t < |s'.txs| && s'.txs[t] == Tx(Some(CashFor(i)), amount, 0, Matched)
            && (s'.txs == s.txs[..t] + [s'.txs[t]] || (t < |s.txs| && s'.txs == s.txs[t := s'.txs[t]]))
            && s'.allocs == s.allocs + [Alloc(t, i, amount, false, Cash)]
            && (t < |s.txs| ==> s.txs[t].external == Some(CashFor(i)))
            && s'.invoices == RefreshInvoice(s.invoices, s'.allocs, i)
  {
    var cash := ByExternal(s.txs, CashFor(i));
    ByExternalFinds(s.txs, CashFor(i));
    t := if cash.Some? then cash.value else |s.txs|;
    CashIsUnspent(s, i, t);
    SumAppend(OfTx(t), s.allocs, Alloc(t, i, amount, false, Cash));
  }

  lemma PayCashStaysClean(s: State, i: nat, amount: int)
    requires Clean(s) && i < |s.invoices| && amount > 0
    requires forall k :: 0 <= k < |s.allocs| ==> !ActiveCash(s.allocs[k], i)
    ensures Clean(PayCash(s, i, amount))
  {
    PayCashKeeps(s, i, amount);
    var s' := PayCash(s, i, amount);
    var t := PayCashShape(s, i, amount);
    forall k | 0 <= k < |s.allocs| ensures AllocOk(s', s.allocs[k]) {
      assert AllocOk(s, s.allocs[k]) && !ActiveCash(s.allocs[k], i);
    }
  }

  /** In a clean state the form's allocation is the one active cash allocation to the invoice. */
  lemma FormIsTheActiveCash(s: State, i: nat)
    requires Clean(s)
    ensures match FormAlloc(s, i)
            case Some(f) => f < |s.allocs| && ActiveCash(s.allocs[f], i)
                            && forall k :: 0 <= k < |s.allocs| && k != f ==> !ActiveCash(s.allocs[k], i)
            case None => forall k :: 0 <= k < |s.allocs| ==> !ActiveCash(s.allocs[k], i)
  {
    FormAllocFinds(s, i);
    ByExternalFinds(s.txs, CashFor(i));
    match FormAlloc(s, i) {
      case Some(f) =>
        assert AllocOk(s, s.allocs[f]);
        assert ActiveCash(s.allocs[f], s.allocs[f].invoice);
      case None =>
        forall k | 0 <= k < |s.allocs| ensures !ActiveCash(s.allocs[k], i) {
          assert AllocOk(s, s.allocs[k]);
        }
    }
  }

  lemma FormStaysClean(s: State, i: nat, amount: int)
    requires Clean(s) && FormPayment(s, i, amount).Ok?
    ensures Clean(FormPayment(s, i, amount).value)
  {
    FormIsTheActiveCash(s, i);
    var form := FormAlloc(s, i);
    if form.Some? {
      FormClears(s, i);
      ReversedStaysClean(s, form.value);
    }
    if amount > 0 {
      if form.None? {
        PayCashStaysClean(s, i, amount);
      } else if FormAmount(s, i) != amount {
        PayCashStaysClean(Reversed(s, form.value), i, amount);
      }
    }
  }

  // ---- Runs ----

  lemma StepStaysClean(s: State, op: Op)
    requires Clean(s) && Proper(s, op)
    ensures Clean(Step(s, op))
  {
    if Call(s, op).Ok? {
      match op {
        case AddInvoice(direction, month, gross) =>
          StepKeeps(s, op);
          var s' := Step(s, op);
          forall k | 0 <= k < |s'.allocs| ensures AllocOk(s', s'.allocs[k]) {
            assert AllocOk(s, s.allocs[k]);
          }
        case ImportOp(rows, listings) =>
          ImportRowsStaysClean(s, rows);
          MatchAllStaysClean(s.(txs := ImportRows(s.txs, rows)), |s.txs|, listings);
        case MatchOp(tx, listing) => MatchStaysClean(s, tx, listing);
        case ManualOp(tx, invoice, amount) => AllocateStaysClean(s, tx, invoice, amount, ByHand);
        case ReverseOp(alloc) => ReversedStaysClean(s, alloc);
        case FormOp(invoice, amount) => FormStaysClean(s, invoice, amount);
      }
    }
  }

  lemma {:induction false} ProperRunsAreClean(ops: seq<Op>)
    requires ProperRun(ops)
    ensures Clean(Run(ops))
  {
    if ops != [] {
      ProperRunsAreClean(ops[..|ops| - 1]);
      StepStaysClean(Run(ops[..|ops| - 1]), ops[|ops| - 1]);
    }
  }

  /** No transaction is ever spent beyond its amount, and its cached balance says exactly what is left. */
  lemma NothingIsOverspent(ops: seq<Op>, t: nat)
    requires ProperRun(ops) && t < |Run(ops).txs|
    ensures var s := Run(ops);
            && 0 <= AllocatedFrom(s.allocs, t) <= s.txs[t].amount
            && s.txs[t].remaining == s.txs[t].amount - AllocatedFrom(s.allocs, t)
  {
    var s := Run(ops);
    ProperRunsAreClean(ops);
    RemainingIsBounded(s, t);
    assert TxOk(s, t);
  }

  /** Every automatic allocation ever made to an invoice whose gross is not negative is at most 1.02 of it. */
  lemma AutoMatchesStayNearGross(ops: seq<Op>, k: nat)
    requires ProperRun(ops) && k < |Run(ops).allocs| && Run(ops).allocs[k].how == AutoMatch
    ensures var s := Run(ops); var a := s.allocs[k];
            && 0 <= a.amount && a.invoice < |s.invoices|
            && (s.invoices[a.invoice].gross >= 0 ==> 100 * a.amount <= 102 * s.invoices[a.invoice].gross)
  {
    ProperRunsAreClean(ops);
    assert AllocOk(Run(ops), Run(ops).allocs[k]);
  }

  /** In such runs the cached statuses mean what they say: matched is all spent, partial is some, unmatched is
      nothing; and of an invoice of positive gross, paid is at least the gross, partially paid is some of it,
      unpaid is nothing. */
  lemma StatusesMeanWhatTheySay(ops: seq<Op>)
    requires ProperRun(ops)
    ensures var s := Run(ops);
            && (forall t: nat :: t < |s.txs| && s.txs[t].status != ManualReview ==>
                  var (status, spent) := (s.txs[t].status, AllocatedFrom(s.allocs, t));
                  && (status == Matched <==> spent == s.txs[t].amount)
                  && (status == Partial <==> 0 < spent < s.txs[t].amount)
                  && (status == Unmatched <==> spent == 0))
            && (forall i: nat :: i < |s.invoices| && s.invoices[i].gross > 0 ==>
                  var (status, paid) := (s.invoices[i].status, PaidTo(s.allocs, i));
                  && (status == Paid <==> s.invoices[i].gross <= paid)
                  && (status == PartiallyPaid <==> 0 < paid < s.invoices[i].gross)
                  && (status == Unpaid <==> paid == 0))
  {
    var s := Run(ops);
    ProperRunsAreClean(ops);
    forall t: nat | t < |s.txs|
      ensures TxOk(s, t) && 0 <= s.txs[t].remaining <= s.txs[t].amount && 0 < s.txs[t].amount
    {
      RemainingIsBounded(s, t);
      assert TxOk(s, t) && Solvent(s.txs[t]);
    }
    forall i: nat | i < |s.invoices| ensures InvoiceOk(s, i) && 0 <= PaidTo(s.allocs, i) {
      assert InvoiceOk(s, i);
      forall k | 0 <= k < |s.allocs| ensures 0 <= OfInvoice(i)(s.allocs[k]) {
        assert AllocOk(s, s.allocs[k]);
      }
      SumNonNegative(OfInvoice(i), s.allocs);
    }
  }
}
