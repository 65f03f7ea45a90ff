/** The cached values of the payment ledger are right in every reachable state, whatever the amounts: what is
    left of a transaction, its match status, and the payment status of an invoice. */
module PaymentLedger {
  import opened Prelude
  import opened Payments

  // ---- The invariant ----

  ghost predicate IdsOk(s: State) {
    forall k :: 0 <= k < |s.allocs| ==> s.allocs[k].tx < |s.txs| && s.allocs[k].invoice < |s.invoices|
  }

  ghost predicate ExternalIdsUnique(txs: seq<Tx>) {
    forall t, u :: 0 <= t < u < |txs| && txs[t].external.Some? ==> txs[t].external != txs[u].external
  }

  /** A transaction of no positive amount stays unmatched until something is allocated from it. */
  ghost predicate TxOk(s: State, t: nat)
    requires t < |s.txs|
  {
    var tx := s.txs[t];
    && tx.remaining == tx.amount - AllocatedFrom(s.allocs, t)
    && (tx.status == MatchStatusOf(tx.amount, tx.remaining) || tx.status == ManualReview
        || (tx.status == Unmatched && tx.amount <= 0 && tx.remaining == tx.amount))
  }

  ghost predicate InvoiceOk(s: State, i: nat)
    requires i < |s.invoices|
  {
    s.invoices[i].status == PaymentStatusOf(s.invoices[i].gross, PaidTo(s.allocs, i))
  }

  ghost predicate LedgerOk(s: State) {
    && IdsOk(s) && ExternalIdsUnique(s.txs)
    && (forall t: nat :: t < |s.txs| ==> TxOk(s, t))
    && (forall i: nat :: i < |s.invoices| ==> InvoiceOk(s, i))
  }

  /** Only the cached values of `t` and `i` may be stale. */
  ghost predicate StaleAt(s: State, t: nat, i: nat) {
    && IdsOk(s) && ExternalIdsUnique(s.txs)
    && (forall u: nat :: u < |s.txs| && u != t ==> TxOk(s, u))
    && (forall j: nat :: j < |s.invoices| && j != i ==> InvoiceOk(s, j))
  }

  lemma RefreshRepairs(s: State, t: nat, i: nat)
    requires StaleAt(s, t, i)
    ensures LedgerOk(Refresh(s, t, i))
  {
    var s' := Refresh(s, t, i);
    forall u: nat | u < |s'.txs| ensures TxOk(s', u) {
      assert u != t ==> TxOk(s, u);
    }
    forall j: nat | j < |s'.invoices| ensures InvoiceOk(s', j) {
      assert j != i ==> InvoiceOk(s, j);
    }
  }

  // ---- Steps ----

  lemma AllocationMakesStale(s: State, t: nat, i: nat, amount: int, how: Method)
    requires StaleAt(s, t, i) && t < |s.txs| && i < |s.invoices|
    ensures StaleAt(s.(allocs := s.allocs + [Alloc(t, i, amount, false, how)]), t, i)
  {
    var a := Alloc(t, i, amount, false, how);
    var s' := s.(allocs := s.allocs + [a]);
    forall u: nat | u < |s'.txs| && u != t ensures TxOk(s', u) {
      SumAppend(OfTx(u), s.allocs, a);
      assert TxOk(s, u);
    }
    forall j: nat | j < |s'.invoices| && j != i ensures InvoiceOk(s', j) {
      SumAppend(OfInvoice(j), s.allocs, a);
      assert InvoiceOk(s, j);
    }
  }

  lemma AllocateKeeps(s: State, t: nat, i: nat, amount: int, how: Method)
    requires StaleAt(s, t, i) && t < |s.txs| && i < |s.invoices|
    ensures LedgerOk(Allocate(s, t, i, amount, how))
  {
    AllocationMakesStale(s, t, i, amount, how);
    RefreshRepairs(s.(allocs := s.allocs + [Alloc(t, i, amount, false, how)]), t, i);
  }

  lemma ReversedKeeps(s: State, a: nat)
    requires LedgerOk(s) && a < |s.allocs|
    ensures LedgerOk(Reversed(s, a))
  {
    var row := s.allocs[a].(reversed := true);
    var s' := s.(allocs := s.allocs[a := row]);
    forall u: nat | u < |s'.txs| && u != row.tx ensures TxOk(s', u) {
      SumUpdate(OfTx(u), s.allocs, a, row);
      assert TxOk(s, u);
    }
    forall j: nat | j < |s'.invoices| && j != row.invoice ensures InvoiceOk(s', j) {
      SumUpdate(OfInvoice(j), s.allocs, a, row);
      assert InvoiceOk(s, j);
    }
    RefreshRepairs(s', row.tx, row.invoice);
  }

  /** A new transaction row with an unused key. */
  lemma NewRowKeeps(s: State, tx: Tx)
    requires LedgerOk(s) && tx.remaining == tx.amount && tx.status == Unmatched
    requires tx.external.Some? ==> ByExternal(s.txs, tx.external.value).None?
    ensures LedgerOk(s.(txs := s.txs + [tx]))
  {
    var s' := s.(txs := s.txs + [tx]);
    if tx.external.Some? {
      ByExternalFinds(s.txs, tx.external.value);
    }
    SumZero(OfTx(|s.txs|), s.allocs);
    forall u: nat | u < |s'.txs| ensures TxOk(s', u) {
      assert u < |s.txs| ==> TxOk(s, u);
    }
    forall j: nat | j < |s'.invoices| ensures InvoiceOk(s', j) {
      assert InvoiceOk(s, j);
    }
  }

  lemma {:induction false} ImportRowsKeeps(s: State, rows: seq<Row>)
    requires LedgerOk(s)
    ensures LedgerOk(s.(txs := ImportRows(s.txs, rows)))
  {
    if rows != [] {
      var init := ImportRows(s.txs, rows[..|rows| - 1]);
      var row := rows[|rows| - 1];
      ImportRowsKeeps(s, rows[..|rows| - 1]);
      if Imports(init, row) {
        NewRowKeeps(s.(txs := init), Tx(row.external, row.amount.value, row.amount.value, Unmatched));
      }
    }
  }

  lemma MatchKeeps(s: State, t: nat, listing: seq<Sighting>)
    requires LedgerOk(s) && Match(s, t, listing).Ok?
    ensures LedgerOk(Match(s, t, listing).value.0)
  {
    match Match(s, t, listing).value.1 {
      case Auto(row) => AllocateKeeps(s, t, listing[row].invoice, s.txs[t].remaining, AutoMatch);
      case Review =>
        var s' := Match(s, t, listing).value.0;
        forall u: nat | u < |s'.txs| ensures TxOk(s', u) {
          assert TxOk(s, u);
        }
        forall j: nat | j < |s'.invoices| ensures InvoiceOk(s', j) {
          assert InvoiceOk(s, j);
        }
      case NoMatch =>
    }
  }

  lemma {:induction false} MatchAllKeeps(s: State, from: nat, listings: seq<seq<Sighting>>)
    requires LedgerOk(s) && MatchAll(s, from, listings).Ok?
    ensures LedgerOk(MatchAll(s, from, listings).value)
    decreases |listings|
  {
    if listings != [] {
      var n := |listings| - 1;
      MatchAllKeeps(s, from, listings[..n]);
      MatchKeeps(MatchAll(s, from, listings[..n]).value, from + n, listings[n]);
    }
  }

  lemma PayCashKeeps(s: State, i: nat, amount: int)
    requires LedgerOk(s) && i < |s.invoices|
    ensures LedgerOk(PayCash(s, i, amount))
  {
    var cash := ByExternal(s.txs, CashFor(i));
    var row := Tx(Some(CashFor(i)), amount, amount, Unmatched);
    ByExternalFinds(s.txs, CashFor(i));
    if cash.None? {
      NewRowKeeps(s, row);
      AllocateKeeps(s.(txs := s.txs + [row]), |s.txs|, i, amount, Cash);
    } else {
      var s' := s.(txs := s.txs[cash.value := row]);
      forall u: nat | u < |s'.txs| && u != cash.value ensures TxOk(s', u) {
        assert TxOk(s, u);
      }
      forall j: nat | j < |s'.invoices| ensures InvoiceOk(s', j) {
        assert InvoiceOk(s, j);
      }
      AllocateKeeps(s', cash.value, i, amount, Cash);
    }
  }

  /** The form's allocation is active, so clearing it cannot fail. */
  lemma FormClears(s: State, i: nat)
    requires FormAlloc(s, i).Some?
    ensures FormAlloc(s, i).value < |s.allocs| && !s.allocs[FormAlloc(s, i).value].reversed
    ensures Reverse(s, FormAlloc(s, i).value) == Ok(Reversed(s, FormAlloc(s, i).value))
  {
    FormAllocFinds(s, i);
  }

  lemma FormKeeps(s: State, i: nat, amount: int)
    requires LedgerOk(s) && FormPayment(s, i, amount).Ok?
    ensures LedgerOk(FormPayment(s, i, amount).value)
  {
    var form := FormAlloc(s, i);
    if form.Some? {
      FormClears(s, i);
      ReversedKeeps(s, form.value);
    }
    if amount > 0 {
      if form.None? {
        PayCashKeeps(s, i, amount);
      } else if FormAmount(s, i) != amount {
        PayCashKeeps(Reversed(s, form.value), i, amount);
      }
    }
  }

  lemma StepKeeps(s: State, op: Op)
    requires LedgerOk(s)
    ensures LedgerOk(Step(s, op))
  {
    if Call(s, op).Ok? {
      match op {
        case AddInvoice(direction, month, gross) =>
          var s' := Step(s, op);
          SumZero(OfInvoice(|s.invoices|), s.allocs);
          forall j: nat | j < |s'.invoices| ensures InvoiceOk(s', j) {
            assert j < |s.invoices| ==> InvoiceOk(s, j);
          }
          forall t: nat | t < |s'.txs| ensures TxOk(s', t) {
            assert TxOk(s, t);
          }
        case ImportOp(rows, listings) =>
          ImportRowsKeeps(s, rows);
          MatchAllKeeps(s.(txs := ImportRows(s.txs, rows)), |s.txs|, listings);
        case MatchOp(tx, listing) => MatchKeeps(s, tx, listing);
        case ManualOp(tx, invoice, amount) => AllocateKeeps(s, tx, invoice, amount, ByHand);
        case ReverseOp(alloc) => ReversedKeeps(s, alloc);
        case FormOp(invoice, amount) => FormKeeps(s, invoice, amount);
      }
    }
  }

  /** Over every run of imports, matching runs, manual allocations, reversals and form payments, failed calls
      included, with any amounts: every cached value is the one its allocations give. */
  lemma {:induction false} Reachable(ops: seq<Op>)
    ensures LedgerOk(Run(ops))
  {
    if ops != [] {
      Reachable(ops[..|ops| - 1]);
      StepKeeps(Run(ops[..|ops| - 1]), ops[|ops| - 1]);
    }
  }

  // ---- Conservation ----

  function Spent(): Tx -> int {
    (t: Tx) => t.amount - t.remaining
  }

  function Counted(): Alloc -> int {
    (a: Alloc) => if a.reversed then 0 else a.amount
  }

  function PaidToFirst(allocs: seq<Alloc>, n: nat): int {
    if n == 0 then 0 else PaidToFirst(allocs, n - 1) + PaidTo(allocs, n - 1)
  }

  function TakenFromFirst(allocs: seq<Alloc>, n: nat): int {
    if n == 0 then 0 else TakenFromFirst(allocs, n - 1) + AllocatedFrom(allocs, n - 1)
  }

  lemma {:induction false} PaidAppend(allocs: seq<Alloc>, a: Alloc, n: nat)
    ensures PaidToFirst(allocs + [a], n) == PaidToFirst(allocs, n) + if a.invoice < n then Counted()(a) else 0
  {
    if n > 0 {
      PaidAppend(allocs, a, n - 1);
      SumAppend(OfInvoice(n - 1), allocs, a);
    }
  }

  lemma {:induction false} TakenAppend(allocs: seq<Alloc>, a: Alloc, n: nat)
    ensures TakenFromFirst(allocs + [a], n) == TakenFromFirst(allocs, n) + if a.tx < n then Counted()(a) else 0
  {
    if n > 0 {
      TakenAppend(allocs, a, n - 1);
      SumAppend(OfTx(n - 1), allocs, a);
    }
  }

  lemma {:induction false} NothingTaken(n: nat)
    ensures TakenFromFirst([], n) == 0 && PaidToFirst([], n) == 0
  {
    if n > 0 {
      NothingTaken(n - 1);
    }
  }

  lemma {:induction false} EveryAllocationCounts(allocs: seq<Alloc>, n: nat, m: nat)
    requires forall k :: 0 <= k < |allocs| ==> allocs[k].tx < n && allocs[k].invoice < m
    ensures TakenFromFirst(allocs, n) == Sum(Counted(), allocs) == PaidToFirst(allocs, m)
  {
    if allocs == [] {
      NothingTaken(n);
      NothingTaken(m);
    } else {
      var init, last := allocs[..|allocs| - 1], allocs[|allocs| - 1];
      EveryAllocationCounts(init, n, m);
      TakenAppend(init, last, n);
      PaidAppend(init, last, m);
      assert allocs == init + [last];
    }
  }

  lemma {:induction false} SpentIsTaken(s: State, n: nat)
    requires LedgerOk(s) && n <= |s.txs|
    ensures Sum(Spent(), s.txs[..n]) == TakenFromFirst(s.allocs, n)
  {
    if n > 0 {
      SpentIsTaken(s, n - 1);
      assert s.txs[..n] == s.txs[..n - 1] + [s.txs[n - 1]];
      SumAppend(Spent(), s.txs[..n - 1], s.txs[n - 1]);
      assert TxOk(s, n - 1);
    }
  }

  /** No money appears or vanishes: over every run, what the cached balances say was spent from all
      transactions is what all invoices together have been paid. */
  lemma MoneyIsConserved(ops: seq<Op>)
    ensures var s := Run(ops); Sum(Spent(), s.txs) == PaidToFirst(s.allocs, |s.invoices|)
  {
    var s := Run(ops);
    Reachable(ops);
    EveryAllocationCounts(s.allocs, |s.txs|, |s.invoices|);
    SpentIsTaken(s, |s.txs|);
    assert s.txs[..|s.txs|] == s.txs;
  }

  // ---- Undo ----

  /** Reversing a manual allocation puts every cached value back; only a review mark is lost. */
  lemma ReversalUndoes(s: State, t: nat, i: nat, amount: int)
    requires LedgerOk(s) && AllocateManual(s, t, i, amount).Ok?
    ensures var after := Reverse(AllocateManual(s, t, i, amount).value, |s.allocs|);
            && after.Ok?
            && after.value.invoices == s.invoices
            && after.value.txs == s.txs[t := s.txs[t].(status := MatchStatusOf(s.txs[t].amount, s.txs[t].remaining))]
            && after.value.allocs == s.allocs + [Alloc(t, i, amount, true, ByHand)]
  {
    var a := Alloc(t, i, amount, false, ByHand);
    var undone := s.allocs + [a.(reversed := true)];
    assert (s.allocs + [a])[|s.allocs| := a.(reversed := true)] == undone;
    SumAppend(OfTx(t), s.allocs, a.(reversed := true));
    SumAppend(OfInvoice(i), s.allocs, a.(reversed := true));
    assert TxOk(s, t) && InvoiceOk(s, i);
  }

  // ---- Allocations are history ----

  /** Only the mark of reversal can differ, and it is never taken back. */
  predicate SameRow(a: Alloc, b: Alloc) {
    b.(reversed := a.reversed) == a && (a.reversed ==> b.reversed)
  }

  ghost predicate HistoryKept(s: State, after: State) {
    |s.allocs| <= |after.allocs| && forall k :: 0 <= k < |s.allocs| ==> SameRow(s.allocs[k], after.allocs[k])
  }

  lemma HistoryTwice(a: State, b: State, c: State)
    requires HistoryKept(a, b) && HistoryKept(b, c)
    ensures HistoryKept(a, c)
  {
    forall k | 0 <= k < |a.allocs| ensures SameRow(a.allocs[k], c.allocs[k]) {
      assert SameRow(a.allocs[k], b.allocs[k]) && SameRow(b.allocs[k], c.allocs[k]);
    }
  }

  lemma {:induction false} MatchAllKeepsHistory(s: State, from: nat, listings: seq<seq<Sighting>>)
    requires MatchAll(s, from, listings).Ok?
    ensures HistoryKept(s, MatchAll(s, from, listings).value)
    decreases |listings|
  {
    if listings != [] {
      var n := |listings| - 1;
      MatchAllKeepsHistory(s, from, listings[..n]);
      HistoryTwice(s, MatchAll(s, from, listings[..n]).value, MatchAll(s, from, listings).value);
    }
  }

  lemma FormKeepsHistory(s: State, i: nat, amount: int)
    requires FormPayment(s, i, amount).Ok?
    ensures HistoryKept(s, FormPayment(s, i, amount).value)
  {
    if FormAlloc(s, i).Some? {
      FormClears(s, i);
      var cleared := Reversed(s, FormAlloc(s, i).value);
      assert HistoryKept(s, cleared);
      HistoryTwice(s, cleared, PayCash(cleared, i, amount));
    }
  }

  lemma StepKeepsHistory(s: State, op: Op)
    ensures HistoryKept(s, Step(s, op))
  {
    if Call(s, op).Ok? {
      match op {
        case ImportOp(rows, listings) => MatchAllKeepsHistory(s.(txs := ImportRows(s.txs, rows)), |s.txs|, listings);
        case FormOp(invoice, amount) => FormKeepsHistory(s, invoice, amount);
        case _ =>
      }
    }
  }

  /** Through any continuation of a run an allocation keeps its transaction, invoice, amount and method, and one
      that was reversed stays reversed and cannot be reversed again. */
  lemma {:induction false} AllocationsAreHistory(ops: seq<Op>, more: seq<Op>, k: nat)
    requires k < |Run(ops).allocs|
    ensures k < |Run(ops + more).allocs| && SameRow(Run(ops).allocs[k], Run(ops + more).allocs[k])
    ensures Run(ops).allocs[k].reversed ==> Reverse(Run(ops + more), k) == Err(AlreadyReversed)
    decreases |more|
  {
    if more == [] {
      assert ops + more == ops;
    } else {
      var mid, last := ops + more[..|more| - 1], more[|more| - 1];
      assert ops + more == mid + [last];
      assert (mid + [last])[..|mid|] == mid;
      AllocationsAreHistory(ops, more[..|more| - 1], k);
      StepKeepsHistory(Run(mid), last);
    }
  }
}
