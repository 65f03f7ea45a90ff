/** What each payment call writes, row by row, and when it is refused. */
module PaymentOutcomes {
  import opened Prelude
  import Matcher
  import opened Payments
  import opened PaymentLedger

  // ---- Cached statuses ----

  predicate TxStatusSays(tx: Tx) {
    match tx.status
    case Matched => tx.remaining <= 0
    case Partial => 0 < tx.remaining < tx.amount
    case Unmatched => tx.remaining >= tx.amount
    case ManualReview => true
  }

  predicate InvoiceStatusSays(gross: int, paid: int, status: PaymentStatus) {
    match status
    case Paid => 0 < gross <= paid
    case PartiallyPaid => 0 < paid < gross
    case Unpaid => gross <= 0 || paid <= 0
  }

  /** In every reachable state, with any amounts: what is left of a transaction is its amount less its active
      allocations, and both statuses say what they should. */
  lemma {:induction false} StatusesSay(ops: seq<Op>)
    ensures var s := Run(ops);
            && (forall t: nat :: t < |s.txs| ==>
                  s.txs[t].remaining == s.txs[t].amount - AllocatedFrom(s.allocs, t) && TxStatusSays(s.txs[t]))
            && (forall i: nat :: i < |s.invoices| ==>
                  InvoiceStatusSays(s.invoices[i].gross, PaidTo(s.allocs, i), s.invoices[i].status))
  {
    var s := Run(ops);
    Reachable(ops);
    forall t: nat | t < |s.txs|
      ensures s.txs[t].remaining == s.txs[t].amount - AllocatedFrom(s.allocs, t) && TxStatusSays(s.txs[t])
    {
      assert TxOk(s, t);
    }
    forall i: nat | i < |s.invoices|
      ensures InvoiceStatusSays(s.invoices[i].gross, PaidTo(s.allocs, i), s.invoices[i].status)
    {
      assert InvoiceOk(s, i);
    }
  }

  // ---- Allocations ----

  /** The rows other than transaction `t` and invoice `i`, and everything but the cached values of these two, are as
      they were. */
  ghost predicate Touches(s: State, s': State, t: nat, i: nat) {
    && |s'.txs| == |s.txs| && |s'.invoices| == |s.invoices|
    && (forall u: nat :: u < |s.txs| && u != t ==> s'.txs[u] == s.txs[u])
    && (t < |s.txs| ==> s'.txs[t].external == s.txs[t].external && s'.txs[t].amount == s.txs[t].amount)
    && (forall j: nat :: j < |s.invoices| && j != i ==> s'.invoices[j] == s.invoices[j])
    && (i < |s.invoices| ==> s'.invoices[i].(status := s.invoices[i].status) == s.invoices[i])
  }

  /** `amount` is taken from transaction `t` for invoice `i`: one active allocation more, so much less left. */
  ghost predicate Taken(s: State, s': State, t: nat, i: nat, amount: int, how: Method) {
    && Touches(s, s', t, i) && t < |s.txs|
    && s'.allocs == s.allocs + [Alloc(t, i, amount, false, how)]
    && s'.txs[t].remaining == s.txs[t].remaining - amount && TxStatusSays(s'.txs[t]) && s'.txs[t].status != ManualReview
  }

  lemma AllocateTakes(s: State, t: nat, i: nat, amount: int, how: Method)
    requires LedgerOk(s) && t < |s.txs|
    ensures Taken(s, Allocate(s, t, i, amount, how), t, i, amount, how)
  {
    assert TxOk(s, t);
    SumAppend(OfTx(t), s.allocs, Alloc(t, i, amount, false, how));
  }

  /** In every reachable state a manual allocation of an existing transaction to an existing invoice is accepted
      exactly for a positive amount that is left, and takes it. */
  lemma {:induction false} ManualOutcome(ops: seq<Op>, t: nat, i: nat, amount: int)
    ensures var s := Run(ops); var r := AllocateManual(s, t, i, amount);
            && (r.Ok? <==> t < |s.txs| && i < |s.invoices| && 0 < amount <= s.txs[t].remaining)
            && (r.Ok? ==> Taken(s, r.value, t, i, amount, ByHand))
            && (t >= |s.txs| || i >= |s.invoices| ==> r == Err(NotFound))
            && (t < |s.txs| && i < |s.invoices| && amount > s.txs[t].remaining ==> r == Err(TooMuch))
            && (t < |s.txs| && i < |s.invoices| && amount <= s.txs[t].remaining && amount <= 0 ==>
                  r == Err(NotPositive))
  {
    Reachable(ops);
    if t < |Run(ops).txs| {
      AllocateTakes(Run(ops), t, i, amount, ByHand);
    }
  }

  /** In every reachable state a matching run that picks an invoice takes all that is left of the transaction for it;
      one that asks for a review only marks the transaction; one that finds nothing changes nothing. */
  lemma {:induction false} MatchOutcome(ops: seq<Op>, t: nat, listing: seq<Sighting>)
    requires t < |Run(ops).txs| && Lists(Run(ops).invoices, listing)
    ensures var s := Run(ops); var r := Match(s, t, listing);
            && r.Ok?
            && (r.value.1.Auto? ==>
                  && r.value.1.row < |listing|
                  && Taken(s, r.value.0, t, listing[r.value.1.row].invoice, s.txs[t].remaining, AutoMatch)
                  && r.value.0.txs[t].remaining == 0 && r.value.0.txs[t].status == Matched)
            && (r.value.1.Review? ==> r.value.0 == s.(txs := s.txs[t := s.txs[t].(status := ManualReview)]))
            && (r.value.1.NoMatch? ==> r.value.0 == s)
  {
    var s := Run(ops);
    Reachable(ops);
    MatchDecides(s, t, listing);
    match Match(s, t, listing).value.1
    case Auto(row) => AllocateTakes(s, t, listing[row].invoice, s.txs[t].remaining, AutoMatch);
    case _ =>
  }

  lemma MatchDecides(s: State, t: nat, listing: seq<Sighting>)
    requires t < |s.txs| && Lists(s.invoices, listing)
    ensures var d := Matcher.Decide(s.txs[t].amount, Offered(s.invoices, listing)); var r := Match(s, t, listing);
            && r.Ok? && r.value.1 == d && (d.Auto? ==> d.row < |listing|)
  {
    var offered := Offered(s.invoices, listing);
    Matcher.DecisionIsBest(s.txs[t].amount, offered);
    var d := Matcher.Decide(s.txs[t].amount, offered);
    if d.Auto? {
      assert Matcher.Wins(s.txs[t].amount, offered, d.row);
    }
  }

  /** The matching run scores every invoice of the listing by its own gross against the amount of the transaction, and
      picks the winner. */
  lemma MatchPicksWinner(s: State, t: nat, listing: seq<Sighting>)
    requires t < |s.txs| && Lists(s.invoices, listing)
    ensures var offered := Offered(s.invoices, listing); var r := Match(s, t, listing);
            && r.Ok? && |offered| == |listing|
            && (forall k :: 0 <= k < |offered| ==>
                  && offered[k].invoice == listing[k].invoice && offered[k].evidence == listing[k].evidence
                  && offered[k].gross == s.invoices[listing[k].invoice].gross)
            && (forall row: nat :: r.value.1 == Matcher.Auto(row) <==> Matcher.Wins(s.txs[t].amount, offered, row))
  {
    var offered := Offered(s.invoices, listing);
    MatchDecides(s, t, listing);
    Matcher.DecisionIsBest(s.txs[t].amount, offered);
    forall k | 0 <= k < |offered|
      ensures offered[k].invoice == listing[k].invoice && offered[k].evidence == listing[k].evidence
      ensures offered[k].gross == s.invoices[listing[k].invoice].gross
    {
    }
  }

  function IdsListed(listing: seq<Sighting>): set<nat> {
    set k | 0 <= k < |listing| :: listing[k].invoice
  }

  lemma {:induction false} IdsCounted(listing: seq<Sighting>)
    requires forall j, k :: 0 <= j < k < |listing| ==> listing[j].invoice != listing[k].invoice
    ensures |IdsListed(listing)| == |listing|
  {
    if listing != [] {
      var n := |listing| - 1;
      IdsCounted(listing[..n]);
      assert IdsListed(listing) == IdsListed(listing[..n]) + {listing[n].invoice};
    }
  }

  function IdsBelow(n: nat): set<nat> {
    if n == 0 then {} else IdsBelow(n - 1) + {n - 1}
  }

  lemma {:induction false} NumbersCounted(n: nat, i: nat)
    ensures |IdsBelow(n)| == n && (i in IdsBelow(n) <==> i < n)
  {
    if n > 0 {
      NumbersCounted(n - 1, n - 1);
      NumbersCounted(n - 1, i);
    }
  }

  lemma SubsetOfSameSize(a: set<nat>, b: set<nat>)
    requires a <= b && |a| == |b|
    ensures a == b
  {
    assert |b - a| == |b| - |a|;
    assert b == a + (b - a);
  }

  /** A listing of all invoices names each of them, at one place. */
  lemma ListsAll(invoices: seq<Invoice>, listing: seq<Sighting>, i: nat)
    requires Lists(invoices, listing) && i < |invoices|
    ensures exists k :: 0 <= k < |listing| && listing[k].invoice == i
    ensures forall j, k :: 0 <= j < k < |listing| ==> listing[j].invoice != listing[k].invoice
  {
    IdsCounted(listing);
    forall id | id in IdsListed(listing) ensures id in IdsBelow(|invoices|) {
      NumbersCounted(|invoices|, id);
    }
    NumbersCounted(|invoices|, i);
    SubsetOfSameSize(IdsListed(listing), IdsBelow(|invoices|));
    assert i in IdsListed(listing);
  }

  // ---- Reversals ----

  /** In every reachable state a reversal is accepted exactly for an allocation that is not reversed; it marks the
      allocation, and its amount is left again. */
  lemma {:induction false} ReverseOutcome(ops: seq<Op>, a: nat)
    ensures var s := Run(ops); var r := Reverse(s, a);
            && (a >= |s.allocs| ==> r == Err(NotFound))
            && (a < |s.allocs| && s.allocs[a].reversed ==> r == Err(AlreadyReversed))
            && (a < |s.allocs| && !s.allocs[a].reversed ==> r.Ok? && GivenBack(s, r.value, a))
  {
    Reachable(ops);
    if a < |Run(ops).allocs| && !Run(ops).allocs[a].reversed {
      ReversedGivesBack(Run(ops), a);
    }
  }

  ghost predicate GivenBack(s: State, s': State, a: nat)
    requires a < |s.allocs|
  {
    var row := s.allocs[a];
    && Touches(s, s', row.tx, row.invoice) && row.tx < |s.txs|
    && s'.allocs == s.allocs[a := row.(reversed := true)]
    && s'.txs[row.tx].remaining == s.txs[row.tx].remaining + row.amount
    && TxStatusSays(s'.txs[row.tx]) && s'.txs[row.tx].status != ManualReview
  }

  lemma ReversedGivesBack(s: State, a: nat)
    requires LedgerOk(s) && a < |s.allocs| && !s.allocs[a].reversed
    ensures GivenBack(s, Reversed(s, a), a)
  {
    var row := s.allocs[a];
    assert TxOk(s, row.tx);
    SumUpdate(OfTx(row.tx), s.allocs, a, row.(reversed := true));
  }

  // ---- Import ----

  ghost predicate KnownReference(txs: seq<Tx>, external: Option<ExternalId>) {
    external != None && exists t: nat :: t < |txs| && txs[t].external == external
  }

  /** Each row in turn: an unreadable amount or a known reference is skipped; any other row adds one transaction of its
      amount, all of it left and unmatched. */
  lemma ImportOneRow(txs: seq<Tx>, rows: seq<Row>, row: Row)
    ensures ImportRows(txs, []) == txs
    ensures var before := ImportRows(txs, rows);
            ImportRows(txs, rows + [row]) ==
            match row.amount
            case None => before
            case Some(amount) =>
              if KnownReference(before, row.external) then before
              else before + [Tx(row.external, amount, amount, Unmatched)]
  {
    var before := ImportRows(txs, rows);
    assert (rows + [row])[..|rows|] == rows;
    if row.external.Some? {
      ByExternalFinds(before, row.external.value);
      if ByExternal(before, row.external.value).Some? {
        assert before[ByExternal(before, row.external.value).value].external == row.external;
      }
    }
  }

  /** An import raises exactly when a row that would be added does. */
  lemma ImportRaisesAt(txs: seq<Tx>, rows: seq<Row>, row: Row)
    ensures !RowsRaise(txs, [])
    ensures RowsRaise(txs, rows + [row]) <==>
            || RowsRaise(txs, rows)
            || (row.fatal && row.amount != None && !KnownReference(ImportRows(txs, rows), row.external))
  {
    assert (rows + [row])[..|rows|] == rows;
    ImportOneRow(txs, rows, row);
    if row.external.Some? {
      ByExternalFinds(ImportRows(txs, rows), row.external.value);
    }
  }

  /** An import that raises, or whose matching runs do not answer for each new transaction, is refused as a whole. */
  lemma ImportOutcome(s: State, rows: seq<Row>, listings: seq<seq<Sighting>>)
    ensures RowsRaise(s.txs, rows) ==> Import(s, rows, listings) == Err(BadRow)
    ensures !RowsRaise(s.txs, rows) && |listings| != |ImportRows(s.txs, rows)| - |s.txs| ==>
              Import(s, rows, listings) == Err(BadAnswer)
    ensures !RowsRaise(s.txs, rows) && |listings| == |ImportRows(s.txs, rows)| - |s.txs| ==>
              Import(s, rows, listings) == MatchAll(s.(txs := ImportRows(s.txs, rows)), |s.txs|, listings)
  {
  }

  // ---- Form payments ----

  /** Why a form payment is refused: no such invoice, a purchase, or more than the other payments leave of the gross. */
  lemma FormRefused(s: State, i: nat, amount: int)
    ensures i >= |s.invoices| ==> FormPayment(s, i, amount) == Err(NotFound)
    ensures i < |s.invoices| && s.invoices[i].direction == Purchase ==> FormPayment(s, i, amount) == Err(NotForPurchase)
    ensures i < |s.invoices| && s.invoices[i].direction == Sale && amount > s.invoices[i].gross - PaidOtherwise(s, i)
            ==> FormPayment(s, i, amount) == Err(TooMuch)
  {
  }

  // ---- New invoices ----

  /** A new invoice is unpaid, and nothing else changes. */
  lemma InvoiceAdded(s: State, direction: Direction, month: nat, gross: int)
    ensures Step(s, AddInvoice(direction, month, gross)) ==
            State(s.txs, s.allocs, s.invoices + [Invoice(direction, month, gross, Unpaid)])
  {
  }
}
