/** `PaymentService` and its repositories as they run: rows changed in place, the import and summary loops, and
    the rollback of a call that raises. Each method is proved against its call in `Payments`. */
module PaymentService {
  import opened Prelude
  import Matcher
  import opened Payments
  import opened Settlement

  class PaymentService {
    var txs: seq<Tx>
    var allocs: seq<Alloc>
    var invoices: seq<Invoice>

    function Rows(): State
      reads this
    {
      State(txs, allocs, invoices)
    }

    constructor ()
      ensures Rows() == EMPTY
    {
      txs, allocs, invoices := [], [], [];
    }

    method Restore(s: State)
      modifies this
      ensures Rows() == s
    {
      txs, allocs, invoices := s.txs, s.allocs, s.invoices;
    }

    // ---- Internal helpers ----

    method UpdateMatchStatus(t: nat, status: MatchStatus, remaining: int)
      requires t < |txs|
      modifies this`txs
      ensures txs == old(txs)[t := old(txs)[t].(status := status, remaining := remaining)]
    {
      txs := txs[t := txs[t].(status := status)];
      txs := txs[t := txs[t].(remaining := remaining)];
    }

    method RefreshInvoicePaymentStatus(i: nat)
      requires i < |invoices|
      modifies this`invoices
      ensures invoices == RefreshInvoice(old(invoices), allocs, i)
    {
      var gross, paid := invoices[i].gross, PaidTo(allocs, i);
      var status;
      if gross <= 0 {
        status := Unpaid;
      } else if paid >= gross {
        status := Paid;
      } else if paid > 0 {
        status := PartiallyPaid;
      } else {
        status := Unpaid;
      }
      invoices := invoices[i := invoices[i].(status := status)];
    }

    method RefreshRows(t: nat, i: nat)
      modifies this`txs, this`invoices
      ensures Rows() == Refresh(old(Rows()), t, i)
    {
      if t < |txs| {
        var remaining := txs[t].amount - AllocatedFrom(allocs, t);
        UpdateMatchStatus(t, MatchStatusOf(txs[t].amount, remaining), remaining);
      }
      if i < |invoices| {
        RefreshInvoicePaymentStatus(i);
      }
    }

    method DoAllocate(t: nat, i: nat, amount: int, how: Method)
      modifies this
      ensures Rows() == Allocate(old(Rows()), t, i, amount, how)
    {
      allocs := allocs + [Alloc(t, i, amount, false, how)];
      RefreshRows(t, i);
    }

    // ---- Matching and import ----

    method RunMatching(t: nat, listing: seq<Sighting>) returns (r: Result<Matcher.Decision, Error>)
      modifies this
      ensures match Match(old(Rows()), t, listing)
              case Ok(done) => r == Ok(done.1) && Rows() == done.0
              case Err(e) => r == Err(e) && Rows() == old(Rows())
    {
      if t >= |txs| {
        return Err(NotFound);
      }
      if !Lists(invoices, listing) {
        return Err(BadAnswer);
      }
      var offered := Offered(invoices, listing);
      Matcher.DecisionIsBest(txs[t].amount, offered);
      var best := Matcher.BestAuto(txs[t].amount, offered);
      if best.Some? {
        DoAllocate(t, listing[best.value].invoice, txs[t].remaining, AutoMatch);
        return Ok(Matcher.Auto(best.value));
      }
      var candidates := Matcher.FindCandidates(txs[t].amount, offered);
      if candidates != [] {
        UpdateMatchStatus(t, ManualReview, txs[t].remaining);
        return Ok(Matcher.Review);
      }
      return Ok(Matcher.NoMatch);
    }

    /** New rows only: a known reference or an unreadable amount is skipped, a fatal row raises. */
    method ImportNewRows(rows: seq<Row>) returns (ok: bool)
      modifies this`txs
      ensures ok <==> !RowsRaise(old(txs), rows)
      ensures ok ==> txs == ImportRows(old(txs), rows)
    {
      ghost var before := txs;
      for k := 0 to |rows|
        invariant txs == ImportRows(before, rows[..k]) && !RowsRaise(before, rows[..k])
      {
        assert rows[..k + 1][..k] == rows[..k];
        var row := rows[k];
        if row.external.Some? && ByExternal(txs, row.external.value).Some? {
          continue;
        }
        if row.amount.None? {
          continue;
        }
        if row.fatal {
          RaisedStays(before, rows, k + 1);
          return false;
        }
        txs := txs + [Tx(row.external, row.amount.value, row.amount.value, Unmatched)];
      }
      assert rows[..|rows|] == rows;
      return true;
    }

    method MatchImported(from: nat, listings: seq<seq<Sighting>>) returns (r: Result<(), Error>)
      modifies this
      ensures match MatchAll(old(Rows()), from, listings)
              case Ok(s) => r.Ok? && Rows() == s
              case Err(e) => r == Err(e)
    {
      ghost var added := Rows();
      for k := 0 to |listings|
        invariant MatchAll(added, from, listings[..k]) == Ok(Rows())
      {
        MatchAllStep(added, from, listings, k);
        var m := RunMatching(from + k, listings[k]);
        if m.Err? {
          FailureStays(added, from, listings, k + 1, m.error);
          return Err(m.error);
        }
      }
      assert listings[..|listings|] == listings;
      return Ok(());
    }

    method ImportCsv(rows: seq<Row>, listings: seq<seq<Sighting>>) returns (r: Result<nat, Error>)
      modifies this
      ensures match Import(old(Rows()), rows, listings)
              case Ok(s) => r == Ok(|s.txs| - |old(txs)|) && Rows() == s
              case Err(e) => r == Err(e) && Rows() == old(Rows())
    {
      var before := Rows();
      var ok := ImportNewRows(rows);
      if !ok {
        Restore(before);
        return Err(BadRow);
      }
      var imported: nat := |txs| - |before.txs|;
      if |listings| != imported {
        Restore(before);
        return Err(BadAnswer);
      }
      ghost var added := Rows();
      var done := MatchImported(|before.txs|, listings);
      if done.Err? {
        Restore(before);
        return Err(done.error);
      }
      MatchAllKeepsLength(added, |before.txs|, listings);
      return Ok(imported);
    }

    // ---- Manual allocation, reversal, form payment ----

    method AllocateByHand(t: nat, i: nat, amount: int) returns (r: Result<(), Error>)
      modifies this
      ensures match AllocateManual(old(Rows()), t, i, amount)
              case Ok(s) => r.Ok? && Rows() == s
              case Err(e) => r == Err(e) && Rows() == old(Rows())
    {
      if t >= |txs| {
        return Err(NotFound);
      }
      if i >= |invoices| {
        return Err(NotFound);
      }
      if amount > txs[t].remaining {
        return Err(TooMuch);
      }
      if amount <= 0 {
        return Err(NotPositive);
      }
      DoAllocate(t, i, amount, ByHand);
      return Ok(());
    }

    method ReverseAllocation(a: nat) returns (r: Result<(), Error>)
      modifies this
      ensures match Reverse(old(Rows()), a)
              case Ok(s) => r.Ok? && Rows() == s
              case Err(e) => r == Err(e) && Rows() == old(Rows())
    {
      if a >= |allocs| {
        return Err(NotFound);
      }
      if allocs[a].reversed {
        return Err(AlreadyReversed);
      }
      allocs := allocs[a := allocs[a].(reversed := true)];
      RefreshRows(allocs[a].tx, allocs[a].invoice);
      return Ok(());
    }

    method PayFromForm(i: nat, amount: int)
      modifies this
      ensures Rows() == PayCash(old(Rows()), i, amount)
    {
      ByExternalFinds(txs, CashFor(i));
      var cash := ByExternal(txs, CashFor(i));
      if cash.None? {
        txs := txs + [Tx(Some(CashFor(i)), amount, amount, Unmatched)];
        DoAllocate(|txs| - 1, i, amount, Cash);
      } else {
        txs := txs[cash.value := txs[cash.value].(amount := amount)];
        txs := txs[cash.value := txs[cash.value].(remaining := amount)];
        txs := txs[cash.value := txs[cash.value].(status := Unmatched)];
        DoAllocate(cash.value, i, amount, Cash);
      }
    }

    method SetInvoiceFormPayment(i: nat, amount: int) returns (r: Result<(), Error>)
      modifies this
      ensures match FormPayment(old(Rows()), i, amount)
              case Ok(s) => r.Ok? && Rows() == s
              case Err(e) => r == Err(e) && Rows() == old(Rows())
    {
      if i >= |invoices| {
        return Err(NotFound);
      }
      if invoices[i].direction != Sale {
        return Err(NotForPurchase);
      }
      FormAllocFinds(Rows(), i);
      var form := FormAlloc(Rows(), i);
      var current := if form.Some? then allocs[form.value].amount else 0;
      var other := PaidTo(allocs, i) - current;
      if amount > invoices[i].gross - other {
        return Err(TooMuch);
      }
      if amount <= 0 {
        if form.Some? {
          r := ReverseAllocation(form.value);
          return r;
        }
        return Ok(());
      }
      if form.Some? && current == amount {
        return Ok(());
      }
      if form.Some? {
        r := ReverseAllocation(form.value);
      }
      PayFromForm(i, amount);
      return Ok(());
    }

    // ---- Settlement summary ----

    /** `rows` is what the query of open invoices answers. */
    method GetSettlementSummary(filter: Filter, rows: seq<nat>) returns (debtors: seq<Entry>, creditors: seq<Entry>)
      requires forall k :: 0 <= k < |rows| ==> Selected(invoices, filter, rows[k])
      ensures forall k :: 0 <= k < |rows| ==> rows[k] < |Rows().invoices|
      ensures debtors == Entries(Rows(), rows, Sale)
      ensures creditors == Entries(Rows(), rows, Purchase)
      ensures forall e :: e in debtors + creditors ==> SaysOf(Rows(), e)
    {
      assert forall k :: 0 <= k < |rows| ==> rows[k] < |invoices|;
      debtors, creditors := [], [];
      for k := 0 to |rows|
        invariant debtors == Entries(Rows(), rows[..k], Sale)
        invariant creditors == Entries(Rows(), rows[..k], Purchase)
        invariant forall e :: e in debtors + creditors ==> SaysOf(Rows(), e)
      {
        assert rows[..k + 1][..k] == rows[..k];
        var entry := EntryOf(Rows(), rows[k]);
        if entry.remaining <= 0 {
          continue;
        }
        if invoices[rows[k]].direction == Sale {
          debtors := debtors + [entry];
        } else {
          creditors := creditors + [entry];
        }
      }
      assert rows[..|rows|] == rows;
    }
  }

  /** Once a row raised, the import has. */
  lemma {:induction false} RaisedStays(txs: seq<Tx>, rows: seq<Row>, k: nat)
    requires k <= |rows| && RowsRaise(txs, rows[..k])
    ensures RowsRaise(txs, rows)
    decreases |rows|
  {
    if k == |rows| {
      assert rows[..k] == rows;
    } else {
      assert rows[..|rows| - 1][..k] == rows[..k];
      RaisedStays(txs, rows[..|rows| - 1], k);
    }
  }

  lemma MatchAllStep(s: State, from: nat, listings: seq<seq<Sighting>>, k: nat)
    requires k < |listings| && MatchAll(s, from, listings[..k]).Ok?
    ensures MatchAll(s, from, listings[..k + 1]) ==
            var m := Match(MatchAll(s, from, listings[..k]).value, from + k, listings[k]);
            if m.Ok? then Ok(m.value.0) else Err(m.error)
  {
    assert listings[..k + 1][..k] == listings[..k];
  }

  /** Once one matching run fails, the import has failed. */
  lemma {:induction false} FailureStays(s: State, from: nat, listings: seq<seq<Sighting>>, k: nat, e: Error)
    requires k <= |listings| && MatchAll(s, from, listings[..k]) == Err(e)
    ensures MatchAll(s, from, listings) == Err(e)
    decreases |listings|
  {
    if k == |listings| {
      assert listings[..k] == listings;
    } else {
      assert listings[..|listings| - 1][..k] == listings[..k];
      FailureStays(s, from, listings[..|listings| - 1], k, e);
    }
  }

  lemma {:induction false} MatchAllKeepsLength(s: State, from: nat, listings: seq<seq<Sighting>>)
    requires MatchAll(s, from, listings).Ok?
    ensures |MatchAll(s, from, listings).value.txs| == |s.txs|
    decreases |listings|
  {
    if listings != [] {
      MatchAllKeepsLength(s, from, listings[..|listings| - 1]);
    }
  }
}
