/** The settlement read model: open invoices found by their cached payment status, then by what is left to pay. */
module Settlement {
  import opened Prelude
  import opened Payments
  import opened PaymentLedger

  /** The requested side, and perhaps one month of issue. */
  datatype Filter = Filter(side: Option<Direction>, month: Option<nat>)

  datatype Entry = Entry(invoice: nat, gross: int, paid: int, remaining: int)

  predicate Within(filter: Filter, inv: Invoice) {
    && (filter.side.Some? ==> inv.direction == filter.side.value)
    && (filter.month.Some? ==> inv.month == filter.month.value)
  }

  /** The WHERE clause: the cached status, the side and the month. */
  predicate Selected(invoices: seq<Invoice>, filter: Filter, i: nat) {
    i < |invoices| && (invoices[i].status == Unpaid || invoices[i].status == PartiallyPaid)
        && Within(filter, invoices[i])
  }

  /** The rows the query answers with, each invoice once, in some order. */
  ghost predicate IsListing(invoices: seq<Invoice>, filter: Filter, rows: seq<nat>) {
    && (forall i: nat :: i in rows <==> Selected(invoices, filter, i))
    && (forall j, k :: 0 <= j < k < |rows| ==> rows[j] != rows[k])
  }

  function EntryOf(s: State, i: nat): Entry
    requires i < |s.invoices|
  {
    var paid := PaidTo(s.allocs, i);
    Entry(i, s.invoices[i].gross, paid, s.invoices[i].gross - paid)
  }

  /** One side of the summary. */
  function Entries(s: State, rows: seq<nat>, side: Direction): seq<Entry>
    requires forall k :: 0 <= k < |rows| ==> rows[k] < |s.invoices|
  {
    if rows == [] then []
    else
      var i := rows[|rows| - 1];
      var init := Entries(s, rows[..|rows| - 1], side);
      if EntryOf(s, i).remaining > 0 && s.invoices[i].direction == side then init + [EntryOf(s, i)] else init
  }

  predicate Appears(s: State, rows: seq<nat>, side: Direction, e: Entry) {
    && e.invoice in rows && e.invoice < |s.invoices| && s.invoices[e.invoice].direction == side
    && e == EntryOf(s, e.invoice) && e.remaining > 0
  }

  lemma {:induction false} EntriesFollowRows(s: State, rows: seq<nat>, side: Direction)
    requires forall k :: 0 <= k < |rows| ==> rows[k] < |s.invoices|
    requires forall j, k :: 0 <= j < k < |rows| ==> rows[j] != rows[k]
    ensures var es := Entries(s, rows, side);
            && (forall e :: e in es <==> Appears(s, rows, side, e))
            && (forall j, k :: 0 <= j < k < |es| ==> es[j].invoice != es[k].invoice)
  {
    if rows != [] {
      var init, last := rows[..|rows| - 1], rows[|rows| - 1];
      EntriesFollowRows(s, init, side);
      assert rows == init + [last];
      forall e: Entry ensures e in Entries(s, rows, side) <==> Appears(s, rows, side, e) {
        assert e in Entries(s, init, side) <==> Appears(s, init, side, e);
      }
      var es := Entries(s, init, side);
      forall j | 0 <= j < |es| ensures es[j].invoice != last {
        assert es[j] in es;
      }
    }
  }

  /** One row is listed before another. */
  ghost predicate Before(rows: seq<nat>, i: nat, j: nat) {
    exists a, b :: 0 <= a < b < |rows| && rows[a] == i && rows[b] == j
  }

  /** The entries come in the order of the rows. */
  ghost predicate InOrder(rows: seq<nat>, es: seq<Entry>) {
    forall j, k :: 0 <= j < k < |es| ==> Before(rows, es[j].invoice, es[k].invoice)
  }

  lemma BeforeStays(rows: seq<nat>, last: nat, i: nat, j: nat)
    requires Before(rows, i, j)
    ensures Before(rows + [last], i, j)
  {
    var a, b :| 0 <= a < b < |rows| && rows[a] == i && rows[b] == j;
    assert (rows + [last])[a] == i && (rows + [last])[b] == j;
  }

  lemma LastIsBehind(rows: seq<nat>, last: nat, i: nat)
    requires i in rows
    ensures Before(rows + [last], i, last)
  {
    var a :| 0 <= a < |rows| && rows[a] == i;
    assert (rows + [last])[a] == i && (rows + [last])[|rows|] == last;
  }

  lemma {:induction false} EntriesInOrder(s: State, rows: seq<nat>, side: Direction)
    requires forall k :: 0 <= k < |rows| ==> rows[k] < |s.invoices|
    ensures InOrder(rows, Entries(s, rows, side))
    ensures forall e :: e in Entries(s, rows, side) ==> e.invoice in rows
  {
    if rows != [] {
      var init, last := rows[..|rows| - 1], rows[|rows| - 1];
      var before, es := Entries(s, init, side), Entries(s, rows, side);
      EntriesInOrder(s, init, side);
      assert rows == init + [last];
      forall j, k | 0 <= j < k < |es| ensures Before(rows, es[j].invoice, es[k].invoice) {
        if k < |before| {
          BeforeStays(init, last, es[j].invoice, es[k].invoice);
        } else {
          assert before[j] in before;
          LastIsBehind(init, last, es[j].invoice);
        }
      }
    }
  }

  /** The invoice's own amounts: its gross, what its active allocations pay, and a positive difference. */
  predicate SaysOf(s: State, e: Entry) {
    && e.invoice < |s.invoices|
    && e.gross == s.invoices[e.invoice].gross && e.paid == PaidTo(s.allocs, e.invoice)
    && e.remaining == e.gross - e.paid && e.remaining > 0
  }

  /** The invoice is of the side, in the month asked for if one is, and paid less than its gross. */
  predicate IsOpen(s: State, filter: Filter, side: Direction, i: nat) {
    && i < |s.invoices| && s.invoices[i].direction == side
    && (match filter.month case None => true case Some(month) => s.invoices[i].month == month)
    && PaidTo(s.allocs, i) < s.invoices[i].gross
  }

  /** The summary loses nothing and invents nothing: after any run, for any gross amounts, a side lists, once
      each and in the order of the query, exactly the invoices of that side and month whose gross exceeds their
      active allocations, with that gross, what is paid and what remains, although the query only looked at the cached
      status. */
  lemma SummaryIsExact(ops: seq<Op>, filter: Filter, rows: seq<nat>, side: Direction)
    requires IsListing(Run(ops).invoices, filter, rows)
    requires filter.side.Some? ==> filter.side.value == side
    ensures forall k :: 0 <= k < |rows| ==> rows[k] < |Run(ops).invoices|
    ensures var s := Run(ops); var es := Entries(s, rows, side);
            && (forall j, k :: 0 <= j < k < |es| ==> es[j].invoice != es[k].invoice)
            && InOrder(rows, es)
            && (forall e :: e in es ==> SaysOf(s, e))
            && (forall i: nat :: (exists e :: e in es && e.invoice == i) <==> IsOpen(s, filter, side, i))
  {
    var s := Run(ops);
    forall k | 0 <= k < |rows| ensures rows[k] < |s.invoices| {
      assert rows[k] in rows && Selected(s.invoices, filter, rows[k]);
    }
    var es := Entries(s, rows, side);
    Reachable(ops);
    EntriesFollowRows(s, rows, side);
    EntriesInOrder(s, rows, side);
    forall i: nat ensures (exists e :: e in es && e.invoice == i) <==> IsOpen(s, filter, side, i) {
      OpenIsListed(s, filter, rows, side, i);
    }
  }

  lemma OpenIsListed(s: State, filter: Filter, rows: seq<nat>, side: Direction, i: nat)
    requires LedgerOk(s) && IsListing(s.invoices, filter, rows) && (filter.side.Some? ==> filter.side.value == side)
    requires forall k :: 0 <= k < |rows| ==> rows[k] < |s.invoices|
    requires forall e :: e in Entries(s, rows, side) <==> Appears(s, rows, side, e)
    ensures (exists e :: e in Entries(s, rows, side) && e.invoice == i) <==> IsOpen(s, filter, side, i)
  {
    if i < |s.invoices| {
      assert InvoiceOk(s, i);
      assert i in rows <==> Selected(s.invoices, filter, i);
      assert EntryOf(s, i) in Entries(s, rows, side) <==> Appears(s, rows, side, EntryOf(s, i));
    }
  }
}
