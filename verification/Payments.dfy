/** The payment ledger on values: bank transactions, reversible allocations, and three cached values. Amounts
    are whole cents. Rows are never deleted: the index is the id, and the newest row is the last. */
module Payments {
  import opened Prelude
  import Matcher

  /** The deduplication key of a transaction: the bank's reference, or the one reserved for an invoice's form
      payment. */
  datatype ExternalId = BankRef(reference: string) | CashFor(invoice: nat)

  datatype MatchStatus = Unmatched | Partial | Matched | ManualReview

  datatype PaymentStatus = Unpaid | PartiallyPaid | Paid

  datatype Direction = Sale | Purchase

  datatype Method = AutoMatch | ByHand | Cash

  datatype Tx = Tx(external: Option<ExternalId>, amount: int, remaining: int, status: MatchStatus)

  datatype Alloc = Alloc(tx: nat, invoice: nat, amount: int, reversed: bool, how: Method)

  /** The gross amount of an invoice does not change in the runs modelled here. */
  datatype Invoice = Invoice(direction: Direction, month: nat, gross: int, status: PaymentStatus)

  datatype State = State(txs: seq<Tx>, allocs: seq<Alloc>, invoices: seq<Invoice>)

  datatype Error = NotFound | AlreadyReversed | NotForPurchase | TooMuch | NotPositive | BadRow | BadAnswer

  const EMPTY := State([], [], [])

  // ---- Sums over active allocations ----

  function OfTx(t: nat): Alloc -> int {
    (a: Alloc) => if a.tx == t && !a.reversed then a.amount else 0
  }

  function OfInvoice(i: nat): Alloc -> int {
    (a: Alloc) => if a.invoice == i && !a.reversed then a.amount else 0
  }

  function AllocatedFrom(allocs: seq<Alloc>, t: nat): int {
    Sum(OfTx(t), allocs)
  }

  function PaidTo(allocs: seq<Alloc>, i: nat): int {
    Sum(OfInvoice(i), allocs)
  }

  // ---- Cached values ----

  function MatchStatusOf(amount: int, remaining: int): MatchStatus {
    if remaining <= 0 then Matched else if remaining < amount then Partial else Unmatched
  }

  function PaymentStatusOf(gross: int, paid: int): PaymentStatus {
    if gross <= 0 then Unpaid
    else if paid >= gross then Paid
    else if paid > 0 then PartiallyPaid
    else Unpaid
  }

  function RefreshTx(txs: seq<Tx>, allocs: seq<Alloc>, t: nat): seq<Tx> {
    if t >= |txs| then txs
    else
      var remaining := txs[t].amount - AllocatedFrom(allocs, t);
      txs[t := txs[t].(remaining := remaining, status := MatchStatusOf(txs[t].amount, remaining))]
  }

  function RefreshInvoice(invoices: seq<Invoice>, allocs: seq<Alloc>, i: nat): seq<Invoice> {
    if i >= |invoices| then invoices
    else invoices[i := invoices[i].(status := PaymentStatusOf(invoices[i].gross, PaidTo(allocs, i)))]
  }

  function Refresh(s: State, t: nat, i: nat): State {
    s.(txs := RefreshTx(s.txs, s.allocs, t), invoices := RefreshInvoice(s.invoices, s.allocs, i))
  }

  function Allocate(s: State, t: nat, i: nat, amount: int, how: Method): State {
    Refresh(s.(allocs := s.allocs + [Alloc(t, i, amount, false, how)]), t, i)
  }

  // ---- Look-ups ----

  function ByExternal(txs: seq<Tx>, id: ExternalId): Option<nat> {
    if txs == [] then None
    else if txs[|txs| - 1].external == Some(id) then Some(|txs| - 1)
    else ByExternal(txs[..|txs| - 1], id)
  }

  /** The newest active allocation from a transaction to an invoice. */
  function NewestActive(allocs: seq<Alloc>, t: nat, i: nat): Option<nat> {
    if allocs == [] then None
    else
      var last := allocs[|allocs| - 1];
      if last.tx == t && last.invoice == i && !last.reversed then Some(|allocs| - 1)
      else NewestActive(allocs[..|allocs| - 1], t, i)
  }

  function FormAlloc(s: State, i: nat): (r: Option<nat>) {
    var cash := ByExternal(s.txs, CashFor(i));
    if cash.None? then None else NewestActive(s.allocs, cash.value, i)
  }

  lemma {:induction false} ByExternalFinds(txs: seq<Tx>, id: ExternalId)
    ensures match ByExternal(txs, id)
            case Some(t) => t < |txs| && txs[t].external == Some(id)
            case None => forall t :: 0 <= t < |txs| ==> txs[t].external != Some(id)
  {
    if txs != [] {
      ByExternalFinds(txs[..|txs| - 1], id);
      assert forall t :: 0 <= t < |txs| - 1 ==> txs[..|txs| - 1][t] == txs[t];
    }
  }

  predicate FromTo(a: Alloc, t: nat, i: nat) {
    a.tx == t && a.invoice == i && !a.reversed
  }

  lemma {:induction false} NewestActiveFinds(allocs: seq<Alloc>, t: nat, i: nat)
    ensures match NewestActive(allocs, t, i)
            case Some(k) =>
              && k < |allocs| && FromTo(allocs[k], t, i)
              && forall j :: k < j < |allocs| ==> !FromTo(allocs[j], t, i)
            case None => forall k :: 0 <= k < |allocs| ==> !FromTo(allocs[k], t, i)
  {
    if allocs != [] {
      NewestActiveFinds(allocs[..|allocs| - 1], t, i);
      assert forall k :: 0 <= k < |allocs| - 1 ==> allocs[..|allocs| - 1][k] == allocs[k];
    }
  }

  lemma FormAllocFinds(s: State, i: nat)
    ensures match FormAlloc(s, i)
            case Some(k) =>
              && k < |s.allocs| && ByExternal(s.txs, CashFor(i)).Some?
              && FromTo(s.allocs[k], ByExternal(s.txs, CashFor(i)).value, i)
            case None =>
              ByExternal(s.txs, CashFor(i)).Some? ==>
                forall k :: 0 <= k < |s.allocs| ==> !FromTo(s.allocs[k], ByExternal(s.txs, CashFor(i)).value, i)
  {
    if ByExternal(s.txs, CashFor(i)).Some? {
      NewestActiveFinds(s.allocs, ByExternal(s.txs, CashFor(i)).value, i);
    }
  }

  // ---- Calls ----

  /** A parsed CSV row. No amount stands for an amount or transaction date that does not parse, which skips the
      row. `fatal` stands for a value date that does not parse, or no transaction date at all: adding such a row
      raises outside the guard. */
  datatype Row = Row(external: Option<ExternalId>, amount: Option<int>, fatal: bool)

  predicate Imports(txs: seq<Tx>, row: Row) {
    row.amount.Some? && (row.external.Some? ==> ByExternal(txs, row.external.value).None?)
  }

  function ImportRows(txs: seq<Tx>, rows: seq<Row>): (r: seq<Tx>)
    ensures |txs| <= |r| <= |txs| + |rows|
  {
    if rows == [] then txs
    else
      var row := rows[|rows| - 1];
      var before := ImportRows(txs, rows[..|rows| - 1]);
      if !Imports(before, row) then before
      else before + [Tx(row.external, row.amount.value, row.amount.value, Unmatched)]
  }

  /** Some row that would be imported raises. */
  predicate RowsRaise(txs: seq<Tx>, rows: seq<Row>) {
    rows != [] &&
    (var (init, last) := (rows[..|rows| - 1], rows[|rows| - 1]);
     RowsRaise(txs, init) || (Imports(ImportRows(txs, init), last) && last.fatal))
  }

  /** One invoice of the listing a matching run reads, with what the texts show about it. */
  datatype Sighting = Sighting(invoice: nat, evidence: Matcher.Evidence)

  predicate Existing(invoices: seq<Invoice>, listing: seq<Sighting>) {
    forall k :: 0 <= k < |listing| ==> listing[k].invoice < |invoices|
  }

  /** `list_all`: the database lists every invoice, each once. */
  predicate Lists(invoices: seq<Invoice>, listing: seq<Sighting>) {
    && |listing| == |invoices| && Existing(invoices, listing)
    && (forall j, k :: 0 <= j < k < |listing| ==> listing[j].invoice != listing[k].invoice)
  }

  function Offered(invoices: seq<Invoice>, listing: seq<Sighting>): (cs: seq<Matcher.Candidate>)
    requires Existing(invoices, listing)
    ensures |cs| == |listing|
    ensures forall k :: 0 <= k < |cs| ==>
              cs[k] == Matcher.Candidate(listing[k].invoice, invoices[listing[k].invoice].gross, listing[k].evidence)
  {
    if listing == [] then []
    else
      var last := listing[|listing| - 1];
      Offered(invoices, listing[..|listing| - 1])
      + [Matcher.Candidate(last.invoice, invoices[last.invoice].gross, last.evidence)]
  }

  function Match(s: State, t: nat, listing: seq<Sighting>): Result<(State, Matcher.Decision), Error> {
    if t >= |s.txs| then Err(NotFound)
    else if !Lists(s.invoices, listing) then Err(BadAnswer)
    else
      var decision := Matcher.Decide(s.txs[t].amount, Offered(s.invoices, listing));
      match decision
      case Auto(row) =>
        if row >= |listing| then Err(BadAnswer)
        else Ok((Allocate(s, t, listing[row].invoice, s.txs[t].remaining, AutoMatch), decision))
      case Review => Ok((s.(txs := s.txs[t := s.txs[t].(status := ManualReview)]), decision))
      case NoMatch => Ok((s, decision))
  }

  /** Matching of a range of transactions, one after the other; any failure rolls the whole import back. */
  function MatchAll(s: State, from: nat, listings: seq<seq<Sighting>>): Result<State, Error>
    decreases |listings|
  {
    if listings == [] then Ok(s)
    else
      var init := MatchAll(s, from, listings[..|listings| - 1]);
      if init.Err? then init
      else
        var m := Match(init.value, from + |listings| - 1, listings[|listings| - 1]);
        if m.Ok? then Ok(m.value.0) else Err(m.error)
  }

  /** `listings` answers the queries of the matching runs, one per imported transaction. */
  function Import(s: State, rows: seq<Row>, listings: seq<seq<Sighting>>): Result<State, Error> {
    var txs := ImportRows(s.txs, rows);
    if RowsRaise(s.txs, rows) then Err(BadRow)
    else if |listings| != |txs| - |s.txs| then Err(BadAnswer)
    else MatchAll(s.(txs := txs), |s.txs|, listings)
  }

  function AllocateManual(s: State, t: nat, i: nat, amount: int): Result<State, Error> {
    if t >= |s.txs| || i >= |s.invoices| then Err(NotFound)
    else if amount > s.txs[t].remaining then Err(TooMuch)
    else if amount <= 0 then Err(NotPositive)
    else Ok(Allocate(s, t, i, amount, ByHand))
  }

  function Reversed(s: State, a: nat): State
    requires a < |s.allocs|
  {
    Refresh(s.(allocs := s.allocs[a := s.allocs[a].(reversed := true)]), s.allocs[a].tx, s.allocs[a].invoice)
  }

  function Reverse(s: State, a: nat): Result<State, Error> {
    if a >= |s.allocs| then Err(NotFound)
    else if s.allocs[a].reversed then Err(AlreadyReversed)
    else Ok(Reversed(s, a))
  }

  /** What the form has paid: `get_invoice_form_payment_amount`. */
  function FormAmount(s: State, i: nat): int {
    var form := FormAlloc(s, i);
    if form.Some? && form.value < |s.allocs| then s.allocs[form.value].amount else 0
  }

  /** Rewrites or creates the invoice's cash transaction, then spends it on the invoice. */
  function PayCash(s: State, i: nat, amount: int): State {
    var cash := ByExternal(s.txs, CashFor(i));
    var row := Tx(Some(CashFor(i)), amount, amount, Unmatched);
    if cash.None? || cash.value >= |s.txs| then Allocate(s.(txs := s.txs + [row]), |s.txs|, i, amount, Cash)
    else Allocate(s.(txs := s.txs[cash.value := row]), cash.value, i, amount, Cash)
  }

  /** What the invoice has been paid by anything but its form. */
  function PaidOtherwise(s: State, i: nat): int {
    PaidTo(s.allocs, i) - FormAmount(s, i)
  }

  function FormPayment(s: State, i: nat, amount: int): Result<State, Error> {
    if i >= |s.invoices| then Err(NotFound)
    else if s.invoices[i].direction != Sale then Err(NotForPurchase)
    else if amount > s.invoices[i].gross - PaidOtherwise(s, i) then Err(TooMuch)
    else
      var form := FormAlloc(s, i);
      if amount <= 0 then (if form.Some? then Reverse(s, form.value) else Ok(s))
      else if form.None? then Ok(PayCash(s, i, amount))
      else if FormAmount(s, i) == amount then Ok(s)
      else
        var cleared := Reverse(s, form.value);
        if cleared.Ok? then Ok(PayCash(cleared.value, i, amount)) else cleared
  }

  // ---- Runs ----

  datatype Op =
    | AddInvoice(direction: Direction, month: nat, gross: int)
    | ImportOp(rows: seq<Row>, listings: seq<seq<Sighting>>)
    | MatchOp(tx: nat, listing: seq<Sighting>)
    | ManualOp(tx: nat, invoice: nat, amount: int)
    | ReverseOp(alloc: nat)
    | FormOp(invoice: nat, amount: int)

  function Call(s: State, op: Op): Result<State, Error> {
    match op
    case AddInvoice(direction, month, gross) =>
      Ok(s.(invoices := s.invoices + [Invoice(direction, month, gross, Unpaid)]))
    case ImportOp(rows, listings) => Import(s, rows, listings)
    case MatchOp(tx, listing) => (var m := Match(s, tx, listing); if m.Ok? then Ok(m.value.0) else Err(m.error))
    case ManualOp(tx, invoice, amount) => AllocateManual(s, tx, invoice, amount)
    case ReverseOp(alloc) => Reverse(s, alloc)
    case FormOp(invoice, amount) => FormPayment(s, invoice, amount)
  }

  /** A call that raises is rolled back. */
  function Step(s: State, op: Op): State {
    var r := Call(s, op);
    if r.Ok? then r.value else s
  }

  function Run(ops: seq<Op>): State {
    if ops == [] then EMPTY else Step(Run(ops[..|ops| - 1]), ops[|ops| - 1])
  }
}
