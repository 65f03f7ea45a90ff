/** What the invariant gives over every run of the transmission protocol for a sale, and over every gentle run for
    a purchase, and a run that shows what a purchase loses otherwise. */
module TransmissionSafety {
  import opened Prelude
  import opened Transmission
  import opened TransmissionInvariants

  predicate SaleInvoice(s: State, i: nat) {
    i < |s.invoices| && s.invoices[i].direction == Sale
  }

  /** The invoice is a sale, or no accepted manual retry of the run hit a transmission waiting for its automatic one. */
  ghost predicate Guarded(ops: seq<Op>, i: nat) {
    i < |Run(ops).invoices| && (Run(ops).invoices[i].direction == Sale || GentleRun(ops))
  }

  lemma GuardedState(ops: seq<Op>, i: nat) returns (scope: Scope)
    requires Guarded(ops, i)
    ensures Inv(Run(ops), scope) && Covers(scope, Run(ops).invoices[i].direction)
  {
    scope := if Run(ops).invoices[i].direction == Sale then Sales else Everyone;
    Reachable(ops, scope);
  }

  // ---- One transmission at a time ----

  lemma ActiveIsLive(s: State, i: nat, k: nat)
    requires k < |ActiveRows(s.txs, i)|
    ensures LiveFor(s, ActiveRows(s.txs, i)[k], i)
    ensures k > 0 ==> ActiveRows(s.txs, i)[k - 1] < ActiveRows(s.txs, i)[k]
  {
    ActiveRowsAre(s.txs, i);
    assert ActiveRows(s.txs, i)[k] in ActiveRows(s.txs, i);
  }

  lemma LiveIsSending(s: State, t: nat, i: nat, scope: Scope)
    requires Inv(s, scope) && i < |s.invoices| && Covers(scope, s.invoices[i].direction) && LiveFor(s, t, i)
    ensures s.invoices[i].status == Sending
  {
    assert InScope(s, t, scope) && TxMatches(s, t);
  }

  lemma LiveIsUnique(s: State, t: nat, u: nat, i: nat, scope: Scope)
    requires Inv(s, scope) && i < |s.invoices| && Covers(scope, s.invoices[i].direction) && LiveFor(s, t, i)
             && LiveFor(s, u, i)
    ensures t == u
  {
    assert InScope(s, t, scope) && InScope(s, u, scope);
  }

  /** So the query for the active transmission never meets two rows. */
  lemma OneRowAtMost(s: State, i: nat, scope: Scope)
    requires Inv(s, scope) && i < |s.invoices| && Covers(scope, s.invoices[i].direction)
    ensures ActiveFor(s.txs, i).Ok?
  {
    var rows := ActiveRows(s.txs, i);
    if |rows| >= 2 {
      ActiveIsLive(s, i, 0);
      ActiveIsLive(s, i, 1);
      LiveIsUnique(s, rows[0], rows[1], i, scope);
      assert false;
    }
  }

  /** In every reachable state a sale is in sending exactly when some transmission of it is under way, and then
      exactly one is; so is a purchase, if the run was gentle. */
  lemma SendingMeansOneLive(ops: seq<Op>, i: nat)
    requires Guarded(ops, i)
    ensures var s := Run(ops);
            && (s.invoices[i].status == Sending <==> HasLive(s, i))
            && (forall t: nat, u: nat :: LiveFor(s, t, i) && LiveFor(s, u, i) ==> t == u)
            && ActiveFor(s.txs, i).Ok?
  {
    var s := Run(ops);
    var scope := GuardedState(ops, i);
    assert InvoiceBacked(s, i);
    if HasLive(s, i) {
      var t: nat :| LiveFor(s, t, i);
      LiveIsSending(s, t, i, scope);
    }
    forall t: nat, u: nat | LiveFor(s, t, i) && LiveFor(s, u, i) ensures t == u {
      LiveIsUnique(s, t, u, i, scope);
    }
    OneRowAtMost(s, i, scope);
  }

  lemma SuccessIsCarried(s: State, t: nat, i: nat, scope: Scope)
    requires Inv(s, scope) && i < |s.invoices| && Covers(scope, s.invoices[i].direction) && SuccessFor(s, t, i)
    ensures InScope(s, t, scope) && s.invoices[i].status == Accepted
    ensures Given(s.txs[t].ksefNumber) ==> s.invoices[i].ksefNumber == s.txs[t].ksefNumber
  {
    assert InScope(s, t, scope) && TxMatches(s, t);
  }

  /** An invoice is accepted exactly when one of its transmissions succeeded, never more than one; it then carries
      that one's KSeF number, if KSeF gave one. */
  lemma AcceptedMeansOneSuccess(ops: seq<Op>, i: nat)
    requires Guarded(ops, i)
    ensures var s := Run(ops);
            && (s.invoices[i].status == Accepted <==> HasSuccess(s, i))
            && (forall t: nat, u: nat :: SuccessFor(s, t, i) && SuccessFor(s, u, i) ==> t == u)
            && (forall t: nat :: SuccessFor(s, t, i) && Given(s.txs[t].ksefNumber)
                  ==> s.invoices[i].ksefNumber == s.txs[t].ksefNumber)
  {
    var s := Run(ops);
    var scope := GuardedState(ops, i);
    assert InvoiceBacked(s, i);
    forall t: nat | SuccessFor(s, t, i)
      ensures s.invoices[i].status == Accepted
              && (Given(s.txs[t].ksefNumber) ==> s.invoices[i].ksefNumber == s.txs[t].ksefNumber)
      ensures InScope(s, t, scope)
    {
      SuccessIsCarried(s, t, i, scope);
    }
  }

  /** An invoice that has nothing under way passes the guard for active transmissions. */
  lemma NothingActive(s: State, i: nat, scope: Scope)
    requires Inv(s, scope) && i < |s.invoices| && Covers(scope, s.invoices[i].direction)
             && s.invoices[i].status != Sending
    ensures ActiveFor(s.txs, i) == Ok(None)
  {
    if |ActiveRows(s.txs, i)| >= 1 {
      ActiveIsLive(s, i, 0);
      LiveIsSending(s, ActiveRows(s.txs, i)[0], i, scope);
      assert false;
    }
  }

  /** The invoice may be submitted: ready, or a rejected sale. */
  predicate MaySubmit(inv: Invoice) {
    inv.status == ReadyForSubmission || (inv.status == Rejected && inv.direction == Sale)
  }

  /** Exactly when a submit opens a new transmission. */
  lemma {:induction false} SubmitOpensIff(ops: seq<Op>, i: nat, c: Checks)
    requires Guarded(ops, i)
    ensures var s := Run(ops);
            (Submit(s, i, c).Ok? && Submit(s, i, c).value.1 == |s.txs|) <==>
              && MaySubmit(s.invoices[i]) && c.prepared && c.valid && c.key.Some?
              && (forall t :: 0 <= t < |s.txs| ==> s.txs[t].key != c.key.value)
  {
    var scope := GuardedState(ops, i);
    SubmitVerdict(Run(ops), i, c, scope);
  }

  lemma SubmitVerdict(s: State, i: nat, c: Checks, scope: Scope)
    requires Inv(s, scope) && i < |s.invoices| && Covers(scope, s.invoices[i].direction)
    ensures (Submit(s, i, c).Ok? && Submit(s, i, c).value.1 == |s.txs|) <==>
              && MaySubmit(s.invoices[i]) && c.prepared && c.valid && c.key.Some?
              && (forall t :: 0 <= t < |s.txs| ==> s.txs[t].key != c.key.value)
  {
    if s.invoices[i].status == Sending {
      if c.keyBefore.Some? { ByKeyIs(s.txs, c.keyBefore.value); }
    } else {
      NothingActive(s, i, scope);
      if c.key.Some? { ByKeyIs(s.txs, c.key.value); }
    }
  }

  /** A manual retry of a sale's transmission is refused in every reachable state. */
  lemma SaleRetryIsRefused(ops: seq<Op>, tx: nat, c: Checks)
    requires InScope(Run(ops), tx, Sales)
    ensures Retry(Run(ops), tx, c) == Err(InvalidInvoice)
  {
    Reachable(ops, Sales);
    RetryRefusesSales(Run(ops), tx, c, Sales);
  }

  // ---- Ends are final ----

  /** What is final in `s` is the same in `s'`: finished transmissions and accepted invoices. */
  ghost predicate Final(s: State, s': State, scope: Scope) {
    && |s.txs| <= |s'.txs| && |s.invoices| <= |s'.invoices|
    && (forall t: nat :: InScope(s, t, scope) && Terminal(s.txs[t].status) ==> s'.txs[t] == s.txs[t])
    && (forall i: nat :: i < |s.invoices| ==> s'.invoices[i].direction == s.invoices[i].direction)
    && (forall i: nat :: i < |s.invoices| && Covers(scope, s.invoices[i].direction) && s.invoices[i].status == Accepted
          ==> s'.invoices[i] == s.invoices[i])
  }

  lemma JobStepIsFinal(s: State, op: Op, scope: Scope)
    requires Inv(s, scope) && RunsJob(s, op)
    ensures Final(s, Step(s, op), scope)
  {
    JobStepFrame(s, op);
    if InScope(s, s.jobs[op.job].tx, scope) {
      JobOwner(s, op.job, scope);
    }
  }

  /** No step of any actor touches a finished transmission or an accepted invoice. */
  lemma StepIsFinal(s: State, op: Op, scope: Scope)
    requires Inv(s, scope)
    ensures Final(s, Step(s, op), scope)
  {
    match op
    case AddInvoice(direction) =>
    case SubmitOp(invoice, checks) => if Opens(s, invoice, checks) { SubmitWrites(s, invoice, checks); }
    case RetryOp(tx, checks) => if Retry(s, tx, checks).Ok? { RetryWrites(s, tx, checks); }
    case _ => if RunsJob(s, op) { JobStepIsFinal(s, op, scope); }
  }

  /** For sales after every run, for purchases too after every gentle one. */
  lemma {:induction false} EndsAreFinal(ops: seq<Op>, op: Op, scope: Scope)
    requires scope == Everyone ==> GentleRun(ops)
    ensures Final(Run(ops), Run(ops + [op]), scope)
  {
    Reachable(ops, scope);
    StepIsFinal(Run(ops), op, scope);
    assert (ops + [op])[..|ops|] == ops;
  }

  predicate AcceptedAs(s: State, i: nat, inv: Invoice) {
    i < |s.invoices| && s.invoices[i] == inv && inv.status == Accepted
  }

  /** Once accepted, a sale stays as it is through any continuation of the run, and a purchase through any gentle
      one. */
  lemma {:induction false} AcceptedForGood(ops: seq<Op>, more: seq<Op>, i: nat, inv: Invoice)
    requires AcceptedAs(Run(ops), i, inv) && (inv.direction == Sale || GentleRun(ops + more))
    ensures AcceptedAs(Run(ops + more), i, inv)
    decreases |more|
  {
    if more == [] {
      assert ops + more == ops;
    } else {
      var mid, last := ops + more[..|more| - 1], more[|more| - 1];
      assert ops + more == mid + [last];
      assert (mid + [last])[..|mid|] == mid;
      AcceptedForGood(ops, more[..|more| - 1], i, inv);
      EndsAreFinal(mid, last, if inv.direction == Sale then Sales else Everyone);
    }
  }

  /** A transmission has at most one pending job, of the kind its status waits for: of a sale after every run, of
      either direction after every gentle one. */
  lemma {:induction false} OneJobEach(ops: seq<Op>, i: nat, j: nat)
    requires var s := Run(ops); i in s.jobs && j in s.jobs && s.jobs[i].tx == s.jobs[j].tx
    requires InScope(Run(ops), Run(ops).jobs[i].tx, Sales) || GentleRun(ops)
    ensures i == j && Run(ops).jobs[i].tx < |Run(ops).txs|
    ensures JobFits(Run(ops).jobs[i].kind, Run(ops).txs[Run(ops).jobs[i].tx].status)
  {
    Reachable(ops, Sales);
    if GentleRun(ops) {
      Reachable(ops, Everyone);
      assert InScope(Run(ops), Run(ops).jobs[i].tx, Everyone);
    }
  }

  // ---- What a purchase can lose ----

  const C := Checks(true, true, None, Some("k"))

  const SUBMIT_JOB := Job(SubmitKind, 0, 0, 0)

  const POLL_JOB := Job(PollKind, 0, 0, 0)

  const PURCHASE := Invoice(Purchase, Sending, None)

  /** One purchase, submitted, failed for a moment, retried by hand while its automatic retry waits, sent by one
      job, accepted, and sent again by the other. */
  const PURCHASE_RUN := [AddInvoice(Purchase), SubmitOp(0, C), SubmitJobOp(0, ClientError(true)), RetryOp(0, C),
                         SubmitJobOp(1, Sent), PollJobOp(3, Code(200, Some("n"))), SubmitJobOp(2, Sent)]

  const P1 := State([Invoice(Purchase, ReadyForSubmission, None)], [], map[], 0)

  const P2 := State([PURCHASE], [Tx(0, Queued, 1, "k", None)], map[0 := SUBMIT_JOB], 1)

  const P3 := State([PURCHASE], [Tx(0, FailedTemporary, 2, "k", None)], map[1 := SUBMIT_JOB], 2)

  const P4 := State([PURCHASE], [Tx(0, Queued, 3, "k", None)], map[1 := SUBMIT_JOB, 2 := SUBMIT_JOB], 3)

  const P5 := State([PURCHASE], [Tx(0, Submitted, 3, "k", None)], map[2 := SUBMIT_JOB, 3 := POLL_JOB], 4)

  const ACCEPTED_PURCHASE := Invoice(Purchase, Accepted, Some("n"))

  const P6 := State([ACCEPTED_PURCHASE], [Tx(0, Success, 3, "k", Some("n"))], map[2 := SUBMIT_JOB], 4)

  const P7 := State([ACCEPTED_PURCHASE], [Tx(0, Submitted, 3, "k", Some("n"))], map[4 := POLL_JOB], 5)

  lemma PurchaseSubmitted()
    ensures Step(P1, SubmitOp(0, C)) == P2
  {
    assert ActiveRows([], 0) == [] && ByKey([], "k") == None;
  }

  lemma PurchaseFailed()
    ensures Step(P2, SubmitJobOp(0, ClientError(true))) == P3
  {
    assert P2.jobs - {0} == map[];
  }

  lemma PurchaseRetried()
    ensures Step(P3, RetryOp(0, C)) == P4
  {
    assert P3.txs[..0] == [] && ActiveRows([], 0) == [];
    assert ActiveRows(P3.txs, 0) == [];
  }

  lemma PurchaseSent()
    ensures Step(P4, SubmitJobOp(1, Sent)) == P5
  {
    assert P4.jobs - {1} == map[2 := SUBMIT_JOB];
  }

  lemma PurchaseAccepted()
    ensures Step(P5, PollJobOp(3, Code(200, Some("n")))) == P6
  {
    assert P5.jobs - {3} == map[2 := SUBMIT_JOB];
  }

  lemma PurchaseSentAgain()
    ensures Step(P6, SubmitJobOp(2, Sent)) == P7
  {
    assert P6.jobs - {2} == map[];
  }

  lemma PurchaseRunStep(k: nat)
    requires k < |PURCHASE_RUN|
    ensures Run(PURCHASE_RUN[..k + 1]) == Step(Run(PURCHASE_RUN[..k]), PURCHASE_RUN[k])
  {
    assert PURCHASE_RUN[..k + 1][..k] == PURCHASE_RUN[..k];
  }

  /** After the manual retry two submit jobs are pending for the one transmission. */
  lemma PurchaseRetryDoublesTheJob()
    ensures Run(PURCHASE_RUN[..4]).jobs == map[1 := SUBMIT_JOB, 2 := SUBMIT_JOB]
    ensures Run(PURCHASE_RUN[..4]) == P4
  {
    PurchaseRunStep(0);
    PurchaseRunStep(1);
    PurchaseRunStep(2);
    PurchaseRunStep(3);
    assert Run(PURCHASE_RUN[..1]) == P1;
    PurchaseSubmitted();
    PurchaseFailed();
    PurchaseRetried();
  }

  /** The one sends it and KSeF accepts it; the other then sends it again: the successful transmission is under way
      once more, while its invoice is accepted. So for this purchase no end is final and being accepted means no
      success. */
  lemma PurchaseIsSentTwice()
    ensures var (s, s') := (Run(PURCHASE_RUN[..6]), Run(PURCHASE_RUN));
            && SuccessFor(s, 0, 0) && LiveFor(s', 0, 0) && !Final(s, s', Everyone)
            && s'.invoices[0].status == Accepted && HasLive(s', 0) && !HasSuccess(s', 0)
  {
    PurchaseRetryDoublesTheJob();
    PurchaseRunStep(4);
    PurchaseRunStep(5);
    PurchaseRunStep(6);
    PurchaseSent();
    PurchaseAccepted();
    PurchaseSentAgain();
    assert PURCHASE_RUN[..7] == PURCHASE_RUN;
    assert InScope(P6, 0, Everyone) && LiveFor(P7, 0, 0);
  }
}
