/** The transmission protocol's invariant: for sale invoices over every run, and for purchases too over every run
    in which no accepted manual retry hits a transmission that waits for its automatic one. */
module TransmissionInvariants {
  import opened Prelude
  import opened Transmission

  /** The transmissions an invariant speaks of: those of sales, or all. */
  datatype Scope = Sales | Everyone

  predicate Covers(scope: Scope, direction: Direction) {
    scope == Everyone || direction == Sale
  }

  predicate Live(st: TxStatus) {
    !Terminal(st)
  }

  predicate InScope(s: State, tx: nat, scope: Scope) {
    tx < |s.txs| && s.txs[tx].invoice < |s.invoices| && Covers(scope, s.invoices[s.txs[tx].invoice].direction)
  }

  /** Which statuses a pending job of each kind may find. */
  predicate JobFits(kind: JobKind, st: TxStatus) {
    if kind == SubmitKind then st == Queued || st == FailedTemporary || st == Processing
    else st == Submitted || st == WaitingStatus
  }

  /** Every reference points at a row; idempotency keys are unique. */
  ghost predicate RowsOk(s: State) {
    && (forall t :: 0 <= t < |s.txs| ==> s.txs[t].invoice < |s.invoices|)
    && (forall t, u :: 0 <= t < u < |s.txs| ==> s.txs[t].key != s.txs[u].key)
    && (forall j :: j in s.jobs ==>
          j < s.nextJob && s.jobs[j].tx < |s.txs| && s.jobs[j].invoice == s.txs[s.jobs[j].tx].invoice)
  }

  /** The job token: a transmission has at most one pending job, of the kind its status waits for; a terminal one
      has none. */
  ghost predicate Token(s: State, scope: Scope) {
    OneJob(s, scope) && JobsFit(s, scope)
  }

  ghost predicate OneJob(s: State, scope: Scope) {
    forall i, j :: i in s.jobs && j in s.jobs && s.jobs[i].tx == s.jobs[j].tx && InScope(s, s.jobs[i].tx, scope)
        ==> i == j
  }

  ghost predicate JobsFit(s: State, scope: Scope) {
    forall j :: j in s.jobs && InScope(s, s.jobs[j].tx, scope) ==> JobFits(s.jobs[j].kind, s.txs[s.jobs[j].tx].status)
  }

  /** A transmission that is still under way keeps its invoice in sending; a successful one has made it
      accepted, with its number; any transmission at all means the invoice has been submitted. */
  ghost predicate TxMatches(s: State, t: nat)
    requires t < |s.txs| && s.txs[t].invoice < |s.invoices|
  {
    var (tx, inv) := (s.txs[t], s.invoices[s.txs[t].invoice]);
    && inv.status != ReadyForSubmission
    && (Live(tx.status) ==> inv.status == Sending)
    && (tx.status == Success ==> inv.status == Accepted && (Given(tx.ksefNumber) ==> inv.ksefNumber == tx.ksefNumber))
  }

  predicate LiveFor(s: State, t: nat, i: nat) {
    t < |s.txs| && s.txs[t].invoice == i && Live(s.txs[t].status)
  }

  predicate SuccessFor(s: State, t: nat, i: nat) {
    t < |s.txs| && s.txs[t].invoice == i && s.txs[t].status == Success
  }

  predicate FailedFor(s: State, t: nat, i: nat) {
    t < |s.txs| && s.txs[t].invoice == i && s.txs[t].status == FailedPermanent
  }

  ghost predicate HasLive(s: State, i: nat) {
    exists t: nat :: LiveFor(s, t, i)
  }

  ghost predicate HasSuccess(s: State, i: nat) {
    exists t: nat :: SuccessFor(s, t, i)
  }

  ghost predicate HasFailed(s: State, i: nat) {
    exists t: nat :: FailedFor(s, t, i)
  }

  ghost predicate OneLive(s: State, scope: Scope) {
    forall t: nat, u: nat ::
      (InScope(s, t, scope) && InScope(s, u, scope) && s.txs[t].invoice == s.txs[u].invoice
       && Live(s.txs[t].status) && Live(s.txs[u].status)) ==> t == u
  }

  ghost predicate OneSuccess(s: State, scope: Scope) {
    forall t: nat, u: nat ::
      (InScope(s, t, scope) && InScope(s, u, scope) && s.txs[t].invoice == s.txs[u].invoice
       && s.txs[t].status == Success && s.txs[u].status == Success) ==> t == u
  }

  ghost predicate InvoiceBacked(s: State, i: nat)
    requires i < |s.invoices|
  {
    match s.invoices[i].status
    case ReadyForSubmission => true
    case Sending => HasLive(s, i)
    case Accepted => HasSuccess(s, i)
    case Rejected => HasFailed(s, i)
  }

  ghost predicate TxsMatch(s: State, scope: Scope) {
    forall t: nat :: InScope(s, t, scope) ==> TxMatches(s, t)
  }

  ghost predicate AllBacked(s: State, scope: Scope) {
    forall i :: 0 <= i < |s.invoices| && Covers(scope, s.invoices[i].direction) ==> InvoiceBacked(s, i)
  }

  ghost predicate Matched(s: State, scope: Scope) {
    TxsMatch(s, scope) && OneLive(s, scope) && OneSuccess(s, scope) && AllBacked(s, scope)
  }

  ghost predicate Inv(s: State, scope: Scope) {
    RowsOk(s) && Token(s, scope) && Matched(s, scope)
  }

  // ---- Gentle runs ----

  /** A manual retry that gets through does not hit a transmission waiting for its automatic one. */
  predicate Gentle(s: State, op: Op) {
    op.RetryOp? && Retry(s, op.tx, op.checks).Ok? ==> s.txs[op.tx].status != FailedTemporary
  }

  ghost predicate GentleRun(ops: seq<Op>) {
    ops == [] || (GentleRun(ops[..|ops| - 1]) && Gentle(Run(ops[..|ops| - 1]), ops[|ops| - 1]))
  }

  // ---- User calls ----

  ghost predicate IsActiveRow(txs: seq<Tx>, invoice: nat, t: nat) {
    t < |txs| && txs[t].invoice == invoice && Active(txs[t].status)
  }

  lemma {:induction false} ActiveRowsAre(txs: seq<Tx>, invoice: nat)
    ensures forall t: nat :: t in ActiveRows(txs, invoice) <==> IsActiveRow(txs, invoice, t)
    ensures forall j, k :: 0 <= j < k < |ActiveRows(txs, invoice)|
              ==> ActiveRows(txs, invoice)[j] < ActiveRows(txs, invoice)[k]
  {
    if txs != [] {
      var init, n := ActiveRows(txs[..|txs| - 1], invoice), |txs| - 1;
      ActiveRowsAre(txs[..n], invoice);
      forall k | 0 <= k < |init| ensures init[k] < n {
        assert init[k] in init;
      }
      forall t: nat ensures t in ActiveRows(txs, invoice) <==> IsActiveRow(txs, invoice, t) {
        assert t in init <==> IsActiveRow(txs[..n], invoice, t);
      }
    }
  }

  lemma {:induction false} ByKeyIs(txs: seq<Tx>, key: string)
    ensures ByKey(txs, key).Some? ==> ByKey(txs, key).value < |txs| && txs[ByKey(txs, key).value].key == key
    ensures ByKey(txs, key).None? ==> forall t :: 0 <= t < |txs| ==> txs[t].key != key
  {
    if txs != [] {
      ByKeyIs(txs[..|txs| - 1], key);
    }
  }

  /** The submit gets through and opens a new transmission. */
  predicate Opens(s: State, id: nat, c: Checks) {
    Submit(s, id, c).Ok? && Submit(s, id, c).value.0 != s
  }

  /** What such a submit writes: a new transmission with a new key, a job for it, its invoice in sending. */
  predicate Opened(s: State, s': State, id: nat, key: string) {
    && id < |s.invoices| && (s.invoices[id].status == ReadyForSubmission || s.invoices[id].status == Rejected)
    && (forall t :: 0 <= t < |s.txs| ==> s.txs[t].key != key)
    && s' == State(s.invoices[id := s.invoices[id].(status := Sending)], s.txs + [Tx(id, Queued, 1, key, None)],
                   s.jobs[s.nextJob := Job(SubmitKind, |s.txs|, id, 0)], s.nextJob + 1)
  }

  lemma SubmitWrites(s: State, id: nat, c: Checks)
    requires Opens(s, id, c)
    ensures c.key.Some? && Opened(s, Submit(s, id, c).value.0, id, c.key.value)
  {
    ByKeyIs(s.txs, c.key.value);
  }

  lemma SubmitKeepsRows(s: State, s': State, id: nat, key: string)
    requires RowsOk(s) && Opened(s, s', id, key)
    ensures RowsOk(s')
  {
  }

  lemma SubmitKeepsToken(s: State, s': State, id: nat, key: string, scope: Scope)
    requires RowsOk(s) && Token(s, scope) && Opened(s, s', id, key)
    ensures Token(s', scope)
  {
    assert forall t: nat :: t < |s.txs| ==> s'.txs[t] == s.txs[t] && (InScope(s', t, scope) <==> InScope(s, t, scope));
  }

  /** The invoice had nothing under way and nothing accepted. */
  lemma SubmitFindsFailures(s: State, id: nat, scope: Scope)
    requires Inv(s, scope) && id < |s.invoices|
    requires s.invoices[id].status == ReadyForSubmission || s.invoices[id].status == Rejected
    ensures forall t: nat :: InScope(s, t, scope) && s.txs[t].invoice == id ==> s.txs[t].status == FailedPermanent
  {
    forall t: nat | InScope(s, t, scope) && s.txs[t].invoice == id ensures s.txs[t].status == FailedPermanent {
      assert TxMatches(s, t);
    }
  }

  lemma SubmitKeepsMatch(s: State, s': State, id: nat, key: string, scope: Scope)
    requires Inv(s, scope) && Opened(s, s', id, key)
    ensures Matched(s', scope)
  {
    SubmitFindsFailures(s, id, scope);
    var n := |s.txs|;
    assert forall t: nat :: t < n ==> s'.txs[t] == s.txs[t] && (InScope(s', t, scope) <==> InScope(s, t, scope));
    forall t: nat | InScope(s', t, scope) ensures TxMatches(s', t) {
      if t < n { assert TxMatches(s, t); }
    }
    forall t: nat, u: nat
      | InScope(s', t, scope) && InScope(s', u, scope) && s'.txs[t].invoice == s'.txs[u].invoice && t != u
      ensures !(Live(s'.txs[t].status) && Live(s'.txs[u].status))
      ensures !(s'.txs[t].status == Success && s'.txs[u].status == Success)
    {
      assert t < n ==> InScope(s, t, scope);
      assert u < n ==> InScope(s, u, scope);
    }
    forall i | 0 <= i < |s'.invoices| && Covers(scope, s'.invoices[i].direction) ensures InvoiceBacked(s', i) {
      if i == id { assert LiveFor(s', n, i); } else { Backed(s, s', i); }
    }
  }

  /** Rows only grow and the rows of this invoice are as they were. */
  lemma Backed(s: State, s': State, i: nat)
    requires i < |s.invoices| && |s.invoices| <= |s'.invoices| && s'.invoices[i] == s.invoices[i] && InvoiceBacked(s, i)
    requires |s.txs| <= |s'.txs| && forall t :: 0 <= t < |s.txs| && s.txs[t].invoice == i ==> s'.txs[t] == s.txs[t]
    ensures InvoiceBacked(s', i)
  {
    match s.invoices[i].status
    case ReadyForSubmission =>
    case Sending => var t: nat :| LiveFor(s, t, i); assert LiveFor(s', t, i);
    case Accepted => var t: nat :| SuccessFor(s, t, i); assert SuccessFor(s', t, i);
    case Rejected => var t: nat :| FailedFor(s, t, i); assert FailedFor(s', t, i);
  }

  /** What a retry that gets through writes: the transmission queued again, and one more job for it. */
  predicate Retried(s: State, s': State, tx: nat) {
    && tx < |s.txs| && Retryable(s.txs[tx].status) && s.txs[tx].attempt < MAX_ATTEMPTS
    && s' == State(s.invoices, s.txs[tx := s.txs[tx].(attempt := s.txs[tx].attempt + 1, status := Queued)],
                   s.jobs[s.nextJob := Job(SubmitKind, tx, s.txs[tx].invoice, 0)], s.nextJob + 1)
  }

  lemma RetryWrites(s: State, tx: nat, c: Checks)
    requires Retry(s, tx, c).Ok?
    ensures Retried(s, Retry(s, tx, c).value, tx)
  {
  }

  /** A manual retry of a sale never gets past the guards: while its transmission could be retried, its stored
      invoice is in sending, and the validators want it ready or rejected. */
  lemma RetryRefusesSales(s: State, tx: nat, c: Checks, scope: Scope)
    requires Inv(s, scope) && InScope(s, tx, Sales)
    ensures Retry(s, tx, c) == Err(InvalidInvoice)
  {
    assert InScope(s, tx, scope);
    assert TxMatches(s, tx);
  }

  /** The retry is one the invariant allows: of a transmission out of its scope, or of one that lost its session. */
  predicate RetryAllowed(s: State, tx: nat, scope: Scope) {
    InScope(s, tx, scope) ==> s.txs[tx].status == FailedRetryable
  }

  lemma RetryKeepsRows(s: State, s': State, tx: nat)
    requires RowsOk(s) && Retried(s, s', tx)
    ensures RowsOk(s')
  {
  }

  lemma RetryKeepsToken(s: State, s': State, tx: nat, scope: Scope)
    requires RowsOk(s) && Token(s, scope) && Retried(s, s', tx) && RetryAllowed(s, tx, scope)
    ensures Token(s', scope)
  {
    assert forall t: nat :: InScope(s', t, scope) <==> InScope(s, t, scope);
    assert forall j :: j in s.jobs && InScope(s, s.jobs[j].tx, scope) ==> s.jobs[j].tx != tx;
  }

  lemma RetryKeepsMatch(s: State, s': State, tx: nat, scope: Scope)
    requires Inv(s, scope) && Retried(s, s', tx)
    ensures Matched(s', scope)
  {
    assert forall t: nat :: InScope(s', t, scope) <==> InScope(s, t, scope);
    forall t: nat | InScope(s', t, scope) ensures TxMatches(s', t) {
      assert TxMatches(s, t);
    }
    forall i | 0 <= i < |s'.invoices| && Covers(scope, s'.invoices[i].direction) ensures InvoiceBacked(s', i) {
      RetryKeepsBacked(s, s', tx, i);
    }
  }

  /** A retried transmission was under way and still is. */
  lemma RetryKeepsBacked(s: State, s': State, tx: nat, i: nat)
    requires Retried(s, s', tx) && i < |s.invoices| && InvoiceBacked(s, i)
    ensures InvoiceBacked(s', i)
  {
    match s.invoices[i].status
    case ReadyForSubmission =>
    case Sending => var t: nat :| LiveFor(s, t, i); assert LiveFor(s', t, i);
    case Accepted => var t: nat :| SuccessFor(s, t, i); assert SuccessFor(s', t, i);
    case Rejected => var t: nat :| FailedFor(s, t, i); assert FailedFor(s', t, i);
  }

  lemma AddInvoiceKeeps(s: State, direction: Direction, scope: Scope)
    requires Inv(s, scope)
    ensures Inv(Step(s, AddInvoice(direction)), scope)
  {
    var s' := Step(s, AddInvoice(direction));
    assert forall t: nat :: InScope(s', t, scope) <==> InScope(s, t, scope);
    forall t: nat | InScope(s', t, scope) ensures TxMatches(s', t) {
      assert InScope(s, t, scope) && TxMatches(s, t);
    }
    assert OneLive(s', scope) && OneSuccess(s', scope);
    forall i | 0 <= i < |s'.invoices| && Covers(scope, s'.invoices[i].direction) ensures InvoiceBacked(s', i) {
      if i < |s.invoices| { Backed(s, s', i); }
    }
  }

  // ---- Worker ----

  /** The rows after a worker step on `job`: its transmission and that one's invoice are rewritten, the job is
      gone, and at most one job `nj` for the same transmission has come in its place, fitting if `job` did. */
  ghost predicate Worked(s: State, job: nat, s': State, nj: nat)
    requires RowsOk(s) && job in s.jobs
  {
    var tx := s.jobs[job].tx;
    var id := s.txs[tx].invoice;
    && |s'.txs| == |s.txs| && |s'.invoices| == |s.invoices|
    && (forall t :: 0 <= t < |s.txs| && t != tx ==> s'.txs[t] == s.txs[t])
    && (forall i :: 0 <= i < |s.invoices| && i != id ==> s'.invoices[i] == s.invoices[i])
    && s'.txs[tx].invoice == id && s'.txs[tx].key == s.txs[tx].key
       && s'.invoices[id].direction == s.invoices[id].direction
    && s.nextJob <= s'.nextJob && (nj == job || nj == s.nextJob) && (nj in s'.jobs ==> nj < s'.nextJob)
    && (forall j :: j in s'.jobs && j != nj ==> j in s.jobs && j != job && s'.jobs[j] == s.jobs[j])
    && (nj in s'.jobs ==> s'.jobs[nj].tx == tx && s'.jobs[nj].invoice == id)
    && (nj in s'.jobs && JobFits(s.jobs[job].kind, s.txs[tx].status) ==> JobFits(s'.jobs[nj].kind, s'.txs[tx].status))
  }

  /** What a worker step must respect in scope. */
  predicate GoodWork(t: Tx, inv: Invoice) {
    && (Live(t.status) ==> inv.status == Sending)
    && (t.status == FailedPermanent ==> inv.status == Rejected)
    && (t.status == Success ==> inv.status == Accepted && (Given(t.ksefNumber) ==> inv.ksefNumber == t.ksefNumber))
  }

  ghost predicate WorkedWell(s: State, job: nat, s': State, nj: nat, scope: Scope)
    requires RowsOk(s) && job in s.jobs
  {
    && Worked(s, job, s', nj)
    && (InScope(s, s.jobs[job].tx, scope)
       ==> GoodWork(s'.txs[s.jobs[job].tx], s'.invoices[s.txs[s.jobs[job].tx].invoice]))
  }

  /** The transmission a job works on is under way, and the only one of its invoice that is; the others failed. */
  lemma JobOwner(s: State, job: nat, scope: Scope)
    requires Inv(s, scope) && job in s.jobs && InScope(s, s.jobs[job].tx, scope)
    ensures var tx := s.jobs[job].tx;
            && Live(s.txs[tx].status) && s.invoices[s.txs[tx].invoice].status == Sending
            && (forall t: nat :: t != tx && InScope(s, t, scope) && s.txs[t].invoice == s.txs[tx].invoice
                  ==> s.txs[t].status == FailedPermanent)
  {
    var tx := s.jobs[job].tx;
    assert TxMatches(s, tx);
    forall t: nat | t != tx && InScope(s, t, scope) && s.txs[t].invoice == s.txs[tx].invoice
      ensures s.txs[t].status == FailedPermanent
    {
      assert TxMatches(s, t);
    }
  }

  lemma WorkKeepsRows(s: State, job: nat, s': State, nj: nat)
    requires RowsOk(s) && job in s.jobs && Worked(s, job, s', nj)
    ensures RowsOk(s')
  {
  }

  lemma WorkKeepsToken(s: State, job: nat, s': State, nj: nat, scope: Scope)
    requires RowsOk(s) && Token(s, scope) && job in s.jobs && Worked(s, job, s', nj)
    ensures Token(s', scope)
  {
    var tx := s.jobs[job].tx;
    assert forall t: nat :: InScope(s', t, scope) <==> InScope(s, t, scope);
    forall j | j in s'.jobs && j != nj && InScope(s, s.jobs[j].tx, scope) ensures s'.jobs[j].tx != tx {
      assert j in s.jobs && j != job;
    }
  }

  lemma WorkKeepsMatch(s: State, job: nat, s': State, nj: nat, scope: Scope)
    requires Inv(s, scope) && job in s.jobs && WorkedWell(s, job, s', nj, scope)
    ensures Matched(s', scope)
  {
    var tx := s.jobs[job].tx;
    var id := s.txs[tx].invoice;
    assert forall t: nat :: InScope(s', t, scope) <==> InScope(s, t, scope);
    if InScope(s, tx, scope) {
      JobOwner(s, job, scope);
    }
    forall t: nat | InScope(s', t, scope) ensures TxMatches(s', t) {
      assert TxMatches(s, t);
    }
    forall t: nat, u: nat
      | InScope(s', t, scope) && InScope(s', u, scope) && s'.txs[t].invoice == s'.txs[u].invoice && t != u
      ensures !(Live(s'.txs[t].status) && Live(s'.txs[u].status))
      ensures !(s'.txs[t].status == Success && s'.txs[u].status == Success)
    {
      assert InScope(s, t, scope) && InScope(s, u, scope) && s.txs[t].invoice == s.txs[u].invoice;
    }
    forall i | 0 <= i < |s'.invoices| && Covers(scope, s'.invoices[i].direction) ensures InvoiceBacked(s', i) {
      if i == id { WorkBacks(s, job, s', nj, scope); } else { Backed(s, s', i); }
    }
  }

  lemma WorkBacks(s: State, job: nat, s': State, nj: nat, scope: Scope)
    requires RowsOk(s) && job in s.jobs && WorkedWell(s, job, s', nj, scope) && InScope(s, s.jobs[job].tx, scope)
    ensures InvoiceBacked(s', s.txs[s.jobs[job].tx].invoice)
  {
    var tx, id := s.jobs[job].tx, s.txs[s.jobs[job].tx].invoice;
    assert LiveFor(s', tx, id) || SuccessFor(s', tx, id) || FailedFor(s', tx, id);
  }

  /** The worker steps: completed submit jobs, completed poll jobs, crashed jobs. */
  predicate RunsJob(s: State, op: Op) {
    match op
    case SubmitJobOp(job, _) => job in s.jobs && s.jobs[job].kind == SubmitKind
    case PollJobOp(job, _) => job in s.jobs && s.jobs[job].kind == PollKind
    case CrashOp(job, _) => job in s.jobs
    case _ => false
  }

  lemma SubmitJobFrame(s: State, job: nat, o: Outcome)
    requires RowsOk(s) && job in s.jobs && s.jobs[job].kind == SubmitKind
    ensures Worked(s, job, Step(s, SubmitJobOp(job, o)), s.nextJob)
  {
  }

  lemma SubmitJobIsGood(s: State, job: nat, o: Outcome)
    requires RowsOk(s) && job in s.jobs && s.jobs[job].kind == SubmitKind
    requires s.invoices[s.jobs[job].invoice].status == Sending
    ensures var s' := Step(s, SubmitJobOp(job, o)); var tx := s.jobs[job].tx;
            tx < |s'.txs| && s.txs[tx].invoice < |s'.invoices| && GoodWork(s'.txs[tx], s'.invoices[s.txs[tx].invoice])
  {
  }

  lemma PollJobFrame(s: State, job: nat, a: Answer)
    requires RowsOk(s) && job in s.jobs && s.jobs[job].kind == PollKind
    ensures Worked(s, job, Step(s, PollJobOp(job, a)), s.nextJob)
  {
  }

  lemma PollJobIsGood(s: State, job: nat, a: Answer)
    requires RowsOk(s) && job in s.jobs && s.jobs[job].kind == PollKind
    requires Live(s.txs[s.jobs[job].tx].status) && s.invoices[s.jobs[job].invoice].status == Sending
    ensures var s' := Step(s, PollJobOp(job, a)); var tx := s.jobs[job].tx;
            tx < |s'.txs| && s.txs[tx].invoice < |s'.invoices| && GoodWork(s'.txs[tx], s'.invoices[s.txs[tx].invoice])
  {
  }

  lemma CrashFrame(s: State, job: nat, marked: bool)
    requires RowsOk(s) && job in s.jobs
    ensures Worked(s, job, Step(s, CrashOp(job, marked)), job)
  {
  }

  lemma CrashIsGood(s: State, job: nat, marked: bool)
    requires RowsOk(s) && job in s.jobs
    requires Live(s.txs[s.jobs[job].tx].status) && s.invoices[s.jobs[job].invoice].status == Sending
    ensures var s' := Step(s, CrashOp(job, marked)); var tx := s.jobs[job].tx;
            tx < |s'.txs| && s.txs[tx].invoice < |s'.invoices| && GoodWork(s'.txs[tx], s'.invoices[s.txs[tx].invoice])
  {
  }

  /** The job a worker step on `op.job` may leave in its place. */
  function NextJob(s: State, op: Op): nat
    requires RunsJob(s, op)
  {
    if op.CrashOp? then op.job else s.nextJob
  }

  /** Every worker step rewrites one transmission, its invoice and its job. */
  lemma JobStepFrame(s: State, op: Op)
    requires RowsOk(s) && RunsJob(s, op)
    ensures Worked(s, op.job, Step(s, op), NextJob(s, op))
  {
    match op
    case SubmitJobOp(job, o) => SubmitJobFrame(s, job, o);
    case PollJobOp(job, a) => PollJobFrame(s, job, a);
    case CrashOp(job, marked) => CrashFrame(s, job, marked);
  }

  lemma JobStepWorks(s: State, op: Op, scope: Scope)
    requires Inv(s, scope) && RunsJob(s, op)
    ensures WorkedWell(s, op.job, Step(s, op), NextJob(s, op), scope)
  {
    JobStepFrame(s, op);
    if InScope(s, s.jobs[op.job].tx, scope) {
      JobOwner(s, op.job, scope);
      match op
      case SubmitJobOp(job, o) => SubmitJobIsGood(s, job, o);
      case PollJobOp(job, a) => PollJobIsGood(s, job, a);
      case CrashOp(job, marked) => CrashIsGood(s, job, marked);
    }
  }

  lemma JobStepKeeps(s: State, op: Op, scope: Scope)
    requires Inv(s, scope) && RunsJob(s, op)
    ensures Inv(Step(s, op), scope)
  {
    var s', nj := Step(s, op), NextJob(s, op);
    JobStepWorks(s, op, scope);
    WorkKeepsRows(s, op.job, s', nj);
    WorkKeepsToken(s, op.job, s', nj, scope);
    WorkKeepsMatch(s, op.job, s', nj, scope);
  }

  // ---- Every step ----

  lemma SubmitKeeps(s: State, id: nat, c: Checks, scope: Scope)
    requires Inv(s, scope) && Opens(s, id, c)
    ensures Inv(Submit(s, id, c).value.0, scope)
  {
    var s' := Submit(s, id, c).value.0;
    SubmitWrites(s, id, c);
    SubmitKeepsRows(s, s', id, c.key.value);
    SubmitKeepsToken(s, s', id, c.key.value, scope);
    SubmitKeepsMatch(s, s', id, c.key.value, scope);
  }

  lemma RetryKeeps(s: State, tx: nat, c: Checks, scope: Scope)
    requires Inv(s, scope) && Retry(s, tx, c).Ok? && (scope == Everyone ==> s.txs[tx].status != FailedTemporary)
    ensures Inv(Retry(s, tx, c).value, scope)
  {
    var s' := Retry(s, tx, c).value;
    RetryWrites(s, tx, c);
    if InScope(s, tx, Sales) {
      RetryRefusesSales(s, tx, c, scope);
      assert false;
    }
    RetryKeepsRows(s, s', tx);
    RetryKeepsToken(s, s', tx, scope);
    RetryKeepsMatch(s, s', tx, scope);
  }

  /** Every step of every actor keeps the invariant for sales, and every gentle one keeps it for all. */
  lemma StepKeeps(s: State, op: Op, scope: Scope)
    requires Inv(s, scope) && (scope == Everyone ==> Gentle(s, op))
    ensures Inv(Step(s, op), scope)
  {
    match op
    case AddInvoice(direction) => AddInvoiceKeeps(s, direction, scope);
    case SubmitOp(invoice, checks) => if Opens(s, invoice, checks) { SubmitKeeps(s, invoice, checks, scope); }
    case RetryOp(tx, checks) => if Retry(s, tx, checks).Ok? { RetryKeeps(s, tx, checks, scope); }
    case _ => if RunsJob(s, op) { JobStepKeeps(s, op, scope); }
  }

  lemma {:induction false} Reachable(ops: seq<Op>, scope: Scope)
    requires scope == Everyone ==> GentleRun(ops)
    ensures Inv(Run(ops), scope)
    decreases |ops|
  {
    if ops != [] {
      Reachable(ops[..|ops| - 1], scope);
      StepKeeps(Run(ops[..|ops| - 1]), ops[|ops| - 1], scope);
    }
  }
}
