/** When the job token of a transmission is kept, when no job is lost, and what a lost session does to a sale. */
module TransmissionTokens {
  import opened Prelude
  import opened Transmission
  import opened TransmissionInvariants

  ghost predicate HasJob(s: State, tx: nat) {
    exists j :: j in s.jobs && s.jobs[j].tx == tx
  }

  // ---- No job is lost ----

  /** The statuses that wait for a job. */
  predicate Waits(st: TxStatus) {
    Live(st) && st != FailedRetryable
  }

  ghost predicate NoJobLost(s: State) {
    forall t: nat :: t < |s.txs| && Waits(s.txs[t].status) ==> HasJob(s, t)
  }

  /** The step is not the fifth crash of a job, after which the worker gives it up. */
  predicate Patient(s: State, op: Op) {
    op.CrashOp? && op.job in s.jobs ==> s.jobs[op.job].attempts + 1 < MAX_ATTEMPTS
  }

  ghost predicate PatientRun(ops: seq<Op>) {
    ops == [] || (PatientRun(ops[..|ops| - 1]) && Patient(Run(ops[..|ops| - 1]), ops[|ops| - 1]))
  }

  /** Old jobs for other transmissions are still there, and `tx` has one if it waits for one. */
  lemma JobsStay(s: State, after: State, tx: nat)
    requires NoJobLost(s) && |s.txs| <= |after.txs| <= |s.txs| + 1 && tx < |after.txs|
    requires forall t: nat :: t < |after.txs| && t != tx ==> t < |s.txs| && after.txs[t] == s.txs[t]
    requires forall j :: j in s.jobs && s.jobs[j].tx != tx ==> j in after.jobs && after.jobs[j] == s.jobs[j]
    requires Waits(after.txs[tx].status) ==> HasJob(after, tx)
    ensures NoJobLost(after)
  {
    forall t: nat | t < |after.txs| && t != tx && Waits(after.txs[t].status) ensures HasJob(after, t) {
      assert HasJob(s, t);
      var j :| j in s.jobs && s.jobs[j].tx == t;
      assert j in after.jobs && after.jobs[j].tx == t;
    }
  }

  lemma SubmitLosesNoJob(s: State, id: nat, c: Checks)
    requires RowsOk(s) && NoJobLost(s) && Opens(s, id, c)
    ensures NoJobLost(Submit(s, id, c).value.0)
  {
    var after := Submit(s, id, c).value.0;
    assert s.nextJob !in s.jobs && after.jobs[s.nextJob].tx == |s.txs|;
    JobsStay(s, after, |s.txs|);
  }

  lemma RetryLosesNoJob(s: State, tx: nat, c: Checks)
    requires RowsOk(s) && NoJobLost(s) && Retry(s, tx, c).Ok?
    ensures NoJobLost(Retry(s, tx, c).value)
  {
    var after := Retry(s, tx, c).value;
    assert s.nextJob !in s.jobs && after.jobs[s.nextJob].tx == tx;
    JobsStay(s, after, tx);
  }

  lemma SubmitJobLosesNoJob(s: State, job: nat, o: Outcome)
    requires RowsOk(s) && NoJobLost(s) && job in s.jobs && s.jobs[job].kind == SubmitKind
    ensures NoJobLost(Step(s, SubmitJobOp(job, o)))
  {
    var after, tx := Step(s, SubmitJobOp(job, o)), s.jobs[job].tx;
    assert s.nextJob !in s.jobs;
    if Waits(after.txs[tx].status) {
      assert after.jobs[s.nextJob].tx == tx;
    }
    JobsStay(s, after, tx);
  }

  lemma PollJobLosesNoJob(s: State, job: nat, a: Answer)
    requires RowsOk(s) && NoJobLost(s) && job in s.jobs && s.jobs[job].kind == PollKind
    ensures NoJobLost(Step(s, PollJobOp(job, a)))
  {
    var after, tx := Step(s, PollJobOp(job, a)), s.jobs[job].tx;
    assert s.nextJob !in s.jobs;
    if Waits(after.txs[tx].status) {
      assert after.jobs[s.nextJob].tx == tx;
    }
    JobsStay(s, after, tx);
  }

  lemma CrashLosesNoJob(s: State, job: nat, marked: bool)
    requires RowsOk(s) && NoJobLost(s) && job in s.jobs && s.jobs[job].attempts + 1 < MAX_ATTEMPTS
    ensures NoJobLost(Crash(s, job, marked))
  {
    var after, tx := Crash(s, job, marked), s.jobs[job].tx;
    assert job in after.jobs && after.jobs[job].tx == tx;
    JobsStay(s, after, tx);
  }

  lemma StepLosesNoJob(s: State, op: Op)
    requires RowsOk(s) && NoJobLost(s) && Patient(s, op)
    ensures NoJobLost(Step(s, op))
  {
    match op
    case AddInvoice(direction) =>
      forall t: nat | t < |s.txs| && Waits(s.txs[t].status) ensures HasJob(Step(s, op), t) {
        assert HasJob(s, t);
      }
    case SubmitOp(invoice, checks) =>
      if Opens(s, invoice, checks) { SubmitLosesNoJob(s, invoice, checks); }
    case RetryOp(tx, checks) => if Retry(s, tx, checks).Ok? { RetryLosesNoJob(s, tx, checks); }
    case SubmitJobOp(job, o) => if RunsJob(s, op) { SubmitJobLosesNoJob(s, job, o); }
    case PollJobOp(job, a) => if RunsJob(s, op) { PollJobLosesNoJob(s, job, a); }
    case CrashOp(job, marked) => if RunsJob(s, op) { CrashLosesNoJob(s, job, marked); }
  }

  /** In every run in which no job is given up, every transmission that waits for a job has one. */
  lemma {:induction false} NoRunLosesJobs(ops: seq<Op>)
    requires PatientRun(ops)
    ensures NoJobLost(Run(ops))
    decreases |ops|
  {
    if ops != [] {
      NoRunLosesJobs(ops[..|ops| - 1]);
      Reachable(ops[..|ops| - 1], Sales);
      StepLosesNoJob(Run(ops[..|ops| - 1]), ops[|ops| - 1]);
    }
  }

  /** So in such a run a transmission has exactly one pending job while it waits for one, and none otherwise: every
      sale's, and in a gentle run every purchase's. */
  lemma OneJobWhileWaiting(ops: seq<Op>, tx: nat)
    requires PatientRun(ops) && InScope(Run(ops), tx, Everyone) && (InScope(Run(ops), tx, Sales) || GentleRun(ops))
    ensures var s := Run(ops);
            && (HasJob(s, tx) <==> Waits(s.txs[tx].status))
            && (forall i, j :: i in s.jobs && j in s.jobs && s.jobs[i].tx == tx && s.jobs[j].tx == tx ==> i == j)
  {
    var s, scope := Run(ops), if GentleRun(ops) then Everyone else Sales;
    Reachable(ops, scope);
    NoRunLosesJobs(ops);
    if HasJob(s, tx) {
      var j :| j in s.jobs && s.jobs[j].tx == tx;
      assert InScope(s, s.jobs[j].tx, scope);
      assert JobFits(s.jobs[j].kind, s.txs[tx].status);
    }
  }

  // ---- Exactly when the token is kept ----

  /** An accepted retry keeps the token exactly when no job for its transmission is still pending. */
  lemma RetryKeepsTokenIff(s: State, tx: nat, c: Checks)
    requires RowsOk(s) && Token(s, Everyone) && Retry(s, tx, c).Ok?
    ensures Token(Retry(s, tx, c).value, Everyone) <==> !HasJob(s, tx)
  {
    RetryWrites(s, tx, c);
    RetriedKeepsTokenIff(s, Retry(s, tx, c).value, tx);
  }

  lemma RetriedKeepsTokenIff(s: State, s': State, tx: nat)
    requires RowsOk(s) && Token(s, Everyone) && Retried(s, s', tx)
    ensures Token(s', Everyone) <==> !HasJob(s, tx)
  {
    assert s.nextJob !in s.jobs && s'.jobs[s.nextJob].tx == tx;
    if HasJob(s, tx) {
      var j :| j in s.jobs && s.jobs[j].tx == tx;
      assert s'.jobs[j].tx == tx && j != s.nextJob && InScope(s', tx, Everyone);
    } else {
      assert forall t: nat :: InScope(s', t, Everyone) <==> InScope(s, t, Everyone);
      assert forall j :: j in s.jobs ==> s.jobs[j].tx != tx && s'.txs[s.jobs[j].tx] == s.txs[s.jobs[j].tx];
    }
  }

  /** In a state with the token and no job lost, a step keeps the token exactly when it is gentle. */
  lemma {:induction false} StepKeepsTokenIff(s: State, op: Op)
    requires Inv(s, Everyone) && NoJobLost(s)
    ensures Token(Step(s, op), Everyone) <==> Gentle(s, op)
  {
    if Gentle(s, op) {
      StepKeeps(s, op, Everyone);
    } else {
      assert HasJob(s, op.tx);
      RetryKeepsTokenIff(s, op.tx, op.checks);
    }
  }

  ghost predicate AlwaysToken(ops: seq<Op>) {
    Token(Run(ops), Everyone) && (ops == [] || AlwaysToken(ops[..|ops| - 1]))
  }

  /** Over every run in which no job is given up: no transmission ever has two jobs or one that does not fit, if
      and only if no accepted manual retry hits a transmission in FAILED_TEMPORARY. */
  lemma {:induction false} TokenKeptIff(ops: seq<Op>)
    requires PatientRun(ops)
    ensures AlwaysToken(ops) <==> GentleRun(ops)
    decreases |ops|
  {
    if ops != [] {
      var init := ops[..|ops| - 1];
      TokenKeptIff(init);
      if GentleRun(init) {
        Reachable(init, Everyone);
        NoRunLosesJobs(init);
        StepKeepsTokenIff(Run(init), ops[|ops| - 1]);
      }
    }
  }

  // ---- A lost session is final for a sale ----

  /** The sale's transmission lost its connection or session. */
  predicate Stuck(s: State, tx: nat) {
    InScope(s, tx, Sales) && s.txs[tx].status == FailedRetryable
  }

  lemma StuckIsSending(s: State, tx: nat)
    requires Inv(s, Sales) && Stuck(s, tx)
    ensures s.invoices[s.txs[tx].invoice].status == Sending
  {
    assert TxMatches(s, tx);
  }

  /** No job works on it or on its invoice. */
  lemma StuckIsNobodysJob(s: State, tx: nat, job: nat)
    requires Inv(s, Sales) && Stuck(s, tx) && job in s.jobs
    ensures s.jobs[job].tx != tx && s.txs[s.jobs[job].tx].invoice != s.txs[tx].invoice
  {
    if InScope(s, s.jobs[job].tx, Sales) {
      JobOwner(s, job, Sales);
      assert JobFits(s.jobs[job].kind, s.txs[s.jobs[job].tx].status);
    }
  }

  lemma StuckStaysStep(s: State, op: Op, tx: nat)
    requires Inv(s, Sales) && Stuck(s, tx)
    ensures var (t, after) := (s.txs[tx], Step(s, op));
            tx < |after.txs| && after.txs[tx] == t && t.invoice < |after.invoices|
                && after.invoices[t.invoice] == s.invoices[t.invoice]
  {
    StuckIsSending(s, tx);
    match op
    case AddInvoice(direction) =>
    case SubmitOp(invoice, checks) => if Opens(s, invoice, checks) { SubmitWrites(s, invoice, checks); }
    case RetryOp(t, checks) =>
      if Retry(s, t, checks).Ok? {
        RetryWrites(s, t, checks);
        StuckIsRefused(s, tx, checks);
      }
    case _ =>
      if RunsJob(s, op) {
        JobStepFrame(s, op);
        StuckIsNobodysJob(s, tx, op.job);
      }
  }

  lemma StuckIsRefused(s: State, tx: nat, c: Checks)
    requires Inv(s, Sales) && Stuck(s, tx)
    ensures Retry(s, tx, c).Err?
  {
    RetryRefusesSales(s, tx, c, Sales);
  }

  /** A sale whose transmission ended retryable is stuck: through every continuation of the run, whatever users
      and worker do, the transmission and its invoice, in sending, stay exactly as they are. */
  lemma {:induction false} StuckForGood(ops: seq<Op>, more: seq<Op>, tx: nat)
    requires Stuck(Run(ops), tx)
    ensures var (s, after) := (Run(ops), Run(ops + more));
            && Stuck(after, tx) && after.txs[tx] == s.txs[tx]
            && after.invoices[s.txs[tx].invoice] == s.invoices[s.txs[tx].invoice]
            && after.invoices[s.txs[tx].invoice].status == Sending
    decreases |more|
  {
    Reachable(ops, Sales);
    StuckIsSending(Run(ops), tx);
    if more == [] {
      assert ops + more == ops;
    } else {
      var mid, last := ops + more[..|more| - 1], more[|more| - 1];
      assert ops + more == mid + [last];
      assert (mid + [last])[..|mid|] == mid;
      StuckForGood(ops, more[..|more| - 1], tx);
      Reachable(mid, Sales);
      StuckStaysStep(Run(mid), last, tx);
    }
  }
}
