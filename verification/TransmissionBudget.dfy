/** How often a transmission can be sent, whatever users and worker do. */
module TransmissionBudget {
  import opened Transmission
  import opened TransmissionInvariants

  /** The step runs a submit job of the transmission to completion. */
  predicate Sends(s: State, op: Op, tx: nat) {
    op.SubmitJobOp? && RunsJob(s, op) && s.jobs[op.job].tx == tx
  }

  /** How many submit jobs of a transmission ran to completion in the run. */
  function SubmitJobsRun(ops: seq<Op>, tx: nat): nat {
    if ops == [] then 0
    else
      var s, op := Run(ops[..|ops| - 1]), ops[|ops| - 1];
      SubmitJobsRun(ops[..|ops| - 1], tx) + if Sends(s, op, tx) then 1 else 0
  }

  /** The submit jobs of a transmission that are still to run. */
  function SubmitJobsOf(jobs: map<nat, Job>, tx: nat): set<nat> {
    set j | j in jobs && jobs[j].kind == SubmitKind && jobs[j].tx == tx
  }

  function AttemptOf(s: State, tx: nat): nat {
    if tx < |s.txs| then s.txs[tx].attempt else 0
  }

  lemma JobAdded(jobs: map<nat, Job>, n: nat, job: Job, tx: nat)
    requires n !in jobs
    ensures |SubmitJobsOf(jobs[n := job], tx)|
            == |SubmitJobsOf(jobs, tx)| + if job.kind == SubmitKind && job.tx == tx then 1 else 0
  {
    var one := if job.kind == SubmitKind && job.tx == tx then {n} else {};
    assert SubmitJobsOf(jobs[n := job], tx) == SubmitJobsOf(jobs, tx) + one;
  }

  lemma JobTaken(jobs: map<nat, Job>, n: nat, tx: nat)
    requires n in jobs
    ensures |SubmitJobsOf(jobs - {n}, tx)|
            == |SubmitJobsOf(jobs, tx)| - if jobs[n].kind == SubmitKind && jobs[n].tx == tx then 1 else 0
  {
    var one := if jobs[n].kind == SubmitKind && jobs[n].tx == tx then {n} else {};
    assert SubmitJobsOf(jobs - {n}, tx) == SubmitJobsOf(jobs, tx) - one;
  }

  /** A step that sends takes a submit job; a new submit job comes with a new attempt; attempts start at one and
      stop at five. */
  ghost predicate Afforded(s: State, s': State, sent: bool, tx: nat) {
    && (sent ==> |SubmitJobsOf(s.jobs, tx)| >= 1)
    && (if sent then 1 else 0) + |SubmitJobsOf(s'.jobs, tx)| - AttemptOf(s', tx)
       <= |SubmitJobsOf(s.jobs, tx)| - AttemptOf(s, tx)
    && (AttemptOf(s', tx) == AttemptOf(s, tx) || AttemptOf(s', tx) <= MAX_ATTEMPTS)
    && AttemptOf(s, tx) <= AttemptOf(s', tx) && |s.txs| <= |s'.txs|
    && (|s.txs| <= tx < |s'.txs| ==> AttemptOf(s', tx) == 1)
  }

  lemma SubmitJobAfforded(s: State, job: nat, o: Outcome, tx: nat)
    requires RowsOk(s) && job in s.jobs && s.jobs[job].kind == SubmitKind
    ensures Afforded(s, Step(s, SubmitJobOp(job, o)), s.jobs[job].tx == tx, tx)
  {
    var left := s.jobs - {job};
    JobTaken(s.jobs, job, tx);
    JobAdded(left, s.nextJob, Job(PollKind, s.jobs[job].tx, s.jobs[job].invoice, 0), tx);
    JobAdded(left, s.nextJob, Job(SubmitKind, s.jobs[job].tx, s.jobs[job].invoice, 0), tx);
  }

  lemma PollJobAfforded(s: State, job: nat, a: Answer, tx: nat)
    requires RowsOk(s) && job in s.jobs && s.jobs[job].kind == PollKind
    ensures Afforded(s, Step(s, PollJobOp(job, a)), false, tx)
  {
    JobTaken(s.jobs, job, tx);
    JobAdded(s.jobs - {job}, s.nextJob, Job(PollKind, s.jobs[job].tx, s.jobs[job].invoice, 0), tx);
  }

  lemma CrashAfforded(s: State, job: nat, marked: bool, tx: nat)
    requires RowsOk(s) && job in s.jobs
    ensures Afforded(s, Step(s, CrashOp(job, marked)), false, tx)
  {
    JobTaken(s.jobs, job, tx);
    JobAdded(s.jobs - {job}, job, s.jobs[job].(attempts := s.jobs[job].attempts + 1), tx);
  }

  lemma StepAfforded(s: State, op: Op, tx: nat)
    requires RowsOk(s)
    ensures Afforded(s, Step(s, op), Sends(s, op, tx), tx)
  {
    match op
    case AddInvoice(direction) =>
    case SubmitOp(invoice, checks) =>
      if Opens(s, invoice, checks) {
        SubmitWrites(s, invoice, checks);
        JobAdded(s.jobs, s.nextJob, Job(SubmitKind, |s.txs|, invoice, 0), tx);
      }
    case RetryOp(t, checks) =>
      if Retry(s, t, checks).Ok? {
        RetryWrites(s, t, checks);
        JobAdded(s.jobs, s.nextJob, Job(SubmitKind, t, s.txs[t].invoice, 0), tx);
      }
    case SubmitJobOp(job, o) => if RunsJob(s, op) { SubmitJobAfforded(s, job, o, tx); }
    case PollJobOp(job, a) => if RunsJob(s, op) { PollJobAfforded(s, job, a, tx); }
    case CrashOp(job, marked) => if RunsJob(s, op) { CrashAfforded(s, job, marked, tx); }
  }

  /** Over every run and for either direction, manual retries beside automatic ones included: the submit jobs of a
      transmission that ran to completion and those still to run are together at most its attempts, and these at
      most five. */
  lemma {:induction false} SendingIsBounded(ops: seq<Op>, tx: nat)
    ensures SubmitJobsRun(ops, tx) + |SubmitJobsOf(Run(ops).jobs, tx)| <= AttemptOf(Run(ops), tx) <= 5
    ensures tx < |Run(ops).txs| ==> 1 <= AttemptOf(Run(ops), tx)
    decreases |ops|
  {
    if ops == [] {
      assert SubmitJobsOf(EMPTY.jobs, tx) == {};
    } else {
      var init, op := ops[..|ops| - 1], ops[|ops| - 1];
      SendingIsBounded(init, tx);
      Reachable(init, Sales);
      StepAfforded(Run(init), op, tx);
    }
  }
}
