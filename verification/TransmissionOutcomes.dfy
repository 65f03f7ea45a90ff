/** What each call and each job leaves behind, status by status: for every outcome of sending, every answer of KSeF,
    every submit and every retry. */
module TransmissionOutcomes {
  import opened Prelude
  import opened Transmission
  import opened TransmissionInvariants
  import TransmissionTokens

  // ---- The submit job ----

  predicate LosesConnection(o: Outcome) {
    o == NoSession || o == NotConnected || o == SessionExpired
  }

  /** A transient or unexpected failure, before the fifth attempt. */
  predicate TriesAgain(o: Outcome, attempt: nat) {
    (o == ClientError(true) || o == Unexpected) && attempt < 5
  }

  /** A rejection reaches an invoice that is in sending. */
  function RejectedNow(inv: Invoice): Invoice {
    match inv.status
    case Sending => inv.(status := Rejected)
    case _ => inv
  }

  /** A success reaches an invoice that is in sending or already accepted, with the number if there is one. */
  function AcceptedNow(inv: Invoice, number: Option<string>): Invoice {
    match inv.status
    case Sending => inv.(status := Accepted, ksefNumber := Numbered(inv, number))
    case Accepted => inv.(ksefNumber := Numbered(inv, number))
    case _ => inv
  }

  function Numbered(inv: Invoice, number: Option<string>): Option<string> {
    match number
    case None => inv.ksefNumber
    case Some(text) => if |text| == 0 then inv.ksefNumber else number
  }

  /** The rows after a job on transmission `tx`: it and its invoice rewritten, `job` gone, and `follow` pending. */
  function After(s: State, job: nat, tx: nat, t: Tx, inv: Invoice, follow: Option<JobKind>): State
    requires tx < |s.txs| && s.txs[tx].invoice < |s.invoices|
  {
    State(s.invoices[s.txs[tx].invoice := inv], s.txs[tx := t],
          match follow
          case None => s.jobs - {job}
          case Some(kind) => (s.jobs - {job})[s.nextJob := Job(kind, tx, s.txs[tx].invoice, 0)],
          if follow == None then s.nextJob else s.nextJob + 1)
  }

  /** What a submit job does, for every outcome and attempt: a lost session or connection leaves the transmission
      retryable, without a job, and its invoice as it was; a transient or unexpected failure before the fifth attempt
      counts the attempt and leaves one submit job; sending leaves one poll job; anything else is permanent and rejects
      an invoice in sending. */
  lemma SubmitJobLeaves(s: State, job: nat, o: Outcome)
    requires RowsOk(s) && job in s.jobs && s.jobs[job].kind == SubmitKind
    ensures var tx := s.jobs[job].tx; var t := s.txs[tx]; var inv := s.invoices[t.invoice];
            Step(s, SubmitJobOp(job, o)) ==
              if o == Sent then After(s, job, tx, t.(status := Submitted), inv, Some(PollKind))
              else if LosesConnection(o) then After(s, job, tx, t.(status := FailedRetryable), inv, None)
              else if TriesAgain(o, t.attempt)
              then After(s, job, tx, t.(status := FailedTemporary, attempt := t.attempt + 1), inv, Some(SubmitKind))
              else After(s, job, tx, t.(status := FailedPermanent), RejectedNow(inv), None)
  {
  }

  /** In every reachable state a submit job of a sale that fails for good leaves the sale rejected. */
  lemma {:induction false} SubmitJobOfSale(ops: seq<Op>, job: nat, o: Outcome)
    requires job in Run(ops).jobs && Run(ops).jobs[job].kind == SubmitKind
    requires InScope(Run(ops), Run(ops).jobs[job].tx, Sales)
    ensures RowsOk(Run(ops))
    ensures var s := Run(ops); var i := s.txs[s.jobs[job].tx].invoice;
            var s' := Step(s, SubmitJobOp(job, o));
            && s.invoices[i].status == Sending && |s'.invoices| == |s.invoices|
            && s'.invoices[i].status ==
                 if o == Sent || LosesConnection(o) || TriesAgain(o, s.txs[s.jobs[job].tx].attempt) then Sending
                 else Rejected
  {
    Reachable(ops, Sales);
    JobOwner(Run(ops), job, Sales);
    SubmitJobLeaves(Run(ops), job, o);
  }

  // ---- The poll job ----

  predicate RejectsFor(a: Answer) {
    match a
    case NoAnswer => false
    case Code(code, _) => code in {400, 401, 403, 404, 422}
  }

  predicate Succeeds(a: Answer) {
    match a
    case NoAnswer => false
    case Code(code, _) => code == 200
  }

  function NumberIn(a: Answer): Option<string> {
    match a
    case NoAnswer => None
    case Code(_, number) => number
  }

  /** What a poll of a transmission under way does: 200 makes it successful and carries the number to it and its
      invoice; 400, 401, 403, 404 and 422 reject; after every other code, and after no answer, it waits and is polled
      again. */
  lemma PollJobLeaves(s: State, job: nat, a: Answer)
    requires RowsOk(s) && job in s.jobs && s.jobs[job].kind == PollKind
    requires s.txs[s.jobs[job].tx].status != Success && s.txs[s.jobs[job].tx].status != FailedPermanent
    ensures var tx := s.jobs[job].tx; var t := s.txs[tx]; var inv := s.invoices[t.invoice];
            Step(s, PollJobOp(job, a)) ==
              if Succeeds(a)
              then After(s, job, tx, t.(status := Success, ksefNumber := NumberIn(a)), AcceptedNow(inv, NumberIn(a)),
                         None)
              else if RejectsFor(a) then After(s, job, tx, t.(status := FailedPermanent), RejectedNow(inv), None)
              else After(s, job, tx, t.(status := WaitingStatus), inv, Some(PollKind))
  {
  }

  /** A poll that finds the transmission finished only carries its end to the invoice. */
  lemma PollOfFinished(s: State, job: nat, a: Answer)
    requires RowsOk(s) && job in s.jobs && s.jobs[job].kind == PollKind
    requires s.txs[s.jobs[job].tx].status == Success || s.txs[s.jobs[job].tx].status == FailedPermanent
    ensures var tx := s.jobs[job].tx; var t := s.txs[tx]; var inv := s.invoices[t.invoice];
            Step(s, PollJobOp(job, a)) ==
              After(s, job, tx, t, if t.status == Success then AcceptedNow(inv, t.ksefNumber) else RejectedNow(inv),
                    None)
  {
  }

  /** In every reachable state a poll of a sale rejects it exactly for the five codes, accepts it exactly for 200, and
      otherwise leaves it in sending with one poll job of the transmission pending. */
  lemma {:induction false} PollJobOfSale(ops: seq<Op>, job: nat, a: Answer)
    requires job in Run(ops).jobs && Run(ops).jobs[job].kind == PollKind
    requires InScope(Run(ops), Run(ops).jobs[job].tx, Sales)
    ensures RowsOk(Run(ops))
    ensures var s := Run(ops); var tx := s.jobs[job].tx; var i := s.txs[tx].invoice;
            var s' := Step(s, PollJobOp(job, a));
            && |s'.invoices| == |s.invoices| && |s'.txs| == |s.txs|
            && (s'.invoices[i].status == Rejected <==> RejectsFor(a))
            && (s'.invoices[i].status == Accepted <==> Succeeds(a))
            && (s'.invoices[i].status == Sending <==> !RejectsFor(a) && !Succeeds(a))
            && (s'.txs[tx].status == FailedPermanent <==> RejectsFor(a))
            && (s'.txs[tx].status == Success <==> Succeeds(a))
            && (!RejectsFor(a) && !Succeeds(a) <==> (exists j :: j in s'.jobs && s'.jobs[j].tx == tx))
  {
    var s := Run(ops);
    Reachable(ops, Sales);
    JobOwner(s, job, Sales);
    PollJobLeaves(s, job, a);
    var s' := Step(s, PollJobOp(job, a));
    assert forall j :: j in s.jobs && s.jobs[j].tx == s.jobs[job].tx ==> j == job;
    if !RejectsFor(a) && !Succeeds(a) {
      assert s'.jobs[s.nextJob].tx == s.jobs[job].tx;
    }
  }

  // ---- Crashes ----

  /** A crash leaves the job pending with one claim more, until the fifth claim; a submit job may by then have marked
      its transmission as processing. */
  lemma CrashLeaves(s: State, job: nat, marked: bool)
    requires RowsOk(s) && job in s.jobs
    ensures var j := s.jobs[job];
            Step(s, CrashOp(job, marked)) ==
              s.(txs := if marked && j.kind == SubmitKind then s.txs[j.tx := s.txs[j.tx].(status := Processing)]
                        else s.txs,
                 jobs := if j.attempts < 4 then s.jobs[job := j.(attempts := j.attempts + 1)] else s.jobs - {job})
  {
    assert (s.jobs - {job})[job := s.jobs[job].(attempts := s.jobs[job].attempts + 1)]
           == s.jobs[job := s.jobs[job].(attempts := s.jobs[job].attempts + 1)];
  }

  // ---- Submit and retry ----

  predicate UnderWay(st: TxStatus) {
    match st
    case Queued => true
    case Processing => true
    case Submitted => true
    case WaitingStatus => true
    case _ => false
  }

  /** A transmission with the content that is under way or has succeeded, which a submit answers with again. */
  predicate Answers(s: State, key: string, t: nat) {
    t < |s.txs| && s.txs[t].key == key && (UnderWay(s.txs[t].status) || s.txs[t].status == Success)
  }

  ghost predicate Known(s: State, key: string) {
    exists t: nat :: t < |s.txs| && s.txs[t].key == key
  }

  lemma ReuseIs(s: State, key: string)
    requires RowsOk(s)
    ensures ReuseByKey(s.txs, key).Some? ==> Answers(s, key, ReuseByKey(s.txs, key).value)
    ensures forall t: nat :: Answers(s, key, t) ==> ReuseByKey(s.txs, key) == Some(t)
    ensures ByKey(s.txs, key).Some? <==> Known(s, key)
  {
    ByKeyIs(s.txs, key);
    if ByKey(s.txs, key).Some? {
      assert s.txs[ByKey(s.txs, key).value].key == key;
    }
    forall t: nat | Answers(s, key, t) ensures ReuseByKey(s.txs, key) == Some(t) {
      assert s.txs[t].key == key;
    }
  }

  /** A submit of an invoice in sending gives back the transmission of the same content, under way or successful, or
      is refused; nothing changes. */
  lemma SubmitWhileSending(s: State, i: nat, c: Checks)
    requires RowsOk(s) && i < |s.invoices| && s.invoices[i].status == Sending
    ensures c.keyBefore == None ==> Submit(s, i, c) == Err(InvalidInvoice)
    ensures c.keyBefore != None ==> forall t: nat :: Answers(s, c.keyBefore.value, t) ==> Submit(s, i, c) == Ok((s, t))
    ensures c.keyBefore != None && (forall t: nat :: !Answers(s, c.keyBefore.value, t)) ==>
              Submit(s, i, c) == Err(InvalidTransition)
  {
    if c.keyBefore.Some? {
      ReuseIs(s, c.keyBefore.value);
    }
  }

  /** A submit of an invoice that does not exist, is accepted, or is a rejected purchase is refused. */
  lemma SubmitRefused(s: State, i: nat, c: Checks)
    ensures i >= |s.invoices| ==> Submit(s, i, c) == Err(NotFound)
    ensures i < |s.invoices| && s.invoices[i].status == Accepted ==> Submit(s, i, c) == Err(InvalidTransition)
    ensures i < |s.invoices| && s.invoices[i].status == Rejected && s.invoices[i].direction == Purchase ==>
              Submit(s, i, c) == Err(InvalidTransition)
  {
  }

  /** Nothing of the invoice is under way. */
  ghost predicate Idle(s: State, i: nat) {
    forall t: nat :: t < |s.txs| && s.txs[t].invoice == i ==> !UnderWay(s.txs[t].status)
  }

  lemma IdleIs(s: State, i: nat)
    ensures ActiveFor(s.txs, i) == Ok(None) <==> Idle(s, i)
  {
    var rows := ActiveRows(s.txs, i);
    ActiveRowsAre(s.txs, i);
    if rows != [] {
      assert rows[0] in rows;
    }
    forall t: nat | t < |s.txs| && s.txs[t].invoice == i && UnderWay(s.txs[t].status) ensures rows != [] {
      assert IsActiveRow(s.txs, i, t) && t in rows;
    }
  }

  /** The first submit of an idle invoice: what the checks find is refused; known content is answered with its
      transmission, or refused when that one failed; new content opens a transmission, queued at its first attempt, with
      one submit job, and puts the invoice in sending. */
  lemma SubmitOfIdle(s: State, i: nat, c: Checks)
    requires RowsOk(s) && i < |s.invoices| && Idle(s, i)
    requires s.invoices[i].status == ReadyForSubmission
             || (s.invoices[i].status == Rejected && s.invoices[i].direction == Sale)
    ensures !c.prepared || !c.valid || c.key == None ==> Submit(s, i, c) == Err(InvalidInvoice)
    ensures c.prepared && c.valid && c.key != None ==>
              && (forall t: nat :: Answers(s, c.key.value, t) ==> Submit(s, i, c) == Ok((s, t)))
              && (Known(s, c.key.value) && (forall t: nat :: !Answers(s, c.key.value, t)) ==>
                    Submit(s, i, c) == Err(KeyTaken))
              && (!Known(s, c.key.value) ==>
                    Submit(s, i, c) ==
                    Ok((State(s.invoices[i := s.invoices[i].(status := Sending)],
                              s.txs + [Tx(i, Queued, 1, c.key.value, None)],
                              s.jobs[s.nextJob := Job(SubmitKind, |s.txs|, i, 0)], s.nextJob + 1), |s.txs|)))
  {
    IdleIs(s, i);
    if c.key.Some? {
      ReuseIs(s, c.key.value);
    }
  }

  predicate UnderWayFor(s: State, i: nat, t: nat) {
    t < |s.txs| && s.txs[t].invoice == i && UnderWay(s.txs[t].status)
  }

  /** The query for the active transmission meets two rows. */
  ghost predicate Twice(s: State, i: nat) {
    exists t: nat, u: nat :: t < u && UnderWayFor(s, i, t) && UnderWayFor(s, i, u)
  }

  lemma TwoRowsMet(s: State, i: nat)
    requires |ActiveRows(s.txs, i)| >= 2
    ensures Twice(s, i)
  {
    var rows := ActiveRows(s.txs, i);
    ActiveRowsAre(s.txs, i);
    assert rows[0] in rows && rows[1] in rows;
    assert UnderWayFor(s, i, rows[0]) && UnderWayFor(s, i, rows[1]);
  }

  lemma RowIsMet(s: State, i: nat, t: nat) returns (k: nat)
    requires UnderWayFor(s, i, t)
    ensures k < |ActiveRows(s.txs, i)| && ActiveRows(s.txs, i)[k] == t
  {
    ActiveRowsAre(s.txs, i);
    assert IsActiveRow(s.txs, i, t);
    k :| 0 <= k < |ActiveRows(s.txs, i)| && ActiveRows(s.txs, i)[k] == t;
  }

  lemma TwiceIs(s: State, i: nat)
    ensures ActiveFor(s.txs, i).Err? <==> Twice(s, i)
    ensures ActiveFor(s.txs, i).Err? ==> ActiveFor(s.txs, i).error == ManyRows
  {
    if |ActiveRows(s.txs, i)| >= 2 {
      TwoRowsMet(s, i);
    } else if Twice(s, i) {
      var t: nat, u: nat :| t < u && UnderWayFor(s, i, t) && UnderWayFor(s, i, u);
      var j := RowIsMet(s, i, t);
      var k := RowIsMet(s, i, u);
      assert false;
    }
  }

  /** A submit of an invoice that may be submitted but has something under way is refused, by an exception of the query
      when there are two. */
  lemma SubmitOfBusy(s: State, i: nat, c: Checks)
    requires i < |s.invoices| && !Idle(s, i)
    requires s.invoices[i].status == ReadyForSubmission
             || (s.invoices[i].status == Rejected && s.invoices[i].direction == Sale)
    ensures Submit(s, i, c) == Err(if Twice(s, i) then ManyRows else InvalidInvoice)
  {
    IdleIs(s, i);
    TwiceIs(s, i);
  }

  predicate MayRetry(t: Tx) {
    (t.status == FailedRetryable || t.status == FailedTemporary) && t.attempt < 5
  }

  /** In every reachable state a manual retry gets through exactly for a purchase whose transmission failed retryable
      or temporarily, before its fifth attempt, with nothing of the invoice under way; it queues the transmission for
      one attempt more, with one submit job more, and changes nothing else. */
  lemma {:induction false} RetryIff(ops: seq<Op>, tx: nat, c: Checks)
    ensures var s := Run(ops);
            Retry(s, tx, c).Ok? <==>
              && InScope(s, tx, Everyone) && s.invoices[s.txs[tx].invoice].direction == Purchase
              && MayRetry(s.txs[tx]) && Idle(s, s.txs[tx].invoice)
    ensures var s := Run(ops);
            Retry(s, tx, c).Ok? ==>
              && tx < |s.txs|
              && Retry(s, tx, c).value ==
                 State(s.invoices, s.txs[tx := s.txs[tx].(attempt := s.txs[tx].attempt + 1, status := Queued)],
                       s.jobs[s.nextJob := Job(SubmitKind, tx, s.txs[tx].invoice, 0)], s.nextJob + 1)
  {
    Reachable(ops, Sales);
    RetryVerdict(Run(ops), tx, c);
  }

  lemma RetryVerdict(s: State, tx: nat, c: Checks)
    requires Inv(s, Sales)
    ensures Retry(s, tx, c).Ok? <==>
              && InScope(s, tx, Everyone) && s.invoices[s.txs[tx].invoice].direction == Purchase
              && MayRetry(s.txs[tx]) && Idle(s, s.txs[tx].invoice)
    ensures Retry(s, tx, c).Ok? ==> Retried(s, Retry(s, tx, c).value, tx)
  {
    if tx < |s.txs| {
      IdleIs(s, s.txs[tx].invoice);
      if Retryable(s.txs[tx].status) {
        OnlyOthersActive(s, tx);
      }
      if s.invoices[s.txs[tx].invoice].direction == Sale {
        RetryRefusesSales(s, tx, c, Sales);
      }
    }
  }

  /** A transmission that can be retried is not itself under way. */
  lemma OnlyOthersActive(s: State, tx: nat)
    requires tx < |s.txs| && Retryable(s.txs[tx].status)
    ensures ActiveFor(s.txs, s.txs[tx].invoice) != Ok(Some(tx))
  {
    ActiveRowsAre(s.txs, s.txs[tx].invoice);
    var rows := ActiveRows(s.txs, s.txs[tx].invoice);
    if rows != [] {
      assert rows[0] in rows;
    }
  }

  /** Why a retry is refused. */
  lemma RetryRefused(s: State, tx: nat, c: Checks)
    ensures tx >= |s.txs| ==> Retry(s, tx, c) == Err(NotFound)
    ensures tx < |s.txs| && !MayRetry(s.txs[tx]) ==> Retry(s, tx, c) == Err(InvalidInvoice)
    ensures InScope(s, tx, Everyone) && s.invoices[s.txs[tx].invoice].direction == Purchase && MayRetry(s.txs[tx])
            && !Idle(s, s.txs[tx].invoice) ==>
              Retry(s, tx, c) == Err(if Twice(s, s.txs[tx].invoice) then ManyRows else InvalidInvoice)
  {
    if InScope(s, tx, Everyone) && MayRetry(s.txs[tx]) {
      IdleIs(s, s.txs[tx].invoice);
      TwiceIs(s, s.txs[tx].invoice);
      OnlyOthersActive(s, tx);
    }
  }

  /** In any state, reachable or not, a sale is retried only after the checks of a first submit: prepared, valid, and
      ready or rejected. */
  lemma RetryChecksSales(s: State, tx: nat, c: Checks)
    requires InScope(s, tx, Sales) && MayRetry(s.txs[tx])
    ensures var inv := s.invoices[s.txs[tx].invoice];
            var passes := c.prepared && c.valid && inv.status != Sending && inv.status != Accepted;
            && (!passes ==> Retry(s, tx, c) == Err(InvalidInvoice))
            && (passes && Idle(s, s.txs[tx].invoice) ==> Retry(s, tx, c).Ok? && Retried(s, Retry(s, tx, c).value, tx))
            && (passes && !Idle(s, s.txs[tx].invoice) ==> Retry(s, tx, c).Err?)
  {
    IdleIs(s, s.txs[tx].invoice);
    OnlyOthersActive(s, tx);
  }

  /** A submit job whose invoice is gone ends its transmission for good, and nothing else. */
  lemma InvoiceIsGone(s: State, tx: nat, invoice: nat, o: Outcome)
    requires tx < |s.txs| && invoice >= |s.invoices|
    ensures HandleSubmit(s, tx, invoice, o) == s.(txs := s.txs[tx := s.txs[tx].(status := FailedPermanent)])
  {
  }

  // ---- A lost session ----

  const FIRST := Checks(true, true, None, Some("k"))

  const QUEUED := State([Invoice(Sale, Sending, None)], [Tx(0, Queued, 1, "k", None)],
                        map[0 := Job(SubmitKind, 0, 0, 0)], 1)

  const LOST := State([Invoice(Sale, Sending, None)], [Tx(0, FailedRetryable, 1, "k", None)], map[], 1)

  lemma OneMoreStep(ops: seq<Op>, op: Op)
    ensures Run(ops + [op]) == Step(Run(ops), op)
  {
    assert (ops + [op])[..|ops|] == ops;
  }

  lemma SaleIsQueued()
    ensures Run([AddInvoice(Sale), SubmitOp(0, FIRST)]) == QUEUED
  {
    OneMoreStep([], AddInvoice(Sale));
    assert [] + [AddInvoice(Sale)] == [AddInvoice(Sale)];
    OneMoreStep([AddInvoice(Sale)], SubmitOp(0, FIRST));
    assert [AddInvoice(Sale)] + [SubmitOp(0, FIRST)] == [AddInvoice(Sale), SubmitOp(0, FIRST)];
    assert ActiveRows([], 0) == [] && ByKey([], "k") == None;
  }

  /** A concrete run: a sale added, submitted, and its session expired; it is stuck. */
  lemma SessionIsLost()
    ensures Run([AddInvoice(Sale), SubmitOp(0, FIRST), SubmitJobOp(0, SessionExpired)]) == LOST
    ensures TransmissionTokens.Stuck(LOST, 0)
  {
    SaleIsQueued();
    OneMoreStep([AddInvoice(Sale), SubmitOp(0, FIRST)], SubmitJobOp(0, SessionExpired));
    assert [AddInvoice(Sale), SubmitOp(0, FIRST)] + [SubmitJobOp(0, SessionExpired)]
           == [AddInvoice(Sale), SubmitOp(0, FIRST), SubmitJobOp(0, SessionExpired)];
    assert QUEUED.jobs - {0} == map[];
  }
}
