/** `TransmissionService`, the worker's two job handlers and its claim loop as they run: rows updated field by
    field, jobs inserted and removed. Each method is proved against the step of `Transmission` it performs. */
module TransmissionService {
  import opened Prelude
  import opened Transmission

  class TransmissionStore {
    var invoices: seq<Invoice>
    var txs: seq<Tx>
    var jobs: map<nat, Job>
    var nextJob: nat

    function Rows(): State
      reads this
    {
      State(invoices, txs, jobs, nextJob)
    }

    constructor ()
      ensures Rows() == EMPTY
    {
      invoices, txs, jobs, nextJob := [], [], map[], 0;
    }

    method AddJob(kind: JobKind, tx: nat, invoice: nat)
      modifies this`jobs, this`nextJob
      ensures Rows() == Enqueue(old(Rows()), kind, tx, invoice)
    {
      jobs := jobs[nextJob := Job(kind, tx, invoice, 0)];
      nextJob := nextJob + 1;
    }

    // ---- TransmissionService ----

    method SyncInvoice(id: nat, st: TxStatus, number: Option<string>)
      modifies this`invoices
      ensures invoices == Sync(old(invoices), id, st, number)
    {
      if !Terminal(st) || id >= |invoices| {
        return;
      }
      var target := if st == Success then Accepted else Rejected;
      var invoice := invoices[id];
      if invoice.status == target {
        if target == Accepted && Given(number) && invoice.ksefNumber != number {
          invoice := invoice.(ksefNumber := number);
          invoices := invoices[id := invoice];
        }
        return;
      }
      if invoice.status != Sending {
        return;
      }
      if target == Rejected {
        invoice := invoice.(status := Rejected);
      } else {
        invoice := invoice.(status := Accepted);
        if Given(number) {
          invoice := invoice.(ksefNumber := number);
        }
      }
      invoices := invoices[id := invoice];
    }

    method SubmitInvoice(id: nat, c: Checks) returns (r: Result<nat, Error>)
      modifies this
      ensures match Submit(old(Rows()), id, c)
              case Ok(done) => r == Ok(done.1) && Rows() == done.0
              case Err(e) => r == Err(e) && Rows() == old(Rows())
    {
      if id >= |invoices| {
        return Err(NotFound);
      }
      var invoice := invoices[id];
      if invoice.status == Sending {
        if c.keyBefore.None? {
          return Err(InvalidInvoice);
        }
        var sent := ReuseByKey(txs, c.keyBefore.value);
        if sent.Some? {
          return Ok(sent.value);
        }
      }
      if invoice.status == Rejected {
        if invoice.direction != Sale {
          return Err(InvalidTransition);
        }
      } else if invoice.status != ReadyForSubmission {
        return Err(InvalidTransition);
      }
      var active := ActiveFor(txs, id);
      if active.Err? {
        return Err(active.error);
      }
      if active.value.Some? || !c.prepared || !c.valid || c.key.None? {
        return Err(InvalidInvoice);
      }
      var reused := ReuseByKey(txs, c.key.value);
      if reused.Some? {
        return Ok(reused.value);
      }
      if ByKey(txs, c.key.value).Some? {
        return Err(KeyTaken);
      }
      var tx := |txs|;
      txs := txs + [Tx(id, Queued, 1, c.key.value, None)];
      invoices := invoices[id := invoice.(status := Sending)];
      AddJob(SubmitKind, tx, id);
      return Ok(tx);
    }

    method RetryTransmission(tx: nat, c: Checks) returns (r: Result<(), Error>)
      modifies this
      ensures match Retry(old(Rows()), tx, c)
              case Ok(s) => r.Ok? && Rows() == s
              case Err(e) => r == Err(e) && Rows() == old(Rows())
    {
      if tx >= |txs| {
        return Err(NotFound);
      }
      if !Retryable(txs[tx].status) || txs[tx].attempt >= MAX_ATTEMPTS {
        return Err(InvalidInvoice);
      }
      var id := txs[tx].invoice;
      if id >= |invoices| {
        return Err(NotFound);
      }
      if invoices[id].direction == Sale {
        if !c.prepared || !c.valid {
          return Err(InvalidInvoice);
        }
        if invoices[id].status != ReadyForSubmission && invoices[id].status != Rejected {
          return Err(InvalidInvoice);
        }
      }
      var other := ActiveFor(txs, id);
      if other.Err? {
        return Err(other.error);
      }
      if other.value.Some? && other.value.value != tx {
        return Err(InvalidInvoice);
      }
      txs := txs[tx := txs[tx].(attempt := txs[tx].attempt + 1)];
      txs := txs[tx := txs[tx].(status := Queued)];
      AddJob(SubmitKind, tx, id);
      return Ok(());
    }

    // ---- SubmitInvoiceJobHandler ----

    /** Changes the copy it is given; no caller saves it. */
    method ReturnToReady(copy: Invoice) returns (changed: Invoice)
      ensures changed == if copy.status == Sending then copy.(status := ReadyForSubmission) else copy
    {
      changed := copy;
      if changed.status == Sending {
        changed := changed.(status := ReadyForSubmission);
      }
    }

    method SetStatus(tx: nat, st: TxStatus)
      requires tx < |txs|
      modifies this`txs
      ensures txs == old(txs)[tx := old(txs)[tx].(status := st)]
    {
      txs := txs[tx := txs[tx].(status := st)];
    }

    method MarkPermanentFailure(tx: nat)
      requires tx < |txs|
      modifies this`txs, this`invoices
      ensures txs == old(txs)[tx := old(txs)[tx].(status := FailedPermanent)]
      ensures invoices == Sync(old(invoices), old(txs)[tx].invoice, FailedPermanent, None)
    {
      SetStatus(tx, FailedPermanent);
      SyncInvoice(txs[tx].invoice, FailedPermanent, None);
    }

    method MarkTemporaryFailureAndRetry(tx: nat)
      requires tx < |txs|
      modifies this`txs, this`jobs, this`nextJob
      ensures Rows() == Enqueue(old(Rows()).(txs := old(txs)[tx := old(txs)[tx].(
                status := FailedTemporary, attempt := old(txs)[tx].attempt + 1)]), SubmitKind, tx, old(txs)[tx].invoice)
    {
      txs := txs[tx := txs[tx].(attempt := txs[tx].attempt + 1)];
      SetStatus(tx, FailedTemporary);
      AddJob(SubmitKind, tx, txs[tx].invoice);
    }

    method HandleSubmit(tx: nat, invoice: nat, o: Outcome)
      modifies this
      ensures Rows() == Transmission.HandleSubmit(old(Rows()), tx, invoice, o)
    {
      if tx >= |txs| {
        return;
      }
      SetStatus(tx, Processing);
      if invoice >= |invoices| {
        SetStatus(tx, FailedPermanent);
        return;
      }
      Conclude(tx, invoice, o);
    }

    /** What the handler does once the attempt to send has ended. */
    method Conclude(tx: nat, invoice: nat, o: Outcome)
      requires tx < |txs| && invoice < |invoices|
      modifies this
      ensures Rows() == Transmission.HandleSubmit(old(Rows()), tx, invoice, o)
    {
      match o {
        case Sent =>
          SetStatus(tx, Submitted);
          AddJob(PollKind, tx, txs[tx].invoice);
        case MappingError =>
          MarkPermanentFailure(tx);
        case SaleInvalid =>
          MarkPermanentFailure(tx);
        case NoSession =>
          var _ := ReturnToReady(invoices[invoice]);
          SetStatus(tx, FailedRetryable);
        case NotConnected =>
          var _ := ReturnToReady(invoices[invoice]);
          SetStatus(tx, FailedRetryable);
        case SessionExpired =>
          var _ := ReturnToReady(invoices[invoice]);
          SetStatus(tx, FailedRetryable);
        case ClientError(transient) =>
          if transient && txs[tx].attempt < MAX_ATTEMPTS {
            var _ := ReturnToReady(invoices[invoice]);
            MarkTemporaryFailureAndRetry(tx);
          } else {
            MarkPermanentFailure(tx);
          }
        case Unexpected =>
          if txs[tx].attempt < MAX_ATTEMPTS {
            MarkTemporaryFailureAndRetry(tx);
          } else {
            MarkPermanentFailure(tx);
          }
      }
    }

    // ---- PollKSeFStatusJobHandler ----

    method HandlePoll(tx: nat, a: Answer)
      modifies this
      ensures Rows() == Transmission.HandlePoll(old(Rows()), tx, a)
    {
      if tx >= |txs| {
        return;
      }
      var invoice := txs[tx].invoice;
      if Terminal(txs[tx].status) {
        SyncInvoice(invoice, txs[tx].status, txs[tx].ksefNumber);
        return;
      }
      if a.Code? && a.code == 200 {
        SetStatus(tx, Success);
        txs := txs[tx := txs[tx].(ksefNumber := a.number)];
        SyncInvoice(invoice, Success, a.number);
      } else if a.Code? && Permanent(a.code) {
        SetStatus(tx, FailedPermanent);
        SyncInvoice(invoice, FailedPermanent, None);
      } else {
        SetStatus(tx, WaitingStatus);
        AddJob(PollKind, tx, invoice);
      }
    }

    // ---- Worker ----

    /** Claims a pending job and runs its handler to the end. */
    method RunJob(job: nat, o: Outcome, a: Answer)
      requires job in jobs
      modifies this
      ensures Rows() ==
              Step(old(Rows()), if old(jobs)[job].kind == SubmitKind then SubmitJobOp(job, o) else PollJobOp(job, a))
    {
      var j := jobs[job];
      jobs := jobs - {job};
      if j.kind == SubmitKind {
        HandleSubmit(j.tx, j.invoice, o);
      } else {
        HandlePoll(j.tx, a);
      }
    }

    /** Claims a pending job whose handler raises: it is pending again, or failed at its last claim. */
    method CrashJob(job: nat, marked: bool)
      requires job in jobs
      modifies this
      ensures Rows() == Step(old(Rows()), CrashOp(job, marked))
    {
      var j := jobs[job];
      j := j.(attempts := j.attempts + 1);
      jobs := jobs - {job};
      if marked && j.kind == SubmitKind && j.tx < |txs| {
        SetStatus(j.tx, Processing);
      }
      if j.attempts < MAX_ATTEMPTS {
        jobs := jobs[job := j];
      }
    }
  }
}
