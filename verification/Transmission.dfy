/** The KSeF transmission protocol on values: user submit and retry, the worker's submit and poll jobs, and
    the glue that carries a transmission's end to its invoice. What KSeF and the validators answer is input. */
module Transmission {
  import opened Prelude

  datatype Direction = Sale | Purchase

  datatype InvoiceStatus = ReadyForSubmission | Sending | Accepted | Rejected

  datatype Invoice = Invoice(direction: Direction, status: InvoiceStatus, ksefNumber: Option<string>)

  datatype TxStatus =
    | Queued | Processing | Submitted | WaitingStatus
    | Success | FailedTemporary | FailedRetryable | FailedPermanent

  datatype Tx = Tx(invoice: nat, status: TxStatus, attempt: nat, key: string, ksefNumber: Option<string>)

  datatype JobKind = SubmitKind | PollKind

  /** A pending background job; `attempts` counts the claims that ended in an exception. */
  datatype Job = Job(kind: JobKind, tx: nat, invoice: nat, attempts: nat)

  /** Invoices and transmissions are never deleted: the index is the id. `jobs` are the pending ones. */
  datatype State = State(invoices: seq<Invoice>, txs: seq<Tx>, jobs: map<nat, Job>, nextJob: nat)

  datatype Error = NotFound | InvalidTransition | InvalidInvoice | KeyTaken | ManyRows

  const EMPTY := State([], [], map[], 0)

  const MAX_ATTEMPTS := 5

  // ---- Status sets ----

  predicate Active(st: TxStatus) {
    st == Queued || st == Processing || st == Submitted || st == WaitingStatus
  }

  predicate Retryable(st: TxStatus) {
    st == FailedRetryable || st == FailedTemporary
  }

  predicate Terminal(st: TxStatus) {
    st == Success || st == FailedPermanent
  }

  predicate Reusable(st: TxStatus) {
    Active(st) || st == Success
  }

  // ---- Queries ----

  function ActiveRows(txs: seq<Tx>, invoice: nat): seq<nat> {
    if txs == [] then []
    else
      var n := |txs| - 1;
      ActiveRows(txs[..n], invoice) + if txs[n].invoice == invoice && Active(txs[n].status) then [n] else []
  }

  /** `get_active_for_invoice` ends in `scalar_one_or_none`: two rows are an exception. */
  function ActiveFor(txs: seq<Tx>, invoice: nat): Result<Option<nat>, Error> {
    var rows := ActiveRows(txs, invoice);
    if |rows| == 0 then Ok(None) else if |rows| == 1 then Ok(Some(rows[0])) else Err(ManyRows)
  }

  /** The transmission with an idempotency key; the column is unique. */
  function ByKey(txs: seq<Tx>, key: string): Option<nat> {
    if txs == [] then None
    else if txs[|txs| - 1].key == key then Some(|txs| - 1)
    else ByKey(txs[..|txs| - 1], key)
  }

  function ReuseByKey(txs: seq<Tx>, key: string): Option<nat> {
    var row := ByKey(txs, key);
    if row.Some? && row.value < |txs| && Reusable(txs[row.value].status) then row else None
  }

  // ---- Glue ----

  predicate Given(text: Option<string>) {
    text.Some? && text.value != ""
  }

  /** `sync_invoice_from_terminal_transmission`. */
  function Sync(invoices: seq<Invoice>, id: nat, st: TxStatus, number: Option<string>): (r: seq<Invoice>)
    ensures |r| == |invoices|
  {
    if !Terminal(st) || id >= |invoices| then invoices
    else
      var target := if st == Success then Accepted else Rejected;
      var inv := invoices[id];
      var numbered := if target == Accepted && Given(number) then inv.(ksefNumber := number) else inv;
      if inv.status == target then invoices[id := numbered]
      else if inv.status != Sending then invoices
      else invoices[id := numbered.(status := target)]
  }

  function Enqueue(s: State, kind: JobKind, tx: nat, invoice: nat): State {
    s.(jobs := s.jobs[s.nextJob := Job(kind, tx, invoice, 0)], nextJob := s.nextJob + 1)
  }

  // ---- User calls ----

  /** What the environment answers during a submit or retry: whether preparing the invoice succeeds, whether
      the validators and the session check pass, and the content hashes (None: mapping error). The document
      carries a timestamp, so two builds of one invoice may hash differently. */
  datatype Checks = Checks(prepared: bool, valid: bool, keyBefore: Option<string>, key: Option<string>)

  function Submit(s: State, id: nat, c: Checks): Result<(State, nat), Error> {
    if id >= |s.invoices| then Err(NotFound)
    else if s.invoices[id].status == Sending then
      if c.keyBefore.None? then Err(InvalidInvoice)
      else if ReuseByKey(s.txs, c.keyBefore.value).Some? then Ok((s, ReuseByKey(s.txs, c.keyBefore.value).value))
      else Err(InvalidTransition)
    else if s.invoices[id].status == Accepted
         || (s.invoices[id].status == Rejected && s.invoices[id].direction != Sale) then
      Err(InvalidTransition)
    else
      var active := ActiveFor(s.txs, id);
      if active.Err? then Err(active.error)
      else if active.value.Some? || !c.prepared || !c.valid || c.key.None? then Err(InvalidInvoice)
      else if ReuseByKey(s.txs, c.key.value).Some? then Ok((s, ReuseByKey(s.txs, c.key.value).value))
      else if ByKey(s.txs, c.key.value).Some? then Err(KeyTaken)
      else
        var queued := s.(txs := s.txs + [Tx(id, Queued, 1, c.key.value, None)],
                         invoices := s.invoices[id := s.invoices[id].(status := Sending)]);
        Ok((Enqueue(queued, SubmitKind, |s.txs|, id), |s.txs|))
  }

  /** A sale is validated as for a first submit: it must be ready, or rejected. */
  function Retry(s: State, tx: nat, c: Checks): Result<State, Error> {
    if tx >= |s.txs| then Err(NotFound)
    else
      var t := s.txs[tx];
      if !Retryable(t.status) || t.attempt >= MAX_ATTEMPTS then Err(InvalidInvoice)
      else if t.invoice >= |s.invoices| then Err(NotFound)
      else
        var inv := s.invoices[t.invoice];
        if inv.direction == Sale
           && !(c.prepared && c.valid && (inv.status == ReadyForSubmission || inv.status == Rejected)) then
          Err(InvalidInvoice)
        else
          var active := ActiveFor(s.txs, t.invoice);
          if active.Err? then Err(active.error)
          else if active.value.Some? && active.value.value != tx then Err(InvalidInvoice)
          else
            Ok(Enqueue(s.(txs := s.txs[tx := t.(attempt := t.attempt + 1, status := Queued)]), SubmitKind, tx,
                       t.invoice))
  }

  // ---- Worker ----

  /** How one attempt to send ends: accepted for processing, or one of the exceptions the handler knows. */
  datatype Outcome =
    | Sent | MappingError | NoSession | NotConnected | SessionExpired | SaleInvalid
    | ClientError(transient: bool) | Unexpected

  function Verdict(attempt: nat, o: Outcome): TxStatus {
    match o
    case Sent => Submitted
    case MappingError => FailedPermanent
    case SaleInvalid => FailedPermanent
    case NoSession => FailedRetryable
    case NotConnected => FailedRetryable
    case SessionExpired => FailedRetryable
    case ClientError(transient) => if transient && attempt < MAX_ATTEMPTS then FailedTemporary else FailedPermanent
    case Unexpected => if attempt < MAX_ATTEMPTS then FailedTemporary else FailedPermanent
  }

  /** The submit job. Putting the invoice back to ready after a lost connection changes a copy that is never
      saved, so the stored invoice keeps its status. */
  function HandleSubmit(s: State, tx: nat, invoice: nat, o: Outcome): State {
    if tx >= |s.txs| then s
    else
      var t := s.txs[tx];
      if invoice >= |s.invoices| then s.(txs := s.txs[tx := t.(status := FailedPermanent)])
      else
        var v := Verdict(t.attempt, o);
        var t' := t.(status := v, attempt := if v == FailedTemporary then t.attempt + 1 else t.attempt);
        var moved := s.(txs := s.txs[tx := t']);
        if v == Submitted then Enqueue(moved, PollKind, tx, t.invoice)
        else if v == FailedTemporary then Enqueue(moved, SubmitKind, tx, t.invoice)
        else if v == FailedPermanent then moved.(invoices := Sync(s.invoices, t.invoice, v, None))
        else moved
  }

  /** What KSeF answers to a status query: an error, or a processing code and perhaps a number. */
  datatype Answer = NoAnswer | Code(code: int, number: Option<string>)

  predicate Permanent(code: int) {
    code == 400 || code == 401 || code == 403 || code == 404 || code == 422
  }

  function HandlePoll(s: State, tx: nat, a: Answer): State {
    if tx >= |s.txs| then s
    else
      var t := s.txs[tx];
      if Terminal(t.status) then s.(invoices := Sync(s.invoices, t.invoice, t.status, t.ksefNumber))
      else if a.Code? && a.code == 200 then
        s.(txs := s.txs[tx := t.(status := Success, ksefNumber := a.number)],
           invoices := Sync(s.invoices, t.invoice, Success, a.number))
      else if a.Code? && Permanent(a.code) then
        s.(txs := s.txs[tx := t.(status := FailedPermanent)],
           invoices := Sync(s.invoices, t.invoice, FailedPermanent, None))
      else Enqueue(s.(txs := s.txs[tx := t.(status := WaitingStatus)]), PollKind, tx, t.invoice)
  }

  /** A job whose handler raised goes back to pending until its fifth claim; a submit job may by then have
      marked its transmission as processing. */
  function Crash(s: State, job: nat, marked: bool): State
    requires job in s.jobs
  {
    var j := s.jobs[job];
    var left := s.(jobs := s.jobs - {job});
    var moved := if marked && j.kind == SubmitKind && j.tx < |s.txs|
                 then left.(txs := s.txs[j.tx := s.txs[j.tx].(status := Processing)]) else left;
    if j.attempts + 1 >= MAX_ATTEMPTS then moved
    else moved.(jobs := moved.jobs[job := j.(attempts := j.attempts + 1)])
  }

  // ---- Runs ----

  datatype Op =
    | AddInvoice(direction: Direction)
    | SubmitOp(invoice: nat, checks: Checks)
    | RetryOp(tx: nat, checks: Checks)
    | SubmitJobOp(job: nat, outcome: Outcome)
    | PollJobOp(job: nat, answer: Answer)
    | CrashOp(job: nat, marked: bool)

  /** One transaction of one actor; a user call that raises is rolled back. */
  function Step(s: State, op: Op): State {
    match op
    case AddInvoice(direction) => s.(invoices := s.invoices + [Invoice(direction, ReadyForSubmission, None)])
    case SubmitOp(invoice, checks) => (var r := Submit(s, invoice, checks); if r.Ok? then r.value.0 else s)
    case RetryOp(tx, checks) => (var r := Retry(s, tx, checks); if r.Ok? then r.value else s)
    case SubmitJobOp(job, outcome) =>
      if job in s.jobs && s.jobs[job].kind == SubmitKind
      then HandleSubmit(s.(jobs := s.jobs - {job}), s.jobs[job].tx, s.jobs[job].invoice, outcome) else s
    case PollJobOp(job, answer) =>
      if job in s.jobs && s.jobs[job].kind == PollKind
      then HandlePoll(s.(jobs := s.jobs - {job}), s.jobs[job].tx, answer) else s
    case CrashOp(job, marked) => if job in s.jobs then Crash(s, job, marked) else s
  }

  function Run(ops: seq<Op>): State {
    if ops == [] then EMPTY else Step(Run(ops[..|ops| - 1]), ops[|ops| - 1])
  }
}
