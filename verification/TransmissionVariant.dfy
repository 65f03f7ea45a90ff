/** The protocol as it would be if putting the invoice back to ready after a lost connection were saved. */
module TransmissionVariant {
  import opened Prelude
  import opened Transmission
  import opened TransmissionInvariants
  import opened TransmissionSafety

  /** The outcomes whose handlers put their copy of the invoice back to ready. */
  predicate PutsBack(attempt: nat, o: Outcome) {
    || o == NoSession || o == NotConnected || o == SessionExpired
    || (o == ClientError(true) && attempt < MAX_ATTEMPTS)
  }

  function BackToReady(inv: Invoice): Invoice {
    if inv.status == Sending then inv.(status := ReadyForSubmission) else inv
  }

  /** The submit job, with the changed copy stored. */
  function HandleSubmitSaving(s: State, tx: nat, invoice: nat, o: Outcome): State {
    var done := HandleSubmit(s, tx, invoice, o);
    if tx < |s.txs| && invoice < |s.invoices| && PutsBack(s.txs[tx].attempt, o)
    then done.(invoices := s.invoices[invoice := BackToReady(s.invoices[invoice])]) else done
  }

  function StepSaving(s: State, op: Op): State {
    if op.SubmitJobOp? && op.job in s.jobs && s.jobs[op.job].kind == SubmitKind
    then HandleSubmitSaving(s.(jobs := s.jobs - {op.job}), s.jobs[op.job].tx, s.jobs[op.job].invoice, op.outcome)
    else Step(s, op)
  }

  function RunSaving(ops: seq<Op>): State {
    if ops == [] then EMPTY else StepSaving(RunSaving(ops[..|ops| - 1]), ops[|ops| - 1])
  }

  // ---- One sale, submitted twice ----

  const FIRST := Checks(true, true, None, Some("k1"))
  const SECOND := Checks(true, true, None, Some("k2"))

  const RUN := [AddInvoice(Sale), SubmitOp(0, FIRST), SubmitJobOp(0, ClientError(true)), SubmitOp(0, SECOND)]

  const ADDED := State([Invoice(Sale, ReadyForSubmission, None)], [], map[], 0)

  const SUBMITTED := State([Invoice(Sale, Sending, None)], [Tx(0, Queued, 1, "k1", None)],
                           map[0 := Job(SubmitKind, 0, 0, 0)], 1)

  /** After the transient failure: the automatic retry is pending and the invoice is ready again. */
  const PUT_BACK := State([Invoice(Sale, ReadyForSubmission, None)], [Tx(0, FailedTemporary, 2, "k1", None)],
                          map[1 := Job(SubmitKind, 0, 0, 0)], 2)

  const TWICE := State([Invoice(Sale, Sending, None)],
                       [Tx(0, FailedTemporary, 2, "k1", None), Tx(0, Queued, 1, "k2", None)],
                       map[1 := Job(SubmitKind, 0, 0, 0), 2 := Job(SubmitKind, 1, 0, 0)], 3)

  lemma FirstSubmit()
    ensures StepSaving(ADDED, SubmitOp(0, FIRST)) == SUBMITTED
  {
    assert ActiveRows([], 0) == [];
  }

  lemma TransientFailure()
    ensures StepSaving(SUBMITTED, SubmitJobOp(0, ClientError(true))) == PUT_BACK
  {
  }

  lemma SecondSubmit()
    ensures StepSaving(PUT_BACK, SubmitOp(0, SECOND)) == TWICE
  {
    var t := PUT_BACK.txs[0];
    assert PUT_BACK.txs[..0] == [];
    assert ActiveRows(PUT_BACK.txs, 0) == [];
    assert t.key[1] != SECOND.key.value[1];
    assert ByKey(PUT_BACK.txs, "k2") == None;
  }

  lemma RunStep(ops: seq<Op>, op: Op)
    ensures RunSaving(ops + [op]) == StepSaving(RunSaving(ops), op)
  {
    assert (ops + [op])[..|ops|] == ops;
  }

  lemma RunEnds()
    ensures RunSaving(RUN) == TWICE
  {
    FirstSubmit();
    TransientFailure();
    SecondSubmit();
    RunStep([], RUN[0]);
    RunStep(RUN[..1], RUN[1]);
    RunStep(RUN[..2], RUN[2]);
    RunStep(RUN[..3], RUN[3]);
    assert [] + [RUN[0]] == RUN[..1] && RUN[..1] + [RUN[1]] == RUN[..2] && RUN[..2] + [RUN[2]] == RUN[..3];
    assert RUN[..3] + [RUN[3]] == RUN;
    assert RunSaving(RUN[..1]) == ADDED;
  }

  /** Saving the copy would break the protocol: a sale submitted, failed for a moment and submitted again ends
      with two transmissions under way, each with a job; in the same run of the code as it is there is at most one. */
  lemma SavingTheReturnWouldBreakIt()
    ensures var s := RunSaving(RUN);
            && LiveFor(s, 0, 0) && LiveFor(s, 1, 0) && SaleInvoice(s, 0)
            && |s.jobs| == 2 && (exists i, j :: i in s.jobs && j in s.jobs && s.jobs[i].tx == 0 && s.jobs[j].tx == 1)
    ensures forall t: nat, u: nat :: LiveFor(Run(RUN), t, 0) && LiveFor(Run(RUN), u, 0) ==> t == u
  {
    RunEnds();
    assert TWICE.jobs[1].tx == 0 && TWICE.jobs[2].tx == 1;
    assert TWICE.jobs.Keys == {1, 2};
    OnlySaleKeeps();
    SendingMeansOneLive(RUN, 0);
  }

  lemma StepOfRun(ops: seq<Op>, op: Op)
    ensures Run(ops + [op]) == Step(Run(ops), op)
  {
    assert (ops + [op])[..|ops|] == ops;
  }

  lemma SaleStays(s: State, op: Op)
    requires Inv(s, Sales) && SaleInvoice(s, 0)
    ensures SaleInvoice(Step(s, op), 0)
  {
    StepIsFinal(s, op, Sales);
  }

  lemma OnlySaleKeeps()
    ensures SaleInvoice(Run(RUN), 0)
  {
    StepOfRun([], RUN[0]);
    StepOfRun(RUN[..1], RUN[1]);
    StepOfRun(RUN[..2], RUN[2]);
    StepOfRun(RUN[..3], RUN[3]);
    assert [] + [RUN[0]] == RUN[..1] && RUN[..1] + [RUN[1]] == RUN[..2] && RUN[..2] + [RUN[2]] == RUN[..3];
    assert RUN[..3] + [RUN[3]] == RUN;
    Reachable(RUN[..1], Sales);
    Reachable(RUN[..2], Sales);
    Reachable(RUN[..3], Sales);
    assert Run(RUN[..1]) == ADDED;
    SaleStays(Run(RUN[..1]), RUN[1]);
    SaleStays(Run(RUN[..2]), RUN[2]);
    SaleStays(Run(RUN[..3]), RUN[3]);
  }
}
