/** What editing a draft can do: through the API, whose request body names no source invoice, and for a direct
    caller of the service, who may name one. */
module WarehouseEdits {
  import opened Prelude
  import opened Layers
  import opened Numbering
  import opened Warehouse
  import opened WarehouseLedger
  import opened WarehouseInvariants
  import opened WarehouseVerdicts

  // ---- Edits through the API ----

  /** The run's updates come through the API: their bodies name no source invoice. */
  ghost predicate ApiRun(ops: seq<Op>) {
    forall k :: 0 <= k < |ops| && ops[k].UpdateOp? ==> ops[k].body.sourceInvoice.None?
  }

  /** Every WZ has a source invoice or an issue reason. */
  ghost predicate NoneStranded(s: State) {
    forall d :: 0 <= d < |s.docs| && s.docs[d].docType == WZ ==> PostableHeader(s.docs[d])
  }

  lemma ApiStepStrandsNone(s: State, op: Op)
    requires NoneStranded(s) && (op.UpdateOp? ==> op.body.sourceInvoice.None?)
    ensures NoneStranded(Step(s, op))
  {
  }

  lemma {:induction false} ApiStrandsNone(ops: seq<Op>)
    requires ApiRun(ops)
    ensures NoneStranded(Run(ops))
    decreases |ops|
  {
    if ops != [] {
      var init := ops[..|ops| - 1];
      assert ApiRun(init) by {
        assert forall k :: 0 <= k < |init| ==> init[k] == ops[k];
      }
      ApiStrandsNone(init);
      ApiStepStrandsNone(Run(init), ops[|ops| - 1]);
    }
  }

  /** So after any such run a draft WZ posts exactly when the stock suffices; its header is never in the way. */
  lemma ApiWzPostsIff(ops: seq<Op>, id: nat, clock: Clock, query: FifoQuery)
    requires ApiRun(ops) && id < |Run(ops).docs| && Run(ops).docs[id].docType == WZ && Run(ops).docs[id].status == Draft
    ensures Post(Run(ops), id, clock, query).Ok? <==> InStockFor(Run(ops).ledger, Run(ops).docs[id].lines)
  {
    ApiStrandsNone(ops);
    WzPostsIff(ops, id, clock, query);
  }

  /** In every reachable state an edit through the API is accepted exactly for a draft and good lines, of a WZ only
      with an issue reason in the request: the stored source invoice does not count. The edit of a WZ that is
      accepted leaves it postable. */
  lemma {:induction false} ApiEditIff(ops: seq<Op>, id: nat, body: Body, clock: Clock, query: FifoQuery)
    requires id < |Run(ops).docs| && body.sourceInvoice.None?
    ensures var s, doc := Run(ops), Run(ops).docs[id];
            Update(s, id, body).Ok? <==>
              && doc.status == Draft && body.lines != [] && ItemsOk(doc.docType, body.lines)
              && (doc.docType == WZ ==> Given(body.issueReason))
    ensures var s := Run(ops); var t := Step(s, UpdateOp(id, body));
            s.docs[id].docType == WZ && Update(s, id, body).Ok? ==>
              (Post(t, id, clock, query).Ok? <==> InStockFor(t.ledger, t.docs[id].lines))
  {
    if Run(ops).docs[id].docType == WZ && Update(Run(ops), id, body).Ok? {
      UpdatedWzIsPostableIff(ops, id, body, clock, query);
    }
  }

  /** A stored document as the API sends it back: its lines and reasons, in a body that names no invoice. */
  function SentBack(doc: Doc): Body {
    Body("", seq(|doc.lines|, i requires 0 <= i < |doc.lines| => RawOf(doc.lines[i])), None, doc.issueReason,
         doc.correctionReason)
  }

  function RawOf(line: Line): RawLine {
    RawLine(line.item, line.quantity * 10000, line.price)
  }

  /** So in every reachable state a draft can be saved again just as it is if and only if it is not a WZ without an
      issue reason. One drafted from an invoice without a reason cannot be edited at all unless a reason is added. */
  lemma {:induction false} DraftCanBeSavedAgainIff(ops: seq<Op>, id: nat)
    requires id < |Run(ops).docs| && Run(ops).docs[id].status == Draft
    ensures var (s, doc) := (Run(ops), Run(ops).docs[id]);
            Update(s, id, SentBack(doc)).Ok? <==> (doc.docType == WZ ==> Given(doc.issueReason))
  {
    Reachable(ops);
    assert DocOk(Run(ops).ledger, Run(ops).docs[id]);
    SentBackIsGood(Run(ops).docs[id]);
  }

  lemma SentBackIsGood(doc: Doc)
    requires doc.lines != [] && forall i :: 0 <= i < |doc.lines| ==> LineValid(doc.docType, doc.lines[i])
    ensures SentBack(doc).lines != [] && ItemsOk(doc.docType, SentBack(doc).lines)
  {
    forall i | 0 <= i < |doc.lines| ensures RawLineOk(doc.docType, SentBack(doc).lines[i]) {
      assert LineValid(doc.docType, doc.lines[i]);
    }
  }

  const INVOICED := Body("WZ", [RawLine(0, 10000, None)], Some(7), None, None)

  /** A concrete run: a WZ drafted from an invoice without a reason refuses every edit through the API that gives
      none, the one that changes nothing included, and could be posted all along if the stock sufficed. */
  lemma InvoicedWzCannotBeEdited(body: Body)
    requires body.sourceInvoice.None? && !Given(body.issueReason)
    ensures var s := Run([CreateOp(INVOICED)]);
            && |s.docs| == 1 && s.docs[0].docType == WZ && s.docs[0].status == Draft
            && s.docs[0].sourceInvoice == Some(7) && PostableHeader(s.docs[0])
            && Update(s, 0, body) == Err(InvalidDocument)
  {
    OneMoreStep([], CreateOp(INVOICED));
    assert [] + [CreateOp(INVOICED)] == [CreateOp(INVOICED)];
    assert RawLineOk(WZ, INVOICED.lines[0]);
  }

  // ---- Updates of a WZ by direct callers ----

  /** A body with a source invoice can only come from a direct caller of the service. The update is then checked
      against that invoice, which is not stored: in every reachable state an accepted update of a WZ leaves it
      postable exactly when the stored document has a source invoice or the body gives an issue reason. */
  lemma {:induction false} UpdatedWzIsPostableIff(ops: seq<Op>, id: nat, body: Body, clock: Clock, query: FifoQuery)
    requires id < |Run(ops).docs| && Run(ops).docs[id].docType == WZ && Update(Run(ops), id, body).Ok?
    ensures var s := Run(ops); var t := Step(s, UpdateOp(id, body));
            && (PostableHeader(t.docs[id]) <==> s.docs[id].sourceInvoice.Some? || Given(body.issueReason))
            && (!PostableHeader(t.docs[id]) ==> Post(t, id, clock, query) == Err(InvalidDocument))
            && (PostableHeader(t.docs[id])
               ==> (Post(t, id, clock, query).Ok? <==> InStockFor(t.ledger, t.docs[id].lines)))
  {
    var s, t := Run(ops), Step(Run(ops), UpdateOp(id, body));
    Reachable(ops);
    StepKeeps(s, UpdateOp(id, body));
    assert DocOk(t.ledger, t.docs[id]);
    assert LinesReady(WZ, t.ledger, t.docs[id].lines);
    WzLinesVerdict(t.ledger, t.docs[id].lines, clock, query);
  }

  /** A WZ without an invoice or a reason that is not posted. */
  predicate Stranded(s: State, id: nat) {
    && id < |s.docs| && s.docs[id].docType == WZ && s.docs[id].status != Posted
    && s.docs[id].sourceInvoice.None? && !Given(s.docs[id].issueReason)
  }

  ghost predicate GivesNoReason(ops: seq<Op>, id: nat) {
    forall k :: 0 <= k < |ops| && ops[k].UpdateOp? && ops[k].id == id ==> !Given(ops[k].body.issueReason)
  }

  lemma StrandedStep(s: State, op: Op, id: nat)
    requires Stranded(s, id) && (op.UpdateOp? && op.id == id ==> !Given(op.body.issueReason))
    ensures Stranded(Step(s, op), id)
  {
  }

  /** Such a document never posts, through any continuation in which no update gives it an issue reason. */
  lemma {:induction false} StrandedStays(ops: seq<Op>, more: seq<Op>, id: nat)
    requires Stranded(Run(ops), id) && GivesNoReason(more, id)
    ensures Stranded(Run(ops + more), id)
    decreases |more|
  {
    if more == [] {
      assert ops + more == ops;
    } else {
      var init, last := more[..|more| - 1], more[|more| - 1];
      assert GivesNoReason(init, id) by {
        assert forall k :: 0 <= k < |init| ==> init[k] == more[k];
      }
      StrandedStays(ops, init, id);
      assert ops + more == (ops + init) + [last];
      OneMoreStep(ops + init, last);
      assert more[|more| - 1] == last;
      StrandedStep(Run(ops + init), last, id);
    }
  }

  // ---- A stranded WZ ----

  const GIFT := Body("WZ", [RawLine(0, 10000, None)], None, Some("gift"), None)

  const SALE := Body("WZ", [RawLine(0, 10000, None)], Some(7), None, None)

  const DRAFTED := State([Doc(WZ, Draft, None, None, Some("gift"), None, [Line(0, 0, 1, None)])], Ledger([], [], map[]),
                         map[], 1)

  const STRANDED := State([Doc(WZ, Draft, None, None, None, None, [Line(1, 0, 1, None)])], Ledger([], [], map[]),
                          map[], 2)

  lemma GiftIsDrafted()
    ensures Step(EMPTY, CreateOp(GIFT)) == DRAFTED
  {
    assert RawLineOk(WZ, GIFT.lines[0]);
    assert BuildLines(GIFT.lines, 0) == [Line(0, 0, 1, None)];
  }

  lemma SaleStrands()
    ensures Update(DRAFTED, 0, SALE) == Ok(STRANDED)
  {
    assert RawLineOk(WZ, SALE.lines[0]);
    assert BuildLines(SALE.lines, 1) == [Line(1, 0, 1, None)];
    assert DRAFTED.docs[0 := STRANDED.docs[0]] == STRANDED.docs;
    assert ItemsOk(WZ, SALE.lines);
  }

  /** Created as a gift, updated by a direct caller with an invoice and no reason: the update is accepted, and
      posting fails whatever is in stock. */
  lemma UpdateStrandsAWz(clock: Clock, query: FifoQuery)
    ensures Run([CreateOp(GIFT), UpdateOp(0, SALE)]) == STRANDED && Stranded(STRANDED, 0)
    ensures Post(STRANDED, 0, clock, query) == Err(InvalidDocument)
  {
    GiftIsDrafted();
    SaleStrands();
    OneMoreStep([], CreateOp(GIFT));
    OneMoreStep([CreateOp(GIFT)], UpdateOp(0, SALE));
    assert [] + [CreateOp(GIFT)] == [CreateOp(GIFT)];
    assert [CreateOp(GIFT)] + [UpdateOp(0, SALE)] == [CreateOp(GIFT), UpdateOp(0, SALE)];
  }
}
