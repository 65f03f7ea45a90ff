/** What the posted documents say against what the ledger holds, over every run. */
module WarehouseTotals {
  import opened Prelude
  import opened Layers
  import opened Stock
  import opened Numbering
  import opened Warehouse
  import opened WarehouseLedger
  import opened WarehouseInvariants

  // ---- Sums over the posted documents ----

  /** A line's effect on the stock of one item: receipts and corrections count as they are, a WZ the other way. */
  function SignedQuantity(t: DocType, item: nat): Line -> int {
    (line: Line) => if line.item != item then 0 else if t == WZ then -line.quantity else line.quantity
  }

  function LineReceipt(t: DocType): Line -> int {
    (line: Line) => if Receives(t, line) && line.price.Some? then line.quantity * line.price.value else 0
  }

  function DocQuantity(item: nat): Doc -> int {
    (doc: Doc) => if doc.status == Posted then Sum(SignedQuantity(doc.docType, item), doc.lines) else 0
  }

  function DocReceipts(): Doc -> int {
    (doc: Doc) => if doc.status == Posted then Sum(LineReceipt(doc.docType), doc.lines) else 0
  }

  // ---- One document ----

  lemma ReceiptTotals(g: Ledger, line: Line, price: int, clock: Clock, item: nat)
    ensures var h := Receive(g, line, price, clock);
            && OnHand(h.layers, item) == OnHand(g.layers, item) + (if item == line.item then line.quantity else 0)
            && Sum(ReceivedValue(), h.layers) == Sum(ReceivedValue(), g.layers) + line.quantity * price
  {
    SumAppend(QuantityOf(item), g.layers, NewLayer(line, price, clock));
    SumAppend(ReceivedValue(), g.layers, NewLayer(line, price, clock));
  }

  lemma IssueTotals(g: Ledger, line: Line, need: int, query: FifoQuery, item: nat)
    requires LedgerOk(g) && 0 < need && Issue(g, line, need, query).Ok?
    ensures var h := Issue(g, line, need, query).value;
            && OnHand(h.layers, item) == OnHand(g.layers, item) - (if item == line.item then need else 0)
            && Sum(ReceivedValue(), h.layers) == Sum(ReceivedValue(), g.layers)
  {
    var order, moves := IssueParts(g, line, need, query);
    ConsumeQuantity(g.layers, order, line.item, line.id, need, item);
    ConsumeFrame(g.layers, order, line.id, need);
    SumCongruent(ReceivedValue(), ReceivedValue(), g.layers, Issue(g, line, need, query).value.layers);
  }

  lemma PostLineTotals(t: DocType, g: Ledger, line: Line, clock: Clock, query: FifoQuery, item: nat)
    requires LedgerOk(g) && LineValid(t, line) && t != TRANSFER
    requires PostLine(t, g, line, clock, query).Ok?
    ensures var h := PostLine(t, g, line, clock, query).value;
            && OnHand(h.layers, item) == OnHand(g.layers, item) + SignedQuantity(t, item)(line)
            && Sum(ReceivedValue(), h.layers) == Sum(ReceivedValue(), g.layers) + LineReceipt(t)(line)
  {
    if Receives(t, line) {
      ReceiptTotals(g, line, line.price.value, clock, item);
    } else {
      IssueTotals(g, line, Wanted(line), query, item);
    }
  }

  lemma {:induction false} PostLinesTotals(t: DocType, g: Ledger, lines: seq<Line>, clock: Clock, query: FifoQuery,
                                           item: nat)
    requires LedgerOk(g) && LinesReady(t, g, lines) && t != TRANSFER
    requires PostLines(t, g, lines, clock, query).Ok?
    ensures var h := PostLines(t, g, lines, clock, query).value;
            && OnHand(h.layers, item) == OnHand(g.layers, item) + Sum(SignedQuantity(t, item), lines)
            && Sum(ReceivedValue(), h.layers) == Sum(ReceivedValue(), g.layers) + Sum(LineReceipt(t), lines)
    decreases |lines|
  {
    if lines != [] {
      PostLineTotals(t, g, lines[0], clock, query, item);
      var h := FirstLine(t, g, lines, clock, query);
      PostLinesTotals(t, h, lines[1..], clock, query, item);
      SumHead(SignedQuantity(t, item), lines);
      SumHead(LineReceipt(t), lines);
    }
  }

  // ---- All documents ----

  ghost predicate TotalsOk(s: State, item: nat) {
    && OnHand(s.ledger.layers, item) == Sum(DocQuantity(item), s.docs)
    && Sum(ReceivedValue(), s.ledger.layers) == Sum(DocReceipts(), s.docs)
  }

  lemma CreateTotals(s: State, body: Body, item: nat)
    requires TotalsOk(s, item) && Create(s, body).Ok?
    ensures TotalsOk(Create(s, body).value, item)
  {
    var doc := Create(s, body).value.docs[|s.docs|];
    SumAppend(DocQuantity(item), s.docs, doc);
    SumAppend(DocReceipts(), s.docs, doc);
  }

  lemma PostTotals(s: State, id: nat, clock: Clock, query: FifoQuery, item: nat)
    requires Inv(s) && TotalsOk(s, item) && Post(s, id, clock, query).Ok?
    ensures TotalsOk(Post(s, id, clock, query).value, item)
  {
    var doc := s.docs[id];
    ReplaceDoc(s, id, Post(s, id, clock, query).value.docs[id], item);
    if doc.status == Draft {
      assert DocOk(s.ledger, doc);
      PostLinesTotals(doc.docType, s.ledger, doc.lines, clock, query, item);
    }
  }

  lemma StepTotals(s: State, op: Op, item: nat)
    requires Inv(s) && TotalsOk(s, item)
    ensures TotalsOk(Step(s, op), item)
  {
    if Call(s, op).Ok? {
      var s' := Step(s, op);
      match op
      case CreateOp(body) => CreateTotals(s, body, item);
      case UpdateOp(id, body) => ReplaceDoc(s, id, s'.docs[id], item);
      case CancelOp(id) => ReplaceDoc(s, id, s'.docs[id], item);
      case PostOp(id, clock, query) => PostTotals(s, id, clock, query, item);
    }
  }

  lemma ReplaceDoc(s: State, id: nat, doc: Doc, item: nat)
    requires id < |s.docs|
    ensures Sum(DocQuantity(item), s.docs[id := doc])
            == Sum(DocQuantity(item), s.docs) - DocQuantity(item)(s.docs[id]) + DocQuantity(item)(doc)
    ensures Sum(DocReceipts(), s.docs[id := doc])
            == Sum(DocReceipts(), s.docs) - DocReceipts()(s.docs[id]) + DocReceipts()(doc)
  {
    SumUpdate(DocQuantity(item), s.docs, id, doc);
    SumUpdate(DocReceipts(), s.docs, id, doc);
  }

  lemma {:induction false} RunTotals(ops: seq<Op>, item: nat)
    ensures TotalsOk(Run(ops), item)
    decreases |ops|
  {
    if ops != [] {
      var s := Run(ops[..|ops| - 1]);
      RunTotals(ops[..|ops| - 1], item);
      Reachable(ops[..|ops| - 1]);
      StepTotals(s, ops[|ops| - 1], item);
    }
  }

  // ---- The results a reader wants ----

  /** In every reachable state the cached balance is the sum of the layers' remaining quantities, is what the
      posted documents add up to, and is never negative. */
  lemma BalanceIsStock(ops: seq<Op>, item: nat)
    ensures var s := Run(ops);
            && BalanceOf(s.ledger, item) == OnHand(s.ledger.layers, item)
            && BalanceOf(s.ledger, item) == Sum(DocQuantity(item), s.docs)
            && 0 <= BalanceOf(s.ledger, item)
  {
    Reachable(ops);
    RunTotals(ops, item);
    assert BalanceOk(Run(ops).ledger);
    SumNonNegative(QuantityOf(item), Run(ops).ledger.layers);
  }

  /** In every reachable state the value of all posted receipts is the stock valuation plus the cost of
      everything issued. */
  lemma ValueIsConserved(ops: seq<Op>)
    ensures var s := Run(ops);
            Sum(DocReceipts(), s.docs) == StockValue(s.ledger.layers) + Cost(s.ledger.movements)
  {
    Reachable(ops);
    RunTotals(ops, 0);
  }

  /** In every reachable state each layer holds between nothing and what it received, and what left it is
      exactly what its movements say, at its own price. */
  lemma LayersAreAccounted(ops: seq<Op>, i: nat)
    requires i < |Run(ops).ledger.layers|
    ensures var g := Run(ops).ledger;
            && 0 <= g.layers[i].remaining <= g.layers[i].received
            && g.layers[i].received == g.layers[i].remaining + Sum(TakenFrom(i), g.movements)
            && (forall m :: 0 <= m < |g.movements| && g.movements[m].layer == i ==>
                  g.movements[m].price == g.layers[i].price)
  {
    Reachable(ops);
  }

  /** In every reachable state each line of a posted document is traced, and a draft or cancelled document
      has left nothing in the ledger. */
  lemma LinesAreTraced(ops: seq<Op>, d: nat, i: nat)
    requires d < |Run(ops).docs| && i < |Run(ops).docs[d].lines|
    ensures var s := Run(ops);
            var doc := s.docs[d];
            if doc.status == Posted then Traced(s.ledger, doc.docType, doc.lines[i])
            else Untouched(s.ledger, doc.lines[i].id)
  {
    Reachable(ops);
    assert DocOk(Run(ops).ledger, Run(ops).docs[d]);
  }

  /** Nothing ever rewrites a layer: over any step its item, price, date and received quantity stay, and what
      remains only goes down. Movements are only appended. */
  lemma HistoryIsKept(ops: seq<Op>, op: Op)
    ensures var (g, h) := (Run(ops).ledger, Step(Run(ops), op).ledger);
            && |g.layers| <= |h.layers|
            && (forall i :: 0 <= i < |g.layers| ==> Drawn(g.layers[i], h.layers[i]))
            && g.movements <= h.movements
  {
    Reachable(ops);
    if op.PostOp? && Post(Run(ops), op.id, op.clock, op.query).Ok? {
      PostHistory(Run(ops), op.id, op.clock, op.query);
    }
  }

  lemma PostHistory(s: State, id: nat, clock: Clock, query: FifoQuery)
    requires Inv(s) && Post(s, id, clock, query).Ok?
    ensures var (g, h) := (s.ledger, Post(s, id, clock, query).value.ledger);
            && |g.layers| <= |h.layers|
            && (forall i :: 0 <= i < |g.layers| ==> Drawn(g.layers[i], h.layers[i]))
            && g.movements <= h.movements
  {
    if s.docs[id].status == Draft {
      assert DocOk(s.ledger, s.docs[id]);
      PostLinesHistory(s.docs[id].docType, s.ledger, s.docs[id].lines, clock, query);
    }
  }

  lemma {:induction false} PostLinesHistory(t: DocType, g: Ledger, lines: seq<Line>, clock: Clock, query: FifoQuery)
    requires LedgerOk(g) && LinesReady(t, g, lines) && PostLines(t, g, lines, clock, query).Ok?
    ensures var h := PostLines(t, g, lines, clock, query).value;
            && |g.layers| <= |h.layers|
            && (forall i :: 0 <= i < |g.layers| ==> Drawn(g.layers[i], h.layers[i]))
            && g.movements <= h.movements
    decreases |lines|
  {
    if lines != [] {
      var h := FirstLine(t, g, lines, clock, query);
      PostLinesHistory(t, h, lines[1..], clock, query);
    }
  }
}
