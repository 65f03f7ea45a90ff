/** The FIFO theorem over every run: each posting is a sequence of enqueues and dequeues on the unit queues,
    whatever order the database gives to equally old layers, and a different one at every query. */
module WarehouseFifo {
  import opened Prelude
  import opened Layers
  import opened Numbering
  import opened Warehouse
  import opened WarehouseLedger
  import opened WarehouseInvariants
  import opened WarehouseQueue

  /** What one line may do to the queue of one item. A receipt's units join the back of every reading of the
      queue. An issue drops exactly its quantity from the front of the reading the database gave, its movements
      decode to the units dropped, and the rest is a reading of what is left. */
  ghost predicate FifoStep(t: DocType, g: Ledger, h: Ledger, line: Line, query: FifoQuery, item: nat) {
    if item != line.item then
      forall q :: IsQueue(g.layers, item, q) <==> IsQueue(h.layers, item, q)
    else if Receives(t, line) then
      && h.movements == g.movements
      && |h.layers| == |g.layers| + 1 && IsLayerOf(h.layers[|g.layers|], line)
      && (forall q :: IsQueue(g.layers, item, q) ==>
            IsQueue(h.layers, item, q + Repeat(Unit(|g.layers|, h.layers[|g.layers|].price), line.quantity)))
    else
      var q := Queue(query, g.layers, item);
      && IsQueue(g.layers, item, q) && Wanted(line) <= |q| && IsQueue(h.layers, item, q[Wanted(line)..])
      && g.movements <= h.movements && Decode(h.movements[|g.movements|..]) == q[..Wanted(line)]
  }

  /** Every line of a document, one after the other. */
  ghost predicate FifoSteps(t: DocType, g: Ledger, lines: seq<Line>, clock: Clock, query: FifoQuery, item: nat)
    decreases |lines|
  {
    lines == [] ||
    var first := PostLine(t, g, lines[0], clock, query);
    && first.Ok?
    && FifoStep(t, g, first.value, lines[0], query, item)
    && FifoSteps(t, first.value, lines[1..], clock, query, item)
  }

  lemma ReceiptIsFifo(t: DocType, g: Ledger, line: Line, clock: Clock, query: FifoQuery, item: nat)
    requires Receives(t, line) && line.quantity > 0 && line.price.Some? && NotNewer(g.layers, clock)
    ensures FifoStep(t, g, Receive(g, line, line.price.value, clock), line, query, item)
  {
    var h := Receive(g, line, line.price.value, clock);
    if item == line.item {
      forall q | IsQueue(g.layers, item, q)
        ensures IsQueue(h.layers, item, q + Repeat(Unit(|g.layers|, h.layers[|g.layers|].price), line.quantity))
      {
        ReceiveEnqueues(g, line, line.price.value, clock, q);
      }
    } else {
      OtherQueuesStay(g.layers, h.layers, item);
    }
  }

  lemma IssueIsFifo(t: DocType, g: Ledger, line: Line, query: FifoQuery, item: nat)
    requires LedgerOk(g) && !Receives(t, line) && 0 < Wanted(line) && Issue(g, line, Wanted(line), query).Ok?
    ensures FifoStep(t, g, Issue(g, line, Wanted(line), query).value, line, query, item)
  {
    if item == line.item {
      IssueDequeues(g, line, Wanted(line), query);
    } else {
      IssueKeepsOthers(g, line, Wanted(line), query, item);
      OtherQueuesStay(g.layers, Issue(g, line, Wanted(line), query).value.layers, item);
    }
  }

  lemma StillNotNewer(g: Ledger, h: Ledger, id: nat, clock: Clock)
    requires Extends(g, h, id) && NotNewer(g.layers, clock)
    requires forall i :: |g.layers| <= i < |h.layers| ==>
               h.layers[i].day == clock.day && h.layers[i].stamp == clock.stamp
    ensures NotNewer(h.layers, clock)
  {
    forall i | 0 <= i < |h.layers|
      ensures h.layers[i].day < clock.day || (h.layers[i].day == clock.day && h.layers[i].stamp <= clock.stamp)
    {
      if i < |g.layers| { assert Drawn(g.layers[i], h.layers[i]); }
    }
  }

  lemma {:induction false} LinesAreFifo(t: DocType, g: Ledger, lines: seq<Line>, clock: Clock, query: FifoQuery,
                                        item: nat)
    requires LedgerOk(g) && LinesReady(t, g, lines) && NotNewer(g.layers, clock)
    requires PostLines(t, g, lines, clock, query).Ok?
    ensures FifoSteps(t, g, lines, clock, query, item)
    decreases |lines|
  {
    if lines != [] {
      var h := FirstLine(t, g, lines, clock, query);
      if Receives(t, lines[0]) {
        ReceiptIsFifo(t, g, lines[0], clock, query, item);
      } else {
        IssueIsFifo(t, g, lines[0], query, item);
        IssueKeepsRows(g, lines[0], Wanted(lines[0]), query);
      }
      StillNotNewer(g, h, lines[0].id, clock);
      LinesAreFifo(t, h, lines[1..], clock, query, item);
    }
  }

  // ---- Runs with a clock that does not go back ----

  predicate ClockNotAfter(a: Clock, b: Clock) {
    a.day < b.day || (a.day == b.day && a.stamp <= b.stamp)
  }

  ghost predicate ClockForward(ops: seq<Op>) {
    forall i, j :: 0 <= i < j < |ops| && ops[i].PostOp? && ops[j].PostOp? ==> ClockNotAfter(ops[i].clock, ops[j].clock)
  }

  lemma {:induction false} LinesNotNewer(t: DocType, g: Ledger, lines: seq<Line>, clock: Clock, query: FifoQuery,
                                         limit: Clock)
    requires LedgerOk(g) && LinesReady(t, g, lines) && PostLines(t, g, lines, clock, query).Ok?
    requires NotNewer(g.layers, limit) && ClockNotAfter(clock, limit)
    ensures NotNewer(PostLines(t, g, lines, clock, query).value.layers, limit)
    decreases |lines|
  {
    if lines != [] {
      var h := FirstLine(t, g, lines, clock, query);
      forall i | 0 <= i < |h.layers|
        ensures h.layers[i].day < limit.day || (h.layers[i].day == limit.day && h.layers[i].stamp <= limit.stamp)
      {
        if i < |g.layers| { assert Drawn(g.layers[i], h.layers[i]); }
      }
      LinesNotNewer(t, h, lines[1..], clock, query, limit);
    }
  }

  lemma {:induction false} RunNotNewer(ops: seq<Op>, limit: Clock)
    requires forall i :: 0 <= i < |ops| && ops[i].PostOp? ==> ClockNotAfter(ops[i].clock, limit)
    ensures NotNewer(Run(ops).ledger.layers, limit)
    decreases |ops|
  {
    if ops != [] {
      var init, op := ops[..|ops| - 1], ops[|ops| - 1];
      var s := Run(init);
      RunNotNewer(init, limit);
      Reachable(init);
      if op.PostOp? && Call(s, op).Ok? && s.docs[op.id].status == Draft {
        assert DocOk(s.ledger, s.docs[op.id]);
        LinesNotNewer(s.docs[op.id].docType, s.ledger, s.docs[op.id].lines, op.clock, op.query, limit);
      }
    }
  }

  predicate PostsDraft(s: State, op: Op) {
    op.PostOp? && op.id < |s.docs| && s.docs[op.id].status == Draft && Call(s, op).Ok?
  }

  /** Over every run whose clock does not go back, and for every answer of the database to its queries: a step
      that posts a draft is, for each item and each line in turn, an enqueue at the back or a dequeue of exactly
      the first units, with their prices in the movements; any other step leaves the ledger as it was. */
  lemma PostingIsFifo(ops: seq<Op>, op: Op, item: nat)
    requires ClockForward(ops + [op])
    ensures var s, h := Run(ops), Step(Run(ops), op).ledger;
            if PostsDraft(s, op) then
              var doc := s.docs[op.id];
              && FifoSteps(doc.docType, s.ledger, doc.lines, op.clock, op.query, item)
              && Ok(h) == PostLines(doc.docType, s.ledger, doc.lines, op.clock, op.query)
            else h == s.ledger
  {
    var s := Run(ops);
    if PostsDraft(s, op) {
      var doc := s.docs[op.id];
      Reachable(ops);
      assert DocOk(s.ledger, doc);
      forall i | 0 <= i < |ops| && ops[i].PostOp? ensures ClockNotAfter(ops[i].clock, op.clock) {
        assert (ops + [op])[i] == ops[i] && (ops + [op])[|ops|] == op;
      }
      RunNotNewer(ops, op.clock);
      LinesAreFifo(doc.docType, s.ledger, doc.lines, op.clock, op.query, item);
    }
  }
}
