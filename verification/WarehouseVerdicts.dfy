/** Exactly when a document posts, and that finished documents stay as they are. */
module WarehouseVerdicts {
  import opened Prelude
  import opened Layers
  import opened Stock
  import opened Numbering
  import opened Warehouse
  import opened WarehouseLedger
  import opened WarehouseInvariants
  import opened WarehouseTotals

  // ---- Whole WZ documents ----

  /** How much of an item the lines of a WZ ask for in total. */
  function Asked(item: nat): Line -> int {
    (line: Line) => if line.item == item then line.quantity else 0
  }

  ghost predicate InStockFor(g: Ledger, lines: seq<Line>) {
    forall item: nat :: Sum(Asked(item), lines) <= OnHand(g.layers, item)
  }

  /** A first line that posts takes its quantity off its item's stock and leaves the other lines ready. */
  lemma FirstWzLine(g: Ledger, lines: seq<Line>, clock: Clock, query: FifoQuery) returns (h: Ledger)
    requires LedgerOk(g) && LinesReady(WZ, g, lines) && lines != []
    requires PostLine(WZ, g, lines[0], clock, query).Ok?
    ensures PostLine(WZ, g, lines[0], clock, query) == Ok(h)
    ensures LedgerOk(h) && LinesReady(WZ, h, lines[1..])
    ensures forall item: nat :: OnHand(h.layers, item) == OnHand(g.layers, item) - Asked(item)(lines[0])
  {
    h := PostLine(WZ, g, lines[0], clock, query).value;
    PostLineEffect(WZ, g, lines[0], clock, query);
    forall i | 1 <= i < |lines| ensures Untouched(h, lines[i].id) {
      OthersKept(g, h, lines[0].id, WZ, lines[i]);
    }
    forall item: nat ensures OnHand(h.layers, item) == OnHand(g.layers, item) - Asked(item)(lines[0]) {
      PostLineTotals(WZ, g, lines[0], clock, query, item);
    }
  }

  lemma DemandMoves(g: Ledger, h: Ledger, lines: seq<Line>)
    requires lines != []
    requires forall item: nat :: OnHand(h.layers, item) == OnHand(g.layers, item) - Asked(item)(lines[0])
    ensures InStockFor(g, lines) <==> InStockFor(h, lines[1..])
  {
    forall item: nat
      ensures Sum(Asked(item), lines) <= OnHand(g.layers, item)
              <==> Sum(Asked(item), lines[1..]) <= OnHand(h.layers, item)
    {
      SumHead(Asked(item), lines);
    }
  }

  /** The lines of a WZ post exactly when, for every item, their total is in stock. */
  lemma {:induction false} WzLinesVerdict(g: Ledger, lines: seq<Line>, clock: Clock, query: FifoQuery)
    requires LedgerOk(g) && LinesReady(WZ, g, lines)
    ensures PostLines(WZ, g, lines, clock, query).Ok? <==> InStockFor(g, lines)
    ensures PostLines(WZ, g, lines, clock, query).Err?
            ==> PostLines(WZ, g, lines, clock, query).error == InsufficientStock
    decreases |lines|
  {
    if lines == [] {
      forall item: nat ensures 0 <= OnHand(g.layers, item) {
        SumNonNegative(QuantityOf(item), g.layers);
      }
    } else {
      var line := lines[0];
      IssueReady(g, line.item, line.quantity, query);
      if PostLine(WZ, g, line, clock, query).Ok? {
        var h := FirstWzLine(g, lines, clock, query);
        WzLinesVerdict(h, lines[1..], clock, query);
        DemandMoves(g, h, lines);
      } else {
        SumHead(Asked(line.item), lines);
        SumNonNegative(Asked(line.item), lines[1..]);
        assert Sum(Asked(line.item), lines) > OnHand(g.layers, line.item);
      }
    }
  }

  /** In every reachable state, a draft WZ posts exactly when it has a source invoice or an issue reason and,
      for each item, the total over its lines is in stock. */
  lemma WzPostsIff(ops: seq<Op>, id: nat, clock: Clock, query: FifoQuery)
    requires id < |Run(ops).docs| && Run(ops).docs[id].docType == WZ && Run(ops).docs[id].status == Draft
    ensures var s := Run(ops);
            var doc := s.docs[id];
            Post(s, id, clock, query).Ok? <==>
              && (doc.sourceInvoice.Some? || Given(doc.issueReason))
              && (forall item: nat :: Sum(Asked(item), doc.lines) <= OnHand(s.ledger.layers, item))
  {
    Reachable(ops);
    WzVerdict(Run(ops), id, clock, query);
  }

  lemma WzVerdict(s: State, id: nat, clock: Clock, query: FifoQuery)
    requires Inv(s) && id < |s.docs| && s.docs[id].docType == WZ && s.docs[id].status == Draft
    ensures Post(s, id, clock, query).Ok? <==> PostableHeader(s.docs[id]) && InStockFor(s.ledger, s.docs[id].lines)
  {
    DraftIsReady(s, id);
    WzLinesVerdict(s.ledger, s.docs[id].lines, clock, query);
  }

  /** A draft PZ always posts, so a receipt is never refused. */
  lemma PzAlwaysPosts(ops: seq<Op>, id: nat, clock: Clock, query: FifoQuery)
    requires id < |Run(ops).docs| && Run(ops).docs[id].docType == PZ && Run(ops).docs[id].status == Draft
    ensures Post(Run(ops), id, clock, query).Ok?
  {
    var s := Run(ops);
    Reachable(ops);
    assert DocOk(s.ledger, s.docs[id]);
    PzLinesPost(s.ledger, s.docs[id].lines, clock, query);
  }

  lemma {:induction false} PzLinesPost(g: Ledger, lines: seq<Line>, clock: Clock, query: FifoQuery)
    requires forall i :: 0 <= i < |lines| ==> LineValid(PZ, lines[i])
    ensures PostLines(PZ, g, lines, clock, query).Ok?
    decreases |lines|
  {
    if lines != [] {
      PzLinesPost(PostLine(PZ, g, lines[0], clock, query).value, lines[1..], clock, query);
    }
  }

  // ---- Whole KK documents ----

  /** After every line, what the lines so far added and took leaves no item's stock below zero. */
  ghost predicate NeverShort(g: Ledger, lines: seq<Line>) {
    forall k: nat, item: nat :: k <= |lines| ==> 0 <= OnHand(g.layers, item) + Sum(SignedQuantity(KK, item), lines[..k])
  }

  lemma PrefixHead(item: nat, lines: seq<Line>, k: nat)
    requires 1 <= k <= |lines|
    ensures Sum(SignedQuantity(KK, item), lines[..k])
            == SignedQuantity(KK, item)(lines[0]) + Sum(SignedQuantity(KK, item), lines[1..][..k - 1])
  {
    assert lines[..k][1..] == lines[1..][..k - 1];
    SumHead(SignedQuantity(KK, item), lines[..k]);
  }

  lemma FirstPrefix(item: nat, lines: seq<Line>)
    requires lines != []
    ensures Sum(SignedQuantity(KK, item), lines[..1]) == SignedQuantity(KK, item)(lines[0])
  {
    PrefixHead(item, lines, 1);
    assert lines[1..][..0] == [];
  }

  /** The condition on all lines is the one on the first together with the one on the rest. */
  lemma NeverShortFrom(g: Ledger, h: Ledger, lines: seq<Line>)
    requires lines != [] && Sound(g.layers) && Sound(h.layers)
    requires forall item: nat :: OnHand(h.layers, item) == OnHand(g.layers, item) + SignedQuantity(KK, item)(lines[0])
    ensures NeverShort(g, lines) <==> NeverShort(h, lines[1..])
  {
    if NeverShort(g, lines) {
      forall k: nat, item: nat | k <= |lines[1..]|
        ensures 0 <= OnHand(h.layers, item) + Sum(SignedQuantity(KK, item), lines[1..][..k])
      {
        PrefixHead(item, lines, k + 1);
        assert 0 <= OnHand(g.layers, item) + Sum(SignedQuantity(KK, item), lines[..k + 1]);
      }
    }
    if NeverShort(h, lines[1..]) {
      forall k: nat, item: nat | k <= |lines|
        ensures 0 <= OnHand(g.layers, item) + Sum(SignedQuantity(KK, item), lines[..k])
      {
        if k == 0 {
          SumNonNegative(QuantityOf(item), g.layers);
        } else {
          PrefixHead(item, lines, k);
          assert 0 <= OnHand(h.layers, item) + Sum(SignedQuantity(KK, item), lines[1..][..k - 1]);
        }
      }
    }
  }

  lemma FirstKkLine(g: Ledger, lines: seq<Line>, clock: Clock, query: FifoQuery) returns (h: Ledger)
    requires LedgerOk(g) && LinesReady(KK, g, lines) && lines != []
    requires PostLine(KK, g, lines[0], clock, query).Ok?
    ensures PostLine(KK, g, lines[0], clock, query) == Ok(h)
    ensures LedgerOk(h) && LinesReady(KK, h, lines[1..])
    ensures forall item: nat :: OnHand(h.layers, item) == OnHand(g.layers, item) + SignedQuantity(KK, item)(lines[0])
  {
    h := PostLine(KK, g, lines[0], clock, query).value;
    PostLineEffect(KK, g, lines[0], clock, query);
    forall i | 1 <= i < |lines| ensures Untouched(h, lines[i].id) {
      OthersKept(g, h, lines[0].id, KK, lines[i]);
    }
    forall item: nat ensures OnHand(h.layers, item) == OnHand(g.layers, item) + SignedQuantity(KK, item)(lines[0]) {
      PostLineTotals(KK, g, lines[0], clock, query, item);
    }
  }

  /** The lines of a KK post, in their order, exactly when no prefix of them takes an item below zero. */
  lemma {:induction false} KkLinesVerdict(g: Ledger, lines: seq<Line>, clock: Clock, query: FifoQuery)
    requires LedgerOk(g) && LinesReady(KK, g, lines)
    ensures PostLines(KK, g, lines, clock, query).Ok? <==> NeverShort(g, lines)
    ensures PostLines(KK, g, lines, clock, query).Err?
            ==> PostLines(KK, g, lines, clock, query).error == InsufficientStock
    decreases |lines|
  {
    if lines == [] {
      forall item: nat ensures 0 <= OnHand(g.layers, item) {
        SumNonNegative(QuantityOf(item), g.layers);
      }
    } else {
      var line := lines[0];
      if line.quantity < 0 {
        IssueReady(g, line.item, -line.quantity, query);
      }
      if PostLine(KK, g, line, clock, query).Ok? {
        var h := FirstKkLine(g, lines, clock, query);
        KkLinesVerdict(h, lines[1..], clock, query);
        NeverShortFrom(g, h, lines);
      } else {
        FirstPrefix(line.item, lines);
        assert OnHand(g.layers, line.item) + Sum(SignedQuantity(KK, line.item), lines[..1]) < 0;
      }
    }
  }

  /** In every reachable state, a draft KK posts exactly when it has a correction reason and its lines, taken in
      their order, never take an item's stock below zero. */
  lemma KkPostsIff(ops: seq<Op>, id: nat, clock: Clock, query: FifoQuery)
    requires id < |Run(ops).docs| && Run(ops).docs[id].docType == KK && Run(ops).docs[id].status == Draft
    ensures var s := Run(ops);
            Post(s, id, clock, query).Ok? <==>
              Given(s.docs[id].correctionReason) && NeverShort(s.ledger, s.docs[id].lines)
  {
    Reachable(ops);
    KkVerdict(Run(ops), id, clock, query);
  }

  lemma KkVerdict(s: State, id: nat, clock: Clock, query: FifoQuery)
    requires Inv(s) && id < |s.docs| && s.docs[id].docType == KK && s.docs[id].status == Draft
    ensures Post(s, id, clock, query).Ok? <==> PostableHeader(s.docs[id]) && NeverShort(s.ledger, s.docs[id].lines)
  {
    DraftIsReady(s, id);
    KkLinesVerdict(s.ledger, s.docs[id].lines, clock, query);
  }

  /** So the order of a KK's lines matters: with nothing in stock, receiving before issuing posts and issuing
      before receiving does not. */
  lemma KkOrderMatters(g: Ledger, receipt: Line, issue: Line, clock: Clock, query: FifoQuery)
    requires LedgerOk(g) && LinesReady(KK, g, [receipt, issue]) && LinesReady(KK, g, [issue, receipt])
    requires receipt.item == issue.item && issue.quantity < 0 && 0 <= receipt.quantity + issue.quantity
    requires OnHand(g.layers, issue.item) == 0
    ensures PostLines(KK, g, [receipt, issue], clock, query).Ok?
    ensures PostLines(KK, g, [issue, receipt], clock, query) == Err(InsufficientStock)
  {
    KkLinesVerdict(g, [receipt, issue], clock, query);
    KkLinesVerdict(g, [issue, receipt], clock, query);
    FirstPrefix(issue.item, [issue, receipt]);
    assert OnHand(g.layers, issue.item) + Sum(SignedQuantity(KK, issue.item), [issue, receipt][..1]) < 0;
    forall k: nat, item: nat | k <= 2
      ensures 0 <= OnHand(g.layers, item) + Sum(SignedQuantity(KK, item), [receipt, issue][..k])
    {
      SumNonNegative(QuantityOf(item), g.layers);
      if k >= 1 {
        PrefixHead(item, [receipt, issue], k);
      }
      if k == 2 {
        assert [receipt, issue][1..] == [issue];
        FirstPrefix(item, [issue]);
        assert [issue][..1] == [issue];
      }
      assert [issue][..0] == [];
    }
  }

  // ---- Finished documents ----

  lemma OneMoreStep(ops: seq<Op>, op: Op)
    ensures Run(ops + [op]) == Step(Run(ops), op)
  {
    assert (ops + [op])[..|ops|] == ops;
  }

  predicate FinishedAs(s: State, id: nat, doc: Doc) {
    id < |s.docs| && s.docs[id] == doc && (doc.status == Posted || doc.status == Cancelled)
  }

  lemma FinishedStep(s: State, op: Op, id: nat, doc: Doc)
    requires FinishedAs(s, id, doc)
    ensures FinishedAs(Step(s, op), id, doc)
  {
  }

  /** A posted or cancelled document never changes, its number and lines included, through any continuation. */
  lemma {:induction false} FinishedForGood(ops: seq<Op>, more: seq<Op>, id: nat, doc: Doc)
    requires FinishedAs(Run(ops), id, doc)
    ensures FinishedAs(Run(ops + more), id, doc)
    decreases |more|
  {
    if more == [] {
      assert ops + more == ops;
    } else {
      var init, last := more[..|more| - 1], more[|more| - 1];
      FinishedForGood(ops, init, id, doc);
      assert ops + more == (ops + init) + [last];
      OneMoreStep(ops + init, last);
      FinishedStep(Run(ops + init), last, id, doc);
    }
  }
}
