/** What posting one line, and then a whole document, does to the ledger. */
module WarehouseLedger {
  import opened Prelude
  import opened Layers
  import opened Stock
  import opened Numbering
  import opened Warehouse

  function ReceivedValue(): Layer -> int {
    (l: Layer) => l.received * l.price
  }

  /** The cached balance is the sum of the layers. */
  ghost predicate BalanceOk(g: Ledger) {
    forall item: nat :: BalanceOf(g, item) == OnHand(g.layers, item)
  }

  /** Movements are strictly positive and keep the price of their layer. */
  ghost predicate MovementsOk(layers: seq<Layer>, movements: seq<Movement>) {
    forall m :: 0 <= m < |movements| ==>
      movements[m].layer < |layers| && 0 < movements[m].quantity
          && movements[m].price == layers[movements[m].layer].price
  }

  /** Each layer holds what arrived minus what the movements took. */
  ghost predicate LayersAccounted(g: Ledger) {
    forall i :: 0 <= i < |g.layers| ==>
      g.layers[i].received == g.layers[i].remaining + Sum(TakenFrom(i), g.movements)
  }

  /** The value received is the value in stock plus the value issued. */
  ghost predicate ValueConserved(g: Ledger) {
    Sum(ReceivedValue(), g.layers) == StockValue(g.layers) + Cost(g.movements)
  }

  ghost predicate LedgerOk(g: Ledger) {
    Sound(g.layers) && BalanceOk(g) && MovementsOk(g.layers, g.movements) && LayersAccounted(g) && ValueConserved(g)
  }

  predicate Receives(t: DocType, line: Line) {
    t == PZ || (t == KK && line.quantity > 0)
  }

  /** What validation leaves in a stored line. */
  predicate LineValid(t: DocType, line: Line) {
    && line.quantity != 0
    && (t == PZ ==> line.price.Some? && line.quantity > 0)
    && (t == WZ ==> line.quantity > 0)
    && (t == KK && line.quantity > 0 ==> line.price.Some?)
  }

  function Wanted(line: Line): int {
    if line.quantity < 0 then -line.quantity else line.quantity
  }

  ghost predicate NoLayer(g: Ledger, id: nat) {
    forall i :: 0 <= i < |g.layers| ==> g.layers[i].line != id
  }

  ghost predicate NoMovement(g: Ledger, id: nat) {
    forall m :: 0 <= m < |g.movements| ==> g.movements[m].line != id
  }

  /** The line has left no trace in the ledger. */
  ghost predicate Untouched(g: Ledger, id: nat) {
    NoLayer(g, id) && NoMovement(g, id)
  }

  ghost predicate IsLayerOf(layer: Layer, line: Line) {
    layer.line == line.id && layer.item == line.item && layer.received == line.quantity
        && Some(layer.price) == line.price
  }

  /** A receiving line has exactly one layer, with its item, quantity and price; an issuing line has movements
      out of layers of its item that add up to its quantity; neither has both. */
  ghost predicate Traced(g: Ledger, t: DocType, line: Line) {
    if Receives(t, line) then
      && NoMovement(g, line.id)
      && (exists i :: 0 <= i < |g.layers| && IsLayerOf(g.layers[i], line))
      && (forall i, j ::
            0 <= i < |g.layers| && 0 <= j < |g.layers| && g.layers[i].line == line.id && g.layers[j].line == line.id
            ==> i == j)
    else
      && NoLayer(g, line.id)
      && Sum(TakenBy(line.id), g.movements) == Wanted(line)
      && (forall m :: 0 <= m < |g.movements| && g.movements[m].line == line.id ==>
            g.movements[m].layer < |g.layers| && g.layers[g.movements[m].layer].item == line.item)
  }

  /** From `g` to `h` rows are only added, all for line `id`, and old layers only lose units. */
  ghost predicate Extends(g: Ledger, h: Ledger, id: nat) {
    && |g.layers| <= |h.layers| && |g.movements| <= |h.movements|
    && (forall i :: 0 <= i < |g.layers| ==> Drawn(g.layers[i], h.layers[i]))
    && (forall i :: |g.layers| <= i < |h.layers| ==> h.layers[i].line == id)
    && h.movements[..|g.movements|] == g.movements
    && (forall m :: |g.movements| <= m < |h.movements| ==> h.movements[m].line == id)
  }

  /** Rows of other lines are as they were. */
  lemma OthersKept(g: Ledger, h: Ledger, id: nat, t: DocType, other: Line)
    requires Extends(g, h, id) && other.id != id
    ensures Untouched(g, other.id) ==> Untouched(h, other.id)
    ensures Traced(g, t, other) ==> Traced(h, t, other)
  {
    var added := h.movements[|g.movements|..];
    assert h.movements == g.movements + added;
    SumConcat(TakenBy(other.id), g.movements, added);
    SumZero(TakenBy(other.id), added);
    assert forall m :: 0 <= m < |h.movements| && h.movements[m].line == other.id ==>
      m < |g.movements| && h.movements[m] == g.movements[m];
    assert forall i :: 0 <= i < |h.layers| && h.layers[i].line == other.id ==>
      i < |g.layers| && Drawn(g.layers[i], h.layers[i]);
    if Receives(t, other) && Traced(g, t, other) {
      var i :| 0 <= i < |g.layers| && IsLayerOf(g.layers[i], other);
      assert IsLayerOf(h.layers[i], other);
    }
  }

  lemma ReceiveKeeps(g: Ledger, line: Line, price: int, clock: Clock)
    requires LedgerOk(g) && line.quantity > 0
    ensures LedgerOk(Receive(g, line, price, clock))
  {
    var h := Receive(g, line, price, clock);
    var layer := NewLayer(line, price, clock);
    forall item: nat ensures BalanceOf(h, item) == OnHand(h.layers, item) {
      SumAppend(QuantityOf(item), g.layers, layer);
      assert BalanceOf(g, item) == OnHand(g.layers, item);
    }
    SumAppend(ReceivedValue(), g.layers, layer);
    SumAppend(LayerValue(), g.layers, layer);
    SumZero(TakenFrom(|g.layers|), g.movements);
  }

  /** The listing the issue loop gets satisfies its needs. */
  lemma IssueReady(g: Ledger, item: nat, need: int, query: FifoQuery)
    requires Sound(g.layers) && 0 <= need
    ensures var order := query(g.layers, item);
            && IsFifoOrder(g.layers, item, order)
            && TotalRemaining(g.layers, order) == OnHand(g.layers, item)
            && (need <= OnHand(g.layers, item) ==> CanIssue(g.layers, order, item, need))
  {
    var order := query(g.layers, item);
    assert IsFifoOrder(g.layers, item, order);
    AvailableIsOnHand(g.layers, item, order);
    forall k | 0 <= k < |order| ensures InStock(g.layers[order[k]], item) {
      assert order[k] in order;
    }
  }

  /** The parts of a successful issue. */
  lemma IssueParts(g: Ledger, line: Line, need: int, query: FifoQuery) returns (order: seq<nat>, moves: seq<Movement>)
    requires Sound(g.layers) && 0 < need && Issue(g, line, need, query).Ok?
    ensures order == query(g.layers, line.item) && CanIssue(g.layers, order, line.item, need)
    ensures need <= OnHand(g.layers, line.item)
    ensures moves == Consume(g.layers, order, line.id, need).1
    ensures var h := Issue(g, line, need, query).value;
            && h.layers == Consume(g.layers, order, line.id, need).0
            && h.movements == g.movements + moves
            && h.balance == UpsertBalance(g.balance, line.item, -need)
  {
    order := query(g.layers, line.item);
    IssueReady(g, line.item, need, query);
    moves := Consume(g.layers, order, line.id, need).1;
  }

  lemma IssueKeepsBalance(g: Ledger, line: Line, need: int, query: FifoQuery)
    requires LedgerOk(g) && 0 < need && Issue(g, line, need, query).Ok?
    ensures BalanceOk(Issue(g, line, need, query).value)
  {
    var h := Issue(g, line, need, query).value;
    var order, moves := IssueParts(g, line, need, query);
    forall item: nat ensures BalanceOf(h, item) == OnHand(h.layers, item) {
      ConsumeQuantity(g.layers, order, line.item, line.id, need, item);
      assert BalanceOf(g, item) == OnHand(g.layers, item);
    }
  }

  lemma IssueKeepsLayers(g: Ledger, line: Line, need: int, query: FifoQuery)
    requires LedgerOk(g) && 0 < need && Issue(g, line, need, query).Ok?
    ensures Sound(Issue(g, line, need, query).value.layers) && LayersAccounted(Issue(g, line, need, query).value)
  {
    var h := Issue(g, line, need, query).value;
    var order, moves := IssueParts(g, line, need, query);
    ConsumeFrame(g.layers, order, line.id, need);
    forall i | 0 <= i < |g.layers|
      ensures h.layers[i].received == h.layers[i].remaining + Sum(TakenFrom(i), h.movements)
    {
      ConsumePerLayer(g.layers, order, line.item, line.id, need, i);
      SumConcat(TakenFrom(i), g.movements, moves);
    }
  }

  lemma IssueKeepsValue(g: Ledger, line: Line, need: int, query: FifoQuery)
    requires LedgerOk(g) && 0 < need && Issue(g, line, need, query).Ok?
    ensures ValueConserved(Issue(g, line, need, query).value)
  {
    var h := Issue(g, line, need, query).value;
    var order, moves := IssueParts(g, line, need, query);
    ConsumeFrame(g.layers, order, line.id, need);
    ConsumeValue(g.layers, order, line.item, line.id, need);
    SumConcat(MovementCost(), g.movements, moves);
    SumCongruent(ReceivedValue(), ReceivedValue(), g.layers, h.layers);
  }

  lemma IssueKeepsRows(g: Ledger, line: Line, need: int, query: FifoQuery)
    requires LedgerOk(g) && 0 < need && Issue(g, line, need, query).Ok?
    ensures var h := Issue(g, line, need, query).value;
            && Extends(g, h, line.id) && |h.layers| == |g.layers| && MovementsOk(h.layers, h.movements)
            && MovementsOf(h.movements[|g.movements|..], h.layers, line.item, line.id)
  {
    var h := Issue(g, line, need, query).value;
    var order, moves := IssueParts(g, line, need, query);
    ConsumeFrame(g.layers, order, line.id, need);
    ConsumePerLine(g.layers, order, line.item, line.id, need);
    assert h.movements[|g.movements|..] == moves;
  }

  lemma IssueTraces(g: Ledger, t: DocType, line: Line, query: FifoQuery)
    requires LedgerOk(g) && Untouched(g, line.id) && !Receives(t, line)
    requires line.quantity != 0 && Issue(g, line, Wanted(line), query).Ok?
    ensures Traced(Issue(g, line, Wanted(line), query).value, t, line)
  {
    var h := Issue(g, line, Wanted(line), query).value;
    var order, moves := IssueParts(g, line, Wanted(line), query);
    IssueKeepsRows(g, line, Wanted(line), query);
    ConsumePerLine(g.layers, order, line.item, line.id, Wanted(line));
    SumConcat(TakenBy(line.id), g.movements, moves);
    SumZero(TakenBy(line.id), g.movements);
    forall i | 0 <= i < |h.layers| ensures h.layers[i].line != line.id {
      assert Drawn(g.layers[i], h.layers[i]);
    }
    forall m | 0 <= m < |h.movements| && h.movements[m].line == line.id
      ensures h.movements[m].layer < |h.layers| && h.layers[h.movements[m].layer].item == line.item
    {
      assert h.movements[m] == h.movements[|g.movements|..][m - |g.movements|];
    }
  }

  lemma ReceiptExtends(g: Ledger, line: Line, price: int, clock: Clock)
    ensures Extends(g, Receive(g, line, price, clock), line.id)
  {
  }

  /** The new layer is the line's, and no other layer is. */
  lemma ReceiptTraces(t: DocType, g: Ledger, line: Line, clock: Clock)
    requires LineValid(t, line) && Untouched(g, line.id) && Receives(t, line)
    ensures Traced(Receive(g, line, line.price.value, clock), t, line)
  {
    var h := Receive(g, line, line.price.value, clock);
    assert IsLayerOf(h.layers[|g.layers|], line);
    assert forall i :: 0 <= i < |g.layers| ==> h.layers[i] == g.layers[i];
  }

  lemma ReceiptEffect(t: DocType, g: Ledger, line: Line, clock: Clock)
    requires LedgerOk(g) && LineValid(t, line) && Untouched(g, line.id) && Receives(t, line)
    ensures var h := Receive(g, line, line.price.value, clock);
            LedgerOk(h) && Extends(g, h, line.id) && Traced(h, t, line)
  {
    ReceiveKeeps(g, line, line.price.value, clock);
    ReceiptExtends(g, line, line.price.value, clock);
    ReceiptTraces(t, g, line, clock);
  }

  lemma IssueEffect(t: DocType, g: Ledger, line: Line, clock: Clock, query: FifoQuery)
    requires LedgerOk(g) && LineValid(t, line) && Untouched(g, line.id) && !Receives(t, line)
    requires PostLine(t, g, line, clock, query).Ok?
    ensures var h := PostLine(t, g, line, clock, query).value;
            LedgerOk(h) && Extends(g, h, line.id) && Traced(h, t, line)
  {
    IssueKeepsBalance(g, line, Wanted(line), query);
    IssueKeepsLayers(g, line, Wanted(line), query);
    IssueKeepsValue(g, line, Wanted(line), query);
    IssueKeepsRows(g, line, Wanted(line), query);
    IssueTraces(g, t, line, query);
  }

  /** Posting one valid line keeps the ledger sound, traces the line, and touches nothing of other lines. */
  lemma PostLineEffect(t: DocType, g: Ledger, line: Line, clock: Clock, query: FifoQuery)
    requires LedgerOk(g) && LineValid(t, line) && Untouched(g, line.id)
    requires PostLine(t, g, line, clock, query).Ok?
    ensures var h := PostLine(t, g, line, clock, query).value;
            LedgerOk(h) && Extends(g, h, line.id) && Traced(h, t, line)
  {
    if Receives(t, line) {
      ReceiptEffect(t, g, line, clock);
    } else {
      IssueEffect(t, g, line, clock, query);
    }
  }
}
