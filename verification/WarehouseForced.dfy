/** The conditions of `WarehouseTies` are exact: when two layers of an item tie, the database can make two posts
    of one document draw on different layers, and cost differently if their prices differ. */
module WarehouseForced {
  import opened Prelude
  import opened Layers
  import opened Stock
  import opened Numbering
  import opened Warehouse
  import opened WarehouseLedger
  import opened WarehouseInvariants
  import opened WarehouseQueue
  import opened WarehouseVerdicts
  import opened WarehouseTies

  // ---- Two listings of a tie ----

  function Swapped(order: seq<nat>, a: nat, b: nat): (r: seq<nat>)
    requires a < |order| && b < |order|
    ensures |r| == |order|
  {
    order[a := order[b]][b := order[a]]
  }

  lemma SwappedMembers(order: seq<nat>, a: nat, b: nat)
    requires a < |order| && b < |order|
    ensures forall i :: i in Swapped(order, a, b) <==> i in order
  {
    var r := Swapped(order, a, b);
    forall i | i in order ensures i in r {
      var k :| 0 <= k < |order| && order[k] == i;
      assert r[if k == a then b else if k == b then a else k] == i;
    }
    forall i | i in r ensures i in order {
      var k :| 0 <= k < |r| && r[k] == i;
      assert order[if k == a then b else if k == b then a else k] == i;
    }
  }

  /** Two equally old layers can be listed the other way round. */
  lemma SwappedIsFifo(layers: seq<Layer>, item: nat, order: seq<nat>, a: nat, b: nat)
    requires IsFifoOrder(layers, item, order) && a < b < |order| && SameAge(layers[order[a]], layers[order[b]])
    ensures IsFifoOrder(layers, item, Swapped(order, a, b))
  {
    var r := Swapped(order, a, b);
    SwappedMembers(order, a, b);
    forall k | a <= k <= b ensures SameAge(layers[order[k]], layers[order[a]]) {
      assert k == a || NotAfter(layers[order[a]], layers[order[k]]);
      assert k == b || NotAfter(layers[order[k]], layers[order[b]]);
    }
  }

  lemma ChosenAnswersFifo(layers0: seq<Layer>, item0: nat, order0: seq<nat>)
    requires IsFifoOrder(layers0, item0, order0)
    ensures AnswersFifo((layers: seq<Layer>, item: nat) =>
                          if layers == layers0 && item == item0 then order0 else InsertionOrder(layers, item))
  {
  }

  /** A database that gives one query a chosen listing. */
  lemma Choosing(layers0: seq<Layer>, item0: nat, order0: seq<nat>) returns (query: FifoQuery)
    requires IsFifoOrder(layers0, item0, order0)
    ensures query(layers0, item0) == order0
  {
    ChosenAnswersFifo(layers0, item0, order0);
    query := (layers: seq<Layer>, item: nat) =>
      if layers == layers0 && item == item0 then order0 else InsertionOrder(layers, item);
  }

  // ---- Sums over movements are sums over the units they decode to ----

  function OverMovement(f: Unit -> int): Movement -> int {
    (m: Movement) => m.quantity * f(Unit(m.layer, m.price))
  }

  lemma {:induction false} DecodeSum(f: Unit -> int, moves: seq<Movement>)
    requires forall m :: 0 <= m < |moves| ==> moves[m].quantity >= 0
    ensures Sum(OverMovement(f), moves) == Sum(f, Decode(moves))
    decreases |moves|
  {
    if moves != [] {
      var u := Unit(moves[0].layer, moves[0].price);
      DecodeSum(f, moves[1..]);
      SumHead(OverMovement(f), moves);
      RepeatSum(f, u, moves[0].quantity);
      SumConcat(f, Repeat(u, moves[0].quantity), Decode(moves[1..]));
    }
  }

  /** What an issue adds to a sum over all movements. */
  lemma IssueAdds(f: Unit -> int, g: Ledger, line: Line, query: FifoQuery)
    requires LedgerOk(g) && line.quantity > 0 && Issue(g, line, line.quantity, query).Ok?
    ensures var h := Issue(g, line, line.quantity, query).value;
            && line.quantity <= |Queue(query, g.layers, line.item)|
            && Sum(OverMovement(f), h.movements)
               == Sum(OverMovement(f), g.movements) + Sum(f, Queue(query, g.layers, line.item)[..line.quantity])
  {
    var h := Issue(g, line, line.quantity, query).value;
    var added := h.movements[|g.movements|..];
    IssueDequeues(g, line, line.quantity, query);
    IssueKeepsRows(g, line, line.quantity, query);
    assert h.movements == g.movements + added;
    SumConcat(OverMovement(f), g.movements, added);
    DecodeSum(f, added);
  }

  // ---- One document, two outcomes ----

  lemma FirstOfRun(front: seq<Unit>, own: seq<Unit>, rest: seq<Unit>)
    requires own != []
    ensures (front + (own + rest))[..|front| + 1] == front + [own[0]]
  {
  }

  lemma UnitsAround(layers: seq<Layer>, order: seq<nat>, a: nat)
    requires AreRows(layers, order) && a < |order|
    ensures Units(layers, order)
            == Units(layers, order[..a])
               + (Repeat(Unit(order[a], layers[order[a]].price), layers[order[a]].remaining)
                   + Units(layers, order[a + 1..]))
  {
    assert order == order[..a] + order[a..];
    UnitsConcat(layers, order[..a], order[a..]);
    UnitsHead(layers, order[a..], order[a], order[a + 1..]);
  }

  /** The units listed before row `a` of a listing, and the first of its own. */
  lemma FrontOfQueue(layers: seq<Layer>, item: nat, order: seq<nat>, a: nat)
    requires IsFifoOrder(layers, item, order) && a < |order|
    ensures var front := Units(layers, order[..a]);
            && |front| < |Units(layers, order)|
            && Units(layers, order)[..|front| + 1] == front + [Unit(order[a], layers[order[a]].price)]
  {
    var front, rest := Units(layers, order[..a]), Units(layers, order[a + 1..]);
    var own := Repeat(Unit(order[a], layers[order[a]].price), layers[order[a]].remaining);
    ListingHolds(layers, item, order);
    UnitsAround(layers, order, a);
    FirstOfRun(front, own, rest);
    assert own[0] == Unit(order[a], layers[order[a]].price);
  }

  lemma LinePosts(g: Ledger, line: Line, clock: Clock, query: FifoQuery)
    requires LedgerOk(g) && 0 < line.quantity <= |Queue(query, g.layers, line.item)|
    ensures PostLines(WZ, g, [line], clock, query) == Issue(g, line, line.quantity, query)
    ensures Issue(g, line, line.quantity, query).Ok?
  {
    var order := query(g.layers, line.item);
    DatabaseReadsQueue(query, g.layers, line.item);
    ListingHolds(g.layers, line.item, order);
    UnitsLength(g.layers, order);
    assert [line][1..] == [];
  }

  /** Two tied layers: one line, posted with either listed first, takes the same units but for one of each. */
  lemma TieSplits(g: Ledger, item: nat, a: nat, b: nat, id: nat, clock: Clock)
    returns (line: Line, qa: FifoQuery, qb: FifoQuery, front: seq<Unit>)
    requires LedgerOk(g) && Untouched(g, id) && a < b < |InsertionOrder(g.layers, item)|
    requires SameAge(g.layers[InsertionOrder(g.layers, item)[a]], g.layers[InsertionOrder(g.layers, item)[b]])
    ensures BothPost(g, [line], [line], clock, qa, qb) && line.quantity > 0 && line.item == item
    ensures PostLines(WZ, g, [line], clock, qa) == Issue(g, line, line.quantity, qa)
    ensures PostLines(WZ, g, [line], clock, qb) == Issue(g, line, line.quantity, qb)
    ensures var order := InsertionOrder(g.layers, item);
            && line.quantity <= |Queue(qa, g.layers, item)| && line.quantity <= |Queue(qb, g.layers, item)|
            && Queue(qa, g.layers, item)[..line.quantity] == front + [Unit(order[a], g.layers[order[a]].price)]
            && Queue(qb, g.layers, item)[..line.quantity] == front + [Unit(order[b], g.layers[order[b]].price)]
  {
    var order := InsertionOrder(g.layers, item);
    var other := Swapped(order, a, b);
    SwappedIsFifo(g.layers, item, order, a, b);
    qa := Choosing(g.layers, item, order);
    qb := Choosing(g.layers, item, other);
    front := Units(g.layers, order[..a]);
    line := Line(id, item, |front| + 1, None);
    assert other[..a] == order[..a] && other[a] == order[b];
    FrontOfQueue(g.layers, item, order, a);
    FrontOfQueue(g.layers, item, other, a);
    LinePosts(g, line, clock, qa);
    LinePosts(g, line, clock, qb);
  }

  /** The sum of a key over the movements tells the two outcomes apart by the keys of the two layers. */
  lemma TieShows(f: Unit -> int, g: Ledger, item: nat, i: nat, j: nat, id: nat, clock: Clock)
    returns (line: Line, qa: FifoQuery, qb: FifoQuery)
    requires LedgerOk(g) && Untouched(g, id) && Tied(g.layers, item, i, j) && i != j
    ensures BothPost(g, [line], [line], clock, qa, qb) && line.item == item
    ensures var x, y := PostLines(WZ, g, [line], clock, qa).value, PostLines(WZ, g, [line], clock, qb).value;
            Sum(OverMovement(f), x.movements) - Sum(OverMovement(f), y.movements)
            == f(Unit(i, g.layers[i].price)) - f(Unit(j, g.layers[j].price))
  {
    var order := InsertionOrder(g.layers, item);
    assert i in order && j in order;
    var a: nat :| a < |order| && order[a] == i;
    var b: nat :| b < |order| && order[b] == j;
    var front: seq<Unit>;
    if a < b {
      line, qa, qb, front := TieSplits(g, item, a, b, id, clock);
    } else {
      line, qb, qa, front := TieSplits(g, item, b, a, id, clock);
    }
    IssueAdds(f, g, line, qa);
    IssueAdds(f, g, line, qb);
    SumAppend(f, front, Unit(i, g.layers[i].price));
    SumAppend(f, front, Unit(j, g.layers[j].price));
  }

  // ---- Exactly when the outcome is forced ----

  ghost predicate LayersForced(g: Ledger, clock: Clock) {
    forall a, b, qa, qb :: BothPost(g, a, b, clock, qa, qb) ==>
      PostLines(WZ, g, a, clock, qa).value.layers == PostLines(WZ, g, b, clock, qb).value.layers
  }

  ghost predicate CostForced(g: Ledger, clock: Clock) {
    forall a, b, qa, qb :: BothPost(g, a, b, clock, qa, qb) ==>
      Cost(PostLines(WZ, g, a, clock, qa).value.movements) == Cost(PostLines(WZ, g, b, clock, qb).value.movements)
  }

  lemma CostOverMovements(moves: seq<Movement>)
    ensures Sum(OverMovement(PriceOf()), moves) == Cost(moves)
  {
    SumCongruent(OverMovement(PriceOf()), MovementCost(), moves, moves);
  }

  function IsLayer(i: nat): Unit -> int {
    (u: Unit) => if u.layer == i then 1 else 0
  }

  lemma TakenOverMovements(i: nat, moves: seq<Movement>)
    ensures Sum(OverMovement(IsLayer(i)), moves) == Sum(TakenFrom(i), moves)
  {
    SumCongruent(OverMovement(IsLayer(i)), TakenFrom(i), moves, moves);
  }

  lemma CostNeedsEqualPrices(g: Ledger, item: nat, id: nat, clock: Clock)
    requires LedgerOk(g) && Untouched(g, id) && CostForced(g, clock)
    ensures TiesAgree(PriceOf(), g.layers, item)
  {
    forall i: nat, j: nat | Tied(g.layers, item, i, j) ensures g.layers[i].price == g.layers[j].price {
      if i != j {
        var line, qa, qb := TieShows(PriceOf(), g, item, i, j, id, clock);
        CostOverMovements(PostLines(WZ, g, [line], clock, qa).value.movements);
        CostOverMovements(PostLines(WZ, g, [line], clock, qb).value.movements);
      }
    }
  }

  lemma SameLayersSameTaken(x: Ledger, y: Ledger, i: nat)
    requires LedgerOk(x) && LedgerOk(y) && x.layers == y.layers && i < |x.layers|
    ensures Sum(TakenFrom(i), x.movements) == Sum(TakenFrom(i), y.movements)
  {
    assert x.layers[i].received == x.layers[i].remaining + Sum(TakenFrom(i), x.movements);
    assert y.layers[i].received == y.layers[i].remaining + Sum(TakenFrom(i), y.movements);
  }

  lemma LayersNeedNoTies(g: Ledger, item: nat, id: nat, clock: Clock)
    requires LedgerOk(g) && Untouched(g, id) && LayersForced(g, clock)
    ensures TiesAgree(LayerOf(), g.layers, item)
  {
    forall i: nat, j: nat | Tied(g.layers, item, i, j) ensures i == j {
      if i != j {
        var line, qa, qb := TieShows(IsLayer(i), g, item, i, j, id, clock);
        var x, y := PostLines(WZ, g, [line], clock, qa).value, PostLines(WZ, g, [line], clock, qb).value;
        WzLinesDraw(g, [line], clock, qa);
        WzLinesDraw(g, [line], clock, qb);
        TakenOverMovements(i, x.movements);
        TakenOverMovements(i, y.movements);
        SameLayersSameTaken(x, y, i);
      }
    }
  }

  /** In every reachable state: any two WZ documents with the same totals leave the same layers, however the
      database lists ties, if and only if no two layers of an item in stock are equally old. */
  lemma LayersForcedIff(ops: seq<Op>, clock: Clock)
    ensures LayersForced(Run(ops).ledger, clock)
            <==> forall item: nat :: TiesAgree(LayerOf(), Run(ops).ledger.layers, item)
  {
    var s := Run(ops);
    Reachable(ops);
    if LayersForced(s.ledger, clock) {
      forall item: nat ensures TiesAgree(LayerOf(), s.ledger.layers, item) {
        LayersNeedNoTies(s.ledger, item, s.nextLine, clock);
      }
    }
    if forall item: nat :: TiesAgree(LayerOf(), s.ledger.layers, item) {
      forall a, b, qa, qb | BothPost(s.ledger, a, b, clock, qa, qb)
        ensures PostLines(WZ, s.ledger, a, clock, qa).value.layers == PostLines(WZ, s.ledger, b, clock, qb).value.layers
      {
        LayersAreForced(s.ledger, a, b, clock, qa, qb);
      }
    }
  }

  /** In every reachable state: any two WZ documents with the same totals cost the same, however the database
      lists ties, if and only if equally old layers of an item in stock have equal prices. */
  lemma CostForcedIff(ops: seq<Op>, clock: Clock)
    ensures CostForced(Run(ops).ledger, clock)
            <==> forall item: nat :: TiesAgree(PriceOf(), Run(ops).ledger.layers, item)
  {
    var s := Run(ops);
    Reachable(ops);
    if CostForced(s.ledger, clock) {
      forall item: nat ensures TiesAgree(PriceOf(), s.ledger.layers, item) {
        CostNeedsEqualPrices(s.ledger, item, s.nextLine, clock);
      }
    }
    if forall item: nat :: TiesAgree(PriceOf(), s.ledger.layers, item) {
      forall a, b, qa, qb | BothPost(s.ledger, a, b, clock, qa, qb)
        ensures Cost(PostLines(WZ, s.ledger, a, clock, qa).value.movements)
                == Cost(PostLines(WZ, s.ledger, b, clock, qb).value.movements)
      {
        CostIsForced(s.ledger, a, b, clock, qa, qb);
      }
    }
  }

  // ---- One PZ is enough ----

  const TWO_PRICES := Body("PZ", [RawLine(0, 10000, Some(10)), RawLine(0, 10000, Some(20))], None, None, None)

  const RECEIPT := Doc(PZ, Draft, None, None, None, None, [Line(0, 0, 1, Some(10)), Line(1, 0, 1, Some(20))])

  lemma PzIsDrafted()
    ensures Run([CreateOp(TWO_PRICES)]) == State([RECEIPT], Ledger([], [], map[]), map[], 2)
  {
    assert RawLineOk(PZ, TWO_PRICES.lines[0]) && RawLineOk(PZ, TWO_PRICES.lines[1]);
    assert BuildLines(TWO_PRICES.lines, 0) == RECEIPT.lines;
    OneMoreStep([], CreateOp(TWO_PRICES));
    assert [] + [CreateOp(TWO_PRICES)] == [CreateOp(TWO_PRICES)];
  }

  lemma PzIsPosted(clock: Clock, query: FifoQuery)
    ensures var r := PostLines(PZ, Ledger([], [], map[]), RECEIPT.lines, clock, query);
            r.Ok? && r.value.layers ==
              [Layer(0, 0, 1, 1, 10, clock.day, clock.stamp), Layer(0, 1, 1, 1, 20, clock.day, clock.stamp)]
  {
    assert RECEIPT.lines[1..] == [Line(1, 0, 1, Some(20))];
    assert RECEIPT.lines[1..][1..] == [];
  }

  /** The lines of one PZ tie: after a receipt of one item at two prices, what the next WZ costs depends on how
      the database happens to list them. */
  lemma OnePzLeavesCostOpen(clock: Clock, query: FifoQuery)
    ensures var s := Run([CreateOp(TWO_PRICES), PostOp(0, clock, query)]);
            && |s.docs| == 1 && s.docs[0].status == Posted && |s.ledger.layers| == 2
            && !CostForced(s.ledger, clock) && !LayersForced(s.ledger, clock)
  {
    var ops := [CreateOp(TWO_PRICES), PostOp(0, clock, query)];
    PzIsDrafted();
    PzIsPosted(clock, query);
    OneMoreStep([CreateOp(TWO_PRICES)], PostOp(0, clock, query));
    assert [CreateOp(TWO_PRICES)] + [PostOp(0, clock, query)] == ops;
    assert Tied(Run(ops).ledger.layers, 0, 0, 1);
    CostForcedIff(ops, clock);
    LayersForcedIff(ops, clock);
    assert !TiesAgree(PriceOf(), Run(ops).ledger.layers, 0);
    assert !TiesAgree(LayerOf(), Run(ops).ledger.layers, 0);
  }
}
