/** Sums over the layer and movement tables, and how one issue changes them. */
module Stock {
  import opened Prelude
  import opened Layers

  function QuantityOf(item: nat): Layer -> int {
    (l: Layer) => if l.item == item then l.remaining else 0
  }

  function LayerValue(): Layer -> int {
    (l: Layer) => l.remaining * l.price
  }

  function TakenFrom(layer: nat): Movement -> int {
    (m: Movement) => if m.layer == layer then m.quantity else 0
  }

  function TakenBy(line: nat): Movement -> int {
    (m: Movement) => if m.line == line then m.quantity else 0
  }

  function MovementCost(): Movement -> int {
    (m: Movement) => m.quantity * m.price
  }

  /** What the balance cache must show: the sum of the remaining quantities of the item's layers. */
  function OnHand(layers: seq<Layer>, item: nat): int {
    Sum(QuantityOf(item), layers)
  }

  function StockValue(layers: seq<Layer>): int {
    Sum(LayerValue(), layers)
  }

  function Cost(moves: seq<Movement>): int {
    Sum(MovementCost(), moves)
  }

  ghost predicate Sound(layers: seq<Layer>) {
    forall i :: 0 <= i < |layers| ==> 0 <= layers[i].remaining <= layers[i].received
  }

  /** The availability test compares against the whole stock of the item, whatever order the ties come in. */
  lemma {:induction false} AvailableIsOnHand(layers: seq<Layer>, item: nat, order: seq<nat>)
    requires Sound(layers) && IsFifoOrder(layers, item, order)
    ensures TotalRemaining(layers, order) == OnHand(layers, item)
    decreases |order|
  {
    if order == [] {
      SumZero(QuantityOf(item), layers);
    } else {
      var i, tail := order[0], order[1..];
      var next := layers[i := layers[i].(remaining := 0)];
      assert forall j :: j in order <==> j == i || j in tail;
      TotalFrame(layers, next, tail);
      AvailableIsOnHand(next, item, tail);
      SumUpdate(QuantityOf(item), layers, i, layers[i].(remaining := 0));
    }
  }

  /** The situation in which the issue loop runs: a listing of layers of one item, all holding something,
      that together hold at least `need`. */
  ghost predicate CanIssue(layers: seq<Layer>, order: seq<nat>, item: nat, need: int) {
    && RowIds(layers, order) && Holding(layers, order)
    && (forall k :: 0 <= k < |order| ==> layers[order[k]].item == item)
    && 0 <= need <= TotalRemaining(layers, order)
  }

  /** One turn of the issue loop. */
  lemma IssueTurn(layers: seq<Layer>, order: seq<nat>, item: nat, line: nat, need: int)
    returns (drawn: Layer, next: seq<Layer>, first: Movement)
    requires CanIssue(layers, order, item, need) && order != [] && need > 0
    ensures drawn == layers[order[0]].(remaining := layers[order[0]].remaining - first.quantity)
    ensures next == layers[order[0] := drawn]
    ensures first == Movement(order[0], line, Min(layers[order[0]].remaining, need), layers[order[0]].price)
    ensures 0 < first.quantity && CanIssue(next, order[1..], item, need - first.quantity)
    ensures var rest := Consume(next, order[1..], line, need - first.quantity);
            Consume(layers, order, line, need) == (rest.0, [first] + rest.1)
  {
    var take: nat;
    take, next := FirstTurn(layers, order, line, need);
    first := Movement(order[0], line, take, layers[order[0]].price);
    drawn := next[order[0]];
  }

  /** Stock falls by the issued quantity for the issued item and for no other. */
  lemma {:induction false} ConsumeQuantity(layers: seq<Layer>, order: seq<nat>, item: nat, line: nat, need: int, x: nat)
    requires CanIssue(layers, order, item, need)
    ensures OnHand(Consume(layers, order, line, need).0, x) == OnHand(layers, x) - if x == item then need else 0
    decreases |order|
  {
    if order != [] && need > 0 {
      var drawn, next, first := IssueTurn(layers, order, item, line, need);
      ConsumeQuantity(next, order[1..], item, line, need - first.quantity, x);
      SumUpdate(QuantityOf(x), layers, order[0], drawn);
    }
  }

  lemma TimesLess(n: int, k: int, price: int)
    ensures (n - k) * price == n * price - k * price
  {
  }

  /** Value moves from the layers to the movements, none is lost. */
  lemma {:induction false} ConsumeValue(layers: seq<Layer>, order: seq<nat>, item: nat, line: nat, need: int)
    requires CanIssue(layers, order, item, need)
    ensures var (after, moves) := Consume(layers, order, line, need);
            StockValue(layers) == StockValue(after) + Cost(moves)
    decreases |order|
  {
    if order != [] && need > 0 {
      var drawn, next, first := IssueTurn(layers, order, item, line, need);
      ConsumeValue(next, order[1..], item, line, need - first.quantity);
      var moves := Consume(next, order[1..], line, need - first.quantity).1;
      SumUpdate(LayerValue(), layers, order[0], drawn);
      SumConcat(MovementCost(), [first], moves);
      TimesLess(layers[order[0]].remaining, first.quantity, drawn.price);
    }
  }

  /** Each layer loses exactly what the movements say it lost. */
  lemma {:induction false} ConsumePerLayer(layers: seq<Layer>, order: seq<nat>, item: nat, line: nat, need: int, i: nat)
    requires CanIssue(layers, order, item, need) && i < |layers|
    ensures var (after, moves) := Consume(layers, order, line, need);
            layers[i].remaining - after[i].remaining == Sum(TakenFrom(i), moves)
    decreases |order|
  {
    if order != [] && need > 0 {
      var drawn, next, first := IssueTurn(layers, order, item, line, need);
      ConsumePerLayer(next, order[1..], item, line, need - first.quantity, i);
      SumConcat(TakenFrom(i), [first], Consume(next, order[1..], line, need - first.quantity).1);
    }
  }

  ghost predicate MovementsOf(moves: seq<Movement>, layers: seq<Layer>, item: nat, line: nat) {
    forall m :: 0 <= m < |moves| ==>
      && moves[m].layer < |layers| && layers[moves[m].layer].item == item && moves[m].line == line
      && 0 < moves[m].quantity && moves[m].price == layers[moves[m].layer].price
  }

  lemma MovementsFrom(layers: seq<Layer>, next: seq<Layer>, item: nat, line: nat, first: Movement, moves: seq<Movement>)
    requires |next| == |layers| && forall i :: 0 <= i < |layers| ==> Drawn(layers[i], next[i])
    requires MovementsOf([first], layers, item, line) && MovementsOf(moves, next, item, line)
    ensures MovementsOf([first] + moves, layers, item, line)
  {
    forall m | 0 <= m < |moves|
      ensures moves[m].layer < |layers| && layers[moves[m].layer].item == item
      ensures moves[m].price == layers[moves[m].layer].price
    {
      assert Drawn(layers[moves[m].layer], next[moves[m].layer]);
    }
  }

  /** The movements are strictly positive, all belong to the issued line and the issued item, carry their
      layer's price, and add up to the issued quantity. */
  lemma {:induction false} ConsumePerLine(layers: seq<Layer>, order: seq<nat>, item: nat, line: nat, need: int)
    requires CanIssue(layers, order, item, need)
    ensures Sum(TakenBy(line), Consume(layers, order, line, need).1) == need
    ensures MovementsOf(Consume(layers, order, line, need).1, layers, item, line)
    decreases |order|
  {
    if order != [] && need > 0 {
      var drawn, next, first := IssueTurn(layers, order, item, line, need);
      var moves := Consume(next, order[1..], line, need - first.quantity).1;
      ConsumePerLine(next, order[1..], item, line, need - first.quantity);
      SumConcat(TakenBy(line), [first], moves);
      MovementsFrom(layers, next, item, line, first, moves);
    }
  }
}
