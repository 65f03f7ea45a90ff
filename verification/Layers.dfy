/** The FIFO cost layers of the warehouse: `InventoryLayerRepository` and the issue loop of
    `WarehouseDocumentService._consume_fifo`.

    Layer rows are never deleted, so the table is a sequence and a row's index is its id. */
module Layers {

  /** A cost layer. `day` is the received date and `stamp` the transaction time of the insert: together
      they are the key the issue query sorts by. Prices are in ten-thousandths. */
  datatype Layer = Layer(item: nat, line: nat, received: int, remaining: int, price: int, day: int, stamp: int)

  /** A movement: `quantity` units left `layer` for document line `line` at the price copied from the layer. */
  datatype Movement = Movement(layer: nat, line: nat, quantity: int, price: int)

  /** One physical unit in stock: the layer it arrived in and what it cost. */
  datatype Unit = Unit(layer: nat, price: int)

  predicate NotAfter(a: Layer, b: Layer) {
    a.day < b.day || (a.day == b.day && a.stamp <= b.stamp)
  }

  predicate InStock(l: Layer, item: nat) {
    l.item == item && l.remaining > 0
  }

  /** Distinct row ids, all of them rows of the table. */
  ghost predicate RowIds(layers: seq<Layer>, order: seq<nat>) {
    && (forall k :: 0 <= k < |order| ==> order[k] < |layers|)
    && (forall j, k :: 0 <= j < k < |order| ==> order[j] != order[k])
  }

  /** `order` lists exactly the layers of `item` that still hold something, oldest first. */
  ghost predicate IsFifoOrder(layers: seq<Layer>, item: nat, order: seq<nat>) {
    && RowIds(layers, order)
    && (forall i :: 0 <= i < |layers| ==> (i in order <==> InStock(layers[i], item)))
    && (forall j, k :: 0 <= j < k < |order| ==> NotAfter(layers[order[j]], layers[order[k]]))
  }

  /** Older first, and of two equally old rows the one inserted first. */
  predicate InsertedBefore(layers: seq<Layer>, i: nat, j: nat)
    requires i < |layers| && j < |layers|
  {
    NotAfter(layers[i], layers[j]) && (NotAfter(layers[j], layers[i]) ==> i < j)
  }

  /** The rows below `n` in that order. */
  ghost predicate IsFifoOrderUpTo(layers: seq<Layer>, item: nat, n: nat, order: seq<nat>)
    requires n <= |layers|
  {
    && RowIds(layers, order)
    && (forall i :: 0 <= i < |layers| ==> (i in order <==> i < n && InStock(layers[i], item)))
    && (forall j, k :: 0 <= j < k < |order| ==> InsertedBefore(layers, order[j], order[k]))
  }

  /** Inserts a row behind every row that is not after it. */
  function InsertRow(layers: seq<Layer>, item: nat, n: nat, order: seq<nat>): (r: seq<nat>)
    requires n < |layers| && InStock(layers[n], item) && IsFifoOrderUpTo(layers, item, n, order)
    ensures IsFifoOrderUpTo(layers, item, n + 1, r)
  {
    var k := Position(layers, order, n);
    InsertKeepsOrder(layers, item, n, order, k);
    order[..k] + [n] + order[k..]
  }

  lemma InsertKeepsOrder(layers: seq<Layer>, item: nat, n: nat, order: seq<nat>, k: nat)
    requires n < |layers| && InStock(layers[n], item) && IsFifoOrderUpTo(layers, item, n, order)
    requires k <= |order|
    requires forall j :: 0 <= j < k ==> NotAfter(layers[order[j]], layers[n])
    requires k < |order| ==> !NotAfter(layers[order[k]], layers[n])
    ensures IsFifoOrderUpTo(layers, item, n + 1, order[..k] + [n] + order[k..])
  {
    var r := order[..k] + [n] + order[k..];
    assert n !in order;
    InsertedMembers(order, k, n);
    assert RowIds(layers, r) by {
      forall p, q | 0 <= p < q < |r| ensures r[p] != r[q] {
        InsertedAt(order, k, n, p);
        InsertedAt(order, k, n, q);
      }
    }
    forall p, q | 0 <= p < q < |r| ensures InsertedBefore(layers, r[p], r[q]) {
      InsertedAt(order, k, n, p);
      InsertedAt(order, k, n, q);
    }
  }

  lemma InsertedMembers(order: seq<nat>, k: nat, n: nat)
    requires k <= |order|
    ensures forall i :: i in order[..k] + [n] + order[k..] <==> i == n || i in order
  {
    assert order == order[..k] + order[k..];
    assert forall i :: i in order[..k] + [n] + order[k..] <==> i in order[..k] || i == n || i in order[k..];
  }

  lemma InsertedAt(order: seq<nat>, k: nat, n: nat, p: nat)
    requires k <= |order| && p <= |order|
    ensures (order[..k] + [n] + order[k..])[p] == if p < k then order[p] else if p == k then n else order[p - 1]
  {
  }

  function Position(layers: seq<Layer>, order: seq<nat>, n: nat): (k: nat)
    requires RowIds(layers, order) && n < |layers|
    ensures k <= |order|
    ensures forall j :: 0 <= j < k ==> NotAfter(layers[order[j]], layers[n])
    ensures k < |order| ==> !NotAfter(layers[order[k]], layers[n])
  {
    if order == [] || !NotAfter(layers[order[0]], layers[n]) then 0
    else 1 + Position(layers, order[1..], n)
  }

  /** `get_available_fifo` as one particular database would answer it: ties in insertion order. */
  function SortedRows(layers: seq<Layer>, item: nat, n: nat): (order: seq<nat>)
    requires n <= |layers|
    ensures IsFifoOrderUpTo(layers, item, n, order)
  {
    if n == 0 then []
    else if InStock(layers[n - 1], item) then InsertRow(layers, item, n - 1, SortedRows(layers, item, n - 1))
    else SortedRows(layers, item, n - 1)
  }

  function InsertionOrder(layers: seq<Layer>, item: nat): (order: seq<nat>)
    ensures IsFifoOrder(layers, item, order)
    ensures forall j, k :: 0 <= j < k < |order| ==> InsertedBefore(layers, order[j], order[k])
  {
    SortedRows(layers, item, |layers|)
  }

  ghost predicate AnswersFifo(query: (seq<Layer>, nat) -> seq<nat>) {
    forall layers, item :: IsFifoOrder(layers, item, query(layers, item))
  }

  /** What the database answers to "available layers of an item, oldest first", as a function of the rows.
      Rows with equal keys may come in any order, and in a different one whenever the rows differ. */
  type FifoQuery = query: (seq<Layer>, nat) -> seq<nat> | AnswersFifo(query)
    ghost witness (layers: seq<Layer>, item: nat) => InsertionOrder(layers, item)

  // ---- The issue loop on values ----

  function Min(a: int, b: int): int {
    if a <= b then a else b
  }

  /** The availability test's sum over the layers the query returned. */
  function TotalRemaining(layers: seq<Layer>, order: seq<nat>): int
    requires forall k :: 0 <= k < |order| ==> order[k] < |layers|
  {
    if order == [] then 0 else layers[order[0]].remaining + TotalRemaining(layers, order[1..])
  }

  /** Takes `need` units from the layers in the given order, splitting across them. */
  function Consume(layers: seq<Layer>, order: seq<nat>, line: nat, need: int): (r: (seq<Layer>, seq<Movement>))
    requires forall k :: 0 <= k < |order| ==> order[k] < |layers|
    ensures |r.0| == |layers|
    decreases |order|
  {
    if order == [] || need <= 0 then (layers, [])
    else
      var i := order[0];
      var take := Min(layers[i].remaining, need);
      var rest := Consume(layers[i := layers[i].(remaining := layers[i].remaining - take)], order[1..], line,
                          need - take);
      (rest.0, [Movement(i, line, take, layers[i].price)] + rest.1)
  }

  // ---- The unit queue: the specification ----

  function Repeat(u: Unit, n: int): (r: seq<Unit>)
    ensures |r| == if n < 0 then 0 else n
  {
    seq(if n < 0 then 0 else n, _ => u)
  }

  /** The layers in the given order, expanded into single units. */
  function Units(layers: seq<Layer>, order: seq<nat>): seq<Unit>
    requires forall k :: 0 <= k < |order| ==> order[k] < |layers|
  {
    if order == [] then []
    else Repeat(Unit(order[0], layers[order[0]].price), layers[order[0]].remaining) + Units(layers, order[1..])
  }

  /** The movements, run-length decoded. */
  function Decode(moves: seq<Movement>): seq<Unit> {
    if moves == [] then []
    else Repeat(Unit(moves[0].layer, moves[0].price), moves[0].quantity) + Decode(moves[1..])
  }

  /** Rows outside the order do not matter to the queue. */
  lemma {:induction false} UnitsFrame(a: seq<Layer>, b: seq<Layer>, order: seq<nat>)
    requires |a| <= |b| && RowIds(a, order)
    requires forall k :: 0 <= k < |order| ==> a[order[k]] == b[order[k]]
    ensures Units(a, order) == Units(b, order)
  {
    if order != [] {
      UnitsFrame(a, b, order[1..]);
    }
  }

  lemma {:induction false} TotalFrame(a: seq<Layer>, b: seq<Layer>, order: seq<nat>)
    requires |a| == |b| && RowIds(a, order)
    requires forall k :: 0 <= k < |order| ==> a[order[k]].remaining == b[order[k]].remaining
    ensures TotalRemaining(a, order) == TotalRemaining(b, order)
  {
    if order != [] {
      TotalFrame(a, b, order[1..]);
    }
  }

  /** Every layer listed holds something, so the queue is as long as the sum of the layers. */
  ghost predicate Holding(layers: seq<Layer>, order: seq<nat>)
    requires forall k :: 0 <= k < |order| ==> order[k] < |layers|
  {
    forall k :: 0 <= k < |order| ==> layers[order[k]].remaining > 0
  }

  lemma {:induction false} UnitsLength(layers: seq<Layer>, order: seq<nat>)
    requires RowIds(layers, order) && Holding(layers, order)
    ensures |Units(layers, order)| == TotalRemaining(layers, order)
  {
    if order != [] {
      UnitsLength(layers, order[1..]);
    }
  }

  /** What a layer looks like after an issue: only `remaining` can differ, and it only goes down. */
  predicate Drawn(a: Layer, b: Layer) {
    a.(remaining := b.remaining) == b && b.remaining <= a.remaining
  }

  /** The first turn of the loop: what it takes, and the rows it leaves to the rest. */
  lemma FirstTurn(layers: seq<Layer>, order: seq<nat>, line: nat, need: int) returns (take: nat, next: seq<Layer>)
    requires RowIds(layers, order) && Holding(layers, order) && order != [] && 0 < need <= TotalRemaining(layers, order)
    ensures take == Min(layers[order[0]].remaining, need)
    ensures next == layers[order[0] := layers[order[0]].(remaining := layers[order[0]].remaining - take)]
    ensures RowIds(next, order[1..]) && Holding(next, order[1..])
    ensures 0 < take <= need && need - take <= TotalRemaining(next, order[1..]) == |Units(next, order[1..])|
    ensures Units(next, order[1..]) == Units(layers, order[1..])
    ensures TotalRemaining(next, order[1..]) == TotalRemaining(layers, order[1..])
    ensures var (all, rest) := (Consume(layers, order, line, need), Consume(next, order[1..], line, need - take));
            all.0 == rest.0 && all.1 == [Movement(order[0], line, take, layers[order[0]].price)] + rest.1
  {
    take := Min(layers[order[0]].remaining, need);
    next := layers[order[0] := layers[order[0]].(remaining := layers[order[0]].remaining - take)];
    TotalFrame(layers, next, order[1..]);
    UnitsFrame(layers, next, order[1..]);
    UnitsLength(next, order[1..]);
  }

  /** Taking from the first layer and dropping the rest of `need` from the others drops `need` from the whole. */
  lemma DropThroughFirst(layers: seq<Layer>, after: seq<Layer>, order: seq<nat>, take: nat, need: nat)
    requires RowIds(layers, order) && order != [] && |after| == |layers|
    requires after[order[0]] == layers[order[0]].(remaining := layers[order[0]].remaining - take)
    requires 0 < layers[order[0]].remaining && take == Min(layers[order[0]].remaining, need)
    requires need - take <= |Units(layers, order[1..])|
    requires Units(after, order[1..]) == Units(layers, order[1..])[need - take..]
    ensures need <= |Units(layers, order)| && Units(after, order) == Units(layers, order)[need..]
  {
    var u := Unit(order[0], layers[order[0]].price);
    FirstUnits(layers, order);
    FirstUnits(after, order);
    SplitDrop(u, layers[order[0]].remaining, Units(layers, order[1..]), need);
  }

  lemma FirstUnits(layers: seq<Layer>, order: seq<nat>)
    requires (forall k :: 0 <= k < |order| ==> order[k] < |layers|) && order != []
    ensures Units(layers, order)
            == Repeat(Unit(order[0], layers[order[0]].price), layers[order[0]].remaining) + Units(layers, order[1..])
  {
  }

  /** The loop removes exactly the first `need` units from the front of the queue. */
  lemma {:induction false} ConsumeDropsFront(layers: seq<Layer>, order: seq<nat>, line: nat, need: int)
    requires RowIds(layers, order) && Holding(layers, order)
    requires 0 <= need <= TotalRemaining(layers, order) == |Units(layers, order)|
    ensures Units(Consume(layers, order, line, need).0, order) == Units(layers, order)[need..]
    decreases |order|
  {
    if order != [] && need > 0 {
      var take, next := FirstTurn(layers, order, line, need);
      ConsumeFrame(next, order[1..], line, need - take);
      ConsumeDropsFront(next, order[1..], line, need - take);
      DropThroughFirst(layers, Consume(next, order[1..], line, need - take).0, order, take, need);
    }
  }

  /** The movements it writes decode to those units. */
  lemma {:induction false} ConsumeDecodesFront(layers: seq<Layer>, order: seq<nat>, line: nat, need: int)
    requires RowIds(layers, order) && Holding(layers, order)
    requires 0 <= need <= TotalRemaining(layers, order) == |Units(layers, order)|
    ensures Decode(Consume(layers, order, line, need).1) == Units(layers, order)[..need]
    decreases |order|
  {
    if order != [] && need > 0 {
      var take, next := FirstTurn(layers, order, line, need);
      ConsumeDecodesFront(next, order[1..], line, need - take);
      SplitTake(Unit(order[0], layers[order[0]].price), layers[order[0]].remaining, Units(layers, order[1..]), need);
    }
  }

  /** FIFO refinement of one issue. Expanding the layers into single units, the loop removes exactly the
      first `need` units from the front of the queue, and the movements it writes decode to those units. */
  lemma ConsumeIsDequeue(layers: seq<Layer>, order: seq<nat>, line: nat, need: int)
    requires RowIds(layers, order) && Holding(layers, order)
    requires 0 <= need <= TotalRemaining(layers, order)
    ensures |Units(layers, order)| == TotalRemaining(layers, order)
    ensures Units(Consume(layers, order, line, need).0, order) == Units(layers, order)[need..]
    ensures Decode(Consume(layers, order, line, need).1) == Units(layers, order)[..need]
  {
    UnitsLength(layers, order);
    ConsumeDropsFront(layers, order, line, need);
    ConsumeDecodesFront(layers, order, line, need);
  }

  /** Taking from a run of equal units followed by the rest of the queue: what is dropped, and what is left. */
  lemma SplitDrop(u: Unit, n: nat, rest: seq<Unit>, need: nat)
    requires need <= n + |rest|
    ensures (Repeat(u, n) + rest)[need..] == Repeat(u, n - Min(n, need)) + rest[need - Min(n, need)..]
  {
  }

  lemma SplitTake(u: Unit, n: nat, rest: seq<Unit>, need: nat)
    requires need <= n + |rest|
    ensures (Repeat(u, n) + rest)[..need] == Repeat(u, Min(n, need)) + rest[..need - Min(n, need)]
  {
  }

  /** An issue touches only the listed layers, and of those only `remaining`, never below zero. */
  lemma {:induction false} ConsumeFrame(layers: seq<Layer>, order: seq<nat>, line: nat, need: int)
    requires RowIds(layers, order) && Holding(layers, order)
    ensures var after := Consume(layers, order, line, need).0;
            forall i :: 0 <= i < |layers| ==>
              Drawn(layers[i], after[i])
              && (i !in order ==> after[i] == layers[i])
              && (i in order ==> 0 <= after[i].remaining)
    decreases |order|
  {
    if order != [] && need > 0 {
      var i, tail := order[0], order[1..];
      var take := Min(layers[i].remaining, need);
      ConsumeFrame(layers[i := layers[i].(remaining := layers[i].remaining - take)], tail, line, need - take);
      assert forall j :: j in order <==> j == i || j in tail;
    }
  }
}
