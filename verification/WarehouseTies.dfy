/** What the lines of a WZ and the order of equally old layers can and cannot change: exactly when the totals a
    document asks for force what is taken, and what it costs. */
module WarehouseTies {
  import opened Prelude
  import opened Layers
  import opened Stock
  import opened Numbering
  import opened Warehouse
  import opened WarehouseLedger
  import opened WarehouseInvariants
  import opened WarehouseQueue
  import opened WarehouseVerdicts

  // ---- Keys of units ----

  function PriceOf(): Unit -> int {
    (u: Unit) => u.price
  }

  function LayerOf(): Unit -> int {
    (u: Unit) => u.layer
  }

  function Keys(f: Unit -> int, q: seq<Unit>): seq<int> {
    if q == [] then [] else Keys(f, q[..|q| - 1]) + [f(q[|q| - 1])]
  }

  lemma {:induction false} KeysAt(f: Unit -> int, q: seq<Unit>)
    ensures |Keys(f, q)| == |q| && forall p :: 0 <= p < |q| ==> Keys(f, q)[p] == f(q[p])
  {
    if q != [] {
      KeysAt(f, q[..|q| - 1]);
    }
  }

  /** Equally old layers of an item in stock have the same key. */
  ghost predicate TiesAgree(f: Unit -> int, layers: seq<Layer>, item: nat) {
    forall i: nat, j: nat :: Tied(layers, item, i, j) ==> f(Unit(i, layers[i].price)) == f(Unit(j, layers[j].price))
  }

  /** Two layers of the item in stock, equally old. */
  predicate Tied(layers: seq<Layer>, item: nat, i: nat, j: nat) {
    && i < |layers| && j < |layers| && InStock(layers[i], item) && InStock(layers[j], item)
    && SameAge(layers[i], layers[j])
  }

  lemma SameKeys(f: Unit -> int, layers: seq<Layer>, item: nat, q: seq<Unit>, r: seq<Unit>)
    requires TiesAgree(f, layers, item) && IsQueue(layers, item, q) && IsQueue(layers, item, r)
    ensures Keys(f, q) == Keys(f, r)
  {
    ReadingsDifferInTies(layers, item, q, r);
    KeysAt(f, q);
    KeysAt(f, r);
    forall p | 0 <= p < |q| ensures f(q[p]) == f(r[p]) {
      assert Tied(layers, item, q[p].layer, r[p].layer);
      assert q[p] == Unit(q[p].layer, layers[q[p].layer].price) && r[p] == Unit(r[p].layer, layers[r[p].layer].price);
    }
  }

  lemma TiesStillAgree(f: Unit -> int, a: seq<Layer>, b: seq<Layer>, item: nat)
    requires |a| == |b| && (forall i :: 0 <= i < |a| ==> Drawn(a[i], b[i])) && TiesAgree(f, a, item)
    ensures TiesAgree(f, b, item)
  {
    forall i: nat, j: nat | Tied(b, item, i, j) ensures f(Unit(i, b[i].price)) == f(Unit(j, b[j].price)) {
      assert Drawn(a[i], b[i]) && Drawn(a[j], b[j]);
      assert Tied(a, item, i, j);
    }
  }

  // ---- Whole WZ documents ----

  /** The first line of a WZ drops its quantity from its item's queue and leaves the other queues. */
  lemma FirstWzDequeues(g: Ledger, lines: seq<Line>, clock: Clock, query: FifoQuery, item: nat, q: seq<Unit>)
    returns (h: Ledger, mid: seq<Unit>, left: seq<Unit>)
    requires LedgerOk(g) && LinesReady(WZ, g, lines) && lines != [] && PostLines(WZ, g, lines, clock, query).Ok?
    requires IsQueue(g.layers, item, q)
    ensures LedgerOk(h) && LinesReady(WZ, h, lines[1..])
            && PostLines(WZ, g, lines, clock, query) == PostLines(WZ, h, lines[1..], clock, query)
    ensures |g.layers| == |h.layers| && forall i :: 0 <= i < |g.layers| ==> Drawn(g.layers[i], h.layers[i])
    ensures IsQueue(g.layers, item, mid) && 0 <= Asked(item)(lines[0]) <= |mid| && left == mid[Asked(item)(lines[0])..]
    ensures IsQueue(h.layers, item, left)
  {
    var line := lines[0];
    h := FirstLine(WZ, g, lines, clock, query);
    IssueKeepsRows(g, line, line.quantity, query);
    if item == line.item {
      mid := Queue(query, g.layers, item);
      IssueDequeues(g, line, line.quantity, query);
    } else {
      mid := q;
      IssueKeepsOthers(g, line, line.quantity, query, item);
      OtherQueuesStay(g.layers, h.layers, item);
    }
    left := mid[Asked(item)(line)..];
  }

  lemma FirstWzDrops(f: Unit -> int, g: Ledger, lines: seq<Line>, clock: Clock, query: FifoQuery, item: nat,
                     q: seq<Unit>)
    returns (h: Ledger, first: nat, rest: int, all: seq<Unit>)
    requires LedgerOk(g) && LinesReady(WZ, g, lines) && lines != [] && PostLines(WZ, g, lines, clock, query).Ok?
    requires TiesAgree(f, g.layers, item) && IsQueue(g.layers, item, q)
    ensures LedgerOk(h) && LinesReady(WZ, h, lines[1..])
            && PostLines(WZ, g, lines, clock, query) == PostLines(WZ, h, lines[1..], clock, query)
    ensures TiesAgree(f, h.layers, item)
    ensures first <= |all| && IsQueue(h.layers, item, all[first..]) && Keys(f, q) == Keys(f, all)
    ensures rest == Sum(Asked(item), lines[1..]) && Sum(Asked(item), lines) == first + rest
  {
    var left: seq<Unit>;
    h, all, left := FirstWzDequeues(g, lines, clock, query, item, q);
    first, rest := Asked(item)(lines[0]), Sum(Asked(item), lines[1..]);
    SumHead(Asked(item), lines);
    TiesStillAgree(f, g.layers, h.layers, item);
    SameKeys(f, g.layers, item, q, all);
  }

  /** `r` is `q` without its first `n` units, as far as the keys show. */
  predicate Drops(f: Unit -> int, q: seq<Unit>, r: seq<Unit>, n: int) {
    0 <= n <= |Keys(f, q)| && Keys(f, r) == Keys(f, q)[n..]
  }

  lemma DropsNothing(f: Unit -> int, layers: seq<Layer>, item: nat, q: seq<Unit>, r: seq<Unit>)
    requires TiesAgree(f, layers, item) && IsQueue(layers, item, q) && IsQueue(layers, item, r)
    ensures Drops(f, q, r, 0)
  {
    SameKeys(f, layers, item, q, r);
    KeysAt(f, q);
  }

  lemma DropTwice(f: Unit -> int, q: seq<Unit>, mid: seq<Unit>, left: seq<Unit>, r: seq<Unit>, a: int, b: int)
    requires Keys(f, q) == Keys(f, mid) && 0 <= a <= |mid| && left == mid[a..] && Drops(f, left, r, b)
    ensures Drops(f, q, r, a + b)
  {
    KeysAt(f, q);
    KeysAt(f, mid);
    KeysAt(f, left);
    assert Keys(f, left) == Keys(f, mid)[a..];
  }

  /** Posting the lines of a WZ drops the total asked for from each item's queue, as far as the keys show: any
      reading before and any reading after. Consuming a and then b is consuming a + b. */
  lemma {:induction false} WzLinesDequeue(f: Unit -> int, g: Ledger, lines: seq<Line>, clock: Clock, query: FifoQuery,
                                          h: Ledger,
                                          item: nat, q: seq<Unit>, r: seq<Unit>)
    requires LedgerOk(g) && LinesReady(WZ, g, lines) && PostLines(WZ, g, lines, clock, query) == Ok(h)
    requires TiesAgree(f, g.layers, item) && IsQueue(g.layers, item, q) && IsQueue(h.layers, item, r)
    ensures Drops(f, q, r, Sum(Asked(item), lines))
    decreases |lines|, 1
  {
    if lines == [] {
      DropsNothing(f, g.layers, item, q, r);
    } else {
      var first, rest, all := FirstThenOthers(f, g, lines, clock, query, h, item, q, r);
      DropTwice(f, q, all, all[first..], r, first, rest);
    }
  }

  lemma {:induction false} FirstThenOthers(f: Unit -> int, g: Ledger, lines: seq<Line>, clock: Clock, query: FifoQuery,
                                           h: Ledger,
                                           item: nat, q: seq<Unit>, r: seq<Unit>)
    returns (first: nat, rest: int, all: seq<Unit>)
    requires LedgerOk(g) && LinesReady(WZ, g, lines) && lines != [] && PostLines(WZ, g, lines, clock, query) == Ok(h)
    requires TiesAgree(f, g.layers, item) && IsQueue(g.layers, item, q) && IsQueue(h.layers, item, r)
    ensures first <= |all| && Keys(f, q) == Keys(f, all) && Drops(f, all[first..], r, rest)
    ensures Sum(Asked(item), lines) == first + rest
    decreases |lines|, 0
  {
    var mid: Ledger;
    mid, first, rest, all := FirstWzDrops(f, g, lines, clock, query, item, q);
    WzLinesDequeue(f, mid, lines[1..], clock, query, h, item, all[first..], r);
  }

  /** A WZ adds no layer, only draws layers down, and leaves the items it does not name alone. */
  lemma {:induction false} WzLinesDraw(g: Ledger, lines: seq<Line>, clock: Clock, query: FifoQuery)
    requires LedgerOk(g) && LinesReady(WZ, g, lines) && PostLines(WZ, g, lines, clock, query).Ok?
    ensures var h := PostLines(WZ, g, lines, clock, query).value;
            && LedgerOk(h) && |h.layers| == |g.layers|
            && (forall i :: 0 <= i < |g.layers| ==> Drawn(g.layers[i], h.layers[i]))
            && (forall i ::
                  0 <= i < |g.layers| && Sum(Asked(g.layers[i].item), lines) == 0 ==> h.layers[i] == g.layers[i])
    decreases |lines|
  {
    if lines != [] {
      var line := lines[0];
      var h := FirstLine(WZ, g, lines, clock, query);
      IssueKeepsRows(g, line, line.quantity, query);
      WzLinesDraw(h, lines[1..], clock, query);
      forall i | 0 <= i < |g.layers| && Sum(Asked(g.layers[i].item), lines) == 0
        ensures PostLines(WZ, g, lines, clock, query).value.layers[i] == g.layers[i]
      {
        NotAsked(lines, g.layers[i].item);
        IssueKeepsOthers(g, line, line.quantity, query, g.layers[i].item);
      }
    }
  }

  lemma NotAsked(lines: seq<Line>, item: nat)
    requires lines != [] && (forall i :: 0 <= i < |lines| ==> lines[i].quantity > 0) && Sum(Asked(item), lines) == 0
    ensures lines[0].item != item && Sum(Asked(item), lines[1..]) == 0
  {
    SumHead(Asked(item), lines);
    SumNonNegative(Asked(item), lines[1..]);
  }

  ghost predicate SameDemand(a: seq<Line>, b: seq<Line>) {
    forall item: nat :: Sum(Asked(item), a) == Sum(Asked(item), b)
  }

  /** Reordering the lines keeps the totals. */
  lemma ReorderedLinesAskTheSame(a: seq<Line>, b: seq<Line>)
    requires multiset(a) == multiset(b)
    ensures SameDemand(a, b)
  {
    forall item: nat ensures Sum(Asked(item), a) == Sum(Asked(item), b) {
      SumPermutation(Asked(item), a, b);
    }
  }

  /** The two documents, posted on the same ledger with whatever listings of ties. */
  ghost predicate BothPost(g: Ledger, a: seq<Line>, b: seq<Line>, clock: Clock, qa: FifoQuery, qb: FifoQuery) {
    && LinesReady(WZ, g, a) && LinesReady(WZ, g, b) && SameDemand(a, b)
    && PostLines(WZ, g, a, clock, qa).Ok? && PostLines(WZ, g, b, clock, qb).Ok?
  }

  /** The verdict depends on the totals alone. */
  lemma VerdictIsForced(g: Ledger, a: seq<Line>, b: seq<Line>, clock: Clock, qa: FifoQuery, qb: FifoQuery)
    requires LedgerOk(g) && LinesReady(WZ, g, a) && LinesReady(WZ, g, b) && SameDemand(a, b)
    ensures PostLines(WZ, g, a, clock, qa).Ok? <==> PostLines(WZ, g, b, clock, qb).Ok?
  {
    WzLinesVerdict(g, a, clock, qa);
    WzLinesVerdict(g, b, clock, qb);
    if PostLines(WZ, g, a, clock, qa).Ok? {
      forall item: nat ensures Sum(Asked(item), b) <= OnHand(g.layers, item) {
        assert Sum(Asked(item), a) <= OnHand(g.layers, item);
      }
    } else {
      var item: nat :| Sum(Asked(item), a) > OnHand(g.layers, item);
      assert Sum(Asked(item), b) > OnHand(g.layers, item);
    }
  }

  lemma SameKeysLeft(f: Unit -> int, g: Ledger, a: seq<Line>, b: seq<Line>, clock: Clock, qa: FifoQuery, qb: FifoQuery,
                     item: nat)
    requires LedgerOk(g) && BothPost(g, a, b, clock, qa, qb) && TiesAgree(f, g.layers, item)
    ensures Keys(f, Queue(qa, PostLines(WZ, g, a, clock, qa).value.layers, item))
            == Keys(f, Queue(qb, PostLines(WZ, g, b, clock, qb).value.layers, item))
  {
    var x, y := PostLines(WZ, g, a, clock, qa).value, PostLines(WZ, g, b, clock, qb).value;
    DatabaseReadsQueue(qa, g.layers, item);
    DatabaseReadsQueue(qa, x.layers, item);
    DatabaseReadsQueue(qb, y.layers, item);
    WzLinesDequeue(f, g, a, clock, qa, x, item, Queue(qa, g.layers, item), Queue(qa, x.layers, item));
    WzLinesDequeue(f, g, b, clock, qb, y, item, Queue(qa, g.layers, item), Queue(qb, y.layers, item));
  }

  // ---- The layers are forced ----

  /** A reading determines what remains in each layer of its item. */
  lemma ReadingDetermines(query: FifoQuery, layers: seq<Layer>, i: nat)
    requires i < |layers| && 0 <= layers[i].remaining
    ensures layers[i].remaining == multiset(Queue(query, layers, layers[i].item))[Unit(i, layers[i].price)]
  {
    var order := query(layers, layers[i].item);
    DatabaseReadsQueue(query, layers, layers[i].item);
    ListingHolds(layers, layers[i].item, order);
    UnitsOfRow(layers, order, i);
  }

  /** Units with the same layers, out of ledgers drawn from one, are the same units. */
  lemma SameReading(g: seq<Layer>, x: seq<Layer>, y: seq<Layer>, item: nat, q: seq<Unit>, r: seq<Unit>)
    requires |x| == |g| && |y| == |g|
    requires forall i :: 0 <= i < |g| ==> Drawn(g[i], x[i]) && Drawn(g[i], y[i])
    requires IsQueue(x, item, q) && IsQueue(y, item, r) && Keys(LayerOf(), q) == Keys(LayerOf(), r)
    ensures q == r
  {
    ReadingsDifferInTies(x, item, q, q);
    ReadingsDifferInTies(y, item, r, r);
    KeysAt(LayerOf(), q);
    KeysAt(LayerOf(), r);
    forall p | 0 <= p < |q| ensures q[p] == r[p] {
      assert Keys(LayerOf(), q)[p] == Keys(LayerOf(), r)[p];
      assert Drawn(g[q[p].layer], x[q[p].layer]) && Drawn(g[q[p].layer], y[q[p].layer]);
    }
  }

  /** If no two layers in stock of an asked item are equally old, two WZ documents with the same totals leave
      the same layers. */
  lemma LayersAreForced(g: Ledger, a: seq<Line>, b: seq<Line>, clock: Clock, qa: FifoQuery, qb: FifoQuery)
    requires LedgerOk(g) && BothPost(g, a, b, clock, qa, qb)
    requires forall item: nat :: Sum(Asked(item), a) != 0 ==> TiesAgree(LayerOf(), g.layers, item)
    ensures PostLines(WZ, g, a, clock, qa).value.layers == PostLines(WZ, g, b, clock, qb).value.layers
  {
    var x, y := PostLines(WZ, g, a, clock, qa).value, PostLines(WZ, g, b, clock, qb).value;
    WzLinesDraw(g, a, clock, qa);
    WzLinesDraw(g, b, clock, qb);
    forall i | 0 <= i < |g.layers| ensures x.layers[i] == y.layers[i] {
      var item := g.layers[i].item;
      assert Sum(Asked(item), a) == Sum(Asked(item), b);
      if Sum(Asked(item), a) != 0 {
        SameKeysLeft(LayerOf(), g, a, b, clock, qa, qb, item);
        DatabaseReadsQueue(qa, x.layers, item);
        DatabaseReadsQueue(qb, y.layers, item);
        SameReading(g.layers, x.layers, y.layers, item, Queue(qa, x.layers, item), Queue(qb, y.layers, item));
        ReadingDetermines(qa, x.layers, i);
        ReadingDetermines(qb, y.layers, i);
      }
    }
  }

  // ---- The cost is forced ----

  function ValueAt(item: nat): Layer -> int {
    (l: Layer) => if l.item == item then l.remaining * l.price else 0
  }

  lemma {:induction false} RepeatSum(f: Unit -> int, u: Unit, n: nat)
    ensures Sum(f, Repeat(u, n)) == n * f(u)
  {
    if n > 0 {
      RepeatSum(f, u, n - 1);
      assert Repeat(u, n) == Repeat(u, n - 1) + [u];
      SumAppend(f, Repeat(u, n - 1), u);
    }
  }

  /** The stock of an item is worth the prices of its units. */
  lemma {:induction false} QueueValue(layers: seq<Layer>, item: nat, order: seq<nat>)
    requires Sound(layers) && IsFifoOrder(layers, item, order)
    ensures Sum(PriceOf(), Units(layers, order)) == Sum(ValueAt(item), layers)
    decreases |order|
  {
    ListingHolds(layers, item, order);
    if order == [] {
      forall i | 0 <= i < |layers| ensures ValueAt(item)(layers[i]) == 0 {
        assert !InStock(layers[i], item);
      }
      SumZero(ValueAt(item), layers);
    } else {
      var i, tail := order[0], order[1..];
      var next := layers[i := layers[i].(remaining := 0)];
      assert forall j :: j in order <==> j == i || j in tail;
      UnitsFrame(layers, next, tail);
      QueueValue(next, item, tail);
      SumUpdate(ValueAt(item), layers, i, layers[i].(remaining := 0));
      RepeatSum(PriceOf(), Unit(i, layers[i].price), layers[i].remaining);
      SumConcat(PriceOf(), Repeat(Unit(i, layers[i].price), layers[i].remaining), Units(layers, tail));
    }
  }

  lemma {:induction false} SameKeysSameSum(f: Unit -> int, q: seq<Unit>, r: seq<Unit>)
    requires Keys(f, q) == Keys(f, r)
    ensures Sum(f, q) == Sum(f, r)
  {
    KeysAt(f, q);
    KeysAt(f, r);
    forall p | 0 <= p < |q| ensures f(q[p]) == f(r[p]) {
      assert Keys(f, q)[p] == Keys(f, r)[p];
    }
    SumCongruent(f, f, q, r);
  }

  function ValueOver(layers: seq<Layer>, items: seq<nat>): int {
    if items == [] then 0 else ValueOver(layers, items[..|items| - 1]) + Sum(ValueAt(items[|items| - 1]), layers)
  }

  ghost predicate Distinct(items: seq<nat>) {
    forall i, j :: 0 <= i < j < |items| ==> items[i] != items[j]
  }

  lemma {:induction false} ValueAppend(layers: seq<Layer>, l: Layer, items: seq<nat>)
    requires Distinct(items)
    ensures ValueOver(layers + [l], items)
            == ValueOver(layers, items) + if l.item in items then l.remaining * l.price else 0
  {
    if items != [] {
      var last := items[|items| - 1];
      ValueAppend(layers, l, items[..|items| - 1]);
      SumAppend(ValueAt(last), layers, l);
      assert items == items[..|items| - 1] + [last];
    }
  }

  lemma {:induction false} NoValue(items: seq<nat>)
    ensures ValueOver([], items) == 0
  {
    if items != [] {
      NoValue(items[..|items| - 1]);
    }
  }

  /** The stock valuation, item by item. */
  lemma {:induction false} ValueByItem(layers: seq<Layer>, items: seq<nat>)
    requires Distinct(items) && forall i :: 0 <= i < |layers| ==> layers[i].item in items
    ensures ValueOver(layers, items) == StockValue(layers)
  {
    if layers == [] {
      NoValue(items);
    } else {
      var init, last := layers[..|layers| - 1], layers[|layers| - 1];
      ValueByItem(init, items);
      ValueAppend(init, last, items);
      assert layers == init + [last];
      assert last.item in items;
    }
  }

  lemma {:induction false} ItemsOf(layers: seq<Layer>) returns (items: seq<nat>)
    ensures Distinct(items) && forall i :: 0 <= i < |layers| ==> layers[i].item in items
  {
    if layers == [] {
      items := [];
    } else {
      var last := layers[|layers| - 1].item;
      items := ItemsOf(layers[..|layers| - 1]);
      assert forall i :: 0 <= i < |layers| - 1 ==> layers[..|layers| - 1][i] == layers[i];
      if last !in items {
        items := items + [last];
      }
    }
  }

  lemma {:induction false} SameOver(x: seq<Layer>, y: seq<Layer>, items: seq<nat>)
    requires forall k :: 0 <= k < |items| ==> Sum(ValueAt(items[k]), x) == Sum(ValueAt(items[k]), y)
    ensures ValueOver(x, items) == ValueOver(y, items)
  {
    if items != [] {
      SameOver(x, y, items[..|items| - 1]);
    }
  }

  lemma SameStockValue(x: seq<Layer>, y: seq<Layer>)
    requires |x| == |y| && forall i :: 0 <= i < |x| ==> x[i].item == y[i].item
    requires forall item: nat :: Sum(ValueAt(item), x) == Sum(ValueAt(item), y)
    ensures StockValue(x) == StockValue(y)
  {
    var items := ItemsOf(x);
    ValueByItem(x, items);
    ValueByItem(y, items);
    SameOver(x, y, items);
  }

  lemma SameItemValue(g: Ledger, a: seq<Line>, b: seq<Line>, clock: Clock, qa: FifoQuery, qb: FifoQuery, item: nat)
    requires LedgerOk(g) && BothPost(g, a, b, clock, qa, qb)
    requires Sum(Asked(item), a) != 0 ==> TiesAgree(PriceOf(), g.layers, item)
    ensures Sum(ValueAt(item), PostLines(WZ, g, a, clock, qa).value.layers)
            == Sum(ValueAt(item), PostLines(WZ, g, b, clock, qb).value.layers)
  {
    var x, y := PostLines(WZ, g, a, clock, qa).value, PostLines(WZ, g, b, clock, qb).value;
    WzLinesDraw(g, a, clock, qa);
    WzLinesDraw(g, b, clock, qb);
    assert Sum(Asked(item), a) == Sum(Asked(item), b);
    if Sum(Asked(item), a) != 0 {
      SameKeysLeft(PriceOf(), g, a, b, clock, qa, qb, item);
      DatabaseReadsQueue(qa, x.layers, item);
      DatabaseReadsQueue(qb, y.layers, item);
      SameKeysSameSum(PriceOf(), Queue(qa, x.layers, item), Queue(qb, y.layers, item));
      QueueValue(x.layers, item, qa(x.layers, item));
      QueueValue(y.layers, item, qb(y.layers, item));
    } else {
      forall i | 0 <= i < |g.layers| ensures ValueAt(item)(x.layers[i]) == ValueAt(item)(y.layers[i]) {
        assert Drawn(g.layers[i], x.layers[i]) && Drawn(g.layers[i], y.layers[i]);
      }
      SumCongruent(ValueAt(item), ValueAt(item), x.layers, y.layers);
    }
  }

  /** If equally old layers in stock of an asked item have equal prices, two WZ documents with the same totals
      cost the same. */
  lemma CostIsForced(g: Ledger, a: seq<Line>, b: seq<Line>, clock: Clock, qa: FifoQuery, qb: FifoQuery)
    requires LedgerOk(g) && BothPost(g, a, b, clock, qa, qb)
    requires forall item: nat :: Sum(Asked(item), a) != 0 ==> TiesAgree(PriceOf(), g.layers, item)
    ensures Cost(PostLines(WZ, g, a, clock, qa).value.movements) == Cost(PostLines(WZ, g, b, clock, qb).value.movements)
  {
    var x, y := PostLines(WZ, g, a, clock, qa).value, PostLines(WZ, g, b, clock, qb).value;
    WzLinesDraw(g, a, clock, qa);
    WzLinesDraw(g, b, clock, qb);
    forall item: nat ensures Sum(ValueAt(item), x.layers) == Sum(ValueAt(item), y.layers) {
      SameItemValue(g, a, b, clock, qa, qb, item);
    }
    forall i | 0 <= i < |g.layers|
      ensures x.layers[i].item == y.layers[i].item && ReceivedValue()(x.layers[i]) == ReceivedValue()(y.layers[i])
    {
      assert Drawn(g.layers[i], x.layers[i]) && Drawn(g.layers[i], y.layers[i]);
    }
    SameStockValue(x.layers, y.layers);
    SumCongruent(ReceivedValue(), ReceivedValue(), x.layers, y.layers);
  }
}
