/** The stock of an item as a queue of single units, oldest first, and what receipts and issues do to it. */
module WarehouseQueue {
  import opened Prelude
  import opened Layers
  import opened Stock
  import opened Warehouse
  import opened WarehouseLedger

  // ---- Any database: the oldest units leave first ----

  /** Whatever order the database gave to ties, no unit taken is newer than a unit left behind. */
  lemma {:induction false} ConsumeOldest(layers: seq<Layer>, order: seq<nat>, item: nat, line: nat, need: int, k: nat,
                                         m: nat)
    requires CanIssue(layers, order, item, need)
    requires forall i, j :: 0 <= i < j < |order| ==> NotAfter(layers[order[i]], layers[order[j]])
    requires var (after, moves) := Consume(layers, order, line, need);
             k < |order| && m < |moves| && 0 < after[order[k]].remaining
    ensures var moves := Consume(layers, order, line, need).1;
            moves[m].layer < |layers| && NotAfter(layers[moves[m].layer], layers[order[k]])
    decreases |order|
  {
    if order != [] && need > 0 {
      var drawn, next, first := IssueTurn(layers, order, item, line, need);
      ConsumeFrame(next, order[1..], line, need - first.quantity);
      if m > 0 {
        ConsumeOldest(next, order[1..], item, line, need - first.quantity, k - 1, m - 1);
      }
    }
  }

  /** After any issue, every movement just written names a layer no newer than any layer of the item that
      still holds something: of an earlier day, or of the same day and no later a time. */
  lemma IssueTakesOldest(g: Ledger, line: Line, need: int, query: FifoQuery, m: nat, i: nat)
    requires LedgerOk(g) && 0 < need && Issue(g, line, need, query).Ok?
    requires var h := Issue(g, line, need, query).value;
             && |g.movements| <= m < |h.movements|
             && i < |h.layers| && InStock(h.layers[i], line.item)
    ensures var h := Issue(g, line, need, query).value;
            && h.movements[m].layer < |h.layers|
            && var (a, b) := (h.layers[h.movements[m].layer], h.layers[i]);
               a.day < b.day || (a.day == b.day && a.stamp <= b.stamp)
  {
    var order, moves := IssueParts(g, line, need, query);
    ConsumeFrame(g.layers, order, line.id, need);
    assert i in order;
    var k :| 0 <= k < |order| && order[k] == i;
    ConsumeOldest(g.layers, order, line.item, line.id, need, k, m - |g.movements|);
  }

  // ---- The queue ----

  /** The stock of an item read as a queue of its units, oldest first; equally old layers come in some order. */
  ghost predicate IsQueue(layers: seq<Layer>, item: nat, q: seq<Unit>) {
    exists order: seq<nat> :: IsFifoOrder(layers, item, order) && q == Units(layers, order)
  }

  /** The reading the database gives. */
  function Queue(query: FifoQuery, layers: seq<Layer>, item: nat): seq<Unit> {
    var order := query(layers, item);
    assert IsFifoOrder(layers, item, order);
    Units(layers, order)
  }

  lemma DatabaseReadsQueue(query: FifoQuery, layers: seq<Layer>, item: nat)
    ensures IsFifoOrder(layers, item, query(layers, item)) && IsQueue(layers, item, Queue(query, layers, item))
  {
    assert IsFifoOrder(layers, item, query(layers, item));
  }

  /** The rows of a listing that still hold something. */
  function Keep(layers: seq<Layer>, order: seq<nat>): (r: seq<nat>)
    requires RowIds(layers, order)
    ensures forall i :: i in r <==> i in order && layers[i].remaining > 0
    ensures RowIds(layers, r)
  {
    if order == [] then []
    else
      assert order == [order[0]] + order[1..];
      var rest := Keep(layers, order[1..]);
      if layers[order[0]].remaining > 0 then
        assert forall k :: 0 <= k < |rest| ==> rest[k] in rest;
        [order[0]] + rest
      else rest
  }

  ghost predicate Ordered(layers: seq<Layer>, order: seq<nat>)
    requires RowIds(layers, order)
  {
    forall j, k :: 0 <= j < k < |order| ==> NotAfter(layers[order[j]], layers[order[k]])
  }

  lemma FirstOfSome(layers: seq<Layer>, order: seq<nat>, some: seq<nat>)
    requires RowIds(layers, order) && Ordered(layers, order) && order != [] && RowIds(layers, some)
    requires forall i :: i in some ==> i in order[1..]
    ensures forall k :: 0 <= k < |some| ==> NotAfter(layers[order[0]], layers[some[k]])
  {
    forall k | 0 <= k < |some| ensures NotAfter(layers[order[0]], layers[some[k]]) {
      assert some[k] in some;
      var j :| 0 <= j < |order[1..]| && order[1..][j] == some[k];
      assert order[j + 1] == some[k];
    }
  }

  /** What is kept comes in the order it was listed in. */
  lemma {:induction false} KeepInOrder(layers: seq<Layer>, order: seq<nat>)
    requires RowIds(layers, order) && Ordered(layers, order)
    ensures Ordered(layers, Keep(layers, order))
  {
    if order != [] {
      KeepInOrder(layers, order[1..]);
      FirstOfSome(layers, order, Keep(layers, order[1..]));
    }
  }

  lemma {:induction false} KeepUnits(layers: seq<Layer>, order: seq<nat>)
    requires RowIds(layers, order)
    requires forall k :: 0 <= k < |order| ==> 0 <= layers[order[k]].remaining
    ensures Units(layers, Keep(layers, order)) == Units(layers, order)
  {
    if order != [] {
      KeepUnits(layers, order[1..]);
      var rest := Keep(layers, order[1..]);
      if layers[order[0]].remaining > 0 {
        assert ([order[0]] + rest)[1..] == rest;
      } else {
        assert Repeat(Unit(order[0], layers[order[0]].price), 0) == [];
      }
    }
  }

  /** After some layers were drawn down, the old listing without the empty ones is a listing again. */
  lemma KeepIsFifo(a: seq<Layer>, b: seq<Layer>, item: nat, order: seq<nat>)
    requires |a| == |b| && IsFifoOrder(a, item, order)
    requires forall i :: 0 <= i < |a| ==> Drawn(a[i], b[i]) && 0 <= b[i].remaining
    ensures RowIds(b, order) && IsFifoOrder(b, item, Keep(b, order)) && Units(b, Keep(b, order)) == Units(b, order)
  {
    assert RowIds(b, order);
    forall j, k | 0 <= j < k < |order| ensures NotAfter(b[order[j]], b[order[k]]) {
      assert NotAfter(a[order[j]], a[order[k]]) && Drawn(a[order[j]], b[order[j]]) && Drawn(a[order[k]], b[order[k]]);
    }
    KeepInOrder(b, order);
    KeepUnits(b, order);
    forall i | 0 <= i < |b| ensures i in Keep(b, order) <==> InStock(b[i], item) {
      assert Drawn(a[i], b[i]);
      if i in order {
        var k :| 0 <= k < |order| && order[k] == i;
        assert InStock(a[i], item);
      }
    }
  }

  lemma QueueStays(a: seq<Layer>, b: seq<Layer>, item: nat, order: seq<nat>)
    requires |a| <= |b| && IsFifoOrder(a, item, order)
    requires forall i :: 0 <= i < |a| && a[i].item == item ==> b[i] == a[i]
    requires forall i :: 0 <= i < |b| && b[i].item == item ==> i < |a| && a[i].item == item
    ensures IsFifoOrder(b, item, order) && Units(a, order) == Units(b, order)
  {
    forall k | 0 <= k < |order| ensures b[order[k]] == a[order[k]] {
      assert order[k] in order && InStock(a[order[k]], item);
    }
    forall i | 0 <= i < |b| ensures i in order <==> InStock(b[i], item) {
      if i in order {
        var k :| 0 <= k < |order| && order[k] == i;
      }
    }
    UnitsFrame(a, b, order);
  }

  /** The layers of an item are the same rows with the same contents. */
  ghost predicate SameStock(a: seq<Layer>, b: seq<Layer>, item: nat) {
    && |a| <= |b|
    && (forall i :: 0 <= i < |a| ==> (a[i].item == item <==> b[i].item == item))
    && (forall i :: 0 <= i < |a| && a[i].item == item ==> b[i] == a[i])
    && (forall i :: |a| <= i < |b| ==> b[i].item != item)
  }

  /** An item nobody touched has the same queues before and after. */
  lemma OtherQueuesStay(a: seq<Layer>, b: seq<Layer>, item: nat)
    requires SameStock(a, b, item)
    ensures forall q :: IsQueue(a, item, q) <==> IsQueue(b, item, q)
  {
    forall q | IsQueue(a, item, q) ensures IsQueue(b, item, q) {
      var order :| IsFifoOrder(a, item, order) && q == Units(a, order);
      QueueStays(a, b, item, order);
    }
    forall q | IsQueue(b, item, q) ensures IsQueue(a, item, q) {
      var order :| IsFifoOrder(b, item, order) && q == Units(b, order);
      QueueWas(a, b, item, order);
    }
  }

  lemma QueueWas(a: seq<Layer>, b: seq<Layer>, item: nat, order: seq<nat>)
    requires SameStock(a, b, item) && IsFifoOrder(b, item, order)
    ensures IsFifoOrder(a, item, order) && Units(a, order) == Units(b, order)
  {
    forall k | 0 <= k < |order| ensures order[k] < |a| && b[order[k]] == a[order[k]] {
      assert order[k] in order && InStock(b[order[k]], item);
    }
    forall i | 0 <= i < |a| ensures i in order <==> InStock(a[i], item) {
      if i in order {
        var k :| 0 <= k < |order| && order[k] == i;
      }
    }
    UnitsFrame(a, b, order);
  }

  // ---- Issues ----

  /** Whatever order the database gave to ties, an issue drops exactly the first `need` units of the queue it
      listed, the movements decode to them, and what is left is a queue of the new layers. */
  lemma IssueDequeues(g: Ledger, line: Line, need: int, query: FifoQuery)
    requires LedgerOk(g) && 0 < need && Issue(g, line, need, query).Ok?
    ensures var h := Issue(g, line, need, query).value;
            var q := Queue(query, g.layers, line.item);
            && IsQueue(g.layers, line.item, q) && need <= |q|
            && IsQueue(h.layers, line.item, q[need..])
            && g.movements <= h.movements && Decode(h.movements[|g.movements|..]) == q[..need]
  {
    var h := Issue(g, line, need, query).value;
    var order, moves := IssueParts(g, line, need, query);
    DatabaseReadsQueue(query, g.layers, line.item);
    ConsumeFrame(g.layers, order, line.id, need);
    ConsumeIsDequeue(g.layers, order, line.id, need);
    assert h.movements[|g.movements|..] == moves;
    forall i | 0 <= i < |g.layers| ensures 0 <= h.layers[i].remaining {
      assert 0 <= g.layers[i].remaining;
    }
    KeepIsFifo(g.layers, h.layers, line.item, order);
  }

  /** No other item is touched. */
  lemma IssueKeepsOthers(g: Ledger, line: Line, need: int, query: FifoQuery, item: nat)
    requires LedgerOk(g) && 0 < need && Issue(g, line, need, query).Ok? && item != line.item
    ensures SameStock(g.layers, Issue(g, line, need, query).value.layers, item)
  {
    var h := Issue(g, line, need, query).value;
    var order, moves := IssueParts(g, line, need, query);
    ConsumeFrame(g.layers, order, line.id, need);
    forall i | 0 <= i < |g.layers|
      ensures Drawn(g.layers[i], h.layers[i]) && (g.layers[i].item == item ==> h.layers[i] == g.layers[i])
    {
      if i in order {
        var k :| 0 <= k < |order| && order[k] == i;
        assert g.layers[order[k]].item == line.item;
      }
    }
  }

  // ---- Receipts ----

  /** No layer is newer than the clock. */
  ghost predicate NotNewer(layers: seq<Layer>, clock: Clock) {
    forall i :: 0 <= i < |layers| ==>
      layers[i].day < clock.day || (layers[i].day == clock.day && layers[i].stamp <= clock.stamp)
  }

  ghost predicate AreRows(layers: seq<Layer>, order: seq<nat>) {
    forall k :: 0 <= k < |order| ==> order[k] < |layers|
  }

  lemma HeadOfConcat(a: seq<nat>, b: seq<nat>)
    requires a != []
    ensures (a + b)[0] == a[0] && (a + b)[1..] == a[1..] + b
  {
  }

  lemma Associative(a: seq<Unit>, b: seq<Unit>, c: seq<Unit>)
    ensures a + (b + c) == (a + b) + c
  {
  }

  lemma UnitsHead(layers: seq<Layer>, order: seq<nat>, head: nat, tail: seq<nat>)
    requires order != [] && AreRows(layers, order) && order[0] == head && order[1..] == tail
    ensures head < |layers| && AreRows(layers, tail)
    ensures Units(layers, order) == Repeat(Unit(head, layers[head].price), layers[head].remaining) + Units(layers, tail)
  {
  }

  lemma {:induction false} UnitsConcat(layers: seq<Layer>, a: seq<nat>, b: seq<nat>)
    requires AreRows(layers, a) && AreRows(layers, b)
    ensures AreRows(layers, a + b) && Units(layers, a + b) == Units(layers, a) + Units(layers, b)
  {
    if a == [] {
      assert a + b == b;
    } else {
      UnitsConcat(layers, a[1..], b);
      HeadOfConcat(a, b);
      UnitsHead(layers, a + b, a[0], a[1..] + b);
      UnitsHead(layers, a, a[0], a[1..]);
      Associative(Repeat(Unit(a[0], layers[a[0]].price), layers[a[0]].remaining), Units(layers, a[1..]),
                  Units(layers, b));
    }
  }

  /** Any listing with the new row at its end is a listing of the new layers. */
  lemma ListingWithNewRow(layers: seq<Layer>, row: Layer, order: seq<nat>)
    requires IsFifoOrder(layers, row.item, order) && row.remaining > 0
    requires forall i :: 0 <= i < |layers| ==> NotAfter(layers[i], row)
    ensures IsFifoOrder(layers + [row], row.item, order + [|layers|])
  {
    var (now, rows) := (layers + [row], order + [|layers|]);
    forall i | 0 <= i < |now| ensures i in rows <==> InStock(now[i], row.item) {
      assert i in rows <==> i in order || i == |layers|;
      assert |layers| !in order;
    }
  }

  /** With a clock that does not go back, a receipt's units join the back of every queue of its item. */
  lemma ReceiveEnqueues(g: Ledger, line: Line, price: int, clock: Clock, q: seq<Unit>)
    requires line.quantity > 0 && NotNewer(g.layers, clock) && IsQueue(g.layers, line.item, q)
    ensures IsQueue(Receive(g, line, price, clock).layers, line.item,
                    q + Repeat(Unit(|g.layers|, price), line.quantity))
  {
    var h, n := Receive(g, line, price, clock), |g.layers|;
    var order :| IsFifoOrder(g.layers, line.item, order) && q == Units(g.layers, order);
    ListingWithNewRow(g.layers, h.layers[n], order);
    UnitsFrame(g.layers, h.layers, order);
    UnitsConcat(h.layers, order, [n]);
    UnitsHead(h.layers, [n], n, []);
    assert IsFifoOrder(h.layers, line.item, order + [n]);
  }

  // ---- Readings differ only among equally old units ----

  /** How many units of row `i` a listing expands into. */
  lemma {:induction false} UnitsOfRow(layers: seq<Layer>, order: seq<nat>, i: nat)
    requires RowIds(layers, order) && Holding(layers, order) && i < |layers|
    ensures multiset(Units(layers, order))[Unit(i, layers[i].price)] == if i in order then layers[i].remaining else 0
  {
    if order != [] {
      UnitsOfRow(layers, order[1..], i);
      RepeatCount(Unit(order[0], layers[order[0]].price), layers[order[0]].remaining, Unit(i, layers[i].price));
      assert i in order <==> i == order[0] || i in order[1..];
    }
  }

  lemma {:induction false} RepeatCount(u: Unit, n: nat, v: Unit)
    ensures multiset(Repeat(u, n))[v] == if u == v then n else 0
    decreases n
  {
    if n > 0 {
      RepeatCount(u, n - 1, v);
      assert Repeat(u, n) == Repeat(u, n - 1) + [u];
    }
  }

  lemma {:induction false} UnitsAreTheirs(layers: seq<Layer>, order: seq<nat>, u: nat)
    requires RowIds(layers, order) && u < |Units(layers, order)|
    ensures var unit := Units(layers, order)[u];
            unit.layer in order && unit.layer < |layers| && unit.price == layers[unit.layer].price
  {
    if order != [] {
      var head := Repeat(Unit(order[0], layers[order[0]].price), layers[order[0]].remaining);
      if u >= |head| {
        UnitsAreTheirs(layers, order[1..], u - |head|);
      }
    }
  }

  lemma ListingHolds(layers: seq<Layer>, item: nat, order: seq<nat>)
    requires IsFifoOrder(layers, item, order)
    ensures Holding(layers, order) && forall k :: 0 <= k < |order| ==> layers[order[k]].item == item
  {
    forall k | 0 <= k < |order| ensures InStock(layers[order[k]], item) {
      assert order[k] in order;
    }
  }

  /** Two readings hold the same units. */
  lemma SameUnits(layers: seq<Layer>, item: nat, a: seq<nat>, b: seq<nat>)
    requires IsFifoOrder(layers, item, a) && IsFifoOrder(layers, item, b)
    ensures multiset(Units(layers, a)) == multiset(Units(layers, b))
  {
    ListingHolds(layers, item, a);
    ListingHolds(layers, item, b);
    forall u: Unit ensures multiset(Units(layers, a))[u] == multiset(Units(layers, b))[u] {
      if u.layer < |layers| && u.price == layers[u.layer].price {
        UnitsOfRow(layers, a, u.layer);
        UnitsOfRow(layers, b, u.layer);
        assert u.layer in a <==> u.layer in b;
      } else {
        NotAUnit(layers, a, u);
        NotAUnit(layers, b, u);
      }
    }
  }

  lemma NotAUnit(layers: seq<Layer>, order: seq<nat>, u: Unit)
    requires RowIds(layers, order) && !(u.layer < |layers| && u.price == layers[u.layer].price)
    ensures multiset(Units(layers, order))[u] == 0
  {
    if u in Units(layers, order) {
      var p :| 0 <= p < |Units(layers, order)| && Units(layers, order)[p] == u;
      UnitsAreTheirs(layers, order, p);
    }
  }

  predicate SameAge(a: Layer, b: Layer) {
    a.day == b.day && a.stamp == b.stamp
  }

  ghost predicate InRange(layers: seq<Layer>, q: seq<Unit>) {
    forall p :: 0 <= p < |q| ==> q[p].layer < |layers|
  }

  ghost predicate OldestFirst(layers: seq<Layer>, q: seq<Unit>)
    requires InRange(layers, q)
  {
    forall p, r :: 0 <= p < r < |q| ==> NotAfter(layers[q[p].layer], layers[q[r].layer])
  }

  /** One for a unit no newer than `limit`. */
  function OldAs(layers: seq<Layer>, limit: Layer): Unit -> int {
    (u: Unit) => if u.layer < |layers| && NotAfter(layers[u.layer], limit) then 1 else 0
  }

  lemma {:induction false} OldOnesCounted(layers: seq<Layer>, q: seq<Unit>, limit: Layer)
    ensures 0 <= Sum(OldAs(layers, limit), q) <= |q|
  {
    if q != [] {
      OldOnesCounted(layers, q[..|q| - 1], limit);
    }
  }

  /** Of units sorted by age those at most as old as a limit come first. */
  lemma {:induction false} OldOnesFirst(layers: seq<Layer>, q: seq<Unit>, limit: Layer, p: nat)
    requires InRange(layers, q) && OldestFirst(layers, q) && p < |q|
    ensures NotAfter(layers[q[p].layer], limit) <==> p < Sum(OldAs(layers, limit), q)
  {
    var n := |q| - 1;
    OldOnesCounted(layers, q[..n], limit);
    if n > 0 {
      OldOnesFirst(layers, q[..n], limit, if p < n then p else n - 1);
      OldOnesFirst(layers, q[..n], limit, n - 1);
    }
  }

  lemma {:induction false} UnitsOldestFirst(layers: seq<Layer>, order: seq<nat>)
    requires RowIds(layers, order)
    requires forall j, k :: 0 <= j < k < |order| ==> NotAfter(layers[order[j]], layers[order[k]])
    ensures InRange(layers, Units(layers, order)) && OldestFirst(layers, Units(layers, order))
  {
    if order != [] {
      UnitsOldestFirst(layers, order[1..]);
      var rest := Units(layers, order[1..]);
      forall p | 0 <= p < |rest| ensures NotAfter(layers[order[0]], layers[rest[p].layer]) {
        UnitsAreTheirs(layers, order[1..], p);
        var k :| 0 <= k < |order[1..]| && order[1..][k] == rest[p].layer;
        assert order[k + 1] == rest[p].layer;
      }
    }
  }

  /** Two readings of one item's stock are equally long, hold the same units of the item, and have equally old
      units at each place: only ties are listed differently. */
  lemma ReadingsDifferInTies(layers: seq<Layer>, item: nat, q: seq<Unit>, r: seq<Unit>)
    requires IsQueue(layers, item, q) && IsQueue(layers, item, r)
    ensures |q| == |r| && multiset(q) == multiset(r) && InRange(layers, q) && InRange(layers, r)
    ensures forall p :: 0 <= p < |q| ==>
              && SameAge(layers[q[p].layer], layers[r[p].layer])
              && InStock(layers[q[p].layer], item) && InStock(layers[r[p].layer], item)
              && q[p].price == layers[q[p].layer].price && r[p].price == layers[r[p].layer].price
  {
    var a :| IsFifoOrder(layers, item, a) && q == Units(layers, a);
    var b :| IsFifoOrder(layers, item, b) && r == Units(layers, b);
    SameUnits(layers, item, a, b);
    UnitsOldestFirst(layers, a);
    UnitsOldestFirst(layers, b);
    SameLength(q, r);
    forall p | 0 <= p < |q|
      ensures SameAge(layers[q[p].layer], layers[r[p].layer])
      ensures InStock(layers[q[p].layer], item) && q[p].price == layers[q[p].layer].price
      ensures InStock(layers[r[p].layer], item) && r[p].price == layers[r[p].layer].price
    {
      UnitsAreTheirs(layers, a, p);
      UnitsAreTheirs(layers, b, p);
      NoOlder(layers, q, r, p);
      NoOlder(layers, r, q, p);
    }
  }

  lemma SameLength(q: seq<Unit>, r: seq<Unit>)
    requires multiset(q) == multiset(r)
    ensures |q| == |r|
  {
    assert |multiset(q)| == |q| && |multiset(r)| == |r|;
  }

  lemma NoOlder(layers: seq<Layer>, q: seq<Unit>, r: seq<Unit>, p: nat)
    requires InRange(layers, q) && InRange(layers, r) && OldestFirst(layers, q) && OldestFirst(layers, r)
    requires multiset(q) == multiset(r) && p < |q| == |r|
    ensures NotAfter(layers[r[p].layer], layers[q[p].layer])
  {
    var limit := layers[q[p].layer];
    OldOnesFirst(layers, q, limit, p);
    OldOnesFirst(layers, r, limit, p);
    SumPermutation(OldAs(layers, limit), q, r);
  }
}
