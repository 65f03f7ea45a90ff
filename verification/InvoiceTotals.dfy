/** Invoice lines and totals: the builder, the sum checks and the aggregates per VAT rate. Amounts are whole
    cents. Raw quantities, prices and rates are integers over one scale, any positive one: a list of decimals
    has a common power of ten. */
module InvoiceTotals {
  import opened Prelude
  import opened Rounding
  import Decimals

  datatype RawItem = RawItem(name: string, quantity: int, unit: Option<string>, price: int, rate: int)

  /** `price` and `rate` (percent) are over the scale; `quantity` is whole. `vatPln` is the VAT in PLN, which a
      line of a foreign-currency invoice may carry. */
  datatype Item = Item(name: string, quantity: nat, unit: string, price: nat, rate: nat, net: int, vat: int, gross: int,
                       sortOrder: nat, vatPln: Option<int>)

  datatype Problem = BlankName | NotPositive | NotWhole | NegativePrice | RateOutOfRange

  /** The first bad line, counted from one. */
  datatype BadLine = BadLine(line: nat, problem: Problem)

  // ---- Building lines ----

  function ProblemOf(scale: int, raw: RawItem): Option<Problem>
    requires scale > 0
  {
    if Decimals.Strip(raw.name) == "" then Some(BlankName)
    else if raw.quantity <= 0 then Some(NotPositive)
    else if raw.quantity % scale != 0 then Some(NotWhole)
    else if raw.price < 0 then Some(NegativePrice)
    else if raw.rate < 0 || raw.rate > 100 * scale then Some(RateOutOfRange)
    else None
  }

  /** The first problem of a line: a blank name, a quantity that is not positive or not whole, a negative price, a rate
      below 0 or above 100 percent. */
  lemma ProblemIs(scale: int, raw: RawItem)
    requires scale > 0
    ensures var blank := |Decimals.Strip(raw.name)| == 0; var whole := raw.quantity == scale * (raw.quantity / scale);
            var r := ProblemOf(scale, raw);
            && (blank ==> r == Some(BlankName))
            && (!blank && raw.quantity < 1 ==> r == Some(NotPositive))
            && (!blank && raw.quantity >= 1 && !whole ==> r == Some(NotWhole))
            && (!blank && raw.quantity >= 1 && whole && raw.price < 0 ==> r == Some(NegativePrice))
            && (!blank && raw.quantity >= 1 && whole && raw.price >= 0 && !(0 <= raw.rate <= 100 * scale) ==>
                  r == Some(RateOutOfRange))
            && (!blank && raw.quantity >= 1 && whole && raw.price >= 0 && 0 <= raw.rate <= 100 * scale ==> r == None)
  {
    DivisionBounds(raw.quantity, scale);
  }

  function BuildItem(scale: int, raw: RawItem, order: nat): Item
    requires scale > 0 && ProblemOf(scale, raw).None?
  {
    var quantity := raw.quantity / scale;
    var net := HalfUp(100 * quantity * raw.price, scale);
    var vat := HalfUp(net * raw.rate, 100 * scale);
    Item(Decimals.Strip(raw.name), quantity, if raw.unit.Some? then raw.unit.value else "szt.",
         raw.price, raw.rate, net, vat, net + vat, order, None)
  }

  function BuildItems(scale: int, raws: seq<RawItem>): Result<seq<Item>, BadLine>
    requires scale > 0
  {
    if raws == [] then Ok([])
    else
      var init, raw := BuildItems(scale, raws[..|raws| - 1]), raws[|raws| - 1];
      if init.Err? then init
      else if ProblemOf(scale, raw).Some? then Err(BadLine(|raws|, ProblemOf(scale, raw).value))
      else Ok(init.value + [BuildItem(scale, raw, |raws|)])
  }

  ghost predicate Good(scale: int, raws: seq<RawItem>)
    requires scale > 0
  {
    forall k :: 0 <= k < |raws| ==> ProblemOf(scale, raws[k]).None?
  }

  /** What the builder answers: the lines in order and numbered from one, or the first bad line with its first
      problem. */
  ghost predicate Answers(scale: int, raws: seq<RawItem>, r: Result<seq<Item>, BadLine>)
    requires scale > 0
  {
    match r
    case Ok(items) =>
      && |items| == |raws|
      && forall k :: 0 <= k < |raws| ==> ProblemOf(scale, raws[k]).None? && items[k] == BuildItem(scale, raws[k], k + 1)
    case Err(e) =>
      && 1 <= e.line <= |raws| && ProblemOf(scale, raws[e.line - 1]) == Some(e.problem)
      && Good(scale, raws[..e.line - 1])
  }

  lemma OneMoreItem(scale: int, raws: seq<RawItem>, items: seq<Item>, raw: RawItem)
    requires scale > 0 && Answers(scale, raws, Ok(items)) && ProblemOf(scale, raw).None?
    ensures Answers(scale, raws + [raw], Ok(items + [BuildItem(scale, raw, |raws| + 1)]))
  {
  }

  lemma FirstBadItem(scale: int, raws: seq<RawItem>, items: seq<Item>, raw: RawItem)
    requires scale > 0 && Answers(scale, raws, Ok(items)) && ProblemOf(scale, raw).Some?
    ensures Answers(scale, raws + [raw], Err(BadLine(|raws| + 1, ProblemOf(scale, raw).value)))
  {
    assert (raws + [raw])[..|raws|] == raws;
  }

  lemma BadItemStays(scale: int, raws: seq<RawItem>, e: BadLine, raw: RawItem)
    requires scale > 0 && Answers(scale, raws, Err(e))
    ensures Answers(scale, raws + [raw], Err(e))
  {
    assert (raws + [raw])[..e.line - 1] == raws[..e.line - 1];
  }

  /** The builder accepts exactly the lists without a bad line. */
  lemma {:induction false} BuildItemsVerdict(scale: int, raws: seq<RawItem>)
    requires scale > 0
    ensures Answers(scale, raws, BuildItems(scale, raws))
  {
    if raws != [] {
      var init, raw := raws[..|raws| - 1], raws[|raws| - 1];
      BuildItemsVerdict(scale, init);
      assert init + [raw] == raws;
      match BuildItems(scale, init) {
        case Err(e) => BadItemStays(scale, init, e, raw);
        case Ok(items) =>
          if ProblemOf(scale, raw).Some? {
            FirstBadItem(scale, init, items, raw);
          } else {
            OneMoreItem(scale, init, items, raw);
          }
      }
    }
  }

  lemma AcceptedExactlyWhenGood(scale: int, raws: seq<RawItem>)
    requires scale > 0
    ensures BuildItems(scale, raws).Ok? <==> Good(scale, raws)
  {
    BuildItemsVerdict(scale, raws);
    if BuildItems(scale, raws).Err? {
      assert ProblemOf(scale, raws[BuildItems(scale, raws).error.line - 1]).Some?;
    }
  }

  /** A built line is worth its exact quantity times price, and its VAT its rate of that, both to the nearest
      cent and up on a tie. */
  lemma LineIsNearest(scale: int, raw: RawItem, order: nat)
    requires scale > 0 && ProblemOf(scale, raw).None?
    ensures var item := BuildItem(scale, raw, order);
            && scale * item.quantity == raw.quantity && item.price == raw.price && item.rate == raw.rate
            && item.unit == (match raw.unit case None => "szt." case Some(u) => u)
            && item.name == Decimals.Strip(raw.name) && item.sortOrder == order && item.vatPln == None
            && item.gross == item.net + item.vat
            && 0 <= item.net == HalfUp(100 * item.quantity * item.price, scale)
            && Nearest(100 * item.quantity * item.price, scale, item.net)
            && 0 <= item.vat == HalfUp(item.net * item.rate, 100 * scale)
            && Nearest(item.net * item.rate, 100 * scale, item.vat)
            && Decimals.Trimmed(item.name) && item.name != ""
  {
    Decimals.StripTrims(raw.name);
    DivisionBounds(raw.quantity, scale);
    var net := RoundedUp(100 * (raw.quantity / scale) * raw.price, scale);
    var vat := RoundedUp(net * raw.rate, 100 * scale);
  }

  lemma RoundedUp(n: int, d: int) returns (r: nat)
    requires n >= 0 && d > 0
    ensures r == HalfUp(n, d) && Nearest(n, d, r)
  {
    RoundingsCompared(n, d);
    r := HalfUp(n, d);
  }

  // ---- Totals ----

  function NetOf(): Item -> int {
    (i: Item) => i.net
  }

  function VatOf(): Item -> int {
    (i: Item) => i.vat
  }

  function GrossOf(): Item -> int {
    (i: Item) => i.gross
  }

  /** The header amounts. Sums of whole cents need no rounding. */
  datatype Totals = Totals(net: int, vat: int, gross: int)

  function TotalsOf(items: seq<Item>): Totals {
    Totals(Sum(NetOf(), items), Sum(VatOf(), items), Sum(GrossOf(), items))
  }

  predicate Consistent(items: seq<Item>) {
    forall k :: 0 <= k < |items| ==> items[k].gross == items[k].net + items[k].vat
  }

  lemma {:induction false} TotalsAdd(items: seq<Item>)
    requires Consistent(items)
    ensures TotalsOf(items).gross == TotalsOf(items).net + TotalsOf(items).vat
  {
    if items != [] {
      TotalsAdd(items[..|items| - 1]);
    }
  }

  // ---- Sum checks ----

  function Gap(a: int, b: int): nat {
    if a < b then b - a else a - b
  }

  function Tolerance(items: seq<Item>): nat {
    if |items| == 0 then 1 else |items|
  }

  /** The sum checks of `validate_sale_formal_requirements`. */
  predicate FormalSums(items: seq<Item>, t: Totals) {
    && Gap(Sum(NetOf(), items), t.net) <= Tolerance(items)
    && Gap(Sum(VatOf(), items), t.vat) <= Tolerance(items)
    && Gap(Sum(GrossOf(), items), t.gross) <= Tolerance(items)
    && Gap(t.net + t.vat, t.gross) <= 1
  }

  /** The sum checks of `validate_vat`. */
  predicate VatSums(items: seq<Item>, t: Totals) {
    Gap(t.net + t.vat, t.gross) <= 1 && (items != [] ==> Gap(Sum(VatOf(), items), t.vat) <= Tolerance(items))
  }

  /** The validators allow a cent for each line between the sum of the lines and the header, at least one, and one cent
      between net and VAT together and gross. */
  lemma SumChecksAre(items: seq<Item>, t: Totals)
    ensures var cents: int := if |items| < 1 then 1 else |items|;
            var net, vat, gross := Sum(NetOf(), items), Sum(VatOf(), items), Sum(GrossOf(), items);
            && (FormalSums(items, t) <==>
                  && -cents <= net - t.net <= cents && -cents <= vat - t.vat <= cents
                  && -cents <= gross - t.gross <= cents && -1 <= t.gross - t.net - t.vat <= 1)
            && (VatSums(items, t) <==>
                  && -1 <= t.gross - t.net - t.vat <= 1 && (|items| > 0 ==> -cents <= vat - t.vat <= cents))
  {
  }

  /** An invoice built from any accepted lines adds up exactly and passes every sum check. */
  lemma BuiltInvoicesAddUp(scale: int, raws: seq<RawItem>)
    requires scale > 0 && BuildItems(scale, raws).Ok?
    ensures var items := BuildItems(scale, raws).value; var t := TotalsOf(items);
            && t.gross == t.net + t.vat && 0 <= t.net && 0 <= t.vat
            && FormalSums(items, t) && VatSums(items, t)
  {
    var items := BuildItems(scale, raws).value;
    BuildItemsVerdict(scale, raws);
    forall k | 0 <= k < |items|
      ensures items[k].gross == items[k].net + items[k].vat && 0 <= NetOf()(items[k]) && 0 <= VatOf()(items[k])
    {
      LineIsNearest(scale, raws[k], k + 1);
    }
    TotalsAdd(items);
    SumNonNegative(NetOf(), items);
    SumNonNegative(VatOf(), items);
  }

  // ---- Aggregates per rate ----

  function NetAt(rate: nat): Item -> int {
    (i: Item) => if i.rate == rate then i.net else 0
  }

  function VatAt(rate: nat): Item -> int {
    (i: Item) => if i.rate == rate then i.vat else 0
  }

  function PlnAt(rate: nat): Item -> int {
    (i: Item) => if i.rate == rate && i.vatPln.Some? then i.vatPln.value else 0
  }

  /** Some line at the rate carries its VAT in PLN. */
  predicate HasPln(items: seq<Item>, rate: nat) {
    exists k :: 0 <= k < |items| && items[k].rate == rate && items[k].vatPln.Some?
  }

  function LinesAt(rate: nat): Item -> int {
    (i: Item) => if i.rate == rate then 1 else 0
  }

  predicate HasRate(items: seq<Item>, rate: nat) {
    exists k :: 0 <= k < |items| && items[k].rate == rate
  }

  function NetOver(items: seq<Item>, rates: seq<nat>): int {
    if rates == [] then 0 else NetOver(items, rates[..|rates| - 1]) + Sum(NetAt(rates[|rates| - 1]), items)
  }

  function VatOver(items: seq<Item>, rates: seq<nat>): int {
    if rates == [] then 0 else VatOver(items, rates[..|rates| - 1]) + Sum(VatAt(rates[|rates| - 1]), items)
  }

  lemma {:induction false} OverAppend(items: seq<Item>, item: Item, rates: seq<nat>)
    requires forall i, j :: 0 <= i < j < |rates| ==> rates[i] != rates[j]
    ensures NetOver(items + [item], rates) == NetOver(items, rates) + if item.rate in rates then item.net else 0
    ensures VatOver(items + [item], rates) == VatOver(items, rates) + if item.rate in rates then item.vat else 0
  {
    if rates != [] {
      var last := rates[|rates| - 1];
      OverAppend(items, item, rates[..|rates| - 1]);
      SumAppend(NetAt(last), items, item);
      SumAppend(VatAt(last), items, item);
      assert rates == rates[..|rates| - 1] + [last];
    }
  }

  lemma {:induction false} NothingOver(rates: seq<nat>)
    ensures NetOver([], rates) == 0 && VatOver([], rates) == 0
  {
    if rates != [] {
      NothingOver(rates[..|rates| - 1]);
    }
  }

  /** Listing every rate of the lines once, the aggregates partition the totals: no line is lost or counted
      twice. */
  lemma {:induction false} AggregatesPartition(items: seq<Item>, rates: seq<nat>)
    requires forall i, j :: 0 <= i < j < |rates| ==> rates[i] != rates[j]
    requires forall k :: 0 <= k < |items| ==> items[k].rate in rates
    ensures NetOver(items, rates) == TotalsOf(items).net && VatOver(items, rates) == TotalsOf(items).vat
  {
    if items == [] {
      NothingOver(rates);
    } else {
      var init, last := items[..|items| - 1], items[|items| - 1];
      AggregatesPartition(init, rates);
      OverAppend(init, last, rates);
      assert items == init + [last];
      assert last.rate in rates;
    }
  }

  /** The VAT of a rate is within half a cent per line of the rate taken of its aggregated net. */
  lemma {:induction false} RateVatIsClose(scale: int, items: seq<Item>, rate: nat)
    requires scale > 0
    requires forall k :: 0 <= k < |items| ==> Nearest(items[k].net * items[k].rate, 100 * scale, items[k].vat)
    ensures 2 * Gap(100 * scale * Sum(VatAt(rate), items), rate * Sum(NetAt(rate), items))
            <= Sum(LinesAt(rate), items) * (100 * scale)
  {
    if items != [] {
      var init, last := items[..|items| - 1], items[|items| - 1];
      RateVatIsClose(scale, init, rate);
      if last.rate == rate {
        CloseAppend(100 * scale, Sum(VatAt(rate), init), rate, Sum(NetAt(rate), init), Sum(LinesAt(rate), init),
                    last.vat, last.net);
      }
    }
  }

  lemma CloseAppend(d: int, v: int, rate: int, n: int, lines: int, vat: int, net: int)
    requires d > 0 && 2 * Gap(d * v, rate * n) <= lines * d && Nearest(net * rate, d, vat)
    ensures 2 * Gap(d * (v + vat), rate * (n + net)) <= (lines + 1) * d
  {
    assert d * (v + vat) == d * v + d * vat;
    assert rate * (n + net) == rate * n + rate * net;
    assert (lines + 1) * d == lines * d + d;
    assert vat * d == d * vat && net * rate == rate * net;
  }

  lemma BuiltRatesAreClose(scale: int, raws: seq<RawItem>, rate: nat)
    requires scale > 0 && BuildItems(scale, raws).Ok?
    ensures var items := BuildItems(scale, raws).value;
            2 * Gap(100 * scale * Sum(VatAt(rate), items), rate * Sum(NetAt(rate), items))
            <= Sum(LinesAt(rate), items) * (100 * scale)
  {
    var items := BuildItems(scale, raws).value;
    BuildItemsVerdict(scale, raws);
    forall k | 0 <= k < |items| ensures Nearest(items[k].net * items[k].rate, 100 * scale, items[k].vat) {
      LineIsNearest(scale, raws[k], k + 1);
    }
    RateVatIsClose(scale, items, rate);
  }

  // ---- As the code runs ----

  method ComputeItems(scale: int, raws: seq<RawItem>) returns (r: Result<seq<Item>, BadLine>)
    requires scale > 0
    ensures r == BuildItems(scale, raws)
  {
    var items: seq<Item> := [];
    for k := 0 to |raws|
      invariant BuildItems(scale, raws[..k]) == Ok(items)
    {
      assert raws[..k + 1][..k] == raws[..k];
      var raw := raws[k];
      var name := Decimals.Strip(raw.name);
      var problem: Option<Problem> := None;
      if name == "" {
        problem := Some(BlankName);
      } else if raw.quantity <= 0 {
        problem := Some(NotPositive);
      } else if raw.quantity % scale != 0 {
        problem := Some(NotWhole);
      } else if raw.price < 0 {
        problem := Some(NegativePrice);
      } else if raw.rate < 0 || raw.rate > 100 * scale {
        problem := Some(RateOutOfRange);
      }
      if problem.Some? {
        FirstProblemStays(scale, raws, k + 1);
        return Err(BadLine(k + 1, problem.value));
      }
      var quantity := raw.quantity / scale;
      var net := HalfUp(100 * quantity * raw.price, scale);
      var vat := HalfUp(net * raw.rate, 100 * scale);
      var unit := if raw.unit.Some? then raw.unit.value else "szt.";
      items := items + [Item(name, quantity, unit, raw.price, raw.rate, net, vat, net + vat, k + 1, None)];
    }
    assert raws[..|raws|] == raws;
    return Ok(items);
  }

  lemma {:induction false} FirstProblemStays(scale: int, raws: seq<RawItem>, k: nat)
    requires scale > 0 && k <= |raws| && BuildItems(scale, raws[..k]).Err?
    ensures BuildItems(scale, raws) == BuildItems(scale, raws[..k])
    decreases |raws|
  {
    if k == |raws| {
      assert raws[..k] == raws;
    } else {
      assert raws[..|raws| - 1][..k] == raws[..k];
      FirstProblemStays(scale, raws[..|raws| - 1], k);
    }
  }

  ghost predicate AreAggregates(net: map<nat, int>, vat: map<nat, int>, items: seq<Item>) {
    && net.Keys == vat.Keys
    && (forall rate :: rate in net <==> HasRate(items, rate))
    && (forall rate :: rate in net ==> net[rate] == Sum(NetAt(rate), items) && vat[rate] == Sum(VatAt(rate), items))
  }

  ghost predicate ArePln(pln: map<nat, int>, items: seq<Item>) {
    && (forall rate :: rate in pln <==> HasPln(items, rate))
    && (forall rate :: rate in pln ==> pln[rate] == Sum(PlnAt(rate), items))
  }

  function Counted(amounts: map<nat, int>, rate: nat, amount: int): map<nat, int> {
    amounts[rate := (if rate in amounts then amounts[rate] else 0) + amount]
  }

  /** One pass over the lines, with a dictionary per amount; a missing key counts from zero. A rate is in `pln`
      when some line of it carries its VAT in PLN. */
  method AggregateVatTotals(items: seq<Item>) returns (net: map<nat, int>, vat: map<nat, int>, pln: map<nat, int>)
    ensures AreAggregates(net, vat, items) && ArePln(pln, items)
  {
    net, vat, pln := map[], map[], map[];
    for k := 0 to |items|
      invariant AreAggregates(net, vat, items[..k]) && ArePln(pln, items[..k])
    {
      CountOneLine(net, vat, items[..k], items[k]);
      CountOnePln(pln, items[..k], items[k]);
      assert items[..k + 1] == items[..k] + [items[k]];
      net := Counted(net, items[k].rate, items[k].net);
      vat := Counted(vat, items[k].rate, items[k].vat);
      if items[k].vatPln.Some? {
        pln := Counted(pln, items[k].rate, items[k].vatPln.value);
      }
    }
    assert items[..|items|] == items;
  }

  lemma OneMorePln(items: seq<Item>, item: Item, rate: nat)
    ensures HasPln(items + [item], rate) <==> HasPln(items, rate) || (rate == item.rate && item.vatPln.Some?)
    ensures Sum(PlnAt(rate), items + [item]) == Sum(PlnAt(rate), items) + PlnAt(rate)(item)
    ensures !HasPln(items, rate) ==> Sum(PlnAt(rate), items) == 0
  {
    var more := items + [item];
    SumAppend(PlnAt(rate), items, item);
    assert more[|items|] == item;
    assert forall k :: 0 <= k < |items| ==> more[k] == items[k];
    if !HasPln(items, rate) {
      SumZero(PlnAt(rate), items);
    }
  }

  lemma CountOnePln(pln: map<nat, int>, items: seq<Item>, item: Item)
    requires ArePln(pln, items)
    ensures ArePln(if item.vatPln.Some? then Counted(pln, item.rate, item.vatPln.value) else pln, items + [item])
  {
    var pln' := if item.vatPln.Some? then Counted(pln, item.rate, item.vatPln.value) else pln;
    forall rate: nat
      ensures rate in pln' <==> HasPln(items + [item], rate)
      ensures rate in pln' ==> pln'[rate] == Sum(PlnAt(rate), items + [item])
    {
      OneMorePln(items, item, rate);
      assert rate in pln <==> HasPln(items, rate);
    }
  }

  lemma OneMoreLine(items: seq<Item>, item: Item, rate: nat)
    ensures HasRate(items + [item], rate) <==> HasRate(items, rate) || rate == item.rate
    ensures Sum(NetAt(rate), items + [item]) == Sum(NetAt(rate), items) + NetAt(rate)(item)
    ensures Sum(VatAt(rate), items + [item]) == Sum(VatAt(rate), items) + VatAt(rate)(item)
    ensures !HasRate(items, rate) ==> Sum(NetAt(rate), items) == 0 == Sum(VatAt(rate), items)
  {
    var more := items + [item];
    SumAppend(NetAt(rate), items, item);
    SumAppend(VatAt(rate), items, item);
    assert more[|items|] == item;
    assert forall k :: 0 <= k < |items| ==> more[k] == items[k];
    if !HasRate(items, rate) {
      SumZero(NetAt(rate), items);
      SumZero(VatAt(rate), items);
    }
  }

  lemma CountOneLine(net: map<nat, int>, vat: map<nat, int>, items: seq<Item>, item: Item)
    requires AreAggregates(net, vat, items)
    ensures AreAggregates(Counted(net, item.rate, item.net), Counted(vat, item.rate, item.vat), items + [item])
  {
    var net', vat' := Counted(net, item.rate, item.net), Counted(vat, item.rate, item.vat);
    forall rate: nat
      ensures rate in net' <==> HasRate(items + [item], rate)
      ensures rate in net'
              ==> net'[rate] == Sum(NetAt(rate), items + [item]) && vat'[rate] == Sum(VatAt(rate), items + [item])
    {
      OneMoreLine(items, item, rate);
      assert rate in net <==> HasRate(items, rate);
    }
  }
}
