/** What a request asks for and what the tables hold after it: which requests are accepted, what a document says
    then, and that the stock is what the posted requests asked for. */
module WarehouseRequests {
  import opened Prelude
  import opened Layers
  import opened Stock
  import opened Text
  import opened Numbering
  import opened Warehouse
  import opened WarehouseInvariants
  import opened WarehouseTotals
  import opened WarehouseVerdicts

  // ---- One request ----

  /** A stored line says what was asked; a request's quantity is in ten-thousandths. */
  predicate AsAsked(line: Line, raw: RawLine) {
    line.item == raw.item && 10000 * line.quantity == raw.quantity && line.price == raw.price
  }

  predicate AllAsAsked(lines: seq<Line>, raws: seq<RawLine>) {
    |lines| == |raws| && forall i :: 0 <= i < |lines| ==> AsAsked(lines[i], raws[i])
  }

  predicate TypeIs(code: string, t: DocType) {
    match t
    case PZ => code == "PZ"
    case WZ => code == "WZ"
    case KK => code == "KK"
    case TRANSFER => code == "TRANSFER"
  }

  predicate NotBlank(text: Option<string>) {
    match text
    case None => false
    case Some(t) => |t| > 0
  }

  /** A whole quantity that is not zero; of a PZ positive and with a price, of a WZ positive, of a KK with a price
      when positive. */
  predicate MayAsk(t: DocType, raw: RawLine) {
    && raw.quantity == 10000 * (raw.quantity / 10000) && raw.quantity / 10000 != 0
    && match t
       case PZ => raw.quantity > 0 && raw.price != None
       case WZ => raw.quantity > 0
       case KK => raw.quantity < 0 || raw.price != None
       case TRANSFER => true
  }

  predicate MayRequest(t: DocType, body: Body) {
    && |body.lines| > 0 && (forall i :: 0 <= i < |body.lines| ==> MayAsk(t, body.lines[i]))
    && (t == WZ && body.sourceInvoice == None ==> NotBlank(body.issueReason))
  }

  lemma RequestsAllowed(t: DocType, body: Body)
    ensures BodyOk(t, body) <==> MayRequest(t, body)
  {
    forall i | 0 <= i < |body.lines| ensures RawLineOk(t, body.lines[i]) <==> MayAsk(t, body.lines[i]) {
      var q := body.lines[i].quantity;
      assert q % 10000 == 0 <==> q == 10000 * (q / 10000);
    }
  }

  lemma LinesBuilt(raws: seq<RawLine>, first: nat, t: DocType)
    requires forall i :: 0 <= i < |raws| ==> MayAsk(t, raws[i])
    ensures AllAsAsked(BuildLines(raws, first), raws)
  {
    forall i | 0 <= i < |raws| ensures AsAsked(BuildLines(raws, first)[i], raws[i]) {
      assert MayAsk(t, raws[i]);
    }
  }

  /** A create is accepted exactly for a known type and a request that type allows. */
  lemma CreateAcceptedIff(s: State, body: Body)
    ensures Create(s, body).Ok? <==> exists t :: TypeIs(body.docType, t) && MayRequest(t, body)
    ensures Create(s, body).Err? ==> Create(s, body).error == InvalidDocument
  {
    forall t ensures BodyOk(t, body) <==> MayRequest(t, body) {
      RequestsAllowed(t, body);
    }
    if Create(s, body).Ok? {
      assert TypeIs(body.docType, Create(s, body).value.docs[|s.docs|].docType);
    }
    if t :| TypeIs(body.docType, t) && MayRequest(t, body) {
      TypesDiffer(body.docType, t);
    }
  }

  lemma TypesDiffer(code: string, t: DocType)
    requires TypeIs(code, t)
    ensures ParseType(code) == Some(t)
  {
    match t
    case PZ =>
    case WZ => assert code[0] != "PZ"[0];
    case KK => assert code[0] != "PZ"[0] && code[0] != "WZ"[0];
    case TRANSFER => assert code[0] != "PZ"[0] && code[0] != "WZ"[0] && code[0] != "KK"[0];
  }

  /** It adds one draft that says what was asked, and changes no other document, no stock and no counter. */
  lemma CreateStores(s: State, body: Body)
    requires Create(s, body).Ok?
    ensures var (s', n) := (Create(s, body).value, |s.docs|);
            && |s'.docs| == n + 1 && s'.docs[..n] == s.docs
            && s'.ledger == s.ledger && s'.lastNumber == s.lastNumber
            && TypeIs(body.docType, s'.docs[n].docType) && s'.docs[n].status == Draft && s'.docs[n].number == None
            && s'.docs[n].sourceInvoice == body.sourceInvoice && s'.docs[n].issueReason == body.issueReason
            && s'.docs[n].correctionReason == body.correctionReason && AllAsAsked(s'.docs[n].lines, body.lines)
  {
    var t := Create(s, body).value.docs[|s.docs|].docType;
    RequestsAllowed(t, body);
    LinesBuilt(body.lines, s.nextLine, t);
  }

  /** An update is accepted exactly for a draft and a request its type allows. */
  lemma UpdateAcceptedIff(s: State, id: nat, body: Body)
    ensures id >= |s.docs| ==> Update(s, id, body) == Err(NotFound)
    ensures id < |s.docs| ==>
              (Update(s, id, body).Ok? <==> s.docs[id].status == Draft && MayRequest(s.docs[id].docType, body))
    ensures id < |s.docs| && Update(s, id, body).Err? ==> Update(s, id, body).error == InvalidDocument
  {
    if id < |s.docs| {
      RequestsAllowed(s.docs[id].docType, body);
    }
  }

  /** It replaces the draft's lines and both reasons by what was asked, and nothing else. */
  lemma UpdateStores(s: State, id: nat, body: Body)
    requires Update(s, id, body).Ok?
    ensures var s' := Update(s, id, body).value;
            && id < |s.docs| && |s'.docs| == |s.docs|
            && (forall d :: 0 <= d < |s.docs| && d != id ==> s'.docs[d] == s.docs[d])
            && s'.ledger == s.ledger && s'.lastNumber == s.lastNumber
            && s'.docs[id].docType == s.docs[id].docType && s'.docs[id].status == Draft
            && s'.docs[id].number == s.docs[id].number && s'.docs[id].sourceInvoice == s.docs[id].sourceInvoice
            && s'.docs[id].issueReason == body.issueReason && s'.docs[id].correctionReason == body.correctionReason
            && AllAsAsked(s'.docs[id].lines, body.lines)
  {
    RequestsAllowed(s.docs[id].docType, body);
    LinesBuilt(body.lines, s.nextLine, s.docs[id].docType);
  }

  /** A cancel makes a draft cancelled and changes nothing else; a cancelled document stays, a posted one refuses. */
  lemma CancelOutcome(s: State, id: nat)
    ensures id >= |s.docs| ==> Cancel(s, id) == Err(NotFound)
    ensures id < |s.docs| && s.docs[id].status == Draft ==>
              Cancel(s, id) == Ok(s.(docs := s.docs[id := s.docs[id].(status := Cancelled)]))
    ensures id < |s.docs| && s.docs[id].status == Cancelled ==> Cancel(s, id) == Ok(s)
    ensures id < |s.docs| && s.docs[id].status == Posted ==> Cancel(s, id) == Err(InvalidDocument)
  {
  }

  // ---- Posting ----

  /** `TYPE/YEAR/SEQUENCE`, the sequence with at least four digits. */
  ghost predicate Reads(number: string, code: string, year: nat, k: nat) {
    && number == Part1(number) + "/" + Part2(number) + "/" + Part3(number)
    && Part1(number) == code && Part2(number) == Digits(year)
    && AllDigits(Part3(number)) && Value(Part3(number)) == k && |Part3(number)| >= 4
    && (|Part3(number)| > 4 ==> |Part3(number)| == |Digits(k)|)
  }

  lemma NumberReads(t: DocType, code: string, year: nat, k: nat)
    requires TypeIs(code, t)
    ensures Reads(FormatNumber(t, year, k), code, year, k)
  {
    FormatSplits(t, year, k);
    DigitsReadBack(k);
    ZeroPadReadBack(Digits(k), 4);
  }

  lemma PostKeepsOthers(s: State, id: nat, clock: Clock, query: FifoQuery)
    requires id < |s.docs| && s.docs[id].status == Draft && Post(s, id, clock, query).Ok?
    ensures var s' := Post(s, id, clock, query).value;
            && |s'.docs| == |s.docs| && (forall d :: 0 <= d < |s.docs| && d != id ==> s'.docs[d] == s.docs[d])
            && s'.docs[id].(status := Draft, number := s.docs[id].number) == s.docs[id] && s'.docs[id].status == Posted
  {
  }

  /** A post that gets through gives the draft the next number of its type in the year of the clock, moves that
      counter and no other, and touches no other document. */
  lemma PostStores(s: State, id: nat, clock: Clock, query: FifoQuery, code: string)
    requires id < |s.docs| && s.docs[id].status == Draft && TypeIs(code, s.docs[id].docType)
    requires Post(s, id, clock, query).Ok?
    ensures var (s', t) := (Post(s, id, clock, query).value, s.docs[id].docType);
            && |s'.docs| == |s.docs| && (forall d :: 0 <= d < |s.docs| && d != id ==> s'.docs[d] == s.docs[d])
            && s'.docs[id].(status := Draft, number := s.docs[id].number) == s.docs[id] && s'.docs[id].status == Posted
            && LastNumber(s', t, clock.year) == LastNumber(s, t, clock.year) + 1
            && (forall u, y: nat :: (u, y) != (t, clock.year) ==> LastNumber(s', u, y) == LastNumber(s, u, y))
            && s'.docs[id].number.Some?
            && Reads(s'.docs[id].number.value, code, clock.year, LastNumber(s, t, clock.year) + 1)
  {
    PostKeepsOthers(s, id, clock, query);
    NumberReads(s.docs[id].docType, code, clock.year, LastNumber(s, s.docs[id].docType, clock.year) + 1);
  }

  /** A post of anything but a draft. */
  lemma PostOfOthers(s: State, id: nat, clock: Clock, query: FifoQuery)
    ensures id >= |s.docs| ==> Post(s, id, clock, query) == Err(NotFound)
    ensures id < |s.docs| && s.docs[id].status == Posted ==> Post(s, id, clock, query) == Ok(s)
    ensures id < |s.docs| && s.docs[id].status == Cancelled ==>
              Post(s, id, clock, query) == Err(InvalidStatusTransition)
  {
  }

  /** What the header of a draft lacks: a WZ an invoice or a reason, a KK a reason; a TRANSFER can never be posted. */
  predicate HeaderLacks(doc: Doc) {
    match doc.docType
    case PZ => false
    case WZ => doc.sourceInvoice == None && !NotBlank(doc.issueReason)
    case KK => !NotBlank(doc.correctionReason)
    case TRANSFER => true
  }

  lemma HeaderRead(doc: Doc)
    ensures PostableHeader(doc) <==> !HeaderLacks(doc)
  {
  }

  ghost predicate StockLacks(g: Ledger, doc: Doc) {
    match doc.docType
    case WZ => !InStockFor(g, doc.lines)
    case KK => !NeverShort(g, doc.lines)
    case _ => false
  }

  lemma DraftVerdict(s: State, id: nat, clock: Clock, query: FifoQuery)
    requires Inv(s) && id < |s.docs| && s.docs[id].status == Draft && !HeaderLacks(s.docs[id])
    ensures var posted := PostLines(s.docs[id].docType, s.ledger, s.docs[id].lines, clock, query);
            && (posted.Err? <==> StockLacks(s.ledger, s.docs[id]))
            && (posted.Err? ==> posted.error == InsufficientStock)
  {
    DraftIsReady(s, id);
    match s.docs[id].docType
    case PZ => PzLinesPost(s.ledger, s.docs[id].lines, clock, query);
    case WZ => WzLinesVerdict(s.ledger, s.docs[id].lines, clock, query);
    case KK => KkLinesVerdict(s.ledger, s.docs[id].lines, clock, query);
  }

  /** In every reachable state a draft is refused for its header, or for lack of stock, or posted. */
  lemma {:induction false} PostVerdict(ops: seq<Op>, id: nat, clock: Clock, query: FifoQuery)
    requires id < |Run(ops).docs| && Run(ops).docs[id].status == Draft
    ensures var (s, doc) := (Run(ops), Run(ops).docs[id]);
            && (HeaderLacks(doc) ==> Post(s, id, clock, query) == Err(InvalidDocument))
            && (!HeaderLacks(doc) && StockLacks(s.ledger, doc) ==> Post(s, id, clock, query) == Err(InsufficientStock))
            && (!HeaderLacks(doc) && !StockLacks(s.ledger, doc) ==> Post(s, id, clock, query).Ok?)
  {
    Reachable(ops);
    HeaderRead(Run(ops).docs[id]);
    if !HeaderLacks(Run(ops).docs[id]) {
      DraftVerdict(Run(ops), id, clock, query);
    }
  }

  // ---- Over runs ----

  /** The lines of the last accepted request for the document. */
  ghost function Requested(ops: seq<Op>, id: nat): seq<RawLine> {
    if ops == [] then []
    else
      var s, op := Run(ops[..|ops| - 1]), ops[|ops| - 1];
      if op.CreateOp? && id == |s.docs| && Create(s, op.body).Ok? then op.body.lines
      else if op.UpdateOp? && op.id == id && Update(s, id, op.body).Ok? then op.body.lines
      else Requested(ops[..|ops| - 1], id)
  }

  lemma StepStoresRequest(s: State, op: Op, id: nat, before: seq<RawLine>)
    requires id < |s.docs| ==> AllAsAsked(s.docs[id].lines, before)
    requires id < |Step(s, op).docs|
    ensures AllAsAsked(Step(s, op).docs[id].lines,
                       if op.CreateOp? && id == |s.docs| && Create(s, op.body).Ok? then op.body.lines
                       else if op.UpdateOp? && op.id == id && Update(s, id, op.body).Ok? then op.body.lines
                       else before)
  {
    match op
    case CreateOp(body) =>
      if Create(s, body).Ok? {
        CreateStores(s, body);
        assert id < |s.docs| ==> Step(s, op).docs[..|s.docs|][id] == s.docs[id];
      }
    case UpdateOp(d, body) => if Update(s, d, body).Ok? { UpdateStores(s, d, body); }
    case CancelOp(d) =>
    case PostOp(d, clock, query) =>
  }

  /** In every reachable state every document's lines are those of the last accepted request for it. */
  lemma {:induction false} LinesAreAsRequested(ops: seq<Op>, id: nat)
    requires id < |Run(ops).docs|
    ensures AllAsAsked(Run(ops).docs[id].lines, Requested(ops, id))
    decreases |ops|
  {
    if ops != [] {
      var init := ops[..|ops| - 1];
      if id < |Run(init).docs| {
        LinesAreAsRequested(init, id);
      }
      StepStoresRequest(Run(init), ops[|ops| - 1], id, Requested(init, id));
    }
  }

  /** What a request of a type asks of an item's stock, in ten-thousandths: a WZ takes, the others give. */
  function AskedOf(t: DocType, item: nat): RawLine -> int {
    (raw: RawLine) => if raw.item != item then 0 else if t == WZ then -raw.quantity else raw.quantity
  }

  lemma {:induction false} NetAsAsked(t: DocType, item: nat, lines: seq<Line>, raws: seq<RawLine>)
    requires AllAsAsked(lines, raws)
    ensures 10000 * Sum(SignedQuantity(t, item), lines) == Sum(AskedOf(t, item), raws)
  {
    if lines != [] {
      var n := |lines| - 1;
      assert AsAsked(lines[n], raws[n]);
      NetAsAsked(t, item, lines[..n], raws[..n]);
    }
  }

  /** What the requests behind the posted ones of the first `n` documents asked of an item. */
  ghost function PostedRequests(ops: seq<Op>, item: nat, n: nat): int
    requires n <= |Run(ops).docs|
  {
    if n == 0 then 0
    else
      var doc := Run(ops).docs[n - 1];
      PostedRequests(ops, item, n - 1)
      + if doc.status == Posted then Sum(AskedOf(doc.docType, item), Requested(ops, n - 1)) else 0
  }

  lemma {:induction false} PostedAsAsked(ops: seq<Op>, item: nat, n: nat)
    requires n <= |Run(ops).docs|
    ensures PostedRequests(ops, item, n) == 10000 * Sum(DocQuantity(item), Run(ops).docs[..n])
    decreases n
  {
    if n > 0 {
      var docs := Run(ops).docs;
      PostedAsAsked(ops, item, n - 1);
      LinesAreAsRequested(ops, n - 1);
      NetAsAsked(docs[n - 1].docType, item, docs[n - 1].lines, Requested(ops, n - 1));
      assert docs[..n][..n - 1] == docs[..n - 1];
    }
  }

  /** In every reachable state the stock of an item is what the posted requests asked of it. */
  lemma StockIsAsRequested(ops: seq<Op>, item: nat)
    ensures 10000 * OnHand(Run(ops).ledger.layers, item) == PostedRequests(ops, item, |Run(ops).docs|)
  {
    RunTotals(ops, item);
    PostedAsAsked(ops, item, |Run(ops).docs|);
    assert Run(ops).docs[..|Run(ops).docs|] == Run(ops).docs;
  }
}
