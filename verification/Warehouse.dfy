/** Warehouse documents on values: what each public call of `WarehouseDocumentService` does to the stored
    rows, as a function from the old rows to the new ones or to an error. */
module Warehouse {
  import opened Prelude
  import opened Layers
  import opened Numbering

  datatype Status = Draft | Posted | Cancelled

  /** A document line; prices are in ten-thousandths. */
  datatype Line = Line(id: nat, item: nat, quantity: int, price: Option<int>)

  datatype Doc = Doc(docType: DocType, status: Status, number: Option<string>, sourceInvoice: Option<nat>,
                     issueReason: Option<string>, correctionReason: Option<string>, lines: seq<Line>)

  /** A line as the caller sends it: the quantity is a decimal, in ten-thousandths. */
  datatype RawLine = RawLine(item: nat, quantity: int, price: Option<int>)

  datatype Body = Body(docType: string, lines: seq<RawLine>, sourceInvoice: Option<nat>,
                       issueReason: Option<string>, correctionReason: Option<string>)

  /** The clock at posting: today's year and day, and the transaction time. */
  datatype Clock = Clock(year: nat, day: int, stamp: int)

  datatype Error = NotFound | InvalidDocument | InvalidStatusTransition | InsufficientStock

  datatype Ledger = Ledger(layers: seq<Layer>, movements: seq<Movement>, balance: map<nat, int>)

  /** Documents are never deleted, so a document's id is its index. `nextLine` is the next fresh line id. */
  datatype State = State(docs: seq<Doc>, ledger: Ledger, lastNumber: map<(DocType, nat), nat>, nextLine: nat)

  const EMPTY := State([], Ledger([], [], map[]), map[], 0)

  // ---- Validation ----

  predicate Given(text: Option<string>) {
    text.Some? && text.value != ""
  }

  function ParseType(code: string): Option<DocType> {
    if code == "PZ" then Some(PZ) else if code == "WZ" then Some(WZ)
    else if code == "KK" then Some(KK) else if code == "TRANSFER" then Some(TRANSFER) else None
  }

  predicate RawLineOk(t: DocType, raw: RawLine) {
    && raw.quantity != 0 && raw.quantity % 10000 == 0
    && (t == PZ ==> raw.price.Some? && raw.quantity > 0)
    && (t == WZ ==> raw.quantity > 0)
    && (t == KK && raw.quantity > 0 ==> raw.price.Some?)
  }

  predicate ItemsOk(t: DocType, lines: seq<RawLine>) {
    forall i :: 0 <= i < |lines| ==> RawLineOk(t, lines[i])
  }

  predicate HeaderOk(t: DocType, sourceInvoice: Option<nat>, issueReason: Option<string>) {
    t == WZ ==> sourceInvoice.Some? || Given(issueReason)
  }

  predicate BodyOk(t: DocType, body: Body) {
    body.lines != [] && ItemsOk(t, body.lines) && HeaderOk(t, body.sourceInvoice, body.issueReason)
  }

  function BuildLine(raw: RawLine, id: nat): Line {
    Line(id, raw.item, raw.quantity / 10000, raw.price)
  }

  function BuildLines(raws: seq<RawLine>, first: nat): (lines: seq<Line>)
    ensures |lines| == |raws|
  {
    seq(|raws|, i requires 0 <= i < |raws| => BuildLine(raws[i], first + i))
  }

  // ---- Create, update, cancel ----

  function Create(s: State, body: Body): Result<State, Error> {
    var t := ParseType(body.docType);
    if t.None? || !BodyOk(t.value, body) then Err(InvalidDocument)
    else
      var doc := Doc(t.value, Draft, None, body.sourceInvoice, body.issueReason, body.correctionReason,
                     BuildLines(body.lines, s.nextLine));
      Ok(s.(docs := s.docs + [doc], nextLine := s.nextLine + |body.lines|))
  }

  /** The stored source invoice is not rewritten; the header rule looks at the new body alone. */
  function Update(s: State, id: nat, body: Body): Result<State, Error> {
    if id >= |s.docs| then Err(NotFound)
    else if s.docs[id].status != Draft || !BodyOk(s.docs[id].docType, body) then Err(InvalidDocument)
    else
      var doc := s.docs[id].(issueReason := body.issueReason, correctionReason := body.correctionReason,
                             lines := BuildLines(body.lines, s.nextLine));
      Ok(s.(docs := s.docs[id := doc], nextLine := s.nextLine + |body.lines|))
  }

  function Cancel(s: State, id: nat): Result<State, Error> {
    if id >= |s.docs| then Err(NotFound)
    else if s.docs[id].status == Cancelled then Ok(s)
    else if s.docs[id].status == Posted then Err(InvalidDocument)
    else Ok(s.(docs := s.docs[id := s.docs[id].(status := Cancelled)]))
  }

  // ---- Posting ----

  function BalanceOf(g: Ledger, item: nat): int {
    if item in g.balance then g.balance[item] else 0
  }

  function UpsertBalance(balance: map<nat, int>, item: nat, delta: int): map<nat, int> {
    balance[item := if item in balance then balance[item] + delta else delta]
  }

  function NewLayer(line: Line, price: int, clock: Clock): Layer {
    Layer(line.item, line.id, line.quantity, line.quantity, price, clock.day, clock.stamp)
  }

  /** PZ and positive KK: one new layer. */
  function Receive(g: Ledger, line: Line, price: int, clock: Clock): Ledger {
    Ledger(g.layers + [NewLayer(line, price, clock)], g.movements, UpsertBalance(g.balance, line.item, line.quantity))
  }

  /** WZ and negative KK: take the quantity from the layers, oldest first. */
  function Issue(g: Ledger, line: Line, quantity: int, query: FifoQuery): Result<Ledger, Error> {
    var order := query(g.layers, line.item);
    if TotalRemaining(g.layers, order) < quantity then Err(InsufficientStock)
    else
      var (layers, moves) := Consume(g.layers, order, line.id, quantity);
      Ok(Ledger(layers, g.movements + moves, UpsertBalance(g.balance, line.item, -quantity)))
  }

  function PostLine(t: DocType, g: Ledger, line: Line, clock: Clock, query: FifoQuery): Result<Ledger, Error> {
    match t
    case PZ =>
      if line.price.None? then Err(InvalidDocument) else Ok(Receive(g, line, line.price.value, clock))
    case WZ =>
      if line.quantity <= 0 then Err(InvalidDocument) else Issue(g, line, line.quantity, query)
    case KK =>
      if line.quantity == 0 then Err(InvalidDocument)
      else if line.quantity < 0 then Issue(g, line, -line.quantity, query)
      else if line.price.None? then Err(InvalidDocument)
      else Ok(Receive(g, line, line.price.value, clock))
    case TRANSFER => Err(InvalidDocument)
  }

  function PostLines(t: DocType, g: Ledger, lines: seq<Line>, clock: Clock, query: FifoQuery): Result<Ledger, Error>
    decreases |lines|
  {
    if lines == [] then Ok(g)
    else
      var first := PostLine(t, g, lines[0], clock, query);
      if first.Err? then first else PostLines(t, first.value, lines[1..], clock, query)
  }

  /** The header rules checked again when a document is posted. */
  predicate PostableHeader(doc: Doc) {
    && HeaderOk(doc.docType, doc.sourceInvoice, doc.issueReason)
    && (doc.docType == KK ==> Given(doc.correctionReason))
    && doc.docType != TRANSFER
  }

  function LastNumber(s: State, t: DocType, year: nat): nat {
    if (t, year) in s.lastNumber then s.lastNumber[(t, year)] else 0
  }

  function Post(s: State, id: nat, clock: Clock, query: FifoQuery): Result<State, Error> {
    if id >= |s.docs| then Err(NotFound)
    else
      var doc := s.docs[id];
      if doc.status == Posted then Ok(s)
      else if doc.status == Cancelled then Err(InvalidStatusTransition)
      else if !PostableHeader(doc) then Err(InvalidDocument)
      else
        var posted := PostLines(doc.docType, s.ledger, doc.lines, clock, query);
        if posted.Err? then Err(posted.error)
        else
          var k := LastNumber(s, doc.docType, clock.year) + 1;
          var number := FormatNumber(doc.docType, clock.year, k);
          Ok(s.(docs := s.docs[id := doc.(status := Posted, number := Some(number))],
                ledger := posted.value,
                lastNumber := s.lastNumber[(doc.docType, clock.year) := k]))
  }

  // ---- Runs ----

  datatype Op =
    | CreateOp(body: Body)
    | UpdateOp(id: nat, body: Body)
    | CancelOp(id: nat)
    | PostOp(id: nat, clock: Clock, query: FifoQuery)

  function Call(s: State, op: Op): Result<State, Error> {
    match op
    case CreateOp(body) => Create(s, body)
    case UpdateOp(id, body) => Update(s, id, body)
    case CancelOp(id) => Cancel(s, id)
    case PostOp(id, clock, query) => Post(s, id, clock, query)
  }

  /** A call is one transaction: an error rolls everything back, the number counter included. */
  function Step(s: State, op: Op): State {
    var r := Call(s, op);
    if r.Ok? then r.value else s
  }

  function Run(ops: seq<Op>): State {
    if ops == [] then EMPTY else Step(Run(ops[..|ops| - 1]), ops[|ops| - 1])
  }
}
