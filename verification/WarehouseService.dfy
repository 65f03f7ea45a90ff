/** `WarehouseDocumentService` and its repositories as they run: fields updated row by row, loops over lines
    and layers, and the rollback of the surrounding transaction when a call raises. */
module WarehouseService {
  import opened Prelude
  import opened Layers
  import opened Numbering
  import opened Warehouse

  class WarehouseDocumentService {
    var docs: seq<Doc>
    var layers: seq<Layer>
    var movements: seq<Movement>
    var balance: map<nat, int>
    var lastNumber: map<(DocType, nat), nat>
    var nextLine: nat

    function Books(): Ledger
      reads this
    {
      Ledger(layers, movements, balance)
    }

    function Rows(): State
      reads this
    {
      State(docs, Books(), lastNumber, nextLine)
    }

    constructor ()
      ensures Rows() == EMPTY
    {
      docs, layers, movements, balance, lastNumber, nextLine := [], [], [], map[], map[], 0;
    }

    // ---- Repositories ----

    method AddToBalance(item: nat, delta: int)
      modifies this`balance
      ensures balance == UpsertBalance(old(balance), item, delta)
    {
      if item !in balance {
        balance := balance[item := delta];
      } else {
        balance := balance[item := balance[item] + delta];
      }
    }

    method AllocateNextSequence(t: DocType, year: nat) returns (k: nat)
      modifies this`lastNumber
      ensures k == LastNumber(old(Rows()), t, year) + 1
      ensures lastNumber == old(lastNumber)[(t, year) := k]
    {
      if (t, year) in lastNumber {
        k := lastNumber[(t, year)] + 1;
      } else {
        k := 1;
      }
      lastNumber := lastNumber[(t, year) := k];
    }

    // ---- Validation ----

    /** Two passes over the lines, as the service makes them. */
    method ValidateItemsForType(t: DocType, raws: seq<RawLine>) returns (ok: bool)
      ensures ok <==> ItemsOk(t, raws)
    {
      for i := 0 to |raws|
        invariant forall j :: 0 <= j < i ==> raws[j].quantity != 0 && raws[j].quantity % 10000 == 0
      {
        if raws[i].quantity == 0 || raws[i].quantity % 10000 != 0 {
          assert !RawLineOk(t, raws[i]);
          return false;
        }
      }
      for i := 0 to |raws|
        invariant forall j :: 0 <= j < i ==> RawLineOk(t, raws[j])
      {
        var bad :=
          match t
          case PZ => raws[i].price.None? || raws[i].quantity <= 0
          case WZ => raws[i].quantity <= 0
          case KK => raws[i].quantity > 0 && raws[i].price.None?
          case TRANSFER => false;
        if bad {
          assert !RawLineOk(t, raws[i]);
          return false;
        }
      }
      return true;
    }

    method BuildItems(raws: seq<RawLine>) returns (lines: seq<Line>)
      modifies this`nextLine
      ensures lines == BuildLines(raws, old(nextLine)) && nextLine == old(nextLine) + |raws|
    {
      lines := [];
      for i := 0 to |raws|
        invariant nextLine == old(nextLine) + i && |lines| == i
        invariant forall j :: 0 <= j < i ==> lines[j] == BuildLine(raws[j], old(nextLine) + j)
      {
        lines := lines + [BuildLine(raws[i], nextLine)];
        nextLine := nextLine + 1;
      }
    }

    // ---- Public calls ----

    method CreateDocument(body: Body) returns (r: Result<nat, Error>)
      modifies this
      ensures match Create(old(Rows()), body)
              case Ok(s) => r == Ok(|old(docs)|) && Rows() == s
              case Err(e) => r == Err(e) && Rows() == old(Rows())
    {
      var t := ParseType(body.docType);
      if t.None? || body.lines == [] {
        return Err(InvalidDocument);
      }
      var itemsOk := ValidateItemsForType(t.value, body.lines);
      if !itemsOk || (t.value == WZ && body.sourceInvoice.None? && !Given(body.issueReason)) {
        return Err(InvalidDocument);
      }
      var lines := BuildItems(body.lines);
      docs := docs + [Doc(t.value, Draft, None, body.sourceInvoice, body.issueReason, body.correctionReason, lines)];
      return Ok(|docs| - 1);
    }

    method UpdateDocument(id: nat, body: Body) returns (r: Result<(), Error>)
      modifies this
      ensures match Update(old(Rows()), id, body)
              case Ok(s) => r.Ok? && Rows() == s
              case Err(e) => r == Err(e) && Rows() == old(Rows())
    {
      if id >= |docs| {
        return Err(NotFound);
      }
      if docs[id].status == Posted || docs[id].status == Cancelled || body.lines == [] {
        return Err(InvalidDocument);
      }
      var itemsOk := ValidateItemsForType(docs[id].docType, body.lines);
      if !itemsOk || (docs[id].docType == WZ && body.sourceInvoice.None? && !Given(body.issueReason)) {
        return Err(InvalidDocument);
      }
      docs := docs[id := docs[id].(issueReason := body.issueReason, correctionReason := body.correctionReason)];
      var lines := BuildItems(body.lines);
      docs := docs[id := docs[id].(lines := lines)];
      return Ok(());
    }

    method CancelDocument(id: nat) returns (r: Result<(), Error>)
      modifies this
      ensures match Cancel(old(Rows()), id)
              case Ok(s) => r.Ok? && Rows() == s
              case Err(e) => r == Err(e) && Rows() == old(Rows())
    {
      if id >= |docs| {
        return Err(NotFound);
      }
      if docs[id].status == Cancelled {
        return Ok(());
      }
      if docs[id].status == Posted {
        return Err(InvalidDocument);
      }
      docs := docs[id := docs[id].(status := Cancelled)];
      return Ok(());
    }

    method PostDocument(id: nat, clock: Clock, query: FifoQuery) returns (r: Result<(), Error>)
      modifies this
      ensures match Post(old(Rows()), id, clock, query)
              case Ok(s) => r.Ok? && Rows() == s
              case Err(e) => r == Err(e) && Rows() == old(Rows())
    {
      if id >= |docs| {
        return Err(NotFound);
      }
      if docs[id].status == Posted {
        return Ok(());
      }
      if docs[id].status == Cancelled {
        return Err(InvalidStatusTransition);
      }
      r := PostDraft(id, clock, query);
    }

    method PostDraft(id: nat, clock: Clock, query: FifoQuery) returns (r: Result<(), Error>)
      requires id < |docs| && docs[id].status == Draft
      modifies this
      ensures match Post(old(Rows()), id, clock, query)
              case Ok(s) => r.Ok? && Rows() == s
              case Err(e) => r == Err(e) && Rows() == old(Rows())
    {
      var doc := docs[id];
      var before := Books();
      r := PostByType(doc, clock, query);
      if r.Err? {
        layers, movements, balance := before.layers, before.movements, before.balance;
        return;
      }
      var k := AllocateNextSequence(doc.docType, clock.year);
      docs := docs[id := doc.(status := Posted, number := Some(FormatNumber(doc.docType, clock.year, k)))];
    }

    // ---- Posting by type ----

    /** An error may leave the books half written; the caller's transaction rolls them back. */
    method PostByType(doc: Doc, clock: Clock, query: FifoQuery) returns (r: Result<(), Error>)
      modifies this`layers, this`movements, this`balance
      ensures if !PostableHeader(doc) then r == Err(InvalidDocument)
              else match PostLines(doc.docType, old(Books()), doc.lines, clock, query)
                   case Ok(g) => r.Ok? && Books() == g
                   case Err(e) => r == Err(e)
    {
      match doc.docType {
        case PZ => r := PostPz(doc, clock, query);
        case WZ => r := PostWz(doc, clock, query);
        case KK => r := PostKk(doc, clock, query);
        case TRANSFER => r := Err(InvalidDocument);
      }
    }

    method PostPz(doc: Doc, clock: Clock, query: FifoQuery) returns (r: Result<(), Error>)
      modifies this`layers, this`movements, this`balance
      ensures match PostLines(PZ, old(Books()), doc.lines, clock, query)
              case Ok(g) => r.Ok? && Books() == g
              case Err(e) => r == Err(e)
    {
      for i := 0 to |doc.lines|
        invariant PostLines(PZ, old(Books()), doc.lines, clock, query)
                  == PostLines(PZ, Books(), doc.lines[i..], clock, query)
      {
        var line := doc.lines[i];
        if line.price.None? {
          return Err(InvalidDocument);
        }
        layers := layers + [Layer(line.item, line.id, line.quantity, line.quantity, line.price.value,
                                  clock.day, clock.stamp)];
        AddToBalance(line.item, line.quantity);
        assert doc.lines[i..][1..] == doc.lines[i + 1..];
      }
      return Ok(());
    }

    method PostWz(doc: Doc, clock: Clock, query: FifoQuery) returns (r: Result<(), Error>)
      modifies this`layers, this`movements, this`balance
      ensures if doc.sourceInvoice.None? && !Given(doc.issueReason) then r == Err(InvalidDocument)
              else match PostLines(WZ, old(Books()), doc.lines, clock, query)
                   case Ok(g) => r.Ok? && Books() == g
                   case Err(e) => r == Err(e)
    {
      if doc.sourceInvoice.None? && !Given(doc.issueReason) {
        return Err(InvalidDocument);
      }
      for i := 0 to |doc.lines|
        invariant PostLines(WZ, old(Books()), doc.lines, clock, query)
                  == PostLines(WZ, Books(), doc.lines[i..], clock, query)
      {
        var line := doc.lines[i];
        if line.quantity <= 0 {
          return Err(InvalidDocument);
        }
        var ok := ConsumeFifo(line.item, line.id, line.quantity, query);
        if !ok {
          return Err(InsufficientStock);
        }
        AddToBalance(line.item, -line.quantity);
        assert doc.lines[i..][1..] == doc.lines[i + 1..];
      }
      return Ok(());
    }

    method PostKk(doc: Doc, clock: Clock, query: FifoQuery) returns (r: Result<(), Error>)
      modifies this`layers, this`movements, this`balance
      ensures if !Given(doc.correctionReason) then r == Err(InvalidDocument)
              else match PostLines(KK, old(Books()), doc.lines, clock, query)
                   case Ok(g) => r.Ok? && Books() == g
                   case Err(e) => r == Err(e)
    {
      if !Given(doc.correctionReason) {
        return Err(InvalidDocument);
      }
      for i := 0 to |doc.lines|
        invariant PostLines(KK, old(Books()), doc.lines, clock, query)
                  == PostLines(KK, Books(), doc.lines[i..], clock, query)
      {
        var line := doc.lines[i];
        if line.quantity == 0 {
          return Err(InvalidDocument);
        }
        if line.quantity > 0 {
          if line.price.None? {
            return Err(InvalidDocument);
          }
          layers := layers + [Layer(line.item, line.id, line.quantity, line.quantity, line.price.value,
                                    clock.day, clock.stamp)];
          AddToBalance(line.item, line.quantity);
        } else {
          var ok := ConsumeFifo(line.item, line.id, -line.quantity, query);
          if !ok {
            return Err(InsufficientStock);
          }
          AddToBalance(line.item, line.quantity);
        }
        assert doc.lines[i..][1..] == doc.lines[i + 1..];
      }
      return Ok(());
    }

    /** The issue loop: walks the layers oldest first, splits the quantity across them, writes one movement
        per layer with the layer's price. */
    method ConsumeFifo(item: nat, lineId: nat, quantity: int, query: FifoQuery) returns (ok: bool)
      modifies this`layers, this`movements
      ensures ok <==> quantity <= TotalRemaining(old(layers), query(old(layers), item))
      ensures !ok ==> layers == old(layers) && movements == old(movements)
      ensures ok ==> var after := Consume(old(layers), query(old(layers), item), lineId, quantity);
                     layers == after.0 && movements == old(movements) + after.1
    {
      var order := query(layers, item);
      if TotalRemaining(layers, order) < quantity {
        return false;
      }
      var remaining := quantity;
      var k := 0;
      ghost var moved: seq<Movement> := [];
      NoTurnYet(layers, order, lineId, quantity);
      while k < |order|
        invariant 0 <= k <= |order| && |layers| == |old(layers)|
        invariant movements == old(movements) + moved
        invariant Onwards(old(layers), order, lineId, quantity, layers, moved, k, remaining)
      {
        if remaining <= 0 {
          break;
        }
        var i := order[k];
        var take := Min(layers[i].remaining, remaining);
        OneTurn(old(layers), order, lineId, quantity, layers, moved, k, remaining);
        movements := movements + [Movement(i, lineId, take, layers[i].price)];
        moved := moved + [Movement(i, lineId, take, layers[i].price)];
        layers := layers[i := layers[i].(remaining := layers[i].remaining - take)];
        remaining := remaining - take;
        k := k + 1;
      }
      LastTurn(old(layers), order, lineId, quantity, layers, moved, k, remaining);
      return true;
    }
  }

  /** After `k` turns, with `moved` written, what is left of the walk completes the whole one. */
  ghost predicate Onwards(first: seq<Layer>, order: seq<nat>, line: nat, quantity: int,
                          layers: seq<Layer>, moved: seq<Movement>, k: nat, remaining: int)
  {
    && k <= |order| && |layers| == |first|
    && (forall j :: 0 <= j < |order| ==> order[j] < |first|)
    && var (all, rest) := (Consume(first, order, line, quantity), Consume(layers, order[k..], line, remaining));
       all.0 == rest.0 && all.1 == moved + rest.1
  }

  lemma NoTurnYet(first: seq<Layer>, order: seq<nat>, line: nat, quantity: int)
    requires forall j :: 0 <= j < |order| ==> order[j] < |first|
    ensures Onwards(first, order, line, quantity, first, [], 0, quantity)
  {
    assert order[0..] == order;
  }

  lemma LastTurn(first: seq<Layer>, order: seq<nat>, line: nat, quantity: int,
                 layers: seq<Layer>, moved: seq<Movement>, k: nat, remaining: int)
    requires Onwards(first, order, line, quantity, layers, moved, k, remaining) && (k == |order| || remaining <= 0)
    ensures Consume(first, order, line, quantity) == (layers, moved)
  {
    assert moved + [] == moved;
  }

  /** One turn of the issue loop. */
  lemma OneTurn(first: seq<Layer>, order: seq<nat>, line: nat, quantity: int,
                layers: seq<Layer>, moved: seq<Movement>, k: nat, remaining: int)
    requires Onwards(first, order, line, quantity, layers, moved, k, remaining) && k < |order| && remaining > 0
    ensures var i := order[k]; var take := Min(layers[i].remaining, remaining);
            Onwards(first, order, line, quantity, layers[i := layers[i].(remaining := layers[i].remaining - take)],
                    moved + [Movement(i, line, take, layers[i].price)], k + 1, remaining - take)
  {
    var i := order[k];
    var take := Min(layers[i].remaining, remaining);
    var movement := Movement(i, line, take, layers[i].price);
    var next := layers[i := layers[i].(remaining := layers[i].remaining - take)];
    assert order[k..][1..] == order[k + 1..];
    var rest := Consume(next, order[k + 1..], line, remaining - take).1;
    assert moved + ([movement] + rest) == moved + [movement] + rest;
  }
}
