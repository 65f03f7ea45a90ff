/** Invariants of every reachable state of the warehouse, over any run of create, update, cancel and post
    calls, failed ones included. */
module WarehouseInvariants {
  import opened Prelude
  import opened Layers
  import opened Stock
  import opened Numbering
  import opened Warehouse
  import opened WarehouseLedger

  // ---- Posting all lines of a document ----

  ghost predicate LinesReady(t: DocType, g: Ledger, lines: seq<Line>) {
    && (forall i :: 0 <= i < |lines| ==> LineValid(t, lines[i]) && Untouched(g, lines[i].id))
    && (forall i, j :: 0 <= i < j < |lines| ==> lines[i].id != lines[j].id)
  }

  ghost predicate NotAmong(lines: seq<Line>, id: nat) {
    forall i :: 0 <= i < |lines| ==> lines[i].id != id
  }

  /** The first line posts, and leaves the others ready. */
  lemma FirstLine(t: DocType, g: Ledger, lines: seq<Line>, clock: Clock, query: FifoQuery) returns (h: Ledger)
    requires LedgerOk(g) && LinesReady(t, g, lines) && lines != []
    requires PostLines(t, g, lines, clock, query).Ok?
    ensures PostLine(t, g, lines[0], clock, query) == Ok(h)
    ensures PostLines(t, g, lines, clock, query) == PostLines(t, h, lines[1..], clock, query)
    ensures LedgerOk(h) && Extends(g, h, lines[0].id) && Traced(h, t, lines[0]) && LinesReady(t, h, lines[1..])
  {
    h := PostLine(t, g, lines[0], clock, query).value;
    PostLineEffect(t, g, lines[0], clock, query);
    forall i | 1 <= i < |lines| ensures Untouched(h, lines[i].id) {
      OthersKept(g, h, lines[0].id, t, lines[i]);
    }
  }

  lemma {:induction false} PostLinesOthers(t: DocType, g: Ledger, lines: seq<Line>, clock: Clock, query: FifoQuery,
                                           u: DocType, other: Line)
    requires LedgerOk(g) && LinesReady(t, g, lines) && PostLines(t, g, lines, clock, query).Ok?
    requires NotAmong(lines, other.id)
    ensures var h := PostLines(t, g, lines, clock, query).value;
            && (Untouched(g, other.id) ==> Untouched(h, other.id))
            && (Traced(g, u, other) ==> Traced(h, u, other))
    decreases |lines|
  {
    if lines != [] {
      var h := FirstLine(t, g, lines, clock, query);
      OthersKept(g, h, lines[0].id, u, other);
      PostLinesOthers(t, h, lines[1..], clock, query, u, other);
    }
  }

  lemma AllTraced(g: Ledger, t: DocType, lines: seq<Line>)
    requires lines != [] && Traced(g, t, lines[0])
    requires forall i :: 0 <= i < |lines[1..]| ==> Traced(g, t, lines[1..][i])
    ensures forall i :: 0 <= i < |lines| ==> Traced(g, t, lines[i])
  {
    forall i | 1 <= i < |lines| ensures Traced(g, t, lines[i]) {
      assert lines[1..][i - 1] == lines[i];
    }
  }

  lemma {:induction false} PostLinesEffect(t: DocType, g: Ledger, lines: seq<Line>, clock: Clock, query: FifoQuery)
    requires LedgerOk(g) && LinesReady(t, g, lines) && PostLines(t, g, lines, clock, query).Ok?
    ensures var h := PostLines(t, g, lines, clock, query).value;
            LedgerOk(h) && forall i :: 0 <= i < |lines| ==> Traced(h, t, lines[i])
    decreases |lines|
  {
    if lines != [] {
      var h := FirstLine(t, g, lines, clock, query);
      PostLinesEffect(t, h, lines[1..], clock, query);
      PostLinesOthers(t, h, lines[1..], clock, query, t, lines[0]);
      AllTraced(PostLines(t, h, lines[1..], clock, query).value, t, lines);
    }
  }

  // ---- Line identities ----

  ghost predicate RowsBelow(g: Ledger, bound: nat) {
    && (forall i :: 0 <= i < |g.layers| ==> g.layers[i].line < bound)
    && (forall m :: 0 <= m < |g.movements| ==> g.movements[m].line < bound)
  }

  lemma {:induction false} PostLinesBelow(t: DocType, g: Ledger, lines: seq<Line>, clock: Clock, query: FifoQuery,
                                          bound: nat)
    requires LedgerOk(g) && LinesReady(t, g, lines) && PostLines(t, g, lines, clock, query).Ok?
    requires RowsBelow(g, bound) && forall i :: 0 <= i < |lines| ==> lines[i].id < bound
    ensures RowsBelow(PostLines(t, g, lines, clock, query).value, bound)
    decreases |lines|
  {
    if lines != [] {
      var h := FirstLine(t, g, lines, clock, query);
      forall i | 0 <= i < |h.layers| ensures h.layers[i].line < bound {
        if i < |g.layers| { assert Drawn(g.layers[i], h.layers[i]); }
      }
      forall m | 0 <= m < |h.movements| ensures h.movements[m].line < bound {
        if m < |g.movements| { assert h.movements[m] == h.movements[..|g.movements|][m]; }
      }
      PostLinesBelow(t, h, lines[1..], clock, query, bound);
    }
  }

  ghost predicate IdsBelow(s: State) {
    forall d, i :: 0 <= d < |s.docs| && 0 <= i < |s.docs[d].lines| ==> s.docs[d].lines[i].id < s.nextLine
  }

  ghost predicate IdsDistinct(docs: seq<Doc>) {
    forall d, i, e, j ::
      (0 <= d < |docs| && 0 <= i < |docs[d].lines| && 0 <= e < |docs| && 0 <= j < |docs[e].lines|
       && docs[d].lines[i].id == docs[e].lines[j].id)
      ==> d == e && i == j
  }

  ghost predicate DocOk(g: Ledger, doc: Doc) {
    && doc.lines != []
    && (forall i :: 0 <= i < |doc.lines| ==> LineValid(doc.docType, doc.lines[i]))
    && (forall i :: 0 <= i < |doc.lines| ==>
          if doc.status == Posted then Traced(g, doc.docType, doc.lines[i]) else Untouched(g, doc.lines[i].id))
  }

  /** A posted document's lines are all traced in the ledger, any other document's lines have left none. */
  ghost predicate LinesOk(s: State) {
    && IdsBelow(s) && IdsDistinct(s.docs) && RowsBelow(s.ledger, s.nextLine)
    && (forall d :: 0 <= d < |s.docs| ==> DocOk(s.ledger, s.docs[d]))
  }

  // ---- The invariant over runs ----

  ghost predicate Inv(s: State) {
    LedgerOk(s.ledger) && LinesOk(s)
  }

  lemma FreshLines(s: State, raws: seq<RawLine>, t: DocType)
    requires Inv(s) && ItemsOk(t, raws) && raws != []
    ensures var lines := BuildLines(raws, s.nextLine);
            && LinesReady(t, s.ledger, lines) && lines != []
            && (forall i :: 0 <= i < |lines| ==> s.nextLine <= lines[i].id < s.nextLine + |raws|)
  {
    var lines := BuildLines(raws, s.nextLine);
    forall i | 0 <= i < |lines| ensures LineValid(t, lines[i]) && Untouched(s.ledger, lines[i].id) {
      assert lines[i] == BuildLine(raws[i], s.nextLine + i);
      assert RawLineOk(t, raws[i]);
    }
  }

  /** Putting fresh lines into document `d` (a new one, or a draft being edited). */
  lemma PlaceDoc(s: State, d: nat, doc: Doc, raws: seq<RawLine>)
    requires Inv(s) && d <= |s.docs| && doc.status == Draft
    requires ItemsOk(doc.docType, raws) && raws != [] && doc.lines == BuildLines(raws, s.nextLine)
    ensures var docs := if d == |s.docs| then s.docs + [doc] else s.docs[d := doc];
            Inv(s.(docs := docs, nextLine := s.nextLine + |raws|))
  {
    FreshLines(s, raws, doc.docType);
    var docs := if d == |s.docs| then s.docs + [doc] else s.docs[d := doc];
    var s' := s.(docs := docs, nextLine := s.nextLine + |raws|);
    assert forall e :: 0 <= e < |docs| ==> docs[e] == if e == d then doc else s.docs[e];
    assert DocOk(s'.ledger, doc);
  }

  /** Posting the lines of one document leaves the traces of another as they were. */
  lemma OtherDocKept(s: State, id: nat, d: nat, clock: Clock, query: FifoQuery)
    requires Inv(s) && id < |s.docs| && d < |s.docs| && d != id
    requires LinesReady(s.docs[id].docType, s.ledger, s.docs[id].lines)
    requires PostLines(s.docs[id].docType, s.ledger, s.docs[id].lines, clock, query).Ok?
    ensures DocOk(PostLines(s.docs[id].docType, s.ledger, s.docs[id].lines, clock, query).value, s.docs[d])
  {
    var doc, other := s.docs[id], s.docs[d];
    assert DocOk(s.ledger, other);
    forall i | 0 <= i < |other.lines|
      ensures var h := PostLines(doc.docType, s.ledger, doc.lines, clock, query).value;
              && (Untouched(s.ledger, other.lines[i].id) ==> Untouched(h, other.lines[i].id))
              && (Traced(s.ledger, other.docType, other.lines[i]) ==> Traced(h, other.docType, other.lines[i]))
    {
      assert NotAmong(doc.lines, other.lines[i].id);
      PostLinesOthers(doc.docType, s.ledger, doc.lines, clock, query, other.docType, other.lines[i]);
    }
  }

  lemma SameLinesSameIds(s: State, s': State)
    requires IdsBelow(s) && IdsDistinct(s.docs) && s'.nextLine == s.nextLine && |s'.docs| == |s.docs|
    requires forall d :: 0 <= d < |s.docs| ==> s'.docs[d].lines == s.docs[d].lines
    ensures IdsBelow(s') && IdsDistinct(s'.docs)
  {
  }

  lemma DraftIsReady(s: State, id: nat)
    requires Inv(s) && id < |s.docs| && s.docs[id].status == Draft
    ensures LinesReady(s.docs[id].docType, s.ledger, s.docs[id].lines)
  {
    assert DocOk(s.ledger, s.docs[id]);
  }

  lemma PostKeeps(s: State, id: nat, clock: Clock, query: FifoQuery)
    requires Inv(s) && Post(s, id, clock, query).Ok?
    ensures Inv(Post(s, id, clock, query).value)
  {
    var s' := Post(s, id, clock, query).value;
    if s.docs[id].status == Draft {
      var doc := s.docs[id];
      DraftIsReady(s, id);
      PostLinesEffect(doc.docType, s.ledger, doc.lines, clock, query);
      PostLinesBelow(doc.docType, s.ledger, doc.lines, clock, query, s.nextLine);
      SameLinesSameIds(s, s');
      PostedDocs(s, id, clock, query);
    }
  }

  lemma PostedDocs(s: State, id: nat, clock: Clock, query: FifoQuery)
    requires Inv(s) && Post(s, id, clock, query).Ok? && s.docs[id].status == Draft
    ensures var s' := Post(s, id, clock, query).value; forall d :: 0 <= d < |s'.docs| ==> DocOk(s'.ledger, s'.docs[d])
  {
    var s', doc := Post(s, id, clock, query).value, s.docs[id];
    DraftIsReady(s, id);
    forall d | 0 <= d < |s.docs| ensures DocOk(s'.ledger, s'.docs[d]) {
      if d == id {
        PostLinesEffect(doc.docType, s.ledger, doc.lines, clock, query);
      } else {
        OtherDocKept(s, id, d, clock, query);
      }
    }
  }

  lemma CreateKeeps(s: State, body: Body)
    requires Inv(s) && Create(s, body).Ok?
    ensures Inv(Create(s, body).value)
  {
    PlaceDoc(s, |s.docs|, Create(s, body).value.docs[|s.docs|], body.lines);
  }

  lemma UpdateKeeps(s: State, id: nat, body: Body)
    requires Inv(s) && Update(s, id, body).Ok?
    ensures Inv(Update(s, id, body).value)
  {
    PlaceDoc(s, id, Update(s, id, body).value.docs[id], body.lines);
  }

  lemma CancelKeeps(s: State, id: nat)
    requires Inv(s) && Cancel(s, id).Ok?
    ensures Inv(Cancel(s, id).value)
  {
    assert forall d :: 0 <= d < |s.docs| ==> DocOk(s.ledger, s.docs[d]);
  }

  lemma StepKeeps(s: State, op: Op)
    requires Inv(s)
    ensures Inv(Step(s, op))
  {
    if Call(s, op).Ok? {
      match op
      case CreateOp(body) => CreateKeeps(s, body);
      case UpdateOp(id, body) => UpdateKeeps(s, id, body);
      case CancelOp(id) => CancelKeeps(s, id);
      case PostOp(id, clock, query) => PostKeeps(s, id, clock, query);
    }
  }

  lemma {:induction false} Reachable(ops: seq<Op>)
    ensures Inv(Run(ops))
    decreases |ops|
  {
    if ops == [] {
      assert forall item: nat :: OnHand([], item) == 0;
    } else {
      Reachable(ops[..|ops| - 1]);
      StepKeeps(Run(ops[..|ops| - 1]), ops[|ops| - 1]);
    }
  }
}
