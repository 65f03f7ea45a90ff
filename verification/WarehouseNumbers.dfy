/** Gapless numbering over every run, and the migration that rebuilds the counters from the numbers. */
module WarehouseNumbers {
  import opened Prelude
  import opened Text
  import opened Numbering
  import opened Warehouse

  ghost predicate Numbered(doc: Doc, t: DocType, year: nat, k: nat) {
    doc.status == Posted && doc.docType == t && doc.number == Some(FormatNumber(t, year, k))
  }

  ghost predicate CarriesNumber(s: State, doc: Doc) {
    exists year: nat, k: nat :: Numbered(doc, doc.docType, year, k) && 1 <= k <= LastNumber(s, doc.docType, year)
  }

  ghost predicate NumberGiven(s: State, t: DocType, year: nat, k: nat) {
    exists d :: 0 <= d < |s.docs| && Numbered(s.docs[d], t, year, k)
  }

  /** The posted documents, and only they, carry numbers; each number lies in 1..last of its type and year,
      each of 1..last is given, and none twice. */
  ghost predicate Gapless(s: State) {
    && (forall d :: 0 <= d < |s.docs| ==> (s.docs[d].number.Some? <==> s.docs[d].status == Posted))
    && (forall d :: 0 <= d < |s.docs| && s.docs[d].status == Posted ==> CarriesNumber(s, s.docs[d]))
    && (forall t, year: nat, k: nat :: 1 <= k <= LastNumber(s, t, year) ==> NumberGiven(s, t, year, k))
    && (forall d, e :: 0 <= d < e < |s.docs| && s.docs[d].number.Some? ==> s.docs[d].number != s.docs[e].number)
  }

  /** Replacing or adding a document that is not posted. */
  lemma UnpostedKeeps(s: State, s': State, d: nat)
    requires Gapless(s) && d <= |s.docs| && s'.lastNumber == s.lastNumber
    requires d < |s.docs| ==> s.docs[d].status != Posted
    requires |s'.docs| == if d == |s.docs| then |s.docs| + 1 else |s.docs|
    requires forall e :: 0 <= e < |s.docs| && e != d ==> s'.docs[e] == s.docs[e]
    requires s'.docs[d].status != Posted && s'.docs[d].number == None
    ensures Gapless(s')
  {
    forall e | 0 <= e < |s'.docs| && s'.docs[e].status == Posted ensures CarriesNumber(s', s'.docs[e]) {
      assert CarriesNumber(s, s.docs[e]);
      var year: nat, k: nat :| Numbered(s.docs[e], s.docs[e].docType, year, k)
          && 1 <= k <= LastNumber(s, s.docs[e].docType, year);
      assert Numbered(s'.docs[e], s'.docs[e].docType, year, k);
    }
    forall t, year: nat, k: nat | 1 <= k <= LastNumber(s', t, year) ensures NumberGiven(s', t, year, k) {
      assert NumberGiven(s, t, year, k);
      var e :| 0 <= e < |s.docs| && Numbered(s.docs[e], t, year, k);
      assert Numbered(s'.docs[e], t, year, k);
    }
  }

  lemma PostNumbers(s: State, id: nat, year: nat, doc: Doc, s': State)
    requires Gapless(s) && id < |s.docs| && s.docs[id].status == Draft
    requires var k := LastNumber(s, doc.docType, year) + 1;
             && Numbered(doc, doc.docType, year, k)
             && s'.docs == s.docs[id := doc]
             && s'.lastNumber == s.lastNumber[(doc.docType, year) := k]
    ensures Gapless(s')
  {
    var t, k := doc.docType, LastNumber(s, doc.docType, year) + 1;
    forall e | 0 <= e < |s.docs| && e != id && s.docs[e].status == Posted
      ensures CarriesNumber(s', s'.docs[e]) && s.docs[e].number != doc.number
    {
      assert CarriesNumber(s, s.docs[e]);
      var y: nat, j: nat :| Numbered(s.docs[e], s.docs[e].docType, y, j)
          && 1 <= j <= LastNumber(s, s.docs[e].docType, y);
      assert Numbered(s'.docs[e], s'.docs[e].docType, y, j);
      if s.docs[e].number == doc.number {
        FormatInjective(s.docs[e].docType, y, j, t, year, k);
      }
    }
    assert Numbered(s'.docs[id], t, year, k);
    forall u, y: nat, j: nat | 1 <= j <= LastNumber(s', u, y) ensures NumberGiven(s', u, y, j) {
      if u == t && y == year && j == k {
        assert Numbered(s'.docs[id], u, y, j);
      } else {
        assert NumberGiven(s, u, y, j);
        var e :| 0 <= e < |s.docs| && Numbered(s.docs[e], u, y, j);
        assert Numbered(s'.docs[e], u, y, j);
      }
    }
  }

  lemma StepGapless(s: State, op: Op)
    requires Gapless(s)
    ensures Gapless(Step(s, op))
  {
    if Call(s, op).Ok? {
      var s' := Step(s, op);
      match op
      case CreateOp(body) => UnpostedKeeps(s, s', |s.docs|);
      case UpdateOp(id, body) => UnpostedKeeps(s, s', id);
      case CancelOp(id) => if s.docs[id].status == Draft { UnpostedKeeps(s, s', id); }
      case PostOp(id, clock, query) =>
        if s.docs[id].status == Draft { PostNumbers(s, id, clock.year, s'.docs[id], s'); }
    }
  }

  /** In every reachable state, whatever posts failed in between, the posted documents of a type and year
      carry exactly the numbers 1..last, once each. */
  lemma {:induction false} NumbersAreGapless(ops: seq<Op>)
    ensures Gapless(Run(ops))
    decreases |ops|
  {
    if ops != [] {
      NumbersAreGapless(ops[..|ops| - 1]);
      StepGapless(Run(ops[..|ops| - 1]), ops[|ops| - 1]);
    }
  }

  // ---- The migration ----

  predicate InGroup(doc: Doc, code: string, year: string) {
    doc.number.Some? && MatchesPattern(doc.number.value) && Part1(doc.number.value) == code
        && Part2(doc.number.value) == year
  }

  /** The migration's `MAX(...) GROUP BY type, year` over the numbers, 0 standing for no row. */
  function Rederived(docs: seq<Doc>, code: string, year: string): nat {
    if docs == [] then 0
    else
      var rest := Rederived(docs[..|docs| - 1], code, year);
      var number := docs[|docs| - 1].number;
      if InGroup(docs[|docs| - 1], code, year) && Value(Part3(number.value)) > rest
      then Value(Part3(number.value)) else rest
  }

  lemma {:induction false} RederivedIsMax(docs: seq<Doc>, code: string, year: string)
    ensures forall d :: 0 <= d < |docs| && InGroup(docs[d], code, year) ==>
              Value(Part3(docs[d].number.value)) <= Rederived(docs, code, year)
    ensures Rederived(docs, code, year) == 0
            || exists d :: 0 <= d < |docs| && InGroup(docs[d], code, year)
                && Value(Part3(docs[d].number.value)) == Rederived(docs, code, year)
  {
    if docs != [] {
      var init := docs[..|docs| - 1];
      RederivedIsMax(init, code, year);
      assert forall d :: 0 <= d < |init| ==> init[d] == docs[d];
      if Rederived(docs, code, year) == Rederived(init, code, year) != 0 {
        var d :| 0 <= d < |init| && InGroup(init[d], code, year)
            && Value(Part3(init[d].number.value)) == Rederived(init, code, year);
        assert InGroup(docs[d], code, year);
      }
    }
  }

  /** A number of the group is one the counter has reached. */
  lemma GroupIsBounded(s: State, t: DocType, year: nat, d: nat)
    requires Gapless(s) && d < |s.docs| && InGroup(s.docs[d], Code(t), Digits(year))
    ensures |Digits(year)| == 4 && Value(Part3(s.docs[d].number.value)) <= LastNumber(s, t, year)
  {
    var doc := s.docs[d];
    assert CarriesNumber(s, doc);
    var y: nat, k: nat :| Numbered(doc, doc.docType, y, k) && 1 <= k <= LastNumber(s, doc.docType, y);
    FormatSplits(doc.docType, y, k);
    DigitsReadBack(y);
    DigitsReadBack(year);
    CodeInjective(doc.docType, t);
  }

  /** The counter's last number is in the group. */
  lemma LastIsInGroup(s: State, t: DocType, year: nat) returns (d: nat)
    requires Gapless(s) && |Digits(year)| == 4 && 1 <= LastNumber(s, t, year)
    ensures d < |s.docs| && InGroup(s.docs[d], Code(t), Digits(year))
    ensures Value(Part3(s.docs[d].number.value)) == LastNumber(s, t, year)
  {
    var last := LastNumber(s, t, year);
    assert NumberGiven(s, t, year, last);
    d :| 0 <= d < |s.docs| && Numbered(s.docs[d], t, year, last);
    FormatSplits(t, year, last);
    FormatMatches(t, year, last);
  }

  /** Rebuilding the counters from the stored numbers gives back the live counters for every four-digit year,
      and finds nothing for any other year. */
  lemma MigrationRebuildsCounters(ops: seq<Op>, t: DocType, year: nat)
    ensures Rederived(Run(ops).docs, Code(t), Digits(year))
            == if 1000 <= year <= 9999 then LastNumber(Run(ops), t, year) else 0
  {
    var s := Run(ops);
    FourDigits(year);
    NumbersAreGapless(ops);
    RederivedIsMax(s.docs, Code(t), Digits(year));
    if Rederived(s.docs, Code(t), Digits(year)) != 0 {
      var d :| 0 <= d < |s.docs| && InGroup(s.docs[d], Code(t), Digits(year))
        && Value(Part3(s.docs[d].number.value)) == Rederived(s.docs, Code(t), Digits(year));
      GroupIsBounded(s, t, year, d);
    }
    if |Digits(year)| == 4 && 1 <= LastNumber(s, t, year) {
      var d := LastIsInGroup(s, t, year);
    }
  }

  lemma CodeInjective(t: DocType, u: DocType)
    ensures Code(t) == Code(u) ==> t == u
  {
    assert |Code(TRANSFER)| == 8;
    assert Code(PZ)[0] == 'P' && Code(WZ)[0] == 'W' && Code(KK)[0] == 'K';
  }
}
