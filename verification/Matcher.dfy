/** Scoring of a bank transaction against invoices. What the texts of the transfer show is input; the points,
    the thresholds, the ranking and the choice are modelled. Amounts are whole cents. */
module Matcher {
  import opened Prelude

  const AUTO_THRESHOLD := 75
  const REVIEW_THRESHOLD := 40

  /** What the title and the name of the transfer show about one invoice. */
  datatype Evidence = Evidence(exactNumber: bool, partNumber: bool, buyerNip: bool, sellerNip: bool, similarName: bool)

  /** An invoice offered to the matcher. */
  datatype Candidate = Candidate(invoice: nat, gross: int, evidence: Evidence)

  /** A scored candidate; `row` is its place in the listing. */
  datatype Scored = Scored(row: nat, score: int)

  function Distance(a: int, b: int): nat {
    if a < b then b - a else a - b
  }

  /** `|tx - gross| / gross <= 0.02`: a negative gross makes the quotient negative, hence always in tolerance. */
  predicate WithinTolerance(amount: int, gross: int) {
    gross < 0 || (gross > 0 && 100 * Distance(amount, gross) <= 2 * gross)
  }

  function TextPoints(e: Evidence): (p: int)
    ensures 0 <= p <= 70
  {
    (if e.exactNumber then 40 else if e.partNumber then 20 else 0)
    + (if e.buyerNip || e.sellerNip then 20 else 0)
    + (if e.similarName then 10 else 0)
  }

  function AmountPoints(amount: int, gross: int): int {
    if amount == gross then 30 else if WithinTolerance(amount, gross) then 15 else 0
  }

  function Score(amount: int, c: Candidate): (score: int)
    ensures 0 <= score <= 100
  {
    var points := TextPoints(c.evidence) + AmountPoints(amount, c.gross);
    if points > 100 then 100 else points
  }

  /** The points: 40 for the exact number or 20 for a part of it, 30 for the exact gross or 15 within two percent of
      it, 20 for one of the NIPs and 10 for a similar name, capped at 100. A negative gross is always within. */
  lemma ScoreIsPoints(amount: int, c: Candidate)
    ensures var e := c.evidence;
            var number := if e.exactNumber then 40 else if e.partNumber then 20 else 0;
            var money := if amount == c.gross then 30
                         else if c.gross < 0 || (c.gross > 0 && -2 * c.gross <= 100 * (amount - c.gross) <= 2 * c.gross)
                         then 15 else 0;
            var names := (if e.buyerNip || e.sellerNip then 20 else 0) + if e.similarName then 10 else 0;
            Score(amount, c) == if number + money + names <= 100 then number + money + names else 100
  {
  }

  // ---- Ranking ----

  /** The better score first; of equal scores the one listed first. */
  predicate Better(a: Scored, b: Scored) {
    a.score > b.score || (a.score == b.score && a.row < b.row)
  }

  predicate Ranked(cs: seq<Scored>) {
    forall i, j :: 0 <= i < j < |cs| ==> Better(cs[i], cs[j])
  }

  /** A stable sort by descending score, one element at a time. */
  function Insert(cs: seq<Scored>, c: Scored): seq<Scored> {
    if cs == [] || cs[|cs| - 1].score >= c.score then cs + [c]
    else Insert(cs[..|cs| - 1], c) + [cs[|cs| - 1]]
  }

  function SortByScore(cs: seq<Scored>): seq<Scored> {
    if cs == [] then [] else Insert(SortByScore(cs[..|cs| - 1]), cs[|cs| - 1])
  }

  lemma {:induction false} InsertKeeps(cs: seq<Scored>, c: Scored)
    ensures forall x :: x in Insert(cs, c) <==> x == c || x in cs
  {
    if cs == [] || cs[|cs| - 1].score >= c.score {
    } else {
      InsertKeeps(cs[..|cs| - 1], c);
      assert cs == cs[..|cs| - 1] + [cs[|cs| - 1]];
    }
  }

  lemma {:induction false} InsertRanks(cs: seq<Scored>, c: Scored)
    requires Ranked(cs) && forall x :: x in cs ==> x.row < c.row
    ensures Ranked(Insert(cs, c))
  {
    if cs == [] || cs[|cs| - 1].score >= c.score {
    } else {
      var init := cs[..|cs| - 1];
      InsertRanks(init, c);
      InsertKeeps(init, c);
      var r := Insert(init, c);
      forall i | 0 <= i < |r| ensures Better(r[i], cs[|cs| - 1]) {
        assert r[i] in r;
        if r[i] != c {
          var k :| 0 <= k < |init| && init[k] == r[i];
        }
      }
    }
  }

  lemma {:induction false} SortRanks(cs: seq<Scored>)
    requires forall i, j :: 0 <= i < j < |cs| ==> cs[i].row < cs[j].row
    ensures Ranked(SortByScore(cs)) && forall x :: x in SortByScore(cs) <==> x in cs
  {
    if cs != [] {
      var init := cs[..|cs| - 1];
      SortRanks(init);
      InsertKeeps(SortByScore(init), cs[|cs| - 1]);
      InsertRanks(SortByScore(init), cs[|cs| - 1]);
      assert cs == init + [cs[|cs| - 1]];
    }
  }

  // ---- Choice ----

  /** The candidates worth a review, in listing order. */
  function Scores(amount: int, offered: seq<Candidate>): seq<Scored> {
    if offered == [] then []
    else
      var n := |offered| - 1;
      var init := Scores(amount, offered[..n]);
      var score := Score(amount, offered[n]);
      if score >= REVIEW_THRESHOLD then init + [Scored(n, score)] else init
  }

  predicate Qualifies(amount: int, offered: seq<Candidate>, x: Scored) {
    x.row < |offered| && x.score == Score(amount, offered[x.row]) && x.score >= 40
  }

  lemma {:induction false} ScoresQualify(amount: int, offered: seq<Candidate>)
    ensures forall x :: x in Scores(amount, offered) <==> Qualifies(amount, offered, x)
    ensures forall i, j :: 0 <= i < j < |Scores(amount, offered)| ==>
              Scores(amount, offered)[i].row < Scores(amount, offered)[j].row
  {
    if offered != [] {
      var n := |offered| - 1;
      var init := Scores(amount, offered[..n]);
      ScoresQualify(amount, offered[..n]);
      forall x: Scored ensures x in Scores(amount, offered) <==> Qualifies(amount, offered, x) {
        assert x in init <==> Qualifies(amount, offered[..n], x);
        if x.row < n {
          assert offered[..n][x.row] == offered[x.row];
        }
      }
      forall i | 0 <= i < |init| ensures init[i].row < n {
        assert init[i] in init;
      }
    }
  }

  /** The candidates are exactly the offered invoices that reach 40 points, best first and in listing order
      among equals: one order only. */
  lemma CandidatesAreRanked(amount: int, offered: seq<Candidate>)
    ensures var ranked := SortByScore(Scores(amount, offered));
            Ranked(ranked) && forall x :: x in ranked <==> Qualifies(amount, offered, x)
  {
    ScoresQualify(amount, offered);
    SortRanks(Scores(amount, offered));
  }

  /** The decision of one matching run. */
  datatype Decision = Auto(row: nat) | Review | NoMatch

  function Decide(amount: int, offered: seq<Candidate>): Decision {
    var ranked := SortByScore(Scores(amount, offered));
    if ranked == [] then NoMatch
    else if ranked[0].score >= AUTO_THRESHOLD then Auto(ranked[0].row)
    else Review
  }

  predicate Wins(amount: int, offered: seq<Candidate>, row: nat) {
    && row < |offered|
    && Score(amount, offered[row]) >= 75
    && (forall k: nat :: k < |offered| ==>
          Score(amount, offered[k]) < Score(amount, offered[row])
          || (Score(amount, offered[k]) == Score(amount, offered[row]) && row <= k))
  }

  /** Automatic matching picks the best score of at least 75, and of several the first listed. It reviews
      exactly when nothing reaches 75 but something reaches 40. */
  lemma DecisionIsBest(amount: int, offered: seq<Candidate>)
    ensures forall row: nat :: Decide(amount, offered) == Auto(row) <==> Wins(amount, offered, row)
    ensures Decide(amount, offered) == Review
       <==> (&& (forall k :: 0 <= k < |offered| ==> Score(amount, offered[k]) < 75)
             && (exists k :: 0 <= k < |offered| && Score(amount, offered[k]) >= 40))
    ensures Decide(amount, offered) == NoMatch
            <==> forall k :: 0 <= k < |offered| ==> Score(amount, offered[k]) < 40
  {
    var ranked := SortByScore(Scores(amount, offered));
    CandidatesAreRanked(amount, offered);
    forall k | 0 <= k < |offered|
      ensures Score(amount, offered[k]) >= REVIEW_THRESHOLD ==> Scored(k, Score(amount, offered[k])) in ranked
    {
      assert Score(amount, offered[k]) >= REVIEW_THRESHOLD
             ==> Qualifies(amount, offered, Scored(k, Score(amount, offered[k])));
    }
    if ranked != [] {
      var top := ranked[0];
      assert top in ranked;
      forall k | 0 <= k < |offered|
        ensures Score(amount, offered[k]) < top.score || (Score(amount, offered[k]) == top.score && top.row <= k)
      {
        var score := Score(amount, offered[k]);
        if score >= REVIEW_THRESHOLD {
          var i :| 0 <= i < |ranked| && ranked[i] == Scored(k, score);
          assert i == 0 || Better(ranked[0], ranked[i]);
        }
      }
    }
  }

  /** The texts alone give at most 70 points, so an automatic match of a positive transfer to an invoice of
      positive gross is within two percent of that gross. */
  lemma AutoIsNearGross(amount: int, c: Candidate)
    requires amount > 0 && c.gross > 0 && Score(amount, c) >= AUTO_THRESHOLD
    ensures 98 * c.gross <= 100 * amount <= 102 * c.gross
  {
    assert TextPoints(c.evidence) <= 70;
    assert AmountPoints(amount, c.gross) > 0;
  }

  /** For a positive transfer: every automatic match is within two percent of the gross, whatever the texts show,
      if and only if the gross is not negative. For a negative gross the quotient is negative, so any transfer
      is in tolerance, and number, NIP and name lift it over the threshold. */
  lemma AutoIsNearIff(amount: int, gross: int, invoice: nat)
    requires amount > 0
    ensures (forall e: Evidence :: Score(amount, Candidate(invoice, gross, e)) >= AUTO_THRESHOLD ==>
               100 * Distance(amount, gross) <= 2 * (if gross < 0 then -gross else gross))
       <==> gross >= 0
  {
    if gross < 0 {
      assert Score(amount, Candidate(invoice, gross, EVERYTHING)) >= AUTO_THRESHOLD;
    } else {
      forall e: Evidence | Score(amount, Candidate(invoice, gross, e)) >= AUTO_THRESHOLD
        ensures 100 * Distance(amount, gross) <= 2 * gross
      {
        assert TextPoints(e) <= 70;
        assert AmountPoints(amount, gross) > 0;
      }
    }
  }

  /** A transfer whose texts show the number, the NIPs and the name. */
  const EVERYTHING := Evidence(true, true, true, true, true)

  const NOTHING := Evidence(false, false, false, false, false)

  /** The texts of the transfer point at the `i`-th invoice offered and at no other. */
  ghost predicate PointsAt(offered: seq<Candidate>, i: nat) {
    forall k :: 0 <= k < |offered| ==> offered[k].evidence == if k == i then EVERYTHING else NOTHING
  }

  /** An invoice of negative gross that the texts point at wins, whatever the amount. */
  lemma CorrectionWins(amount: int, offered: seq<Candidate>, i: nat)
    requires i < |offered| && offered[i].gross < 0 && PointsAt(offered, i)
    ensures Wins(amount, offered, i)
  {
    forall k: nat | k < |offered| && k != i ensures Score(amount, offered[k]) < Score(amount, offered[i]) {
      assert offered[k].evidence == NOTHING;
    }
  }

  // ---- As the code runs ----

  method ComputeScore(amount: int, c: Candidate) returns (score: int)
    ensures score == Score(amount, c)
  {
    score := 0;
    if c.evidence.exactNumber {
      score := score + 40;
    } else if c.evidence.partNumber {
      score := score + 20;
    }
    if amount == c.gross {
      score := score + 30;
    } else if c.gross != 0 && WithinTolerance(amount, c.gross) {
      score := score + 15;
    }
    if c.evidence.buyerNip {
      score := score + 20;
    } else if c.evidence.sellerNip {
      score := score + 20;
    }
    if c.evidence.similarName {
      score := score + 10;
    }
    if score > 100 {
      score := 100;
    }
  }

  method FindCandidates(amount: int, offered: seq<Candidate>) returns (ranked: seq<Scored>)
    ensures ranked == SortByScore(Scores(amount, offered))
    ensures Ranked(ranked) && forall x :: x in ranked <==> Qualifies(amount, offered, x)
  {
    var results: seq<Scored> := [];
    for i := 0 to |offered|
      invariant results == Scores(amount, offered[..i])
    {
      assert offered[..i + 1][..i] == offered[..i];
      var score := ComputeScore(amount, offered[i]);
      if score >= REVIEW_THRESHOLD {
        results := results + [Scored(i, score)];
      }
    }
    assert offered[..|offered|] == offered;
    ranked := SortByScore(results);
    CandidatesAreRanked(amount, offered);
  }

  method BestAuto(amount: int, offered: seq<Candidate>) returns (best: Option<nat>)
    ensures best == match Decide(amount, offered) case Auto(row) => Some(row) case _ => None
    ensures best.Some? ==> Wins(amount, offered, best.value)
    ensures best.None? ==> forall k :: 0 <= k < |offered| ==> Score(amount, offered[k]) < AUTO_THRESHOLD
  {
    var ranked := FindCandidates(amount, offered);
    DecisionIsBest(amount, offered);
    for i := 0 to |ranked|
      invariant forall j :: 0 <= j < i ==> ranked[j].score < AUTO_THRESHOLD
    {
      if ranked[i].score >= AUTO_THRESHOLD {
        return Some(ranked[i].row);
      }
    }
    return None;
  }
}
