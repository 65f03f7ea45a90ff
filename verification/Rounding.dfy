/** Rounding of a quotient to an integer: ROUND_HALF_UP as the invoice builder uses it, and ROUND_HALF_EVEN,
    the default of decimal arithmetic, as the parser and the text formatter use it. */
module Rounding {

  /** Rounds `n / d` to the nearest integer; a tie goes away from zero. */
  function HalfUp(n: int, d: int): int
    requires d > 0
  {
    if n < 0 then -((-2 * n + d) / (2 * d)) else (2 * n + d) / (2 * d)
  }

  /** Rounds `n / d` to the nearest integer; a tie goes to the even neighbour. */
  function HalfEven(n: int, d: int): int
    requires d > 0
  {
    if n < 0 then -EvenOf(-n, d) else EvenOf(n, d)
  }

  function EvenOf(n: nat, d: int): int
    requires d > 0
  {
    var q, r := n / d, n % d;
    if 2 * r < d || (2 * r == d && q % 2 == 0) then q else q + 1
  }

  predicate Tie(n: int, d: int)
    requires d > 0
  {
    2 * (n % d) == d
  }

  /** `r` is at most half a unit away from `n / d`. */
  predicate Nearest(n: int, d: int, r: int)
    requires d > 0
  {
    -d <= 2 * (r * d - n) <= d
  }

  lemma DivisionBounds(n: int, d: int)
    requires d > 0
    ensures n / d * d <= n < n / d * d + d
    ensures n / d * d + n % d == n
  {
  }

  lemma Steps(p: int, q: int, d: int)
    requires d > 0
    requires p < q
    ensures p * d + d <= q * d
  {
    var k: nat := q - p - 1;
    assert k * d >= 0;
    assert q * d == (p + 1 + k) * d == p * d + d + k * d;
  }

  /** An integer quotient is fixed by the bounds it meets. */
  lemma QuotientIs(n: int, d: int, q: int)
    requires d > 0
    requires q * d <= n < q * d + d
    ensures n / d == q
  {
    DivisionBounds(n, d);
    var p := n / d;
    if p < q {
      Steps(p, q, d);
    } else if p > q {
      Steps(q, p, d);
    }
  }

  /** HALF_UP of a non-negative quotient: the lower neighbour below one half, the upper from one half on. */
  lemma HalfUpByRemainder(n: nat, d: int)
    requires d > 0
    ensures HalfUp(n, d) == n / d + if 2 * (n % d) < d then 0 else 1
  {
    DivisionBounds(n, d);
    var q, r := n / d, n % d;
    assert 2 * n + d == q * (2 * d) + (2 * r + d);
    if 2 * r < d {
      QuotientIs(2 * n + d, 2 * d, q);
    } else {
      assert (q + 1) * (2 * d) == q * (2 * d) + 2 * d;
      QuotientIs(2 * n + d, 2 * d, q + 1);
    }
  }

  /** Both roundings give a nearest integer; they differ exactly on a tie whose lower neighbour is even, and
      then by one. */
  lemma RoundingsCompared(n: nat, d: int)
    requires d > 0
    ensures Nearest(n, d, HalfUp(n, d)) && Nearest(n, d, HalfEven(n, d))
    ensures 0 <= HalfEven(n, d)
    ensures HalfUp(n, d) - HalfEven(n, d) == if Tie(n, d) && (n / d) % 2 == 0 then 1 else 0
  {
    HalfUpByRemainder(n, d);
    DivisionBounds(n, d);
    var q, r := n / d, n % d;
    assert (q + 1) * d == q * d + d;
  }

  /** A whole quotient is not changed. */
  lemma ExactStays(k: nat, d: int)
    requires d > 0
    ensures HalfUp(k * d, d) == k == HalfEven(k * d, d)
  {
    QuotientIs(k * d, d, k);
    DivisionBounds(k * d, d);
    HalfUpByRemainder(k * d, d);
  }

  /** Rounding to even gives back the quotient exactly when the quotient is whole. */
  lemma ExactOnly(n: nat, d: int)
    requires d > 0
    ensures HalfEven(n, d) * d == n <==> n % d == 0
  {
    DivisionBounds(n, d);
    if n % d == 0 {
      ExactStays(n / d, d);
    } else if HalfEven(n, d) * d == n {
      QuotientIs(n, d, HalfEven(n, d));
    }
  }

  /** `r` is less than half a unit away from `n / d`, or just half a unit and even. */
  predicate NearestEven(n: int, d: int, r: int) {
    -d < 2 * (r * d - n) < d || ((2 * (r * d - n) == d || 2 * (n - r * d) == d) && r % 2 == 0)
  }

  /** HALF_EVEN of any quotient, negative ones included: the nearest integer, the even one on a tie. No other integer
      meets these bounds. */
  lemma HalfEvenIsTheNearest(n: int, d: int, r: int)
    requires d > 0
    ensures r == HalfEven(n, d) <==> NearestEven(n, d, r)
  {
    if n < 0 {
      EvenIsTheNearest(-n, d, -r);
      Negated(r, d);
    } else {
      EvenIsTheNearest(n, d, r);
    }
  }

  lemma Negated(r: int, d: int)
    ensures (-r) * d == -(r * d)
  {
  }

  /** Only the two neighbours of the quotient are less than a unit away. */
  lemma OthersAreFar(n: int, d: int, q: int, r: int)
    requires d > 0
    requires q * d <= n < q * d + d
    requires r < q || r > q + 1
    ensures r * d - n <= -d || r * d - n > d
  {
    if r < q {
      Steps(r, q, d);
    } else {
      Steps(q + 1, r, d);
      assert (q + 1) * d == q * d + d;
    }
  }

  lemma EvenIsTheNearest(n: nat, d: int, r: int)
    requires d > 0
    ensures r == EvenOf(n, d) <==> NearestEven(n, d, r)
  {
    DivisionBounds(n, d);
    var q, m := n / d, n % d;
    if r == q {
      assert r * d - n == -m;
    } else if r == q + 1 {
      assert r * d - n == d - m;
    } else {
      OthersAreFar(n, d, q, r);
    }
  }

  /** HALF_UP of any quotient: the nearest integer, the one away from zero on a tie. No other integer meets these
      bounds. */
  lemma HalfUpIsTheNearest(n: int, d: int, r: int)
    requires d > 0
    ensures r == HalfUp(n, d)
       <==> -d < 2 * (n - r * d) < d || (n >= 0 && 2 * (r * d - n) == d) || (n < 0 && 2 * (n - r * d) == d)
  {
    if n < 0 {
      UpIsTheNearest(-n, d, -r);
      Negated(r, d);
      assert HalfUp(n, d) == -HalfUp(-n, d);
    } else {
      UpIsTheNearest(n, d, r);
    }
  }

  lemma UpIsTheNearest(n: nat, d: int, r: int)
    requires d > 0
    ensures r == HalfUp(n, d) <==> -d < 2 * (n - r * d) < d || 2 * (r * d - n) == d
  {
    HalfUpByRemainder(n, d);
    DivisionBounds(n, d);
    var q, m := n / d, n % d;
    if r == q {
      assert r * d - n == -m;
    } else if r == q + 1 {
      assert r * d - n == d - m;
    } else {
      OthersAreFar(n, d, q, r);
    }
  }
}
