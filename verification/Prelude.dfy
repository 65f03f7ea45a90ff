/** Shared result types and sums over sequences. */
module Prelude {

  datatype Option<+T> = None | Some(value: T)

  datatype Result<+T, +E> = Ok(value: T) | Err(error: E)

  /** The sum of `f` over the rows, oldest row first. */
  function Sum<T>(f: T -> int, rows: seq<T>): int {
    if rows == [] then 0 else Sum(f, rows[..|rows| - 1]) + f(rows[|rows| - 1])
  }

  lemma SumAppend<T>(f: T -> int, rows: seq<T>, row: T)
    ensures Sum(f, rows + [row]) == Sum(f, rows) + f(row)
  {
    assert (rows + [row])[..|rows|] == rows;
  }

  lemma {:induction false} SumConcat<T>(f: T -> int, a: seq<T>, b: seq<T>)
    ensures Sum(f, a + b) == Sum(f, a) + Sum(f, b)
    decreases |b|
  {
    if b == [] {
      assert a + b == a;
    } else {
      var init := b[..|b| - 1];
      SumConcat(f, a, init);
      assert a + b == (a + init) + [b[|b| - 1]];
      SumAppend(f, a + init, b[|b| - 1]);
    }
  }

  lemma SumHead<T>(f: T -> int, rows: seq<T>)
    requires rows != []
    ensures Sum(f, rows) == f(rows[0]) + Sum(f, rows[1..])
  {
    assert rows == [rows[0]] + rows[1..];
    SumConcat(f, [rows[0]], rows[1..]);
    assert Sum(f, [rows[0]]) == f(rows[0]);
  }

  lemma {:induction false} SumUpdate<T>(f: T -> int, rows: seq<T>, i: nat, row: T)
    requires i < |rows|
    ensures Sum(f, rows[i := row]) == Sum(f, rows) - f(rows[i]) + f(row)
  {
    var n := |rows| - 1;
    if i < n {
      assert rows[i := row][..n] == rows[..n][i := row];
      SumUpdate(f, rows[..n], i, row);
    } else {
      assert rows[i := row][..n] == rows[..n];
    }
  }

  /** Two sums that agree row by row. */
  lemma {:induction false} SumCongruent<T>(f: T -> int, g: T -> int, a: seq<T>, b: seq<T>)
    requires |a| == |b|
    requires forall i :: 0 <= i < |a| ==> f(a[i]) == g(b[i])
    ensures Sum(f, a) == Sum(g, b)
  {
    if a != [] {
      SumCongruent(f, g, a[..|a| - 1], b[..|b| - 1]);
    }
  }

  lemma {:induction false} SumNonNegative<T>(f: T -> int, rows: seq<T>)
    requires forall i :: 0 <= i < |rows| ==> 0 <= f(rows[i])
    ensures 0 <= Sum(f, rows)
    ensures forall i :: 0 <= i < |rows| ==> f(rows[i]) <= Sum(f, rows)
  {
    if rows != [] {
      SumNonNegative(f, rows[..|rows| - 1]);
      assert forall i :: 0 <= i < |rows| - 1 ==> rows[..|rows| - 1][i] == rows[i];
    }
  }

  lemma {:induction false} SumZero<T>(f: T -> int, rows: seq<T>)
    requires forall i :: 0 <= i < |rows| ==> f(rows[i]) == 0
    ensures Sum(f, rows) == 0
  {
    if rows != [] {
      SumZero(f, rows[..|rows| - 1]);
    }
  }

  lemma SplitAt<T>(b: seq<T>, k: nat)
    requires k < |b|
    ensures b == b[..k] + [b[k]] + b[k + 1..]
  {
  }

  lemma RemoveOne<T>(b: seq<T>, k: nat)
    requires k < |b|
    ensures multiset(b) == multiset(b[..k] + b[k + 1..]) + multiset{b[k]}
    ensures multiset(b[..k] + b[k + 1..]) == multiset(b) - multiset{b[k]}
  {
    SplitAt(b, k);
  }

  lemma SumAround<T>(f: T -> int, a: seq<T>, x: T, c: seq<T>)
    ensures Sum(f, a + [x] + c) == Sum(f, a + c) + f(x)
  {
    SumConcat(f, a + [x], c);
    SumAppend(f, a, x);
    SumConcat(f, a, c);
  }

  /** Taking one occurrence of the last row of `a` out of `b` leaves the other rows of `a`. */
  lemma MatchLast<T>(a: seq<T>, b: seq<T>) returns (k: nat)
    requires multiset(a) == multiset(b) && a != []
    ensures k < |b| && b[k] == a[|a| - 1]
    ensures multiset(a[..|a| - 1]) == multiset(b[..k] + b[k + 1..])
  {
    var n := |a| - 1;
    assert a == a[..n] + [a[n]];
    assert a[n] in multiset(b);
    k :| 0 <= k < |b| && b[k] == a[n];
    RemoveOne(b, k);
  }

  /** A sum does not depend on the order of the rows. */
  lemma {:induction false} SumPermutation<T>(f: T -> int, a: seq<T>, b: seq<T>)
    requires multiset(a) == multiset(b)
    ensures Sum(f, a) == Sum(f, b)
    decreases |a|
  {
    if a == [] {
      assert |multiset(b)| == 0;
    } else {
      var k := MatchLast(a, b);
      SumPermutation(f, a[..|a| - 1], b[..k] + b[k + 1..]);
      SplitAt(b, k);
      SumAround(f, b[..k], b[k], b[k + 1..]);
    }
  }
}
