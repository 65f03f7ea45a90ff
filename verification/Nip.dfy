/** The NIP tax number and its check digit, as the invoice and the contractor service validate it. */
module Nip {
  import opened Text
  import Decimals

  const WEIGHTS: seq<nat> := [6, 5, 7, 2, 3, 4, 5, 6, 7]

  function Weighted(s: string, n: nat): nat
    requires AllDigits(s) && n <= |s| && n <= 9
  {
    if n == 0 then 0 else Weighted(s, n - 1) + DigitValue(s[n - 1]) * WEIGHTS[n - 1]
  }

  function Without(s: string, c: char): string {
    if s == "" then "" else Without(s[..|s| - 1], c) + if s[|s| - 1] == c then "" else [s[|s| - 1]]
  }

  /** `_is_valid_nip` of the invoice. */
  predicate InvoiceAccepts(nip: string) {
    var s := Without(Without(Decimals.Strip(nip), '-'), ' ');
    AllDigits(s) && |s| == 10 && Weighted(s, 9) % 11 == DigitValue(s[9])
  }

  /** `_validate_nip` of the contractor service. */
  predicate ContractorAccepts(nip: string) {
    && |nip| == 10 && AllDigits(nip)
    && (var checksum := Weighted(nip, 9) % 11; checksum != 10 && checksum == DigitValue(nip[9]))
  }

  predicate TenDigits(s: string) {
    |s| == 10 && AllDigits(s)
  }

  /** Removing a character keeps all others, in order. */
  lemma {:induction false} WithoutIs(a: string, b: string, c: char)
    ensures Without(a + b, c) == Without(a, c) + Without(b, c) && c !in Without(a, c)
    ensures Without([c], c) == "" && forall d: char :: d != c ==> Without([d], c) == [d]
    decreases |b|
  {
    if b == "" {
      assert a + b == a;
      NothingLeft(a, c);
    } else {
      assert (a + b)[..|a + b| - 1] == a + b[..|b| - 1];
      WithoutIs(a, b[..|b| - 1], c);
    }
    forall d: char | d != c ensures Without([d], c) == [d] {
      assert [d][..0] == "";
    }
    assert [c][..0] == "";
  }

  lemma {:induction false} NothingLeft(s: string, c: char)
    ensures c !in Without(s, c)
  {
    if s != "" {
      NothingLeft(s[..|s| - 1], c);
    }
  }

  /** The check digit is the weighted sum of the first nine digits, with the weights 6, 5, 7, 2, 3, 4, 5, 6 and 7,
      modulo eleven. */
  function CheckSum(s: string): nat
    requires TenDigits(s)
  {
    6 * DigitValue(s[0]) + 5 * DigitValue(s[1]) + 7 * DigitValue(s[2]) + 2 * DigitValue(s[3]) + 3 * DigitValue(s[4])
    + 4 * DigitValue(s[5]) + 5 * DigitValue(s[6]) + 6 * DigitValue(s[7]) + 7 * DigitValue(s[8])
  }

  lemma WeightedIs(s: string)
    requires TenDigits(s)
    ensures Weighted(s, 9) == CheckSum(s)
  {
    FirstThree(s, 3);
    NextThree(s, 6);
    LastThree(s, 9);
  }

  lemma FirstThree(s: string, n: nat)
    requires TenDigits(s) && n == 3
    ensures Weighted(s, n) == 6 * DigitValue(s[0]) + 5 * DigitValue(s[1]) + 7 * DigitValue(s[2])
  {
    assert Weighted(s, n - 2) == Weighted(s, n - 3) + DigitValue(s[0]) * 6;
    assert Weighted(s, n - 1) == Weighted(s, n - 2) + DigitValue(s[1]) * 5;
    assert Weighted(s, n) == Weighted(s, n - 1) + DigitValue(s[2]) * 7;
  }

  lemma NextThree(s: string, n: nat)
    requires TenDigits(s) && n == 6
    ensures Weighted(s, n) == Weighted(s, n - 3) + 2 * DigitValue(s[3]) + 3 * DigitValue(s[4]) + 4 * DigitValue(s[5])
  {
    assert Weighted(s, n - 2) == Weighted(s, n - 3) + DigitValue(s[3]) * 2;
    assert Weighted(s, n - 1) == Weighted(s, n - 2) + DigitValue(s[4]) * 3;
    assert Weighted(s, n) == Weighted(s, n - 1) + DigitValue(s[5]) * 4;
  }

  lemma LastThree(s: string, n: nat)
    requires TenDigits(s) && n == 9
    ensures Weighted(s, n) == Weighted(s, n - 3) + 5 * DigitValue(s[6]) + 6 * DigitValue(s[7]) + 7 * DigitValue(s[8])
  {
    assert Weighted(s, n - 2) == Weighted(s, n - 3) + DigitValue(s[6]) * 5;
    assert Weighted(s, n - 1) == Weighted(s, n - 2) + DigitValue(s[7]) * 6;
    assert Weighted(s, n) == Weighted(s, n - 1) + DigitValue(s[8]) * 7;
  }

  lemma CheckDigitIs(s: string)
    requires TenDigits(s)
    ensures ContractorAccepts(s) <==> CheckSum(s) % 11 == DigitValue(s[9])
    ensures InvoiceAccepts(s) <==> CheckSum(s) % 11 == DigitValue(s[9])
  {
    WeightedIs(s);
    ValidatorsAgree(s);
  }

  /** The contractor service takes ten digits and nothing else; the invoice first cuts white space around and drops
      hyphens and spaces. */
  lemma OnlyDigitsAccepted(nip: string)
    ensures ContractorAccepts(nip) ==> TenDigits(nip)
    ensures var bare := Without(Without(Decimals.Strip(nip), '-'), ' ');
            InvoiceAccepts(nip) <==> TenDigits(bare) && InvoiceAccepts(bare)
  {
    var bare := Without(Without(Decimals.Strip(nip), '-'), ' ');
    if TenDigits(bare) {
      Decimals.DigitsAreTrimmed(bare);
      WithoutNothing(bare, '-');
      WithoutNothing(bare, ' ');
    }
  }

  lemma {:induction false} WithoutNothing(s: string, c: char)
    requires c !in s
    ensures Without(s, c) == s
  {
    if s != "" {
      assert s == s[..|s| - 1] + [s[|s| - 1]];
      WithoutNothing(s[..|s| - 1], c);
    }
  }

  /** The two validators agree on every string of ten digits. */
  lemma ValidatorsAgree(s: string)
    requires TenDigits(s)
    ensures InvoiceAccepts(s) <==> ContractorAccepts(s)
  {
    WithoutNothing(s, '-');
    WithoutNothing(s, ' ');
    Decimals.DigitsAreTrimmed(s);
  }

  /** The weighted sum less the check digit. */
  function Balance(s: string): int
    requires TenDigits(s)
  {
    Weighted(s, 9) - DigitValue(s[9])
  }

  lemma AcceptedWhenBalanced(s: string)
    requires TenDigits(s)
    ensures ContractorAccepts(s) <==> Balance(s) % 11 == 0
  {
  }

  /** The weight of a position, the check digit included. */
  function Weight(i: nat): int
    requires i < 10
  {
    if i == 9 then -1 else WEIGHTS[i]
  }

  lemma {:induction false} WeightedUpdate(s: string, i: nat, c: char, n: nat)
    requires TenDigits(s) && i < 10 && IsDigit(c) && n <= 9
    ensures TenDigits(s[i := c])
    ensures Weighted(s[i := c], n)
            == Weighted(s, n) + if i < n then WEIGHTS[i] * (DigitValue(c) - DigitValue(s[i])) else 0
  {
    if n > 0 {
      WeightedUpdate(s, i, c, n - 1);
      if i == n - 1 {
        Changed(DigitValue(s[i]), DigitValue(c), WEIGHTS[i]);
      } else {
        assert s[i := c][n - 1] == s[n - 1];
      }
    }
  }

  lemma Changed(a: int, b: int, w: int)
    ensures b * w == a * w + w * (b - a)
  {
  }

  lemma OneDigit(s: string, i: nat, c: char)
    requires TenDigits(s) && i < 10 && IsDigit(c)
    ensures TenDigits(s[i := c])
    ensures Balance(s[i := c]) == Balance(s) + Weight(i) * (DigitValue(c) - DigitValue(s[i]))
  {
    WeightedUpdate(s, i, c, 9);
  }

  /** Eleven is prime: no small weight times a digit difference is a multiple of it. */
  lemma NoMultipleOfEleven(w: int, k: int)
    requires w == -1 || 1 <= w <= 8 || -5 <= w <= -1
    requires -9 <= k <= 9 && k != 0
    ensures w * k % 11 != 0
  {
    if w < 0 {
      if w == -1 {
      } else if w == -2 {
      } else if w == -3 {
      } else if w == -4 {
      }
    } else if w == 1 {
    } else if w == 2 {
    } else if w == 3 {
    } else if w == 4 {
    } else if w == 5 {
    } else if w == 6 {
    } else if w == 7 {
    }
  }

  lemma Unbalanced(b: int, change: int)
    requires b % 11 == 0 && change % 11 != 0
    ensures (b + change) % 11 != 0
  {
  }

  /** Mistyping one digit of a valid number, check digit included, is always detected. */
  lemma OneWrongDigitIsDetected(s: string, i: nat, c: char)
    requires ContractorAccepts(s) && i < 10 && IsDigit(c) && c != s[i]
    ensures TenDigits(s[i := c]) && !ContractorAccepts(s[i := c]) && !InvoiceAccepts(s[i := c])
  {
    AcceptedWhenBalanced(s);
    AcceptedWhenBalanced(s[i := c]);
    OneDigit(s, i, c);
    NoMultipleOfEleven(Weight(i), DigitValue(c) - DigitValue(s[i]));
    Unbalanced(Balance(s), Weight(i) * (DigitValue(c) - DigitValue(s[i])));
    ValidatorsAgree(s[i := c]);
  }

  function Swapped(s: string, i: nat): string
    requires i + 1 < |s|
  {
    s[i := s[i + 1]][i + 1 := s[i]]
  }

  lemma Distributes(v: int, w: int, k: int)
    ensures v * k + w * (-k) == (v - w) * k
  {
  }

  lemma NeighbourWeights(i: nat)
    requires i < 9
    ensures var d := Weight(i) - Weight(i + 1); -5 <= d <= 8 && d != 0
  {
  }

  /** A swap changes the balance by the difference of the weights times that of the digits. */
  lemma SwappedBalance(s: string, i: nat)
    requires TenDigits(s) && i < 9
    ensures TenDigits(Swapped(s, i))
    ensures Balance(Swapped(s, i))
            == Balance(s) + (Weight(i) - Weight(i + 1)) * (DigitValue(s[i + 1]) - DigitValue(s[i]))
  {
    var once := s[i := s[i + 1]];
    OneDigit(s, i, s[i + 1]);
    OneDigit(once, i + 1, s[i]);
    Distributes(Weight(i), Weight(i + 1), DigitValue(s[i + 1]) - DigitValue(s[i]));
  }

  /** Swapping two different neighbouring digits of a valid number is always detected. */
  lemma SwappedNeighboursAreDetected(s: string, i: nat)
    requires ContractorAccepts(s) && i < 9 && s[i] != s[i + 1]
    ensures TenDigits(Swapped(s, i)) && !ContractorAccepts(Swapped(s, i)) && !InvoiceAccepts(Swapped(s, i))
  {
    var w, k := Weight(i) - Weight(i + 1), DigitValue(s[i + 1]) - DigitValue(s[i]);
    SwappedBalance(s, i);
    NeighbourWeights(i);
    NoMultipleOfEleven(w, k);
    AcceptedWhenBalanced(s);
    Unbalanced(Balance(s), w * k);
    AcceptedWhenBalanced(Swapped(s, i));
    ValidatorsAgree(Swapped(s, i));
  }
}
