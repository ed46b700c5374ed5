/** Decimal text of natural numbers. */
module Decimals {

  function Digit(n: nat): char
    requires n < 10
  {
    ['0', '1', '2', '3', '4', '5', '6', '7', '8', '9'][n]
  }

  function Digits(n: nat): (r: string)
    ensures |r| > 0
    decreases n
  {
    if n < 10 then [Digit(n)] else Digits(n / 10) + [Digit(n % 10)]
  }

  function Power10(k: nat): nat {
    if k == 0 then 1 else 10 * Power10(k - 1)
  }

  /** A number below ten to the k has at most k digits. */
  lemma {:induction false} DigitsBound(n: nat, k: nat)
    requires k > 0 && n < Power10(k)
    ensures |Digits(n)| <= k
    decreases k
  {
    if n >= 10 {
      assert Power10(0) == 1 && Power10(1) == 10;
      assert n / 10 < Power10(k - 1);
      DigitsBound(n / 10, k - 1);
    }
  }

  /** Every 64-bit count has at most twenty digits. */
  lemma CountDigits(n: nat)
    requires n <= 0xFFFF_FFFF_FFFF_FFFF
    ensures |Digits(n)| <= 20
  {
    assert Power10(5) == 100_000;
    assert Power10(10) == 10 * Power10(9) == 100 * Power10(8) == 1_000 * Power10(7) == 10_000 * Power10(6);
    assert Power10(15) == 10 * Power10(14) == 100 * Power10(13) == 1_000 * Power10(12) == 10_000 * Power10(11);
    assert Power10(20) == 10 * Power10(19) == 100 * Power10(18) == 1_000 * Power10(17) == 10_000 * Power10(16);
    DigitsBound(n, 20);
  }
}
