/** Powers of two and quotients. */
module Arithmetic {
  function Pow2(i: nat): (r: nat)
    ensures r > 0
  {
    if i == 0 then 1 else 2 * Pow2(i - 1)
  }

  lemma MulGrows(d: nat, x: int)
    requires d > 0
    ensures x >= 1 ==> d * x >= d
    ensures x <= -1 ==> d * x + d <= 0
  {
  }

  lemma QuotientUnique(n: nat, d: nat, q: int, r: nat)
    requires d > 0 && n == d * q + r && r < d
    ensures n / d == q && n % d == r
  {
    var q', r' := n / d, n % d;
    assert d * (q - q') == r' - r;
    MulGrows(d, q - q');
  }

  /** Shifting right once more. */
  lemma HalfAgain(b: nat, i: nat)
    ensures b / Pow2(i) / 2 == b / Pow2(i + 1)
  {
    var m := Pow2(i);
    var q := b / m;
    assert b == q * m + b % m;
    assert q == 2 * (q / 2) + q % 2;
    assert b == (2 * m) * (q / 2) + (m * (q % 2) + b % m) by {
      assert q * m == (2 * m) * (q / 2) + m * (q % 2);
    }
    assert 0 <= m * (q % 2) + b % m < 2 * m;
    QuotientUnique(b, 2 * m, q / 2, m * (q % 2) + b % m);
  }
}
