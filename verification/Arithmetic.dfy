/** Products and quotients by a positive number. */
module Arithmetic {
  lemma {:induction false} Product(k: nat, m: int)
    requires m > 0
    ensures k * m >= 0
    ensures k > 0 ==> k * m >= m
  {
    if k > 0 {
      Product(k - 1, m);
      assert k * m == (k - 1) * m + m;
    }
  }

  lemma OneMoreTime(k: int, m: int)
    ensures (k + 1) * m == k * m + m
  {
  }

  /** Multiplying keeps order, and keeps steps apart. */
  lemma ProductsGrow(i: int, j: int, m: int)
    requires m > 0 && i <= j
    ensures i * m <= j * m
    ensures i < j ==> i * m + m <= j * m
  {
    Product(j - i, m);
    assert j * m == i * m + (j - i) * m;
  }

  /** The quotient is the one number of whole steps that fits. */
  lemma QuotientIs(x: int, m: int, q: int)
    requires m > 0 && q * m <= x < q * m + m
    ensures x / m == q
  {
    var y := x / m;
    assert y * m <= x < y * m + m;
    if y < q { ProductsGrow(y, q, m); }
    if y > q { ProductsGrow(q, y, m); }
  }

  lemma QuotientDropsOne(x: int, m: int)
    requires m > 0 && x >= m
    ensures x / m == (x - m) / m + 1
  {
    var q := (x - m) / m;
    assert q * m <= x - m < q * m + m;
    assert (q + 1) * m == q * m + m;
    QuotientIs(x, m, q + 1);
  }

  lemma QuotientsGrow(a: int, b: int, m: int)
    requires 0 <= a <= b && m > 0
    ensures a / m <= b / m
    ensures b - a >= m ==> a / m < b / m
  {
    var q, r := a / m, b / m;
    assert q * m <= a && b < r * m + m;
    if q >= r { ProductsGrow(r, q, m); }
  }
}
