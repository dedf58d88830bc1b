/** Comparisons of exact quotients and products, used for the averages, percentages and roundings. */
module Ratio {

  /** Multiplying by a natural number keeps an order. */
  lemma MulLe(d: nat, a: nat, b: nat)
    requires a <= b
    ensures d * a <= d * b
  {
    assert d * b - d * a == d * (b - a);
  }

  lemma Scale(x: real, y: real, m: real)
    requires m > 0.0
    ensures x < y <==> x * m < y * m
  {
  }

  lemma DivMul(x: real, m: real)
    requires m > 0.0
    ensures (x / m) * m == x
  {
  }

  /** For positive `m`, comparing `x / m` with `c` is comparing `x` with `c * m`. */
  lemma DivCompare(x: real, m: real, c: real)
    requires m > 0.0
    ensures x / m < c <==> x < c * m
    ensures c < x / m <==> c * m < x
  {
    DivMul(x, m);
    Scale(x / m, c, m);
    Scale(c, x / m, m);
  }

  /** The product of two integers, as a real, is the product of the two reals. */
  lemma {:induction false} ProductAsReal(a: int, b: nat)
    ensures (a * b) as real == a as real * b as real
    decreases b
  {
    if b > 0 {
      ProductAsReal(a, b - 1);
      assert a * b == a * (b - 1) + a;
    }
  }
}
