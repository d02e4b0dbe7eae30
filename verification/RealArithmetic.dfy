/** Facts about products of reals. The solver does not find these reliably inside larger proofs, so the
    other modules call them by name; `Product` and `Square` name a product where a proof hides it. */
module RealArithmetic {

  function Square(a: real): real { a * a }

  function Product(a: real, b: real): real { a * b }

  function Abs(a: real): real { if a < 0.0 then -a else a }

  lemma ProductLaws(a: real, b: real, c: real)
    ensures Product(Product(a, b), c) == Product(a, Product(b, c))
    ensures Product(a, b) == Product(b, a)
    ensures Product(a, 1.0) == Product(1.0, a) == a
  {
  }

  lemma ProductNonNegative(a: real, b: real)
    requires a >= 0.0 && b >= 0.0
    ensures a * b >= 0.0
  {
  }

  lemma ProductPositive(a: real, b: real)
    requires a > 0.0 && b > 0.0
    ensures a * b > 0.0 && Product(a, b) > 0.0
  {
  }

  lemma SquarePositive(a: real)
    requires a != 0.0
    ensures a * a > 0.0
  {
  }

  lemma CancelFactor(r: real, u: real, v: real)
    requires r > 0.0 && r * u == r * v
    ensures u == v
  {
  }

  lemma AtLeastOfProduct(u: real, d: real)
    requires d > 0.0 && u * d >= 0.0
    ensures u >= 0.0
  {
    if u < 0.0 { ProductPositive(-u, d); }
  }

  lemma ScaleDifference(r: real, a: real, b: real)
    ensures r * (a - b) == r * a - r * b
  {
  }

  lemma Associate(a: real, b: real, c: real)
    ensures (a * b) * c == a * (b * c)
  {
  }

  lemma BelowQuotient(r: real, q: real, v: real)
    requires q > 0.0 && r * q < v
    ensures r < v / q
  {
    var z := v / q;
    assert z * q == v;
    if r >= z { ProductNonNegative(r - z, q); }
  }

  lemma DistributeOver(k: real, a: real, b: real)
    ensures Product(k, a + b) == Product(k, a) + Product(k, b)
    ensures Product(k, 0.0) == 0.0
  {
  }

  lemma ProductMonotone(k: real, a: real, b: real)
    requires k > 0.0
    ensures a <= b <==> Product(k, a) <= Product(k, b)
    ensures k >= 1.0 && a >= 0.0 ==> Product(k, a) >= a
    ensures k > 1.0 && a > 0.0 ==> Product(k, a) > a
    ensures k == 1.0 ==> Product(k, a) == a
  {
    if a <= b { ProductNonNegative(k, b - a); } else { ProductPositive(k, a - b); }
    if k >= 1.0 && a >= 0.0 { ProductNonNegative(k - 1.0, a); }
    if k > 1.0 && a > 0.0 { ProductPositive(k - 1.0, a); }
  }
}
