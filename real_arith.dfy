/** Signs of products of reals, stated once for the spectral and filter proofs. */
module RealArith {

  function Product(x: real, y: real): real {
    x * y
  }

  lemma ProductSigns(a: real, b: real)
    ensures a >= 0.0 && b >= 0.0 ==> Product(a, b) >= 0.0
    ensures a > 0.0 && b > 0.0 ==> Product(a, b) > 0.0
    ensures a < 0.0 && b < 0.0 ==> Product(a, b) > 0.0
    ensures a == 0.0 || b == 0.0 ==> Product(a, b) == 0.0
  {
    if a < 0.0 && b < 0.0 {
      assert Product(a, b) == Product(-a, -b);
    }
  }

  function Square(x: real): real {
    Product(x, x)
  }

  /** A square is non-negative, and positive away from zero. */
  lemma SquareSign(x: real)
    ensures Square(x) >= 0.0
    ensures x != 0.0 ==> Square(x) > 0.0
  {
    ProductSigns(x, x);
  }
}
