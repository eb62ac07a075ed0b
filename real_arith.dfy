/** Facts about products of reals that the section-property proofs rely
    on: when a product vanishes, when it is non-negative, and that a
    positive factor keeps the sign. */
module RealArith {

  lemma ProductZeroIff(a: real, b: real)
    ensures a * b == 0.0 <==> a == 0.0 || b == 0.0
  {
  }

  lemma ProductNonNegativeIff(a: real, b: real)
    ensures 0.0 <= a * b <==> (0.0 <= a && 0.0 <= b) || (a <= 0.0 && b <= 0.0)
  {
    if 0.0 < a && b < 0.0 {
      assert a * b < 0.0;
    } else if a < 0.0 && 0.0 < b {
      assert a * b < 0.0;
    } else if a <= 0.0 && b <= 0.0 {
      assert a * b == (-a) * (-b);
    }
  }

  /** A fourth power vanishes exactly at 0. */
  lemma FourthPowerZeroIff(x: real)
    ensures x * x * x * x == 0.0 <==> x == 0.0
  {
    ProductZeroIff(x * x, x * x);
    ProductZeroIff(x, x);
    assert x * x * x * x == (x * x) * (x * x);
  }

  /** A cube vanishes exactly at 0. */
  lemma CubeZeroIff(x: real)
    ensures x * x * x == 0.0 <==> x == 0.0
  {
    ProductZeroIff(x * x, x);
    ProductZeroIff(x, x);
  }

  /** Multiplying by a positive factor keeps the sign. */
  lemma PositiveFactorKeepsSign(p: real, q: real)
    requires 0.0 < p
    ensures 0.0 <= p * q <==> 0.0 <= q
    ensures p * q == 0.0 <==> q == 0.0
  {
    if q < 0.0 {
      assert p * q < 0.0;
    }
    ProductZeroIff(p, q);
  }

  /** Cubes of reals are equal exactly when the reals are. */
  lemma CubesEqualIff(x: real, y: real)
    ensures x * x * x == y * y * y <==> x == y
  {
    var q := x * x + x * y + y * y;
    assert x * x * x - y * y * y == (x - y) * q;
    if x != y {
      var m := x + y;
      assert 0.0 <= m * m;
      if x != 0.0 {
        assert 0.0 < x * x;
      } else {
        assert 0.0 < y * y;
      }
      assert 2.0 * q == m * m + x * x + y * y;
      ProductZeroIff(x - y, q);
    }
  }
}
