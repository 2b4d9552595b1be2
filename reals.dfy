/** Small helpers on real numbers shared by the two animation modules. */
module Reals {

  /** `Math.min` on two numbers. */
  function Min(a: real, b: real): (m: real)
    ensures m <= a && m <= b
    ensures m == a || m == b
  {
    if a <= b then a else b
  }

  /** `Math.max` on two numbers. */
  function Max(a: real, b: real): (m: real)
    ensures a <= m && b <= m
    ensures m == a || m == b
  {
    if a <= b then b else a
  }

  /** `x` lies on the closed segment between `a` and `b`, in either order. */
  predicate Between(x: real, a: real, b: real)
  {
    (a <= b && a <= x <= b) || (b <= a && b <= x <= a)
  }

  /** Scaling a non-negative quantity by a factor in `[0, 1]` keeps it between
      zero and itself. */
  lemma ScaleDown(k: real, f: real)
    requires 0.0 <= k && 0.0 <= f <= 1.0
    ensures 0.0 <= k * f <= k
  {
    assert k * f <= k * 1.0;
  }

  /** `a * b`, with the sign rule of a product. */
  function Product(a: real, b: real): (r: real)
    ensures (0.0 < a && 0.0 < b) || (a < 0.0 && b < 0.0) ==> 0.0 < r
    ensures a == 0.0 || b == 0.0 ==> r == 0.0
  {
    a * b
  }

  /** The product of two non-negative numbers is non-negative. */
  lemma NonNegativeProduct(a: real, b: real)
    requires 0.0 <= a && 0.0 <= b
    ensures 0.0 <= Product(a, b)
  {
    if a != 0.0 && b != 0.0 {
      assert 0.0 < Product(a, b);
    }
  }

  /** Products may be regrouped. */
  lemma ProductAssociates(a: real, b: real, c: real)
    ensures Product(Product(a, b), c) == Product(a, Product(b, c))
  {
    assert a * b * c == a * (b * c);
  }

  /** A non-negative quantity scaled by a non-positive factor is not positive. */
  lemma NonPositiveProduct(k: real, f: real)
    requires 0.0 <= k && f <= 0.0
    ensures Product(k, f) <= 0.0
  {
    assert Product(k, -f) == -Product(k, f);
  }

  /** Scaling a non-negative quantity by a factor of at most one never makes
      it larger, and a non-positive factor makes it non-positive. */
  lemma ScaleAtMostOne(k: real, f: real)
    requires 0.0 <= k && f <= 1.0
    ensures Product(k, f) <= k
    ensures f <= 0.0 ==> Product(k, f) <= 0.0
  {
    if f < 0.0 {
      NonPositiveProduct(k, f);
    } else {
      ScaleDown(k, f);
    }
  }

  /** Scaling a negative quantity by a factor in `[0, 1]` keeps it between
      itself and zero, and negative unless the factor is zero. */
  lemma ScaleDownNegative(g: real, f: real)
    requires g < 0.0 && 0.0 <= f <= 1.0
    ensures g <= Product(g, f) <= 0.0
    ensures 0.0 < f ==> Product(g, f) < 0.0
  {
    assert g * f >= g * 1.0;
    assert Product(-g, f) == -Product(g, f);
  }

  /** Scaling by a factor in `[0, 1]` lands between zero and the quantity,
      whatever its sign, and away from zero when both are non-zero. */
  lemma Shrink(g: real, f: real)
    requires 0.0 <= f <= 1.0
    ensures Between(Product(g, f), 0.0, g)
    ensures 0.0 < f && g != 0.0 ==> Product(g, f) != 0.0
  {
    if 0.0 <= g {
      ScaleDown(g, f);
    } else {
      ScaleDownNegative(g, f);
    }
  }

  /** `x * x`, which is positive unless `x` is zero. */
  function Square(x: real): (r: real)
    ensures 0.0 <= r
    ensures 0.0 < r <==> x != 0.0
  {
    Product(x, x)
  }
}
