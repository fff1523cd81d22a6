// Shared value types and the numeric helpers of the widget library
// (pointgraph/Point.kt, pointgraph/utils/Utils.kt).

module Geometry {

  /** A point of a graph in data or in view coordinates (Point.kt). */
  datatype Point = Point(x: real, y: real)

  /** The value an operation returns, or the exception it throws instead. */
  datatype Result<T> = Ok(value: T) | Throws(exception: string)

  /** A Kotlin nullable value: null, or a value. */
  datatype Option<T> = None | Some(value: T)

  /** Milliseconds in one second (S_TO_MS_FACTOR). */
  const SecondsToMillis: int := 1000

  /** Lower and upper end of the graph's y-axis scale factor animation. */
  const ScaleFactorMin: real := 0.0
  const ScaleFactorMax: real := 1.0

  /**
   * The straight line through (minX, minY) and (maxX, maxY), evaluated at x
   * (affineTransformXToY). The source divides by maxX - minX; an empty
   * source interval gives NaN in Float and is excluded here.
   */
  function Affine(x: real, minX: real, maxX: real, minY: real, maxY: real): real
    requires minX != maxX
  {
    (maxY - minY) / (maxX - minX) * (x - maxX) + maxY
  }

  /** Both ends of the source interval land on the matching ends of the target. */
  lemma AffineEndpoints(minX: real, maxX: real, minY: real, maxY: real)
    requires minX != maxX
    ensures Affine(maxX, minX, maxX, minY, maxY) == maxY
    ensures Affine(minX, minX, maxX, minY, maxY) == minY
  {
    var k := (maxY - minY) / (maxX - minX);
    assert k * (maxX - minX) == maxY - minY;
    calc {
      Affine(minX, minX, maxX, minY, maxY);
      k * (minX - maxX) + maxY;
      -(k * (maxX - minX)) + maxY;
    }
  }

  /** The map is the same line as the two-point formula anchored at minX. */
  lemma AffineFromMin(x: real, minX: real, maxX: real, minY: real, maxY: real)
    requires minX != maxX
    ensures Affine(x, minX, maxX, minY, maxY) == (x - minX) * (maxY - minY) / (maxX - minX) + minY
  {
    var d := maxX - minX;
    var k := (maxY - minY) / d;
    assert k * d == maxY - minY;
    assert (x - minX) * (maxY - minY) / d == (x - minX) * k;
    calc {
      Affine(x, minX, maxX, minY, maxY);
      k * (x - maxX) + maxY;
      k * (x - minX) - k * d + maxY;
      k * (x - minX) + minY;
    }
  }

  /**
   * Swapping the two intervals gives the inverse map: a position mapped to a
   * value and back is the same position (the selector position/value
   * transforms of the views rely on this).
   */
  lemma AffineInverse(x: real, minX: real, maxX: real, minY: real, maxY: real)
    requires minX != maxX && minY != maxY
    ensures Affine(Affine(x, minX, maxX, minY, maxY), minY, maxY, minX, maxX) == x
  {
    var y := Affine(x, minX, maxX, minY, maxY);
    var k := (maxY - minY) / (maxX - minX);
    var j := (maxX - minX) / (maxY - minY);
    assert k * (maxX - minX) == maxY - minY;
    assert j * k == 1.0 by {
      assert j * (maxY - minY) == maxX - minX;
      assert j * k * (maxX - minX) == j * (maxY - minY);
    }
    calc {
      Affine(y, minY, maxY, minX, maxX);
      j * (y - maxY) + maxX;
      j * (k * (x - maxX)) + maxX;
      (j * k) * (x - maxX) + maxX;
      x;
    }
  }

  /** On increasing intervals the map is strictly increasing. */
  lemma AffineMonotone(x1: real, x2: real, minX: real, maxX: real, minY: real, maxY: real)
    requires minX < maxX && minY < maxY && x1 < x2
    ensures Affine(x1, minX, maxX, minY, maxY) < Affine(x2, minX, maxX, minY, maxY)
  {
    var k := (maxY - minY) / (maxX - minX);
    assert k > 0.0;
    assert k * (x2 - x1) > 0.0;
    assert k * (x2 - maxX) - k * (x1 - maxX) == k * (x2 - x1);
    assert Affine(x2, minX, maxX, minY, maxY) - Affine(x1, minX, maxX, minY, maxY)
      == k * (x2 - maxX) - k * (x1 - maxX);
  }

  /** On increasing intervals the map takes [minX, maxX] into [minY, maxY]. */
  lemma AffineInRange(x: real, minX: real, maxX: real, minY: real, maxY: real)
    requires minX < maxX && minY <= maxY && minX <= x <= maxX
    ensures minY <= Affine(x, minX, maxX, minY, maxY) <= maxY
  {
    var k := (maxY - minY) / (maxX - minX);
    assert k >= 0.0;
    AffineFromMin(x, minX, maxX, minY, maxY);
    assert k * (maxX - minX) == maxY - minY;
    assert k * (x - minX) <= k * (maxX - minX);
  }

  function Abs(a: int): int { if a >= 0 then a else -a }

  /**
   * Kotlin's integer division on Int and Long: the quotient is rounded
   * toward zero, so the remainder takes the sign of the dividend (Dafny's own
   * division on int is Euclidean). The two ensures determine q uniquely.
   */
  function TruncDiv(a: int, b: int): (q: int)
    requires b != 0
    ensures a >= 0 ==> 0 <= a - q * b < Abs(b)
    ensures a < 0 ==> -Abs(b) < a - q * b <= 0
  {
    var m, d := Abs(a), Abs(b);
    var u := m / d;
    QuotientBounds(m, d);
    SignedProduct(u, b);
    if (a >= 0) == (b > 0) then u else -u
  }

  /** A non-zero multiple of a positive d is at least d away from zero. */
  lemma MultipleBound(t: int, d: int)
    requires d > 0
    ensures t >= 1 ==> t * d >= d
    ensures t <= -1 ==> t * d <= -d
  {
    if t >= 1 {
      assert t * d == (t - 1) * d + d;
    } else if t <= -1 {
      assert t * d == (t + 1) * d - d;
    }
  }

  /** The product of two non-negative numbers is non-negative. */
  lemma NonNegativeProduct(a: int, b: int)
    requires a >= 0 && b >= 0
    ensures a * b >= 0
  {
  }

  /** Long division by a positive number never reverses the order of two non-negative numbers. */
  lemma TruncDivMonotone(a: int, b: int, d: int)
    requires 0 <= a <= b && d > 0
    ensures TruncDiv(a, d) <= TruncDiv(b, d)
  {
    var qa, qb := TruncDiv(a, d), TruncDiv(b, d);
    if qa > qb {
      assert qa * d - qb * d == (qa - qb) * d;
      MultipleBound(qa - qb, d);
    }
  }

  /** Long division of an exact multiple gives the factor back. */
  lemma TruncDivExact(k: int, d: int)
    requires d > 0
    ensures TruncDiv(k * d, d) == k
  {
    var q := TruncDiv(k * d, d);
    assert k * d - q * d == (k - q) * d;
    MultipleBound(k - q, d);
  }

  /** Euclidean division of a non-negative number leaves a remainder below the divisor. */
  lemma QuotientBounds(m: int, d: int)
    requires m >= 0 && d > 0
    ensures 0 <= m - (m / d) * d < d
  {
  }

  /** Multiplying by b is multiplying by |b|, with b's sign. */
  lemma SignedProduct(u: int, b: int)
    ensures u * b == (if b > 0 then u * Abs(b) else -(u * Abs(b)))
    ensures -u * b == -(u * b)
  {
  }

  /** Kotlin's Float.toLong() and Float.toInt(): the fraction is dropped toward zero. */
  function TruncReal(r: real): (n: int)
    ensures r >= 0.0 ==> n as real <= r < n as real + 1.0
    ensures r < 0.0 ==> n as real - 1.0 < r <= n as real
  {
    if r >= 0.0 then r.Floor else -((-r).Floor)
  }

  /** toLong never reverses an order. */
  lemma TruncRealMonotone(a: real, b: real)
    requires a <= b
    ensures TruncReal(a) <= TruncReal(b)
  {
    if a < 0.0 && b >= 0.0 {
      assert TruncReal(a) <= 0;
    }
  }

  /** toLong keeps a whole number as it is. */
  lemma TruncRealOfInt(k: int)
    ensures TruncReal(k as real) == k
  {
  }
}
