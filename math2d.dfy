/**
 * The scalar helpers of the game's 2D math utility.  Doubles are modelled as
 * reals; the square root and atan2 are not modelled: a distance is only ever
 * compared, and `distance <= limit` is stated exactly as a comparison of
 * squared distances.
 */
module Math2D {
  import opened Numerics

  /** An immutable 2D point. */
  datatype Point = Point(x: real, y: real)

  function NoDistance(x1: real, y1: real, x2: real, y2: real): real
  {
    0.0
  }

  /**
   * `Math2D.distance` stands for a square root, which is not modelled: where a
   * distance value enters arithmetic it is this injected, non-negative
   * function of the two points.  `Measures` says when it agrees with the
   * Euclidean distance at a pair of points.
   */
  type Distance = f: (real, real, real, real) -> real
    | forall x1: real, y1: real, x2: real, y2: real :: f(x1, y1, x2, y2) >= 0.0
    witness NoDistance

  /** The distance function is the square root of the squared distance at these points. */
  predicate Measures(dist: Distance, x1: real, y1: real, x2: real, y2: real)
  {
    dist(x1, y1, x2, y2) * dist(x1, y1, x2, y2) == DistanceSquared(x1, y1, x2, y2)
  }

  /** `p.distanceTo(q)`. */
  function PointDistance(dist: Distance, p: Point, q: Point): (r: real)
    ensures r >= 0.0
  {
    dist(p.x, p.y, q.x, q.y)
  }

  /**
   * Where the injected distance is Euclidean, comparing it with a limit is
   * exactly the squared-distance test WithinDistance.
   */
  lemma MeasuredWithin(dist: Distance, x1: real, y1: real, x2: real, y2: real, limit: real)
    requires Measures(dist, x1, y1, x2, y2)
    ensures dist(x1, y1, x2, y2) <= limit <==> WithinDistance(x1, y1, x2, y2, limit)
  {
    var d := dist(x1, y1, x2, y2);
    if d <= limit {
      assert d * d <= limit * limit by {
        assert d * d <= d * limit <= limit * limit;
      }
    } else if 0.0 <= limit {
      SquareStrictlyMonotone(limit, d);
    }
  }

  lemma SquareStrictlyMonotone(a: real, b: real)
    requires 0.0 <= a < b
    ensures a * a < b * b
  {
    assert a * (b - a) >= 0.0;
    assert b * (b - a) > 0.0;
  }

  /** `Math.PI` as a double. */
  const PI: real := 3.141592653589793

  /** `2 * Math.PI` as the double the source computes, which is exactly twice PI. */
  const TWO_PI: real := 6.283185307179586

  function DistanceSquared(x1: real, y1: real, x2: real, y2: real): (r: real)
    ensures r >= 0.0
    ensures x1 == x2 && y1 == y2 ==> r == 0.0
  {
    SquareNonNegative(x2 - x1);
    SquareNonNegative(y2 - y1);
    (x2 - x1) * (x2 - x1) + (y2 - y1) * (y2 - y1)
  }

  lemma SquareNonNegative(a: real)
    ensures a * a >= 0.0
  {
  }

  lemma DistanceSquaredSymmetric(x1: real, y1: real, x2: real, y2: real)
    ensures DistanceSquared(x1, y1, x2, y2) == DistanceSquared(x2, y2, x1, y1)
  {
  }

  /**
   * `Math2D.distance(x1, y1, x2, y2) <= limit`.  The Euclidean distance is the
   * non-negative square root of DistanceSquared, so the comparison holds
   * exactly when the limit is non-negative and its square bounds the squared
   * distance.
   */
  predicate WithinDistance(x1: real, y1: real, x2: real, y2: real, limit: real)
  {
    0.0 <= limit && DistanceSquared(x1, y1, x2, y2) <= limit * limit
  }

  /** `Math2D.distance(x1, y1, x2, y2) < limit`, stated the same way. */
  predicate StrictlyWithinDistance(x1: real, y1: real, x2: real, y2: real, limit: real)
  {
    0.0 < limit && DistanceSquared(x1, y1, x2, y2) < limit * limit
  }

  /** A point is always within any non-negative distance of itself. */
  lemma WithinDistanceOfSelf(x: real, y: real, limit: real)
    requires limit >= 0.0
    ensures WithinDistance(x, y, x, y, limit)
  {
    SquareNonNegative(limit);
  }

  /** A larger limit admits every point a smaller one admits. */
  lemma WithinDistanceMonotone(x1: real, y1: real, x2: real, y2: real, a: real, b: real)
    requires WithinDistance(x1, y1, x2, y2, a) && a <= b
    ensures WithinDistance(x1, y1, x2, y2, b)
  {
    assert a * a <= a * b <= b * b;
  }

  function Lerp(a: real, b: real, t: real): (r: real)
    ensures t == 0.0 ==> r == a
    ensures t == 1.0 ==> r == b
    ensures 0.0 <= t <= 1.0 ==> Min(a, b) <= r <= Max(a, b)
  {
    LerpBetween(a, b, t);
    a + (b - a) * t
  }

  lemma LerpBetween(a: real, b: real, t: real)
    ensures 0.0 <= t <= 1.0 ==> Min(a, b) <= a + (b - a) * t <= Max(a, b)
  {
    if 0.0 <= t <= 1.0 {
      var d := b - a;
      assert d * (1.0 - t) == d - d * t;
      if a <= b {
        ProductNonNegative(d, t);
        ProductNonNegative(d, 1.0 - t);
      } else {
        ProductNonNegative(-d, t);
        ProductNonNegative(-d, 1.0 - t);
        assert (-d) * t == -(d * t);
        assert (-d) * (1.0 - t) == d * t - d;
      }
    }
  }

  function Clamp(value: real, min: real, max: real): (r: real)
    ensures min <= max ==> min <= r <= max
    ensures min <= value <= max ==> r == value
    ensures min <= max && value < min ==> r == min
    ensures min <= max && value > max ==> r == max
    ensures min > max ==> r == min
  {
    Max(min, Min(max, value))
  }

  /** For a non-negative radius this is exactly `distance(p, c) <= radius`. */
  function PointInCircle(px: real, py: real, cx: real, cy: real, radius: real): (r: bool)
    ensures radius >= 0.0 ==> (r <==> WithinDistance(px, py, cx, cy, radius))
    ensures r <==> WithinDistance(px, py, cx, cy, if radius < 0.0 then -radius else radius)
  {
    DistanceSquared(px, py, cx, cy) <= radius * radius
  }

  /**
   * Brings an angle into [0, 2π) by whole turns, with the two loops of the
   * source; `turns` is how many turns were added (negative when subtracted).
   */
  method NormalizeAngle(angle: real) returns (r: real, ghost turns: int)
    ensures 0.0 <= r < TWO_PI
    ensures r == angle + turns as real * TWO_PI
  {
    r := angle;
    turns := 0;
    while r < 0.0
      invariant r == angle + turns as real * TWO_PI
      decreases (-r).Floor + 1
    {
      r := r + TWO_PI;
      turns := turns + 1;
    }
    while r >= TWO_PI
      invariant r == angle + turns as real * TWO_PI
      invariant r >= 0.0
      decreases r.Floor
    {
      r := r - TWO_PI;
      turns := turns - 1;
    }
  }
}
