/**
 * The FX engine's path queries over the map's main path: the position at a
 * progress, the path length, and whether a point lies within a tolerance of
 * the path, through the distance from a point to a segment.
 */
module Pathfinding {
  import opened Wrappers
  import opened Numerics
  import opened Math2D
  import opened GridPath

  /** `getPositionOnPath`: the main path's position, or the origin without a path. */
  function GetPositionOnPath(paths: seq<Path>, dist: Distance, progress: real): (r: Option<Point>)
    ensures paths == [] ==> r == Some(Point(0.0, 0.0))
    ensures paths != [] ==> r == PositionAt(dist, paths[0].waypoints, progress)
  {
    match MainPath(paths)
    case Some(path) => PositionAt(dist, path.waypoints, progress)
    case None => Some(Point(0.0, 0.0))
  }

  /** `getPathLength`: the main path's length, or 0 without a path. */
  function GetPathLength(paths: seq<Path>, dist: Distance): (r: real)
    ensures r >= 0.0
    ensures paths == [] ==> r == 0.0
    ensures paths != [] ==> r == TotalLength(dist, paths[0].waypoints)
  {
    match MainPath(paths)
    case Some(path) => TotalLengthBasics(dist, path.waypoints); TotalLength(dist, path.waypoints)
    case None => 0.0
  }

  /**
   * The projection parameter of `p` on the segment from `a` to `b`, clamped to
   * [0, 1]; only meaningful for a segment of positive length.
   */
  function ProjectionParameter(px: real, py: real, x1: real, y1: real, x2: real, y2: real): (t: real)
    requires DistanceSquared(x1, y1, x2, y2) > 0.0
    ensures 0.0 <= t <= 1.0
  {
    var dx := x2 - x1;
    var dy := y2 - y1;
    Clamp(((px - x1) * dx + (py - y1) * dy) / DistanceSquared(x1, y1, x2, y2), 0.0, 1.0)
  }

  /**
   * `distanceToLineSegment`: for a degenerate segment the distance to its
   * point, else the distance to the projection clamped onto the segment.  The
   * source compares `sqrt(dx² + dy²)` with 0, which holds exactly when the
   * squared length is 0, and divides by the square of that root, which is the
   * squared length.
   */
  function DistanceToLineSegment(dist: Distance, px: real, py: real, x1: real, y1: real, x2: real, y2: real): (r: real)
    ensures r >= 0.0
    ensures DistanceSquared(x1, y1, x2, y2) == 0.0 ==> r == dist(px, py, x1, y1)
    ensures DistanceSquared(x1, y1, x2, y2) > 0.0 ==>
      r == PointDistance(dist, Point(px, py), Projection(px, py, x1, y1, x2, y2))
  {
    if DistanceSquared(x1, y1, x2, y2) == 0.0 then dist(px, py, x1, y1)
    else
      var q := Projection(px, py, x1, y1, x2, y2);
      dist(px, py, q.x, q.y)
  }

  /** The point of the segment the distance is measured to. */
  function Projection(px: real, py: real, x1: real, y1: real, x2: real, y2: real): Point
    requires DistanceSquared(x1, y1, x2, y2) > 0.0
  {
    var t := ProjectionParameter(px, py, x1, y1, x2, y2);
    Point(x1 + t * (x2 - x1), y1 + t * (y2 - y1))
  }

  /** The projection is a point of the segment. */
  lemma ProjectionOnSegment(px: real, py: real, x1: real, y1: real, x2: real, y2: real)
    requires DistanceSquared(x1, y1, x2, y2) > 0.0
    ensures OnSegment(Point(x1, y1), Point(x2, y2), Projection(px, py, x1, y1, x2, y2))
  {
    var t := ProjectionParameter(px, py, x1, y1, x2, y2);
    assert Along(Point(x1, y1), Point(x2, y2), t) == Projection(px, py, x1, y1, x2, y2);
  }

  /** The quadratic `w - 2·s·d + s²·len`. */
  function Quadratic(w: real, d: real, len: real, s: real): real
  {
    w - 2.0 * s * d + s * s * len
  }

  /** The squared distance from `p` to the point `s` along the segment, as a quadratic in `s`. */
  lemma SquaredDistanceAlong(px: real, py: real, x1: real, y1: real, x2: real, y2: real, s: real)
    ensures DistanceSquared(px, py, x1 + s * (x2 - x1), y1 + s * (y2 - y1))
         == Quadratic(DistanceSquared(px, py, x1, y1),
                      (px - x1) * (x2 - x1) + (py - y1) * (y2 - y1),
                      DistanceSquared(x1, y1, x2, y2), s)
  {
  }

  /**
   * The clamped projection is a closest point of the segment: no point of the
   * segment is nearer to `p`.
   */
  lemma ProjectionIsClosest(px: real, py: real, x1: real, y1: real, x2: real, y2: real, s: real)
    requires DistanceSquared(x1, y1, x2, y2) > 0.0
    requires 0.0 <= s <= 1.0
    ensures var q := Projection(px, py, x1, y1, x2, y2);
      DistanceSquared(px, py, q.x, q.y) <= DistanceSquared(px, py, x1 + s * (x2 - x1), y1 + s * (y2 - y1))
  {
    var t := ProjectionParameter(px, py, x1, y1, x2, y2);
    var q := Projection(px, py, x1, y1, x2, y2);
    assert q == Point(x1 + t * (x2 - x1), y1 + t * (y2 - y1));
    SquaredDistanceAlong(px, py, x1, y1, x2, y2, t);
    SquaredDistanceAlong(px, py, x1, y1, x2, y2, s);
    ClampedMinimum(DistanceSquared(px, py, x1, y1), (px - x1) * (x2 - x1) + (py - y1) * (y2 - y1),
                   DistanceSquared(x1, y1, x2, y2), s);
  }

  /** On [0, 1] a convex quadratic is smallest at its vertex `d / len` clamped to the interval. */
  lemma ClampedMinimum(w: real, d: real, len: real, s: real)
    requires len > 0.0 && 0.0 <= s <= 1.0
    ensures Quadratic(w, d, len, Clamp(d / len, 0.0, 1.0)) <= Quadratic(w, d, len, s)
  {
    var t := Clamp(d / len, 0.0, 1.0);
    var t0 := d / len;
    assert d == t0 * len;
    assert (s * s - t * t) * len - 2.0 * (s - t) * d == len * ((s - t) * (s + t - 2.0 * t0));
    if t0 < 0.0 {
      assert (s - t) * (s + t - 2.0 * t0) >= 0.0;
    } else if t0 > 1.0 {
      assert (s - t) * (s + t - 2.0 * t0) >= 0.0;
    } else {
      assert (s - t) * (s + t - 2.0 * t0) == (s - t) * (s - t);
    }
    MulNonNegative(len, (s - t) * (s + t - 2.0 * t0));
  }

  lemma MulNonNegative(a: real, b: real)
    requires a >= 0.0 && b >= 0.0
    ensures a * b >= 0.0
  {
  }

  /** Whether segment `i` or a later one of `wps` is within `tolerance` of the point. */
  function NearFrom(dist: Distance, wps: seq<Point>, x: real, y: real, tolerance: real, i: nat): bool
    decreases |wps| - i
  {
    if i + 1 >= |wps| then false
    else if DistanceToLineSegment(dist, x, y, wps[i].x, wps[i].y, wps[i + 1].x, wps[i + 1].y) <= tolerance then true
    else NearFrom(dist, wps, x, y, tolerance, i + 1)
  }

  predicate SegmentNear(dist: Distance, wps: seq<Point>, x: real, y: real, tolerance: real, i: nat)
    requires i + 1 < |wps|
  {
    DistanceToLineSegment(dist, x, y, wps[i].x, wps[i].y, wps[i + 1].x, wps[i + 1].y) <= tolerance
  }

  /** The early-exit scan finds a near segment exactly when one exists at or after `i`. */
  lemma {:induction false} NearFromIffSomeSegment(dist: Distance, wps: seq<Point>, x: real, y: real, tolerance: real, i: nat)
    ensures NearFrom(dist, wps, x, y, tolerance, i)
        <==> exists j: nat :: i <= j && j + 1 < |wps| && SegmentNear(dist, wps, x, y, tolerance, j)
    decreases |wps| - i
  {
    if i + 1 < |wps| && !SegmentNear(dist, wps, x, y, tolerance, i) {
      NearFromIffSomeSegment(dist, wps, x, y, tolerance, i + 1);
      if exists j: nat :: i <= j && j + 1 < |wps| && SegmentNear(dist, wps, x, y, tolerance, j) {
        var j: nat :| i <= j && j + 1 < |wps| && SegmentNear(dist, wps, x, y, tolerance, j);
        assert j != i;
      }
    }
  }

  /** `isOnPath`: false without a main path; otherwise whether some segment is within tolerance. */
  function IsOnPath(paths: seq<Path>, dist: Distance, x: real, y: real, tolerance: real): (r: bool)
    ensures paths == [] || |paths[0].waypoints| < 2 ==> !r
    ensures paths != [] ==>
      (r <==> exists j: nat :: j + 1 < |paths[0].waypoints| && SegmentNear(dist, paths[0].waypoints, x, y, tolerance, j))
  {
    match MainPath(paths)
    case None => false
    case Some(path) =>
      NearFromIffSomeSegment(dist, path.waypoints, x, y, tolerance, 0);
      NearFrom(dist, path.waypoints, x, y, tolerance, 0)
  }
}
