/**
 * A path through the FX map: a named list of world-space waypoints, with the
 * position at a fraction of the path's length and the total length.  Segment
 * lengths come from the injected distance function.
 *
 * Where the source divides by a zero segment length the double result is not
 * finite (NaN or infinite); the model returns None for such a position.
 */
module GridPath {
  import opened Wrappers
  import opened Math2D
  import opened Numerics

  datatype Path = Path(name: string, waypoints: seq<Point>)

  /** `GridMap.getMainPath()`: the first path, and none when the map has no paths. */
  function MainPath(paths: seq<Path>): (r: Option<Path>)
    ensures r.None? <==> paths == []
    ensures r.Some? ==> r.value == paths[0] && r.value in paths
  {
    if paths == [] then None else Some(paths[0])
  }

  /** The number of segments between consecutive waypoints. */
  function SegmentCount(wps: seq<Point>): nat
  {
    if |wps| < 2 then 0 else |wps| - 1
  }

  function SegmentLength(dist: Distance, wps: seq<Point>, i: nat): (r: real)
    requires i + 1 < |wps|
    ensures r >= 0.0
  {
    PointDistance(dist, wps[i], wps[i + 1])
  }

  /** The summed length of the first `k` segments. */
  function LengthUpTo(dist: Distance, wps: seq<Point>, k: nat): (r: real)
    requires k <= SegmentCount(wps)
  {
    if k == 0 then 0.0 else LengthUpTo(dist, wps, k - 1) + SegmentLength(dist, wps, k - 1)
  }

  /** The length of the whole path: 0 with fewer than two waypoints. */
  function TotalLength(dist: Distance, wps: seq<Point>): real
  {
    LengthUpTo(dist, wps, SegmentCount(wps))
  }

  lemma {:induction false} LengthUpToMonotone(dist: Distance, wps: seq<Point>, j: nat, k: nat)
    requires j <= k <= SegmentCount(wps)
    ensures 0.0 <= LengthUpTo(dist, wps, j) <= LengthUpTo(dist, wps, k)
    decreases k
  {
    if k > j {
      LengthUpToMonotone(dist, wps, j, k - 1);
    } else if j > 0 {
      LengthUpToMonotone(dist, wps, j - 1, j - 1);
    }
  }

  /** A path is never of negative length, and a path of fewer than two waypoints has none. */
  lemma TotalLengthBasics(dist: Distance, wps: seq<Point>)
    ensures TotalLength(dist, wps) >= 0.0
    ensures |wps| < 2 ==> TotalLength(dist, wps) == 0.0
  {
    LengthUpToMonotone(dist, wps, 0, SegmentCount(wps));
  }

  /** Appending a waypoint adds exactly the new segment to the length. */
  lemma {:induction false} TotalLengthSnoc(dist: Distance, wps: seq<Point>, p: Point)
    requires |wps| >= 1
    ensures TotalLength(dist, wps + [p]) == TotalLength(dist, wps) + PointDistance(dist, wps[|wps| - 1], p)
  {
    var w := wps + [p];
    assert SegmentCount(w) == |wps|;
    assert forall k: nat :: k < |wps| ==> w[k] == wps[k];
    PrefixLength(dist, wps, w, SegmentCount(wps));
  }

  /** Lengths of common prefixes agree. */
  lemma {:induction false} PrefixLength(dist: Distance, a: seq<Point>, b: seq<Point>, k: nat)
    requires k <= SegmentCount(a) && k <= SegmentCount(b)
    requires forall i: nat :: i <= k && i < |a| ==> i < |b| && a[i] == b[i]
    ensures LengthUpTo(dist, a, k) == LengthUpTo(dist, b, k)
  {
    if k > 0 {
      PrefixLength(dist, a, b, k - 1);
    }
  }

  /** The point a fraction `t` along the segment from `a` to `b`. */
  function Along(a: Point, b: Point, t: real): Point
  {
    Point(Lerp(a.x, b.x, t), Lerp(a.y, b.y, t))
  }

  /**
   * The source's scan from segment `i`, with `current` the length already
   * passed: the first segment that reaches `target` is interpolated; past the
   * last segment the last waypoint is the answer.
   */
  function ScanFrom(dist: Distance, wps: seq<Point>, i: nat, current: real, target: real): Option<Point>
    requires |wps| >= 1
    decreases |wps| - i
  {
    if i + 1 >= |wps| then Some(wps[|wps| - 1])
    else
      var segment := SegmentLength(dist, wps, i);
      if current + segment >= target then
        if segment == 0.0 then None
        else Some(Along(wps[i], wps[i + 1], (target - current) / segment))
      else ScanFrom(dist, wps, i + 1, current + segment, target)
  }

  /** `Path.getPositionAt(progress)`. */
  function PositionAt(dist: Distance, wps: seq<Point>, progress: real): Option<Point>
  {
    if wps == [] then Some(Point(0.0, 0.0))
    else if progress <= 0.0 then Some(wps[0])
    else if progress >= 1.0 then Some(wps[|wps| - 1])
    else ScanFrom(dist, wps, 0, 0.0, progress * TotalLength(dist, wps))
  }

  /** Strictly inside (0, 1) the position is the scan towards that fraction of the length. */
  lemma PositionAtInside(dist: Distance, wps: seq<Point>, progress: real)
    requires wps != [] && 0.0 < progress < 1.0
    ensures PositionAt(dist, wps, progress) == ScanFrom(dist, wps, 0, 0.0, progress * TotalLength(dist, wps))
  {
  }

  /** The endpoints: the origin for no waypoints, the first at progress ≤ 0, the last at ≥ 1. */
  lemma PositionAtEndpoints(dist: Distance, wps: seq<Point>, progress: real)
    ensures wps == [] ==> PositionAt(dist, wps, progress) == Some(Point(0.0, 0.0))
    ensures wps != [] && progress <= 0.0 ==> PositionAt(dist, wps, progress) == Some(wps[0])
    ensures wps != [] && progress >= 1.0 ==> PositionAt(dist, wps, progress) == Some(wps[|wps| - 1])
  {
  }

  /** `p` lies on some segment of the path. */
  ghost predicate OnPath(wps: seq<Point>, p: Point)
  {
    exists i: nat :: i + 1 < |wps| && OnSegment(wps[i], wps[i + 1], p)
  }

  /** `p` lies on the segment from `a` to `b`. */
  ghost predicate OnSegment(a: Point, b: Point, p: Point)
  {
    exists t: real :: 0.0 <= t <= 1.0 && p == Along(a, b, t)
  }

  lemma {:induction false} ScanStaysOnPath(dist: Distance, wps: seq<Point>, i: nat, current: real, target: real)
    requires |wps| >= 2 && i + 1 <= |wps|
    requires current < target
    ensures ScanFrom(dist, wps, i, current, target).Some?
    ensures OnPath(wps, ScanFrom(dist, wps, i, current, target).value)
    decreases |wps| - i
  {
    var k: nat := |wps| - 2;
    if i + 1 >= |wps| {
      assert Along(wps[k], wps[k + 1], 1.0) == wps[|wps| - 1];
      assert OnSegment(wps[k], wps[k + 1], wps[|wps| - 1]);
    } else {
      var segment := SegmentLength(dist, wps, i);
      if current + segment >= target {
        var t := (target - current) / segment;
        QuotientInUnit(target - current, segment);
        assert OnSegment(wps[i], wps[i + 1], Along(wps[i], wps[i + 1], t));
      } else {
        ScanStaysOnPath(dist, wps, i + 1, current + segment, target);
      }
    }
  }

  /**
   * On a path of positive length every position is a finite point on one of
   * the segments, whatever the progress.
   */
  lemma PositionIsOnPath(dist: Distance, wps: seq<Point>, progress: real)
    requires |wps| >= 2 && TotalLength(dist, wps) > 0.0
    ensures PositionAt(dist, wps, progress).Some?
    ensures OnPath(wps, PositionAt(dist, wps, progress).value)
  {
    if progress <= 0.0 {
      var first: nat := 0;
      assert Along(wps[first], wps[first + 1], 0.0) == wps[0];
      assert OnSegment(wps[first], wps[first + 1], wps[0]);
    } else if progress >= 1.0 {
      var k: nat := |wps| - 2;
      assert Along(wps[k], wps[k + 1], 1.0) == wps[|wps| - 1];
      assert OnSegment(wps[k], wps[k + 1], wps[|wps| - 1]);
    } else {
      assert progress * TotalLength(dist, wps) > 0.0;
      ScanStaysOnPath(dist, wps, 0, 0.0, progress * TotalLength(dist, wps));
    }
  }

  /** `Path.getTotalLength()`: the loop over consecutive waypoint pairs. */
  method GetTotalLength(path: Path, dist: Distance) returns (length: real)
    ensures length == TotalLength(dist, path.waypoints)
    ensures length >= 0.0
  {
    var wps := path.waypoints;
    length := 0.0;
    var i := 0;
    while i < |wps| - 1
      invariant 0 <= i <= SegmentCount(wps)
      invariant length == LengthUpTo(dist, wps, i)
    {
      length := length + PointDistance(dist, wps[i], wps[i + 1]);
      i := i + 1;
    }
    TotalLengthBasics(dist, wps);
  }

  /** `Path.getPositionAt(progress)`, with its early returns; None stands for a non-finite point. */
  method GetPositionAt(path: Path, dist: Distance, progress: real) returns (p: Option<Point>)
    ensures p == PositionAt(dist, path.waypoints, progress)
  {
    var wps := path.waypoints;
    if |wps| == 0 {
      return Some(Point(0.0, 0.0));
    }
    if progress <= 0.0 {
      return Some(wps[0]);
    }
    if progress >= 1.0 {
      return Some(wps[|wps| - 1]);
    }
    var totalLength := GetTotalLength(path, dist);
    PositionAtInside(dist, wps, progress);
    p := ScanSegments(wps, dist, progress * totalLength);
  }

  /** The segment loop of `Path.getPositionAt`, walking towards `targetDistance`. */
  method ScanSegments(wps: seq<Point>, dist: Distance, targetDistance: real) returns (p: Option<Point>)
    requires |wps| >= 1
    ensures p == ScanFrom(dist, wps, 0, 0.0, targetDistance)
  {
    var currentDistance := 0.0;
    ghost var expected := ScanFrom(dist, wps, 0, 0.0, targetDistance);
    var i := 0;
    while i < |wps| - 1
      invariant 0 <= i <= SegmentCount(wps)
      invariant ScanFrom(dist, wps, i, currentDistance, targetDistance) == expected
    {
      var from := wps[i];
      var to := wps[i + 1];
      var segmentLength := PointDistance(dist, from, to);
      if currentDistance + segmentLength >= targetDistance {
        if segmentLength == 0.0 {
          return None;
        }
        var segmentProgress := (targetDistance - currentDistance) / segmentLength;
        return Some(Point(Lerp(from.x, to.x, segmentProgress), Lerp(from.y, to.y, segmentProgress)));
      }
      currentDistance := currentDistance + segmentLength;
      i := i + 1;
    }
    return Some(wps[|wps| - 1]);
  }
}
