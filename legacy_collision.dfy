/**
 * The older engine's static `Collision` helpers: range tests between entity
 * centres, the two filters that collect living entities near a point, the
 * obstacle test along a shot's line, and the pixel/tile conversions.  An
 * entity enters these helpers only through its identity, its alive flag and
 * its centre, so a list of entities is a list of `Body` snapshots; `id`
 * stands for object identity.
 */
module LegacyCollision {
  import opened Numerics
  import opened Wrappers
  import opened Math2D
  import opened LegacyConfig

  /** What the helpers read of an entity: identity, alive flag and `getCenter()`. */
  datatype Body = Body(id: nat, alive: bool, centre: Point)

  /** `isInRange(e1, e2, range)`: the centres are at most `range` apart. */
  predicate IsInRange(dist: Distance, a: Body, b: Body, range: real)
  {
    PointDistance(dist, a.centre, b.centre) <= range
  }

  /** `getDistance(e1, e2)`: the distance between the centres. */
  function GetDistance(dist: Distance, a: Body, b: Body): (r: real)
    ensures r >= 0.0
    ensures Measures(dist, a.centre.x, a.centre.y, b.centre.x, b.centre.y) ==> r * r == DistanceSquared(a.centre.x, a.centre.y, b.centre.x, b.centre.y)
  {
    PointDistance(dist, a.centre, b.centre)
  }

  /** Where the distance is Euclidean, `isInRange` is the squared-distance test. */
  lemma IsInRangeExact(dist: Distance, a: Body, b: Body, range: real)
    requires Measures(dist, a.centre.x, a.centre.y, b.centre.x, b.centre.y)
    ensures IsInRange(dist, a, b, range) <==> WithinDistance(a.centre.x, a.centre.y, b.centre.x, b.centre.y, range)
  {
    MeasuredWithin(dist, a.centre.x, a.centre.y, b.centre.x, b.centre.y, range);
  }

  // ----- The two filters ------------------------------------------------------

  /** The test `getEntitiesInRange` applies to each entity. */
  predicate KeptInRange(dist: Distance, center: Body, b: Body, range: real)
  {
    b.id != center.id && b.alive && IsInRange(dist, center, b, range)
  }

  /**
   * The list `getEntitiesInRange` returns: the entities of `es`, in order,
   * that are not `center` itself, are alive and lie within `range` of it.
   */
  function EntitiesInRange(dist: Distance, center: Body, es: seq<Body>, range: real): (r: seq<Body>)
    ensures |r| <= |es|
    ensures forall b :: b in r <==> b in es && KeptInRange(dist, center, b, range)
    ensures center !in r
  {
    if es == [] then []
    else
      var rest := EntitiesInRange(dist, center, es[..|es| - 1], range);
      var b := es[|es| - 1];
      assert forall x :: x in es <==> x in es[..|es| - 1] || x == b;
      if KeptInRange(dist, center, b, range) then rest + [b] else rest
  }

  /** The loop of `getEntitiesInRange`, one entity at a time. */
  method GetEntitiesInRange(dist: Distance, center: Body, es: seq<Body>, range: real) returns (found: seq<Body>)
    ensures found == EntitiesInRange(dist, center, es, range)
  {
    found := [];
    var i := 0;
    while i < |es|
      invariant 0 <= i <= |es|
      invariant found == EntitiesInRange(dist, center, es[..i], range)
    {
      var b := es[i];
      assert es[..i + 1][..i] == es[..i];
      if b.id == center.id || !b.alive {
        i := i + 1;
        continue;
      }
      if IsInRange(dist, center, b, range) {
        found := found + [b];
      }
      i := i + 1;
    }
    assert es[..|es|] == es;
  }

  /** The test `getEntitiesInArea` applies to each entity. */
  predicate KeptInArea(dist: Distance, center: Point, b: Body, radius: real)
  {
    b.alive && PointDistance(dist, b.centre, center) <= radius
  }

  /**
   * The list `getEntitiesInArea` returns: the living entities of `es`, in
   * order, whose centre lies within `radius` of the point.
   */
  function EntitiesInArea(dist: Distance, center: Point, es: seq<Body>, radius: real): (r: seq<Body>)
    ensures |r| <= |es|
    ensures forall b :: b in r <==> b in es && KeptInArea(dist, center, b, radius)
  {
    if es == [] then []
    else
      var rest := EntitiesInArea(dist, center, es[..|es| - 1], radius);
      var b := es[|es| - 1];
      assert forall x :: x in es <==> x in es[..|es| - 1] || x == b;
      if KeptInArea(dist, center, b, radius) then rest + [b] else rest
  }

  /** The loop of `getEntitiesInArea`. */
  method GetEntitiesInArea(dist: Distance, center: Point, es: seq<Body>, radius: real) returns (found: seq<Body>)
    ensures found == EntitiesInArea(dist, center, es, radius)
  {
    found := [];
    var i := 0;
    while i < |es|
      invariant 0 <= i <= |es|
      invariant found == EntitiesInArea(dist, center, es[..i], radius)
    {
      var b := es[i];
      assert es[..i + 1][..i] == es[..i];
      if !b.alive {
        i := i + 1;
        continue;
      }
      var distance := PointDistance(dist, b.centre, center);
      if distance <= radius {
        found := found + [b];
      }
      i := i + 1;
    }
    assert es[..|es|] == es;
  }

  /**
   * The two filters agree on an entity other than the centre: where the
   * distance is symmetric at their centres, an entity is in range of an
   * entity exactly when it is in the area around that entity's centre.
   */
  lemma {:induction false} RangeIsAreaWithoutCentre(dist: Distance, center: Body, es: seq<Body>, range: real)
    requires forall b :: b in es ==> PointDistance(dist, center.centre, b.centre) == PointDistance(dist, b.centre, center.centre)
    requires forall b :: b in es ==> b.id != center.id
    ensures EntitiesInRange(dist, center, es, range) == EntitiesInArea(dist, center.centre, es, range)
  {
    if es != [] {
      var b := es[|es| - 1];
      assert es[..|es| - 1] <= es;
      RangeIsAreaWithoutCentre(dist, center, es[..|es| - 1], range);
    }
  }

  // ----- Line of sight ----------------------------------------------------------

  /** The point a fraction `s` of the way from `start` to `end`. */
  function OnSegment(start: Point, end: Point, s: real): (p: Point)
    ensures s == 0.0 ==> p == start
    ensures s == 1.0 ==> p == end
  {
    Point(start.x + s * (end.x - start.x), start.y + s * (end.y - start.y))
  }

  /** The squared length `C*C + D*D` of the segment. */
  function LengthSquared(start: Point, end: Point): (r: real)
    ensures r >= 0.0
    ensures r == 0.0 <==> start == end
  {
    var c := end.x - start.x;
    var d := end.y - start.y;
    SquaresVanish(c, d, c * c + d * d);
    c * c + d * d
  }

  /** A sum of two squares is non-negative, and zero only when both terms are. */
  lemma SquaresVanish(c: real, d: real, k: real)
    requires k == c * c + d * d
    ensures k >= 0.0
    ensures k == 0.0 ==> c == 0.0 && d == 0.0
  {
    if c != 0.0 { SquarePositive(c, c * c); }
    if d != 0.0 { SquarePositive(d, d * d); }
    if c == 0.0 { assert c * c == 0.0; }
    if d == 0.0 { assert d * d == 0.0; }
  }

  /** The square `k` of a non-zero number is positive. */
  lemma SquarePositive(c: real, k: real)
    requires c != 0.0 && k == c * c
    ensures k > 0.0
  {
    if c < 0.0 {
      SquareStrictlyMonotone(0.0, -c);
      assert c * c == (-c) * (-c);
    } else {
      SquareStrictlyMonotone(0.0, c);
    }
  }

  /** The dot product `A*C + B*D` of the point's offset with the segment. */
  function Dot(start: Point, end: Point, p: Point): real
  {
    (p.x - start.x) * (end.x - start.x) + (p.y - start.y) * (end.y - start.y)
  }

  /**
   * The fraction of the segment the point projects to, clamped to the
   * segment: 0 for a degenerate segment or a negative projection, 1 past the
   * end, and `dot / lenSq` otherwise.
   */
  function ClampedParam(start: Point, end: Point, p: Point): (t: real)
    ensures 0.0 <= t <= 1.0
    ensures start == end ==> t == 0.0
  {
    var lenSq := LengthSquared(start, end);
    if lenSq == 0.0 then 0.0
    else
      var param := Dot(start, end, p) / lenSq;
      if param < 0.0 then 0.0 else if param > 1.0 then 1.0 else param
  }

  /**
   * The point `(xx, yy)` of `distanceFromPointToLine`: the start of a
   * degenerate segment, else the start, the end or the projection, as the
   * projection falls before, past or on the segment.
   */
  function Closest(start: Point, end: Point, p: Point): (q: Point)
  {
    var lenSq := LengthSquared(start, end);
    if lenSq == 0.0 then start
    else
      var c := end.x - start.x;
      var d := end.y - start.y;
      var param := Dot(start, end, p) / lenSq;
      if param < 0.0 then start
      else if param > 1.0 then end
      else Point(start.x + param * c, start.y + param * d)
  }

  /** The squared distance between two points. */
  function Gap(p: Point, q: Point): (r: real)
    ensures r >= 0.0
  {
    DistanceSquared(q.x, q.y, p.x, p.y)
  }

  /**
   * `distanceFromPointToLine`: the distance from the point to the closest
   * point of the segment.  For a degenerate segment that is the distance
   * from the start, which is also what `Closest` gives.
   */
  function DistanceFromPointToLine(dist: Distance, start: Point, end: Point, p: Point): (r: real)
    ensures r >= 0.0
    ensures Measures(dist, Closest(start, end, p).x, Closest(start, end, p).y, p.x, p.y) ==> r * r == Gap(p, Closest(start, end, p))
  {
    if LengthSquared(start, end) == 0.0 then PointDistance(dist, start, p)
    else PointDistance(dist, Closest(start, end, p), p)
  }

  /** `e(s) = a2 - 2 s dot + s^2 len`, the squared distance to the point at fraction `s`. */
  function Quadratic(a2: real, dot: real, len: real, s: real): real
  {
    a2 - 2.0 * s * dot + s * s * len
  }

  /** The squared distance from `p` to the point at fraction `s`, expanded. */
  lemma GapExpanded(start: Point, end: Point, p: Point, s: real)
    ensures Gap(p, OnSegment(start, end, s)) == Quadratic(Gap(p, start), Dot(start, end, p), LengthSquared(start, end), s)
  {
    var ax := p.x - start.x;
    var ay := p.y - start.y;
    var c := end.x - start.x;
    var d := end.y - start.y;
    calc {
      Gap(p, OnSegment(start, end, s));
    == { GapIs(p, OnSegment(start, end, s), ax - s * c, ay - s * d); }
      (ax - s * c) * (ax - s * c) + (ay - s * d) * (ay - s * d);
    == { Expansion(ax, ay, c, d, s); }
      Quadratic(ax * ax + ay * ay, ax * c + ay * d, c * c + d * d, s);
    == { GapIs(p, start, ax, ay); }
      Quadratic(Gap(p, start), Dot(start, end, p), LengthSquared(start, end), s);
    }
  }

  /** The squared distance from the differences of the coordinates. */
  lemma GapIs(p: Point, q: Point, u: real, v: real)
    requires p.x - q.x == u && p.y - q.y == v
    ensures Gap(p, q) == u * u + v * v
  {
  }

  /** `|A - sV|^2 = |A|^2 - 2 s (A.V) + s^2 |V|^2`. */
  lemma Expansion(ax: real, ay: real, c: real, d: real, s: real)
    ensures (ax - s * c) * (ax - s * c) + (ay - s * d) * (ay - s * d)
         == Quadratic(ax * ax + ay * ay, ax * c + ay * d, c * c + d * d, s)
  {
    SquareOfDifference(ax, s, c);
    SquareOfDifference(ay, s, d);
    Regroup(ax * ax, ay * ay, ax * c, ay * d, c * c, d * d, s);
  }

  lemma SquareOfDifference(a: real, s: real, c: real)
    ensures (a - s * c) * (a - s * c) == a * a - 2.0 * s * (a * c) + s * s * (c * c)
  {
  }

  lemma Regroup(x1: real, x2: real, y1: real, y2: real, z1: real, z2: real, s: real)
    ensures (x1 - 2.0 * s * y1 + s * s * z1) + (x2 - 2.0 * s * y2 + s * s * z2)
         == (x1 + x2) - 2.0 * s * (y1 + y2) + s * s * (z1 + z2)
  {
  }

  /**
   * On [0, 1] the quadratic `e(s) = a2 - 2 s dot + s^2 len` is least at the
   * clamped vertex `t`: at 0 when `dot <= 0`, at 1 when `dot >= len`, and at
   * `t = dot / len` otherwise.
   */
  lemma QuadraticLeastAt(a2: real, dot: real, len: real, s: real, t: real)
    requires len >= 0.0 && 0.0 <= s <= 1.0
    requires (t == 0.0 && dot <= 0.0) || (t == 1.0 && dot >= len) || dot == t * len
    ensures Quadratic(a2, dot, len, t) <= Quadratic(a2, dot, len, s)
  {
    if t == 0.0 && dot <= 0.0 {
      ProductNonNegative(s, -dot);
      ProductNonNegative(s * s, len);
      assert 2.0 * s * dot == -2.0 * (s * (-dot));
    } else if t == 1.0 && dot >= len {
      var u := 1.0 - s;
      var w := 2.0 * dot - len * (1.0 + s);
      assert w >= 0.0 by {
        assert len * (1.0 + s) <= len * 2.0;
      }
      ProductNonNegative(u, w);
      assert (a2 - 2.0 * s * dot + s * s * len) - (a2 - 2.0 * dot + len) == u * w;
    } else {
      assert 2.0 * s * dot == 2.0 * s * t * len;
      assert 2.0 * t * dot == 2.0 * t * t * len;
      assert (a2 - 2.0 * s * dot + s * s * len) - (a2 - 2.0 * t * dot + t * t * len) == len * ((s - t) * (s - t));
      SquareNonNegative(s - t);
      ProductNonNegative(len, (s - t) * (s - t));
    }
  }

  lemma ProductPositive(x: real, y: real, k: real)
    requires x > 0.0 && y > 0.0 && k == x * y
    ensures k > 0.0
  {
  }

  /** The clamped fraction is one of the three cases of QuadraticLeastAt. */
  lemma ClampedParamCases(start: Point, end: Point, p: Point)
    ensures var t := ClampedParam(start, end, p);
      var dot := Dot(start, end, p);
      var len := LengthSquared(start, end);
      (t == 0.0 && dot <= 0.0) || (t == 1.0 && dot >= len) || dot == t * len
  {
    var len := LengthSquared(start, end);
    var dot := Dot(start, end, p);
    if len == 0.0 {
      assert start == end;
      assert dot == 0.0;
    } else {
      var param := dot / len;
      assert dot == param * len;
      assert len > 0.0;
      if param < 0.0 {
        ProductPositive(-param, len, -dot);
      } else if param > 1.0 {
        ProductPositive(param - 1.0, len, dot - len);
      }
    }
  }

  /** The closest point is the point at the clamped fraction. */
  lemma ClosestAtClampedParam(start: Point, end: Point, p: Point)
    ensures Closest(start, end, p) == OnSegment(start, end, ClampedParam(start, end, p))
  {
    var len := LengthSquared(start, end);
    if len != 0.0 {
      var param := Dot(start, end, p) / len;
      if param > 1.0 {
        assert OnSegment(start, end, 1.0) == end;
      } else if 0.0 <= param {
        assert ClampedParam(start, end, p) == param;
      }
    }
  }

  /**
   * The point `distanceFromPointToLine` measures to is a nearest point of the
   * segment: no point of the segment is closer.
   */
  lemma ClosestIsNearest(start: Point, end: Point, p: Point, s: real)
    requires 0.0 <= s <= 1.0
    ensures Gap(p, Closest(start, end, p)) <= Gap(p, OnSegment(start, end, s))
  {
    var t := ClampedParam(start, end, p);
    ClosestAtClampedParam(start, end, p);
    GapExpanded(start, end, p, s);
    GapExpanded(start, end, p, t);
    ClampedParamCases(start, end, p);
    QuadraticLeastAt(Gap(p, start), Dot(start, end, p), LengthSquared(start, end), s, t);
  }

  /** Half a tile: the clearance `hasLineOfSight` demands of every obstacle. */
  const CLEARANCE: real := TILE_SIZE as real / 2.0

  /** An obstacle blocks the line when it is closer than half a tile to it. */
  predicate Blocks(dist: Distance, start: Point, end: Point, o: Point)
  {
    DistanceFromPointToLine(dist, start, end, o) < CLEARANCE
  }

  /**
   * `hasLineOfSight`: a missing or empty obstacle list leaves the line clear;
   * otherwise it is clear exactly when no obstacle blocks it.
   */
  method HasLineOfSight(dist: Distance, start: Point, end: Point, obstacles: Option<seq<Point>>) returns (clear: bool)
    ensures obstacles.None? ==> clear
    ensures obstacles.Some? ==> (clear <==> forall i :: 0 <= i < |obstacles.value| ==> !Blocks(dist, start, end, obstacles.value[i]))
  {
    if obstacles.None? || |obstacles.value| == 0 {
      return true;
    }
    var os := obstacles.value;
    var i := 0;
    while i < |os|
      invariant 0 <= i <= |os|
      invariant forall j :: 0 <= j < i ==> !Blocks(dist, start, end, os[j])
    {
      var distanceToLine := DistanceFromPointToLine(dist, start, end, os[i]);
      if distanceToLine < CLEARANCE {
        return false;
      }
      i := i + 1;
    }
    return true;
  }

  /**
   * Where the distance is Euclidean at the measured pair, an obstacle blocks
   * the line exactly when some point of the segment lies strictly within half
   * a tile of it: the closest point is a witness in one direction, and no
   * point of the segment is nearer than the closest one in the other.
   */
  lemma BlocksExactly(dist: Distance, start: Point, end: Point, o: Point, s: real)
    requires Measures(dist, Closest(start, end, o).x, Closest(start, end, o).y, o.x, o.y)
    requires 0.0 <= s <= 1.0
    ensures Blocks(dist, start, end, o) <==> Gap(o, Closest(start, end, o)) < CLEARANCE * CLEARANCE
    ensures Gap(o, OnSegment(start, end, s)) < CLEARANCE * CLEARANCE ==> Blocks(dist, start, end, o)
    ensures Blocks(dist, start, end, o) ==> Gap(o, OnSegment(start, end, ClampedParam(start, end, o))) < CLEARANCE * CLEARANCE
  {
    var q := Closest(start, end, o);
    var r := DistanceFromPointToLine(dist, start, end, o);
    RootBelow(r, Gap(o, q), CLEARANCE);
    ClosestIsNearest(start, end, o, s);
    ClosestAtClampedParam(start, end, o);
  }

  /** A non-negative root of `g` is below a positive limit exactly when `g` is below its square. */
  lemma RootBelow(r: real, g: real, limit: real)
    requires r >= 0.0 && r * r == g && limit > 0.0
    ensures r < limit <==> g < limit * limit
  {
    if r < limit {
      SquareStrictlyMonotone(r, limit);
    } else {
      assert limit * limit <= limit * r <= r * r;
    }
  }

  // ----- Points and tiles ---------------------------------------------------------

  /** `isPointInCircle`. */
  predicate IsPointInCircle(dist: Distance, p: Point, c: Point, radius: real)
  {
    PointDistance(dist, p, c) <= radius
  }

  /** `isPointInRectangle`: the closed rectangle from the top-left corner. */
  predicate IsPointInRectangle(p: Point, topLeft: Point, width: real, height: real)
  {
    topLeft.x <= p.x <= topLeft.x + width && topLeft.y <= p.y <= topLeft.y + height
  }

  /** `getTileCenter`: the pixel centre of a tile. */
  function GetTileCenter(tileX: int, tileY: int): (c: Point)
    ensures c.x - CLEARANCE == (tileX * TILE_SIZE) as real && c.y - CLEARANCE == (tileY * TILE_SIZE) as real
  {
    Point((tileX * TILE_SIZE) as real + TILE_SIZE as real / 2.0, (tileY * TILE_SIZE) as real + TILE_SIZE as real / 2.0)
  }

  /** The floored tile index of one pixel coordinate. */
  function TileIndex(pixel: real): (t: int)
    ensures (t * TILE_SIZE) as real <= pixel < ((t + 1) * TILE_SIZE) as real
  {
    var t := FloorToInt(pixel / TILE_SIZE as real);
    assert t as real * 64.0 <= pixel < (t as real + 1.0) * 64.0;
    t
  }

  /** `pixelToTile`: the floored tile coordinates, as doubles. */
  function PixelToTile(px: real, py: real): (t: Point)
    ensures t == Point(TileIndex(px) as real, TileIndex(py) as real)
  {
    Point((px / TILE_SIZE as real).Floor as real, (py / TILE_SIZE as real).Floor as real)
  }

  /** `isValidTileCoordinate`: inside the 11 x 9 grid. */
  predicate IsValidTileCoordinate(x: int, y: int)
  {
    x >= 0 && x < GRID_W && y >= 0 && y < GRID_H
  }

  /** A tile's centre converts back to the tile. */
  lemma TileCenterRoundTrip(tileX: int, tileY: int)
    ensures PixelToTile(GetTileCenter(tileX, tileY).x, GetTileCenter(tileX, tileY).y) == Point(tileX as real, tileY as real)
  {
    var c := GetTileCenter(tileX, tileY);
    var tx := TileIndex(c.x);
    var ty := TileIndex(c.y);
    assert (tx * TILE_SIZE) as real < ((tileX + 1) * TILE_SIZE) as real;
    assert (tileX * TILE_SIZE) as real < ((tx + 1) * TILE_SIZE) as real;
    assert tx * 64 < (tileX + 1) * 64 && tileX * 64 < (tx + 1) * 64;
    assert (ty * TILE_SIZE) as real < ((tileY + 1) * TILE_SIZE) as real;
    assert (tileY * TILE_SIZE) as real < ((ty + 1) * TILE_SIZE) as real;
    assert ty * 64 < (tileY + 1) * 64 && tileY * 64 < (ty + 1) * 64;
  }

  /** Every pixel lies within half a tile, on each axis, of its tile's centre. */
  lemma PixelNearTileCenter(px: real, py: real)
    ensures var c := GetTileCenter(TileIndex(px), TileIndex(py));
      -CLEARANCE <= px - c.x < CLEARANCE && -CLEARANCE <= py - c.y < CLEARANCE
  {
    var tx := TileIndex(px);
    var ty := TileIndex(py);
    assert ((tx + 1) * TILE_SIZE) as real == (tx * TILE_SIZE) as real + 64.0;
    assert ((ty + 1) * TILE_SIZE) as real == (ty * TILE_SIZE) as real + 64.0;
  }

  /** A tile is on the grid exactly when its centre lies on the map. */
  lemma ValidTileIsOnMap(x: int, y: int)
    ensures IsValidTileCoordinate(x, y) <==> IsPointInRectangle(GetTileCenter(x, y), Point(0.0, 0.0), MAP_WIDTH as real, MAP_HEIGHT as real)
  {
    assert MAP_WIDTH == 704 && MAP_HEIGHT == 576;
    var c := GetTileCenter(x, y);
    if 0.0 <= c.x <= 704.0 {
      assert -32 <= x * 64 <= 672;
    }
    if 0.0 <= c.y <= 576.0 {
      assert -32 <= y * 64 <= 544;
    }
  }
}
