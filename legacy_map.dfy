/**
 * The older engine's map: the tile grid, the waypoint routes enemies walk,
 * and the fixed map layout with its two routes and its slot positions.
 * Points are `Point2D` values with real coordinates; a waypoint is a tile
 * coordinate stored as a point.
 */
module LegacyMap {
  import opened Wrappers
  import opened Numerics
  import opened Math2D
  import opened LegacyConfig

  /**
   * A tile kind.  The map only ever uses GRASS; the other kinds of the
   * `Tile` enumeration are carried by a code.
   */
  datatype Tile = Grass | OtherTile(code: nat)

  /** A tile coordinate pair, as `pixelToTile` returns it. */
  datatype Cell = Cell(x: int, y: int)

  /** The point with integer tile coordinates `(x, y)`. */
  function TilePoint(x: int, y: int): Point
  {
    Point(x as real, y as real)
  }

  // ----- Grid: coordinate conversions -------------------------------------

  /** `Grid.tileToPixel`: the top-left pixel of a tile. */
  function TileToPixel(x: int, y: int): (p: Point)
    ensures p.x == x as real * TILE && p.y == y as real * TILE
  {
    Point(x as real * TILE, y as real * TILE)
  }

  /**
   * `Grid.pixelToTile`: each pixel coordinate divided by the tile size and
   * truncated toward zero by the int cast.  A non-negative coordinate lands
   * in the tile that contains it.
   */
  function GridPixelToTile(px: real, py: real): (c: Cell)
    ensures 0.0 <= px ==> c.x as real * TILE <= px < (c.x + 1) as real * TILE
    ensures 0.0 <= py ==> c.y as real * TILE <= py < (c.y + 1) as real * TILE
  {
    var c := Cell(TruncateToInt(px / TILE), TruncateToInt(py / TILE));
    WithinTile(px, c.x);
    WithinTile(py, c.y);
    c
  }

  /** A non-negative pixel coordinate whose truncated tile quotient is `t` lies in tile `t`. */
  lemma WithinTile(p: real, t: int)
    requires 0.0 <= p ==> t == TruncateToInt(p / TILE)
    ensures 0.0 <= p ==> t as real * TILE <= p < (t + 1) as real * TILE
  {
    if 0.0 <= p {
      var q := p / TILE;
      assert q * TILE == p;
      assert t as real <= q < t as real + 1.0;
    }
  }

  /** `getTileCenter`: the centre pixel of a tile, half a tile in from its corner. */
  function TileCentre(x: int, y: int): (p: Point)
    ensures x as real * TILE < p.x < (x + 1) as real * TILE
    ensures y as real * TILE < p.y < (y + 1) as real * TILE
  {
    Point(x as real * TILE + TILE / 2.0, y as real * TILE + TILE / 2.0)
  }

  /**
   * Truncating the centre of a tile gives the tile back exactly for tiles of
   * non-negative coordinates; for a negative coordinate the truncation rounds
   * toward zero and lands one tile off.
   */
  lemma GridCentreRoundTrip(x: int, y: int)
    ensures var p := TileCentre(x, y);
      GridPixelToTile(p.x, p.y) == Cell(x, y) <==> 0 <= x && 0 <= y
  {
    TruncatedCentre(x);
    TruncatedCentre(y);
  }

  lemma TruncatedCentre(t: int)
    ensures TruncateToInt((t as real * TILE + TILE / 2.0) / TILE) == t <==> 0 <= t
  {
    var v := (t as real * TILE + TILE / 2.0) / TILE;
    assert v == t as real + 0.5;
    if 0 <= t {
      TruncateCellCentre(t, TILE, TILE / 2.0);
    } else {
      assert v < 0.0;
    }
  }

  /**
   * `Grid.getDistance`: the distance between the two tile centres, in tiles.
   * The square root is the injected distance.
   */
  function TileDistance(dist: Distance, x1: int, y1: int, x2: int, y2: int): (d: real)
    ensures d >= 0.0
  {
    var c1 := TileCentre(x1, y1);
    var c2 := TileCentre(x2, y2);
    PointDistance(dist, c1, c2) / TILE
  }

  /** Where the distance is Euclidean at both orders, the tile distance is symmetric. */
  lemma TileDistanceSymmetric(dist: Distance, x1: int, y1: int, x2: int, y2: int)
    requires var c1, c2 := TileCentre(x1, y1), TileCentre(x2, y2);
      Measures(dist, c1.x, c1.y, c2.x, c2.y) && Measures(dist, c2.x, c2.y, c1.x, c1.y)
    ensures TileDistance(dist, x1, y1, x2, y2) == TileDistance(dist, x2, y2, x1, y1)
  {
    var c1, c2 := TileCentre(x1, y1), TileCentre(x2, y2);
    DistanceSquaredSymmetric(c1.x, c1.y, c2.x, c2.y);
    SquareRootUnique(dist(c1.x, c1.y, c2.x, c2.y), dist(c2.x, c2.y, c1.x, c1.y));
  }

  /** Where the distance is Euclidean, a tile is at distance zero from itself. */
  lemma TileDistanceToSelf(dist: Distance, x: int, y: int)
    requires var c := TileCentre(x, y); Measures(dist, c.x, c.y, c.x, c.y)
    ensures TileDistance(dist, x, y, x, y) == 0.0
  {
    var c := TileCentre(x, y);
    var d := PointDistance(dist, c, c);
    assert d * d == 0.0 * 0.0;
    SquareRootUnique(d, 0.0);
    assert TileDistance(dist, x, y, x, y) == d / TILE;
  }

  /** Two non-negative numbers with the same square are equal. */
  lemma SquareRootUnique(a: real, b: real)
    requires 0.0 <= a && 0.0 <= b && a * a == b * b
    ensures a == b
  {
    if a < b {
      SquareStrictlyMonotone(a, b);
    } else if b < a {
      SquareStrictlyMonotone(b, a);
    }
  }

  // ----- Grid: the tile array ---------------------------------------------

  /** The tile grid, `GRID_W` columns by `GRID_H` rows, indexed `[x, y]`. */
  class Grid {
    const width: int
    const height: int
    const tiles: array2<Tile>

    predicate Valid()
      reads this
    {
      width == GRID_W && height == GRID_H && tiles.Length0 == width && tiles.Length1 == height
    }

    /** Every cell starts as grass. */
    constructor()
      ensures Valid() && fresh(tiles)
      ensures forall x, y :: 0 <= x < GRID_W && 0 <= y < GRID_H ==> tiles[x, y] == Grass
    {
      width := GRID_W;
      height := GRID_H;
      var cells := new Tile[GRID_W, GRID_H];
      var x := 0;
      while x < GRID_W
        invariant 0 <= x <= GRID_W
        invariant forall i, j :: 0 <= i < x && 0 <= j < GRID_H ==> cells[i, j] == Grass
      {
        var y := 0;
        while y < GRID_H
          invariant 0 <= y <= GRID_H
          invariant forall i, j :: 0 <= i < x && 0 <= j < GRID_H ==> cells[i, j] == Grass
          invariant forall j :: 0 <= j < y ==> cells[x, j] == Grass
        {
          cells[x, y] := Grass;
          y := y + 1;
        }
        x := x + 1;
      }
      tiles := cells;
    }

    /** `isValidCoordinate`: the cell lies inside the tile array. */
    predicate IsValidCoordinate(x: int, y: int)
      reads this
    {
      0 <= x < width && 0 <= y < height
    }

    /** `getTile`: the stored tile, and GRASS for any cell outside the grid. */
    function GetTile(x: int, y: int): (t: Tile)
      requires Valid()
      reads this, tiles
      ensures !IsValidCoordinate(x, y) ==> t == Grass
      ensures 0 <= x < tiles.Length0 && 0 <= y < tiles.Length1 ==> t == tiles[x, y]
    {
      if IsValidCoordinate(x, y) then tiles[x, y] else Grass
    }

    /**
     * `setTile`: writes the one cell when it lies inside the grid and ignores
     * the call otherwise; every other cell keeps its tile.
     */
    method SetTile(x: int, y: int, tile: Tile)
      requires Valid()
      modifies tiles
      ensures Valid()
      ensures IsValidCoordinate(x, y) ==> GetTile(x, y) == tile
      ensures forall i, j :: 0 <= i < width && 0 <= j < height && (i != x || j != y) ==>
        tiles[i, j] == old(tiles[i, j])
      ensures !IsValidCoordinate(x, y) ==> unchanged(tiles)
    {
      if IsValidCoordinate(x, y) {
        tiles[x, y] := tile;
      }
    }
  }

  // ----- Route --------------------------------------------------------------

  /** The length of waypoint segment `i`, from waypoint `i` to waypoint `i + 1`. */
  function SegmentLength(dist: Distance, ps: seq<Point>, i: nat): (r: real)
    requires i + 1 < |ps|
    ensures r >= 0.0
  {
    PointDistance(dist, ps[i], ps[i + 1])
  }

  /** The length of segments `lo .. hi - 1`, adding one segment after another. */
  function SpanLength(dist: Distance, ps: seq<Point>, lo: nat, hi: nat): (r: real)
    requires lo <= hi && (lo < hi ==> hi < |ps|)
    ensures r >= 0.0
    decreases hi - lo
  {
    if lo == hi then 0.0 else SpanLength(dist, ps, lo, hi - 1) + SegmentLength(dist, ps, hi - 1)
  }

  /** The sum of the distances between consecutive waypoints. */
  function PathLength(dist: Distance, ps: seq<Point>): (r: real)
    ensures r >= 0.0
    ensures |ps| < 2 ==> r == 0.0
  {
    if |ps| < 2 then 0.0 else SpanLength(dist, ps, 0, |ps| - 1)
  }

  /** A span only reads the waypoints it spans, so appending a waypoint leaves it alone. */
  lemma {:induction false} SpanLengthAppend(dist: Distance, ps: seq<Point>, p: Point, lo: nat, hi: nat)
    requires lo <= hi && (lo < hi ==> hi < |ps|)
    ensures SpanLength(dist, ps + [p], lo, hi) == SpanLength(dist, ps, lo, hi)
    decreases hi - lo
  {
    if lo < hi {
      SpanLengthAppend(dist, ps, p, lo, hi - 1);
      assert (ps + [p])[hi - 1] == ps[hi - 1] && (ps + [p])[hi] == ps[hi];
    }
  }

  /** A span splits at any waypoint between its ends. */
  lemma {:induction false} SpanLengthSplit(dist: Distance, ps: seq<Point>, lo: nat, mid: nat, hi: nat)
    requires lo <= mid <= hi && (lo < hi ==> hi < |ps|)
    ensures SpanLength(dist, ps, lo, hi) == SpanLength(dist, ps, lo, mid) + SpanLength(dist, ps, mid, hi)
    decreases hi - mid
  {
    if mid < hi {
      SpanLengthSplit(dist, ps, lo, mid, hi - 1);
    }
  }

  /** Appending a waypoint adds the one new segment to the route's length. */
  lemma PathLengthAppend(dist: Distance, ps: seq<Point>, p: Point)
    requires |ps| >= 1
    ensures PathLength(dist, ps + [p]) == PathLength(dist, ps) + PointDistance(dist, ps[|ps| - 1], p)
  {
    var qs := ps + [p];
    assert qs[|ps| - 1] == ps[|ps| - 1] && qs[|ps|] == p;
    if |ps| >= 2 {
      SpanLengthAppend(dist, ps, p, 0, |ps| - 1);
    }
  }

  /** A path with the route's waypoints, walked in order. */
  class Route {
    const name: string
    var waypoints: seq<Point>

    constructor(name: string)
      ensures this.name == name && waypoints == []
    {
      this.name := name;
      waypoints := [];
    }

    /** `addWaypoint(x, y)`: appends the tile coordinate as a point. */
    method AddWaypointAt(x: int, y: int)
      modifies this`waypoints
      ensures waypoints == old(waypoints) + [TilePoint(x, y)]
    {
      waypoints := waypoints + [TilePoint(x, y)];
    }

    /** `addWaypoint(point)`: appends the point. */
    method AddWaypoint(p: Point)
      modifies this`waypoints
      ensures waypoints == old(waypoints) + [p]
    {
      waypoints := waypoints + [p];
    }

    /**
     * `getWaypoints` returns a copy: later appends to the route do not show
     * in it, which a value sequence says by itself.
     */
    method GetWaypoints() returns (ps: seq<Point>)
      ensures ps == waypoints
    {
      ps := waypoints;
    }

    /** `getWaypoint`: the point at an index inside the list, null outside it. */
    function GetWaypoint(index: int): (r: Option<Point>)
      reads this`waypoints
      ensures r.Some? <==> 0 <= index < |waypoints|
      ensures r.Some? ==> r.value == waypoints[index]
    {
      if 0 <= index < |waypoints| then Some(waypoints[index]) else None
    }

    /** `getStartPoint`: null exactly for an empty route, else the first waypoint. */
    function StartPoint(): (r: Option<Point>)
      reads this`waypoints
      ensures r.None? <==> waypoints == []
      ensures r.Some? ==> r.value == waypoints[0]
    {
      if waypoints == [] then None else Some(waypoints[0])
    }

    /** `getEndPoint`: null exactly for an empty route, else the last waypoint. */
    function EndPoint(): (r: Option<Point>)
      reads this`waypoints
      ensures r.None? <==> waypoints == []
      ensures r.Some? ==> r.value == waypoints[|waypoints| - 1]
    {
      if waypoints == [] then None else Some(waypoints[|waypoints| - 1])
    }

    /**
     * `getPixelPosition`, with the route's own waypoints; `PathPixel` states
     * what it returns.
     */
    function PixelPosition(index: int, progress: real): (r: Option<Point>)
      reads this`waypoints
      ensures r == PathPixel(waypoints, index, progress)
    {
      PathPixel(waypoints, index, progress)
    }

    /** `getTotalLength`: adds up the consecutive waypoint distances in a loop. */
    method TotalLength(dist: Distance) returns (length: real)
      ensures length == PathLength(dist, waypoints)
    {
      length := 0.0;
      var i := 0;
      while i < |waypoints| - 1
        invariant i == 0 || i < |waypoints|
        invariant length == SpanLength(dist, waypoints, 0, i)
      {
        length := length + PointDistance(dist, waypoints[i], waypoints[i + 1]);
        i := i + 1;
      }
    }
  }

  /**
   * The pixel a fraction `progress` of the way along segment `index` of a
   * waypoint list, between the centres of its two waypoint tiles; null unless
   * the segment exists.
   */
  function PathPixel(ps: seq<Point>, index: int, progress: real): (r: Option<Point>)
    ensures r.Some? <==> 0 <= index < |ps| - 1
    ensures r.Some? && progress == 0.0 ==> r.value == WaypointCentre(ps[index])
    ensures r.Some? && progress == 1.0 ==> r.value == WaypointCentre(ps[index + 1])
    ensures r.Some? && 0.0 <= progress <= 1.0 ==>
      var a, b := WaypointCentre(ps[index]), WaypointCentre(ps[index + 1]);
      Min(a.x, b.x) <= r.value.x <= Max(a.x, b.x) && Min(a.y, b.y) <= r.value.y <= Max(a.y, b.y)
  {
    if index < 0 || index >= |ps| - 1 then None
    else
      var a := WaypointCentre(ps[index]);
      var b := WaypointCentre(ps[index + 1]);
      Some(Point(Lerp(a.x, b.x, progress), Lerp(a.y, b.y, progress)))
  }

  /** The pixel centre of a waypoint's tile. */
  function WaypointCentre(w: Point): Point
  {
    Point(w.x * TILE + TILE / 2.0, w.y * TILE + TILE / 2.0)
  }

  /** A waypoint with integer coordinates has its centre where the grid puts it. */
  lemma WaypointCentreIsTileCentre(x: int, y: int)
    ensures WaypointCentre(TilePoint(x, y)) == TileCentre(x, y)
  {
  }

  // ----- MapDefinition ------------------------------------------------------

  /** Route A, the left lane straight down column 0. */
  function RouteAPath(): seq<Point>
  {
    [TilePoint(0, 0), TilePoint(0, 1), TilePoint(0, 2), TilePoint(0, 3), TilePoint(0, 4),
     TilePoint(0, 5), TilePoint(0, 6), TilePoint(0, 7), TilePoint(0, 8)]
  }

  /** Route B: along row 0, down column 10, then back left along row 6. */
  function RouteBPath(): seq<Point>
  {
    [TilePoint(1, 0), TilePoint(2, 0), TilePoint(3, 0), TilePoint(4, 0), TilePoint(5, 0),
     TilePoint(6, 0), TilePoint(7, 0), TilePoint(8, 0), TilePoint(9, 0), TilePoint(10, 0),
     TilePoint(10, 1), TilePoint(10, 2), TilePoint(10, 3), TilePoint(10, 4), TilePoint(10, 5),
     TilePoint(10, 6), TilePoint(9, 6), TilePoint(8, 6), TilePoint(7, 6), TilePoint(6, 6)]
  }

  /** Two points one tile apart horizontally or vertically. */
  predicate Adjacent(p: Point, q: Point)
  {
    (p.x == q.x && (q.y - p.y == 1.0 || p.y - q.y == 1.0))
      || (p.y == q.y && (q.x - p.x == 1.0 || p.x - q.x == 1.0))
  }

  /** Every step of a path goes to a neighbouring tile. */
  predicate Connected(ps: seq<Point>)
  {
    forall i :: 0 <= i < |ps| - 1 ==> Adjacent(ps[i], ps[i + 1])
  }

  /** Route A has 9 waypoints, and each moves one tile down. */
  lemma RouteAIsConnected()
    ensures |RouteAPath()| == 9 && Connected(RouteAPath())
  {
    var a := RouteAPath();
    forall i | 0 <= i < |a| - 1
      ensures Adjacent(a[i], a[i + 1])
    {
      assert a[i] == TilePoint(0, i) && a[i + 1] == TilePoint(0, i + 1);
    }
  }

  /** Route B has 20 waypoints, and each moves one tile along the row or column. */
  lemma RouteBIsConnected()
    ensures |RouteBPath()| == 20 && Connected(RouteBPath())
  {
    var b := RouteBPath();
    forall i | 0 <= i < |b| - 1
      ensures Adjacent(b[i], b[i + 1])
    {
      if i < 9 {
        assert b[i] == TilePoint(i + 1, 0) && b[i + 1] == TilePoint(i + 2, 0);
      } else if i < 15 {
        assert b[i] == TilePoint(10, i - 9) && b[i + 1] == TilePoint(10, i - 8);
      } else {
        assert b[i] == TilePoint(25 - i, 6) && b[i + 1] == TilePoint(24 - i, 6);
      }
    }
  }

  /** `routeAPath.contains(new Point2D(x, y))`: column 0, rows 0 to 8. */
  lemma OnRouteA(x: int, y: int)
    ensures TilePoint(x, y) in RouteAPath() <==> x == 0 && 0 <= y <= 8
  {
    if x == 0 && 0 <= y <= 8 {
      assert RouteAPath()[y] == TilePoint(x, y);
    }
  }

  /**
   * `routeBPath.contains(new Point2D(x, y))`: row 0 from column 1 to 10,
   * column 10 from row 0 to 6, and row 6 from column 6 to 10.
   */
  lemma OnRouteB(x: int, y: int)
    ensures TilePoint(x, y) in RouteBPath() <==>
      (y == 0 && 1 <= x <= 10) || (x == 10 && 0 <= y <= 6) || (y == 6 && 6 <= x <= 10)
  {
    var b := RouteBPath();
    if y == 0 && 1 <= x <= 10 {
      assert b[x - 1] == TilePoint(x, y);
    } else if x == 10 && 0 <= y <= 6 {
      assert b[9 + y] == TilePoint(x, y);
    } else if y == 6 && 6 <= x <= 10 {
      assert b[25 - x] == TilePoint(x, y);
    }
  }

  /** The kinds of path sprite a tile on a route takes. */
  datatype PathTileType = NoPath | Horizontal | Vertical | CornerLeftDown | CornerUpLeft

  /**
   * `getPathTileType`: vertical on route A; on route B horizontal along the
   * rows, vertical down column 10, and the two corners; NONE off both
   * routes.  Stated by coordinates, with the route membership worked out.
   */
  function PathTileTypeAt(x: int, y: int): (r: PathTileType)
    ensures r == Vertical <==> (x == 0 && 0 <= y <= 8) || (x == 10 && 1 <= y <= 5)
    ensures r == Horizontal <==> (y == 0 && 1 <= x <= 9) || (y == 6 && 6 <= x <= 9)
    ensures r == CornerLeftDown <==> x == 10 && y == 0
    ensures r == CornerUpLeft <==> x == 10 && y == 6
  {
    OnRouteA(x, y);
    OnRouteB(x, y);
    var pos := TilePoint(x, y);
    if pos in RouteAPath() then Vertical
    else if pos in RouteBPath() then
      if y == 0 && 1 <= x <= 9 then Horizontal
      else if x == 10 && 1 <= y <= 5 then Vertical
      else if y == 6 && 6 <= x <= 9 then Horizontal
      else if x == 10 && y == 0 then CornerLeftDown
      else if x == 10 && y == 6 then CornerUpLeft
      else NoPath
    else NoPath
  }

  /** Every tile of either route has a path sprite, and no other tile has one. */
  lemma PathTilesAreRouteTiles(x: int, y: int)
    ensures PathTileTypeAt(x, y) != NoPath <==> TilePoint(x, y) in RouteAPath() || TilePoint(x, y) in RouteBPath()
  {
    OnRouteA(x, y);
    OnRouteB(x, y);
  }

  /** The ten build slots. */
  const BUILD_SLOTS: set<Point> := {
    TilePoint(2, 2), TilePoint(3, 2), TilePoint(2, 3), TilePoint(3, 3), TilePoint(2, 5),
    TilePoint(9, 2), TilePoint(9, 3), TilePoint(9, 4), TilePoint(9, 6), TilePoint(6, 5)}

  /** The sand pad strip. */
  const SAND_PAD_POSITIONS: set<Point> := {TilePoint(7, 1), TilePoint(8, 1), TilePoint(9, 1)}

  /** The two speed-bump markers, both on a route. */
  const SPEED_BUMP_SLOTS: set<Point> := {TilePoint(0, 3), TilePoint(10, 2)}

  /** The one bomb marker. */
  const BOMB_SLOTS: set<Point> := {TilePoint(9, 6)}

  /** The decorative rocks. */
  const ROCK_POSITIONS: set<Point> := {TilePoint(4, 3), TilePoint(3, 6), TilePoint(5, 7)}

  /** Tile points are equal exactly when their coordinates are. */
  lemma TilePointInjective(x1: int, y1: int, x2: int, y2: int)
    ensures TilePoint(x1, y1) == TilePoint(x2, y2) <==> x1 == x2 && y1 == y2
  {
  }

  /**
   * The slot sets hold 10, 3, 2, 1 and 3 distinct tiles.  The speed-bump
   * markers lie on the routes, and the bomb marker (9, 6) is both a build
   * slot and a tile of route B.
   */
  lemma SlotLayout()
    ensures |BUILD_SLOTS| == 10 && |SAND_PAD_POSITIONS| == 3 && |SPEED_BUMP_SLOTS| == 2
    ensures |BOMB_SLOTS| == 1 && |ROCK_POSITIONS| == 3
    ensures TilePoint(0, 3) in RouteAPath() && TilePoint(10, 2) in RouteBPath()
    ensures TilePoint(9, 6) in BUILD_SLOTS && TilePoint(9, 6) in RouteBPath()
  {
    OnRouteA(0, 3);
    OnRouteB(10, 2);
    OnRouteB(9, 6);
  }

  /** The fixed map layout. */
  class MapDefinition {
    const routeAPath: seq<Point>
    const routeBPath: seq<Point>

    /** Route A is the literal list; route B is built by three loops and two corners. */
    constructor()
      ensures routeAPath == RouteAPath() && routeBPath == RouteBPath()
    {
      routeAPath := RouteAPath();
      var builder: seq<Point> := [];
      for x := 1 to 10
        invariant builder == RouteBPath()[..x - 1]
      {
        builder := builder + [TilePoint(x, 0)];
      }
      builder := builder + [TilePoint(10, 0)];
      for y := 1 to 6
        invariant builder == RouteBPath()[..9 + y]
      {
        builder := builder + [TilePoint(10, y)];
      }
      builder := builder + [TilePoint(10, 6)];
      var x := 9;
      while x >= 6
        invariant 5 <= x <= 9
        invariant builder == RouteBPath()[..25 - x]
      {
        builder := builder + [TilePoint(x, 6)];
        x := x - 1;
      }
      assert builder == RouteBPath();
      routeBPath := builder;
    }

    /** `isBuildSlot`: the tile is one of the ten build slots. */
    predicate IsBuildSlot(x: int, y: int)
    {
      TilePoint(x, y) in BUILD_SLOTS
    }

    predicate IsSpeedBumpSlot(x: int, y: int)
    {
      TilePoint(x, y) in SPEED_BUMP_SLOTS
    }

    predicate IsBombSlot(x: int, y: int)
    {
      TilePoint(x, y) in BOMB_SLOTS
    }

    predicate IsSandPad(x: int, y: int)
    {
      TilePoint(x, y) in SAND_PAD_POSITIONS
    }

    predicate IsRockPosition(x: int, y: int)
    {
      TilePoint(x, y) in ROCK_POSITIONS
    }

    /** The slot predicates hold at exactly the listed coordinates. */
    lemma SlotMembership(x: int, y: int)
      ensures IsBuildSlot(x, y) <==> (x, y) in {(2, 2), (3, 2), (2, 3), (3, 3), (2, 5), (9, 2), (9, 3), (9, 4), (9, 6), (6, 5)}
      ensures IsSpeedBumpSlot(x, y) <==> (x, y) in {(0, 3), (10, 2)}
      ensures IsBombSlot(x, y) <==> (x, y) == (9, 6)
    {
    }

    /**
     * `getRoutes`: two new routes each call, named A and B, holding the two
     * waypoint lists in order.
     */
    method GetRoutes() returns (routes: seq<Route>)
      ensures |routes| == 2 && fresh(routes[0]) && fresh(routes[1]) && routes[0] != routes[1]
      ensures routes[0].name == "Route A" && routes[0].waypoints == routeAPath
      ensures routes[1].name == "Route B" && routes[1].waypoints == routeBPath
    {
      var routeA := new Route("Route A");
      FillRoute(routeA, routeAPath);
      var routeB := new Route("Route B");
      FillRoute(routeB, routeBPath);
      routes := [routeA, routeB];
    }
  }

  /** Appends every point of `path` to the route, one after another. */
  method FillRoute(route: Route, path: seq<Point>)
    modifies route`waypoints
    ensures route.waypoints == old(route.waypoints) + path
  {
    ghost var start := route.waypoints;
    for i := 0 to |path|
      invariant route.waypoints == start + path[..i]
    {
      route.AddWaypoint(path[i]);
      assert path[..i + 1] == path[..i] + [path[i]];
    }
    assert path[..|path|] == path;
  }
}
