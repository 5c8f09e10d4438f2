/**
 * The FX map's grid: tiles and their derived flags, the build slots the
 * player builds on, the conversions between grid cells and world pixels, and
 * the integer line walk that paints the path tiles between two waypoints.
 */
module Grid {
  import opened Wrappers
  import opened Numerics
  import opened Math2D
  import opened Selection
  import opened GridPath
  import opened Actors

  // ---------------------------------------------------------------------
  // Tiles
  // ---------------------------------------------------------------------

  datatype TileType = Ground | PathTile | Blocked | Castle

  /** A tile: its type and sprite, and the two flags derived from the type. */
  datatype Tile = Tile(tileType: TileType, spriteIndex: int, walkable: bool, buildable: bool)

  /** `new Tile(type, spriteIndex)`. */
  function NewTile(t: TileType, spriteIndex: int): (r: Tile)
    ensures r.tileType == t && r.spriteIndex == spriteIndex
  {
    Tile(t, spriteIndex, t == Ground || t == PathTile || t == Castle, t == Ground)
  }

  /** `isPath`: the tile's type is PATH. */
  predicate IsPath(t: Tile)
  {
    t.tileType == PathTile
  }

  /**
   * Every tile the constructor makes is walkable exactly when it is not
   * blocked, buildable exactly when it is ground, and so buildable only if
   * walkable; a path tile is walkable and not buildable.
   */
  lemma TileFlags(t: TileType, spriteIndex: int)
    ensures var tile := NewTile(t, spriteIndex);
      && (tile.walkable <==> t != Blocked)
      && (tile.buildable <==> t == Ground)
      && (tile.buildable ==> tile.walkable)
      && (IsPath(tile) <==> t == PathTile)
      && (IsPath(tile) ==> tile.walkable && !tile.buildable)
  {
  }

  // ---------------------------------------------------------------------
  // Cells and world positions
  // ---------------------------------------------------------------------

  /** `gridToWorld(col, row)`: the centre of the cell. */
  function CellCentre(tileSize: real, col: int, row: int): Point
  {
    Point(col as real * tileSize + tileSize / 2.0, row as real * tileSize + tileSize / 2.0)
  }

  /** `worldToGrid(x, y)`: each coordinate divided by the tile size and truncated toward zero. */
  function CellAt(tileSize: real, x: real, y: real): (r: Point)
    requires tileSize > 0.0
    ensures 0.0 <= x ==> r.x * tileSize <= x < (r.x + 1.0) * tileSize
    ensures 0.0 <= y ==> r.y * tileSize <= y < (r.y + 1.0) * tileSize
  {
    var c := TruncateToInt(x / tileSize);
    var r := TruncateToInt(y / tileSize);
    TruncatedCell(x, tileSize);
    TruncatedCell(y, tileSize);
    Point(c as real, r as real)
  }

  lemma TruncatedCell(v: real, tileSize: real)
    requires tileSize > 0.0
    ensures 0.0 <= v ==> TruncateToInt(v / tileSize) as real * tileSize <= v < (TruncateToInt(v / tileSize) as real + 1.0) * tileSize
  {
    if 0.0 <= v {
      var q := v / tileSize;
      QuotientSign(v, tileSize);
      var k := TruncateToInt(q) as real;
      QuotientUpper(v, tileSize, k);
      QuotientLower(v, tileSize, k);
    }
  }

  lemma QuotientSign(v: real, d: real)
    requires d > 0.0 && v >= 0.0
    ensures v / d >= 0.0
  {
  }

  lemma QuotientUpper(v: real, d: real, k: real)
    requires d > 0.0 && v / d < k + 1.0
    ensures v < (k + 1.0) * d
  {
    var u := k + 1.0;
    assert v / d < u;
  }

  lemma QuotientLower(v: real, d: real, k: real)
    requires d > 0.0 && k <= v / d
    ensures k * d <= v
  {
  }

  /** The centre of a cell with non-negative coordinates converts back to that cell. */
  lemma CellCentreRoundTrip(tileSize: real, col: int, row: int)
    requires tileSize > 0.0 && col >= 0 && row >= 0
    ensures CellAt(tileSize, CellCentre(tileSize, col, row).x, CellCentre(tileSize, col, row).y) == Point(col as real, row as real)
  {
    TruncateCellCentre(col, tileSize, tileSize / 2.0);
    TruncateCellCentre(row, tileSize, tileSize / 2.0);
  }

  // ---------------------------------------------------------------------
  // Build slots
  // ---------------------------------------------------------------------

  /** A predefined place on the grid that holds at most one tower or one AA defence. */
  class BuildSlot {
    const col: int
    const row: int
    const worldX: real
    const worldY: real
    var tower: Tower?
    var aaDefense: AADefense?
    var occupied: bool

    /** The slot is occupied exactly when it holds a structure, and it never holds both kinds. */
    ghost predicate Valid()
      reads this`tower, this`aaDefense, this`occupied
    {
      && (occupied <==> tower != null || aaDefense != null)
      && !(tower != null && aaDefense != null)
    }

    /** `new BuildSlot(col, row, tileSize)`: free, centred in its cell. */
    constructor (col: int, row: int, tileSize: real)
      ensures Valid() && !occupied && tower == null && aaDefense == null
      ensures this.col == col && this.row == row
      ensures Point(worldX, worldY) == CellCentre(tileSize, col, row)
    {
      this.col, this.row := col, row;
      worldX := col as real * tileSize + tileSize / 2.0;
      worldY := row as real * tileSize + tileSize / 2.0;
      tower, aaDefense, occupied := null, null, false;
    }

    /** `canBuild`. */
    predicate CanBuild()
      reads this`occupied
    {
      !occupied
    }

    /**
     * `placeTower`: on a free slot stores the tower, occupies the slot and
     * moves the tower to the slot's centre; on an occupied slot nothing
     * changes.
     */
    method PlaceTower(t: Tower)
      requires Valid()
      modifies this`tower, this`occupied, t`x, t`y
      ensures Valid() && occupied
      ensures old(CanBuild()) ==> tower == t && t.Position() == Point(worldX, worldY)
      ensures !old(CanBuild()) ==> tower == old(tower) && unchanged(t)
    {
      if CanBuild() {
        tower := t;
        occupied := true;
        t.SetPosition(worldX, worldY);
      }
    }

    /** `placeAADefense`: the same as `placeTower`, for an AA defence. */
    method PlaceAADefense(aa: AADefense)
      requires Valid()
      modifies this`aaDefense, this`occupied, aa`x, aa`y
      ensures Valid() && occupied
      ensures old(CanBuild()) ==> aaDefense == aa && aa.Position() == Point(worldX, worldY)
      ensures !old(CanBuild()) ==> aaDefense == old(aaDefense) && unchanged(aa)
    {
      if CanBuild() {
        aaDefense := aa;
        occupied := true;
        aa.SetPosition(worldX, worldY);
      }
    }
  }

  /** Whether the slot's centre is within `tolerance` of the point. */
  predicate SlotWithin(slot: BuildSlot, x: real, y: real, tolerance: real, dist: Distance)
  {
    dist(x, y, slot.worldX, slot.worldY) <= tolerance
  }

  /**
   * `find*SlotAt`: the first slot in list order whose centre is within the
   * tolerance, and null when there is none.
   */
  method FindSlotAt(slots: seq<BuildSlot>, x: real, y: real, tolerance: real, dist: Distance) returns (slot: BuildSlot?)
    ensures slot == null <==> forall j | 0 <= j < |slots| :: !SlotWithin(slots[j], x, y, tolerance, dist)
    ensures slot != null ==> exists k | 0 <= k < |slots| ::
      && slots[k] == slot && SlotWithin(slot, x, y, tolerance, dist)
      && forall j | 0 <= j < k :: !SlotWithin(slots[j], x, y, tolerance, dist)
  {
    var i := 0;
    while i < |slots|
      invariant 0 <= i <= |slots|
      invariant forall j | 0 <= j < i :: !SlotWithin(slots[j], x, y, tolerance, dist)
    {
      if dist(x, y, slots[i].worldX, slots[i].worldY) <= tolerance {
        return slots[i];
      }
      i := i + 1;
    }
    return null;
  }

  // ---------------------------------------------------------------------
  // The line walk of fillPathBetween
  // ---------------------------------------------------------------------

  datatype Cell = Cell(col: int, row: int)

  function AbsInt(a: int): (r: nat)
    ensures r == a || r == -a
  {
    if a < 0 then -a else a
  }

  /** The constants of a walk: the step on each axis and the doubled spans. */
  datatype Line = Line(xInc: int, yInc: int, dx2: int, dy2: int)

  /** The walker's position and its error term. */
  datatype Walker = Walker(x: int, y: int, error: int)

  function LineOf(x1: int, y1: int, x2: int, y2: int): Line
  {
    Line(if x2 > x1 then 1 else -1, if y2 > y1 then 1 else -1, 2 * AbsInt(x2 - x1), 2 * AbsInt(y2 - y1))
  }

  /** One step: along x while the error is positive, else along y. */
  function Advance(l: Line, w: Walker): Walker
  {
    if w.error > 0 then Walker(w.x + l.xInc, w.y, w.error - l.dy2)
    else Walker(w.x, w.y + l.yInc, w.error + l.dx2)
  }

  /** The cells of the next `n` visits. */
  function Visits(l: Line, w: Walker, n: nat): (r: seq<Cell>)
    ensures |r| == n
    decreases n
  {
    if n == 0 then [] else [Cell(w.x, w.y)] + Visits(l, Advance(l, w), n - 1)
  }

  /** The walker after `k` steps. */
  function Iterate(l: Line, w: Walker, k: nat): Walker
  {
    if k == 0 then w else Advance(l, Iterate(l, w, k - 1))
  }

  /** The start of a walk from `(x1, y1)` to `(x2, y2)`. */
  function StartOf(x1: int, y1: int, x2: int, y2: int): Walker
  {
    Walker(x1, y1, AbsInt(x2 - x1) - AbsInt(y2 - y1))
  }

  /** The set of cells `fillPathBetween` visits. */
  function WalkCells(x1: int, y1: int, x2: int, y2: int): set<Cell>
  {
    set v | v in Walk(x1, y1, x2, y2)
  }

  /** Every cell `fillPathBetween` visits, in order. */
  function Walk(x1: int, y1: int, x2: int, y2: int): seq<Cell>
  {
    Visits(LineOf(x1, y1, x2, y2), StartOf(x1, y1, x2, y2), 1 + AbsInt(x2 - x1) + AbsInt(y2 - y1))
  }

  /** The index of the last visit of `cell` in `w`, or -1 when it is never visited. */
  function LastVisit(w: seq<Cell>, cell: Cell): (i: int)
    ensures -1 <= i < |w|
    ensures i == -1 <==> cell !in w
    ensures i >= 0 ==> w[i] == cell && forall j | i < j < |w| :: w[j] != cell
  {
    if w == [] then -1
    else if w[|w| - 1] == cell then |w| - 1
    else LastVisit(w[..|w| - 1], cell)
  }

  /** One more visit makes its cell's last visit the newest and leaves every other cell's alone. */
  lemma LastVisitSnoc(w: seq<Cell>, v: Cell)
    ensures forall cell :: LastVisit(w + [v], cell) == if cell == v then |w| else LastVisit(w, cell)
  {
    assert (w + [v])[..|w|] == w;
  }

  lemma {:induction false} VisitsAt(l: Line, w: Walker, n: nat, i: nat)
    requires i < n
    ensures Visits(l, w, n)[i] == Cell(Iterate(l, w, i).x, Iterate(l, w, i).y)
    decreases i
  {
    if i > 0 {
      VisitsAt(l, Advance(l, w), n - 1, i - 1);
      IterateShift(l, w, i - 1);
    }
  }

  lemma {:induction false} IterateShift(l: Line, w: Walker, k: nat)
    ensures Iterate(l, Advance(l, w), k) == Iterate(l, w, k + 1)
  {
    if k > 0 {
      IterateShift(l, w, k - 1);
    }
  }

  /** `a` cells from `from` toward `to` along one axis. */
  function Toward(from: int, to: int, a: int): int
  {
    if to > from then from + a else from - a
  }

  /** The error term after `a` steps along x and `b` along y. */
  function ErrorAfter(dx: int, dy: int, a: int, b: int): int
  {
    dx - dy - 2 * dy * a + 2 * dx * b
  }

  lemma ErrorAfterStepX(dx: int, dy: int, a: int, b: int)
    ensures ErrorAfter(dx, dy, a + 1, b) == ErrorAfter(dx, dy, a, b) - 2 * dy
  {
    assert dy * (a + 1) == dy * a + dy;
  }

  lemma ErrorAfterStepY(dx: int, dy: int, a: int, b: int)
    ensures ErrorAfter(dx, dy, a, b + 1) == ErrorAfter(dx, dy, a, b) + 2 * dx
  {
    assert dx * (b + 1) == dx * b + dx;
  }

  /** Once every x step is made the error is not positive, while y steps remain. */
  lemma ErrorAfterAllX(dx: int, dy: int, b: int)
    requires 0 <= dx && 0 <= b < dy
    ensures ErrorAfter(dx, dy, dx, b) <= -dx - dy
  {
    assert dx * (dy - 1 - b) >= 0;
    assert dy * dx == dx * dy;
  }

  /** Once every y step is made the error is positive, while x steps remain. */
  lemma ErrorAfterAllY(dx: int, dy: int, a: int)
    requires 0 <= dy && 0 <= a < dx
    ensures ErrorAfter(dx, dy, a, dy) >= dx + dy
  {
    assert dy * (dx - 1 - a) >= 0;
    assert dy * dx == dx * dy;
  }

  /** The walker's state after `a` steps along x and `b` along y. */
  function WalkerAfter(x1: int, y1: int, x2: int, y2: int, a: int, b: int): Walker
  {
    Walker(Toward(x1, x2, a), Toward(y1, y2, b), ErrorAfter(AbsInt(x2 - x1), AbsInt(y2 - y1), a, b))
  }

  /**
   * After `k` of the `dx + dy` steps the walker has made `a` steps along x and
   * `b` along y, never more than the spans `dx` and `dy`.
   */
  lemma {:induction false} StepCounts(x1: int, y1: int, x2: int, y2: int, k: nat) returns (a: nat, b: nat)
    requires k <= AbsInt(x2 - x1) + AbsInt(y2 - y1)
    ensures a + b == k && a <= AbsInt(x2 - x1) && b <= AbsInt(y2 - y1)
    ensures Iterate(LineOf(x1, y1, x2, y2), StartOf(x1, y1, x2, y2), k) == WalkerAfter(x1, y1, x2, y2, a, b)
  {
    var dx, dy := AbsInt(x2 - x1), AbsInt(y2 - y1);
    if k == 0 {
      return 0, 0;
    }
    var a0, b0 := StepCounts(x1, y1, x2, y2, k - 1);
    var w := WalkerAfter(x1, y1, x2, y2, a0, b0);
    if w.error > 0 {
      if a0 == dx {
        ErrorAfterAllX(dx, dy, b0);
        assert false;
      }
      ErrorAfterStepX(dx, dy, a0, b0);
      a, b := a0 + 1, b0;
    } else {
      if b0 == dy {
        ErrorAfterAllY(dx, dy, a0);
        assert false;
      }
      ErrorAfterStepY(dx, dy, a0, b0);
      a, b := a0, b0 + 1;
    }
  }

  /**
   * The walk makes exactly `1 + |dx| + |dy|` visits, starts on `(x1, y1)` and
   * ends on `(x2, y2)`.
   */
  lemma WalkShape(x1: int, y1: int, x2: int, y2: int)
    ensures var w := Walk(x1, y1, x2, y2);
      && |w| == 1 + AbsInt(x2 - x1) + AbsInt(y2 - y1)
      && w[0] == Cell(x1, y1)
      && w[|w| - 1] == Cell(x2, y2)
  {
    var l := LineOf(x1, y1, x2, y2);
    var n := AbsInt(x2 - x1) + AbsInt(y2 - y1);
    VisitsAt(l, StartOf(x1, y1, x2, y2), n + 1, 0);
    VisitsAt(l, StartOf(x1, y1, x2, y2), n + 1, n);
    var a, b := StepCounts(x1, y1, x2, y2, n);
  }

  /** Between one visit and the next the walk moves exactly one cell along one axis, toward the end. */
  lemma WalkStep(x1: int, y1: int, x2: int, y2: int, i: nat)
    requires i + 1 < |Walk(x1, y1, x2, y2)|
    ensures var w := Walk(x1, y1, x2, y2);
      || (w[i + 1] == Cell(w[i].col + (if x2 > x1 then 1 else -1), w[i].row) && w[i].col != x2)
      || (w[i + 1] == Cell(w[i].col, w[i].row + (if y2 > y1 then 1 else -1)) && w[i].row != y2)
  {
    var l := LineOf(x1, y1, x2, y2);
    var n := AbsInt(x2 - x1) + AbsInt(y2 - y1);
    var s := StartOf(x1, y1, x2, y2);
    VisitsAt(l, s, n + 1, i);
    VisitsAt(l, s, n + 1, i + 1);
    var a, b := StepCounts(x1, y1, x2, y2, i);
    var a1, b1 := StepCounts(x1, y1, x2, y2, i + 1);
  }

  /** Every visited cell lies inside the box spanned by the two ends. */
  lemma WalkInBox(x1: int, y1: int, x2: int, y2: int, i: nat)
    requires i < |Walk(x1, y1, x2, y2)|
    ensures var c := Walk(x1, y1, x2, y2)[i];
      && Min(x1 as real, x2 as real) <= c.col as real <= Max(x1 as real, x2 as real)
      && Min(y1 as real, y2 as real) <= c.row as real <= Max(y1 as real, y2 as real)
  {
    var l := LineOf(x1, y1, x2, y2);
    VisitsAt(l, StartOf(x1, y1, x2, y2), |Walk(x1, y1, x2, y2)|, i);
    var a, b := StepCounts(x1, y1, x2, y2, i);
  }

  // ---------------------------------------------------------------------
  // The map
  // ---------------------------------------------------------------------

  class GridMap {
    const cols: int
    const rows: int
    const tileSize: real
    const tiles: array2<Tile>
    const buildSlots: seq<BuildSlot>
    const speedBumpSlots: seq<BuildSlot>
    const bombSlots: seq<BuildSlot>
    const paths: seq<Path>
    const castlePosition: Point

    /** The tile array is `rows` by `cols`. */
    ghost predicate Valid()
    {
      tiles.Length0 == rows && tiles.Length1 == cols
    }

    /**
     * A map over already generated tiles and level data; the level loading
     * and sprite choices of the source's constructor are not part of this
     * model.
     */
    constructor (cols: int, rows: int, tileSize: real, tiles: array2<Tile>, buildSlots: seq<BuildSlot>,
                 speedBumpSlots: seq<BuildSlot>, bombSlots: seq<BuildSlot>, paths: seq<Path>, castle: Point)
      requires tiles.Length0 == rows && tiles.Length1 == cols
      ensures Valid()
      ensures this.cols == cols && this.rows == rows && this.tileSize == tileSize && this.tiles == tiles
      ensures this.buildSlots == buildSlots && this.speedBumpSlots == speedBumpSlots && this.bombSlots == bombSlots
      ensures this.paths == paths && castlePosition == castle
    {
      this.cols, this.rows, this.tileSize, this.tiles := cols, rows, tileSize, tiles;
      this.buildSlots, this.speedBumpSlots, this.bombSlots := buildSlots, speedBumpSlots, bombSlots;
      this.paths, castlePosition := paths, castle;
    }

    function GridToWorld(col: int, row: int): Point
    {
      CellCentre(tileSize, col, row)
    }

    function WorldToGrid(x: real, y: real): Point
      requires tileSize > 0.0
    {
      CellAt(tileSize, x, y)
    }

    /** `worldToGrid(gridToWorld(c, r)) == (c, r)` for non-negative cells of a positive tile size. */
    lemma GridWorldRoundTrip(col: int, row: int)
      requires tileSize > 0.0 && col >= 0 && row >= 0
      ensures WorldToGrid(GridToWorld(col, row).x, GridToWorld(col, row).y) == Point(col as real, row as real)
    {
      CellCentreRoundTrip(tileSize, col, row);
    }

    predicate IsValidGridPosition(col: int, row: int)
    {
      col >= 0 && col < cols && row >= 0 && row < rows
    }

    /** `getTile`: the tile at an in-bounds cell, and nothing outside `0 <= col < cols, 0 <= row < rows`. */
    function GetTile(col: int, row: int): (r: Option<Tile>)
      requires Valid()
      reads tiles
      ensures r.None? <==> col < 0 || col >= cols || row < 0 || row >= rows
      ensures r.Some? ==> r.value == tiles[row, col]
    {
      if IsValidGridPosition(col, row) then Some(tiles[row, col]) else None
    }

    /** `getTileAtWorld`: the tile of the cell the point falls in. */
    function GetTileAtWorld(x: real, y: real): Option<Tile>
      requires Valid() && tileSize > 0.0
      reads tiles
    {
      var cell := WorldToGrid(x, y);
      GetTile(TruncateToInt(cell.x), TruncateToInt(cell.y))
    }

    /** The tile at a cell's centre is that cell's tile. */
    lemma TileAtCentre(col: int, row: int)
      requires Valid() && tileSize > 0.0 && col >= 0 && row >= 0
      ensures GetTileAtWorld(GridToWorld(col, row).x, GridToWorld(col, row).y) == GetTile(col, row)
    {
      GridWorldRoundTrip(col, row);
    }

    method FindBuildSlotAt(x: real, y: real, tolerance: real, dist: Distance) returns (slot: BuildSlot?)
      ensures slot == null <==> forall j | 0 <= j < |buildSlots| :: !SlotWithin(buildSlots[j], x, y, tolerance, dist)
      ensures slot != null ==> exists k | 0 <= k < |buildSlots| ::
        && buildSlots[k] == slot && SlotWithin(slot, x, y, tolerance, dist)
        && forall j | 0 <= j < k :: !SlotWithin(buildSlots[j], x, y, tolerance, dist)
    {
      slot := FindSlotAt(buildSlots, x, y, tolerance, dist);
    }

    method FindSpeedBumpSlotAt(x: real, y: real, tolerance: real, dist: Distance) returns (slot: BuildSlot?)
      ensures slot == null <==> forall j | 0 <= j < |speedBumpSlots| :: !SlotWithin(speedBumpSlots[j], x, y, tolerance, dist)
      ensures slot != null ==> exists k | 0 <= k < |speedBumpSlots| ::
        && speedBumpSlots[k] == slot && SlotWithin(slot, x, y, tolerance, dist)
        && forall j | 0 <= j < k :: !SlotWithin(speedBumpSlots[j], x, y, tolerance, dist)
    {
      slot := FindSlotAt(speedBumpSlots, x, y, tolerance, dist);
    }

    method FindBombSlotAt(x: real, y: real, tolerance: real, dist: Distance) returns (slot: BuildSlot?)
      ensures slot == null <==> forall j | 0 <= j < |bombSlots| :: !SlotWithin(bombSlots[j], x, y, tolerance, dist)
      ensures slot != null ==> exists k | 0 <= k < |bombSlots| ::
        && bombSlots[k] == slot && SlotWithin(slot, x, y, tolerance, dist)
        && forall j | 0 <= j < k :: !SlotWithin(bombSlots[j], x, y, tolerance, dist)
    {
      slot := FindSlotAt(bombSlots, x, y, tolerance, dist);
    }

    /** `getMainPath`. */
    function GetMainPath(): (r: Option<Path>)
      ensures r.None? <==> paths == []
      ensures r.Some? ==> r.value == paths[0]
    {
      MainPath(paths)
    }

    /**
     * `fillPathBetween`: every in-bounds cell the walk from `(x1, y1)` to
     * `(x2, y2)` visits becomes a path tile, and every other cell keeps its
     * tile.  The k-th visit paints with the k-th draw `sprite(k)`, so a cell
     * visited more than once shows the draw of its last visit.
     */
    method FillPathBetween(grid: array2<Tile>, x1: int, y1: int, x2: int, y2: int, sprite: nat -> int)
      requires grid.Length0 == rows && grid.Length1 == cols
      modifies grid
      ensures forall r, c | 0 <= r < rows && 0 <= c < cols ::
        grid[r, c] == if Cell(c, r) in WalkCells(x1, y1, x2, y2)
          then NewTile(PathTile, sprite(LastVisit(Walk(x1, y1, x2, y2), Cell(c, r))))
          else old(grid[r, c])
    {
      var dx: int := AbsInt(x2 - x1);
      var dy: int := AbsInt(y2 - y1);
      var x := x1;
      var y := y1;
      var n := 1 + dx + dy;
      var xInc := if x2 > x1 then 1 else -1;
      var yInc := if y2 > y1 then 1 else -1;
      var error := dx - dy;
      dx := dx * 2;
      dy := dy * 2;
      ghost var line := Line(xInc, yInc, dx, dy);
      ghost var visited: seq<Cell> := [];
      var draws := 0;
      while n > 0
        invariant n >= 0 && draws == |visited|
        invariant line == LineOf(x1, y1, x2, y2)
        invariant visited + Visits(line, Walker(x, y, error), n) == Walk(x1, y1, x2, y2)
        invariant forall r, c | 0 <= r < rows && 0 <= c < cols ::
          grid[r, c] == if Cell(c, r) in visited then NewTile(PathTile, sprite(LastVisit(visited, Cell(c, r)))) else old(grid[r, c])
      {
        Paint(grid, x, y, sprite(draws));
        draws := draws + 1;
        ghost var next := Advance(line, Walker(x, y, error));
        assert visited + [Cell(x, y)] + Visits(line, next, n - 1) == Walk(x1, y1, x2, y2);
        LastVisitSnoc(visited, Cell(x, y));
        visited := visited + [Cell(x, y)];
        if error > 0 {
          x := x + xInc;
          error := error - dy;
        } else {
          y := y + yInc;
          error := error + dx;
        }
        assert Walker(x, y, error) == next;
        n := n - 1;
      }
      assert visited == Walk(x1, y1, x2, y2);
    }

    /** One visit of the walk: an in-bounds cell becomes a path tile, and no other cell changes. */
    method Paint(grid: array2<Tile>, x: int, y: int, spriteIndex: int)
      requires grid.Length0 == rows && grid.Length1 == cols
      modifies grid
      ensures IsValidGridPosition(x, y) ==> grid[y, x] == NewTile(PathTile, spriteIndex)
      ensures forall r, c | 0 <= r < rows && 0 <= c < cols && (r != y || c != x) :: grid[r, c] == old(grid[r, c])
    {
      if IsValidGridPosition(x, y) {
        grid[y, x] := NewTile(PathTile, spriteIndex);
      }
    }
  }
}
