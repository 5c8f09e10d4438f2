/**
 * Which thing to hit.  Towers and AA defenses choose one enemy by a strict
 * maximum scan over a priority; an aircraft chooses the grid row or column
 * holding the most live defenders.  Everything here is stated on value
 * snapshots of the actors, so that the actor classes can be proved against it.
 */
module Targeting {
  import opened Wrappers
  import opened Numerics
  import opened Math2D
  import opened Selection

  /** What a tower or AA defense may look at when choosing among enemies. */
  datatype EnemyView = EnemyView(
    x: real, y: real, progress: real, hp: int, maxHp: int,
    alive: bool, reachedEnd: bool, aircraft: bool)

  datatype TowerKind = FastTower | PowerTower | TankTower

  /** Pixels per tile in the range conversion of the targeting code. */
  const PIXELS_PER_TILE: real := 64.0

  /** `Tower.isValidTarget`: alive, not at the castle, and targetable by towers (no aircraft). */
  predicate TowerCanTarget(v: EnemyView)
  {
    v.alive && !v.reachedEnd && !v.aircraft
  }

  /** The enemy is an aircraft and `AADefense.isValidTarget` holds: alive and not at the end. */
  predicate AACanTarget(v: EnemyView)
  {
    v.aircraft && v.alive && !v.reachedEnd
  }

  /**
   * The priority is a finite number.  A fast tower of range 0 only sees
   * enemies at distance 0, whose priority is 0/0; a power tower divides by
   * the enemy's maximum hp, which for a maximum of 0 is NaN while the hp is
   * 0 and an infinity otherwise.  Such enemies are left out of the scan
   * here: Java never chooses one of NaN priority, but would choose one of
   * priority +Infinity.
   */
  predicate Admissible(kind: TowerKind, range: real, v: EnemyView)
  {
    (kind == FastTower ==> range != 0.0) && (kind == PowerTower ==> v.maxHp != 0)
  }

  /**
   * `calculateTargetPriority`: the fast tower adds up to half a point for
   * nearness, the power tower half its target's remaining hp ratio, and the
   * tank turret uses the default, path progress alone.
   */
  function TowerPriority(kind: TowerKind, range: real, v: EnemyView, distance: real): real
    requires Admissible(kind, range, v)
  {
    match kind
    case FastTower => v.progress + (1.0 - distance / (range * PIXELS_PER_TILE)) * 0.5
    case PowerTower => v.progress + (v.hp as real / v.maxHp as real) * 0.5
    case TankTower => v.progress
  }

  /** For an enemy in range, a fast tower's nearness bonus lies in [0, 0.5]. */
  lemma FastBonusBounds(range: real, v: EnemyView, distance: real)
    requires range > 0.0 && 0.0 <= distance <= range * PIXELS_PER_TILE
    ensures v.progress <= TowerPriority(FastTower, range, v, distance) <= v.progress + 0.5
  {
    var q := distance / (range * PIXELS_PER_TILE);
    assert q * (range * PIXELS_PER_TILE) == distance;
    assert 0.0 <= q <= 1.0;
  }

  /** A power tower favours the healthier of two enemies with equal progress. */
  lemma PowerPrefersHealthier(v: EnemyView, w: EnemyView, distance: real, range: real)
    requires v.progress == w.progress && v.maxHp == w.maxHp && v.maxHp > 0 && v.hp > w.hp
    ensures TowerPriority(PowerTower, range, v, distance) > TowerPriority(PowerTower, range, w, distance)
  {
    assert v.hp as real / v.maxHp as real > w.hp as real / w.maxHp as real;
  }

  /** Enemy `i` is a candidate of the tower scan: valid, within range·64 pixels, and of numeric priority. */
  predicate TowerCandidate(kind: TowerKind, range: real, at: Point, dist: Distance, v: EnemyView)
  {
    TowerCanTarget(v) && dist(at.x, at.y, v.x, v.y) <= range * PIXELS_PER_TILE && Admissible(kind, range, v)
  }

  function TowerEligible(kind: TowerKind, range: real, at: Point, dist: Distance, vs: seq<EnemyView>): (e: seq<bool>)
    ensures |e| == |vs| && forall i :: 0 <= i < |vs| ==> e[i] == TowerCandidate(kind, range, at, dist, vs[i])
  {
    seq(|vs|, i requires 0 <= i < |vs| => TowerCandidate(kind, range, at, dist, vs[i]))
  }

  function TowerKey(kind: TowerKind, range: real, at: Point, dist: Distance, v: EnemyView): real
  {
    if Admissible(kind, range, v) then TowerPriority(kind, range, v, dist(at.x, at.y, v.x, v.y)) else 0.0
  }

  function TowerKeys(kind: TowerKind, range: real, at: Point, dist: Distance, vs: seq<EnemyView>): (k: seq<real>)
    ensures |k| == |vs| && forall i :: 0 <= i < |vs| ==> k[i] == TowerKey(kind, range, at, dist, vs[i])
  {
    seq(|vs|, i requires 0 <= i < |vs| => TowerKey(kind, range, at, dist, vs[i]))
  }

  /** `acquireTarget`'s scan over the first `n` enemies, from best priority -1. */
  function TowerScan(kind: TowerKind, range: real, at: Point, dist: Distance, vs: seq<EnemyView>, n: nat): Pick
    requires n <= |vs|
  {
    MaxScan(TowerEligible(kind, range, at, dist, vs), TowerKeys(kind, range, at, dist, vs), -1.0, n)
  }

  /** One more enemy scanned: it takes over exactly when it is a candidate of strictly higher priority. */
  lemma TowerScanStep(kind: TowerKind, range: real, at: Point, dist: Distance, vs: seq<EnemyView>, i: nat)
    requires i < |vs|
    ensures var p := TowerScan(kind, range, at, dist, vs, i);
      var key := TowerKey(kind, range, at, dist, vs[i]);
      TowerScan(kind, range, at, dist, vs, i + 1)
        == if TowerCandidate(kind, range, at, dist, vs[i]) && key > p.best then Pick(key, Some(i)) else p
  {
  }

  /** The index of the enemy `acquireTarget` settles on, or None for null. */
  function TowerChoice(kind: TowerKind, range: real, at: Point, dist: Distance, vs: seq<EnemyView>): (r: Option<nat>)
    ensures r.Some? ==> r.value < |vs|
  {
    TowerScan(kind, range, at, dist, vs, |vs|).index
  }

  /**
   * The tower scan picks the first candidate of highest priority, provided
   * that priority beats -1, and picks nothing exactly when no candidate does.
   */
  lemma TowerChoiceIsBest(kind: TowerKind, range: real, at: Point, dist: Distance, vs: seq<EnemyView>)
    ensures var r := TowerChoice(kind, range, at, dist, vs);
      && (r.None? <==> forall j :: 0 <= j < |vs| && TowerCandidate(kind, range, at, dist, vs[j]) ==>
                          TowerKey(kind, range, at, dist, vs[j]) <= -1.0)
      && (r.Some? ==>
            var k := r.value;
            && TowerCandidate(kind, range, at, dist, vs[k])
            && TowerKey(kind, range, at, dist, vs[k]) > -1.0
            && (forall j :: 0 <= j < |vs| && TowerCandidate(kind, range, at, dist, vs[j]) ==>
                  TowerKey(kind, range, at, dist, vs[j]) <= TowerKey(kind, range, at, dist, vs[k]))
            && (forall j :: 0 <= j < k && TowerCandidate(kind, range, at, dist, vs[j]) ==>
                  TowerKey(kind, range, at, dist, vs[j]) < TowerKey(kind, range, at, dist, vs[k])))
  {
    var e := TowerEligible(kind, range, at, dist, vs);
    var key := TowerKeys(kind, range, at, dist, vs);
    MaxScanIsFirstMaximum(e, key, -1.0, |vs|);
  }

  /**
   * Every candidate's priority is at least its progress (for a power tower
   * when hp and maximum hp are not negative), so with progress in [0, 1] a
   * tower finds a target exactly when some candidate exists.
   */
  lemma TowerFindsAnyCandidate(kind: TowerKind, range: real, at: Point, dist: Distance, vs: seq<EnemyView>)
    requires forall j :: 0 <= j < |vs| ==> vs[j].progress >= 0.0 && vs[j].hp >= 0 && vs[j].maxHp >= 0
    ensures TowerChoice(kind, range, at, dist, vs).None? <==>
      forall j :: 0 <= j < |vs| ==> !TowerCandidate(kind, range, at, dist, vs[j])
  {
    TowerChoiceIsBest(kind, range, at, dist, vs);
    forall j | 0 <= j < |vs| && TowerCandidate(kind, range, at, dist, vs[j])
      ensures TowerKey(kind, range, at, dist, vs[j]) > -1.0
    {
      var v := vs[j];
      var d := dist(at.x, at.y, v.x, v.y);
      match kind
      case FastTower =>
        assert d >= 0.0;
        if range > 0.0 {
          FastBonusBounds(range, v, d);
        }
      case PowerTower =>
        assert v.hp as real / v.maxHp as real >= 0.0 by {
          assert v.maxHp > 0;
        }
      case TankTower =>
    }
  }

  /** An aircraft within the AA's range·64 pixels. */
  predicate AACandidate(range: real, at: Point, dist: Distance, v: EnemyView)
  {
    AACanTarget(v) && dist(at.x, at.y, v.x, v.y) <= range * PIXELS_PER_TILE
  }

  function AAEligible(range: real, at: Point, dist: Distance, vs: seq<EnemyView>): (e: seq<bool>)
    ensures |e| == |vs| && forall i :: 0 <= i < |vs| ==> e[i] == AACandidate(range, at, dist, vs[i])
  {
    seq(|vs|, i requires 0 <= i < |vs| => AACandidate(range, at, dist, vs[i]))
  }

  function Progresses(vs: seq<EnemyView>): (k: seq<real>)
    ensures |k| == |vs| && forall i :: 0 <= i < |vs| ==> k[i] == vs[i].progress
  {
    seq(|vs|, i requires 0 <= i < |vs| => vs[i].progress)
  }

  /** The AA's `acquireTarget` scan over the first `n` enemies: path progress from -1. */
  function AAScan(range: real, at: Point, dist: Distance, vs: seq<EnemyView>, n: nat): Pick
    requires n <= |vs|
  {
    MaxScan(AAEligible(range, at, dist, vs), Progresses(vs), -1.0, n)
  }

  /** One more enemy scanned: it takes over exactly when it is an aircraft in range that is further along. */
  lemma AAScanStep(range: real, at: Point, dist: Distance, vs: seq<EnemyView>, i: nat)
    requires i < |vs|
    ensures var p := AAScan(range, at, dist, vs, i);
      AAScan(range, at, dist, vs, i + 1)
        == if AACandidate(range, at, dist, vs[i]) && vs[i].progress > p.best then Pick(vs[i].progress, Some(i)) else p
  {
  }

  function AAChoice(range: real, at: Point, dist: Distance, vs: seq<EnemyView>): (r: Option<nat>)
    ensures r.Some? ==> r.value < |vs|
  {
    AAScan(range, at, dist, vs, |vs|).index
  }

  /**
   * An AA defense picks an aircraft in range, the first of highest progress;
   * with progress never negative it picks nothing only when no aircraft is in
   * range.
   */
  lemma AAChoiceIsBest(range: real, at: Point, dist: Distance, vs: seq<EnemyView>)
    requires forall j :: 0 <= j < |vs| ==> vs[j].progress >= 0.0
    ensures var r := AAChoice(range, at, dist, vs);
      && (r.None? <==> forall j :: 0 <= j < |vs| ==> !AACandidate(range, at, dist, vs[j]))
      && (r.Some? ==>
            var k := r.value;
            && AACandidate(range, at, dist, vs[k]) && vs[k].aircraft
            && (forall j :: 0 <= j < |vs| && AACandidate(range, at, dist, vs[j]) ==> vs[j].progress <= vs[k].progress)
            && (forall j :: 0 <= j < k && AACandidate(range, at, dist, vs[j]) ==> vs[j].progress < vs[k].progress))
  {
    MaxScanIsFirstMaximum(AAEligible(range, at, dist, vs), Progresses(vs), -1.0, |vs|);
  }

  // ---------------------------------------------------------------------
  // An aircraft's strike plan
  // ---------------------------------------------------------------------

  /** The grid line of a coordinate: `(int)(coordinate / tileSize)`. */
  function LineOf(coordinate: real, tileSize: int): int
    requires tileSize > 0
  {
    TruncateToInt(coordinate / tileSize as real)
  }

  /**
   * The counting loops' result for `n` lines: each entry counts the cells on
   * that line.  Cells outside [0, n) are not counted anywhere.
   */
  function LineCounts(cells: seq<int>, n: nat): (c: seq<int>)
    ensures |c| == n && forall r :: 0 <= r < n ==> c[r] == CountOf(cells, r)
  {
    seq(n, r requires 0 <= r < n => CountOf(cells, r))
  }

  function AllTrue(n: nat): (e: seq<bool>)
    ensures |e| == n && forall i :: 0 <= i < n ==> e[i]
  {
    seq(n, _ => true)
  }

  function AsReals(counts: seq<int>): (k: seq<real>)
    ensures |k| == |counts| && forall i :: 0 <= i < |counts| ==> k[i] == counts[i] as real
  {
    seq(|counts|, i requires 0 <= i < |counts| => counts[i] as real)
  }

  /** The running (best count, best line) of the busiest-line scan over the first `n` counts. */
  function LineScan(counts: seq<int>, n: nat): Pick
    requires n <= |counts|
  {
    MaxScan(AllTrue(|counts|), AsReals(counts), 0.0, n)
  }

  /** The line the scan settles on: the first strict maximum above 0, or `fallback`. */
  function BestLine(counts: seq<int>, fallback: int): int
  {
    match LineScan(counts, |counts|).index
    case Some(k) => k
    case None => fallback
  }

  /** The count the scan settles on: the largest count, or 0 when none is positive. */
  function BestCount(counts: seq<int>): int
  {
    match LineScan(counts, |counts|).index
    case Some(k) => counts[k]
    case None => 0
  }

  /**
   * The busiest-line scan: the best count is the maximum of 0 and every
   * count; a positive best count sits on the first line holding it; with no
   * positive count the fallback line is kept.
   */
  lemma BestLineIsFirstMaximum(counts: seq<int>, fallback: int)
    ensures BestCount(counts) >= 0
    ensures forall r :: 0 <= r < |counts| ==> counts[r] <= BestCount(counts)
    ensures BestCount(counts) > 0 ==>
      var k := BestLine(counts, fallback);
      && 0 <= k < |counts| && counts[k] == BestCount(counts)
      && forall r :: 0 <= r < k ==> counts[r] < counts[k]
    ensures BestCount(counts) == 0 ==> BestLine(counts, fallback) == fallback
  {
    MaxScanIsFirstMaximum(AllTrue(|counts|), AsReals(counts), 0.0, |counts|);
  }

  /** A strike along row or column `line`. */
  datatype Plan = Plan(isRow: bool, line: int)

  /**
   * `planStrike`'s choice: the busiest row when it is at least as busy as the
   * busiest column and holds someone, else the busiest column when that holds
   * someone, else the middle row.
   */
  function ChoosePlan(rowCounts: seq<int>, colCounts: seq<int>, rows: int, cols: int): Plan
  {
    var maxRow := BestCount(rowCounts);
    var maxCol := BestCount(colCounts);
    if maxRow >= maxCol && maxRow > 0 then Plan(true, BestLine(rowCounts, rows / 2))
    else if maxCol > 0 then Plan(false, BestLine(colCounts, cols / 2))
    else Plan(true, rows / 2)
  }

  /**
   * The plan strikes a line holding the most defenders of any row or column:
   * a chosen row holds at least as many as every row and column, a chosen
   * column more than every row and at least as many as every column; the
   * middle row is the fallback exactly when no line holds anyone.
   */
  lemma PlanStrikesBusiestLine(rowCounts: seq<int>, colCounts: seq<int>, rows: int, cols: int)
    ensures var p := ChoosePlan(rowCounts, colCounts, rows, cols);
      var busiest := if p.isRow then BestCount(rowCounts) else BestCount(colCounts);
      && (busiest > 0 ==>
            (p.isRow ==> 0 <= p.line < |rowCounts| && rowCounts[p.line] == busiest) &&
            (!p.isRow ==> 0 <= p.line < |colCounts| && colCounts[p.line] == busiest))
      && (forall r :: 0 <= r < |rowCounts| ==> (if p.isRow then rowCounts[r] <= busiest else rowCounts[r] < busiest))
      && (forall c :: 0 <= c < |colCounts| ==> colCounts[c] <= busiest)
      && (busiest == 0 <==> p == Plan(true, rows / 2) && BestCount(rowCounts) == 0 && BestCount(colCounts) == 0)
  {
    BestLineIsFirstMaximum(rowCounts, rows / 2);
    BestLineIsFirstMaximum(colCounts, cols / 2);
  }

  /** The flight of a plan: the start point and the point flown toward. */
  datatype Flight = Flight(start: Point, target: Point)

  /**
   * A row strike starts 100 px left of the map at the row's centre and flies to
   * 100 px past the right edge; a column strike flies down from 100 px above
   * the map.  The centre is computed in int arithmetic, `line·ts + ts/2`.
   */
  function PlanFlight(p: Plan, rows: int, cols: int, tileSize: int): Flight
  {
    var centre := LineCentre(p.line, tileSize) as real;
    if p.isRow then Flight(Point(-100.0, centre), Point(PastEdge(cols, tileSize) as real, centre))
    else Flight(Point(centre, -100.0), Point(centre, PastEdge(rows, tileSize) as real))
  }

  /** The pixel centre of a grid line, `line·ts + ts/2` in int arithmetic. */
  function LineCentre(line: int, tileSize: int): int
  {
    line * tileSize + tileSize / 2
  }

  /** 100 px past the far edge of `lines` lines of tiles. */
  function PastEdge(lines: int, tileSize: int): int
  {
    lines * tileSize + 100
  }

  /** The flight runs along the planned line: its fixed coordinate lies on that line. */
  lemma FlightFollowsLine(p: Plan, rows: int, cols: int, tileSize: int)
    requires tileSize > 0 && p.line >= 0
    ensures var f := PlanFlight(p, rows, cols, tileSize);
      && (p.isRow ==> LineOf(f.start.y, tileSize) == p.line && f.target.y == f.start.y)
      && (!p.isRow ==> LineOf(f.start.x, tileSize) == p.line && f.target.x == f.start.x)
  {
    CentreOnLine(p.line, tileSize);
  }

  lemma CentreOnLine(line: int, tileSize: int)
    requires tileSize > 0 && line >= 0
    ensures LineOf(LineCentre(line, tileSize) as real, tileSize) == line
  {
    var d := tileSize as real;
    var e := (tileSize / 2) as real;
    var y := line as real * d + e;
    var x := LineCentre(line, tileSize) as real;
    CastProduct(line, tileSize);
    assert x == y;
    assert tileSize / 2 < tileSize;
    TruncateCellCentre(line, d, e);
    assert TruncateToInt(y / d) == line;
    assert LineOf(x, tileSize) == TruncateToInt(x / d);
  }
}
