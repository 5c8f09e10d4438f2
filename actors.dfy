/**
 * The FX engine's actors: the enemies (three kinds of soldier, the tank and
 * the aircraft), the three kinds of tower, the AA defense and the projectile.
 * Each is a class whose fields the game updates in place.  A subclass of the
 * source becomes a `kind`, and a hook it overrides becomes a branch on it.
 * Publishing an event becomes a returned list of events; the angle and
 * trigonometry of a move become injected functions.
 */
module Actors {
  import opened Wrappers
  import opened Numerics
  import opened Math2D
  import opened GridPath
  import opened Events
  import opened GameData
  import opened Vitals
  import opened Targeting
  import opened Selection

  datatype EnemyKind = Soldier | SoldierFast | SoldierHeavy | Tank | Aircraft

  /** A move of at most `step` pixels from the first point toward the second (`cos`/`sin` of `Math2D.angle`). */
  type Mover = (Point, Point, real) -> Point

  /** `Math2D.angle` from the first point to the second. */
  type Bearing = (real, real, real, real) -> real

  /** The grid an aircraft received with its combat system: columns, rows and tile size in pixels. */
  datatype StrikeContext = StrikeContext(cols: int, rows: int, tileSize: int)

  const TANK_ATTACK_RANGE: real := 2.0
  const TANK_SHOOT_INTERVAL: real := 1.0
  /** `updateNearbyDefenses` looks 1.5 times the attack range away. */
  const TANK_NEARBY_RANGE: real := 3.0
  const AIRCRAFT_HP: int := 50
  /** Pixels per second per unit of an aircraft's base speed. */
  const AIRCRAFT_SPEED_FACTOR: real := 120.0
  /** An aircraft strikes once this far (in px) into the map along its flight. */
  const STRIKE_POINT: real := 100.0
  const STRIKE_DAMAGE: int := 80
  const DESTRUCTION_DURATION: real := 1.0
  const FALL_SPEED: real := 150.0
  const HIT_RADIUS: real := 5.0
  const HIT_EFFECT_SPRITE: int := 285
  const FAST_SHOT_SPRITE: int := 272
  const POWER_SHOT_SPRITE: int := 280
  const SHELL_SPRITE: int := 274
  const SHELL_SPEED: real := 300.0
  const FAST_FLASH_TIME: real := 0.1
  const SHELL_FLASH_TIME: real := 0.15
  const FAST_ROTATION_SPEED: real := 5.0
  const TURRET_ROTATION_SPEED: real := 4.0
  const AA_LETHAL_DAMAGE: int := 999
  const AA_FIRE_INTERVAL: real := 1.0

  /** How many times `x` is listed in `s`. */
  function Occurrences<T(==)>(s: seq<T>, x: T): nat
  {
    if s == [] then 0 else Occurrences(s[..|s| - 1], x) + (if s[|s| - 1] == x then 1 else 0)
  }

  /** No element occurs twice. */
  predicate Distinct<T(==)>(s: seq<T>)
  {
    forall i, j :: 0 <= i < j < |s| ==> s[i] != s[j]
  }

  /** In a list without repeats an entry occurs neither before nor after its own index. */
  lemma DistinctAt<T>(s: seq<T>, i: int)
    requires Distinct(s) && 0 <= i < |s|
    ensures s[i] !in s[..i] && s[i] !in s[i + 1..]
  {
  }

  function EnemySet(es: seq<Enemy>): set<Enemy> { set e | e in es }
  function TowerSet(ts: seq<Tower>): set<Tower> { set t | t in ts }
  function AASet(aas: seq<AADefense>): set<AADefense> { set a | a in aas }
  function ProjectileSet(ps: seq<Projectile>): set<Projectile> { set p | p in ps }

  /** The enemies the projectiles are aimed at. */
  function Targets(ps: seq<Projectile>): set<Enemy> { set p | p in ps :: p.target }

  /** The snapshots of the enemies a tower or AA defense chooses among. */
  function Views(es: seq<Enemy>): (vs: seq<EnemyView>)
    reads EnemySet(es)
    ensures |vs| == |es| && forall i :: 0 <= i < |es| ==> vs[i] == es[i].View()
  {
    if es == [] then [] else Views(es[..|es| - 1]) + [es[|es| - 1].View()]
  }

  /** The enemy at a chosen index, or null for none. */
  function Chosen(es: seq<Enemy>, k: Option<nat>): Enemy?
  {
    if k.Some? && k.value < |es| then es[k.value] else null
  }

  /**
   * `moveAlongPath`'s progress: the covered distance as a share of the path
   * length, clamped to [0, 1]; a path of no length leaves it as it is.
   */
  function NextProgress(progress: real, distance: real, pathLength: real): (r: real)
    ensures 0.0 <= progress <= 1.0 ==> 0.0 <= r <= 1.0
    ensures 0.0 <= progress <= 1.0 && distance >= 0.0 ==> progress <= r
    ensures pathLength > 0.0 ==> (r == 1.0 <==> progress + distance / pathLength >= 1.0)
    ensures pathLength <= 0.0 ==> r == progress
  {
    if pathLength > 0.0 then Advanced(progress, distance, pathLength) else progress
  }

  /** What one step along the path changes on a ground enemy: its slow, speed, progress, position, and whether it is at the end. */
  datatype Gait = Gait(slow: Slow, speed: real, progress: real, at: Point, atEnd: bool)

  /**
   * One step of `update` along `wps` for an enemy of base speed `baseSpeed`:
   * the slow ticks, the speed follows it, progress advances by the stride,
   * on a path of positive length the enemy stands where the path puts it,
   * and it is at the end once progress reaches 1.
   */
  function Step(g: Gait, baseSpeed: real, dt: real, dist: Distance, wps: seq<Point>): Gait
  {
    var slow := Ticked(g.slow, dt);
    var speed := baseSpeed * slow.multiplier;
    var length := TotalLength(dist, wps);
    var progress := NextProgress(g.progress, Stride(speed, dt), length);
    var at := if length > 0.0 then (TotalLengthBasics(dist, wps); PositionIsOnPath(dist, wps, progress); PositionAt(dist, wps, progress).value) else g.at;
    Gait(slow, speed, progress, at, g.atEnd || progress >= 1.0)
  }

  /** A gait is the step from `g` exactly when each field is what the step makes of it. */
  lemma StepOf(g: Gait, baseSpeed: real, dt: real, dist: Distance, wps: seq<Point>, r: Gait)
    requires r.slow == Ticked(g.slow, dt) && r.speed == baseSpeed * r.slow.multiplier
    requires r.progress == NextProgress(g.progress, Stride(r.speed, dt), TotalLength(dist, wps))
    requires TotalLength(dist, wps) > 0.0 ==> Some(r.at) == PositionAt(dist, wps, r.progress)
    requires TotalLength(dist, wps) <= 0.0 ==> r.at == g.at
    requires r.atEnd == (g.atEnd || r.progress >= 1.0)
    ensures r == Step(g, baseSpeed, dt, dist, wps)
  {
  }

  /** The pixels covered in `dt` seconds at `speed` tiles per second. */
  function Stride(speed: real, dt: real): real
  {
    speed * PIXELS_PER_TILE * dt
  }

  // ---------------------------------------------------------------------
  // An aircraft's flight, on values
  // ---------------------------------------------------------------------

  /** Where an aircraft is, whether it is still flying and whether its strike has been triggered. */
  datatype Sortie = Sortie(pos: Point, flying: bool, triggered: bool)

  /** The sortie after one update, and whether that update struck. */
  datatype SortieStep = SortieStep(after: Sortie, strikes: bool)

  /** What one `update` moves on an enemy of either kind: its footing on the path, its flight, and its going-down animation. */
  datatype Motion = Motion(footing: Gait, flight: Sortie, alive: bool, destroying: bool, fallen: real)

  /**
   * One update of a living aircraft that is not going down: an untriggered
   * flying aircraft moves one step and strikes once it is past 100 px along
   * its flight; a triggered one (including one that just struck) moves one
   * more step toward leaving the map.
   */
  function Sortied(s: Sortie, isRow: bool, target: Point, step: real, mover: Mover): (r: SortieStep)
    ensures r.strikes ==> s.flying && !s.triggered
    ensures r.after.triggered <==> s.triggered || r.strikes
    ensures r.after.flying == s.flying
    ensures !s.flying && !s.triggered ==> r.after == s && !r.strikes
  {
    var first := s.flying && !s.triggered;
    var p1 := if first then mover(s.pos, target, step) else s.pos;
    var strikes := first && (if isRow then p1.x > STRIKE_POINT else p1.y > STRIKE_POINT);
    var triggered := s.triggered || strikes;
    var p2 := if triggered then mover(p1, target, step) else p1;
    SortieStep(Sortie(p2, s.flying, triggered), strikes)
  }

  /** The sortie after updates whose time steps are `dts`. */
  function SortieAfter(s: Sortie, isRow: bool, target: Point, speed: real, mover: Mover, dts: seq<real>): Sortie
  {
    if dts == [] then s
    else Sortied(SortieAfter(s, isRow, target, speed, mover, dts[..|dts| - 1]), isRow, target,
                 speed * AIRCRAFT_SPEED_FACTOR * dts[|dts| - 1], mover).after
  }

  /** How many of those updates struck. */
  function Strikes(s: Sortie, isRow: bool, target: Point, speed: real, mover: Mover, dts: seq<real>): nat
  {
    if dts == [] then 0
    else
      var before := SortieAfter(s, isRow, target, speed, mover, dts[..|dts| - 1]);
      Strikes(s, isRow, target, speed, mover, dts[..|dts| - 1])
        + (if Sortied(before, isRow, target, speed * AIRCRAFT_SPEED_FACTOR * dts[|dts| - 1], mover).strikes then 1 else 0)
  }

  /**
   * The in-flight strike fires at most once over any run of updates, and
   * never once the strike has been triggered (by a hit or by another system).
   */
  lemma {:induction false} StrikesAtMostOnce(s: Sortie, isRow: bool, target: Point, speed: real, mover: Mover, dts: seq<real>)
    ensures Strikes(s, isRow, target, speed, mover, dts) <= 1
    ensures s.triggered ==> Strikes(s, isRow, target, speed, mover, dts) == 0
    ensures Strikes(s, isRow, target, speed, mover, dts) == 1 ==> SortieAfter(s, isRow, target, speed, mover, dts).triggered
    ensures s.triggered ==> SortieAfter(s, isRow, target, speed, mover, dts).triggered
  {
    if dts != [] {
      StrikesAtMostOnce(s, isRow, target, speed, mover, dts[..|dts| - 1]);
    }
  }

  /** Whether a triggered aircraft is past the far edge of a row or column flight. */
  predicate OffMap(isRow: bool, p: Point, c: StrikeContext)
  {
    if isRow then p.x > (c.cols * c.tileSize + 100) as real else p.y > (c.rows * c.tileSize + 100) as real
  }

  // ---------------------------------------------------------------------
  // Lines of defenders, for the strike plan
  // ---------------------------------------------------------------------

  /** The grid rows (`isRow`) or columns of the live towers, in list order. */
  function TowerLines(ts: seq<Tower>, isRow: bool, tileSize: int): (cells: seq<int>)
    requires tileSize > 0
    reads TowerSet(ts)`x, TowerSet(ts)`y, TowerSet(ts)`alive
    ensures |cells| <= |ts|
  {
    if ts == [] then []
    else
      var t := ts[|ts| - 1];
      TowerLines(ts[..|ts| - 1], isRow, tileSize) + (if t.alive then [LineOf(if isRow then t.y else t.x, tileSize)] else [])
  }

  /** The grid rows or columns of the live AA defenses, in list order. */
  function AALines(aas: seq<AADefense>, isRow: bool, tileSize: int): (cells: seq<int>)
    requires tileSize > 0
    reads AASet(aas)`x, AASet(aas)`y, AASet(aas)`alive
    ensures |cells| <= |aas|
  {
    if aas == [] then []
    else
      var a := aas[|aas| - 1];
      AALines(aas[..|aas| - 1], isRow, tileSize) + (if a.alive then [LineOf(if isRow then a.y else a.x, tileSize)] else [])
  }

  /** The lines of every live defender: towers first, then AA defenses. */
  function DefenderLines(ts: seq<Tower>, aas: seq<AADefense>, isRow: bool, tileSize: int): seq<int>
    requires tileSize > 0
    reads TowerSet(ts)`x, TowerSet(ts)`y, TowerSet(ts)`alive, AASet(aas)`x, AASet(aas)`y, AASet(aas)`alive
  {
    TowerLines(ts, isRow, tileSize) + AALines(aas, isRow, tileSize)
  }

  lemma CountOfSnoc(cells: seq<int>, c: int, v: int)
    ensures CountOf(cells + [c], v) == CountOf(cells, v) + (if c == v then 1 else 0)
  {
    assert (cells + [c])[..|cells|] == cells;
  }

  lemma {:induction false} CountOfAppend(a: seq<int>, b: seq<int>, v: int)
    ensures CountOf(a + b, v) == CountOf(a, v) + CountOf(b, v)
  {
    if b != [] {
      assert (a + b)[..|a + b| - 1] == a + b[..|b| - 1];
      CountOfAppend(a, b[..|b| - 1], v);
    } else {
      assert a + b == a;
    }
  }

  /** The strike plan for the current defenders. */
  function StrikePlan(ts: seq<Tower>, aas: seq<AADefense>, c: StrikeContext): Plan
    requires c.tileSize > 0 && c.rows >= 0 && c.cols >= 0
    reads TowerSet(ts)`x, TowerSet(ts)`y, TowerSet(ts)`alive, AASet(aas)`x, AASet(aas)`y, AASet(aas)`alive
  {
    ChoosePlan(LineCounts(DefenderLines(ts, aas, true, c.tileSize), c.rows),
               LineCounts(DefenderLines(ts, aas, false, c.tileSize), c.cols), c.rows, c.cols)
  }

  /** The towers whose grid row (`isRow`) or column is `line`. */
  function TowersOnLine(ts: seq<Tower>, isRow: bool, line: int, tileSize: int): set<Tower>
    requires tileSize > 0
    reads TowerSet(ts)`x, TowerSet(ts)`y
  {
    set t | t in ts && LineOf(if isRow then t.y else t.x, tileSize) == line
  }

  /** The AA defenses whose grid row (`isRow`) or column is `line`. */
  function AAOnLine(aas: seq<AADefense>, isRow: bool, line: int, tileSize: int): set<AADefense>
    requires tileSize > 0
    reads AASet(aas)`x, AASet(aas)`y
  {
    set a | a in aas && LineOf(if isRow then a.y else a.x, tileSize) == line
  }

  /**
   * A strike along `line`: each tower and AA defense on that row or column of
   * the grid takes `damage` once for every time it is listed; all others are
   * untouched.  A tank turret that dies loses its shells.
   */
  twostate predicate Struck(isRow: bool, line: int, damage: int, ts: seq<Tower>, aas: seq<AADefense>, tileSize: int)
    requires tileSize > 0
    reads TowerSet(ts)`x, TowerSet(ts)`y, TowerSet(ts)`hp, TowerSet(ts)`alive, TowerSet(ts)`projectiles, AASet(aas)`x, AASet(aas)`y, AASet(aas)`hp, AASet(aas)`alive
  {
    && TowersStruck(damage, ts, old(TowersOnLine(ts, isRow, line, tileSize)), ts)
    && AAStruck(damage, aas, old(AAOnLine(aas, isRow, line, tileSize)), aas)
  }

  /** Each tower of `ts` in `hit` took `damage` as many times as `listed` holds it; the rest are untouched. */
  twostate predicate TowersStruck(damage: int, ts: seq<Tower>, hit: set<Tower>, listed: seq<Tower>)
    reads TowerSet(ts)`hp, TowerSet(ts)`alive, TowerSet(ts)`projectiles
  {
    TowersDamaged(damage, ts, hit, listed) && ShellsKept(ts)
  }

  twostate predicate TowersDamaged(damage: int, ts: seq<Tower>, hit: set<Tower>, listed: seq<Tower>)
    reads TowerSet(ts)`hp, TowerSet(ts)`alive
  {
    forall t | t in ts ::
      t.HealthOf() == (if t in hit then Repeated(old(t.HealthOf()), damage, Occurrences(listed, t)) else old(t.HealthOf()))
  }

  /** Every tower keeps its projectiles, except a tank turret that died, which lost them. */
  twostate predicate ShellsKept(ts: seq<Tower>)
    reads TowerSet(ts)`alive, TowerSet(ts)`projectiles
  {
    forall t | t in ts :: t.projectiles == AfterLoss(t.kind, old(t.projectiles), old(t.alive), t.alive)
  }

  /** Each AA defense of `aas` in `hit` took `damage` as many times as `listed` holds it; the rest are untouched. */
  twostate predicate AAStruck(damage: int, aas: seq<AADefense>, hit: set<AADefense>, listed: seq<AADefense>)
    reads AASet(aas)`hp, AASet(aas)`alive
  {
    forall a | a in aas ::
      a.HealthOf() == (if a in hit then Repeated(old(a.HealthOf()), damage, Occurrences(listed, a)) else old(a.HealthOf()))
  }

  /** Every tower of `ts` kept its projectiles or lost them all. */
  twostate predicate ShellsShed(ts: set<Tower>)
    reads ts`projectiles
  {
    forall t | t in ts :: t.projectiles == old(t.projectiles) || t.projectiles == []
  }

  /** A tower's projectiles after a hit: a tank turret that dies clears its shells. */
  function AfterLoss(kind: TowerKind, before: seq<Projectile>, wasAlive: bool, nowAlive: bool): seq<Projectile>
  {
    if kind == TankTower && wasAlive && !nowAlive then [] else before
  }

  /** Hits leave a dead defender as it is. */
  lemma {:induction false} RepeatedKeepsDead(h: Health, damage: int, n: nat)
    requires !h.alive
    ensures Repeated(h, damage, n) == h
  {
    if n > 0 {
      RepeatedKeepsDead(h, damage, n - 1);
    }
  }

  /** The scan of `attackNearbyDefenses` from index `from` on: the first tower within `reach` of `at`. */
  function FirstTowerWithin(dist: Distance, at: Point, ts: seq<Tower>, reach: real, from: nat): (r: Option<nat>)
    reads TowerSet(ts)`x, TowerSet(ts)`y
    decreases |ts| - from
  {
    if from >= |ts| then None
    else if dist(at.x, at.y, ts[from].x, ts[from].y) <= reach then Some(from)
    else FirstTowerWithin(dist, at, ts, reach, from + 1)
  }

  /** The scan finds the first index from `from` on whose tower is within reach, and nothing when there is none. */
  lemma {:induction false} FirstTowerWithinIsFirst(dist: Distance, at: Point, ts: seq<Tower>, reach: real, from: nat)
    ensures var r := FirstTowerWithin(dist, at, ts, reach, from);
      && (r.Some? ==> from <= r.value < |ts| && dist(at.x, at.y, ts[r.value].x, ts[r.value].y) <= reach)
      && (r.Some? ==> forall j :: from <= j < r.value ==> dist(at.x, at.y, ts[j].x, ts[j].y) > reach)
      && (r.None? ==> forall j :: from <= j < |ts| ==> dist(at.x, at.y, ts[j].x, ts[j].y) > reach)
    decreases |ts| - from
  {
    if from < |ts| {
      FirstTowerWithinIsFirst(dist, at, ts, reach, from + 1);
    }
  }

  /** The same scan over the AA defenses. */
  function FirstAAWithin(dist: Distance, at: Point, aas: seq<AADefense>, reach: real, from: nat): (r: Option<nat>)
    reads AASet(aas)`x, AASet(aas)`y
    decreases |aas| - from
  {
    if from >= |aas| then None
    else if dist(at.x, at.y, aas[from].x, aas[from].y) <= reach then Some(from)
    else FirstAAWithin(dist, at, aas, reach, from + 1)
  }

  /** The AA scan finds the first index from `from` on whose defense is within reach, and nothing when there is none. */
  lemma {:induction false} FirstAAWithinIsFirst(dist: Distance, at: Point, aas: seq<AADefense>, reach: real, from: nat)
    ensures var r := FirstAAWithin(dist, at, aas, reach, from);
      && (r.Some? ==> from <= r.value < |aas| && dist(at.x, at.y, aas[r.value].x, aas[r.value].y) <= reach)
      && (r.Some? ==> forall j :: from <= j < r.value ==> dist(at.x, at.y, aas[j].x, aas[j].y) > reach)
      && (r.None? ==> forall j :: from <= j < |aas| ==> dist(at.x, at.y, aas[j].x, aas[j].y) > reach)
    decreases |aas| - from
  {
    if from < |aas| {
      FirstAAWithinIsFirst(dist, at, aas, reach, from + 1);
    }
  }

  /** What a hit can change on a tower: its health and the shells it has in flight. */
  datatype TowerMark = TowerMark(health: Health, shells: seq<Projectile>)

  /** Each listed tower's mark. */
  function TowerMarks(ts: seq<Tower>): (r: map<Tower, TowerMark>)
    reads TowerSet(ts)`hp, TowerSet(ts)`alive, TowerSet(ts)`projectiles
    ensures forall t | t in ts :: t in r && r[t] == t.Mark()
  {
    map t | t in ts :: t.Mark()
  }

  /** Each listed AA defense's health. */
  function AAHealths(aas: seq<AADefense>): (r: map<AADefense, Health>)
    reads AASet(aas)`hp, AASet(aas)`alive
    ensures forall a | a in aas :: a in r && r[a] == a.HealthOf()
  {
    map a | a in aas :: a.HealthOf()
  }

  /**
   * Against the marks `before`, the tower at index `pick` took `damage`, no
   * other tower changed, and a TankTower that died lost its shells.
   */
  predicate TowersHit(ts: seq<Tower>, damage: int, pick: Option<nat>, before: map<Tower, TowerMark>)
    reads TowerSet(ts)`hp, TowerSet(ts)`alive, TowerSet(ts)`projectiles
  {
    forall t | t in ts ::
      t in before && t.Mark() == (if pick.Some? && pick.value < |ts| && t == ts[pick.value] then Shot(t.kind, before[t], damage) else before[t])
  }

  /** A tower's mark after a hit of `damage`: it loses the health, and a TankTower that dies loses its shells. */
  function Shot(kind: TowerKind, m: TowerMark, damage: int): TowerMark
  {
    var h := Damaged(m.health, damage);
    TowerMark(h, AfterLoss(kind, m.shells, m.health.alive, h.alive))
  }

  /** Against the healths `before`, the AA defense at index `pick` took `damage`, and no other changed. */
  predicate AAHit(aas: seq<AADefense>, damage: int, pick: Option<nat>, before: map<AADefense, Health>)
    reads AASet(aas)`hp, AASet(aas)`alive
  {
    forall a | a in aas ::
      && a in before
      && a.HealthOf() == (if pick.Some? && pick.value < |aas| && a == aas[pick.value] then Damaged(before[a], damage) else before[a])
  }

  /**
   * What a tank's volley looks at before it fires: the defenders' marks and
   * healths, and the first tower and first AA defense within reach of `at`.
   */
  datatype Standing = Standing(marks: map<Tower, TowerMark>, healths: map<AADefense, Health>,
                               nearestTower: Option<nat>, nearestAA: Option<nat>)
  {
    /** The same defenders with none of them in reach. */
    function Unaimed(): Standing
    {
      Standing(marks, healths, None, None)
    }
  }

  function StandingAt(dist: Distance, at: Point, ts: seq<Tower>, aas: seq<AADefense>): Standing
    reads TowerSet(ts)`x, TowerSet(ts)`y, TowerSet(ts)`hp, TowerSet(ts)`alive, TowerSet(ts)`projectiles, AASet(aas)`x, AASet(aas)`y, AASet(aas)`hp, AASet(aas)`alive
  {
    Standing(TowerMarks(ts), AAHealths(aas),
             FirstTowerWithin(dist, at, ts, TANK_ATTACK_RANGE, 0), FirstAAWithin(dist, at, aas, TANK_ATTACK_RANGE, 0))
  }

  /** Against `before`, the nearest tower and the nearest AA defense took `damage`, and nothing else changed. */
  predicate Volleyed(ts: seq<Tower>, aas: seq<AADefense>, damage: int, before: Standing)
    reads TowerSet(ts)`hp, TowerSet(ts)`alive, TowerSet(ts)`projectiles, AASet(aas)`hp, AASet(aas)`alive
  {
    TowersHit(ts, damage, before.nearestTower, before.marks) && AAHit(aas, damage, before.nearestAA, before.healths)
  }

  /** A volley with nothing in reach leaves every defender as it stands. */
  lemma UnaimedAsTheyStand(dist: Distance, at: Point, ts: seq<Tower>, aas: seq<AADefense>, damage: int)
    ensures Volleyed(ts, aas, damage, StandingAt(dist, at, ts, aas).Unaimed())
  {
  }

  // ---------------------------------------------------------------------
  // Enemies
  // ---------------------------------------------------------------------

  class Enemy {
    const kind: EnemyKind
    var x: real
    var y: real
    const maxHp: int
    var currentHp: int
    const baseSpeed: real
    var currentSpeed: real
    const power: int
    const spriteIndex: int
    var pathProgress: real
    var path: Option<Path>
    var alive: bool
    var reachedEnd: bool
    var slowMultiplier: real
    var slowDuration: real

    /** A tank's damage per second against defenses (0 when the stat is absent), its shot timer and the defenders near it. */
    const dpsVsDefenses: real
    var shootCooldown: real
    var nearbyTowers: seq<Tower>
    var nearbyAA: seq<AADefense>

    /** An aircraft's strike flag, flight, strike plan, grid, and going-down animation. */
    var hasTriggeredStrike: bool
    var isFlying: bool
    var targetX: real
    var targetY: real
    var context: Option<StrikeContext>
    var isDestroying: bool
    var destructionTime: real
    var strikeRow: int
    var strikeCol: int
    var isRowStrike: bool

    /**
     * Progress stays in [0, 1] and the enemy is at the end exactly at 1; an
     * aircraft never follows a path, keeps progress 0 and has 50 hp at most.
     */
    ghost predicate Valid()
      reads this`pathProgress, this`reachedEnd, this`path, this`context
    {
      && 0.0 <= pathProgress <= 1.0
      && (reachedEnd <==> pathProgress == 1.0)
      && (kind == Aircraft ==> pathProgress == 0.0 && path.None? && maxHp == AIRCRAFT_HP)
      && (context.Some? ==> context.value.tileSize > 0 && context.value.rows >= 0 && context.value.cols >= 0)
    }

    function HealthOf(): Health
      reads this`currentHp, this`alive
    {
      Health(currentHp, alive)
    }

    function SlowOf(): Slow
      reads this`slowMultiplier, this`slowDuration
    {
      Slow(slowMultiplier, slowDuration)
    }

    function Position(): Point
      reads this`x, this`y
    {
      Point(x, y)
    }

    function View(): EnemyView
      reads this
    {
      EnemyView(x, y, pathProgress, currentHp, maxHp, alive, reachedEnd, kind == Aircraft)
    }

    function Flight(): Sortie
      reads this
    {
      Sortie(Position(), isFlying, hasTriggeredStrike)
    }

    function MotionOf(): Motion
      reads this
    {
      Motion(Footing(), Flight(), alive, isDestroying, destructionTime)
    }

    /**
     * `m1` is what one `update` makes of `m0` on this enemy: a ground enemy
     * treads its path and an aircraft flies.
     */
    predicate Moved(m0: Motion, m1: Motion, dt: real, dist: Distance, mover: Mover)
      reads this`path, this`targetX, this`targetY, this`isRowStrike
    {
      if kind != Aircraft then Trod(m0, m1, dt, dist) else Flew(m0, m1, dt, mover)
    }

    /** A ground enemy that is moving takes the `Step` its path gives; one that is not stays as it was. */
    predicate Trod(m0: Motion, m1: Motion, dt: real, dist: Distance)
      reads this`path
    {
      && m1.alive == m0.alive
      && m1.footing == (if m0.alive && !m0.footing.atEnd && path.Some? then Step(m0.footing, baseSpeed, dt, dist, path.value.waypoints) else m0.footing)
    }

    /**
     * An aircraft going down falls for `dt` more seconds and is gone once
     * the animation is over; a living one flies its sortie; a dead one that
     * is not going down stays as it was.
     */
    predicate Flew(m0: Motion, m1: Motion, dt: real, mover: Mover)
      reads this`targetX, this`targetY, this`isRowStrike
    {
      if m0.destroying then
        && m1.fallen == m0.fallen + dt
        && m1.flight.pos == Point(m0.flight.pos.x, m0.flight.pos.y + FALL_SPEED * dt)
        && m1.destroying == (m1.fallen < DESTRUCTION_DURATION)
        && m1.alive == (m0.alive && m1.fallen < DESTRUCTION_DURATION)
      else if !m0.alive then
        m1 == m0
      else
        var s := Sortied(m0.flight, isRowStrike, Point(targetX, targetY), baseSpeed * AIRCRAFT_SPEED_FACTOR * dt, mover);
        && m1.flight.pos == s.after.pos && m1.flight.triggered == s.after.triggered
        && m1.destroying == m0.destroying && m1.fallen == m0.fallen
    }

    /**
     * The health fields and an aircraft's going-down fields after a hit of
     * `damage` when `struck`, and untouched otherwise.
     */
    twostate predicate Hurt(struck: bool, damage: int)
      reads this`currentHp, this`alive, this`isDestroying, this`destructionTime, this`hasTriggeredStrike
    {
      var downed := struck && old(alive) && kind == Aircraft;
      && HealthOf() == (if struck then Hit(kind == Aircraft, old(HealthOf()), damage) else old(HealthOf()))
      && isDestroying == (if downed then true else old(isDestroying))
      && destructionTime == (if downed then 0.0 else old(destructionTime))
      && hasTriggeredStrike == (if downed then true else old(hasTriggeredStrike))
    }

    /**
     * A new enemy of `kind`: full health, alive, at the start of no path, not
     * slowed.  An aircraft has 50 hp whatever its stats say; a tank's damage
     * against defenses defaults to 0.
     */
    constructor (kind: EnemyKind, stats: EnemyStats)
      ensures Valid() && this.kind == kind
      ensures maxHp == (if kind == Aircraft then AIRCRAFT_HP else stats.hp) && HealthOf() == Health(maxHp, true)
      ensures baseSpeed == stats.speed && currentSpeed == stats.speed
      ensures power == stats.power && spriteIndex == stats.spriteIndex
      ensures pathProgress == 0.0 && path.None? && !reachedEnd && Position() == Point(0.0, 0.0)
      ensures SlowOf() == Slow(1.0, 0.0)
      ensures dpsVsDefenses == (if kind == Tank && stats.dpsVsDefenses.Some? then stats.dpsVsDefenses.value as real else 0.0)
      ensures shootCooldown == 0.0 && nearbyTowers == [] && nearbyAA == []
      ensures !hasTriggeredStrike && isFlying && context.None? && !isDestroying && destructionTime == 0.0
      ensures strikeRow == -1 && strikeCol == -1 && isRowStrike && targetX == 0.0 && targetY == 0.0
    {
      this.kind := kind;
      x, y := 0.0, 0.0;
      var hp := if kind == Aircraft then AIRCRAFT_HP else stats.hp;
      maxHp, currentHp := hp, hp;
      baseSpeed, currentSpeed := stats.speed, stats.speed;
      power, spriteIndex := stats.power, stats.spriteIndex;
      pathProgress, path := 0.0, None;
      alive, reachedEnd := true, false;
      slowMultiplier, slowDuration := 1.0, 0.0;
      dpsVsDefenses := if kind == Tank && stats.dpsVsDefenses.Some? then stats.dpsVsDefenses.value as real else 0.0;
      shootCooldown, nearbyTowers, nearbyAA := 0.0, [], [];
      hasTriggeredStrike, isFlying, targetX, targetY, context := false, true, 0.0, 0.0, None;
      isDestroying, destructionTime := false, 0.0;
      strikeRow, strikeCol, isRowStrike := -1, -1, true;
    }

    /** Towers may target every enemy but an aircraft. */
    predicate CanBeTargetedByTowers()
    {
      kind != Aircraft
    }

    /** `isInRange`: within `range` pixels of the point. */
    predicate IsInRange(px: real, py: real, range: real, dist: Distance)
      reads this`x, this`y
    {
      dist(x, y, px, py) <= range
    }

    /**
     * `setPath`: a ground enemy takes the path and moves to its start (the
     * first waypoint, or the origin for none); an aircraft ignores paths.
     */
    method SetPath(p: Option<Path>, dist: Distance)
      requires Valid()
      modifies this`path, this`x, this`y
      ensures Valid()
      ensures kind == Aircraft ==> path == old(path) && Position() == old(Position())
      ensures kind != Aircraft ==> path == p
      ensures kind != Aircraft && p.Some? && p.value.waypoints != [] ==> Position() == p.value.waypoints[0]
      ensures kind != Aircraft && p.Some? && p.value.waypoints == [] ==> Position() == Point(0.0, 0.0)
      ensures kind != Aircraft && p.None? ==> Position() == old(Position())
    {
      if kind == Aircraft {
        return;
      }
      path := p;
      if p.Some? {
        var start := GetPositionAt(p.value, dist, 0.0);
        x, y := start.value.x, start.value.y;
      }
    }

    /** `setPosition`. */
    method SetPosition(px: real, py: real)
      modifies this`x, this`y
      ensures Position() == Point(px, py)
    {
      x, y := px, py;
    }

    /**
     * `updateStatusEffects`: the slow ticks down and wears off, and the
     * current speed follows the multiplier.
     */
    method UpdateStatusEffects(dt: real)
      modifies this`slowMultiplier, this`slowDuration, this`currentSpeed
      ensures SlowOf() == Ticked(old(SlowOf()), dt)
      ensures currentSpeed == baseSpeed * slowMultiplier
    {
      if slowDuration > 0.0 {
        slowDuration := slowDuration - dt;
        if slowDuration <= 0.0 {
          slowMultiplier := 1.0;
        }
      }
      currentSpeed := baseSpeed * slowMultiplier;
    }

    /** `applySlow`: the stronger multiplier and the longer duration win. */
    method ApplySlow(multiplier: real, duration: real)
      modifies this`slowMultiplier, this`slowDuration
      ensures SlowOf() == Applied(old(SlowOf()), multiplier, duration)
    {
      slowMultiplier := Min(slowMultiplier, multiplier);
      slowDuration := Max(slowDuration, duration);
    }

    /**
     * `takeDamage`: ignored once dead; hp drops and the enemy dies at 0 or
     * below, with hp held at 0.  An aircraft's hook zeroes its hp on any hit
     * and starts it going down with its strike cancelled.
     */
    method TakeDamage(damage: int)
      modifies this`currentHp, this`alive, this`isDestroying, this`destructionTime, this`hasTriggeredStrike
      ensures Hurt(true, damage)
    {
      if !alive {
        return;
      }
      currentHp := currentHp - damage;
      if kind == Aircraft {
        currentHp := 0;
        isDestroying, destructionTime, hasTriggeredStrike := true, 0.0, true;
      }
      if currentHp <= 0 {
        currentHp := 0;
        alive := false;
        if kind == Aircraft {
          hasTriggeredStrike := true;
        }
      }
    }

    /**
     * `moveAlongPath`: with a path, the speed follows the slow; on a path of
     * positive length progress advances by the covered share of its length,
     * clamped to [0, 1], and the enemy stands at that point of the path.
     */
    method MoveAlongPath(dt: real, dist: Distance)
      requires Valid() && path.Some?
      modifies this`currentSpeed, this`pathProgress, this`x, this`y
      ensures currentSpeed == baseSpeed * slowMultiplier
      ensures var length := TotalLength(dist, path.value.waypoints);
        && pathProgress == NextProgress(old(pathProgress), Stride(currentSpeed, dt), length)
        && (length > 0.0 ==> Some(Position()) == PositionAt(dist, path.value.waypoints, pathProgress)
                              && OnPath(path.value.waypoints, Position()))
        && (length <= 0.0 ==> Position() == old(Position()))
    {
      currentSpeed := baseSpeed * slowMultiplier;
      // `pixelsPerSecond * deltaTime`, with 64 pixels to the tile
      var distance := Stride(currentSpeed, dt);
      var pathLength := GetTotalLength(path.value, dist);
      if pathLength > 0.0 {
        pathProgress := Advanced(pathProgress, distance, pathLength);
        TotalLengthBasics(dist, path.value.waypoints);
        PositionIsOnPath(dist, path.value.waypoints, pathProgress);
        var centre := GetPositionAt(path.value, dist, pathProgress);
        x, y := centre.value.x, centre.value.y;
      }
    }

    /** The damage of a tank's volley, `(int)(dps · 1.0)`. */
    function VolleyDamage(): int
    {
      TruncateToInt(dpsVsDefenses * TANK_SHOOT_INTERVAL)
    }

    /**
     * `attackNearbyDefenses`: the first nearby tower within 2 px and the first
     * nearby AA defense within 2 px each take `(int)(dps · 1.0)` damage.
     */
    method AttackNearbyDefenses(dist: Distance)
      modifies TowerSet(nearbyTowers)`hp, TowerSet(nearbyTowers)`alive, TowerSet(nearbyTowers)`projectiles
      modifies AASet(nearbyAA)`hp, AASet(nearbyAA)`alive
      ensures Volleyed(nearbyTowers, nearbyAA, VolleyDamage(), old(StandingAt(dist, Position(), nearbyTowers, nearbyAA)))
    {
      var damage := TruncateToInt(dpsVsDefenses * TANK_SHOOT_INTERVAL);
      var at, ts, aas := Position(), nearbyTowers, nearbyAA;
      AttackFirstTower(at, ts, damage, dist);
      label towersDone:
      assert unchanged(AASet(aas));
      AttackFirstAA(at, aas, damage, dist);
      assert unchanged@towersDone(TowerSet(ts));
    }

    /** The first loop of `attackNearbyDefenses`: the first tower within reach of `at` takes `damage`. */
    static method AttackFirstTower(at: Point, ts: seq<Tower>, damage: int, dist: Distance)
      modifies TowerSet(ts)`hp, TowerSet(ts)`alive, TowerSet(ts)`projectiles
      ensures TowersHit(ts, damage, old(FirstTowerWithin(dist, at, ts, TANK_ATTACK_RANGE, 0)), old(TowerMarks(ts)))
    {
      var i := 0;
      while i < |ts| && dist(at.x, at.y, ts[i].x, ts[i].y) > TANK_ATTACK_RANGE
        invariant 0 <= i <= |ts|
        invariant FirstTowerWithin(dist, at, ts, TANK_ATTACK_RANGE, i) == FirstTowerWithin(dist, at, ts, TANK_ATTACK_RANGE, 0)
      {
        i := i + 1;
      }
      if i < |ts| {
        ts[i].TakeDamage(damage);
      }
    }

    /** The second loop of `attackNearbyDefenses`: the first AA defense within reach of `at` takes `damage`. */
    static method AttackFirstAA(at: Point, aas: seq<AADefense>, damage: int, dist: Distance)
      modifies AASet(aas)`hp, AASet(aas)`alive
      ensures AAHit(aas, damage, old(FirstAAWithin(dist, at, aas, TANK_ATTACK_RANGE, 0)), old(AAHealths(aas)))
    {
      var k := 0;
      while k < |aas| && dist(at.x, at.y, aas[k].x, aas[k].y) > TANK_ATTACK_RANGE
        invariant 0 <= k <= |aas|
        invariant FirstAAWithin(dist, at, aas, TANK_ATTACK_RANGE, k) == FirstAAWithin(dist, at, aas, TANK_ATTACK_RANGE, 0)
      {
        k := k + 1;
      }
      if k < |aas| {
        aas[k].TakeDamage(damage);
      }
    }

    /**
     * `updateNearbyDefenses`: both lists become exactly the live defenders
     * within 3 px, in list order, each as often as it is listed.
     */
    method UpdateNearbyDefenses(towers: seq<Tower>, aas: seq<AADefense>, dist: Distance)
      modifies this`nearbyTowers, this`nearbyAA
      ensures nearbyTowers == old(Filter(towers, NearTowerFlags(towers, x, y, dist)))
      ensures nearbyAA == old(Filter(aas, NearAAFlags(aas, x, y, dist)))
    {
      var near := NearTowers(towers, dist);
      var nearAA := NearAA(aas, dist);
      nearbyTowers, nearbyAA := near, nearAA;
    }

    /** The first loop of `updateNearbyDefenses`: the live towers within 3 px, in list order. */
    method NearTowers(towers: seq<Tower>, dist: Distance) returns (near: seq<Tower>)
      ensures near == Filter(towers, NearTowerFlags(towers, x, y, dist))
    {
      near := [];
      for i := 0 to |towers|
        invariant near == Filter(towers[..i], NearTowerFlags(towers[..i], x, y, dist))
      {
        var t := towers[i];
        assert towers[..i + 1][..i] == towers[..i];
        FilterNext(towers, i, NearTowerFlags(towers[..i], x, y, dist), t.alive && dist(x, y, t.x, t.y) <= TANK_NEARBY_RANGE);
        if t.alive && dist(x, y, t.x, t.y) <= TANK_NEARBY_RANGE {
          near := near + [t];
        }
      }
      assert towers[..|towers|] == towers;
    }

    /** The second loop of `updateNearbyDefenses`: the live AA defenses within 3 px, in list order. */
    method NearAA(aas: seq<AADefense>, dist: Distance) returns (near: seq<AADefense>)
      ensures near == Filter(aas, NearAAFlags(aas, x, y, dist))
    {
      near := [];
      for k := 0 to |aas|
        invariant near == Filter(aas[..k], NearAAFlags(aas[..k], x, y, dist))
      {
        var a := aas[k];
        assert aas[..k + 1][..k] == aas[..k];
        FilterNext(aas, k, NearAAFlags(aas[..k], x, y, dist), a.alive && dist(x, y, a.x, a.y) <= TANK_NEARBY_RANGE);
        if a.alive && dist(x, y, a.x, a.y) <= TANK_NEARBY_RANGE {
          near := near + [a];
        }
      }
      assert aas[..|aas|] == aas;
    }

    /** A path-following enemy moves this update: it is alive, not at the castle, and has a path. */
    predicate Moving()
      reads this`alive, this`reachedEnd, this`path
    {
      alive && !reachedEnd && path.Some?
    }

    /**
     * `Enemy.update` of a ground enemy: nothing happens unless it is moving;
     * then the slow ticks, it moves, and on reaching progress 1 it is at the
     * end and reports its power to the castle, once.  A tank then counts its
     * shot timer down and fires a volley when it runs out.
     */
    method UpdateOnPath(dt: real, dist: Distance) returns (published: seq<Event>)
      requires Valid() && kind != Aircraft
      modifies this`slowMultiplier, this`slowDuration, this`currentSpeed, this`pathProgress, this`x, this`y
      modifies this`reachedEnd, this`shootCooldown
      modifies TowerSet(nearbyTowers)`hp, TowerSet(nearbyTowers)`alive, TowerSet(nearbyTowers)`projectiles
      modifies AASet(nearbyAA)`hp, AASet(nearbyAA)`alive
      ensures Valid()
      ensures !old(Moving()) ==>
        published == [] && unchanged(this) && unchanged(TowerSet(nearbyTowers)) && unchanged(AASet(nearbyAA))
      ensures old(Moving()) ==> Walked(dt, dist, published, old(Footing()))
      ensures Trod(old(MotionOf()), MotionOf(), dt, dist)
      ensures old(Moving()) ==> var at := Position(); Fought(dt, old(shootCooldown), nearbyTowers, nearbyAA, old(StandingAt(dist, at, nearbyTowers, nearbyAA)))
      ensures ShellsShed(TowerSet(nearbyTowers))
    {
      published := [];
      if Moving() {
        published := Advance(dt, dist);
      }
    }

    /**
     * A tank's shot timer ran down by `dt` and, when it ran out, the tank
     * fired its volley from where it now stands and reloaded; any other
     * enemy leaves its timer and the defenders alone.
     */
    predicate Fought(dt: real, cooldown: real, ts: seq<Tower>, aas: seq<AADefense>, before: Standing)
      reads this`shootCooldown, TowerSet(ts)`hp, TowerSet(ts)`alive, TowerSet(ts)`projectiles, AASet(aas)`hp, AASet(aas)`alive
    {
      var fires := kind == Tank && cooldown - dt <= 0.0;
      && shootCooldown == (if kind != Tank then cooldown else if fires then TANK_SHOOT_INTERVAL else cooldown - dt)
      && Volleyed(ts, aas, VolleyDamage(), if fires then before else before.Unaimed())
    }

    /** The update of a moving ground enemy: it walks, and a tank then fights. */
    method Advance(dt: real, dist: Distance) returns (published: seq<Event>)
      requires Valid() && Moving()
      modifies this`slowMultiplier, this`slowDuration, this`currentSpeed, this`pathProgress, this`x, this`y
      modifies this`reachedEnd, this`shootCooldown
      modifies TowerSet(nearbyTowers)`hp, TowerSet(nearbyTowers)`alive, TowerSet(nearbyTowers)`projectiles
      modifies AASet(nearbyAA)`hp, AASet(nearbyAA)`alive
      ensures Walked(dt, dist, published, old(Footing()))
      ensures var at := Position(); Fought(dt, old(shootCooldown), nearbyTowers, nearbyAA, old(StandingAt(dist, at, nearbyTowers, nearbyAA)))
    {
      published := Walk(dt, dist);
      var at := Position();
      ghost var before := StandingAt(dist, at, nearbyTowers, nearbyAA);
      assert unchanged(TowerSet(nearbyTowers), AASet(nearbyAA));
      assert before == old(StandingAt(dist, at, nearbyTowers, nearbyAA));
      ghost var footing := Footing();
      Reload(dt, dist, before);
      assert Footing() == footing;
    }

    /**
     * One step along the path from slow `slow`, progress `progress` and
     * position `from`: the slow ticks, the speed follows it, progress
     * advances by the stride, the enemy stands where the path puts it, and on
     * reaching progress 1 it is at the end and reports its power.
     */
    predicate Walked(dt: real, dist: Distance, published: seq<Event>, before: Gait)
      reads this`path, this`slowMultiplier, this`slowDuration, this`currentSpeed, this`pathProgress, this`x, this`y, this`reachedEnd
    {
      && path.Some?
      && Footing() == Step(before, baseSpeed, dt, dist, path.value.waypoints)
      && published == (if reachedEnd && !before.atEnd then [EnemyReachedCastle(power)] else [])
    }

    /** The fields a step along the path changes. */
    function Footing(): Gait
      reads this`slowMultiplier, this`slowDuration, this`currentSpeed, this`pathProgress, this`x, this`y, this`reachedEnd
    {
      Gait(SlowOf(), currentSpeed, pathProgress, Position(), reachedEnd)
    }

    /** The moving half of `update`. */
    method Walk(dt: real, dist: Distance) returns (published: seq<Event>)
      requires Valid() && Moving()
      modifies this`slowMultiplier, this`slowDuration, this`currentSpeed, this`pathProgress, this`x, this`y, this`reachedEnd
      ensures Valid() && Walked(dt, dist, published, old(Footing()))
    {
      published := [];
      ghost var g := Footing();
      UpdateStatusEffects(dt);
      MoveAlongPath(dt, dist);
      if pathProgress >= 1.0 {
        reachedEnd := true;
        published := [EnemyReachedCastle(power)];
      }
      StepOf(g, baseSpeed, dt, dist, path.value.waypoints, Footing());
    }

    /** A tank's shot timer runs down by `dt`; when it runs out the tank fires its volley and reloads. */
    method Reload(dt: real, dist: Distance, ghost before: Standing)
      requires before == StandingAt(dist, Position(), nearbyTowers, nearbyAA)
      modifies this`shootCooldown
      modifies TowerSet(nearbyTowers)`hp, TowerSet(nearbyTowers)`alive, TowerSet(nearbyTowers)`projectiles
      modifies AASet(nearbyAA)`hp, AASet(nearbyAA)`alive
      ensures Fought(dt, old(shootCooldown), nearbyTowers, nearbyAA, before)
    {
      if kind != Tank {
        UnaimedAsTheyStand(dist, Position(), nearbyTowers, nearbyAA, VolleyDamage());
        return;
      }
      var cooldown := shootCooldown - dt;
      shootCooldown := if cooldown <= 0.0 then TANK_SHOOT_INTERVAL else cooldown;
      assert unchanged(TowerSet(nearbyTowers), AASet(nearbyAA));
      assert before == StandingAt(dist, Position(), nearbyTowers, nearbyAA);
      if cooldown <= 0.0 {
        AttackNearbyDefenses(dist);
      } else {
        UnaimedAsTheyStand(dist, Position(), nearbyTowers, nearbyAA, VolleyDamage());
      }
    }

    /** `planStrike`'s row and column counting, into arrays of `rows` and `cols` entries. */
    static method CountDefenders(towers: seq<Tower>, aas: seq<AADefense>, c: StrikeContext) returns (rowCounts: array<int>, colCounts: array<int>)
      requires c.tileSize > 0 && c.rows >= 0 && c.cols >= 0
      ensures fresh(rowCounts) && fresh(colCounts)
      ensures rowCounts[..] == LineCounts(old(DefenderLines(towers, aas, true, c.tileSize)), c.rows)
      ensures colCounts[..] == LineCounts(old(DefenderLines(towers, aas, false, c.tileSize)), c.cols)
    {
      rowCounts := new int[c.rows](_ => 0);
      colCounts := new int[c.cols](_ => 0);
      assert unchanged(TowerSet(towers), AASet(aas));
      CountTowerLines(towers, c.tileSize, rowCounts, colCounts);
      assert unchanged(AASet(aas));
      CountAALines(aas, c.tileSize, rowCounts, colCounts);
      forall r | 0 <= r < c.rows
        ensures rowCounts[r] == CountOf(old(DefenderLines(towers, aas, true, c.tileSize)), r)
      {
        CountOfAppend(old(TowerLines(towers, true, c.tileSize)), old(AALines(aas, true, c.tileSize)), r);
      }
      forall q | 0 <= q < c.cols
        ensures colCounts[q] == CountOf(old(DefenderLines(towers, aas, false, c.tileSize)), q)
      {
        CountOfAppend(old(TowerLines(towers, false, c.tileSize)), old(AALines(aas, false, c.tileSize)), q);
      }
    }

    /** The tower loop of the counting: each live tower adds one to its row and to its column, where those exist. */
    static method CountTowerLines(towers: seq<Tower>, tileSize: int, rowCounts: array<int>, colCounts: array<int>)
      requires tileSize > 0 && rowCounts != colCounts
      modifies rowCounts, colCounts
      ensures forall r :: 0 <= r < rowCounts.Length ==> rowCounts[r] == old(rowCounts[r]) + CountOf(old(TowerLines(towers, true, tileSize)), r)
      ensures forall q :: 0 <= q < colCounts.Length ==> colCounts[q] == old(colCounts[q]) + CountOf(old(TowerLines(towers, false, tileSize)), q)
    {
      ghost var rowsSeen: seq<int> := [];
      ghost var colsSeen: seq<int> := [];
      var i := 0;
      while i < |towers|
        invariant 0 <= i <= |towers|
        invariant rowsSeen == old(TowerLines(towers[..i], true, tileSize)) && colsSeen == old(TowerLines(towers[..i], false, tileSize))
        invariant forall r :: 0 <= r < rowCounts.Length ==> rowCounts[r] == old(rowCounts[r]) + CountOf(rowsSeen, r)
        invariant forall q :: 0 <= q < colCounts.Length ==> colCounts[q] == old(colCounts[q]) + CountOf(colsSeen, q)
      {
        var t := towers[i];
        assert towers[..i + 1][..i] == towers[..i];
        assert old(TowerLines(towers[..i + 1], true, tileSize)) == rowsSeen + (if t.alive then [LineOf(t.y, tileSize)] else []);
        assert old(TowerLines(towers[..i + 1], false, tileSize)) == colsSeen + (if t.alive then [LineOf(t.x, tileSize)] else []);
        if t.alive {
          var col := LineOf(t.x, tileSize);
          var row := LineOf(t.y, tileSize);
          if 0 <= col < colCounts.Length { colCounts[col] := colCounts[col] + 1; }
          if 0 <= row < rowCounts.Length { rowCounts[row] := rowCounts[row] + 1; }
          forall r | 0 <= r < rowCounts.Length ensures CountOf(rowsSeen + [row], r) == CountOf(rowsSeen, r) + (if row == r then 1 else 0) {
            CountOfSnoc(rowsSeen, row, r);
          }
          forall q | 0 <= q < colCounts.Length ensures CountOf(colsSeen + [col], q) == CountOf(colsSeen, q) + (if col == q then 1 else 0) {
            CountOfSnoc(colsSeen, col, q);
          }
          rowsSeen, colsSeen := rowsSeen + [row], colsSeen + [col];
        }
        i := i + 1;
      }
      assert towers[..i] == towers;
    }

    /** The AA loop of the counting, the same for the live AA defenses. */
    static method CountAALines(aas: seq<AADefense>, tileSize: int, rowCounts: array<int>, colCounts: array<int>)
      requires tileSize > 0 && rowCounts != colCounts
      modifies rowCounts, colCounts
      ensures forall r :: 0 <= r < rowCounts.Length ==> rowCounts[r] == old(rowCounts[r]) + CountOf(old(AALines(aas, true, tileSize)), r)
      ensures forall q :: 0 <= q < colCounts.Length ==> colCounts[q] == old(colCounts[q]) + CountOf(old(AALines(aas, false, tileSize)), q)
    {
      ghost var rowsSeen: seq<int> := [];
      ghost var colsSeen: seq<int> := [];
      var k := 0;
      while k < |aas|
        invariant 0 <= k <= |aas|
        invariant rowsSeen == old(AALines(aas[..k], true, tileSize)) && colsSeen == old(AALines(aas[..k], false, tileSize))
        invariant forall r :: 0 <= r < rowCounts.Length ==> rowCounts[r] == old(rowCounts[r]) + CountOf(rowsSeen, r)
        invariant forall q :: 0 <= q < colCounts.Length ==> colCounts[q] == old(colCounts[q]) + CountOf(colsSeen, q)
      {
        var a := aas[k];
        assert aas[..k + 1][..k] == aas[..k];
        assert old(AALines(aas[..k + 1], true, tileSize)) == rowsSeen + (if a.alive then [LineOf(a.y, tileSize)] else []);
        assert old(AALines(aas[..k + 1], false, tileSize)) == colsSeen + (if a.alive then [LineOf(a.x, tileSize)] else []);
        if a.alive {
          var col := LineOf(a.x, tileSize);
          var row := LineOf(a.y, tileSize);
          if 0 <= col < colCounts.Length { colCounts[col] := colCounts[col] + 1; }
          if 0 <= row < rowCounts.Length { rowCounts[row] := rowCounts[row] + 1; }
          forall r | 0 <= r < rowCounts.Length ensures CountOf(rowsSeen + [row], r) == CountOf(rowsSeen, r) + (if row == r then 1 else 0) {
            CountOfSnoc(rowsSeen, row, r);
          }
          forall q | 0 <= q < colCounts.Length ensures CountOf(colsSeen + [col], q) == CountOf(colsSeen, q) + (if col == q then 1 else 0) {
            CountOfSnoc(colsSeen, col, q);
          }
          rowsSeen, colsSeen := rowsSeen + [row], colsSeen + [col];
        }
        k := k + 1;
      }
      assert aas[..k] == aas;
    }

    /** `planStrike`'s scan for the busiest line: the first strict maximum above 0, else `fallback`. */
    static method BusiestLine(counts: array<int>, fallback: int) returns (best: int, count: int)
      ensures best == BestLine(counts[..], fallback) && count == BestCount(counts[..])
    {
      count := 0;
      best := fallback;
      var i := 0;
      while i < counts.Length
        invariant 0 <= i <= counts.Length
        invariant var p := LineScan(counts[..], i);
          && p.best == count as real
          && (p.index.None? ==> best == fallback && count == 0)
          && (p.index.Some? ==> best == p.index.value && count == counts[best])
      {
        if counts[i] > count {
          count := counts[i];
          best := i;
        }
        i := i + 1;
      }
    }

    /**
     * `setCombatSystem` and `planStrike`: the aircraft keeps the grid, counts
     * the live defenders on every row and column, and sets up the flight
     * along the chosen line.
     */
    method SetCombatSystem(towers: seq<Tower>, aas: seq<AADefense>, c: StrikeContext)
      requires Valid() && kind == Aircraft
      requires c.tileSize > 0 && c.rows >= 0 && c.cols >= 0
      modifies this`context, this`isRowStrike, this`strikeRow, this`strikeCol, this`x, this`y, this`targetX, this`targetY
      ensures Valid() && context == Some(c)
      ensures var plan := old(StrikePlan(towers, aas, c));
        var f := PlanFlight(plan, c.rows, c.cols, c.tileSize);
        && isRowStrike == plan.isRow
        && (plan.isRow ==> strikeRow == plan.line && strikeCol == old(strikeCol))
        && (!plan.isRow ==> strikeCol == plan.line && strikeRow == old(strikeRow))
        && Position() == f.start && Point(targetX, targetY) == f.target
    {
      var plan := PlanStrike(towers, aas, c);
      assert unchanged(TowerSet(towers), AASet(aas));
      assert plan == old(StrikePlan(towers, aas, c));
      TakeLine(plan, c);
    }

    /** The flight along the line of `plan` on the grid `c`, with the grid kept. */
    method TakeLine(plan: Plan, c: StrikeContext)
      requires Valid() && kind == Aircraft
      requires c.tileSize > 0 && c.rows >= 0 && c.cols >= 0
      modifies this`context, this`isRowStrike, this`strikeRow, this`strikeCol, this`x, this`y, this`targetX, this`targetY
      ensures Valid() && context == Some(c)
      ensures var f := PlanFlight(plan, c.rows, c.cols, c.tileSize);
        && isRowStrike == plan.isRow
        && (plan.isRow ==> strikeRow == plan.line && strikeCol == old(strikeCol))
        && (!plan.isRow ==> strikeCol == plan.line && strikeRow == old(strikeRow))
        && Position() == f.start && Point(targetX, targetY) == f.target
    {
      context := Some(c);
      var ts := c.tileSize;
      isRowStrike := plan.isRow;
      if plan.isRow {
        strikeRow := plan.line;
        x := -100.0;
        y := LineCentre(strikeRow, ts) as real;
        targetX := PastEdge(c.cols, ts) as real;
        targetY := y;
      } else {
        strikeCol := plan.line;
        x := LineCentre(strikeCol, ts) as real;
        y := -100.0;
        targetX := x;
        targetY := PastEdge(c.rows, ts) as real;
      }
    }

    /** `planStrike`: the live defenders are counted on every row and column, and the busiest line is chosen. */
    static method PlanStrike(towers: seq<Tower>, aas: seq<AADefense>, c: StrikeContext) returns (plan: Plan)
      requires c.tileSize > 0 && c.rows >= 0 && c.cols >= 0
      ensures plan == StrikePlan(towers, aas, c)
    {
      var rowCounts, colCounts := CountDefenders(towers, aas, c);
      plan := ChooseStrike(rowCounts, colCounts, c.rows, c.cols);
      assert unchanged(TowerSet(towers), AASet(aas));
    }

    /**
     * The choice between the busiest row and the busiest column: the row on a
     * tie, the middle row when no line holds a defender.
     */
    static method ChooseStrike(rowCounts: array<int>, colCounts: array<int>, rows: int, cols: int) returns (plan: Plan)
      ensures plan == ChoosePlan(rowCounts[..], colCounts[..], rows, cols)
    {
      var bestRow, maxRowCount := BusiestLine(rowCounts, rows / 2);
      var bestCol, maxColCount := BusiestLine(colCounts, cols / 2);
      if maxRowCount >= maxColCount && maxRowCount > 0 {
        plan := Plan(true, bestRow);
      } else if maxColCount > 0 {
        plan := Plan(false, bestCol);
      } else {
        plan := Plan(true, rows / 2);
      }
    }

    /** `setTriggeredStrike`. */
    method SetTriggeredStrike(triggered: bool)
      modifies this`hasTriggeredStrike
      ensures hasTriggeredStrike == triggered
    {
      hasTriggeredStrike := triggered;
    }

    /** `updateStraightFlight`: one step of `baseSpeed · 120 · dt` pixels toward the flight's target. */
    method FlyStraight(dt: real, mover: Mover)
      modifies this`x, this`y
      ensures Position() == mover(old(Position()), Point(targetX, targetY), baseSpeed * AIRCRAFT_SPEED_FACTOR * dt)
    {
      var p := mover(Point(x, y), Point(targetX, targetY), baseSpeed * AIRCRAFT_SPEED_FACTOR * dt);
      x, y := p.x, p.y;
    }

    /**
     * `strikeRow` and `strikeColumn`: every live tower and AA defense whose
     * grid line is `line` takes `damage`, once per listing.
     */
    static method StrikeLine(isRow: bool, line: int, damage: int, towers: seq<Tower>, aas: seq<AADefense>, tileSize: int)
      requires tileSize > 0
      modifies TowerSet(towers)`hp, TowerSet(towers)`alive, TowerSet(towers)`projectiles
      modifies AASet(aas)`hp, AASet(aas)`alive
      ensures Struck(isRow, line, damage, towers, aas, tileSize)
    {
      StrikeTowers(isRow, line, damage, towers, tileSize);
      StrikeAA(isRow, line, damage, aas, tileSize);
    }

    /** The tower loop of a strike. */
    static method StrikeTowers(isRow: bool, line: int, damage: int, towers: seq<Tower>, tileSize: int)
      requires tileSize > 0
      modifies TowerSet(towers)`hp, TowerSet(towers)`alive, TowerSet(towers)`projectiles
      ensures TowersStruck(damage, towers, old(TowersOnLine(towers, isRow, line, tileSize)), towers)
    {
      ghost var hit := TowersOnLine(towers, isRow, line, tileSize);
      var i := 0;
      while i < |towers|
        invariant 0 <= i <= |towers|
        invariant TowersDamaged(damage, towers, hit, towers[..i])
        invariant ShellsKept(towers)
      {
        var t := towers[i];
        assert towers[..i + 1][..i] == towers[..i];
        label before:
        if t.alive && LineOf(if isRow then t.y else t.x, tileSize) == line {
          assert t in hit;
          t.TakeDamage(damage);
        } else {
          assert t.alive ==> t !in hit;
        }
        forall u | u in towers
          ensures u.HealthOf() == (if u in hit then Repeated(old(u.HealthOf()), damage, Occurrences(towers[..i + 1], u)) else old(u.HealthOf()))
        {
          if u != t {
            assert unchanged@before(u);
          }
        }
        forall u | u in towers
          ensures u.projectiles == AfterLoss(u.kind, old(u.projectiles), old(u.alive), u.alive)
        {
          if u != t {
            assert unchanged@before(u);
          } else if old@before(u.alive) && !old(u.alive) {
            RepeatedKeepsDead(old(u.HealthOf()), damage, Occurrences(towers[..i], u));
          }
        }
        i := i + 1;
      }
      assert towers[..i] == towers;
    }

    /** The AA loop of a strike. */
    static method StrikeAA(isRow: bool, line: int, damage: int, aas: seq<AADefense>, tileSize: int)
      requires tileSize > 0
      modifies AASet(aas)`hp, AASet(aas)`alive
      ensures AAStruck(damage, aas, old(AAOnLine(aas, isRow, line, tileSize)), aas)
    {
      ghost var hit := AAOnLine(aas, isRow, line, tileSize);
      var k := 0;
      while k < |aas|
        invariant 0 <= k <= |aas|
        invariant AAStruck(damage, aas, hit, aas[..k])
      {
        var a := aas[k];
        assert aas[..k + 1][..k] == aas[..k];
        label before:
        if a.alive && LineOf(if isRow then a.y else a.x, tileSize) == line {
          assert a in hit;
          a.TakeDamage(damage);
        } else {
          assert a.alive ==> a !in hit;
        }
        forall u | u in aas
          ensures u.HealthOf() == (if u in hit then Repeated(old(u.HealthOf()), damage, Occurrences(aas[..k + 1], u)) else old(u.HealthOf()))
        {
          if u != a {
            assert unchanged@before(u);
          }
        }
        k := k + 1;
      }
      assert aas[..k] == aas;
    }

    /**
     * `Aircraft.update`: an aircraft going down falls for one second and is
     * then gone; a dead one does nothing; a living one flies its sortie,
     * strikes its line once when it has a grid, and leaves the map past the
     * far edge.  `ok` is false where the source dereferences the grid it was
     * never given: the update stops there.
     */
    method UpdateAircraft(dt: real, mover: Mover, towers: seq<Tower>, aas: seq<AADefense>) returns (ok: bool)
      requires Valid() && kind == Aircraft
      modifies this`x, this`y, this`hasTriggeredStrike, this`isFlying, this`alive, this`isDestroying, this`destructionTime
      modifies TowerSet(towers)`hp, TowerSet(towers)`alive, TowerSet(towers)`projectiles
      modifies AASet(aas)`hp, AASet(aas)`alive
      ensures Valid()
      ensures old(isDestroying) ==>
        && ok && destructionTime == old(destructionTime) + dt
        && Position() == Point(old(x), old(y) + FALL_SPEED * dt)
        && isDestroying == (destructionTime < DESTRUCTION_DURATION)
        && alive == (old(alive) && destructionTime < DESTRUCTION_DURATION)
        && hasTriggeredStrike == old(hasTriggeredStrike) && isFlying == old(isFlying)
        && unchanged(TowerSet(towers)) && unchanged(AASet(aas))
      ensures !old(isDestroying) && !old(alive) ==>
        ok && unchanged(this) && unchanged(TowerSet(towers)) && unchanged(AASet(aas))
      ensures Flew(old(MotionOf()), MotionOf(), dt, mover)
      ensures !old(isDestroying) && old(alive) ==>
        var s := Sortied(old(Flight()), isRowStrike, Point(targetX, targetY), baseSpeed * AIRCRAFT_SPEED_FACTOR * dt, mover);
        && Position() == s.after.pos && hasTriggeredStrike == s.after.triggered
        && isDestroying == old(isDestroying) && destructionTime == old(destructionTime)
        && ok == (!s.after.triggered || context.Some?)
        && (s.strikes && context.Some? ==>
              Struck(isRowStrike, if isRowStrike then strikeRow else strikeCol, STRIKE_DAMAGE, towers, aas, context.value.tileSize))
        && (!(s.strikes && context.Some?) ==> unchanged(TowerSet(towers)) && unchanged(AASet(aas)))
        && (var leaves := ok && s.after.triggered && OffMap(isRowStrike, s.after.pos, context.value);
            isFlying == (old(isFlying) && !leaves) && alive == !leaves)
      ensures ShellsShed(TowerSet(towers))
    {
      if isDestroying {
        Fall(dt);
        return true;
      }
      if !alive {
        return true;
      }
      ok := Fly(dt, mover, towers, aas);
    }

    /** An aircraft going down falls at `FALL_SPEED` and is gone after `DESTRUCTION_DURATION` seconds. */
    method Fall(dt: real)
      modifies this`y, this`alive, this`isDestroying, this`destructionTime
      ensures destructionTime == old(destructionTime) + dt
      ensures Position() == Point(old(x), old(y) + FALL_SPEED * dt)
      ensures isDestroying == (old(isDestroying) && destructionTime < DESTRUCTION_DURATION)
      ensures alive == (old(alive) && destructionTime < DESTRUCTION_DURATION)
    {
      destructionTime := destructionTime + dt;
      y := y + FALL_SPEED * dt;
      if destructionTime >= DESTRUCTION_DURATION {
        alive := false;
        isDestroying := false;
      }
    }

    /**
     * A living aircraft's sortie: it flies toward the strike point, strikes
     * its line once past it when it has a grid, flies on, and leaves the map
     * past the far edge.
     */
    method Fly(dt: real, mover: Mover, towers: seq<Tower>, aas: seq<AADefense>) returns (ok: bool)
      requires Valid() && kind == Aircraft
      modifies this`x, this`y, this`hasTriggeredStrike, this`isFlying, this`alive
      modifies TowerSet(towers)`hp, TowerSet(towers)`alive, TowerSet(towers)`projectiles
      modifies AASet(aas)`hp, AASet(aas)`alive
      ensures Valid()
      ensures var s := Sortied(old(Flight()), isRowStrike, Point(targetX, targetY), baseSpeed * AIRCRAFT_SPEED_FACTOR * dt, mover);
        && Position() == s.after.pos && hasTriggeredStrike == s.after.triggered
        && ok == (!s.after.triggered || context.Some?)
        && (s.strikes && context.Some? ==>
              Struck(isRowStrike, if isRowStrike then strikeRow else strikeCol, STRIKE_DAMAGE, towers, aas, context.value.tileSize))
        && (!(s.strikes && context.Some?) ==> unchanged(TowerSet(towers)) && unchanged(AASet(aas)))
        && (var leaves := ok && s.after.triggered && OffMap(isRowStrike, s.after.pos, context.value);
            isFlying == (old(isFlying) && !leaves) && alive == (old(alive) && !leaves))
    {
      ghost var s := Sortied(Flight(), isRowStrike, Point(targetX, targetY), baseSpeed * AIRCRAFT_SPEED_FACTOR * dt, mover);
      var strikes := Approach(dt, mover);
      assert strikes == s.strikes;
      if strikes && context.Some? {
        assert unchanged(TowerSet(towers), AASet(aas));
        StrikeLine(isRowStrike, if isRowStrike then strikeRow else strikeCol, STRIKE_DAMAGE, towers, aas, context.value.tileSize);
      }
      label struck:
      ok := Depart(dt, mover);
      assert unchanged@struck(TowerSet(towers), AASet(aas));
    }

    /**
     * The first half of a sortie: an untriggered flying aircraft moves one
     * step, and once past the strike point it is triggered; `strikes` says
     * that it got there in this update.
     */
    method Approach(dt: real, mover: Mover) returns (strikes: bool)
      modifies this`x, this`y, this`hasTriggeredStrike
      ensures var first := old(isFlying && !hasTriggeredStrike);
        && Position() == (if first then mover(old(Position()), Point(targetX, targetY), baseSpeed * AIRCRAFT_SPEED_FACTOR * dt) else old(Position()))
        && strikes == (first && if isRowStrike then x > STRIKE_POINT else y > STRIKE_POINT)
      ensures hasTriggeredStrike == (old(hasTriggeredStrike) || strikes)
    {
      strikes := false;
      if isFlying && !hasTriggeredStrike {
        FlyStraight(dt, mover);
        strikes := if isRowStrike then x > STRIKE_POINT else y > STRIKE_POINT;
        if strikes {
          hasTriggeredStrike := true;
        }
      }
    }

    /**
     * The second half of a sortie: a triggered aircraft moves one more step
     * and is gone once off the map; `ok` is false where it has no grid.
     */
    method Depart(dt: real, mover: Mover) returns (ok: bool)
      modifies this`x, this`y, this`isFlying, this`alive
      ensures ok == (!hasTriggeredStrike || context.Some?)
      ensures Position() == if hasTriggeredStrike then mover(old(Position()), Point(targetX, targetY), baseSpeed * AIRCRAFT_SPEED_FACTOR * dt) else old(Position())
      ensures var leaves := ok && hasTriggeredStrike && OffMap(isRowStrike, Position(), context.value);
        isFlying == (old(isFlying) && !leaves) && alive == (old(alive) && !leaves)
    {
      if hasTriggeredStrike {
        FlyStraight(dt, mover);
        if context.None? {
          return false;
        }
        if OffMap(isRowStrike, Point(x, y), context.value) {
          alive := false;
          isFlying := false;
        }
      }
      return true;
    }

    /**
     * `update`, dispatched on the kind: an aircraft flies (never following a
     * path, so it never reaches the castle), every other enemy walks its path.
     */
    method Update(dt: real, dist: Distance, mover: Mover, towers: seq<Tower>, aas: seq<AADefense>) returns (published: seq<Event>, ok: bool)
      requires Valid()
      modifies this
      modifies TowerSet(nearbyTowers)`hp, TowerSet(nearbyTowers)`alive, TowerSet(nearbyTowers)`projectiles
      modifies AASet(nearbyAA)`hp, AASet(nearbyAA)`alive
      modifies TowerSet(towers)`hp, TowerSet(towers)`alive, TowerSet(towers)`projectiles
      modifies AASet(aas)`hp, AASet(aas)`alive
      ensures Valid()
      ensures Moved(old(MotionOf()), MotionOf(), dt, dist, mover)
      ensures kind == Aircraft ==> published == [] && pathProgress == 0.0 && !reachedEnd
      ensures kind != Aircraft ==> ok && (published == [] || published == [EnemyReachedCastle(power)])
      ensures kind != Aircraft && published != [] ==> reachedEnd && !old(reachedEnd)
      ensures nearbyTowers == old(nearbyTowers) && nearbyAA == old(nearbyAA)
      ensures ShellsShed(TowerSet(nearbyTowers) + TowerSet(towers))
    {
      ghost var m0 := MotionOf();
      if kind == Aircraft {
        ok := UpdateAircraft(dt, mover, towers, aas);
        published := [];
        assert Flew(m0, MotionOf(), dt, mover);
      } else {
        published := UpdateOnPath(dt, dist);
        ok := true;
        assert Trod(m0, MotionOf(), dt, dist);
      }
    }
  }

  // ---------------------------------------------------------------------
  // Projectiles
  // ---------------------------------------------------------------------

  class Projectile {
    var x: real
    var y: real
    var targetX: real
    var targetY: real
    const speed: real
    const damage: int
    const spriteIndex: int
    const target: Enemy
    var active: bool
    var hitTarget: bool
    var showHitEffect: bool
    var hitEffectDuration: real

    function State(): Shot
      reads this`active, this`hitTarget, this`showHitEffect, this`hitEffectDuration
    {
      Shot(active, hitTarget, showHitEffect, hitEffectDuration)
    }

    ghost predicate Valid()
      reads this`active, this`hitTarget, this`showHitEffect, this`hitEffectDuration
    {
      ShotInvariant(State())
    }

    function Position(): Point
      reads this`x, this`y
    {
      Point(x, y)
    }

    /** A projectile fresh from `(startX, startY)`, aimed where its target stands, in flight. */
    predicate Launched(startX: real, startY: real, target: Enemy, speed: real, damage: int, spriteIndex: int)
      reads this, target
    {
      && Position() == Point(startX, startY) && this.target == target
      && Point(targetX, targetY) == target.Position()
      && this.speed == speed && this.damage == damage && this.spriteIndex == spriteIndex
      && State() == LAUNCHED
    }

    constructor (startX: real, startY: real, target: Enemy, speed: real, damage: int, spriteIndex: int)
      ensures Valid() && Launched(startX, startY, target, speed, damage, spriteIndex)
    {
      x, y := startX, startY;
      this.target := target;
      targetX, targetY := target.x, target.y;
      this.speed, this.damage, this.spriteIndex := speed, damage, spriteIndex;
      active, hitTarget, showHitEffect, hitEffectDuration := true, false, false, 0.0;
    }

    /** In flight toward its target: active, not yet hit, no effect showing. */
    predicate InFlight()
      reads this`active, this`hitTarget, this`showHitEffect
    {
      active && !hitTarget && !showHitEffect
    }

    /** Where it is heading this update: the target while the target lives, else the last point it saw. */
    function AimPoint(): Point
      reads this`targetX, this`targetY, target`alive, target`x, target`y
    {
      if target.alive then target.Position() else Point(targetX, targetY)
    }

    /** The aim point is within one step (`speed · dt`) or within 5 px. */
    predicate Reaches(dt: real, dist: Distance)
      reads this`x, this`y, this`targetX, this`targetY, target`alive, target`x, target`y
    {
      var aim := AimPoint();
      dist(x, y, aim.x, aim.y) <= speed * dt || dist(x, y, aim.x, aim.y) < HIT_RADIUS
    }

    /**
     * `update`: the shot state machine steps; a projectile in flight tracks a
     * living target, and either hits (jumping to the aim point and damaging
     * the target if it still lives) or moves one step toward the aim point.
     */
    method Update(dt: real, dist: Distance, mover: Mover)
      modifies this, target`currentHp, target`alive, target`isDestroying, target`destructionTime, target`hasTriggeredStrike
      ensures State() == ShotStep(old(State()), dt, old(Reaches(dt, dist)))
      ensures old(Valid()) ==> Valid()
      ensures target.Hurt(old(InFlight() && Reaches(dt, dist)), damage)
      ensures old(InFlight()) ==> Point(targetX, targetY) == old(AimPoint())
      ensures old(InFlight()) && old(Reaches(dt, dist)) ==> Position() == old(AimPoint())
      ensures old(InFlight()) && !old(Reaches(dt, dist)) ==> Position() == mover(old(Position()), old(AimPoint()), speed * dt)
      ensures !old(InFlight()) ==> Position() == old(Position()) && Point(targetX, targetY) == old(Point(targetX, targetY))
    {
      if showHitEffect {
        hitEffectDuration := hitEffectDuration - dt;
        if hitEffectDuration <= 0.0 {
          showHitEffect := false;
          active := false;
        }
        return;
      }
      if !active || hitTarget {
        return;
      }
      if target.alive {
        targetX, targetY := target.x, target.y;
      }
      var distance := dist(x, y, targetX, targetY);
      if distance <= speed * dt || distance < HIT_RADIUS {
        hitTarget := true;
        OnHit();
      } else {
        var p := mover(Point(x, y), Point(targetX, targetY), speed * dt);
        x, y := p.x, p.y;
      }
    }

    /** `onHit`: damages a living target, starts the hit effect and moves to the aim point. */
    method OnHit()
      modifies this`showHitEffect, this`hitEffectDuration, this`x, this`y
      modifies target`currentHp, target`alive, target`isDestroying, target`destructionTime, target`hasTriggeredStrike
      ensures target.Hurt(true, damage)
      ensures showHitEffect && hitEffectDuration == HIT_EFFECT_TIME
      ensures Position() == Point(targetX, targetY)
    {
      if target.alive {
        target.TakeDamage(damage);
      }
      showHitEffect := true;
      hitEffectDuration := HIT_EFFECT_TIME;
      x, y := targetX, targetY;
    }

    /** `destroy`. */
    method Destroy()
      modifies this`active
      ensures State() == Destroyed(old(State()))
    {
      active := false;
    }

    /** `getSpriteIndex`: the hit-effect sprite while the effect shows, else its own. */
    function SpriteIndex(): (r: int)
      reads this`showHitEffect
      ensures showHitEffect ==> r == HIT_EFFECT_SPRITE
      ensures !showHitEffect ==> r == spriteIndex
    {
      if showHitEffect then HIT_EFFECT_SPRITE else spriteIndex
    }
  }

  /** Where a tower aims: at a living target's position, else nowhere. */
  function Aim(t: Enemy?): (r: Option<Point>)
    reads t
    ensures r.Some? <==> t != null && t.alive
  {
    if t != null && t.alive then Some(t.Position()) else None
  }

  /** Whether a projectile stays in its tower's list: active, and for a tank turret also not yet hit. */
  predicate Keeps(p: Projectile, turret: bool)
    reads p`active, p`hitTarget
  {
    p.active && (!turret || !p.hitTarget)
  }

  /** Which of the towers `ts` a tank standing at (`x`, `y`) counts as nearby: alive and within 3 px. */
  function NearTowerFlags(ts: seq<Tower>, x: real, y: real, dist: Distance): (r: seq<bool>)
    reads ts`alive, ts`x, ts`y
    ensures |r| == |ts|
    ensures forall i :: 0 <= i < |ts| ==> r[i] == (ts[i].alive && dist(x, y, ts[i].x, ts[i].y) <= TANK_NEARBY_RANGE)
  {
    if ts == [] then []
    else
      var t := ts[|ts| - 1];
      NearTowerFlags(ts[..|ts| - 1], x, y, dist) + [t.alive && dist(x, y, t.x, t.y) <= TANK_NEARBY_RANGE]
  }

  /** Which of the AA defenses `aas` a tank standing at (`x`, `y`) counts as nearby: alive and within 3 px. */
  function NearAAFlags(aas: seq<AADefense>, x: real, y: real, dist: Distance): (r: seq<bool>)
    reads aas`alive, aas`x, aas`y
    ensures |r| == |aas|
    ensures forall i :: 0 <= i < |aas| ==> r[i] == (aas[i].alive && dist(x, y, aas[i].x, aas[i].y) <= TANK_NEARBY_RANGE)
  {
    if aas == [] then []
    else
      var a := aas[|aas| - 1];
      NearAAFlags(aas[..|aas| - 1], x, y, dist) + [a.alive && dist(x, y, a.x, a.y) <= TANK_NEARBY_RANGE]
  }

  /** The towers a tank at (`x`, `y`) counts as nearby are exactly the listed live ones within 3 px, none twice from a list without repeats. */
  lemma NearTowersMembers(ts: seq<Tower>, x: real, y: real, dist: Distance)
    ensures var r := Filter(ts, NearTowerFlags(ts, x, y, dist));
      && (forall t :: t in r <==> t in ts && t.alive && dist(x, y, t.x, t.y) <= TANK_NEARBY_RANGE)
      && (Distinct(ts) ==> Distinct(r))
  {
    var flags := NearTowerFlags(ts, x, y, dist);
    FilterMembers(ts, flags);
    forall t | t in ts && t.alive && dist(x, y, t.x, t.y) <= TANK_NEARBY_RANGE
      ensures t in Filter(ts, flags)
    {
      var j :| 0 <= j < |ts| && ts[j] == t;
      assert flags[j];
    }
  }

  /** The AA defenses a tank at (`x`, `y`) counts as nearby are exactly the listed live ones within 3 px, none twice from a list without repeats. */
  lemma NearAAMembers(aas: seq<AADefense>, x: real, y: real, dist: Distance)
    ensures var r := Filter(aas, NearAAFlags(aas, x, y, dist));
      && (forall a :: a in r <==> a in aas && a.alive && dist(x, y, a.x, a.y) <= TANK_NEARBY_RANGE)
      && (Distinct(aas) ==> Distinct(r))
  {
    var flags := NearAAFlags(aas, x, y, dist);
    FilterMembers(aas, flags);
    forall a | a in aas && a.alive && dist(x, y, a.x, a.y) <= TANK_NEARBY_RANGE
      ensures a in Filter(aas, flags)
    {
      var j :| 0 <= j < |aas| && aas[j] == a;
      assert flags[j];
    }
  }

  /** The entries of `s` whose flag is set, in order. */
  function Filter<T>(s: seq<T>, keep: seq<bool>): (r: seq<T>)
    requires |keep| == |s|
    ensures |r| <= |s|
  {
    if s == [] then [] else (if keep[0] then [s[0]] else []) + Filter(s[1..], keep[1..])
  }

  /**
   * Filter keeps exactly the flagged entries, and a list without repeats
   * stays without repeats.
   */
  lemma {:induction false} FilterMembers<T>(s: seq<T>, keep: seq<bool>)
    requires |keep| == |s|
    ensures var r := Filter(s, keep);
      && (forall j :: 0 <= j < |s| && keep[j] ==> s[j] in r)
      && (forall x | x in r :: exists j :: 0 <= j < |s| && keep[j] && s[j] == x)
      && (Distinct(s) ==> Distinct(r))
  {
    if s != [] {
      var rest := Filter(s[1..], keep[1..]);
      FilterMembers(s[1..], keep[1..]);
      assert forall j :: 1 <= j < |s| ==> s[j] == s[1..][j - 1] && keep[j] == keep[1..][j - 1];
      if Distinct(s) {
        assert Distinct(s[1..]);
        assert forall j :: 0 <= j < |s| - 1 ==> s[1..][j] != s[0];
        assert s[0] !in rest;
      }
    }
  }

  /** The pieces of `a + b` around the last entry of `a`. */
  lemma SpliceLast<T>(a: seq<T>, b: seq<T>)
    requires |a| > 0
    ensures var k, n := a + b, |a| - 1;
      && k[..n] == a[..n] && k[n] == a[n] && k[n + 1..] == b
      && k[..n] + k[n + 1..] == a[..n] + b
      && k == a[..n] + ([a[n]] + b)
  {
    var k, n := a + b, |a| - 1;
    assert a == a[..n] + [a[n]];
  }

  /** Filtering a list with one more entry filters the rest and then that entry. */
  lemma {:induction false} FilterSnoc<T>(s: seq<T>, keep: seq<bool>, x: T, k: bool)
    requires |keep| == |s|
    ensures Filter(s + [x], keep + [k]) == Filter(s, keep) + (if k then [x] else [])
  {
    if s != [] {
      assert (s + [x])[1..] == s[1..] + [x];
      assert (keep + [k])[1..] == keep[1..] + [k];
      FilterSnoc(s[1..], keep[1..], x, k);
    }
  }

  /** Filtering the first `i + 1` entries with one more flag: the first `i`, then entry `i`. */
  lemma FilterNext<T>(s: seq<T>, i: nat, keep: seq<bool>, k: bool)
    requires i < |s| && |keep| == i
    ensures Filter(s[..i + 1], keep + [k]) == Filter(s[..i], keep) + (if k then [s[i]] else [])
  {
    assert s[..i + 1] == s[..i] + [s[i]];
    FilterSnoc(s[..i], keep, s[i], k);
  }

  /** Filtering from index `i` with one more flag in front: that entry, then the rest. */
  lemma FilterFront<T>(s: seq<T>, i: nat, keep: seq<bool>, k: bool)
    requires i < |s| && |keep| == |s| - i - 1
    ensures Filter(s[i..], [k] + keep) == (if k then [s[i]] else []) + Filter(s[i + 1..], keep)
  {
    assert s[i..][0] == s[i] && s[i..][1..] == s[i + 1..];
    assert ([k] + keep)[1..] == keep;
  }

  /** Whether each projectile stays in its tower's list. */
  function KeepFlags(ps: seq<Projectile>, turret: bool): (r: seq<bool>)
    reads ProjectileSet(ps)
    ensures |r| == |ps|
  {
    if ps == [] then [] else [Keeps(ps[0], turret)] + KeepFlags(ps[1..], turret)
  }

  /** Each flag says whether its projectile stays. */
  lemma {:induction false} KeepFlagsAt(ps: seq<Projectile>, turret: bool)
    ensures forall j :: 0 <= j < |ps| ==> KeepFlags(ps, turret)[j] == Keeps(ps[j], turret)
  {
    if ps != [] {
      KeepFlagsAt(ps[1..], turret);
    }
  }

  /** The projectiles a tower keeps after updating them, in order. */
  function Survivors(ps: seq<Projectile>, turret: bool): (r: seq<Projectile>)
    reads ProjectileSet(ps)
    ensures |r| <= |ps|
  {
    Filter(ps, KeepFlags(ps, turret))
  }

  /**
   * The survivors are exactly the projectiles that stay, and a list without
   * repeats keeps none twice.
   */
  lemma SurvivorsAreKept(ps: seq<Projectile>, turret: bool)
    ensures var r := Survivors(ps, turret);
      && (forall p | p in r :: p in ps && Keeps(p, turret))
      && (forall p | p in ps && Keeps(p, turret) :: p in r)
      && (Distinct(ps) ==> Distinct(r))
  {
    var flags := KeepFlags(ps, turret);
    KeepFlagsAt(ps, turret);
    FilterMembers(ps, flags);
    assert forall p | p in ps && Keeps(p, turret) :: exists j :: 0 <= j < |ps| && ps[j] == p && flags[j];
  }

  /** `p` took one step of `dt` seconds, keeping its invariant. */
  twostate predicate ShotUpdated(p: Projectile, dt: real)
    reads p`active, p`hitTarget, p`showHitEffect, p`hitEffectDuration
  {
    Stepped(old(p.State()), p.State(), dt) && (old(p.Valid()) ==> p.Valid())
  }

  // ---------------------------------------------------------------------
  // Towers
  // ---------------------------------------------------------------------

  class Tower {
    const kind: TowerKind
    var x: real
    var y: real
    const range: real
    var hp: int
    const maxHp: int
    /** Shots per second, `rpm / 60`. */
    const fireRate: real
    const damage: int
    const spriteIndex: int
    const projectileSpeed: real
    var fireCooldown: real
    var currentTarget: Enemy?
    var alive: bool
    var projectiles: seq<Projectile>
    var fireFlashDuration: real
    /** The fast tower's rotation, or the tank turret's (its body never turns). */
    var rotation: real
    var targetRotation: real

    ghost predicate Valid()
      reads this`projectiles
    {
      fireRate != 0.0 && Distinct(projectiles)
    }

    function HealthOf(): Health
      reads this`hp, this`alive
    {
      Health(hp, alive)
    }

    /** What a hit can change on the tower. */
    function Mark(): TowerMark
      reads this`hp, this`alive, this`projectiles
    {
      TowerMark(HealthOf(), projectiles)
    }

    function Position(): Point
      reads this`x, this`y
    {
      Point(x, y)
    }

    /** The tower as configured: full health, no target, no shots, cooled down, wherever it stands. */
    predicate Configured(kind: TowerKind, stats: TowerStats, spriteIndex: int, projectileSpeed: real)
      reads this`hp, this`alive, this`fireCooldown, this`currentTarget, this`projectiles
      reads this`fireFlashDuration, this`rotation, this`targetRotation
    {
      && this.kind == kind && range == stats.range && HealthOf() == Health(stats.hp, true) && maxHp == stats.hp
      && fireRate == stats.rpm as real / 60.0 && damage == stats.damage
      && this.spriteIndex == spriteIndex && this.projectileSpeed == projectileSpeed
      && fireCooldown == 0.0 && currentTarget == null && projectiles == []
      && fireFlashDuration == 0.0 && rotation == 0.0 && targetRotation == 0.0
    }

    /** The tower as built: configured and at the origin. */
    predicate Built(kind: TowerKind, stats: TowerStats, spriteIndex: int, projectileSpeed: real)
      reads this
    {
      Configured(kind, stats, spriteIndex, projectileSpeed) && Position() == Point(0.0, 0.0)
    }

    /** `new FastTower(stats, spriteIndex, projectileSpeed)`. */
    constructor Fast(stats: TowerStats, spriteIndex: int, projectileSpeed: real)
      requires stats.rpm != 0
      ensures Valid() && Built(FastTower, stats, spriteIndex, projectileSpeed)
    {
      kind := FastTower;
      x, y, range := 0.0, 0.0, stats.range;
      hp, maxHp := stats.hp, stats.hp;
      fireRate, damage := stats.rpm as real / 60.0, stats.damage;
      this.spriteIndex, this.projectileSpeed := spriteIndex, projectileSpeed;
      fireCooldown, currentTarget, alive, projectiles := 0.0, null, true, [];
      fireFlashDuration, rotation, targetRotation := 0.0, 0.0, 0.0;
    }

    /** `new PowerTower(stats, spriteIndex, projectileSpeed)`. */
    constructor Power(stats: TowerStats, spriteIndex: int, projectileSpeed: real)
      requires stats.rpm != 0
      ensures Valid() && Built(PowerTower, stats, spriteIndex, projectileSpeed)
    {
      kind := PowerTower;
      x, y, range := 0.0, 0.0, stats.range;
      hp, maxHp := stats.hp, stats.hp;
      fireRate, damage := stats.rpm as real / 60.0, stats.damage;
      this.spriteIndex, this.projectileSpeed := spriteIndex, projectileSpeed;
      fireCooldown, currentTarget, alive, projectiles := 0.0, null, true, [];
      fireFlashDuration, rotation, targetRotation := 0.0, 0.0, 0.0;
    }

    /** `new TankTower(stats)`: the sprite comes from the stats and its shells fly at 300 px/s. */
    constructor Turret(stats: TowerStats)
      requires stats.rpm != 0
      ensures Valid() && Built(TankTower, stats, stats.spriteIndex, SHELL_SPEED)
    {
      kind := TankTower;
      x, y, range := 0.0, 0.0, stats.range;
      hp, maxHp := stats.hp, stats.hp;
      fireRate, damage := stats.rpm as real / 60.0, stats.damage;
      spriteIndex, projectileSpeed := stats.spriteIndex, SHELL_SPEED;
      fireCooldown, currentTarget, alive, projectiles := 0.0, null, true, [];
      fireFlashDuration, rotation, targetRotation := 0.0, 0.0, 0.0;
    }

    /** `isValidTarget`: alive, not at the castle, and targetable by towers. */
    predicate IsValidTarget(e: Enemy)
      reads e
      ensures IsValidTarget(e) <==> TowerCanTarget(e.View())
    {
      e.alive && !e.reachedEnd && e.CanBeTargetedByTowers()
    }

    /** `isFireFlashing`. */
    predicate IsFireFlashing()
      reads this`fireFlashDuration
    {
      fireFlashDuration > 0.0
    }

    /**
     * `takeDamage`: ignored once destroyed; hp drops and the tower is
     * destroyed at 0 or below, with hp held at 0.  A tank turret's
     * `onDestroyed` clears its shells.
     */
    method TakeDamage(damage: int)
      modifies this`hp, this`alive, this`projectiles
      ensures HealthOf() == Damaged(old(HealthOf()), damage)
      ensures projectiles == AfterLoss(kind, old(projectiles), old(alive), alive)
    {
      if !alive {
        return;
      }
      hp := hp - damage;
      if hp <= 0 {
        hp := 0;
        alive := false;
        if kind == TankTower {
          projectiles := [];
        }
      }
    }

    /** `setPosition`. */
    method SetPosition(px: real, py: real)
      modifies this`x, this`y
      ensures Position() == Point(px, py)
    {
      x, y := px, py;
    }

    /**
     * `acquireTarget`: the scan over all enemies keeps the first valid enemy
     * in range whose priority is strictly highest and above -1.
     */
    method AcquireTarget(enemies: seq<Enemy>, dist: Distance)
      modifies this`currentTarget
      ensures currentTarget == Chosen(enemies, TowerChoice(kind, range, Position(), dist, Views(enemies)))
    {
      currentTarget := null;
      var bestPriority := -1.0;
      var pixelRange := range * PIXELS_PER_TILE;
      ghost var vs := Views(enemies);
      var i := 0;
      while i < |enemies|
        invariant 0 <= i <= |enemies|
        invariant var p := TowerScan(kind, range, Position(), dist, vs, i);
          p.best == bestPriority && currentTarget == Chosen(enemies, p.index)
      {
        var e := enemies[i];
        TowerScanStep(kind, range, Position(), dist, vs, i);
        if IsValidTarget(e) {
          var distance := dist(x, y, e.x, e.y);
          // A priority that is not a number (0/0) never beats the running best.
          if distance <= pixelRange && Admissible(kind, range, e.View()) {
            var priority := TowerPriority(kind, range, e.View(), distance);
            if priority > bestPriority {
              bestPriority := priority;
              currentTarget := e;
            }
          }
        }
        i := i + 1;
      }
      assert vs == Views(enemies);
    }

    /** How long the muzzle flash of a shot lasts: none for the power tower. */
    function FlashTime(): real
    {
      match kind
      case FastTower => FAST_FLASH_TIME
      case PowerTower => 0.0
      case TankTower => SHELL_FLASH_TIME
    }

    function ShotSprite(): int
    {
      match kind
      case FastTower => FAST_SHOT_SPRITE
      case PowerTower => POWER_SHOT_SPRITE
      case TankTower => SHELL_SPRITE
    }

    /** The fast tower and the tank turret turn toward their target; the power tower does not. */
    function RotationSpeed(): real
    {
      if kind == FastTower then FAST_ROTATION_SPEED else TURRET_ROTATION_SPEED
    }

    /**
     * `fire`: a shot from the tower's position at `target`, added to its
     * list; no shot at null, nor (for the tank turret) at a dead target.  The
     * fast tower and the turret start their muzzle flash.
     */
    method Fire(target: Enemy?)
      requires Valid()
      modifies this`projectiles, this`fireFlashDuration
      ensures Valid()
      ensures var fires := target != null && (kind != TankTower || target.alive);
        && (fires ==>
              && |projectiles| == |old(projectiles)| + 1 && projectiles[..|old(projectiles)|] == old(projectiles)
              && fresh(projectiles[|old(projectiles)|])
              && projectiles[|old(projectiles)|].Launched(x, y, target, projectileSpeed, damage, ShotSprite())
              && projectiles[|old(projectiles)|].Valid()
              && fireFlashDuration == (if kind == PowerTower then old(fireFlashDuration) else FlashTime()))
        && (!fires ==> projectiles == old(projectiles) && fireFlashDuration == old(fireFlashDuration))
    {
      if target == null || (kind == TankTower && !target.alive) {
        return;
      }
      if kind != PowerTower {
        fireFlashDuration := FlashTime();
      }
      var p := new Projectile(x, y, target, projectileSpeed, damage, ShotSprite());
      projectiles := projectiles + [p];
    }

    /**
     * One frame's turn from `rotation0` given where a living target stood:
     * toward it, by at most one step of the rotation speed through the
     * shorter way round; with no living target, or on the power tower, no turn.
     */
    predicate Turned(dt: real, bearing: Bearing, rotation0: real, targetRotation0: real, aim: Option<Point>)
      reads this`rotation, this`targetRotation, this`x, this`y
    {
      if kind != PowerTower && aim.Some? then
        && targetRotation == bearing(x, y, aim.value.x, aim.value.y)
        && rotation == TurnStep(rotation0, targetRotation, Wrapped(targetRotation - rotation0), RotationSpeed() * dt)
      else
        rotation == rotation0 && targetRotation == targetRotation0
    }

    /**
     * `updateRotation` (fast tower) and `updateTurretRotation` (tank turret):
     * toward a living target, turn by at most one step of the rotation speed
     * through the shorter way round.
     */
    method UpdateRotation(dt: real, bearing: Bearing)
      modifies this`rotation, this`targetRotation
      ensures Turned(dt, bearing, old(rotation), old(targetRotation), Aim(currentTarget))
    {
      if kind != PowerTower && currentTarget != null && currentTarget.alive {
        targetRotation := bearing(x, y, currentTarget.x, currentTarget.y);
        var diff := WrapDifference(targetRotation - rotation);
        ghost var turn := TurnStep(rotation, targetRotation, diff, RotationSpeed() * dt);
        if Abs(diff) > 0.05 {
          var step := RotationSpeed() * dt;
          if Abs(diff) < step {
            rotation := targetRotation;
          } else {
            rotation := rotation + Sign(diff) * step;
          }
        }
        assert rotation == turn;
      }
    }

    /**
     * `updateProjectiles`: every shot is updated once and the list keeps, in
     * order, those still active (for the tank turret: also not yet hit).  The
     * fast and power towers update front to back, the turret back to front.
     */
    method UpdateProjectiles(dt: real, dist: Distance, mover: Mover)
      requires Valid()
      modifies this`projectiles, ProjectileSet(projectiles)
      modifies Targets(projectiles)`currentHp, Targets(projectiles)`alive, Targets(projectiles)`isDestroying
      modifies Targets(projectiles)`destructionTime, Targets(projectiles)`hasTriggeredStrike
      ensures Valid()
      ensures projectiles == Survivors(old(projectiles), kind == TankTower)
      ensures forall p | p in old(projectiles) :: ShotUpdated(p, dt)
    {
      ghost var before := projectiles;
      if kind != TankTower {
        projectiles := KeepForward(projectiles, dt, dist, mover);
      } else {
        projectiles := KeepBackward(projectiles, dt, dist, mover);
      }
      SurvivorsAreKept(before, kind == TankTower);
    }

    /** Updates the `i`th shot of a list of distinct shots and no other. */
    static method StepAt(ps: seq<Projectile>, i: nat, dt: real, dist: Distance, mover: Mover)
      requires Distinct(ps) && i < |ps|
      modifies ps[i]
      modifies Targets(ps)`currentHp, Targets(ps)`alive, Targets(ps)`isDestroying
      modifies Targets(ps)`destructionTime, Targets(ps)`hasTriggeredStrike
      ensures ShotUpdated(ps[i], dt)
      ensures forall j | 0 <= j < |ps| && j != i :: unchanged(ps[j])
    {
      DistinctAt(ps, i);
      ps[i].Update(dt, dist, mover);
    }

    /**
     * One pass of the turret's reverse loop at index `i`: the shot there is
     * updated, and removed from `kept` when inactive or when it has hit.
     */
    static method BackStep(ps: seq<Projectile>, i: nat, kept: seq<Projectile>, ghost rest: seq<Projectile>,
                           dt: real, dist: Distance, mover: Mover) returns (after: seq<Projectile>, keep: bool)
      requires Distinct(ps) && i < |ps| && kept == ps[..i + 1] + rest
      modifies ps[i]
      modifies Targets(ps)`currentHp, Targets(ps)`alive, Targets(ps)`isDestroying
      modifies Targets(ps)`destructionTime, Targets(ps)`hasTriggeredStrike
      ensures ShotUpdated(ps[i], dt) && keep == Keeps(ps[i], true)
      ensures forall j | 0 <= j < |ps| && j != i :: unchanged(ps[j])
      ensures after == ps[..i] + ((if keep then [ps[i]] else []) + rest)
    {
      SpliceLast(ps[..i + 1], rest);
      assert ps[..i + 1][..i] == ps[..i];
      var p := kept[i];
      StepAt(ps, i, dt, dist, mover);
      keep := p.active && !p.hitTarget;
      after := kept;
      if !p.active || p.hitTarget {
        after := kept[..i] + kept[i + 1..];
      }
    }

    /** The fast and power towers' `removeIf`: each shot is updated in order and kept while active. */
    static method KeepForward(ps: seq<Projectile>, dt: real, dist: Distance, mover: Mover) returns (kept: seq<Projectile>)
      requires Distinct(ps)
      modifies ProjectileSet(ps)
      modifies Targets(ps)`currentHp, Targets(ps)`alive, Targets(ps)`isDestroying
      modifies Targets(ps)`destructionTime, Targets(ps)`hasTriggeredStrike
      ensures kept == Survivors(ps, false)
      ensures forall p | p in ps :: ShotUpdated(p, dt)
    {
      kept := [];
      ghost var flags: seq<bool> := [];
      var i := 0;
      while i < |ps|
        invariant 0 <= i <= |ps| && |flags| == i
        invariant kept == Filter(ps[..i], flags)
        invariant forall j :: 0 <= j < i ==> ShotUpdated(ps[j], dt) && flags[j] == Keeps(ps[j], false)
        invariant forall j :: i <= j < |ps| ==> unchanged(ps[j])
      {
        var p := ps[i];
        label pre:
        StepAt(ps, i, dt, dist, mover);
        FilterNext(ps, i, flags, p.active);
        ghost var earlier := flags;
        flags := flags + [p.active];
        forall j | 0 <= j < i
          ensures ShotUpdated(ps[j], dt) && flags[j] == Keeps(ps[j], false)
        {
          assert flags[j] == earlier[j];
          assert unchanged@pre(ps[j]);
        }
        if p.active {
          kept := kept + [p];
        }
        i := i + 1;
      }
      assert ps[..i] == ps;
      KeepFlagsAt(ps, false);
      assert flags == KeepFlags(ps, false);
    }

    /**
     * The tank turret's reverse index loop: each shot is updated from the
     * back, and removed in place when inactive or when it has hit.
     */
    static method KeepBackward(ps: seq<Projectile>, dt: real, dist: Distance, mover: Mover) returns (kept: seq<Projectile>)
      requires Distinct(ps)
      modifies ProjectileSet(ps)
      modifies Targets(ps)`currentHp, Targets(ps)`alive, Targets(ps)`isDestroying
      modifies Targets(ps)`destructionTime, Targets(ps)`hasTriggeredStrike
      ensures kept == Survivors(ps, true)
      ensures forall p | p in ps :: ShotUpdated(p, dt)
    {
      kept := ps;
      ghost var flags: seq<bool> := [];
      var i := |ps|;
      assert ps[i..] == [];
      while i > 0
        invariant 0 <= i <= |ps| && |flags| == |ps| - i
        invariant kept == ps[..i] + Filter(ps[i..], flags)
        invariant forall j :: i <= j < |ps| ==> ShotUpdated(ps[j], dt) && flags[j - i] == Keeps(ps[j], true)
        invariant forall j :: 0 <= j < i ==> unchanged(ps[j])
      {
        i := i - 1;
        label pre:
        var keep;
        kept, keep := BackStep(ps, i, kept, Filter(ps[i + 1..], flags), dt, dist, mover);
        FilterFront(ps, i, flags, keep);
        ghost var later := flags;
        flags := [keep] + flags;
        forall j | i < j < |ps|
          ensures ShotUpdated(ps[j], dt) && flags[j - i] == Keeps(ps[j], true)
        {
          assert flags[j - i] == later[j - (i + 1)];
          assert unchanged@pre(ps[j]);
        }
      }
      assert ps[..0] == [] && ps[0..] == ps;
      KeepFlagsAt(ps, true);
      assert flags == KeepFlags(ps, true);
    }

    /**
     * `update` of each tower kind: nothing when destroyed.  Otherwise the fast
     * tower and turret turn toward their target and their flash fades, the
     * turret updates its shells, the cooldown runs down, a missing or invalid
     * target is replaced by the scan's choice, and with a target and the
     * cooldown spent the tower fires and the cooldown restarts at
     * `1 / fireRate`.
     */
    method Update(dt: real, enemies: seq<Enemy>, dist: Distance, bearing: Bearing, mover: Mover)
      requires Valid()
      modifies this, ProjectileSet(projectiles)
      modifies Targets(projectiles)`currentHp, Targets(projectiles)`alive, Targets(projectiles)`isDestroying
      modifies Targets(projectiles)`destructionTime, Targets(projectiles)`hasTriggeredStrike
      ensures Valid()
      ensures !old(alive) ==> unchanged(this) && unchanged(ProjectileSet(old(projectiles))) && unchanged(Targets(old(projectiles)))
      ensures old(alive) ==> alive && HealthOf() == old(HealthOf()) && Position() == old(Position())
      ensures old(alive) ==> Turned(dt, bearing, old(rotation), old(targetRotation), old(Aim(currentTarget)))
      ensures old(alive) && kind != TankTower ==>
        unchanged(ProjectileSet(old(projectiles))) && unchanged(Targets(old(projectiles)))
      ensures old(alive) && kind == TankTower ==>
        forall p | p in old(projectiles) :: Stepped(old(p.State()), p.State(), dt)
      ensures old(alive) ==>
        && currentTarget == NextTarget(old(currentTarget), enemies, dist)
        && (currentTarget != null ==> currentTarget.alive)
      ensures old(alive) ==>
        var base := if kind == TankTower then Survivors(old(projectiles), true) else old(projectiles);
        var fires := currentTarget != null && old(fireCooldown) - dt <= 0.0;
        && fireCooldown == (if fires then 1.0 / fireRate else old(fireCooldown) - dt)
        && (fires ==> Fired(base, Faded(old(fireFlashDuration), dt), currentTarget) && fresh(projectiles[|base|]))
        && (!fires ==> projectiles == base && fireFlashDuration == Faded(old(fireFlashDuration), dt))
      ensures old(alive) ==> Reloaded(old(fireCooldown), old(fireFlashDuration), dt)
    {
      if alive {
        UpdateLive(dt, enemies, dist, bearing, mover);
      }
    }

    /** `update` of a living tower. */
    method UpdateLive(dt: real, enemies: seq<Enemy>, dist: Distance, bearing: Bearing, mover: Mover)
      requires Valid()
      modifies this`rotation, this`targetRotation
      modifies this`projectiles, this`fireFlashDuration, this`fireCooldown, this`currentTarget, ProjectileSet(projectiles)
      modifies Targets(projectiles)`currentHp, Targets(projectiles)`alive, Targets(projectiles)`isDestroying
      modifies Targets(projectiles)`destructionTime, Targets(projectiles)`hasTriggeredStrike
      ensures Valid()
      ensures Turned(dt, bearing, old(rotation), old(targetRotation), old(Aim(currentTarget)))
      ensures kind != TankTower ==> unchanged(ProjectileSet(old(projectiles))) && unchanged(Targets(old(projectiles)))
      ensures kind == TankTower ==> forall p | p in old(projectiles) :: Stepped(old(p.State()), p.State(), dt)
      ensures currentTarget == NextTarget(old(currentTarget), enemies, dist)
      ensures currentTarget != null ==> currentTarget.alive
      ensures var base := if kind == TankTower then Survivors(old(projectiles), true) else old(projectiles);
        var fires := currentTarget != null && old(fireCooldown) - dt <= 0.0;
        && fireCooldown == (if fires then 1.0 / fireRate else old(fireCooldown) - dt)
        && (fires ==> Fired(base, Faded(old(fireFlashDuration), dt), currentTarget) && fresh(projectiles[|base|]))
        && (!fires ==> projectiles == base && fireFlashDuration == Faded(old(fireFlashDuration), dt))
    {
      ghost var cooldown, flash, target, shells := fireCooldown, fireFlashDuration, currentTarget, projectiles;
      UpdateRotation(dt, bearing);
      assert unchanged(ProjectileSet(projectiles));
      assert fireCooldown == cooldown && fireFlashDuration == flash && currentTarget == target && projectiles == shells;
      Act(dt, enemies, dist, mover);
    }

    /** `update` after the turn: the turret's shells, then targeting and firing. */
    method Act(dt: real, enemies: seq<Enemy>, dist: Distance, mover: Mover)
      requires Valid()
      modifies this`projectiles, this`fireFlashDuration, this`fireCooldown, this`currentTarget, ProjectileSet(projectiles)
      modifies Targets(projectiles)`currentHp, Targets(projectiles)`alive, Targets(projectiles)`isDestroying
      modifies Targets(projectiles)`destructionTime, Targets(projectiles)`hasTriggeredStrike
      ensures Valid()
      ensures kind != TankTower ==> unchanged(ProjectileSet(old(projectiles))) && unchanged(Targets(old(projectiles)))
      ensures kind == TankTower ==> forall p | p in old(projectiles) :: Stepped(old(p.State()), p.State(), dt)
      ensures currentTarget == NextTarget(old(currentTarget), enemies, dist)
      ensures currentTarget != null ==> currentTarget.alive
      ensures var base := if kind == TankTower then Survivors(old(projectiles), true) else old(projectiles);
        var fires := currentTarget != null && old(fireCooldown) - dt <= 0.0;
        && fireCooldown == (if fires then 1.0 / fireRate else old(fireCooldown) - dt)
        && (fires ==> Fired(base, Faded(old(fireFlashDuration), dt), currentTarget) && fresh(projectiles[|base|]))
        && (!fires ==> projectiles == base && fireFlashDuration == Faded(old(fireFlashDuration), dt))
    {
      if kind == TankTower {
        ServeTurret(dt, enemies, dist, mover);
      } else {
        Engage(dt, enemies, dist);
      }
    }

    /** The turret's `update` after the turn: its shells are updated before it targets and fires. */
    method ServeTurret(dt: real, enemies: seq<Enemy>, dist: Distance, mover: Mover)
      requires Valid() && kind == TankTower
      modifies this`projectiles, this`fireFlashDuration, this`fireCooldown, this`currentTarget, ProjectileSet(projectiles)
      modifies Targets(projectiles)`currentHp, Targets(projectiles)`alive, Targets(projectiles)`isDestroying
      modifies Targets(projectiles)`destructionTime, Targets(projectiles)`hasTriggeredStrike
      ensures Valid()
      ensures forall p | p in old(projectiles) :: Stepped(old(p.State()), p.State(), dt)
      ensures currentTarget == NextTarget(old(currentTarget), enemies, dist)
      ensures currentTarget != null ==> currentTarget.alive
      ensures var base := Survivors(old(projectiles), true);
        var fires := currentTarget != null && old(fireCooldown) - dt <= 0.0;
        && fireCooldown == (if fires then 1.0 / fireRate else old(fireCooldown) - dt)
        && (fires ==> Fired(base, Faded(old(fireFlashDuration), dt), currentTarget) && fresh(projectiles[|base|]))
        && (!fires ==> projectiles == base && fireFlashDuration == Faded(old(fireFlashDuration), dt))
    {
      UpdateProjectiles(dt, dist, mover);
      ghost var base := projectiles;
      Engage(dt, enemies, dist);
      assert base == Survivors(old(projectiles), true);
    }

    /** One shot at `target` was appended to `base`, with the flash it lights. */
    predicate Fired(base: seq<Projectile>, flash: real, target: Enemy)
      reads this`projectiles, this`fireFlashDuration, this`x, this`y, target
      reads if |projectiles| == |base| + 1 then {projectiles[|base|]} else {}
    {
      && |projectiles| == |base| + 1 && projectiles[..|base|] == base
      && projectiles[|base|].Launched(x, y, target, projectileSpeed, damage, ShotSprite())
      && fireFlashDuration == (if kind == PowerTower then flash else FlashTime())
    }

    /** The target after `update`'s check: `t` while valid, else the scan's choice. */
    function NextTarget(t: Enemy?, enemies: seq<Enemy>, dist: Distance): (r: Enemy?)
      reads this`x, this`y, t, EnemySet(enemies)
      ensures r == null || r == t || r in EnemySet(enemies)
    {
      if t != null && IsValidTarget(t) then t
      else Chosen(enemies, TowerChoice(kind, range, Position(), dist, Views(enemies)))
    }

    /** Keeps a valid target, or else takes the scan's choice, which is always valid. */
    method Retarget(enemies: seq<Enemy>, dist: Distance)
      modifies this`currentTarget
      ensures currentTarget == NextTarget(old(currentTarget), enemies, dist)
      ensures currentTarget != null ==> IsValidTarget(currentTarget)
    {
      if currentTarget == null || !IsValidTarget(currentTarget) {
        AcquireTarget(enemies, dist);
        ghost var vs := Views(enemies);
        TowerChoiceIsBest(kind, range, Position(), dist, vs);
        ghost var k := TowerChoice(kind, range, Position(), dist, vs);
        if k.Some? {
          assert vs[k.value] == enemies[k.value].View();
        }
      }
    }

    /** The muzzle flash after one frame: it fades by `dt` while lit, and the power tower has none. */
    function Faded(flash: real, dt: real): real
    {
      if kind != PowerTower && flash > 0.0 then flash - dt else flash
    }

    /**
     * The cooldown and flash one `update` of a living tower leaves from
     * `c0` and `flash`: holding a target with the cooldown spent, it fired,
     * its last shot aims at that target, the cooldown restarts at one over
     * the fire rate and the flash lights (the power tower's stays as it
     * was); otherwise the cooldown runs down by `dt` and the flash fades.
     */
    predicate Reloaded(c0: real, flash: real, dt: real)
      requires fireRate != 0.0
      reads this`fireCooldown, this`fireFlashDuration, this`currentTarget, this`projectiles
    {
      var fires := currentTarget != null && c0 - dt <= 0.0;
      && fireCooldown == (if fires then 1.0 / fireRate else c0 - dt)
      && fireFlashDuration == (if fires && kind != PowerTower then FlashTime() else Faded(flash, dt))
      && (fires ==> |projectiles| > 0 && projectiles[|projectiles| - 1].target == currentTarget)
    }

    /**
     * The rest of `update` for a living tower: the flash fades (except on the
     * power tower), the cooldown runs down, a missing or invalid target is
     * replaced by the scan's choice, and with a target and the cooldown spent
     * the tower fires and the cooldown restarts at `1 / fireRate`.
     */
    method Engage(dt: real, enemies: seq<Enemy>, dist: Distance)
      requires Valid()
      modifies this`fireFlashDuration, this`fireCooldown, this`currentTarget, this`projectiles
      ensures Valid()
      ensures currentTarget == NextTarget(old(currentTarget), enemies, dist)
      ensures currentTarget != null ==> currentTarget.alive
      ensures var fires := currentTarget != null && old(fireCooldown) - dt <= 0.0;
        && fireCooldown == (if fires then 1.0 / fireRate else old(fireCooldown) - dt)
        && (fires ==> Fired(old(projectiles), Faded(old(fireFlashDuration), dt), currentTarget))
        && (fires ==> fresh(projectiles[|old(projectiles)|]))
        && (!fires ==> projectiles == old(projectiles) && fireFlashDuration == Faded(old(fireFlashDuration), dt))
    {
      if kind != PowerTower && fireFlashDuration > 0.0 {
        fireFlashDuration := fireFlashDuration - dt;
      }
      fireCooldown := fireCooldown - dt;
      ghost var t := currentTarget;
      assert t == old(currentTarget);
      Retarget(enemies, dist);
      label chosen:
      assert currentTarget == NextTarget(t, enemies, dist);
      Shoot();
      assert unchanged@chosen(this`x, this`y, EnemySet(enemies));
      assert t != null ==> unchanged@chosen(t);
    }

    /** The end of `update`: with a target and the cooldown spent, the tower fires and the cooldown restarts. */
    method Shoot()
      requires Valid() && (currentTarget != null ==> currentTarget.alive)
      modifies this`fireFlashDuration, this`fireCooldown, this`projectiles
      ensures Valid()
      ensures var fires := currentTarget != null && old(fireCooldown) <= 0.0;
        && fireCooldown == (if fires then 1.0 / fireRate else old(fireCooldown))
        && (fires ==> Fired(old(projectiles), old(fireFlashDuration), currentTarget))
        && (fires ==> fresh(projectiles[|old(projectiles)|]))
        && (!fires ==> projectiles == old(projectiles) && fireFlashDuration == old(fireFlashDuration))
    {
      if currentTarget != null && fireCooldown <= 0.0 {
        Fire(currentTarget);
        fireCooldown := 1.0 / fireRate;
      }
    }
  }

  // ---------------------------------------------------------------------
  // AA defenses
  // ---------------------------------------------------------------------

  class AADefense {
    var x: real
    var y: real
    const hitChance: real
    const range: real
    var hp: int
    const maxHp: int
    const spriteIndex: int
    var fireCooldown: real
    var currentTarget: Enemy?
    var alive: bool

    /** The target is always an aircraft. */
    ghost predicate Valid()
      reads this`currentTarget
    {
      currentTarget != null ==> currentTarget.kind == Aircraft
    }

    function HealthOf(): Health
      reads this`hp, this`alive
    {
      Health(hp, alive)
    }

    function Position(): Point
      reads this`x, this`y
    {
      Point(x, y)
    }

    /** The defence as configured: full health, no target, cooled down, wherever it stands. */
    predicate Configured(hitChance: real, range: real, hp: int, spriteIndex: int)
      reads this`hp, this`alive, this`fireCooldown, this`currentTarget
    {
      && this.hitChance == hitChance && this.range == range && this.spriteIndex == spriteIndex
      && HealthOf() == Health(hp, true) && maxHp == hp
      && fireCooldown == 0.0 && currentTarget == null
    }

    /** `new AADefense(hitChance, range, hp, spriteIndex)`: configured and at the origin. */
    constructor (hitChance: real, range: real, hp: int, spriteIndex: int)
      ensures Valid()
      ensures Configured(hitChance, range, hp, spriteIndex) && Position() == Point(0.0, 0.0)
    {
      x, y := 0.0, 0.0;
      this.hitChance, this.range := hitChance, range;
      this.hp, maxHp, this.spriteIndex := hp, hp, spriteIndex;
      fireCooldown, currentTarget, alive := 0.0, null, true;
    }

    /** `isValidTarget`: alive and not at the end. */
    predicate IsValidTarget(a: Enemy)
      reads a`alive, a`reachedEnd
    {
      a.alive && !a.reachedEnd
    }

    /**
     * `acquireTarget`: among the aircraft that are valid and within
     * range·64 px, the first of strictly highest progress above -1.
     */
    method AcquireTarget(enemies: seq<Enemy>, dist: Distance)
      modifies this`currentTarget
      ensures Valid()
      ensures currentTarget == Chosen(enemies, AAChoice(range, Position(), dist, Views(enemies)))
    {
      currentTarget := null;
      var bestPriority := -1.0;
      ghost var vs := Views(enemies);
      var i := 0;
      while i < |enemies|
        invariant 0 <= i <= |enemies|
        invariant var p := AAScan(range, Position(), dist, vs, i);
          p.best == bestPriority && currentTarget == Chosen(enemies, p.index)
        invariant Valid()
      {
        var e := enemies[i];
        AAScanStep(range, Position(), dist, vs, i);
        if e.kind == Aircraft && IsValidTarget(e) {
          var distance := dist(x, y, e.x, e.y);
          var pixelRange := range * PIXELS_PER_TILE;
          if distance <= pixelRange {
            var priority := e.pathProgress;
            if priority > bestPriority {
              bestPriority := priority;
              currentTarget := e;
            }
          }
        }
        i := i + 1;
      }
      assert vs == Views(enemies);
    }

    /** The target after `update`'s check: `t` while valid, else the scan's choice. */
    function NextTarget(t: Enemy?, enemies: seq<Enemy>, dist: Distance): (r: Enemy?)
      reads this`x, this`y, t, EnemySet(enemies)
      ensures r == null || r == t || r in EnemySet(enemies)
    {
      if t != null && IsValidTarget(t) then t
      else Chosen(enemies, AAChoice(range, Position(), dist, Views(enemies)))
    }

    /**
     * The cooldown one `update` of a living defense leaves from `c0`: run
     * down by `dt`, or back at one second when, holding a target, it fired.
     */
    predicate Reloaded(c0: real, dt: real)
      reads this`fireCooldown, this`currentTarget
    {
      fireCooldown == if currentTarget != null && c0 - dt <= 0.0 then AA_FIRE_INTERVAL else c0 - dt
    }

    /**
     * `update`: nothing when destroyed.  Otherwise the cooldown runs down, a
     * missing or invalid target is replaced by the scan's choice, and with a
     * target and the cooldown spent the defense fires, the roll `hit`
     * deciding whether the target takes 999, and the cooldown restarts at one
     * second.  Only the target can be hurt.
     */
    method Update(dt: real, enemies: seq<Enemy>, dist: Distance, hit: bool)
      requires Valid()
      modifies this`fireCooldown, this`currentTarget
      modifies EnemySet(enemies)`currentHp, EnemySet(enemies)`alive, EnemySet(enemies)`isDestroying
      modifies EnemySet(enemies)`destructionTime, EnemySet(enemies)`hasTriggeredStrike
      modifies (if currentTarget == null then {} else {currentTarget})`currentHp
      modifies (if currentTarget == null then {} else {currentTarget})`alive
      modifies (if currentTarget == null then {} else {currentTarget})`isDestroying
      modifies (if currentTarget == null then {} else {currentTarget})`destructionTime
      modifies (if currentTarget == null then {} else {currentTarget})`hasTriggeredStrike
      ensures Valid()
      ensures !old(alive) ==> unchanged(this) && unchanged(EnemySet(enemies))
      ensures !old(alive) && old(currentTarget) != null ==> unchanged(old(currentTarget))
      ensures old(alive) ==> currentTarget == old(NextTarget(currentTarget, enemies, dist))
      ensures currentTarget == null || currentTarget == old(currentTarget) || currentTarget in EnemySet(enemies)
      ensures old(alive) ==>
        var fires := currentTarget != null && old(fireCooldown) - dt <= 0.0;
        && fireCooldown == (if fires then AA_FIRE_INTERVAL else old(fireCooldown) - dt)
        && (fires ==> currentTarget.Hurt(hit, AA_LETHAL_DAMAGE))
        && (fires ==> unchanged(EnemySet(enemies) - {currentTarget}))
        && (fires && old(currentTarget) != null && old(currentTarget) != currentTarget ==> unchanged(old(currentTarget)))
        && (!fires ==> unchanged(EnemySet(enemies)) && (old(currentTarget) != null ==> unchanged(old(currentTarget))))
    {
      if !alive {
        return;
      }
      fireCooldown := fireCooldown - dt;
      Retarget(enemies, dist);
      Shoot(hit);
    }

    /** Keeps a valid target, or else takes the scan's choice among `enemies`. */
    method Retarget(enemies: seq<Enemy>, dist: Distance)
      requires Valid()
      modifies this`currentTarget
      ensures Valid()
      ensures currentTarget == NextTarget(old(currentTarget), enemies, dist)
      ensures currentTarget == null || currentTarget == old(currentTarget) || currentTarget in EnemySet(enemies)
    {
      if currentTarget == null || !IsValidTarget(currentTarget) {
        AcquireTarget(enemies, dist);
      }
    }

    /** With a target and the cooldown spent: fire with roll `hit` and restart the cooldown. */
    method Shoot(hit: bool)
      modifies this`fireCooldown
      modifies (if currentTarget == null then {} else {currentTarget})`currentHp
      modifies (if currentTarget == null then {} else {currentTarget})`alive
      modifies (if currentTarget == null then {} else {currentTarget})`isDestroying
      modifies (if currentTarget == null then {} else {currentTarget})`destructionTime
      modifies (if currentTarget == null then {} else {currentTarget})`hasTriggeredStrike
      ensures var fires := currentTarget != null && old(fireCooldown) <= 0.0;
        && fireCooldown == (if fires then AA_FIRE_INTERVAL else old(fireCooldown))
        && (fires ==> currentTarget.Hurt(hit, AA_LETHAL_DAMAGE))
        && (!fires && currentTarget != null ==> unchanged(currentTarget))
    {
      if currentTarget != null && fireCooldown <= 0.0 {
        Fire(hit);
        fireCooldown := AA_FIRE_INTERVAL;
      }
    }

    /** `fire`: with a target, a successful roll `hit` deals it 999 damage; a miss changes nothing. */
    method Fire(hit: bool)
      modifies (if currentTarget == null then {} else {currentTarget})`currentHp
      modifies (if currentTarget == null then {} else {currentTarget})`alive
      modifies (if currentTarget == null then {} else {currentTarget})`isDestroying
      modifies (if currentTarget == null then {} else {currentTarget})`destructionTime
      modifies (if currentTarget == null then {} else {currentTarget})`hasTriggeredStrike
      ensures currentTarget != null ==> currentTarget.Hurt(hit, AA_LETHAL_DAMAGE)
      ensures currentTarget == null ==> unchanged(this)
    {
      if currentTarget == null {
        return;
      }
      if hit {
        currentTarget.TakeDamage(AA_LETHAL_DAMAGE);
      }
    }

    /**
     * `takeDamage`: ignored once destroyed; hp drops and the defense is
     * destroyed at 0 or below, with hp held at 0.
     */
    method TakeDamage(damage: int)
      modifies this`hp, this`alive
      ensures HealthOf() == Damaged(old(HealthOf()), damage)
    {
      if !alive {
        return;
      }
      hp := hp - damage;
      if hp <= 0 {
        hp := 0;
        alive := false;
      }
    }

    /** `setPosition`. */
    method SetPosition(px: real, py: real)
      modifies this`x, this`y
      ensures Position() == Point(px, py)
    {
      x, y := px, py;
    }
  }
}
