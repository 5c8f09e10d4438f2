/**
 * The units of the older engine: enemies (soldiers and tanks) walking a
 * route, the two tower types, planes on a straight bombing run and the
 * anti-air batteries that shoot them down, with the tower targeting
 * strategies and fire behaviours.  The classes refer to each other (a tank
 * targets a tower, a tower an enemy), so they share one module.
 *
 * The hit-point rules come from `LegacyEntity`; every method that changes
 * hit points states its new vitals through those functions.
 */
module LegacyUnits {
  import opened Wrappers
  import opened Numerics
  import opened Math2D
  import opened Selection
  import opened LegacyConfig
  import opened LegacyEntity
  import opened LegacyMap

  /** `Double.MAX_VALUE`, the starting best of every minimum scan: (2^53 - 1) * 2^971. */
  const DOUBLE_MAX: real := 179769313486231570814527423731704356798070567525844996598917476803157260780028538760589558632766878171540458953514382464234321326889464182768467546703537516986049910576551282076245490090389328944075868508455133942304583236903222948165808559332123348274797826204144723168738177180919299881250404026184124858368.0

  datatype EnemyKind = Soldier | Tank
  datatype TowerKind = FastTower | HeavyTower

  /**
   * No element occurs twice: each element is absent from the ones before
   * it.  Stated element by element from the back so that it unfolds one
   * step at a time; `DistinctAt` and `DistinctPairwise` give the usual
   * forms.
   */
  predicate Distinct<T(==)>(s: seq<T>)
  {
    s == [] || (Distinct(s[..|s| - 1]) && s[|s| - 1] !in s[..|s| - 1])
  }

  /** In a list without repeats, the entry at `i` equals no entry at another index. */
  lemma {:induction false} DistinctAt<T>(s: seq<T>, i: int)
    requires Distinct(s) && 0 <= i < |s|
    ensures forall j :: 0 <= j < |s| && j != i ==> s[j] != s[i]
    decreases |s|
  {
    var n := |s| - 1;
    if i < n {
      DistinctAt(s[..n], i);
      assert s[..n][i] == s[i];
      assert forall j :: 0 <= j < n ==> s[..n][j] == s[j];
    } else {
      assert forall j :: 0 <= j < n ==> s[..n][j] == s[j];
    }
  }

  /** `Distinct` is the usual pairwise statement. */
  lemma {:induction false} DistinctPairwise<T>(s: seq<T>)
    ensures Distinct(s) <==> forall i, j :: 0 <= i < j < |s| ==> s[i] != s[j]
    decreases |s|
  {
    if s != [] {
      var n := |s| - 1;
      DistinctPairwise(s[..n]);
      assert forall j :: 0 <= j < n ==> s[..n][j] == s[j];
      if Distinct(s) {
        forall i, j | 0 <= i < j < |s|
          ensures s[i] != s[j]
        {
          DistinctAt(s, j);
        }
      }
    }
  }

  /** Appending an element that is not yet listed keeps a list without repeats. */
  lemma DistinctSnoc<T>(s: seq<T>, x: T)
    requires Distinct(s) && x !in s
    ensures Distinct(s + [x])
  {
    assert (s + [x])[..|s|] == s;
  }

  /** The element at a chosen index, or null for none. */
  function ChosenEnemy(es: seq<Enemy>, k: Option<nat>): (e: Enemy?)
    ensures e != null ==> e in es
  {
    if k.Some? && k.value < |es| then es[k.value] else null
  }

  function ChosenTower(ts: seq<Tower>, k: Option<nat>): (t: Tower?)
    ensures t != null ==> t in ts
  {
    if k.Some? && k.value < |ts| then ts[k.value] else null
  }

  function ChosenPlane(ps: seq<Plane>, k: Option<nat>): (p: Plane?)
    ensures p != null ==> p in ps
  {
    if k.Some? && k.value < |ps| then ps[k.value] else null
  }

  /** The set holding the object, if there is one: the frame of an optional target. */
  function EnemyOpt(e: Enemy?): set<Enemy> { if e == null then {} else {e} }
  function PlaneOpt(p: Plane?): set<Plane> { if p == null then {} else {p} }

  // ----- Enemy kinds ----------------------------------------------------------

  /** Hit points, speed in tiles per second, power and size of a soldier or a tank. */
  datatype EnemyStats = EnemyStats(hp: real, speed: real, power: int, size: real)

  /**
   * The `Soldier` and `Tank` constructors: a soldier has 40 hp, speed 1.0,
   * power 1 and is 0.6 tiles wide; a tank has 260 hp, speed 0.6, power 2 and
   * is one tile wide.
   */
  function EnemyStatsOf(kind: EnemyKind): (s: EnemyStats)
    ensures kind == Soldier ==> s == EnemyStats(40.0, 1.0, 1, 38.4)
    ensures kind == Tank ==> s == EnemyStats(260.0, 0.6, 2, 64.0)
    ensures s.hp > 0.0 && s.speed > 0.0 && s.power > 0 && s.size > 0.0
  {
    match kind
    case Soldier => EnemyStats(SOLDIER_HP as real, SOLDIER_SPEED, SOLDIER_POWER, TILE * 0.6)
    case Tank => EnemyStats(TANK_HP as real, TANK_SPEED, TANK_POWER, TILE * 1.0)
  }

  // ----- Walking a route ------------------------------------------------------

  /** Where an enemy is on its route: waypoint index, progress to the next one, and whether it leaked. */
  datatype Walk = Walk(index: int, progress: real, leaked: bool)

  /**
   * `updateMovement` for a living enemy that has not leaked, moving `move`
   * pixels: at or past the last waypoint it leaks; otherwise the progress
   * grows by `move` over the segment's pixel length, and reaching 1 moves on
   * to the next waypoint with progress 0, leaking if that is the last one.
   * On a segment of length zero a positive step reaches the next waypoint,
   * as Java's infinite quotient does; any other step leaves the walk as it
   * was here, where Java's progress becomes NaN (a zero step) or -Infinity
   * (a negative one).
   */
  function Advanced(w: Walk, ps: seq<Point>, dist: Distance, move: real): (r: Walk)
    requires 0 <= w.index && !w.leaked
    ensures r.index == w.index || r.index == w.index + 1
    ensures r.index == w.index + 1 ==> r.progress == 0.0
    ensures r.leaked <==> r.index >= |ps| - 1
    ensures w.index >= |ps| - 1 ==> r == w.(leaked := true)
    ensures !r.leaked && r.index == w.index ==> r.progress < 1.0 || r == w
    ensures 0.0 <= w.progress && 0.0 <= move ==> 0.0 <= r.progress
    ensures 0.0 <= move && r.index == w.index ==> w.progress <= r.progress
  {
    if w.index >= |ps| - 1 then w.(leaked := true)
    else
      var segment := SegmentLength(dist, ps, w.index) * TILE;
      if segment == 0.0 then
        if move > 0.0 then Walk(w.index + 1, 0.0, w.index + 1 >= |ps| - 1) else w
      else
        var progress := w.progress + move / segment;
        if progress >= 1.0 then
          Walk(w.index + 1, 0.0, w.index + 1 >= |ps| - 1)
        else
          Walk(w.index, progress, false)
  }

  /** How many pixels an enemy of speed `speed` (tiles per second) walks in `dt` seconds under the slow factor `factor`. */
  function Stride(speed: real, factor: real, dt: real): real
  {
    speed * factor * TILE * dt
  }

  /**
   * Without slows, a soldier walking a segment of length `len` tiles in
   * steps of `dt` makes the same progress each step: `dt / len` of the
   * segment, since it walks one tile per second.
   */
  lemma SoldierStep(ps: seq<Point>, dist: Distance, w: Walk, dt: real)
    requires 0 <= w.index < |ps| - 1 && !w.leaked && SegmentLength(dist, ps, w.index) != 0.0
    requires w.progress + dt / SegmentLength(dist, ps, w.index) < 1.0
    ensures Advanced(w, ps, dist, EnemyStatsOf(Soldier).speed * 1.0 * TILE * dt)
         == Walk(w.index, w.progress + dt / SegmentLength(dist, ps, w.index), false)
  {
    var len := SegmentLength(dist, ps, w.index);
    assert (TILE * dt) / (len * TILE) == dt / len;
  }

  /** How far from the end an enemy at this waypoint and progress still is, in tiles (`getDistanceToEnd`). */
  function Remaining(dist: Distance, ps: seq<Point>, index: int, progress: real): real
    requires 0 <= index
  {
    (if index < |ps| - 1 then SegmentLength(dist, ps, index) * (1.0 - progress) else 0.0)
    + (if index + 1 < |ps| - 1 then SpanLength(dist, ps, index + 1, |ps| - 1) else 0.0)
  }

  /** At the first waypoint with no progress, the whole route is still ahead. */
  lemma RemainingAtStart(dist: Distance, ps: seq<Point>)
    ensures Remaining(dist, ps, 0, 0.0) == PathLength(dist, ps)
  {
    if |ps| >= 2 {
      SpanLengthSplit(dist, ps, 0, 1, |ps| - 1);
    }
  }

  /** Arriving at a waypoint and leaving it with progress 0 leave the same distance ahead. */
  lemma RemainingAcrossWaypoint(dist: Distance, ps: seq<Point>, index: nat)
    requires index + 2 < |ps|
    ensures Remaining(dist, ps, index, 1.0) == Remaining(dist, ps, index + 1, 0.0)
  {
    SpanLengthSplit(dist, ps, index + 1, index + 2, |ps| - 1);
  }

  /** Nothing is ahead at the end of the last segment, or at or past the last waypoint. */
  lemma RemainingAtEnd(dist: Distance, ps: seq<Point>, index: nat)
    ensures index + 2 == |ps| ==> Remaining(dist, ps, index, 1.0) == 0.0
    ensures index + 1 >= |ps| ==> Remaining(dist, ps, index, 0.0) == 0.0
  {
  }

  /** More progress on the same segment leaves less of the route ahead. */
  lemma RemainingShrinks(dist: Distance, ps: seq<Point>, index: nat, p: real, q: real)
    requires p <= q
    ensures Remaining(dist, ps, index, q) <= Remaining(dist, ps, index, p)
  {
    if index < |ps| - 1 {
      var s := SegmentLength(dist, ps, index);
      assert s * (1.0 - q) <= s * (1.0 - p) by {
        assert s * (1.0 - p) - s * (1.0 - q) == s * (q - p);
        ProductNonNegative(s, q - p);
      }
    }
  }

  // ----- Slows ------------------------------------------------------------------

  /** `slowFactor` and `slowEndTime`, the remaining slow time. */
  datatype Slow = Slow(factor: real, remaining: real)

  /**
   * `updateSlowEffect`: a running slow loses `dt` of its time and the factor
   * reverts to 1.0 once no time is left; without a running slow nothing
   * changes.
   */
  function SlowTicked(s: Slow, dt: real): (r: Slow)
    ensures s.remaining <= 0.0 ==> r == s
    ensures s.remaining > 0.0 ==> r.remaining == s.remaining - dt
    ensures s.remaining > 0.0 && r.remaining <= 0.0 ==> r.factor == 1.0
    ensures r.remaining > 0.0 ==> r.factor == s.factor
  {
    if s.remaining > 0.0 then
      var left := s.remaining - dt;
      if left <= 0.0 then Slow(1.0, left) else Slow(s.factor, left)
    else s
  }

  /** The slow after a run of updates. */
  function SlowAfter(s: Slow, dts: seq<real>): Slow
    decreases |dts|
  {
    if dts == [] then s else SlowAfter(SlowTicked(s, dts[0]), dts[1..])
  }

  function Total(dts: seq<real>): real
    decreases |dts|
  {
    if dts == [] then 0.0 else dts[0] + Total(dts[1..])
  }

  lemma {:induction false} TotalNonNegative(dts: seq<real>)
    requires forall i :: 0 <= i < |dts| ==> dts[i] >= 0.0
    ensures Total(dts) >= 0.0
    decreases |dts|
  {
    if dts != [] {
      TotalNonNegative(dts[1..]);
    }
  }

  /**
   * A slow wears off: once updates of non-negative length have covered its
   * remaining time, the factor is back to 1.0, and until then a running slow
   * keeps its factor.
   */
  lemma {:induction false} SlowWearsOff(s: Slow, dts: seq<real>)
    requires s.remaining > 0.0 && forall i :: 0 <= i < |dts| ==> dts[i] >= 0.0
    ensures Total(dts) >= s.remaining ==> SlowAfter(s, dts).factor == 1.0
    ensures Total(dts) < s.remaining ==> SlowAfter(s, dts) == Slow(s.factor, s.remaining - Total(dts))
    decreases |dts|
  {
    if dts != [] {
      var next := SlowTicked(s, dts[0]);
      if next.remaining > 0.0 {
        SlowWearsOff(next, dts[1..]);
      } else {
        TotalNonNegative(dts[1..]);
        SlowStaysOff(next, dts[1..]);
      }
    }
  }

  /** An expired slow stays expired. */
  lemma {:induction false} SlowStaysOff(s: Slow, dts: seq<real>)
    requires s.remaining <= 0.0
    ensures SlowAfter(s, dts) == s
    decreases |dts|
  {
    if dts != [] {
      SlowStaysOff(SlowTicked(s, dts[0]), dts[1..]);
    }
  }

  /** The tank's fire timer after `updateCombat`: it counts down and resets to 1/TANK_FIRE_RATE at zero. */
  function CombatTicked(timer: real, dt: real): (r: real)
    ensures timer - dt <= 0.0 ==> r == 1.0
    ensures timer - dt > 0.0 ==> r == timer - dt
  {
    if timer - dt <= 0.0 then 1.0 / TANK_FIRE_RATE else timer - dt
  }

  /** With non-negative frame times the tank's timer stays in (0, 1] once it has fired. */
  lemma CombatTimerBounded(timer: real, dt: real)
    requires 0.0 < timer <= 1.0 && dt >= 0.0
    ensures 0.0 < CombatTicked(timer, dt) <= 1.0
  {
  }

  // ----- Enemy -----------------------------------------------------------------

  /** What a targeting strategy sees of an enemy. */
  datatype Foe = Foe(kind: EnemyKind, alive: bool, leaked: bool, hp: real, toEnd: real, centre: Point)

  /** The part of an enemy that `update` and the gadgets change: place, walk, slow, vitals and combat timer. */
  datatype EnemyPose = EnemyPose(position: Point, walk: Walk, slow: Slow, vit: Vitals, fireTimer: real)

  /**
   * Where the enemy constructor leaves a new enemy: the first waypoint's
   * centre less half the default size of 32, or the origin on a route of
   * fewer than two waypoints.
   */
  function StartPosition(route: seq<Point>): Point
  {
    if |route| >= 2 then PlacedAt(WaypointCentre(route[0]), DEFAULT_SIZE, DEFAULT_SIZE) else Point(0.0, 0.0)
  }

  /**
   * `Enemy` with its two subclasses.  The route is the waypoint list of the
   * `Route` the enemy was built with; the tank's combat fields are unused by
   * soldiers.
   */
  class Enemy {
    const kind: EnemyKind
    const route: seq<Point>
    const speed: real
    const powerValue: int
    const width: real
    const height: real
    var position: Point
    var maxHp: real
    var currentHp: real
    var alive: bool
    var currentWaypointIndex: int
    var progressToNextWaypoint: real
    var leaked: bool
    var slowFactor: real
    var slowEndTime: real
    // Tank only
    var fireTimer: real
    var targetTower: Tower?

    function Vit(): Vitals
      reads this`maxHp, this`currentHp, this`alive
    {
      Vitals(maxHp, currentHp, alive)
    }

    function Walking(): Walk
      reads this`currentWaypointIndex, this`progressToNextWaypoint, this`leaked
    {
      Walk(currentWaypointIndex, progressToNextWaypoint, leaked)
    }

    function Slowing(): Slow
      reads this`slowFactor, this`slowEndTime
    {
      Slow(slowFactor, slowEndTime)
    }

    function Pose(): EnemyPose
      reads this`position, this`currentWaypointIndex, this`progressToNextWaypoint, this`leaked
      reads this`slowFactor, this`slowEndTime, this`maxHp, this`currentHp, this`alive, this`fireTimer
    {
      EnemyPose(position, Walking(), Slowing(), Vit(), fireTimer)
    }

    /**
     * The waypoint index is never negative; an enemy has leaked only at or
     * past the last waypoint, and one that has not leaked is on a segment or
     * has not moved yet.
     */
    predicate Valid()
      reads this`currentWaypointIndex, this`leaked
    {
      && 0 <= currentWaypointIndex
      && (leaked ==> currentWaypointIndex >= |route| - 1)
      && (!leaked ==> currentWaypointIndex == 0 || currentWaypointIndex < |route| - 1)
    }

    /**
     * The `Soldier(route)` and `Tank(route)` constructors: full health, at
     * the first waypoint, unslowed.  The start position is the centre of
     * the first waypoint's tile less half the default size of 32, since the
     * subclass sets its own size only after the `Enemy` constructor has run;
     * it is (0, 0) when the route has fewer than two waypoints.
     */
    constructor(kind: EnemyKind, r: Route)
      ensures this.kind == kind && route == r.waypoints && Valid()
      ensures speed == EnemyStatsOf(kind).speed && powerValue == EnemyStatsOf(kind).power
      ensures width == height == EnemyStatsOf(kind).size
      ensures Vit() == Spawned(EnemyStatsOf(kind).hp)
      ensures Walking() == Walk(0, 0.0, false) && Slowing() == Slow(1.0, 0.0)
      ensures |route| >= 2 ==> position == PlacedAt(WaypointCentre(route[0]), DEFAULT_SIZE, DEFAULT_SIZE)
      ensures |route| < 2 ==> position == Point(0.0, 0.0)
      ensures position == StartPosition(route)
      ensures fireTimer == 0.0 && targetTower == null
    {
      var stats := EnemyStatsOf(kind);
      this.kind := kind;
      route := r.waypoints;
      speed := stats.speed;
      powerValue := stats.power;
      width := stats.size;
      height := stats.size;
      maxHp := stats.hp;
      currentHp := stats.hp;
      alive := true;
      currentWaypointIndex := 0;
      progressToNextWaypoint := 0.0;
      leaked := false;
      slowFactor := 1.0;
      slowEndTime := 0.0;
      fireTimer := 0.0;
      targetTower := null;
      new;
      position := Point(0.0, 0.0);
      if |r.waypoints| > 0 {
        var start := r.PixelPosition(0, 0.0);
        if start.Some? {
          position := PlacedAt(start.value, DEFAULT_SIZE, DEFAULT_SIZE);
        }
      }
    }

    /** `getCenter`. */
    function Centre(): Point
      reads this`position
    {
      CentreOf(position, width, height)
    }

    /** The snapshot a targeting strategy compares. */
    function View(dist: Distance): Foe
      reads this
    {
      Foe(kind, alive, leaked, currentHp, DistanceToEnd(dist), Centre())
    }

    /**
     * `update`, with the tank's override: a dead or leaked enemy does not
     * move and its slow does not tick; otherwise it advances along the route
     * at its speed times the slow factor (taken before the slow ticks) and is
     * placed on the route, unless it leaked.  A tank still alive afterwards
     * runs its combat timer, even once it has leaked.
     */
    method Update(dt: real, dist: Distance)
      requires Valid()
      modifies this`position, this`currentWaypointIndex, this`progressToNextWaypoint, this`leaked
      modifies this`slowFactor, this`slowEndTime, this`fireTimer
      ensures Valid()
      ensures !alive || old(leaked) ==>
        Walking() == old(Walking()) && Slowing() == old(Slowing()) && position == old(position)
      ensures alive && !old(leaked) ==>
        && Walking() == Advanced(old(Walking()), route, dist, old(StepLength(dt)))
        && Slowing() == SlowTicked(old(Slowing()), dt)
        && (leaked ==> position == old(position))
        && (!leaked ==> position == PlacedAt(PathPixel(route, currentWaypointIndex, progressToNextWaypoint).value, width, height))
      ensures kind == Tank && alive ==> fireTimer == CombatTicked(old(fireTimer), dt)
      ensures !(kind == Tank && alive) ==> fireTimer == old(fireTimer)
    {
      if alive && !leaked {
        UpdateMovement(dt, dist);
        UpdateSlowEffect(dt);
      }
      if kind == Tank && alive {
        fireTimer := fireTimer - dt;
        if fireTimer <= 0.0 {
          // The tower search the source calls here is an empty stub.
          fireTimer := 1.0 / TANK_FIRE_RATE;
        }
      }
    }

    /** How many pixels the enemy walks in `dt` seconds at its slowed speed. */
    function StepLength(dt: real): real
      reads this`slowFactor
    {
      Stride(speed, slowFactor, dt)
    }

    /** `updateMovement`. */
    method UpdateMovement(dt: real, dist: Distance)
      requires Valid() && !leaked
      modifies this`position, this`currentWaypointIndex, this`progressToNextWaypoint, this`leaked
      ensures Valid()
      ensures Walking() == Advanced(old(Walking()), route, dist, StepLength(dt))
      ensures leaked ==> position == old(position)
      ensures !leaked ==> position == PlacedAt(PathPixel(route, currentWaypointIndex, progressToNextWaypoint).value, width, height)
    {
      ghost var next := Advanced(old(Walking()), route, dist, StepLength(dt));
      if currentWaypointIndex >= |route| - 1 {
        leaked := true;
        assert Walking() == next;
        return;
      }
      var distanceToMove := StepLength(dt);
      var segmentLength := SegmentLength(dist, route, currentWaypointIndex) * TILE;
      if segmentLength == 0.0 {
        // The quotient is infinite; only a positive step passes the test below.
        if distanceToMove > 0.0 {
          progressToNextWaypoint := 1.0;
        }
      } else {
        progressToNextWaypoint := progressToNextWaypoint + distanceToMove / segmentLength;
      }
      if progressToNextWaypoint >= 1.0 && (segmentLength != 0.0 || distanceToMove > 0.0) {
        currentWaypointIndex := currentWaypointIndex + 1;
        progressToNextWaypoint := 0.0;
        if currentWaypointIndex >= |route| - 1 {
          leaked := true;
          assert Walking() == next;
          return;
        }
      }
      assert Walking() == next;
      var pixel := PathPixel(route, currentWaypointIndex, progressToNextWaypoint);
      position := PlacedAt(pixel.value, width, height);
    }

    /** `updateSlowEffect`. */
    method UpdateSlowEffect(dt: real)
      modifies this`slowFactor, this`slowEndTime
      ensures Slowing() == SlowTicked(old(Slowing()), dt)
    {
      if slowEndTime > 0.0 {
        slowEndTime := slowEndTime - dt;
        if slowEndTime <= 0.0 {
          slowFactor := 1.0;
        }
      }
    }

    /** `applySlow`: the latest slow replaces any earlier one. */
    method ApplySlow(factor: real, duration: real)
      modifies this`slowFactor, this`slowEndTime
      ensures Slowing() == Slow(factor, duration)
    {
      slowFactor := factor;
      slowEndTime := duration;
    }

    method TakeDamage(damage: real)
      modifies this`currentHp, this`alive
      ensures Vit() == Damaged(old(Vit()), damage)
    {
      if !alive {
        return;
      }
      currentHp := currentHp - damage;
      if currentHp <= 0.0 {
        currentHp := 0.0;
        alive := false;
      }
    }

    method Heal(amount: real)
      modifies this`currentHp
      ensures Vit() == Healed(old(Vit()), amount)
    {
      if !alive {
        return;
      }
      currentHp := Min(maxHp, currentHp + amount);
    }

    method Kill()
      modifies this`currentHp, this`alive
      ensures Vit() == Killed(old(Vit()))
    {
      alive := false;
      currentHp := 0.0;
    }

    /** `getDistanceToEnd`: nothing for a leaked or dead enemy, else what `Remaining` measures. */
    function DistanceToEnd(dist: Distance): real
      reads this`leaked, this`alive, this`currentWaypointIndex, this`progressToNextWaypoint
    {
      if leaked || !alive || currentWaypointIndex < 0 then 0.0
      else Remaining(dist, route, currentWaypointIndex, progressToNextWaypoint)
    }

    /** `getDistanceToEnd`, adding the later segments one by one. */
    method GetDistanceToEnd(dist: Distance) returns (distance: real)
      requires Valid()
      ensures distance == DistanceToEnd(dist)
    {
      if leaked || !alive {
        return 0.0;
      }
      distance := 0.0;
      var n := |route|;
      if currentWaypointIndex < n - 1 {
        var segmentLength := PointDistance(dist, route[currentWaypointIndex], route[currentWaypointIndex + 1]);
        distance := distance + segmentLength * (1.0 - progressToNextWaypoint);
      }
      ghost var first := distance;
      var i := currentWaypointIndex + 1;
      while i < n - 1
        invariant currentWaypointIndex + 1 <= i
        invariant i <= n - 1 || i == currentWaypointIndex + 1
        invariant distance == first + SpanLength(dist, route, currentWaypointIndex + 1, if i <= n - 1 then i else currentWaypointIndex + 1)
      {
        assert SpanLength(dist, route, currentWaypointIndex + 1, i + 1)
          == SpanLength(dist, route, currentWaypointIndex + 1, i) + SegmentLength(dist, route, i);
        distance := distance + PointDistance(dist, route[i], route[i + 1]);
        i := i + 1;
      }
      if currentWaypointIndex + 1 < n - 1 {
        assert i == n - 1;
      }
    }

    /** `getCurrentTilePosition`: the tile holding the centre, by flooring. */
    function CurrentTilePosition(): (c: Cell)
      reads this`position
      ensures c.x as real * TILE <= Centre().x < (c.x + 1) as real * TILE
      ensures c.y as real * TILE <= Centre().y < (c.y + 1) as real * TILE
    {
      var centre := Centre();
      FloorTile(centre.x);
      FloorTile(centre.y);
      Cell(FloorToInt(centre.x / TILE), FloorToInt(centre.y / TILE))
    }

    /**
     * `Tank.setTowersInRange`: the target becomes the nearest live tower
     * within three tiles of the tank's centre (the first of equals), and that
     * tower takes the tank's damage; with none, the target is cleared and no
     * tower is hit.
     */
    method SetTowersInRange(towers: seq<Tower>, dist: Distance)
      requires kind == Tank
      modifies this`targetTower, towers
      ensures targetTower == ChosenTower(towers, TankPick(Centre(), dist, old(Posts(towers))))
      ensures var t := targetTower; t != null ==> t.Vit() == Damaged(old(t.Vit()), TANK_DAMAGE as real)
      ensures forall j :: 0 <= j < |towers| && towers[j] != targetTower ==> towers[j].Vit() == old(towers[j].Vit())
      ensures forall j :: 0 <= j < |towers| ==>
        towers[j].position == old(towers[j].position) && towers[j].fireTimer == old(towers[j].fireTimer)
        && towers[j].target == old(towers[j].target) && towers[j].projectileManager == old(towers[j].projectileManager)
    {
      var best: Tower? := null;
      var closestDistance := DOUBLE_MAX;
      var range := TANK_RANGE * TILE;
      ghost var ps := Posts(towers);
      for i := 0 to |towers|
        invariant var p := TankScan(Centre(), dist, ps, i);
          p.best == closestDistance && best == ChosenTower(towers, p.index)
      {
        var tower := towers[i];
        assert ps[i] == tower.PostView();
        if tower.alive {
          var distance := PointDistance(dist, Centre(), tower.Centre());
          if distance <= range && distance < closestDistance {
            closestDistance := distance;
            best := tower;
          }
        }
      }
      targetTower := best;
      if best != null {
        best.TakeDamage(TANK_DAMAGE as real);
      }
    }

    /** `isInCombat`. */
    predicate IsInCombat()
      reads this`targetTower, targetTower
    {
      targetTower != null && targetTower.alive
    }
  }

  /** Flooring a pixel coordinate over the tile size gives the tile that holds it. */
  lemma FloorTile(p: real)
    ensures FloorToInt(p / TILE) as real * TILE <= p < (FloorToInt(p / TILE) + 1) as real * TILE
  {
    var t := FloorToInt(p / TILE);
    assert t as real * TILE <= (p / TILE) * TILE;
    assert (p / TILE) * TILE < (t as real + 1.0) * TILE;
  }

  // ----- Tower -----------------------------------------------------------------

  /** Hit points, range in tiles, shots per second and cost of a tower type. */
  datatype TowerStats = TowerStats(hp: real, tiles: real, fireRate: real, cost: int)

  /** The `FastTower` and `HeavyTower` constructors' arguments, from the configuration. */
  function TowerStatsOf(kind: TowerKind): (s: TowerStats)
    ensures kind == FastTower ==> s == TowerStats(100.0, 3.0, 4.0, 50)
    ensures kind == HeavyTower ==> s == TowerStats(220.0, 4.0, 1.0, 80)
    ensures s.hp > 0.0 && s.tiles > 0.0 && s.fireRate > 0.0 && s.cost > 0
  {
    match kind
    case FastTower => TowerStats(FAST_TOWER_HP as real, TOWER_RANGE_FAST, FAST_TOWER_FIRE_RATE, FAST_TOWER_COST)
    case HeavyTower => TowerStats(HEAVY_TOWER_HP as real, TOWER_RANGE_HEAVY, HEAVY_TOWER_FIRE_RATE, HEAVY_TOWER_COST)
  }

  /**
   * `getDamageAgainst`: the fast tower deals 8 to soldiers and 4 to tanks,
   * the heavy tower 20 and 12.  (The source's plane branch can never be
   * taken, since a plane is not an enemy.)
   */
  function DamageAgainst(kind: TowerKind, target: EnemyKind): (d: real)
    ensures kind == FastTower && target == Soldier ==> d == 8.0
    ensures kind == FastTower && target == Tank ==> d == 4.0
    ensures kind == HeavyTower && target == Soldier ==> d == 20.0
    ensures kind == HeavyTower && target == Tank ==> d == 12.0
  {
    match (kind, target)
    case (FastTower, Soldier) => FAST_TOWER_DAMAGE_SOLDIER as real
    case (FastTower, Tank) => FAST_TOWER_DAMAGE_TANK as real
    case (HeavyTower, Soldier) => HEAVY_TOWER_DAMAGE_SOLDIER as real
    case (HeavyTower, Tank) => HEAVY_TOWER_DAMAGE_TANK as real
  }

  /**
   * The heavy tower is the stronger and dearer one: more hit points, longer
   * range, more damage against either enemy and a higher cost, while the
   * fast tower fires more often; both damage both enemy kinds, and soldiers
   * take more than tanks.
   */
  lemma TowerTypesCompared(e: EnemyKind)
    ensures TowerStatsOf(HeavyTower).hp > TowerStatsOf(FastTower).hp
    ensures TowerStatsOf(HeavyTower).tiles > TowerStatsOf(FastTower).tiles
    ensures TowerStatsOf(HeavyTower).cost > TowerStatsOf(FastTower).cost
    ensures TowerStatsOf(FastTower).fireRate > TowerStatsOf(HeavyTower).fireRate
    ensures DamageAgainst(HeavyTower, e) > DamageAgainst(FastTower, e) > 0.0
    ensures forall k: TowerKind :: DamageAgainst(k, Soldier) > DamageAgainst(k, Tank)
  {
  }

  // ----- Tower targeting --------------------------------------------------------

  datatype Strategy = ClosestToExit | LowestHp | Closest

  /** What a targeting strategy knows about the tower: its type, centre and pixel range. */
  datatype Sight = Sight(kind: TowerKind, at: Point, range: real)

  /** `tower.canTarget(enemy)`: within range of the tower's centre and damageable by it. */
  predicate Reachable(aim: Sight, dist: Distance, f: Foe)
  {
    InRange(dist, aim.at, f.centre, aim.range) && DamageAgainst(aim.kind, f.kind) > 0.0
  }

  /** An enemy a strategy considers: alive, not leaked, and targetable. */
  predicate Qualifies(aim: Sight, dist: Distance, f: Foe)
  {
    f.alive && !f.leaked && Reachable(aim, dist, f)
  }

  /**
   * The score each strategy minimises: the distance to the end plus a
   * hundredth of a percent of the hit points, the hit points, or the distance
   * to the tower.
   */
  function StrategyKey(s: Strategy, aim: Sight, dist: Distance, f: Foe): real
  {
    match s
    case ClosestToExit => f.toEnd + f.hp / 10000.0
    case LowestHp => f.hp
    case Closest => PointDistance(dist, aim.at, f.centre)
  }

  function QualifyFlags(aim: Sight, dist: Distance, fs: seq<Foe>): (e: seq<bool>)
    ensures |e| == |fs| && forall i :: 0 <= i < |fs| ==> e[i] == Qualifies(aim, dist, fs[i])
  {
    seq(|fs|, i requires 0 <= i < |fs| => Qualifies(aim, dist, fs[i]))
  }

  function StrategyKeys(s: Strategy, aim: Sight, dist: Distance, fs: seq<Foe>): (k: seq<real>)
    ensures |k| == |fs| && forall i :: 0 <= i < |fs| ==> k[i] == StrategyKey(s, aim, dist, fs[i])
  {
    seq(|fs|, i requires 0 <= i < |fs| => StrategyKey(s, aim, dist, fs[i]))
  }

  /** A strategy's scan over the first `n` enemies, from `Double.MAX_VALUE`. */
  function StrategyScan(s: Strategy, aim: Sight, dist: Distance, fs: seq<Foe>, n: nat): Pick
    requires n <= |fs|
  {
    MinScan(QualifyFlags(aim, dist, fs), StrategyKeys(s, aim, dist, fs), DOUBLE_MAX, n)
  }

  lemma StrategyScanStep(s: Strategy, aim: Sight, dist: Distance, fs: seq<Foe>, i: nat)
    requires i < |fs|
    ensures var p := StrategyScan(s, aim, dist, fs, i);
      var key := StrategyKey(s, aim, dist, fs[i]);
      StrategyScan(s, aim, dist, fs, i + 1)
        == if Qualifies(aim, dist, fs[i]) && key < p.best then Pick(key, Some(i)) else p
  {
  }

  /** The index of the enemy a strategy selects, or None for null. */
  function StrategyPick(s: Strategy, aim: Sight, dist: Distance, fs: seq<Foe>): (r: Option<nat>)
    ensures r.Some? ==> r.value < |fs|
  {
    StrategyScan(s, aim, dist, fs, |fs|).index
  }

  /**
   * Every strategy selects the first qualifying enemy of least score, and
   * selects nothing exactly when no qualifying enemy scores below
   * `Double.MAX_VALUE`: dead, leaked and untargetable enemies are never chosen.
   */
  lemma StrategyPickIsFirstMinimum(s: Strategy, aim: Sight, dist: Distance, fs: seq<Foe>)
    ensures var r := StrategyPick(s, aim, dist, fs);
      && (r.None? <==> forall j :: 0 <= j < |fs| && Qualifies(aim, dist, fs[j]) ==>
                          StrategyKey(s, aim, dist, fs[j]) >= DOUBLE_MAX)
      && (r.Some? ==>
            var k := r.value;
            && Qualifies(aim, dist, fs[k])
            && StrategyKey(s, aim, dist, fs[k]) < DOUBLE_MAX
            && (forall j :: 0 <= j < |fs| && Qualifies(aim, dist, fs[j]) ==>
                  StrategyKey(s, aim, dist, fs[k]) <= StrategyKey(s, aim, dist, fs[j]))
            && (forall j :: 0 <= j < k && Qualifies(aim, dist, fs[j]) ==>
                  StrategyKey(s, aim, dist, fs[k]) < StrategyKey(s, aim, dist, fs[j])))
  {
    MinScanIsFirstMinimum(QualifyFlags(aim, dist, fs), StrategyKeys(s, aim, dist, fs), DOUBLE_MAX, |fs|);
  }

  /** The snapshots of the enemies a strategy chooses among. */
  function Views(es: seq<Enemy>, dist: Distance): (fs: seq<Foe>)
    reads es
    ensures |fs| == |es| && forall i :: 0 <= i < |es| ==> fs[i] == es[i].View(dist)
  {
    if es == [] then [] else Views(es[..|es| - 1], dist) + [es[|es| - 1].View(dist)]
  }

  /**
   * `selectTarget` of the three strategies: one scan keeping the running
   * best score, replaced only by a qualifying enemy that scores strictly
   * lower.
   */
  method SelectTarget(s: Strategy, enemies: seq<Enemy>, tower: Tower, dist: Distance) returns (best: Enemy?)
    requires forall i :: 0 <= i < |enemies| ==> enemies[i].Valid()
    ensures best == ChosenEnemy(enemies, StrategyPick(s, tower.Aim(), dist, Views(enemies, dist)))
  {
    best := null;
    var bestScore := DOUBLE_MAX;
    ghost var fs := Views(enemies, dist);
    ghost var aim := tower.Aim();
    var i := 0;
    while i < |enemies|
      invariant 0 <= i <= |enemies|
      invariant var p := StrategyScan(s, aim, dist, fs, i);
        p.best == bestScore && best == ChosenEnemy(enemies, p.index)
    {
      var e := enemies[i];
      StrategyScanStep(s, aim, dist, fs, i);
      assert fs[i] == e.View(dist);
      if e.alive && !e.leaked && tower.CanTarget(e, dist) {
        var score;
        match s {
          case ClosestToExit =>
            var toEnd := e.GetDistanceToEnd(dist);
            score := toEnd + e.currentHp / 10000.0;
          case LowestHp =>
            score := e.currentHp;
          case Closest =>
            score := PointDistance(dist, tower.Centre(), e.Centre());
        }
        if score < bestScore {
          bestScore := score;
          best := e;
        }
      }
      i := i + 1;
    }
  }

  /** The enemies `findBestTarget` passes on: alive, not leaked, in range and damageable, in list order. */
  function Candidates(aim: Sight, dist: Distance, es: seq<Enemy>): (r: seq<Enemy>)
    reads es
    ensures forall i :: 0 <= i < |r| ==> r[i] in es && Qualifies(aim, dist, r[i].View(dist))
    ensures forall i :: 0 <= i < |es| && Qualifies(aim, dist, es[i].View(dist)) ==> es[i] in r
    ensures |r| <= |es|
    ensures (forall i :: 0 <= i < |es| ==> es[i].Valid()) ==> forall i :: 0 <= i < |r| ==> r[i].Valid()
  {
    if es == [] then []
    else
      var e := es[|es| - 1];
      Candidates(aim, dist, es[..|es| - 1]) + (if Qualifies(aim, dist, e.View(dist)) then [e] else [])
  }

  /** The three filters of `findBestTarget`, applied in one pass that keeps the list order. */
  method Filtered(aim: Sight, enemies: seq<Enemy>, dist: Distance) returns (valid: seq<Enemy>)
    ensures valid == Candidates(aim, dist, enemies)
  {
    valid := [];
    for i := 0 to |enemies|
      invariant valid == Candidates(aim, dist, enemies[..i])
    {
      var e := enemies[i];
      assert enemies[..i + 1][..i] == enemies[..i];
      if e.alive && !e.leaked && InRange(dist, aim.at, e.Centre(), aim.range) && DamageAgainst(aim.kind, e.kind) > 0.0 {
        valid := valid + [e];
      }
    }
    assert enemies[..|enemies|] == enemies;
  }

  /** A shot `createProjectile` hands to the projectile manager. */
  datatype Shot = Shot(start: Point, aim: Point, target: Enemy, speed: real, damage: real)

  /** The projectile manager: it keeps the shots handed to it. */
  class ProjectileLog {
    var shots: seq<Shot>

    constructor()
      ensures shots == []
    {
      shots := [];
    }

    method AddProjectile(shot: Shot)
      modifies this
      ensures shots == old(shots) + [shot]
    {
      shots := shots + [shot];
    }
  }

  /** `Tower`, with the `FastTower` and `HeavyTower` subclasses as its two kinds. */
  class Tower {
    const kind: TowerKind
    const range: real := TowerStatsOf(kind).tiles * TILE
    const fireRate: real := TowerStatsOf(kind).fireRate
    const cost: int := TowerStatsOf(kind).cost
    const maxHp: real := TowerStatsOf(kind).hp
    const width: real := TILE * 0.9
    const height: real := TILE * 0.9
    const targetingStrategy: Strategy := ClosestToExit
    var position: Point
    var currentHp: real
    var alive: bool
    var fireTimer: real
    var target: Enemy?
    var projectileManager: ProjectileLog?

    function Vit(): Vitals
      reads this`currentHp, this`alive
    {
      Vitals(maxHp, currentHp, alive)
    }

    /**
     * The `FastTower(x, y)` and `HeavyTower(x, y)` constructors: the range is
     * kept in pixels, the size is 0.9 tiles, and it targets the enemy closest
     * to the exit.
     */
    constructor(kind: TowerKind, x: real, y: real)
      ensures this.kind == kind && position == Point(x, y)
      ensures range == TowerStatsOf(kind).tiles * TILE && GetRange() == TowerStatsOf(kind).tiles
      ensures fireRate == TowerStatsOf(kind).fireRate && cost == TowerStatsOf(kind).cost
      ensures Vit() == Spawned(TowerStatsOf(kind).hp) && width == height == 57.6
      ensures fireTimer == 0.0 && target == null && projectileManager == null
      ensures targetingStrategy == ClosestToExit
    {
      this.kind := kind;
      position := Point(x, y);
      currentHp := TowerStatsOf(kind).hp;
      alive := true;
      fireTimer := 0.0;
      target := null;
      projectileManager := null;
    }

    function Centre(): Point
      reads this`position
    {
      CentreOf(position, width, height)
    }

    function Aim(): Sight
      reads this`position
    {
      Sight(kind, Centre(), range)
    }

    /** `getRange`: the range back in tiles. */
    function GetRange(): real
    {
      range / TILE
    }

    /** `canTarget`. */
    predicate CanTarget(e: Enemy, dist: Distance)
      reads this`position, e`position
    {
      InRange(dist, Centre(), e.Centre(), range) && DamageAgainst(kind, e.kind) > 0.0
    }

    /** The test `updateCombat` and `setEnemiesInRange` apply to the current target. */
    predicate HoldsTarget(dist: Distance)
      reads this`target, this`position, target
    {
      target != null && target.alive && InRange(dist, Centre(), target.Centre(), range) && !target.leaked
    }

    /** What `fireAtTarget` hands the projectile manager: one shot of the damage, when there is damage. */
    function Volley(t: Enemy): seq<Shot>
      reads this`position, t`position
    {
      var damage := DamageAgainst(kind, t.kind);
      if damage > 0.0 then [Shot(Centre(), t.Centre(), t, 300.0, damage)] else []
    }

    method SetProjectileManager(m: ProjectileLog?)
      modifies this`projectileManager
      ensures projectileManager == m
    {
      projectileManager := m;
    }

    /**
     * `update`: a dead tower does nothing.  Otherwise the timer counts down,
     * a target that died, left the range or leaked is dropped, and with the
     * timer run out and a target left the tower fires and the timer restarts
     * at 1/fireRate.
     */
    method Update(dt: real, dist: Distance)
      modifies this`fireTimer, this`target, projectileManager
      ensures !alive ==> fireTimer == old(fireTimer) && target == old(target)
      ensures !alive && projectileManager != null ==> projectileManager.shots == old(projectileManager.shots)
      ensures alive ==> target == (if old(HoldsTarget(dist)) then old(target) else null)
      ensures alive && old(fireTimer) - dt <= 0.0 && target != null ==>
        && fireTimer == 1.0 / fireRate
        && (projectileManager != null ==> projectileManager.shots == old(projectileManager.shots) + Volley(target))
      ensures alive && !(old(fireTimer) - dt <= 0.0 && target != null) ==>
        && fireTimer == old(fireTimer) - dt
        && (projectileManager != null ==> projectileManager.shots == old(projectileManager.shots))
    {
      if !alive {
        return;
      }
      fireTimer := fireTimer - dt;
      if target != null && (!target.alive || !InRange(dist, Centre(), target.Centre(), range) || target.leaked) {
        target := null;
      }
      if fireTimer <= 0.0 && target != null {
        FireAtTarget(target);
        fireTimer := 1.0 / fireRate;
      }
    }

    /** `fireAtTarget` with `createProjectile`: a shot goes to the manager only if there is damage and a manager. */
    method FireAtTarget(t: Enemy)
      modifies projectileManager
      ensures projectileManager != null ==> projectileManager.shots == old(projectileManager.shots) + Volley(t)
    {
      var damage := DamageAgainst(kind, t.kind);
      if damage > 0.0 {
        if projectileManager != null {
          projectileManager.AddProjectile(Shot(Centre(), t.Centre(), t, 300.0, damage));
        }
      }
    }

    /** `setEnemiesInRange`: a target still held is kept, otherwise the best target is chosen afresh. */
    method SetEnemiesInRange(enemies: seq<Enemy>, dist: Distance)
      requires forall i :: 0 <= i < |enemies| ==> enemies[i].Valid()
      modifies this`target
      ensures old(HoldsTarget(dist)) ==> target == old(target)
      ensures !old(HoldsTarget(dist)) ==> target == BestTarget(enemies, dist)
    {
      if target != null && target.alive && InRange(dist, Centre(), target.Centre(), range) && !target.leaked {
        return;
      }
      target := FindBestTarget(enemies, dist);
    }

    /** The enemy the tower's strategy picks among the candidates, in list order. */
    function BestTarget(enemies: seq<Enemy>, dist: Distance): (best: Enemy?)
      reads this`position, enemies
      ensures best != null ==> best in enemies && Qualifies(Aim(), dist, best.View(dist))
    {
      var valid := Candidates(Aim(), dist, enemies);
      var k := StrategyPick(targetingStrategy, Aim(), dist, Views(valid, dist));
      StrategyPickIsFirstMinimum(targetingStrategy, Aim(), dist, Views(valid, dist));
      ChosenEnemy(valid, k)
    }

    /** `findBestTarget`: the candidates, in order, handed to the tower's strategy. */
    method FindBestTarget(enemies: seq<Enemy>, dist: Distance) returns (best: Enemy?)
      requires forall i :: 0 <= i < |enemies| ==> enemies[i].Valid()
      ensures best == BestTarget(enemies, dist)
    {
      var valid := Filtered(Aim(), enemies, dist);
      best := SelectTarget(targetingStrategy, valid, this, dist);
    }

    method TakeDamage(damage: real)
      modifies this`currentHp, this`alive
      ensures Vit() == Damaged(old(Vit()), damage)
    {
      if !alive {
        return;
      }
      currentHp := currentHp - damage;
      if currentHp <= 0.0 {
        currentHp := 0.0;
        alive := false;
      }
    }

    /** What a tank sees of the tower. */
    function PostView(): Post
      reads this`alive, this`position
    {
      Post(alive, Centre())
    }

    /** What a plane weighs of the tower: its worth is the cost plus up to 20 for remaining health. */
    function MarkView(): Mark
      reads this`alive, this`position, this`currentHp
    {
      Mark(alive, Centre(), cost as real + currentHp / maxHp * 20.0)
    }
  }

  // ----- Tank targeting ---------------------------------------------------------

  /** What a tank sees of a tower: whether it is alive, and its centre. */
  datatype Post = Post(alive: bool, centre: Point)

  function Posts(ts: seq<Tower>): (ps: seq<Post>)
    reads ts
    ensures |ps| == |ts| && forall i :: 0 <= i < |ts| ==> ps[i] == ts[i].PostView()
  {
    if ts == [] then [] else Posts(ts[..|ts| - 1]) + [ts[|ts| - 1].PostView()]
  }

  /** A live tower within the tank's range of three tiles. */
  predicate InTankRange(at: Point, dist: Distance, p: Post)
  {
    p.alive && PointDistance(dist, at, p.centre) <= TANK_RANGE * TILE
  }

  function TankFlags(at: Point, dist: Distance, ps: seq<Post>): (e: seq<bool>)
    ensures |e| == |ps| && forall i :: 0 <= i < |ps| ==> e[i] == InTankRange(at, dist, ps[i])
  {
    seq(|ps|, i requires 0 <= i < |ps| => InTankRange(at, dist, ps[i]))
  }

  function TankKeys(at: Point, dist: Distance, ps: seq<Post>): (k: seq<real>)
    ensures |k| == |ps| && forall i :: 0 <= i < |ps| ==> k[i] == PointDistance(dist, at, ps[i].centre)
  {
    seq(|ps|, i requires 0 <= i < |ps| => PointDistance(dist, at, ps[i].centre))
  }

  /** The tank's scan of the first `n` towers, from `Double.MAX_VALUE`. */
  function TankScan(at: Point, dist: Distance, ps: seq<Post>, n: nat): Pick
    requires n <= |ps|
  {
    MinScan(TankFlags(at, dist, ps), TankKeys(at, dist, ps), DOUBLE_MAX, n)
  }

  /** The index of the tower a tank at `at` shoots, or None. */
  function TankPick(at: Point, dist: Distance, ps: seq<Post>): (r: Option<nat>)
    ensures r.Some? ==> r.value < |ps|
  {
    TankScan(at, dist, ps, |ps|).index
  }

  /**
   * A tank shoots exactly when some live tower is within three tiles, and
   * then at the nearest such tower, the first of equals.
   */
  lemma TankPickIsNearest(at: Point, dist: Distance, ps: seq<Post>)
    ensures var r := TankPick(at, dist, ps);
      && (r.None? <==> forall j :: 0 <= j < |ps| ==> !InTankRange(at, dist, ps[j]))
      && (r.Some? ==>
            var k := r.value;
            && InTankRange(at, dist, ps[k])
            && (forall j :: 0 <= j < |ps| && InTankRange(at, dist, ps[j]) ==>
                  PointDistance(dist, at, ps[k].centre) <= PointDistance(dist, at, ps[j].centre))
            && (forall j :: 0 <= j < k && InTankRange(at, dist, ps[j]) ==>
                  PointDistance(dist, at, ps[k].centre) < PointDistance(dist, at, ps[j].centre)))
  {
    MinScanIsFirstMinimum(TankFlags(at, dist, ps), TankKeys(at, dist, ps), DOUBLE_MAX, |ps|);
  }

  // ----- Plane -------------------------------------------------------------------

  /** The flight state `update` changes: distance flown, alive, bombed, position. */
  datatype Sortie = Sortie(travel: real, alive: bool, bombed: bool, position: Point)

  /** `getProgress`: the share of the flight covered, 0 for a flight of no length. */
  function ProgressOf(travel: real, total: real): real
  {
    if total > 0.0 then travel / total else 0.0
  }

  /** A progress in [0.4, 0.6] opens the bombing window. */
  predicate InBombingWindow(progress: real)
  {
    0.4 <= progress <= 0.6
  }

  /**
   * `Plane.update`: a dead plane stays as it is; otherwise it flies three
   * tiles a second, dies on reaching the end, else moves to that share of the
   * line from start to end and marks its bombing done inside the window.
   */
  function Flown(s: Sortie, start: Point, end: Point, total: real, dt: real): (r: Sortie)
    ensures !s.alive ==> r == s
    ensures s.alive ==> r.travel == s.travel + PLANE_SPEED * TILE * dt
    ensures s.alive ==> (r.alive <==> r.travel < total)
    ensures s.bombed ==> r.bombed
    ensures r.alive && !s.bombed ==> (r.bombed <==> InBombingWindow(ProgressOf(r.travel, total)))
    ensures s.alive && !r.alive ==> r.bombed == s.bombed && r.position == s.position
  {
    if !s.alive then s
    else
      var travel := s.travel + PLANE_SPEED * TILE * dt;
      if travel >= total then s.(travel := travel, alive := false)
      else
        var progress := ProgressOf(travel, total);
        var position := Point(Lerp(start.x, end.x, progress), Lerp(start.y, end.y, progress));
        Sortie(travel, true, s.bombed || InBombingWindow(progress), position)
  }

  /** The state after flying the time steps in order. */
  function Flights(s: Sortie, start: Point, end: Point, total: real, dts: seq<real>): Sortie
    decreases |dts|
  {
    if dts == [] then s else Flights(Flown(s, start, end, total, dts[0]), start, end, total, dts[1..])
  }

  /** `hasLeaked`: the plane reached the end without bombing. */
  predicate Leaked(s: Sortie, total: real)
  {
    !s.alive && s.travel >= total && !s.bombed
  }

  /** A step of at most a fifth of the flight that starts before 0.4 ends before 0.6. */
  lemma WindowStep(travel: real, step: real, total: real)
    requires total > 0.0 && travel < 0.4 * total && step <= 0.2 * total
    ensures travel + step < 0.6 * total < total
    ensures travel + step >= 0.4 * total ==> InBombingWindow(ProgressOf(travel + step, total))
    ensures travel + step < 0.4 * total ==> ProgressOf(travel + step, total) < 0.4
  {
    var t := travel + step;
    if t >= 0.4 * total {
      assert t / total >= 0.4 by { assert (t / total) * total == t; }
      assert t / total <= 0.6 by { assert (t / total) * total == t; }
    } else {
      assert t / total < 0.4 by { assert (t / total) * total == t; }
    }
  }

  /**
   * With time steps that never carry the plane more than a fifth of its
   * flight, it cannot fly over the bombing window: a plane that has not yet
   * reached 40% bombs before the end and never leaks.
   */
  lemma {:induction false} ShortStepsNeverLeak(s: Sortie, start: Point, end: Point, total: real, dts: seq<real>)
    requires total > 0.0 && s.alive && (!s.bombed ==> s.travel < 0.4 * total)
    requires forall i :: 0 <= i < |dts| ==> PLANE_SPEED * TILE * dts[i] <= 0.2 * total
    ensures !Leaked(Flights(s, start, end, total, dts), total)
    decreases |dts|
  {
    if dts != [] {
      var next := Flown(s, start, end, total, dts[0]);
      if !s.bombed {
        WindowStep(s.travel, PLANE_SPEED * TILE * dts[0], total);
      }
      if next.alive {
        ShortStepsNeverLeak(next, start, end, total, dts[1..]);
      } else {
        FlightsOfDead(next, start, end, total, dts[1..]);
      }
    }
  }

  /** A dead plane stays as it is. */
  lemma {:induction false} FlightsOfDead(s: Sortie, start: Point, end: Point, total: real, dts: seq<real>)
    requires !s.alive
    ensures Flights(s, start, end, total, dts) == s
    decreases |dts|
  {
    if dts != [] {
      FlightsOfDead(s, start, end, total, dts[1..]);
    }
  }

  /** `Plane`: one hit point, three tiles a second on a straight line, worth three power. */
  class Plane {
    const start: Point
    const end: Point
    const totalDistance: real
    const powerValue: int := PLANE_POWER
    const maxHp: real := 1.0
    const width: real := TILE * 0.7
    const height: real := TILE * 0.7
    var position: Point
    var travelDistance: real
    var hasBombed: bool
    var currentHp: real
    var alive: bool

    function Vit(): Vitals
      reads this`currentHp, this`alive
    {
      Vitals(maxHp, currentHp, alive)
    }

    function State(): Sortie
      reads this`travelDistance, this`alive, this`hasBombed, this`position
    {
      Sortie(travelDistance, alive, hasBombed, position)
    }

    /** The plane starts at `start` with full health and the distance to `end`. */
    constructor(start: Point, end: Point, dist: Distance)
      ensures this.start == start && this.end == end && totalDistance == PointDistance(dist, start, end)
      ensures State() == Sortie(0.0, true, false, start) && Vit() == Spawned(1.0)
    {
      this.start := start;
      this.end := end;
      totalDistance := PointDistance(dist, start, end);
      position := start;
      travelDistance := 0.0;
      hasBombed := false;
      currentHp := 1.0;
      alive := true;
    }

    /** `getProgress`. */
    function Progress(): real
      reads this`travelDistance
    {
      ProgressOf(travelDistance, totalDistance)
    }

    /** `hasLeaked`. */
    predicate HasLeaked()
      reads this`travelDistance, this`alive, this`hasBombed, this`position
    {
      Leaked(State(), totalDistance)
    }

    /** `update`, as `Flown` states it; the plane's own bombing stub does nothing. */
    method Update(dt: real)
      modifies this`travelDistance, this`alive, this`hasBombed, this`position
      ensures State() == Flown(old(State()), start, end, totalDistance, dt)
    {
      if !alive {
        return;
      }
      var moveDistance := PLANE_SPEED * TILE * dt;
      travelDistance := travelDistance + moveDistance;
      if travelDistance >= totalDistance {
        alive := false;
        return;
      }
      var progress := Progress();
      position := Point(Lerp(start.x, end.x, progress), Lerp(start.y, end.y, progress));
      if !hasBombed && progress >= 0.4 && progress <= 0.6 {
        hasBombed := true;
      }
    }

    method Kill()
      modifies this`currentHp, this`alive
      ensures Vit() == Killed(old(Vit()))
    {
      currentHp := 0.0;
      alive := false;
    }

    /**
     * `performBombingOnTargets`: once only.  The bomber picks the row or
     * column of greatest tower worth; if one is worth more than nothing it
     * bombs every tile centre along it and marks its bombing done.
     */
    method PerformBombingOnTargets(towers: seq<Tower>, dist: Distance)
      requires Distinct(towers)
      modifies this`hasBombed, towers
      ensures old(hasBombed) ==> hasBombed && forall j :: 0 <= j < |towers| ==> towers[j].Vit() == old(towers[j].Vit())
      ensures !old(hasBombed) ==>
        var pick := BombPick(old(Marks(towers)));
        && hasBombed == pick.Some?
        && forall j :: 0 <= j < |towers| ==>
             towers[j].Vit() == if pick.Some? then Blasts(old(towers[j].Vit()), towers[j].Centre(), dist, BombPoints(pick.value.line))
                                else old(towers[j].Vit())
      ensures forall j :: 0 <= j < |towers| ==> towers[j].position == old(towers[j].position)
    {
      if hasBombed {
        return;
      }
      var optimalTarget := FindOptimalRowOrColumn(towers);
      if optimalTarget.Some? {
        BombRowOrColumn(optimalTarget.value.line, towers, dist);
        hasBombed := true;
      }
    }
  }

  // ----- The bomber's choice -------------------------------------------------------

  /** What the bomber weighs of a tower: alive, centre and worth. */
  datatype Mark = Mark(alive: bool, centre: Point, worth: real)

  function Marks(ts: seq<Tower>): (ms: seq<Mark>)
    reads ts
    ensures |ms| == |ts| && forall i :: 0 <= i < |ts| ==> ms[i] == ts[i].MarkView()
  {
    if ts == [] then [] else Marks(ts[..|ts| - 1]) + [ts[|ts| - 1].MarkView()]
  }

  /** A grid row or column. */
  datatype Line = Row(index: int) | Column(index: int)

  /** The bomber's answer: the line and its worth. */
  datatype BombTarget = BombTarget(line: Line, totalValue: real)

  /** The radius and damage of a bomb: a tile and a half, fifty hit points. */
  const BOMB_RADIUS: real := TILE * 1.5
  const BOMB_DAMAGE: real := 50.0

  /** The order the bomber considers lines in: rows 0 to 8, then columns 0 to 10. */
  function Lines(): (ls: seq<Line>)
    ensures |ls| == GRID_H + GRID_W
    ensures forall i :: 0 <= i < GRID_H ==> ls[i] == Row(i)
    ensures forall i :: 0 <= i < GRID_W ==> ls[GRID_H + i] == Column(i)
  {
    seq(GRID_H, i => Row(i)) + seq(GRID_W, i => Column(i))
  }

  function Abs(x: real): real
  {
    if x < 0.0 then -x else x
  }

  /**
   * `calculateRowValue`/`calculateColumnValue` count a tower whose centre is
   * within a tile and a half of the line's top or left edge.
   */
  predicate Covers(line: Line, m: Mark)
  {
    match line
    case Row(r) => Abs(m.centre.y - r as real * TILE) <= BOMB_RADIUS
    case Column(c) => Abs(m.centre.x - c as real * TILE) <= BOMB_RADIUS
  }

  /** The summed worth of the live towers a line covers. */
  function LineValue(line: Line, ms: seq<Mark>): real
  {
    if ms == [] then 0.0
    else
      var m := ms[|ms| - 1];
      LineValue(line, ms[..|ms| - 1]) + (if m.alive && Covers(line, m) then m.worth else 0.0)
  }

  /** A line of positive value covers some live tower. */
  lemma {:induction false} LineValuePositive(line: Line, ms: seq<Mark>)
    ensures LineValue(line, ms) > 0.0 ==> exists i :: 0 <= i < |ms| && ms[i].alive && Covers(line, ms[i])
    decreases |ms|
  {
    if ms != [] {
      var n := |ms| - 1;
      LineValuePositive(line, ms[..n]);
      if LineValue(line, ms[..n]) > 0.0 {
        var i :| 0 <= i < n && ms[..n][i].alive && Covers(line, ms[..n][i]);
        assert ms[i] == ms[..n][i];
      }
    }
  }

  function LineValues(ms: seq<Mark>): (vs: seq<real>)
    ensures |vs| == |Lines()| && forall i :: 0 <= i < |vs| ==> vs[i] == LineValue(Lines()[i], ms)
  {
    seq(|Lines()|, i requires 0 <= i < |Lines()| => LineValue(Lines()[i], ms))
  }

  function AllLines(): (e: seq<bool>)
    ensures |e| == |Lines()| && forall i :: 0 <= i < |e| ==> e[i]
  {
    seq(|Lines()|, _ => true)
  }

  /** The bomber's scan of the first `n` lines, from a best value of 0. */
  function BombScan(ms: seq<Mark>, n: nat): Pick
    requires n <= |Lines()|
  {
    MaxScan(AllLines(), LineValues(ms), 0.0, n)
  }

  /** One more line: it replaces the best only with a strictly greater value. */
  lemma BombScanStep(ms: seq<Mark>, n: nat)
    requires n < |Lines()|
    ensures var p := BombScan(ms, n); var v := LineValue(Lines()[n], ms);
      BombScan(ms, n + 1) == if v > p.best then Pick(v, Some(n)) else p
  {
  }

  function TargetOf(p: Pick): (t: Option<BombTarget>)
  {
    if p.index.Some? && p.index.value < |Lines()| then Some(BombTarget(Lines()[p.index.value], p.best)) else None
  }

  /** `findOptimalRowOrColumn`. */
  function BombPick(ms: seq<Mark>): Option<BombTarget>
  {
    TargetOf(BombScan(ms, |Lines()|))
  }

  /**
   * The bomber picks the first line of greatest value, rows before columns,
   * with the value it reports; it picks nothing exactly when no line is worth
   * more than 0, so it never bombs a line without a live tower near it.
   */
  lemma BombPickIsFirstMaximum(ms: seq<Mark>)
    ensures var r := BombPick(ms);
      && (r.None? <==> forall i :: 0 <= i < |Lines()| ==> LineValue(Lines()[i], ms) <= 0.0)
      && (r.Some? ==>
            && r.value.totalValue == LineValue(r.value.line, ms) > 0.0
            && (exists i :: 0 <= i < |ms| && ms[i].alive && Covers(r.value.line, ms[i]))
            && (forall i :: 0 <= i < |Lines()| ==> LineValue(Lines()[i], ms) <= r.value.totalValue)
            && (exists k :: 0 <= k < |Lines()| && Lines()[k] == r.value.line
                  && forall i :: 0 <= i < k ==> LineValue(Lines()[i], ms) < r.value.totalValue))
  {
    MaxScanIsFirstMaximum(AllLines(), LineValues(ms), 0.0, |Lines()|);
    var r := BombPick(ms);
    LineValuePositive(if r.Some? then r.value.line else Row(0), ms);
    if r.Some? {
      var k := BombScan(ms, |Lines()|).index.value;
      assert Lines()[k] == r.value.line;
    }
  }

  /** The bomb points along a line: the centre of every tile in it. */
  function BombPoints(line: Line): (ps: seq<Point>)
    ensures line.Row? ==> |ps| == GRID_W && forall c :: 0 <= c < GRID_W ==>
      ps[c] == Point(c as real * TILE + TILE / 2.0, line.index as real * TILE + TILE / 2.0)
    ensures line.Column? ==> |ps| == GRID_H && forall r :: 0 <= r < GRID_H ==>
      ps[r] == Point(line.index as real * TILE + TILE / 2.0, r as real * TILE + TILE / 2.0)
  {
    match line
    case Row(r) => seq(GRID_W, c => Point(c as real * TILE + TILE / 2.0, r as real * TILE + TILE / 2.0))
    case Column(c) => seq(GRID_H, r => Point(c as real * TILE + TILE / 2.0, r as real * TILE + TILE / 2.0))
  }

  /** One bomb at `p` on a tower centred at `centre`: fifty damage within the radius. */
  function Blasted(v: Vitals, centre: Point, dist: Distance, p: Point): Vitals
  {
    if PointDistance(dist, centre, p) <= BOMB_RADIUS then Damaged(v, BOMB_DAMAGE) else v
  }

  /** The bombs at the points, in order. */
  function Blasts(v: Vitals, centre: Point, dist: Distance, ps: seq<Point>): Vitals
  {
    if ps == [] then v else Blasted(Blasts(v, centre, dist, ps[..|ps| - 1]), centre, dist, ps[|ps| - 1])
  }

  /** A tower out of reach of every bomb point, or already dead, is untouched. */
  lemma {:induction false} BlastsSpareFarTowers(v: Vitals, centre: Point, dist: Distance, ps: seq<Point>)
    requires !v.alive || forall i :: 0 <= i < |ps| ==> PointDistance(dist, centre, ps[i]) > BOMB_RADIUS
    ensures Blasts(v, centre, dist, ps) == v
    decreases |ps|
  {
    if ps != [] {
      BlastsSpareFarTowers(v, centre, dist, ps[..|ps| - 1]);
    }
  }

  /**
   * Bombing keeps a tower's vitals sound and takes at most fifty hit points
   * per bomb point.
   */
  lemma {:induction false} BlastsKeepSound(v: Vitals, centre: Point, dist: Distance, ps: seq<Point>)
    requires Sound(v)
    ensures Sound(Blasts(v, centre, dist, ps))
    ensures Blasts(v, centre, dist, ps).currentHp >= v.currentHp - BOMB_DAMAGE * |ps| as real
    ensures Blasts(v, centre, dist, ps).maxHp == v.maxHp
    decreases |ps|
  {
    if ps != [] {
      BlastsKeepSound(v, centre, dist, ps[..|ps| - 1]);
      DamagedSound(Blasts(v, centre, dist, ps[..|ps| - 1]), BOMB_DAMAGE);
    }
  }

  /** `calculateRowValue`/`calculateColumnValue`: one pass over the towers. */
  method CalculateLineValue(line: Line, towers: seq<Tower>) returns (totalValue: real)
    ensures totalValue == LineValue(line, Marks(towers))
  {
    totalValue := 0.0;
    ghost var ms := Marks(towers);
    for i := 0 to |towers|
      invariant totalValue == LineValue(line, ms[..i])
    {
      var tower := towers[i];
      assert ms[..i + 1][..i] == ms[..i];
      assert ms[i] == tower.MarkView();
      if tower.alive {
        var coordinate := if line.Row? then tower.position.y + tower.height / 2.0 else tower.position.x + tower.width / 2.0;
        if Abs(coordinate - line.index as real * TILE) <= BOMB_RADIUS {
          totalValue := totalValue + (tower.cost as real + tower.currentHp / tower.maxHp * 20.0);
        }
      }
    }
    assert ms[..|towers|] == ms;
  }

  /** `findOptimalRowOrColumn`: the nine rows, then the eleven columns, keeping a strictly better line. */
  method FindOptimalRowOrColumn(towers: seq<Tower>) returns (bestTarget: Option<BombTarget>)
    ensures bestTarget == BombPick(Marks(towers))
  {
    ghost var ms := Marks(towers);
    bestTarget := None;
    var maxValue := 0.0;
    for row := 0 to GRID_H
      invariant var p := BombScan(ms, row); p.best == maxValue && bestTarget == TargetOf(p)
    {
      maxValue, bestTarget := ConsiderLine(ms, row, Row(row), towers, maxValue, bestTarget);
    }
    for col := 0 to GRID_W
      invariant var p := BombScan(ms, GRID_H + col); p.best == maxValue && bestTarget == TargetOf(p)
    {
      maxValue, bestTarget := ConsiderLine(ms, GRID_H + col, Column(col), towers, maxValue, bestTarget);
    }
  }

  /** One iteration of either loop of `findOptimalRowOrColumn`: the `n`-th line of the scan. */
  method ConsiderLine(ghost ms: seq<Mark>, n: nat, line: Line, towers: seq<Tower>, maxValue: real, bestTarget: Option<BombTarget>)
    returns (maxValue': real, bestTarget': Option<BombTarget>)
    requires n < |Lines()| && Lines()[n] == line && ms == Marks(towers)
    requires var p := BombScan(ms, n); p.best == maxValue && bestTarget == TargetOf(p)
    ensures var p := BombScan(ms, n + 1); p.best == maxValue' && bestTarget' == TargetOf(p)
  {
    BombScanStep(ms, n);
    var value := CalculateLineValue(line, towers);
    if value > maxValue {
      maxValue', bestTarget' := value, Some(BombTarget(line, value));
    } else {
      maxValue', bestTarget' := maxValue, bestTarget;
    }
  }

  /** `bombRowOrColumn`: a bomb at every tile centre of the line, in order. */
  method BombRowOrColumn(line: Line, towers: seq<Tower>, dist: Distance)
    requires Distinct(towers)
    modifies towers
    ensures forall j :: 0 <= j < |towers| ==>
      towers[j].Vit() == Blasts(old(towers[j].Vit()), towers[j].Centre(), dist, BombPoints(line))
    ensures forall j :: 0 <= j < |towers| ==> towers[j].position == old(towers[j].position)
  {
    var points := BombPoints(line);
    ghost var before := seq(|towers|, j requires 0 <= j < |towers| reads towers => towers[j].Vit());
    for k := 0 to |points|
      invariant forall j :: 0 <= j < |towers| ==> towers[j].position == old(towers[j].position)
      invariant forall j :: 0 <= j < |towers| ==>
        towers[j].Vit() == Blasts(before[j], towers[j].Centre(), dist, points[..k])
    {
      assert points[..k + 1][..k] == points[..k];
      DamageTowersInRadius(points[k], BOMB_RADIUS, BOMB_DAMAGE, towers, dist);
    }
    assert points[..|points|] == points;
  }

  /** `damageTowersInRadius`: every live tower centred within the radius takes the damage. */
  method DamageTowersInRadius(center: Point, radius: real, damage: real, towers: seq<Tower>, dist: Distance)
    requires Distinct(towers)
    modifies towers
    ensures forall j :: 0 <= j < |towers| ==> towers[j].position == old(towers[j].position)
    ensures forall j :: 0 <= j < |towers| ==>
      towers[j].Vit() == if PointDistance(dist, towers[j].Centre(), center) <= radius
                         then Damaged(old(towers[j].Vit()), damage) else old(towers[j].Vit())
  {
    for i := 0 to |towers|
      invariant forall j :: 0 <= j < |towers| ==> towers[j].position == old(towers[j].position)
      invariant forall j :: 0 <= j < i ==>
        towers[j].Vit() == if PointDistance(dist, towers[j].Centre(), center) <= radius
                           then Damaged(old(towers[j].Vit()), damage) else old(towers[j].Vit())
      invariant forall j :: i <= j < |towers| ==> towers[j].Vit() == old(towers[j].Vit())
    {
      var tower := towers[i];
      DistinctAt(towers, i);
      if tower.alive {
        var distance := PointDistance(dist, tower.Centre(), center);
        if distance <= radius {
          tower.TakeDamage(damage);
        }
      }
    }
  }

  // ----- Anti-air --------------------------------------------------------------------

  /** What a battery sees of a plane: alive, and its progress. */
  datatype Blip = Blip(alive: bool, progress: real)

  function Blips(ps: seq<Plane>): (bs: seq<Blip>)
    reads ps
    ensures |bs| == |ps| && forall i :: 0 <= i < |ps| ==> bs[i] == Blip(ps[i].alive, ps[i].Progress())
  {
    if ps == [] then [] else Blips(ps[..|ps| - 1]) + [Blip(ps[|ps| - 1].alive, ps[|ps| - 1].Progress())]
  }

  function BlipFlags(bs: seq<Blip>): (e: seq<bool>)
    ensures |e| == |bs| && forall i :: 0 <= i < |bs| ==> e[i] == bs[i].alive
  {
    seq(|bs|, i requires 0 <= i < |bs| => bs[i].alive)
  }

  function BlipKeys(bs: seq<Blip>): (k: seq<real>)
    ensures |k| == |bs| && forall i :: 0 <= i < |bs| ==> k[i] == bs[i].progress
  {
    seq(|bs|, i requires 0 <= i < |bs| => bs[i].progress)
  }

  /** The battery's scan of the first `n` planes, from a best progress of -1. */
  function SkyScan(bs: seq<Blip>, n: nat): Pick
    requires n <= |bs|
  {
    MaxScan(BlipFlags(bs), BlipKeys(bs), -1.0, n)
  }

  function SkyPick(bs: seq<Blip>): (r: Option<nat>)
    ensures r.Some? ==> r.value < |bs|
  {
    SkyScan(bs, |bs|).index
  }

  /**
   * A battery picks the live plane furthest along its run, the first of
   * equals; with progress never below 0 it picks nothing only when no plane
   * is alive.
   */
  lemma SkyPickIsFurthest(bs: seq<Blip>)
    ensures var r := SkyPick(bs);
      && (r.Some? ==>
            && bs[r.value].alive
            && (forall j :: 0 <= j < |bs| && bs[j].alive ==> bs[j].progress <= bs[r.value].progress)
            && (forall j :: 0 <= j < r.value && bs[j].alive ==> bs[j].progress < bs[r.value].progress))
      && ((forall j :: 0 <= j < |bs| ==> bs[j].progress >= 0.0) ==>
            (r.None? <==> forall j :: 0 <= j < |bs| ==> !bs[j].alive))
  {
    MaxScanIsFirstMaximum(BlipFlags(bs), BlipKeys(bs), -1.0, |bs|);
  }

  /**
   * `AntiAir`: a battery with global coverage, a hit chance and a cost, one
   * shot a second.  `random.nextDouble()` is the `roll` argument.
   */
  class AntiAir {
    const hitChance: real
    const cost: int
    const maxHp: real := 100.0
    var currentHp: real
    var alive: bool
    var fireTimer: real
    var target: Plane?

    constructor(hitChance: real, cost: int)
      ensures this.hitChance == hitChance && this.cost == cost
      ensures currentHp == 100.0 && alive && fireTimer == 0.0 && target == null
    {
      this.hitChance := hitChance;
      this.cost := cost;
      currentHp := 100.0;
      alive := true;
      fireTimer := 0.0;
      target := null;
    }

    /** Whether `update` fires this frame: alive, timer run out, and a live target. */
    predicate Fires(dt: real)
      reads this`alive, this`fireTimer, this`target, PlaneOpt(target)
    {
      alive && fireTimer - dt <= 0.0 && target != null && target.alive
    }

    /**
     * `update`: a dead battery does nothing; otherwise the timer counts down,
     * and with it run out and a live target the battery fires, restarting
     * the timer at one second.
     */
    method Update(dt: real, roll: real)
      modifies this`fireTimer, this`target, PlaneOpt(target)
      ensures !old(alive) ==> fireTimer == old(fireTimer) && target == old(target)
      ensures old(alive) && !old(Fires(dt)) ==> fireTimer == old(fireTimer) - dt && target == old(target)
      ensures old(Fires(dt)) ==>
        && fireTimer == 1.0
        && (roll < hitChance ==> target == null && old(target).Vit() == Killed(old(target.Vit())))
        && (roll >= hitChance ==> target == old(target))
      ensures old(target) != null && !(old(Fires(dt)) && roll < hitChance) ==> old(target).Vit() == old(target.Vit())
      ensures old(target) != null ==> old(target).State().travel == old(target.State().travel)
      ensures old(target) != null ==>
        old(target).position == old(target.position) && old(target).hasBombed == old(target.hasBombed)
    {
      if !alive {
        return;
      }
      fireTimer := fireTimer - dt;
      if fireTimer <= 0.0 && target != null && target.alive {
        FireAtPlane(target, roll);
        fireTimer := 1.0;
      }
    }

    /** `fireAtPlane`: a roll below the hit chance destroys the plane and clears the target. */
    method FireAtPlane(plane: Plane, roll: real)
      modifies this`target, plane
      ensures roll < hitChance ==> plane.Vit() == Killed(old(plane.Vit())) && target == null
      ensures roll >= hitChance ==> plane.Vit() == old(plane.Vit()) && target == old(target)
      ensures plane.travelDistance == old(plane.travelDistance) && plane.hasBombed == old(plane.hasBombed)
      ensures plane.position == old(plane.position)
    {
      if roll < hitChance {
        plane.Kill();
        target := null;
      }
    }

    /** `setPlanesInRange`: a live target is kept, otherwise the best plane is chosen. */
    method SetPlanesInRange(planes: seq<Plane>)
      modifies this`target
      ensures old(target != null && target.alive) ==> target == old(target)
      ensures !old(target != null && target.alive) ==> target == ChosenPlane(planes, SkyPick(Blips(planes)))
    {
      if target != null && target.alive {
        return;
      }
      target := FindBestTarget(planes);
    }

    /** `findBestTarget`: the live plane of highest progress, from -1. */
    method FindBestTarget(planes: seq<Plane>) returns (bestTarget: Plane?)
      ensures bestTarget == ChosenPlane(planes, SkyPick(Blips(planes)))
    {
      bestTarget := null;
      var highestProgress := -1.0;
      ghost var bs := Blips(planes);
      for i := 0 to |planes|
        invariant var p := SkyScan(bs, i); p.best == highestProgress && bestTarget == ChosenPlane(planes, p.index)
      {
        var plane := planes[i];
        if plane.alive {
          var progress := plane.Progress();
          if progress > highestProgress {
            highestProgress := progress;
            bestTarget := plane;
          }
        }
      }
    }
  }

  // ----- Fire and move behaviours ------------------------------------------------------

  /** A target the tower fire behaviours will shoot: present, alive and not leaked. */
  predicate Shootable(target: Enemy?)
    reads EnemyOpt(target)
  {
    target != null && target.alive && !target.leaked
  }

  /**
   * `PROJECTILE_FIRE`: it reports a shot for exactly the shootable targets.
   * (The projectile it would create, through a `createProjectile` overload
   * that does not exist, is not modelled.)
   */
  method ProjectileFire(target: Enemy?) returns (fired: bool)
    ensures fired <==> Shootable(target)
  {
    if target == null || !target.alive || target.leaked {
      return false;
    }
    return true;
  }

  /** `INSTANT_HIT`: a shootable target the tower can damage takes the damage at once. */
  method InstantHit(tower: Tower, target: Enemy?) returns (fired: bool)
    modifies EnemyOpt(target)
    ensures fired <==> old(Shootable(target)) && DamageAgainst(tower.kind, target.kind) > 0.0
    ensures fired ==> target.Vit() == Damaged(old(target.Vit()), DamageAgainst(tower.kind, target.kind))
    ensures !fired && target != null ==> target.Vit() == old(target.Vit())
    ensures target != null ==> target.Walking() == old(target.Walking()) && target.position == old(target.position)
  {
    if target == null || !target.alive || target.leaked {
      return false;
    }
    var damage := DamageAgainst(tower.kind, target.kind);
    if damage > 0.0 {
      target.TakeDamage(damage);
      return true;
    }
    return false;
  }

  /**
   * `AA_CHANCE_BASED`: `hitChance` is the firing unit's hit chance when it is
   * an anti-air battery and None otherwise.  A live target is killed, and a
   * shot reported, only on a roll below the hit chance.
   */
  method AAChanceBased(hitChance: Option<real>, target: Enemy?, roll: real) returns (fired: bool)
    modifies EnemyOpt(target)
    ensures fired <==> target != null && old(target.alive) && hitChance.Some? && roll < hitChance.value
    ensures fired ==> target.Vit() == Killed(old(target.Vit()))
    ensures !fired && target != null ==> target.Vit() == old(target.Vit())
    ensures target != null ==> target.Walking() == old(target.Walking()) && target.position == old(target.position)
  {
    if target == null || !target.alive {
      return false;
    }
    if hitChance.Some? {
      if roll < hitChance.value {
        target.Kill();
        return true;
      }
    }
    return false;
  }

  /** `MoveBehavior.move` applied to an enemy. */
  method MoveEntity(b: MoveBehavior, e: Enemy, dt: real)
    modifies e`position
    ensures e.position == Moved(b, e.alive, old(e.position), dt)
  {
    if b.VelocityBased? && e.alive {
      var v := b.velocity;
      var x := e.position.x + v.x * dt;
      var y := e.position.y + v.y * dt;
      assert Point(x, y) == Moved(b, true, e.position, dt);
      e.position := Point(x, y);
    }
  }
}
