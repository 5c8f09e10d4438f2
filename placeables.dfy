/**
 * The FX engine's placeables: the speed bump, which slows the enemies on it
 * until its time runs out, and the bomb, which explodes once when an enemy
 * comes near and damages every enemy in its blast.  Both are one-way state
 * machines over their own fields.
 */
module Placeables {
  import opened Numerics
  import opened Math2D
  import opened Vitals
  import opened Targeting
  import opened Actors

  /** A speed bump reaches 48 px, wide enough for both lanes. */
  const BUMP_RADIUS: real := 48.0
  /** Each tick on the bump refreshes a half-second slow. */
  const BUMP_SLOW_TIME: real := 0.5
  /** How long the explosion is shown. */
  const EXPLOSION_DURATION: real := 0.5
  /** The blast reaches 1.2 times the trigger range. */
  const BLAST_FACTOR: real := 1.2

  /** An enemy still in play (alive, not at the castle) within `reach` pixels of the point. */
  predicate InPlayWithin(e: Enemy, px: real, py: real, reach: real, dist: Distance)
    reads e`alive, e`reachedEnd, e`x, e`y
  {
    e.alive && !e.reachedEnd && dist(px, py, e.x, e.y) <= reach
  }

  // ---------------------------------------------------------------------
  // Speed bump
  // ---------------------------------------------------------------------

  class SpeedBump {
    const x: real
    const y: real
    const slowMultiplier: real
    const duration: real
    const effectRadius: real
    const spriteIndex: int
    var remainingTime: real
    var active: bool
    var affectedEnemies: set<Enemy>

    /** `new SpeedBump(x, y, slowMultiplier, duration, spriteIndex)`: active, with its whole duration left. */
    constructor (x: real, y: real, slowMultiplier: real, duration: real, spriteIndex: int)
      ensures this.x == x && this.y == y && this.slowMultiplier == slowMultiplier
      ensures this.duration == duration && this.spriteIndex == spriteIndex && effectRadius == BUMP_RADIUS
      ensures remainingTime == duration && active && affectedEnemies == {}
    {
      this.x, this.y := x, y;
      this.slowMultiplier, this.duration := slowMultiplier, duration;
      this.spriteIndex, effectRadius := spriteIndex, BUMP_RADIUS;
      remainingTime, active, affectedEnemies := duration, true, {};
    }

    /** Whether the bump slows `e` this tick. */
    predicate Slows(e: Enemy, dist: Distance)
      reads e`alive, e`reachedEnd, e`x, e`y
    {
      InPlayWithin(e, x, y, effectRadius, dist)
    }

    /** The enemies of `es[..n]` the bump slows. */
    function SlowedAmong(es: seq<Enemy>, n: nat, dist: Distance): set<Enemy>
      requires n <= |es|
      reads EnemySet(es)`alive, EnemySet(es)`reachedEnd, EnemySet(es)`x, EnemySet(es)`y
    {
      set j | 0 <= j < n && Slows(es[j], dist) :: es[j]
    }

    /**
     * The countdown one `update` leaves from time `t0` and activity `a0`: an
     * active bump loses `dt` seconds and is spent once none are left; a spent
     * one stays spent with its time.
     */
    predicate CountedDown(t0: real, a0: bool, dt: real)
      reads this`remainingTime, this`active
    {
      if a0 then remainingTime == t0 - dt && (active <==> remainingTime > 0.0) else !active && remainingTime == t0
    }

    /**
     * `update`: an inactive bump does nothing.  An active one loses `dt`
     * seconds; once none are left it turns inactive for good and slows no one
     * on that tick.  Otherwise the affected set becomes exactly the enemies in
     * play within 48 px, and each of them, and no other, takes the
     * half-second slow (once, however often it is listed).
     */
    method Update(dt: real, enemies: seq<Enemy>, dist: Distance)
      modifies this`remainingTime, this`active, this`affectedEnemies
      modifies EnemySet(enemies)`slowMultiplier, EnemySet(enemies)`slowDuration
      ensures !old(active) ==> !active && remainingTime == old(remainingTime) && affectedEnemies == old(affectedEnemies)
      ensures !old(active) ==> unchanged(EnemySet(enemies))
      ensures old(active) ==> remainingTime == old(remainingTime) - dt && (active <==> remainingTime > 0.0)
      ensures old(active) && !active ==> affectedEnemies == old(affectedEnemies) && unchanged(EnemySet(enemies))
      ensures active ==> affectedEnemies == SlowedAmong(enemies, |enemies|, dist)
      ensures active ==> forall e | e in EnemySet(enemies) ::
        e.SlowOf() == if e in affectedEnemies then Applied(old(e.SlowOf()), slowMultiplier, BUMP_SLOW_TIME) else old(e.SlowOf())
    {
      if !active {
        return;
      }
      remainingTime := remainingTime - dt;
      if remainingTime <= 0.0 {
        active := false;
        return;
      }
      SlowInRange(enemies, dist);
    }

    /**
     * The scan of `update` on a live bump: the affected set is rebuilt from
     * the enemies in range, each of which takes the slow.
     */
    method SlowInRange(enemies: seq<Enemy>, dist: Distance)
      modifies this`affectedEnemies
      modifies EnemySet(enemies)`slowMultiplier, EnemySet(enemies)`slowDuration
      ensures affectedEnemies == SlowedAmong(enemies, |enemies|, dist)
      ensures forall e | e in EnemySet(enemies) ::
        e.SlowOf() == if e in affectedEnemies then Applied(old(e.SlowOf()), slowMultiplier, BUMP_SLOW_TIME) else old(e.SlowOf())
    {
      affectedEnemies := {};
      ghost var starts := map e | e in EnemySet(enemies) :: e.SlowOf();
      var i := 0;
      while i < |enemies|
        invariant 0 <= i <= |enemies|
        invariant affectedEnemies == SlowedAmong(enemies, i, dist)
        invariant forall e | e in EnemySet(enemies) ::
          e.SlowOf() == if e in affectedEnemies then Applied(starts[e], slowMultiplier, BUMP_SLOW_TIME) else starts[e]
      {
        var enemy := enemies[i];
        assert SlowedAmong(enemies, i + 1, dist) == SlowedAmong(enemies, i, dist) + (if Slows(enemy, dist) then {enemy} else {});
        if enemy.alive && !enemy.reachedEnd {
          var distance := dist(x, y, enemy.x, enemy.y);
          if distance <= effectRadius {
            SlowOnce(enemies, i, enemy, slowMultiplier, affectedEnemies, starts);
            affectedEnemies := affectedEnemies + {enemy};
          }
        }
        i := i + 1;
      }
    }


    /**
     * `getRemainingPercent`: 0 once inactive; while active, the share of the
     * duration left, which lies in (0, 1] while the time left is positive and
     * at most the duration.  An active bump of duration 0 gives 0 here, where
     * Java's 0/0 is NaN.
     */
    function RemainingPercent(): (r: real)
      reads this`active, this`remainingTime
      ensures !active ==> r == 0.0
      ensures active && 0.0 < remainingTime <= duration ==> 0.0 < r <= 1.0
      ensures active && duration != 0.0 ==> r * duration == remainingTime
    {
      if active then (if duration != 0.0 then remainingTime / duration else 0.0) else 0.0
    }
  }

  /**
   * One `applySlow` on the enemy at index `i`: enemies already slowed this tick
   * keep their slow (applying the same slow twice is applying it once), the
   * enemy at `i` joins them, and no other enemy changes.
   */
  method SlowOnce(es: seq<Enemy>, i: nat, e: Enemy, multiplier: real, slowed: set<Enemy>, ghost start: map<Enemy, Slow>)
    requires i < |es| && e == es[i] && EnemySet(es) <= start.Keys
    requires forall d | d in EnemySet(es) :: d.SlowOf() == if d in slowed then Applied(start[d], multiplier, BUMP_SLOW_TIME) else start[d]
    modifies e`slowMultiplier, e`slowDuration
    ensures forall d | d in EnemySet(es) :: d.SlowOf() == if d in slowed + {e} then Applied(start[d], multiplier, BUMP_SLOW_TIME) else start[d]
  {
    if e in slowed {
      AppliedIdempotent(start[e], multiplier, BUMP_SLOW_TIME);
    }
    e.ApplySlow(multiplier, BUMP_SLOW_TIME);
  }

  // ---------------------------------------------------------------------
  // Bomb
  // ---------------------------------------------------------------------

  /** What a hit can change on an enemy: its health and an aircraft's going-down fields. */
  datatype Wound = Wound(health: Health, destroying: bool, destructionTime: real, triggered: bool)

  function WoundOf(e: Enemy): Wound
    reads e`currentHp, e`alive, e`isDestroying, e`destructionTime, e`hasTriggeredStrike
  {
    Wound(e.HealthOf(), e.isDestroying, e.destructionTime, e.hasTriggeredStrike)
  }

  /** One `takeDamage`: a living aircraft is downed, any other enemy is `Damaged`. */
  function Wounded(aircraft: bool, w: Wound, damage: int): (r: Wound)
    ensures !w.health.alive ==> r == w
    ensures aircraft && w.health.alive ==> r == Wound(Health(0, false), true, 0.0, true)
    ensures !aircraft ==> r == w.(health := Damaged(w.health, damage))
  {
    var downed := aircraft && w.health.alive;
    Wound(Hit(aircraft, w.health, damage), downed || w.destroying,
          if downed then 0.0 else w.destructionTime, downed || w.triggered)
  }

  /** `n` hits of the same damage. */
  function WoundedTimes(aircraft: bool, w: Wound, damage: int, n: nat): Wound
  {
    if n == 0 then w else Wounded(aircraft, WoundedTimes(aircraft, w, damage, n - 1), damage)
  }

  /**
   * Later hits on an enemy killed by an earlier one change nothing, and an
   * aircraft is downed by its first hit: more hits are the same as one.
   */
  lemma {:induction false} WoundedTimesAircraft(w: Wound, damage: int, n: nat)
    requires n >= 1
    ensures WoundedTimes(true, w, damage, n) == Wounded(true, w, damage)
  {
    if n > 1 {
      WoundedTimesAircraft(w, damage, n - 1);
    }
  }

  /** Hits on a dead enemy change nothing: bombs never bring one back. */
  lemma {:induction false} WoundedTimesDead(aircraft: bool, w: Wound, damage: int, n: nat)
    requires !w.health.alive
    ensures WoundedTimes(aircraft, w, damage, n) == w
  {
    if n > 0 {
      WoundedTimesDead(aircraft, w, damage, n - 1);
    }
  }

  /** A ground enemy hit `n` times has the health of `n` equal hits. */
  lemma {:induction false} WoundedTimesGround(w: Wound, damage: int, n: nat)
    ensures WoundedTimes(false, w, damage, n).health == Repeated(w.health, damage, n)
    ensures WoundedTimes(false, w, damage, n).(health := w.health) == w
  {
    if n > 0 {
      WoundedTimesGround(w, damage, n - 1);
    }
  }

  class Bomb {
    const x: real
    const y: real
    const damage: int
    const radius: real
    const spriteIndex: int
    var armed: bool
    var exploded: bool
    var explosionTimer: real

    /** A bomb is armed exactly until it has exploded. */
    ghost predicate Valid()
      reads this`armed, this`exploded
    {
      armed <==> !exploded
    }

    /** `new Bomb(x, y, damage, radius, spriteIndex)`: armed, not exploded, timer at 0. */
    constructor (x: real, y: real, damage: int, radius: real, spriteIndex: int)
      ensures Valid() && armed && !exploded && explosionTimer == 0.0
      ensures this.x == x && this.y == y && this.damage == damage && this.radius == radius && this.spriteIndex == spriteIndex
    {
      this.x, this.y, this.damage, this.radius, this.spriteIndex := x, y, damage, radius, spriteIndex;
      armed, exploded, explosionTimer := true, false, 0.0;
    }

    /** An enemy in play within the trigger range of `radius` tiles. */
    predicate Triggers(e: Enemy, dist: Distance)
      reads e`alive, e`reachedEnd, e`x, e`y
    {
      InPlayWithin(e, x, y, radius * PIXELS_PER_TILE, dist)
    }

    /**
     * Whether the blast reaches `e`: not at the castle and within 1.2 times
     * the trigger range.  The source also asks for a living enemy; a hit on
     * a dead one changes nothing, so leaving that test out here loses nothing.
     */
    predicate InBlast(e: Enemy, dist: Distance)
      reads e`reachedEnd, e`x, e`y
    {
      !e.reachedEnd && dist(x, y, e.x, e.y) <= radius * PIXELS_PER_TILE * BLAST_FACTOR
    }

    /** How often `e` is listed within the blast in `es[..n]`. */
    function BlastHits(es: seq<Enemy>, e: Enemy, n: nat, dist: Distance): nat
      requires n <= |es|
      reads EnemySet(es)`reachedEnd, EnemySet(es)`x, EnemySet(es)`y
    {
      if n == 0 then 0
      else BlastHits(es, e, n - 1, dist) + (if es[n - 1] == e && InBlast(es[n - 1], dist) then 1 else 0)
    }

    /** Each enemy has taken one hit from `start` for each of its listings in the blast among `es[..n]`. */
    ghost predicate BlastedUpTo(es: seq<Enemy>, n: nat, dist: Distance, start: map<Enemy, Wound>)
      requires n <= |es| && EnemySet(es) <= start.Keys
      reads EnemySet(es)
    {
      forall d | d in EnemySet(es) :: WoundOf(d) == WoundedTimes(d.kind == Aircraft, start[d], damage, BlastHits(es, d, n, dist))
    }

    /** Every enemy took the bomb's damage once for each time it is listed within the blast. */
    twostate predicate Blasted(es: seq<Enemy>, dist: Distance)
      reads EnemySet(es)
    {
      forall e | e in EnemySet(es) :: WoundOf(e) == WoundedTimes(e.kind == Aircraft, old(WoundOf(e)), damage, old(BlastHits(es, e, |es|, dist)))
    }

    /**
     * `update`: an exploded bomb only advances its explosion timer; an armed
     * one explodes exactly when some enemy in play is within its trigger
     * range, and otherwise nothing changes.
     */
    method Update(dt: real, enemies: seq<Enemy>, dist: Distance)
      requires Valid()
      modifies this`armed, this`exploded, this`explosionTimer
      modifies EnemySet(enemies)`currentHp, EnemySet(enemies)`alive, EnemySet(enemies)`isDestroying
      modifies EnemySet(enemies)`destructionTime, EnemySet(enemies)`hasTriggeredStrike
      ensures Valid()
      ensures old(exploded) ==> exploded && explosionTimer == old(explosionTimer) + dt && unchanged(EnemySet(enemies))
      ensures !old(exploded) ==> explosionTimer == old(explosionTimer)
      ensures !old(exploded) ==>
        var fires := exists j | 0 <= j < |enemies| :: old(Triggers(enemies[j], dist));
        && exploded == fires
        && (fires ==> Blasted(enemies, dist))
        && (!fires ==> unchanged(EnemySet(enemies)))
    {
      if exploded {
        explosionTimer := explosionTimer + dt;
        return;
      }
      if !armed {
        return;
      }
      var i := 0;
      while i < |enemies|
        invariant 0 <= i <= |enemies|
        invariant forall j | 0 <= j < i :: !Triggers(enemies[j], dist)
        invariant unchanged(this) && unchanged(EnemySet(enemies))
      {
        var enemy := enemies[i];
        if enemy.alive && !enemy.reachedEnd {
          var distance := dist(x, y, enemy.x, enemy.y);
          var triggerRange := radius * PIXELS_PER_TILE;
          if distance <= triggerRange {
            Explode(enemies, dist);
            return;
          }
        }
        i := i + 1;
      }
    }

    /** `trigger`: the same as an explosion from `update`. */
    method Trigger(enemies: seq<Enemy>, dist: Distance)
      requires Valid()
      modifies this`armed, this`exploded
      modifies EnemySet(enemies)`currentHp, EnemySet(enemies)`alive, EnemySet(enemies)`isDestroying
      modifies EnemySet(enemies)`destructionTime, EnemySet(enemies)`hasTriggeredStrike
      ensures Valid() && exploded && !armed
      ensures old(armed) ==> Blasted(enemies, dist)
      ensures !old(armed) ==> unchanged(EnemySet(enemies))
    {
      Explode(enemies, dist);
    }

    /**
     * `explode`: once only.  An armed bomb disarms, is marked exploded and
     * damages every enemy within the blast; a second call does nothing.
     */
    method Explode(enemies: seq<Enemy>, dist: Distance)
      requires Valid()
      modifies this`armed, this`exploded
      modifies EnemySet(enemies)`currentHp, EnemySet(enemies)`alive, EnemySet(enemies)`isDestroying
      modifies EnemySet(enemies)`destructionTime, EnemySet(enemies)`hasTriggeredStrike
      ensures Valid() && exploded && !armed
      ensures old(armed) ==> Blasted(enemies, dist)
      ensures !old(armed) ==> unchanged(EnemySet(enemies))
    {
      if !armed || exploded {
        return;
      }
      armed := false;
      exploded := true;
      BlastAll(enemies, dist);
    }

    /** The blast of `explode`: every enemy in it takes the damage. */
    method BlastAll(enemies: seq<Enemy>, dist: Distance)
      modifies EnemySet(enemies)`currentHp, EnemySet(enemies)`alive, EnemySet(enemies)`isDestroying
      modifies EnemySet(enemies)`destructionTime, EnemySet(enemies)`hasTriggeredStrike
      ensures Blasted(enemies, dist)
    {
      ghost var starts := map e | e in EnemySet(enemies) :: WoundOf(e);
      var i := 0;
      while i < |enemies|
        invariant 0 <= i <= |enemies| && EnemySet(enemies) <= starts.Keys
        invariant BlastedUpTo(enemies, i, dist, starts)
      {
        BlastAt(enemies, i, enemies[i], dist, starts);
        i := i + 1;
      }
      forall e | e in EnemySet(enemies)
        ensures WoundOf(e) == WoundedTimes(e.kind == Aircraft, old(WoundOf(e)), damage, old(BlastHits(enemies, e, |enemies|, dist)))
      {
        assert starts[e] == old(WoundOf(e));
        assert BlastHits(enemies, e, |enemies|, dist) == old(BlastHits(enemies, e, |enemies|, dist));
      }
    }

    /**
     * One step of the blast, at index `i`: an enemy alive, not at the castle
     * and within 1.2 times the trigger range takes the damage.  Every listing
     * of the enemy at `i` counts one more blast hit; no other enemy changes.
     */
    method BlastAt(es: seq<Enemy>, i: nat, enemy: Enemy, dist: Distance, ghost start: map<Enemy, Wound>)
      requires i < |es| && enemy == es[i] && EnemySet(es) <= start.Keys
      requires BlastedUpTo(es, i, dist, start)
      modifies enemy`currentHp, enemy`alive, enemy`isDestroying, enemy`destructionTime, enemy`hasTriggeredStrike
      ensures BlastedUpTo(es, i + 1, dist, start)
    {
      ghost var before := WoundOf(enemy);
      if enemy.alive && !enemy.reachedEnd {
        var distance := dist(x, y, enemy.x, enemy.y);
        var explosionRange := radius * PIXELS_PER_TILE * BLAST_FACTOR;
        if distance <= explosionRange {
          enemy.TakeDamage(damage);
        }
      }
      assert WoundOf(enemy) == if InBlast(enemy, dist) then Wounded(enemy.kind == Aircraft, before, damage) else before;
      forall d | d in EnemySet(es)
        ensures WoundOf(d) == WoundedTimes(d.kind == Aircraft, start[d], damage, BlastHits(es, d, i + 1, dist))
      {
        if d == enemy && InBlast(enemy, dist) {
          assert BlastHits(es, d, i + 1, dist) == BlastHits(es, d, i, dist) + 1;
        } else {
          assert BlastHits(es, d, i + 1, dist) == BlastHits(es, d, i, dist);
        }
      }
    }

    /** `isExplosionComplete`. */
    predicate ExplosionComplete()
      reads this`exploded, this`explosionTimer
    {
      exploded && explosionTimer >= EXPLOSION_DURATION
    }

    /**
     * `getExplosionProgress`: 0 before the explosion, then the share of the
     * half-second shown, capped at 1; it reaches 1 exactly when the
     * explosion is complete.
     */
    function ExplosionProgress(): (r: real)
      reads this`exploded, this`explosionTimer
      ensures !exploded ==> r == 0.0
      ensures exploded && explosionTimer >= 0.0 ==> 0.0 <= r <= 1.0
      ensures exploded ==> (r == 1.0 <==> ExplosionComplete())
    {
      if exploded then Min(1.0, explosionTimer / EXPLOSION_DURATION) else 0.0
    }
  }
}
