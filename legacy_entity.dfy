/**
 * The state every entity of the older engine shares: hit points, the alive
 * flag and a top-left position with a size.  The hit-point rules of
 * `Entity.takeDamage`, `heal` and `kill` are defined here once, on values,
 * and each unit class updates its fields exactly as these functions say.
 */
module LegacyEntity {
  import opened Numerics
  import opened Math2D

  /** `maxHp`, `currentHp` and `alive`. */
  datatype Vitals = Vitals(maxHp: real, currentHp: real, alive: bool)

  /** The entity constructor: full health and alive. */
  function Spawned(hp: real): (v: Vitals)
    ensures Sound(v) <==> hp >= 0.0
  {
    Vitals(hp, hp, true)
  }

  /**
   * Hit points lie in [0, maxHp], and a dead entity has none left.  Every
   * operation below keeps this for non-negative amounts.
   */
  predicate Sound(v: Vitals)
  {
    0.0 <= v.currentHp <= v.maxHp && (!v.alive ==> v.currentHp == 0.0)
  }

  /** `takeDamage` calls `onDeath`: a living entity whose hit points drop to zero or below. */
  predicate DiesFrom(v: Vitals, damage: real)
  {
    v.alive && v.currentHp - damage <= 0.0
  }

  /**
   * `takeDamage`: nothing happens to a dead entity; otherwise the damage is
   * subtracted, and reaching zero or below pins the hit points at zero and
   * marks the entity dead.
   */
  function Damaged(v: Vitals, damage: real): (r: Vitals)
    ensures r.maxHp == v.maxHp
    ensures !v.alive ==> r == v
    ensures r.alive <==> v.alive && v.currentHp - damage > 0.0
    ensures r.alive ==> r.currentHp == v.currentHp - damage
    ensures DiesFrom(v, damage) ==> r.currentHp == 0.0
  {
    if !v.alive then v
    else if v.currentHp - damage <= 0.0 then Vitals(v.maxHp, 0.0, false)
    else v.(currentHp := v.currentHp - damage)
  }

  /** Non-negative damage keeps the vitals sound and never raises the hit points. */
  lemma DamagedSound(v: Vitals, damage: real)
    requires Sound(v) && damage >= 0.0
    ensures Sound(Damaged(v, damage)) && Damaged(v, damage).currentHp <= v.currentHp
  {
  }

  /** `heal`: nothing for a dead entity, else the hit points rise but not above `maxHp`. */
  function Healed(v: Vitals, amount: real): (r: Vitals)
    ensures r.maxHp == v.maxHp && r.alive == v.alive
    ensures !v.alive ==> r == v
    ensures v.alive ==> r.currentHp == Min(v.maxHp, v.currentHp + amount)
  {
    if !v.alive then v else v.(currentHp := Min(v.maxHp, v.currentHp + amount))
  }

  /** A non-negative heal keeps the vitals sound; a full entity stays as it is. */
  lemma HealedSound(v: Vitals, amount: real)
    requires Sound(v) && amount >= 0.0
    ensures Sound(Healed(v, amount))
    ensures v.currentHp == v.maxHp ==> Healed(v, amount) == v
  {
  }

  /** `kill`: dead with no hit points, whatever the state before. */
  function Killed(v: Vitals): (r: Vitals)
    ensures !r.alive && r.currentHp == 0.0 && r.maxHp == v.maxHp
  {
    Vitals(v.maxHp, 0.0, false)
  }

  /** `getHpRatio`: 0 without a positive maximum, else the share of hit points left. */
  function HpRatio(v: Vitals): (r: real)
    ensures v.maxHp <= 0.0 ==> r == 0.0
    ensures v.maxHp > 0.0 ==> r * v.maxHp == v.currentHp
    ensures Sound(v) && v.maxHp > 0.0 ==> 0.0 <= r <= 1.0
    ensures Sound(v) && !v.alive ==> r == 0.0
  {
    if v.maxHp > 0.0 then
      RatioInUnit(v);
      v.currentHp / v.maxHp
    else 0.0
  }

  lemma RatioInUnit(v: Vitals)
    requires v.maxHp > 0.0
    ensures Sound(v) ==> 0.0 <= v.currentHp / v.maxHp <= 1.0
  {
    if Sound(v) {
      QuotientInUnit(v.currentHp, v.maxHp);
    }
  }

  /** One thing that can happen to an entity's hit points. */
  datatype LifeEvent = TakeDamage(damage: real) | Heal(amount: real) | Kill

  /** The vitals after one event. */
  function Step(v: Vitals, e: LifeEvent): Vitals
  {
    match e
    case TakeDamage(d) => Damaged(v, d)
    case Heal(a) => Healed(v, a)
    case Kill => Killed(v)
  }

  /** Whether the event runs `onDeath`: a fatal hit, or any kill. */
  function DeathIn(v: Vitals, e: LifeEvent): nat
  {
    match e
    case TakeDamage(d) => if DiesFrom(v, d) then 1 else 0
    case Heal(_) => 0
    case Kill => 1
  }

  /** The vitals after the events, in order. */
  function AfterEvents(v: Vitals, events: seq<LifeEvent>): Vitals
    decreases |events|
  {
    if events == [] then v
    else
      AfterEvents(Step(v, events[0]), events[1..])
  }

  /** How many times `onDeath` runs during the events. */
  function DeathCalls(v: Vitals, events: seq<LifeEvent>): nat
    decreases |events|
  {
    if events == [] then 0
    else
      DeathIn(v, events[0]) + DeathCalls(Step(v, events[0]), events[1..])
  }

  /** Damage and healing alone run `onDeath` at most once, and only when the entity ends dead. */
  lemma {:induction false} DamageDiesAtMostOnce(v: Vitals, events: seq<LifeEvent>)
    requires forall i :: 0 <= i < |events| ==> !events[i].Kill?
    ensures DeathCalls(v, events) <= 1
    ensures DeathCalls(v, events) == 1 ==> !AfterEvents(v, events).alive
    ensures !v.alive ==> DeathCalls(v, events) == 0 && AfterEvents(v, events) == v
    decreases |events|
  {
    if events != [] {
      DamageDiesAtMostOnce(Step(v, events[0]), events[1..]);
    }
  }

  /** `kill` has no already-dead guard: each call runs `onDeath` again. */
  lemma KillRunsOnDeathEveryTime(v: Vitals, n: nat)
    ensures DeathCalls(v, Kills(n)) == n
    ensures n > 0 ==> AfterEvents(v, Kills(n)) == Killed(v)
  {
    KillsCount(v, n);
  }

  function Kills(n: nat): (ks: seq<LifeEvent>)
    ensures |ks| == n && forall i :: 0 <= i < n ==> ks[i] == Kill
  {
    if n == 0 then [] else [Kill] + Kills(n - 1)
  }

  lemma {:induction false} KillsCount(v: Vitals, n: nat)
    ensures DeathCalls(v, Kills(n)) == n
    ensures n > 0 ==> AfterEvents(v, Kills(n)) == Killed(v)
    decreases n
  {
    if n > 0 {
      assert Kills(n)[1..] == Kills(n - 1);
      KillsCount(Killed(v), n - 1);
      assert Killed(Killed(v)) == Killed(v);
    }
  }

  /** All events with non-negative amounts keep the vitals sound. */
  lemma {:induction false} EventsKeepSound(v: Vitals, events: seq<LifeEvent>)
    requires Sound(v)
    requires forall i :: 0 <= i < |events| ==>
      (events[i].TakeDamage? ==> events[i].damage >= 0.0) && (events[i].Heal? ==> events[i].amount >= 0.0)
    ensures Sound(AfterEvents(v, events))
    decreases |events|
  {
    if events != [] {
      EventsKeepSound(Step(v, events[0]), events[1..]);
    }
  }

  /** The default entity size, which the enemy constructor sees before a subclass sets its own. */
  const DEFAULT_SIZE: real := 32.0

  /** `getCenter`: the top-left position plus half the size. */
  function CentreOf(position: Point, width: real, height: real): (c: Point)
    ensures width >= 0.0 && height >= 0.0 ==> c.x >= position.x && c.y >= position.y
  {
    Point(position.x + width / 2.0, position.y + height / 2.0)
  }

  /** The position that puts an entity's centre at `c`. */
  function PlacedAt(c: Point, width: real, height: real): (p: Point)
    ensures CentreOf(p, width, height) == c
  {
    Point(c.x - width / 2.0, c.y - height / 2.0)
  }

  /** `isInRange`: the centres are at most `range` apart. */
  predicate InRange(dist: Distance, a: Point, b: Point, range: real)
  {
    PointDistance(dist, a, b) <= range
  }

  // ----- MoveBehavior -------------------------------------------------------

  /**
   * The movement behaviours.  The four constants and the circular movement
   * have empty bodies; only the velocity-based one moves anything.
   */
  datatype MoveBehavior =
    | RouteFollowing | StraightLine | Stationary | ProjectileTravel
    | VelocityBased(velocity: Point)
    | CircularMovement(center: Point, radius: real, angularSpeed: real)

  /** Where `move` leaves an entity with this position and alive flag. */
  function Moved(b: MoveBehavior, alive: bool, position: Point, dt: real): (p: Point)
    ensures !b.VelocityBased? || !alive ==> p == position
  {
    if b.VelocityBased? && alive then
      Point(position.x + b.velocity.x * dt, position.y + b.velocity.y * dt)
    else position
  }

  /**
   * Velocity-based movement is linear in time: two steps go as far as one
   * step of their combined length, and a zero step stays put.
   */
  lemma VelocityStepsAdd(v: Point, alive: bool, p: Point, dt1: real, dt2: real)
    ensures Moved(VelocityBased(v), alive, Moved(VelocityBased(v), alive, p, dt1), dt2)
         == Moved(VelocityBased(v), alive, p, dt1 + dt2)
    ensures Moved(VelocityBased(v), alive, p, 0.0) == p
  {
    assert v.x * dt1 + v.x * dt2 == v.x * (dt1 + dt2);
    assert v.y * dt1 + v.y * dt2 == v.y * (dt1 + dt2);
  }
}
