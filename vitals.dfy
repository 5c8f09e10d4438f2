/**
 * The small state machines the FX actors share, stated on values: hit
 * points, the slow effect, progress along a path, a projectile's flight and
 * hit effect, and a turret's turn toward its target.  The actor classes
 * update their fields exactly as these functions say.
 */
module Vitals {
  import opened Numerics
  import opened Math2D

  // ---------------------------------------------------------------------
  // Hit points
  // ---------------------------------------------------------------------

  /** Hit points and whether their owner is alive. */
  datatype Health = Health(hp: int, alive: bool)

  function IntMax(a: int, b: int): (r: int)
    ensures r >= a && r >= b && (r == a || r == b)
  {
    if a >= b then a else b
  }

  /**
   * `takeDamage` of enemies, towers and AA: ignored once dead; otherwise hp
   * drops by the damage, and at or below zero the owner dies with hp held at 0.
   */
  function Damaged(h: Health, damage: int): (r: Health)
    ensures !h.alive ==> r == h
    ensures h.alive ==> (r.alive <==> damage < h.hp)
    ensures h.alive ==> r.hp == IntMax(0, h.hp - damage)
  {
    if !h.alive then h
    else if h.hp - damage <= 0 then Health(0, false)
    else Health(h.hp - damage, true)
  }

  /**
   * An enemy's `takeDamage`: an aircraft's own hook zeroes its hp on any hit,
   * so a living aircraft always dies; every other enemy is `Damaged`.
   */
  function Hit(isAircraft: bool, h: Health, damage: int): Health
  {
    if isAircraft && h.alive then Health(0, false) else Damaged(h, damage)
  }

  /** The health after the hits `damages`, in order. */
  function AfterHits(h: Health, damages: seq<int>): Health
  {
    if damages == [] then h
    else Damaged(AfterHits(h, damages[..|damages| - 1]), damages[|damages| - 1])
  }

  /** How many of the hits turned a living owner into a dead one. */
  function Deaths(h: Health, damages: seq<int>): nat
  {
    if damages == [] then 0
    else
      var before := AfterHits(h, damages[..|damages| - 1]);
      var after := Damaged(before, damages[|damages| - 1]);
      Deaths(h, damages[..|damages| - 1]) + (if before.alive && !after.alive then 1 else 0)
  }

  /**
   * Death happens at most once, whatever the hits: the death hook runs once
   * for an owner that was alive and ends dead, and never otherwise; a dead
   * owner is left exactly as it was.
   */
  lemma {:induction false} DiesAtMostOnce(h: Health, damages: seq<int>)
    ensures Deaths(h, damages) == (if h.alive && !AfterHits(h, damages).alive then 1 else 0)
    ensures !h.alive ==> AfterHits(h, damages) == h
  {
    if damages != [] {
      DiesAtMostOnce(h, damages[..|damages| - 1]);
    }
  }

  function Sum(xs: seq<int>): int
  {
    if xs == [] then 0 else Sum(xs[..|xs| - 1]) + xs[|xs| - 1]
  }

  /**
   * With non-negative hits, a living owner survives exactly when the total
   * damage stays below its hp; a survivor has lost exactly that total and a
   * dead owner has 0 hp.
   */
  lemma {:induction false} SurvivesIffDamageBelowHp(h: Health, damages: seq<int>)
    requires h.alive && h.hp > 0
    requires forall i :: 0 <= i < |damages| ==> damages[i] >= 0
    ensures AfterHits(h, damages).alive <==> Sum(damages) < h.hp
    ensures AfterHits(h, damages).hp == if Sum(damages) < h.hp then h.hp - Sum(damages) else 0
  {
    if damages != [] {
      var init := damages[..|damages| - 1];
      assert forall i :: 0 <= i < |init| ==> init[i] == damages[i];
      SurvivesIffDamageBelowHp(h, init);
      assert damages[|damages| - 1] >= 0;
    }
  }

  /** `n` hits of the same damage, as a row or column strike does to a defender listed `n` times. */
  function Repeated(h: Health, damage: int, n: nat): Health
  {
    if n == 0 then h else Damaged(Repeated(h, damage, n - 1), damage)
  }

  // ---------------------------------------------------------------------
  // Slow effect
  // ---------------------------------------------------------------------

  /** A speed multiplier and the seconds it has left. */
  datatype Slow = Slow(multiplier: real, duration: real)

  /**
   * `applySlow`: the stronger of the current and the new effect wins on each
   * axis, the smaller multiplier and the longer duration.
   */
  function Applied(s: Slow, multiplier: real, duration: real): (r: Slow)
    ensures r.multiplier <= s.multiplier && r.multiplier <= multiplier
    ensures r.multiplier == s.multiplier || r.multiplier == multiplier
    ensures r.duration >= s.duration && r.duration >= duration
    ensures r.duration == s.duration || r.duration == duration
  {
    Slow(Min(s.multiplier, multiplier), Max(s.duration, duration))
  }

  /** Two slows applied in either order leave the same effect. */
  lemma AppliedCommutes(s: Slow, m1: real, d1: real, m2: real, d2: real)
    ensures Applied(Applied(s, m1, d1), m2, d2) == Applied(Applied(s, m2, d2), m1, d1)
  {
  }

  /** Re-applying the same slow changes nothing. */
  lemma AppliedIdempotent(s: Slow, m: real, d: real)
    ensures Applied(Applied(s, m, d), m, d) == Applied(s, m, d)
  {
  }

  /**
   * `updateStatusEffects`: a running slow loses `dt` seconds, and once its time
   * is up the multiplier reverts to 1; an expired slow is left alone.
   */
  function Ticked(s: Slow, dt: real): (r: Slow)
    ensures s.duration <= 0.0 ==> r == s
    ensures s.duration > 0.0 ==> r.duration == s.duration - dt
    ensures s.duration > 0.0 && r.duration > 0.0 ==> r.multiplier == s.multiplier
    ensures s.duration > 0.0 && r.duration <= 0.0 ==> r.multiplier == 1.0
  {
    if s.duration > 0.0 then
      var left := s.duration - dt;
      if left <= 0.0 then Slow(1.0, left) else Slow(s.multiplier, left)
    else s
  }

  /** `n` ticks of `dt`. */
  function TickedN(s: Slow, dt: real, n: nat): Slow
  {
    if n == 0 then s else Ticked(TickedN(s, dt, n - 1), dt)
  }

  /** While fewer seconds than the duration have passed, the multiplier holds. */
  lemma {:induction false} SlowHolds(s: Slow, dt: real, n: nat)
    requires dt >= 0.0 && n as real * dt < s.duration
    ensures TickedN(s, dt, n) == Slow(s.multiplier, s.duration - n as real * dt)
  {
    if n > 0 {
      var k: nat := n - 1;
      OneMoreTick(k, dt);
      SlowHolds(s, dt, k);
    }
  }

  /** `k + 1` ticks of `dt` last one tick longer than `k`. */
  lemma OneMoreTick(k: nat, dt: real)
    ensures (k + 1) as real * dt == k as real * dt + dt
  {
  }

  /**
   * Once the ticks cover the duration, the slow has expired and the
   * multiplier is back at 1, and it stays so.
   */
  lemma {:induction false} SlowExpires(s: Slow, dt: real, n: nat)
    requires dt > 0.0 && s.duration > 0.0 && n as real * dt >= s.duration
    ensures TickedN(s, dt, n).multiplier == 1.0 && TickedN(s, dt, n).duration <= 0.0
  {
    var k := n - 1;
    OneMoreTick(k, dt);
    if k as real * dt < s.duration {
      SlowHolds(s, dt, k);
    } else {
      SlowExpires(s, dt, k);
    }
  }

  // ---------------------------------------------------------------------
  // Progress along a path
  // ---------------------------------------------------------------------

  /**
   * `moveAlongPath`'s progress update: the distance covered as a fraction of
   * the path length is added and the result clamped to [0, 1].  It never
   * leaves [0, 1], never moves back for a non-negative distance, and reaches 1
   * exactly when the unclamped progress does.
   */
  function Advanced(progress: real, distance: real, pathLength: real): (r: real)
    requires pathLength > 0.0
    ensures 0.0 <= r <= 1.0
    ensures r == 1.0 <==> progress + distance / pathLength >= 1.0
    ensures 0.0 <= progress <= 1.0 && distance >= 0.0 ==> progress <= r
  {
    QuotientNonNegative(distance, pathLength);
    Min(1.0, Max(0.0, progress + distance / pathLength))
  }

  lemma QuotientNonNegative(a: real, b: real)
    requires b > 0.0
    ensures a >= 0.0 ==> a / b >= 0.0
  {
    if a >= 0.0 {
      assert (a / b) * b == a;
    }
  }

  // ---------------------------------------------------------------------
  // Projectiles
  // ---------------------------------------------------------------------

  /** How long a projectile shows its hit effect. */
  const HIT_EFFECT_TIME: real := 0.3

  /** A projectile's flags and hit-effect timer. */
  datatype Shot = Shot(active: bool, hitTarget: bool, showHitEffect: bool, effectLeft: real)

  /** A fresh projectile, in flight. */
  const LAUNCHED := Shot(true, false, false, 0.0)

  /**
   * The flags a projectile can hold: the effect shows only after a hit, and a
   * projectile that has hit and is no longer showing the effect is inactive.
   */
  predicate ShotInvariant(s: Shot)
  {
    (s.showHitEffect ==> s.hitTarget) && (s.hitTarget && !s.showHitEffect ==> !s.active)
  }

  /**
   * Projectile `update`, given whether the target is reached on this tick:
   * the hit effect counts down and ends the projectile; a spent or inactive
   * projectile stays put; a projectile in flight that reaches its target hits
   * and starts the effect.
   */
  function ShotStep(s: Shot, dt: real, reached: bool): (r: Shot)
    ensures ShotInvariant(s) ==> ShotInvariant(r)
    ensures s.hitTarget ==> r.hitTarget
    ensures r.hitTarget && !s.hitTarget <==> s.active && !s.hitTarget && !s.showHitEffect && reached
    ensures r.hitTarget && !s.hitTarget ==> r.showHitEffect && r.effectLeft == HIT_EFFECT_TIME
    ensures r.active != s.active <==> s.active && s.showHitEffect && s.effectLeft - dt <= 0.0
    ensures !r.active ==> !s.active || s.showHitEffect
  {
    if s.showHitEffect then
      if s.effectLeft - dt <= 0.0 then Shot(false, s.hitTarget, false, s.effectLeft - dt)
      else s.(effectLeft := s.effectLeft - dt)
    else if !s.active || s.hitTarget then s
    else if reached then Shot(s.active, true, true, HIT_EFFECT_TIME)
    else s
  }

  /** `destroy`. */
  function Destroyed(s: Shot): (r: Shot)
    ensures !r.active && r.hitTarget == s.hitTarget
    ensures ShotInvariant(s) ==> ShotInvariant(r)
  {
    s.(active := false)
  }

  /** One input to a projectile: a tick (and whether it reaches the target) or a `destroy`. */
  datatype ShotInput = Tick(dt: real, reached: bool) | Destroy

  function ShotAfter(s: Shot, inputs: seq<ShotInput>): Shot
  {
    if inputs == [] then s
    else
      var before := ShotAfter(s, inputs[..|inputs| - 1]);
      match inputs[|inputs| - 1]
      case Tick(dt, reached) => ShotStep(before, dt, reached)
      case Destroy => Destroyed(before)
  }

  /** How many inputs made the projectile hit (and so run `onHit`). */
  function Hits(s: Shot, inputs: seq<ShotInput>): nat
  {
    if inputs == [] then 0
    else
      var before := ShotAfter(s, inputs[..|inputs| - 1]);
      var after := ShotAfter(s, inputs);
      Hits(s, inputs[..|inputs| - 1]) + (if !before.hitTarget && after.hitTarget then 1 else 0)
  }

  /**
   * Over any run of ticks and destroys, a projectile hits at most once: once
   * exactly when it had not hit at the start and has at the end.  The flag
   * invariant holds throughout.
   */
  lemma {:induction false} HitsAtMostOnce(s: Shot, inputs: seq<ShotInput>)
    requires ShotInvariant(s)
    ensures Hits(s, inputs) == (if !s.hitTarget && ShotAfter(s, inputs).hitTarget then 1 else 0)
    ensures ShotInvariant(ShotAfter(s, inputs))
    ensures s.hitTarget ==> ShotAfter(s, inputs).hitTarget
  {
    if inputs != [] {
      var init := inputs[..|inputs| - 1];
      HitsAtMostOnce(s, init);
      assert ShotAfter(s, inputs) == match inputs[|inputs| - 1]
        case Tick(dt, reached) => ShotStep(ShotAfter(s, init), dt, reached)
        case Destroy => Destroyed(ShotAfter(s, init));
    }
  }

  // ---------------------------------------------------------------------
  // Turret rotation
  // ---------------------------------------------------------------------

  function Abs(a: real): (r: real)
    ensures r >= 0.0 && (r == a || r == -a)
  {
    if a < 0.0 then -a else a
  }

  /** `Math.signum` of a non-zero value. */
  function Sign(a: real): (r: real)
    ensures a > 0.0 ==> r == 1.0
    ensures a < 0.0 ==> r == -1.0
  {
    if a > 0.0 then 1.0 else if a < 0.0 then -1.0 else 0.0
  }

  /**
   * A turret's rotation step toward `target`, `diff` being the difference
   * brought into [-π, π] and `step` the most it may turn this tick: within
   * 0.05 rad it holds still, within one step it snaps to the target, and
   * otherwise it turns by exactly one step in the direction of `diff`.
   */
  function TurnStep(rotation: real, target: real, diff: real, step: real): (r: real)
    ensures Abs(diff) <= 0.05 ==> r == rotation
    ensures Abs(diff) > 0.05 && Abs(diff) < step ==> r == target
    ensures Abs(diff) > 0.05 && Abs(diff) >= step ==> Abs(r - rotation) == Abs(step)
    ensures Abs(diff) > 0.05 && Abs(diff) >= step && step > 0.0 ==> (r > rotation <==> diff > 0.0)
  {
    if Abs(diff) > 0.05 then
      if Abs(diff) < step then target else rotation + Sign(diff) * step
    else rotation
  }

  /** Subtracts whole turns while the angle exceeds π. */
  function WrapDown(d: real): real
    decreases d.Floor
  {
    if d > PI then WrapDown(d - TWO_PI) else d
  }

  /** Adds whole turns while the angle is below -π. */
  function WrapUp(d: real): real
    decreases (-d).Floor
  {
    if d < -PI then WrapUp(d + TWO_PI) else d
  }

  /** An angle difference brought into [-π, π] by the rotation code's two loops. */
  function Wrapped(d: real): real
  {
    WrapUp(WrapDown(d))
  }

  /** The wrapped difference lies in [-π, π] and differs from the input by whole turns. */
  lemma WrappedInRange(d: real) returns (turns: int)
    ensures -PI <= Wrapped(d) <= PI
    ensures Wrapped(d) == d + turns as real * TWO_PI
  {
    var t1 := WrapDownTurns(d);
    var t2 := WrapUpTurns(WrapDown(d));
    turns := t1 + t2;
  }

  lemma {:induction false} WrapDownTurns(d: real) returns (turns: int)
    ensures WrapDown(d) <= PI && WrapDown(d) == d + turns as real * TWO_PI
    ensures d <= PI ==> WrapDown(d) == d
    decreases d.Floor
  {
    if d > PI {
      var t := WrapDownTurns(d - TWO_PI);
      turns := t - 1;
    } else {
      turns := 0;
    }
  }

  lemma {:induction false} WrapUpTurns(d: real) returns (turns: int)
    requires d <= PI
    ensures -PI <= WrapUp(d) <= PI && WrapUp(d) == d + turns as real * TWO_PI
    decreases (-d).Floor
  {
    if d < -PI {
      var t := WrapUpTurns(d + TWO_PI);
      turns := t + 1;
    } else {
      turns := 0;
    }
  }

  /**
   * The rotation code's two loops that bring an angle difference into
   * [-π, π] by whole turns.
   */
  method WrapDifference(diff: real) returns (r: real)
    ensures r == Wrapped(diff)
    ensures -PI <= r <= PI
  {
    r := diff;
    while r > PI
      invariant WrapDown(r) == WrapDown(diff)
      decreases r.Floor
    {
      r := r - TWO_PI;
    }
    ghost var down := r;
    while r < -PI
      invariant WrapUp(r) == WrapUp(down)
      decreases (-r).Floor
    {
      r := r + TWO_PI;
    }
    ghost var turns := WrappedInRange(diff);
  }

  /** One projectile update took place, whether or not it reached its target. */
  predicate Stepped(before: Shot, after: Shot, dt: real)
  {
    after == ShotStep(before, dt, false) || after == ShotStep(before, dt, true)
  }
}
