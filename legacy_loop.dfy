/**
 * The older engine's `GameLoop`: once per animation frame it runs the wave
 * manager, takes over the enemies it spawned, moves them, runs the speed
 * bumps and bombs, judges defeat and victory and clears out finished
 * entities; the slot-click handlers buy towers and gadgets.
 *
 * Rendering, the HUD and the projectile list are not modelled, and neither
 * is the tower pass, which calls tower methods that do not exist.  Distances
 * between points are the oracle `dist`; the random rolls the wave manager
 * draws are a parameter.
 */
module LegacyLoop {
  import opened Wrappers
  import opened Numerics
  import opened Math2D
  import opened LegacyConfig
  import opened LegacyEntity
  import opened LegacyMap
  import opened LegacyUnits
  import opened LegacyResources
  import opened LegacyWaves

  /** How long a speed bump's slow lasts once applied, in seconds. */
  const BUMP_SLOW_SEC: real := 0.1
  /** A gadget bomb's blast radius, in tiles. */
  const MINE_RADIUS: real := 1.5
  /** The fixed damage of a gadget bomb's blast. */
  const MINE_DAMAGE: real := 50.0
  /** `handle` receives nanoseconds. */
  const NANOS_PER_SECOND: real := 1000000000.0

  // ----- Leak accounting ---------------------------------------------------

  /** What the leak accounting sees of an enemy: its power and two flags. */
  datatype Runner = Runner(power: int, alive: bool, leaked: bool)

  function Runners(es: seq<Enemy>): (rs: seq<Runner>)
    reads es`alive, es`leaked
    ensures |rs| == |es|
    ensures forall i :: 0 <= i < |es| ==> rs[i] == Runner(es[i].powerValue, es[i].alive, es[i].leaked)
  {
    if es == [] then [] else Runners(es[..|es| - 1]) + [Runner(es[|es| - 1].powerValue, es[|es| - 1].alive, es[|es| - 1].leaked)]
  }

  /** The summed power of some enemies, `mapToInt(Enemy::getPowerValue).sum()`. */
  function Power(rs: seq<Runner>): int
  {
    if rs == [] then 0 else Power(rs[..|rs| - 1]) + rs[|rs| - 1].power
  }

  /** The power an enemy pass charges: that of every enemy flagged as leaked. */
  function Charge(rs: seq<Runner>): int
  {
    if rs == [] then 0
    else Charge(rs[..|rs| - 1]) + (if rs[|rs| - 1].leaked then rs[|rs| - 1].power else 0)
  }

  /** The summed power of a list of enemies; the power of an enemy never changes. */
  function PowerOf(es: seq<Enemy>): int
  {
    if es == [] then 0 else PowerOf(es[..|es| - 1]) + es[|es| - 1].powerValue
  }

  lemma {:induction false} PowerOfRunners(es: seq<Enemy>)
    ensures Power(Runners(es)) == PowerOf(es)
    decreases |es|
  {
    if es != [] {
      assert Runners(es)[..|es| - 1] == Runners(es[..|es| - 1]);
      PowerOfRunners(es[..|es| - 1]);
    }
  }

  lemma {:induction false} PowerAppend(a: seq<Runner>, b: seq<Runner>)
    ensures Power(a + b) == Power(a) + Power(b)
    decreases |b|
  {
    if b != [] {
      assert (a + b)[..|a + b| - 1] == a + b[..|b| - 1];
      PowerAppend(a, b[..|b| - 1]);
    } else {
      assert a + b == a;
    }
  }

  lemma {:induction false} PowerOfAppend(a: seq<Enemy>, b: seq<Enemy>)
    ensures PowerOf(a + b) == PowerOf(a) + PowerOf(b)
    decreases |b|
  {
    if b != [] {
      assert (a + b)[..|a + b| - 1] == a + b[..|b| - 1];
      PowerOfAppend(a, b[..|b| - 1]);
    } else {
      assert a + b == a;
    }
  }

  lemma {:induction false} ChargeAppend(a: seq<Runner>, b: seq<Runner>)
    ensures Charge(a + b) == Charge(a) + Charge(b)
    decreases |b|
  {
    if b != [] {
      assert (a + b)[..|a + b| - 1] == a + b[..|b| - 1];
      ChargeAppend(a, b[..|b| - 1]);
    } else {
      assert a + b == a;
    }
  }

  lemma ChargeSnoc(rs: seq<Runner>, r: Runner)
    ensures Charge(rs + [r]) == Charge(rs) + (if r.leaked then r.power else 0)
  {
    assert (rs + [r])[..|rs|] == rs;
  }

  /** The charge depends only on the powers and the leaked flags. */
  lemma {:induction false} ChargeFollowsLeaks(a: seq<Runner>, b: seq<Runner>)
    requires |a| == |b|
    requires forall i :: 0 <= i < |a| ==> a[i].power == b[i].power && a[i].leaked == b[i].leaked
    ensures Charge(a) == Charge(b)
    decreases |a|
  {
    if a != [] {
      ChargeFollowsLeaks(a[..|a| - 1], b[..|b| - 1]);
    }
  }

  /** The enemies `cleanupEntities` is meant to keep: alive and not leaked. */
  function Keep(rs: seq<Runner>): (k: seq<Runner>)
    ensures forall i :: 0 <= i < |k| ==> k[i] in rs && k[i].alive && !k[i].leaked
    ensures forall i :: 0 <= i < |rs| && rs[i].alive && !rs[i].leaked ==> rs[i] in k
  {
    if rs == [] then []
    else Keep(rs[..|rs| - 1]) + (if rs[|rs| - 1].alive && !rs[|rs| - 1].leaked then [rs[|rs| - 1]] else [])
  }

  /** The enemies `cleanupEntities` keeps as written: all but the dead that leaked. */
  function KeepAsWritten(rs: seq<Runner>): (k: seq<Runner>)
    ensures forall i :: 0 <= i < |k| ==> k[i] in rs && (k[i].alive || !k[i].leaked)
    ensures forall i :: 0 <= i < |rs| && (rs[i].alive || !rs[i].leaked) ==> rs[i] in k
  {
    if rs == [] then []
    else KeepAsWritten(rs[..|rs| - 1]) + (if rs[|rs| - 1].alive || !rs[|rs| - 1].leaked then [rs[|rs| - 1]] else [])
  }

  /** A kept enemy has not leaked, so nothing kept is charged again. */
  lemma {:induction false} KeepChargesNothing(rs: seq<Runner>)
    ensures Charge(Keep(rs)) == 0
    decreases |rs|
  {
    if rs != [] {
      var last := rs[|rs| - 1];
      KeepChargesNothing(rs[..|rs| - 1]);
      ChargeAppend(Keep(rs[..|rs| - 1]), if last.alive && !last.leaked then [last] else []);
      assert Charge([last]) == Charge([]) + (if last.leaked then last.power else 0) by {
        assert [last][..0] == [];
      }
    }
  }

  /**
   * With the intended clean-up the charged power and the power still on
   * the field together never exceed the power of the enemies before it:
   * every enemy is charged once, kept, or dropped dead.
   */
  lemma {:induction false} KeepWithinBudget(rs: seq<Runner>)
    requires forall i :: 0 <= i < |rs| ==> rs[i].power >= 0
    ensures Power(Keep(rs)) + Charge(rs) <= Power(rs)
    decreases |rs|
  {
    if rs != [] {
      var init, last := rs[..|rs| - 1], rs[|rs| - 1];
      KeepWithinBudget(init);
      PowerAppend(Keep(init), if last.alive && !last.leaked then [last] else []);
      assert Power([last]) == last.power by {
        assert [last][..0] == [];
      }
    }
  }

  /**
   * `checkGameState`'s defeat test: the level has a positive power and the
   * leaked power is at least `LEAK_DEFEAT_RATIO` of it.
   */
  predicate Defeated(leaked: int, total: int)
  {
    total > 0 && leaked as real / total as real >= LEAK_DEFEAT_RATIO
  }

  /** The defeat test in integer terms: a tenth of the level's power has leaked. */
  lemma DefeatedInIntegers(leaked: int, total: int)
    ensures Defeated(leaked, total) <==> total > 0 && 10 * leaked >= total
  {
    if total > 0 {
      var q := leaked as real / total as real;
      assert q * total as real == leaked as real;
      if q >= LEAK_DEFEAT_RATIO {
        assert q * total as real >= LEAK_DEFEAT_RATIO * total as real;
      } else {
        assert q * total as real < LEAK_DEFEAT_RATIO * total as real;
      }
    }
  }

  /**
   * As written the clean-up keeps an enemy that leaked alive, so each later
   * enemy pass charges its power again.  With eleven soldiers of which one
   * has leaked, the first charge is a tenth short of defeat; the next pass
   * charges the same soldier again and the game is lost, though no further
   * enemy leaked.
   */
  lemma AsWrittenChargesLeakAgain()
    ensures var rs := [Runner(SOLDIER_POWER, true, true)] + seq(10, _ => Runner(SOLDIER_POWER, true, false));
      && Power(rs) == 11
      && Charge(rs) == 1 && !Defeated(Charge(rs), Power(rs))
      && KeepAsWritten(rs) == rs
      && Defeated(Charge(rs) + Charge(KeepAsWritten(rs)), Power(rs))
  {
    var walking := seq(10, _ => Runner(SOLDIER_POWER, true, false));
    var rs := [Runner(SOLDIER_POWER, true, true)] + walking;
    KeepAsWrittenKeepsTheLiving(rs);
    PowerAppend([Runner(SOLDIER_POWER, true, true)], walking);
    ChargeAppend([Runner(SOLDIER_POWER, true, true)], walking);
    StillWalking(10);
    DefeatedInIntegers(1, 11);
    DefeatedInIntegers(2, 11);
  }

  /** The same field with the intended clean-up: the leaked soldier is charged once. */
  lemma IntendedChargesLeakOnce()
    ensures var rs := [Runner(SOLDIER_POWER, true, true)] + seq(10, _ => Runner(SOLDIER_POWER, true, false));
      && Charge(rs) == 1 && |Keep(rs)| == 10
      && !Defeated(Charge(rs) + Charge(Keep(rs)), Power(rs))
  {
    var walking := seq(10, _ => Runner(SOLDIER_POWER, true, false));
    var rs := [Runner(SOLDIER_POWER, true, true)] + walking;
    PowerAppend([Runner(SOLDIER_POWER, true, true)], walking);
    ChargeAppend([Runner(SOLDIER_POWER, true, true)], walking);
    StillWalking(10);
    KeepChargesNothing(rs);
    KeepOfWalking(rs);
    DefeatedInIntegers(1, 11);
  }

  /** `n` soldiers on their way have power `n` and are charged nothing. */
  lemma {:induction false} StillWalking(n: nat)
    ensures var w := seq(n, _ => Runner(SOLDIER_POWER, true, false));
      Power(w) == n && Charge(w) == 0 && Keep(w) == w
    decreases n
  {
    if n > 0 {
      var w := seq(n, _ => Runner(SOLDIER_POWER, true, false));
      assert w[..n - 1] == seq(n - 1, _ => Runner(SOLDIER_POWER, true, false));
      StillWalking(n - 1);
    }
  }

  /** A list led by one leaked soldier and followed by walking ones keeps the walkers. */
  lemma KeepOfWalking(rs: seq<Runner>)
    requires |rs| == 11 && rs[0] == Runner(SOLDIER_POWER, true, true)
    requires rs[1..] == seq(10, _ => Runner(SOLDIER_POWER, true, false))
    ensures |Keep(rs)| == 10
  {
    KeepSplit(rs[..1], rs[1..]);
    assert rs[..1] + rs[1..] == rs;
    assert Keep(rs[..1]) == [] by {
      assert rs[..1][..0] == [];
    }
    StillWalking(10);
  }

  lemma {:induction false} KeepSplit(a: seq<Runner>, b: seq<Runner>)
    ensures Keep(a + b) == Keep(a) + Keep(b)
    decreases |b|
  {
    if b != [] {
      assert (a + b)[..|a + b| - 1] == a + b[..|b| - 1];
      KeepSplit(a, b[..|b| - 1]);
    } else {
      assert a + b == a;
    }
  }

  /** The as-written clean-up drops nobody alive. */
  lemma {:induction false} KeepAsWrittenKeepsTheLiving(rs: seq<Runner>)
    requires forall i :: 0 <= i < |rs| ==> rs[i].alive
    ensures KeepAsWritten(rs) == rs
    decreases |rs|
  {
    if rs != [] {
      KeepAsWrittenKeepsTheLiving(rs[..|rs| - 1]);
      assert rs[..|rs| - 1] + [rs[|rs| - 1]] == rs;
    }
  }

  /** The clean-up on the enemy list itself, as intended. */
  function Survivors(es: seq<Enemy>): (r: seq<Enemy>)
    reads es`alive, es`leaked
    ensures |r| <= |es|
  {
    if es == [] then []
    else
      var e := es[|es| - 1];
      Survivors(es[..|es| - 1]) + (if e.alive && !e.leaked then [e] else [])
  }

  /** The clean-up keeps exactly the enemies of the list that are alive and have not leaked. */
  lemma {:induction false} SurvivorsSound(es: seq<Enemy>)
    ensures forall i :: 0 <= i < |Survivors(es)| ==>
      Survivors(es)[i] in es && Survivors(es)[i].alive && !Survivors(es)[i].leaked
    ensures forall i :: 0 <= i < |es| && es[i].alive && !es[i].leaked ==> es[i] in Survivors(es)
    decreases |es|
  {
    if es != [] {
      var n := |es| - 1;
      SurvivorsSound(es[..n]);
      var rest := Survivors(es[..n]);
      assert Survivors(es) == rest + (if es[n].alive && !es[n].leaked then [es[n]] else []);
      forall i | 0 <= i < |es| && es[i].alive && !es[i].leaked
        ensures es[i] in Survivors(es)
      {
        if i < n {
          assert es[..n][i] == es[i];
        }
      }
      forall i | 0 <= i < |Survivors(es)|
        ensures Survivors(es)[i] in es
      {
        if i < |rest| {
          assert rest[i] in es[..n];
        }
      }
    }
  }

  /** The clean-up on the enemy list as written. */
  function SurvivorsAsWritten(es: seq<Enemy>): (r: seq<Enemy>)
    reads es`alive, es`leaked
    ensures |r| <= |es|
  {
    if es == [] then []
    else
      var e := es[|es| - 1];
      SurvivorsAsWritten(es[..|es| - 1]) + (if e.alive || !e.leaked then [e] else [])
  }

  /** The clean-up as written keeps exactly the enemies that are alive or have not leaked. */
  lemma {:induction false} SurvivorsAsWrittenSound(es: seq<Enemy>)
    ensures forall i :: 0 <= i < |SurvivorsAsWritten(es)| ==>
      SurvivorsAsWritten(es)[i] in es && (SurvivorsAsWritten(es)[i].alive || !SurvivorsAsWritten(es)[i].leaked)
    ensures forall i :: 0 <= i < |es| && (es[i].alive || !es[i].leaked) ==> es[i] in SurvivorsAsWritten(es)
    decreases |es|
  {
    if es != [] {
      var n := |es| - 1;
      SurvivorsAsWrittenSound(es[..n]);
      var rest := SurvivorsAsWritten(es[..n]);
      assert SurvivorsAsWritten(es) == rest + (if es[n].alive || !es[n].leaked then [es[n]] else []);
      forall i | 0 <= i < |es| && (es[i].alive || !es[i].leaked)
        ensures es[i] in SurvivorsAsWritten(es)
      {
        if i < n {
          assert es[..n][i] == es[i];
        }
      }
      forall i | 0 <= i < |SurvivorsAsWritten(es)|
        ensures SurvivorsAsWritten(es)[i] in es
      {
        if i < |rest| {
          assert rest[i] in es[..n];
        }
      }
    }
  }

  /** The clean-up filters the enemy list as `Keep` filters its accounting view. */
  /** The accounting view of two lists one after the other. */
  lemma RunnersAppend(a: seq<Enemy>, b: seq<Enemy>)
    ensures Runners(a + b) == Runners(a) + Runners(b)
  {
    assert forall i :: 0 <= i < |a + b| ==> Runners(a + b)[i] == (Runners(a) + Runners(b))[i];
  }

  lemma {:induction false} SurvivorsRunners(es: seq<Enemy>)
    ensures Runners(Survivors(es)) == Keep(Runners(es))
    decreases |es|
  {
    if es != [] {
      var e := es[|es| - 1];
      SurvivorsRunners(es[..|es| - 1]);
      assert Runners(es)[..|es| - 1] == Runners(es[..|es| - 1]);
      var rest, tail := Survivors(es[..|es| - 1]), if e.alive && !e.leaked then [e] else [];
      RunnersAppend(rest, tail);
    }
  }

  lemma {:induction false} SurvivorsAsWrittenRunners(es: seq<Enemy>)
    ensures Runners(SurvivorsAsWritten(es)) == KeepAsWritten(Runners(es))
    decreases |es|
  {
    if es != [] {
      var e := es[|es| - 1];
      SurvivorsAsWrittenRunners(es[..|es| - 1]);
      assert Runners(es)[..|es| - 1] == Runners(es[..|es| - 1]);
      var rest, tail := SurvivorsAsWritten(es[..|es| - 1]), if e.alive || !e.leaked then [e] else [];
      RunnersAppend(rest, tail);
    }
  }

  /** The clean-up lists no enemy twice when the list it filters did not. */
  lemma {:induction false} SurvivorsDistinct(es: seq<Enemy>)
    requires Distinct(es)
    ensures Distinct(Survivors(es))
    decreases |es|
  {
    if es != [] {
      var n := |es| - 1;
      var rest := Survivors(es[..n]);
      SurvivorsDistinct(es[..n]);
      SurvivorsSound(es[..n]);
      assert Survivors(es) == rest + (if es[n].alive && !es[n].leaked then [es[n]] else []);
      if es[n].alive && !es[n].leaked {
        DistinctSnoc(rest, es[n]);
      } else {
        assert Survivors(es) == rest;
      }
    }
  }

  /** What the clean-up keeps is on its route, alive, not leaked and of positive power. */
  lemma SurvivorsEntering(es: seq<Enemy>)
    requires forall k :: 0 <= k < |es| ==> es[k].Valid() && es[k].powerValue > 0
    ensures Entering(Survivors(es))
  {
    var r := Survivors(es);
    SurvivorsSound(es);
    forall k | 0 <= k < |r|
      ensures r[k].Valid() && r[k].alive && !r[k].leaked && r[k].powerValue > 0
    {
      var i :| 0 <= i < |es| && es[i] == r[k];
    }
  }

  /** The power of the enemies flagged as leaked, read off the enemies themselves. */
  function Charged(es: seq<Enemy>): int
    reads es`leaked
  {
    if es == [] then 0
    else Charged(es[..|es| - 1]) + (if es[|es| - 1].leaked then es[|es| - 1].powerValue else 0)
  }

  lemma {:induction false} ChargedRunners(es: seq<Enemy>)
    ensures Charged(es) == Charge(Runners(es))
    decreases |es|
  {
    if es != [] {
      assert Runners(es)[..|es| - 1] == Runners(es[..|es| - 1]);
      ChargedRunners(es[..|es| - 1]);
    }
  }

  /** Enemies that have just joined are charged nothing. */
  lemma {:induction false} EnteringChargesNothing(es: seq<Enemy>)
    requires Entering(es)
    ensures Charged(es) == 0
    decreases |es|
  {
    if es != [] {
      assert Entering(es[..|es| - 1]) by {
        assert forall k :: 0 <= k < |es| - 1 ==> es[..|es| - 1][k] == es[k];
      }
      EnteringChargesNothing(es[..|es| - 1]);
    }
  }

  /**
   * The intended clean-up keeps the books: the power charged for the
   * enemies of a list and the power of those it keeps together never
   * exceed the list's power, and the charge is never negative.
   */
  lemma SurvivorsWithinBudget(es: seq<Enemy>)
    requires forall k :: 0 <= k < |es| ==> es[k].powerValue >= 0
    ensures PowerOf(Survivors(es)) + Charged(es) <= PowerOf(es)
    ensures 0 <= Charged(es)
  {
    var rs := Runners(es);
    SurvivorsRunners(es);
    PowerOfRunners(es);
    PowerOfRunners(Survivors(es));
    ChargedRunners(es);
    KeepWithinBudget(rs);
    ChargeNonNegative(rs);
  }

  lemma {:induction false} ChargeNonNegative(rs: seq<Runner>)
    requires forall i :: 0 <= i < |rs| ==> rs[i].power >= 0
    ensures Charge(rs) >= 0
    decreases |rs|
  {
    if rs != [] {
      ChargeNonNegative(rs[..|rs| - 1]);
    }
  }

  /** `towers.removeIf(t -> !t.isAlive())`. */
  function Standing(ts: seq<Tower>): (r: seq<Tower>)
    reads ts`alive
    ensures |r| <= |ts|
  {
    if ts == [] then []
    else Standing(ts[..|ts| - 1]) + (if ts[|ts| - 1].alive then [ts[|ts| - 1]] else [])
  }

  /** The clean-up keeps exactly the towers of the list that still stand. */
  lemma {:induction false} StandingSound(ts: seq<Tower>)
    ensures forall i :: 0 <= i < |Standing(ts)| ==> Standing(ts)[i] in ts && Standing(ts)[i].alive
    ensures forall i :: 0 <= i < |ts| && ts[i].alive ==> ts[i] in Standing(ts)
    decreases |ts|
  {
    if ts != [] {
      var n := |ts| - 1;
      StandingSound(ts[..n]);
      var rest := Standing(ts[..n]);
      assert Standing(ts) == rest + (if ts[n].alive then [ts[n]] else []);
      forall i | 0 <= i < |ts| && ts[i].alive
        ensures ts[i] in Standing(ts)
      {
        if i < n {
          assert ts[..n][i] == ts[i];
        }
      }
      forall i | 0 <= i < |Standing(ts)|
        ensures Standing(ts)[i] in ts
      {
        if i < |rest| {
          assert rest[i] in ts[..n];
        }
      }
    }
  }

  /** `enemies.stream().noneMatch(Enemy::isAlive)`. */
  predicate NoneAlive(es: seq<Enemy>)
    reads es`alive
  {
    forall i :: 0 <= i < |es| ==> !es[i].alive
  }

  // ----- Removing while iterating --------------------------------------------

  /**
   * The entries among the first `n` of `xs` whose flag in `keep` is set,
   * in order: what an iterator has left of a list after `n` steps that
   * removed the others.
   */
  function KeptFirst<T>(xs: seq<T>, keep: seq<bool>, n: nat): (r: seq<T>)
    requires n <= |xs| && n <= |keep|
    ensures |r| <= n
  {
    if n == 0 then [] else KeptFirst(xs, keep, n - 1) + (if keep[n - 1] then [xs[n - 1]] else [])
  }

  /** The entries of `xs` whose flag in `keep` is set, in order. */
  function Kept<T>(xs: seq<T>, keep: seq<bool>): (r: seq<T>)
    requires |xs| == |keep|
    ensures |r| <= |xs|
  {
    KeptFirst(xs, keep, |xs|)
  }

  /** Only the flags of the first `n` entries matter. */
  lemma {:induction false} KeptFirstAgree<T>(xs: seq<T>, keep: seq<bool>, other: seq<bool>, n: nat)
    requires n <= |xs| && n <= |keep| && n <= |other|
    requires forall k :: 0 <= k < n ==> keep[k] == other[k]
    ensures KeptFirst(xs, keep, n) == KeptFirst(xs, other, n)
  {
    if n > 0 {
      KeptFirstAgree(xs, keep, other, n - 1);
    }
  }

  /** Every flagged entry is kept. */
  lemma {:induction false} KeptContains<T>(xs: seq<T>, keep: seq<bool>, n: nat)
    requires n <= |xs| && n <= |keep|
    ensures forall k :: 0 <= k < n && keep[k] ==> xs[k] in KeptFirst(xs, keep, n)
  {
    if n > 0 {
      KeptContains(xs, keep, n - 1);
    }
  }

  /** Nothing unlisted is kept. */
  lemma {:induction false} KeptWithin<T>(xs: seq<T>, keep: seq<bool>, n: nat)
    requires n <= |xs| && n <= |keep|
    ensures forall x :: x in KeptFirst(xs, keep, n) ==> exists k :: 0 <= k < n && xs[k] == x
  {
    if n > 0 {
      KeptWithin(xs, keep, n - 1);
      forall x | x in KeptFirst(xs, keep, n)
        ensures exists k :: 0 <= k < n && xs[k] == x
      {
        if x !in KeptFirst(xs, keep, n - 1) {
          assert xs[n - 1] == x;
        }
      }
    }
  }

  /** From a list without repeats nothing is kept twice. */
  lemma {:induction false} KeptDistinct<T>(xs: seq<T>, keep: seq<bool>, n: nat)
    requires n <= |xs| && n <= |keep| && Distinct(xs)
    ensures Distinct(KeptFirst(xs, keep, n))
  {
    if n > 0 {
      var rest := KeptFirst(xs, keep, n - 1);
      KeptDistinct(xs, keep, n - 1);
      KeptWithin(xs, keep, n - 1);
      if keep[n - 1] {
        if xs[n - 1] in rest {
          var k :| 0 <= k < n - 1 && xs[k] == xs[n - 1];
          DistinctAt(xs, k);
        }
        DistinctSnoc(rest, xs[n - 1]);
      } else {
        assert KeptFirst(xs, keep, n) == rest + [] == rest;
      }
    }
  }

  /** From a list without repeats an entry is kept only if it is flagged. */
  lemma {:induction false} KeptOnlyFlagged<T>(xs: seq<T>, keep: seq<bool>, n: nat)
    requires n <= |xs| && n <= |keep| && Distinct(xs)
    ensures forall k :: 0 <= k < n && xs[k] in KeptFirst(xs, keep, n) ==> keep[k]
  {
    if n > 0 {
      var rest := KeptFirst(xs, keep, n - 1);
      KeptOnlyFlagged(xs, keep, n - 1);
      KeptWithin(xs, keep, n - 1);
      forall k | 0 <= k < n && xs[k] in KeptFirst(xs, keep, n)
        ensures keep[k]
      {
        if k < n - 1 {
          DistinctAt(xs, k);
          assert xs[k] in rest;
        } else if xs[k] in rest {
          var j :| 0 <= j < n - 1 && xs[j] == xs[k];
          DistinctAt(xs, j);
          assert false;
        }
      }
    }
  }

  // ----- Gadgets -------------------------------------------------------------

  /** `getCurrentTilePosition` as the point the gadgets compare with their tile. */
  function TileOf(e: Enemy): (p: Point)
    reads e`position
  {
    var c := e.CurrentTilePosition();
    Point(c.x as real, c.y as real)
  }

  /** `SpeedBump`: a tile that slows the enemies standing on it until its lifetime runs out. */
  class SpeedBump {
    const tilePos: Point
    var lifetime: real

    constructor (tilePos: Point)
      ensures this.tilePos == tilePos && lifetime == SPEED_BUMP_LIFETIME_SEC
    {
      this.tilePos := tilePos;
      lifetime := SPEED_BUMP_LIFETIME_SEC;
    }

    method Update(dt: real)
      modifies this`lifetime
      ensures lifetime == old(lifetime) - dt
    {
      lifetime := lifetime - dt;
    }

    predicate IsActive()
      reads this`lifetime
    {
      lifetime > 0.0
    }

    predicate ContainsPoint(p: Point)
    {
      tilePos == p
    }
  }

  /** The tiles the bumps of the list lie on. */
  function BumpTiles(bs: seq<SpeedBump>): (r: set<Point>)
    ensures forall k :: 0 <= k < |bs| ==> bs[k].tilePos in r
  {
    if bs == [] then {} else BumpTiles(bs[..|bs| - 1]) + {bs[|bs| - 1].tilePos}
  }

  lemma BumpTilesSnoc(bs: seq<SpeedBump>, more: seq<SpeedBump>)
    requires |more| <= 1
    ensures BumpTiles(bs + more) == BumpTiles(bs) + BumpTiles(more)
  {
    if more != [] {
      assert (bs + more)[..|bs|] == bs;
      assert more[..0] == [];
    } else {
      assert bs + more == bs;
    }
  }

  function Lifetimes(bs: seq<SpeedBump>): (ls: seq<real>)
    reads bs`lifetime
    ensures |ls| == |bs| && forall k :: 0 <= k < |bs| ==> ls[k] == bs[k].lifetime
  {
    if bs == [] then [] else Lifetimes(bs[..|bs| - 1]) + [bs[|bs| - 1].lifetime]
  }

  /** The flags of the lifetimes still positive: the bumps `isActive` keeps. */
  function Live(ls: seq<real>): (f: seq<bool>)
    ensures |f| == |ls| && forall k :: 0 <= k < |ls| ==> f[k] == (ls[k] > 0.0)
  {
    seq(|ls|, k requires 0 <= k < |ls| => ls[k] > 0.0)
  }

  /** The bump lifetimes after `dt` more seconds. */
  function Aged(ls: seq<real>, dt: real): (r: seq<real>)
    ensures |r| == |ls| && forall k :: 0 <= k < |ls| ==> r[k] == ls[k] - dt
  {
    seq(|ls|, k requires 0 <= k < |ls| => ls[k] - dt)
  }

  function Slows(es: seq<Enemy>): (ss: seq<Slow>)
    reads es`slowFactor, es`slowEndTime
    ensures |ss| == |es| && forall j :: 0 <= j < |es| ==> ss[j] == es[j].Slowing()
  {
    if es == [] then [] else Slows(es[..|es| - 1]) + [es[|es| - 1].Slowing()]
  }

  /** What a gadget sees of an enemy: its vitals, whether it leaked, and its tile. */
  datatype Target = Target(v: Vitals, leaked: bool, tile: Point)

  function TargetView(e: Enemy): Target
    reads e`maxHp, e`currentHp, e`alive, e`leaked, e`position
  {
    Target(e.Vit(), e.leaked, TileOf(e))
  }

  function Targets(es: seq<Enemy>): (ts: seq<Target>)
    reads es`maxHp, es`currentHp, es`alive, es`leaked, es`position
    ensures |ts| == |es| && forall i :: 0 <= i < |es| ==> ts[i] == TargetView(es[i])
  {
    if es == [] then [] else Targets(es[..|es| - 1]) + [TargetView(es[|es| - 1])]
  }

  /** `BumpSlow` enemy by enemy. */
  function BumpSlows(ts: seq<Target>, tiles: set<Point>, ss: seq<Slow>): (r: seq<Slow>)
    requires |ts| == |ss|
    ensures |r| == |ss| && forall i :: 0 <= i < |ss| ==> r[i] == BumpSlow(ts[i], tiles, ss[i])
  {
    seq(|ss|, i requires 0 <= i < |ss| => BumpSlow(ts[i], tiles, ss[i]))
  }

  /** Alive and not leaked: the enemies a gadget acts on. */
  predicate Exposed(t: Target)
  {
    t.v.alive && !t.leaked
  }

  /**
   * One enemy's slow after bumps on `tiles` have acted: an exposed enemy
   * standing on one of them is slowed to `SPEED_BUMP_FACTOR` for
   * `BUMP_SLOW_SEC`, any other keeps its slow.
   */
  function BumpSlow(t: Target, tiles: set<Point>, s: Slow): (r: Slow)
    ensures Exposed(t) && t.tile in tiles ==> r == Slow(SPEED_BUMP_FACTOR, BUMP_SLOW_SEC)
    ensures !Exposed(t) || t.tile !in tiles ==> r == s
  {
    if Exposed(t) && t.tile in tiles then Slow(SPEED_BUMP_FACTOR, BUMP_SLOW_SEC) else s
  }

  /** Bumps acting one after another act as their tiles together: a second slow only repeats the first. */
  lemma BumpSlowTwice(t: Target, a: set<Point>, b: set<Point>, s: Slow)
    ensures BumpSlow(t, b, BumpSlow(t, a, s)) == BumpSlow(t, a + b, s)
  {
  }

  /** An exposed enemy stands on the tile. */
  predicate Touched(at: Point, ts: seq<Target>)
  {
    exists j :: 0 <= j < |ts| && Exposed(ts[j]) && ts[j].tile == at
  }

  /** One enemy after a blast at `at`. */
  function BombHit(at: Point, dist: Distance, t: Target): Target
  {
    if Exposed(t) && PointDistance(dist, at, t.tile) <= MINE_RADIUS then t.(v := Damaged(t.v, MINE_DAMAGE)) else t
  }

  /** Every enemy after a blast at `at`. */
  function BombHits(at: Point, dist: Distance, ts: seq<Target>): (r: seq<Target>)
    ensures |r| == |ts| && forall i :: 0 <= i < |ts| ==> r[i] == BombHit(at, dist, ts[i])
  {
    if ts == [] then [] else BombHits(at, dist, ts[..|ts| - 1]) + [BombHit(at, dist, ts[|ts| - 1])]
  }

  /**
   * A blast deals its damage to exactly the exposed enemies within a tile
   * and a half of the bomb; the others, and every enemy's tile and leaked
   * flag, are untouched.
   */
  lemma BlastReach(at: Point, dist: Distance, ts: seq<Target>)
    ensures var r := BombHits(at, dist, ts);
      && |r| == |ts|
      && forall i :: 0 <= i < |ts| ==>
           && r[i].tile == ts[i].tile && r[i].leaked == ts[i].leaked && r[i].v.maxHp == ts[i].v.maxHp
           && (Exposed(ts[i]) && PointDistance(dist, at, ts[i].tile) <= MINE_RADIUS ==>
                 r[i].v.alive == (ts[i].v.currentHp > MINE_DAMAGE)
                 && (r[i].v.alive ==> r[i].v.currentHp == ts[i].v.currentHp - MINE_DAMAGE))
           && (!Exposed(ts[i]) || PointDistance(dist, at, ts[i].tile) > MINE_RADIUS ==> r[i] == ts[i])
  {
  }

  /** What the bomb pass sees of a bomb: its tile and whether it has gone off. */
  datatype Mine = Mine(at: Point, triggered: bool)

  function Mines(bs: seq<Bomb>): (ms: seq<Mine>)
    reads bs`triggered
    ensures |ms| == |bs| && forall i :: 0 <= i < |bs| ==> ms[i] == Mine(bs[i].tilePos, bs[i].triggered)
  {
    if bs == [] then [] else Mines(bs[..|bs| - 1]) + [Mine(bs[|bs| - 1].tilePos, bs[|bs| - 1].triggered)]
  }

  /** The flags of the bombs not yet triggered: the ones the iterator keeps. */
  function Armed(ms: seq<Mine>): (f: seq<bool>)
    ensures |f| == |ms| && forall k :: 0 <= k < |ms| ==> f[k] == !ms[k].triggered
  {
    seq(|ms|, k requires 0 <= k < |ms| => !ms[k].triggered)
  }

  /** One bomb's turn: an armed bomb with an exposed enemy on its tile goes off. */
  function BombTurn(m: Mine, dist: Distance, ts: seq<Target>): (r: (Mine, seq<Target>))
  {
    if !m.triggered && Touched(m.at, ts) then (m.(triggered := true), BombHits(m.at, dist, ts)) else (m, ts)
  }

  /** The bombs and the enemies after the turns of the bombs in `ms`, in list order. */
  function BombPass(ms: seq<Mine>, dist: Distance, ts: seq<Target>): (r: (seq<Mine>, seq<Target>))
    ensures |r.0| == |ms| && |r.1| == |ts|
    decreases |ms|
  {
    if ms == [] then ([], ts)
    else
      var p := BombPass(ms[..|ms| - 1], dist, ts);
      var t := BombTurn(ms[|ms| - 1], dist, p.1);
      (p.0 + [t.0], t.1)
  }

  /**
   * The bomb pass never disarms a bomb and never moves a bomb; a bomb
   * armed after it had no exposed enemy on its tile at its turn, and a
   * bomb it set off had one.
   */
  lemma {:induction false} BombPassFires(ms: seq<Mine>, dist: Distance, ts: seq<Target>)
    ensures var r := BombPass(ms, dist, ts);
      forall k :: 0 <= k < |ms| ==>
        && r.0[k].at == ms[k].at
        && (ms[k].triggered ==> r.0[k].triggered)
        && (!ms[k].triggered ==>
              (r.0[k].triggered <==> Touched(ms[k].at, BombPass(ms[..k], dist, ts).1)))
    decreases |ms|
  {
    if ms != [] {
      var n := |ms| - 1;
      BombPassFires(ms[..n], dist, ts);
      assert ms[..n][..n] == ms[..n];
      forall k | 0 <= k < n
        ensures ms[..n][..k] == ms[..k]
      {
      }
    }
  }

  /** The body of `trigger`'s loop for one enemy. */
  method HitIfNear(at: Point, dist: Distance, enemy: Enemy)
    modifies enemy`currentHp, enemy`alive
    ensures TargetView(enemy) == BombHit(at, dist, old(TargetView(enemy)))
  {
    if enemy.alive && !enemy.leaked {
      var enemyTile := TileOf(enemy);
      if PointDistance(dist, at, enemyTile) <= MINE_RADIUS {
        enemy.TakeDamage(MINE_DAMAGE);
      }
    }
  }

  /** `trigger`'s loop: every exposed enemy within a tile and a half of `at` takes the damage. */
  method Blast(at: Point, dist: Distance, enemies: seq<Enemy>)
    requires Distinct(enemies)
    modifies enemies`currentHp, enemies`alive
    ensures Targets(enemies) == BombHits(at, dist, old(Targets(enemies)))
  {
    ghost var before := Targets(enemies);
    for i := 0 to |enemies|
      invariant forall j :: 0 <= j < |enemies| ==> TargetView(enemies[j]) == if j < i then BombHit(at, dist, before[j]) else before[j]
    {
      HitAt(at, dist, enemies, i);
    }
    assert forall j :: 0 <= j < |enemies| ==> Targets(enemies)[j] == BombHits(at, dist, before)[j];
  }

  /** One turn of `trigger`'s loop: the `i`th enemy takes the blast as `HitIfNear` says, and no other enemy changes. */
  method HitAt(at: Point, dist: Distance, enemies: seq<Enemy>, i: nat)
    requires Distinct(enemies) && i < |enemies|
    modifies {enemies[i]}`currentHp, {enemies[i]}`alive
    ensures TargetView(enemies[i]) == BombHit(at, dist, old(TargetView(enemies[i])))
    ensures forall j | 0 <= j < |enemies| && j != i :: TargetView(enemies[j]) == old(TargetView(enemies[j]))
  {
    DistinctAt(enemies, i);
    HitIfNear(at, dist, enemies[i]);
  }

  /** `Bomb`: a tile that blasts the enemies around it the first time one steps on it. */
  class Bomb {
    const tilePos: Point
    var triggered: bool

    constructor (tilePos: Point)
      ensures this.tilePos == tilePos && !triggered
    {
      this.tilePos := tilePos;
      triggered := false;
    }

    predicate ContainsPoint(p: Point)
    {
      tilePos == p
    }

    /**
     * `trigger`: the bomb is spent and every exposed enemy within a tile and
     * a half of it takes the bomb's damage.
     */
    method Trigger(enemies: seq<Enemy>, dist: Distance)
      requires Distinct(enemies)
      modifies this`triggered, enemies`currentHp, enemies`alive
      ensures triggered
      ensures Targets(enemies) == BombHits(tilePos, dist, old(Targets(enemies)))
    {
      triggered := true;
      Blast(tilePos, dist, enemies);
    }
  }

  /** The search of the bomb loop: is an exposed enemy standing on the tile? */
  method FindOnTile(at: Point, enemies: seq<Enemy>) returns (found: bool)
    ensures found <==> Touched(at, Targets(enemies))
  {
    ghost var ts := Targets(enemies);
    found := false;
    var i := 0;
    while i < |enemies| && !found
      invariant 0 <= i <= |enemies|
      invariant found <==> exists j :: 0 <= j < i && Exposed(ts[j]) && ts[j].tile == at
    {
      var enemy := enemies[i];
      found := enemy.alive && !enemy.leaked && TileOf(enemy) == at;
      i := i + 1;
    }
  }

  /**
   * The body of the bomb loop for one bomb: an armed bomb goes off when an
   * exposed enemy stands on its tile; the bomb is kept while it is armed.
   */
  method FireIfTouched(bomb: Bomb, enemies: seq<Enemy>, dist: Distance) returns (armed: bool)
    requires Distinct(enemies)
    modifies bomb`triggered, enemies`currentHp, enemies`alive
    ensures (Mine(bomb.tilePos, bomb.triggered), Targets(enemies))
      == BombTurn(Mine(bomb.tilePos, old(bomb.triggered)), dist, old(Targets(enemies)))
    ensures armed == !bomb.triggered
  {
    if !bomb.triggered {
      var found := FindOnTile(bomb.tilePos, enemies);
      if found {
        bomb.Trigger(enemies, dist);
      }
    }
    armed := !bomb.triggered;
  }

  /**
   * What holds after the first `i` bombs took their turns: they now read
   * `done`, the rest still read `ms`, the turns so far are the bomb pass
   * over the first `i` mines, and the kept ones are those of the first `i`
   * still armed.
   */
  ghost predicate BombRounds(all: seq<Bomb>, enemies: seq<Enemy>, dist: Distance, i: nat, kept: seq<Bomb>,
                             ms: seq<Mine>, ts: seq<Target>, done: seq<Mine>)
    reads all, enemies
  {
    i <= |all| && |ms| == |all| && |done| == i &&
    (forall k :: 0 <= k < i ==> Mine(all[k].tilePos, all[k].triggered) == done[k]) &&
    (forall k :: i <= k < |all| ==> Mine(all[k].tilePos, all[k].triggered) == ms[k]) &&
    (done, Targets(enemies)) == BombPass(ms[..i], dist, ts) &&
    kept == KeptFirst(all, Armed(done), i)
  }

  /**
   * One round of the bomb loop: the `i`-th bomb takes its turn, and what
   * holds of the first `i` bombs then holds of the first `i + 1`.
   */
  method SweepBombsStep(all: seq<Bomb>, enemies: seq<Enemy>, dist: Distance, i: nat, kept: seq<Bomb>,
                        ghost ms: seq<Mine>, ghost ts: seq<Target>, ghost done: seq<Mine>)
    returns (next: seq<Bomb>, ghost nextDone: seq<Mine>)
    requires Distinct(enemies) && Distinct(all) && i < |all|
    requires BombRounds(all, enemies, dist, i, kept, ms, ts, done)
    modifies {all[i]}`triggered, enemies`currentHp, enemies`alive
    ensures BombRounds(all, enemies, dist, i + 1, next, ms, ts, nextDone)
  {
    var bomb := all[i];
    DistinctAt(all, i);
    var armed := FireIfTouched(bomb, enemies, dist);
    var mine := Mine(bomb.tilePos, bomb.triggered);
    nextDone := done + [mine];
    next := kept + if armed then [bomb] else [];
    BombRoundNext(all, dist, i, kept, ms, ts, done, old(Targets(enemies)), mine, Targets(enemies));
  }

  /** The pass and the kept list over the first `i + 1` bombs, from those over the first `i` and the `i`-th turn. */
  lemma BombRoundNext(all: seq<Bomb>, dist: Distance, i: nat, kept: seq<Bomb>, ms: seq<Mine>, ts: seq<Target>,
                      done: seq<Mine>, before: seq<Target>, mine: Mine, after: seq<Target>)
    requires i < |all| && |ms| == |all| && |done| == i
    requires (done, before) == BombPass(ms[..i], dist, ts) && kept == KeptFirst(all, Armed(done), i)
    requires (mine, after) == BombTurn(ms[i], dist, before)
    ensures (done + [mine], after) == BombPass(ms[..i + 1], dist, ts)
    ensures KeptFirst(all, Armed(done + [mine]), i + 1) == kept + if !mine.triggered then [all[i]] else []
  {
    assert ms[..i + 1][..i] == ms[..i];
    KeptFirstAgree(all, Armed(done), Armed(done + [mine]), i);
  }

  /**
   * The bomb loop: the bombs take their turns in list order, each blasting
   * the enemies as the earlier turns left them; the kept bombs are the
   * ones still armed.
   */
  method SweepBombs(all: seq<Bomb>, enemies: seq<Enemy>, dist: Distance) returns (kept: seq<Bomb>)
    requires Distinct(enemies) && Distinct(all)
    modifies all`triggered, enemies`currentHp, enemies`alive
    ensures Slows(enemies) == old(Slows(enemies))
    ensures var p := BombPass(old(Mines(all)), dist, old(Targets(enemies)));
      Mines(all) == p.0 && Targets(enemies) == p.1
    ensures kept == Kept(all, Armed(BombPass(old(Mines(all)), dist, old(Targets(enemies))).0))
  {
    kept := BombRoundsAll(all, enemies, dist);
    SlowsKept(enemies);
  }

  /** The bomb loop itself: every bomb takes its turn, as `BombPass` says. */
  method BombRoundsAll(all: seq<Bomb>, enemies: seq<Enemy>, dist: Distance) returns (kept: seq<Bomb>)
    requires Distinct(enemies) && Distinct(all)
    modifies all`triggered, enemies`currentHp, enemies`alive
    ensures var p := BombPass(old(Mines(all)), dist, old(Targets(enemies)));
      Mines(all) == p.0 && Targets(enemies) == p.1 && kept == Kept(all, Armed(p.0))
  {
    kept := [];
    ghost var ms, ts := Mines(all), Targets(enemies);
    ghost var done: seq<Mine> := [];
    for i := 0 to |all|
      invariant BombRounds(all, enemies, dist, i, kept, ms, ts, done)
    {
      kept, done := SweepBombsStep(all, enemies, dist, i, kept, ms, ts, done);
    }
    BombRoundsDone(all, enemies, dist, kept, ms, ts, done);
  }

  /** Once every bomb has taken its turn, the mines and targets are the bomb pass's and the kept bombs its armed ones. */
  lemma BombRoundsDone(all: seq<Bomb>, enemies: seq<Enemy>, dist: Distance, kept: seq<Bomb>,
                       ms: seq<Mine>, ts: seq<Target>, done: seq<Mine>)
    requires BombRounds(all, enemies, dist, |all|, kept, ms, ts, done)
    ensures Mines(all) == done && (done, Targets(enemies)) == BombPass(ms, dist, ts)
    ensures kept == Kept(all, Armed(done))
  {
    assert ms[..|all|] == ms;
  }

  // ----- Choosing a target ---------------------------------------------------

  /** The running best of `findBestTarget`: distance to the exit, hit points, and the index it came from. */
  datatype Lead = Lead(toExit: real, hp: real, index: Option<nat>)

  /**
   * The enemies `findBestTarget` considers: alive, not leaked, targetable by
   * the tower, and no farther than its range in tiles times the tile size.
   */
  predicate Aimable(aim: Sight, dist: Distance, f: Foe)
  {
    Qualifies(aim, dist, f) && PointDistance(dist, aim.at, f.centre) <= aim.range / TILE * TILE
  }

  /** Nearer the exit, or as near with fewer hit points. */
  predicate Ahead(f: Foe, toExit: real, hp: real)
  {
    f.toEnd < toExit || (f.toEnd == toExit && f.hp < hp)
  }

  /** The scan of `findBestTarget` over the first `n` enemies, from `Double.MAX_VALUE` twice. */
  function LeadScan(aim: Sight, dist: Distance, fs: seq<Foe>, n: nat): (r: Lead)
    requires n <= |fs|
    ensures r.index.Some? ==> r.index.value < n
  {
    if n == 0 then Lead(DOUBLE_MAX, DOUBLE_MAX, None)
    else
      var before := LeadScan(aim, dist, fs, n - 1);
      var f := fs[n - 1];
      if Aimable(aim, dist, f) && Ahead(f, before.toExit, before.hp) then Lead(f.toEnd, f.hp, Some(n - 1)) else before
  }

  /**
   * `findBestTarget` picks the first considered enemy that no other
   * considered enemy is ahead of, by distance to the exit and then hit
   * points; it picks none exactly when no considered enemy is ahead of
   * `Double.MAX_VALUE` on both counts.
   */
  lemma {:induction false} LeadScanIsFirstLeast(aim: Sight, dist: Distance, fs: seq<Foe>, n: nat)
    requires n <= |fs|
    ensures var r := LeadScan(aim, dist, fs, n);
      && (forall j :: 0 <= j < n && Aimable(aim, dist, fs[j]) ==> !Ahead(fs[j], r.toExit, r.hp))
      && (r.index.None? <==>
            r == Lead(DOUBLE_MAX, DOUBLE_MAX, None)
            && forall j :: 0 <= j < n && Aimable(aim, dist, fs[j]) ==> !Ahead(fs[j], DOUBLE_MAX, DOUBLE_MAX))
      && (r.index.Some? ==>
            var k := r.index.value;
            && Aimable(aim, dist, fs[k]) && r.toExit == fs[k].toEnd && r.hp == fs[k].hp
            && Ahead(fs[k], DOUBLE_MAX, DOUBLE_MAX)
            && forall j :: 0 <= j < k && Aimable(aim, dist, fs[j]) ==> Ahead(fs[k], fs[j].toEnd, fs[j].hp))
    decreases n
  {
    if n > 0 {
      LeadScanIsFirstLeast(aim, dist, fs, n - 1);
    }
  }

  // ----- The enemy pass --------------------------------------------------------

  /**
   * What `enemy.update(dt)` did to `e`: a dead enemy, or one that had
   * leaked, stayed where it was; any other walked its step along the route
   * and its slow ran down; a live tank ran its combat timer.
   */
  twostate predicate Stepped(e: Enemy, dt: real, dist: Distance)
    reads e
  {
    && old(e.Valid()) && e.Valid()
    && (!e.alive || old(e.leaked) ==>
          e.Walking() == old(e.Walking()) && e.Slowing() == old(e.Slowing()) && e.position == old(e.position))
    && (e.alive && !old(e.leaked) ==>
          && e.Walking() == Advanced(old(e.Walking()), e.route, dist, old(e.StepLength(dt)))
          && e.Slowing() == SlowTicked(old(e.Slowing()), dt)
          && (e.leaked ==> e.position == old(e.position))
          && (!e.leaked ==>
                var pixel := PathPixel(e.route, e.currentWaypointIndex, e.progressToNextWaypoint);
                pixel.Some? && e.position == PlacedAt(pixel.value, e.width, e.height)))
    && (e.kind == Tank && e.alive ==> e.fireTimer == CombatTicked(old(e.fireTimer), dt))
    && (!(e.kind == Tank && e.alive) ==> e.fireTimer == old(e.fireTimer))
  }

  /** The poses of `es`, in order. */
  function Poses(es: seq<Enemy>): (ps: seq<EnemyPose>)
    reads es`position, es`currentWaypointIndex, es`progressToNextWaypoint, es`leaked
    reads es`slowFactor, es`slowEndTime, es`maxHp, es`currentHp, es`alive, es`fireTimer
    ensures |ps| == |es| && forall i :: 0 <= i < |es| ==> ps[i] == es[i].Pose()
  {
    if es == [] then [] else Poses(es[..|es| - 1]) + [es[|es| - 1].Pose()]
  }

  /** The slow an enemy of pose `p` has after its `update`: it ticks only while the enemy is alive and has not leaked. */
  function StepSlow(p: EnemyPose, dt: real): Slow
  {
    if p.vit.alive && !p.walk.leaked then SlowTicked(p.slow, dt) else p.slow
  }

  /**
   * The enemies `es`, which stood in the poses `ps`, are the ones made from
   * the spawns `ss`, one each and in order: the kind, route and power of the
   * spawn, and the entry pose `createEnemy` gives them.
   */
  ghost predicate Entered(es: seq<Enemy>, ps: seq<EnemyPose>, ss: seq<EnemySpawn>, d: Difficulty, wave: int)
    reads RoutesOf(ss)
  {
    && |es| == |ss| && |ps| == |ss|
    && forall n: nat, k {:trigger EnteredKey(n), ss[k]} :: EnteredKey(n) && 0 <= k < |ss| ==>
         && MakesEnemy(ss[k]) && es[k].kind == ss[k].kind.kind && es[k].route == ss[k].route.waypoints
         && es[k].powerValue == KindPower(ss[k].kind)
         && ps[k] == EntryPose(es[k].kind, es[k].route, d, wave)
  }

  lemma MadeAllEntered(es: seq<Enemy>, ss: seq<EnemySpawn>, d: Difficulty, wave: int)
    requires MadeAll(es, ss, d, wave)
    ensures Entered(es, Poses(es), ss, d, wave)
  {
    forall k | 0 <= k < |ss|
      ensures Poses(es)[k] == EntryPose(es[k].kind, es[k].route, d, wave)
    {
      assert Made(es[k], ss[k], d, wave);
      MadeIsEntry(es[k], ss[k], d, wave);
    }
  }

  /** The wave manager's counters and the spawns of its current wave, as a value. */
  datatype WaveRun = WaveRun(at: Progress, spawns: seq<EnemySpawn>)

  function RunOf(wm: WaveManager): (r: WaveRun)
    reads wm`currentWave, wm`waveTimer, wm`waveInProgress, wm`totalEnemyPower, wm`spawnedEnemyPower
    reads wm`currentSpawnIndex, wm`spawnTimer, wm`currentWaveSpawns
    ensures r.at == wm.State() && r.spawns == wm.currentWaveSpawns
  {
    WaveRun(wm.State(), wm.currentWaveSpawns)
  }

  /**
   * What `waveManager.update(dt)` did to `wm`, which stood at `from`, the
   * buffer aside: consistent; between waves the wave clock ran and, once
   * it reached the delay, the next wave began with its spawns generated;
   * during a wave the spawn clock ran and exactly the spawns now due were
   * released.
   */
  ghost predicate WavesRan(from: WaveRun, wm: WaveManager, dt: real, rolls: seq<int>)
    reads wm`currentWave, wm`waveTimer, wm`waveInProgress, wm`totalEnemyPower, wm`spawnedEnemyPower
    reads wm`currentWaveSpawns, wm`currentSpawnIndex, wm`spawnTimer, wm`routes
  {
    var at := from.at;
    && wm.Valid()
    && forall n: nat {:trigger WavesKey(n)} :: WavesKey(n) ==>
    && (!at.inProgress && (at.waveTimer + dt < WAVE_DELAY || at.wave >= TOTAL_WAVES) ==>
          wm.State() == at.(waveTimer := at.waveTimer + dt) && wm.currentWaveSpawns == from.spawns)
    && (!at.inProgress && at.waveTimer + dt >= WAVE_DELAY && at.wave < TOTAL_WAVES ==>
          && wm.State() == Progress(at.wave + 1, 0.0, true, wm.totalEnemyPower, 0, 0, 0.0)
          && |wm.routes| > 0 && TotalEnemies(wm.currentWave, wm.difficulty) <= |rolls|
          && wm.currentWaveSpawns == WaveSpawns(wm.currentWave, wm.difficulty, wm.routes, rolls))
    && (at.inProgress ==>
          && wm.currentWave == at.wave && wm.currentWaveSpawns == from.spawns
          && wm.spawnTimer == at.spawnTimer + dt
          && wm.Released(at.index, at.waveTimer, at.inProgress))
  }

  /** The spawns such a run from `from` released that make an enemy, in order: none unless a wave was in progress. */
  function ReleasedNow(from: WaveRun, wm: WaveManager): seq<EnemySpawn>
    reads wm`currentSpawnIndex, wm`currentWaveSpawns
  {
    if from.at.inProgress && 0 <= from.at.index <= wm.currentSpawnIndex <= |wm.currentWaveSpawns|
    then EmittedBetween(wm.currentWaveSpawns, from.at.index, wm.currentSpawnIndex)
    else []
  }

  /**
   * The wave manager `wm`, which stood at `from`, ran as `WavesRan` says
   * and released the spawns `released`, and the enemies `spawned` were
   * made from them, standing in the poses `entry`.
   */
  ghost predicate Handed(from: WaveRun, wm: WaveManager, dt: real, rolls: seq<int>,
                         released: seq<EnemySpawn>, spawned: seq<Enemy>, entry: seq<EnemyPose>)
    reads wm`currentWave, wm`waveTimer, wm`waveInProgress, wm`totalEnemyPower, wm`spawnedEnemyPower
    reads wm`currentWaveSpawns, wm`currentSpawnIndex, wm`spawnTimer, wm`routes, RoutesOf(released)
  {
    forall n: nat {:trigger HandedKey(n)} :: HandedKey(n) ==>
      && WavesRan(from, wm, dt, rolls) && released == ReleasedNow(from, wm)
      && Entered(spawned, entry, released, wm.difficulty, wm.currentWave)
  }

  lemma HandedIntro(from: WaveRun, wm: WaveManager, dt: real, rolls: seq<int>,
                    released: seq<EnemySpawn>, spawned: seq<Enemy>, entry: seq<EnemyPose>)
    requires WavesRan(from, wm, dt, rolls) && released == ReleasedNow(from, wm)
    requires Entered(spawned, entry, released, wm.difficulty, wm.currentWave)
    ensures Handed(from, wm, dt, rolls, released, spawned, entry)
  {
  }

  /** Frame lemma: a change that leaves the wave manager and the routes alone keeps what it handed over. */
  twostate lemma HandedKept(w: Witness)
    requires unchanged(w.wm) && unchanged(set r: Route | r in RoutesOf(w.released))
    requires old(Handed(w.from, w.wm, w.dt, w.rolls, w.released, w.spawned, w.entry))
    ensures Handed(w.from, w.wm, w.dt, w.rolls, w.released, w.spawned, w.entry)
  {
    assert HandedKey(0) && WavesKey(0) && EnteredKey(0);
  }

  /**
   * What a frame did, beyond the scenes: the wave manager was handed over
   * as `Handed` says; the field `field` and the gadgets, `bumps` and
   * `bombs` as listed before the frame, now show the scene `after`; and
   * `charge` is the power of the field's leaked enemies.
   */
  ghost predicate Outcome(field: seq<Enemy>, bumps: seq<SpeedBump>, bombs: seq<Bomb>, after: Scene, charge: int,
                          from: WaveRun, wm: WaveManager, dt: real, rolls: seq<int>,
                          released: seq<EnemySpawn>, spawned: seq<Enemy>, entry: seq<EnemyPose>)
    reads field`position, field`currentWaypointIndex, field`progressToNextWaypoint, field`leaked
    reads field`slowFactor, field`slowEndTime, field`maxHp, field`currentHp, field`alive, field`fireTimer
    reads bumps`lifetime, bombs`triggered
    reads wm`currentWave, wm`waveTimer, wm`waveInProgress, wm`totalEnemyPower, wm`spawnedEnemyPower
    reads wm`currentWaveSpawns, wm`currentSpawnIndex, wm`spawnTimer, wm`routes, RoutesOf(released)
  {
    forall n: nat {:trigger OutcomeKey(n)} :: OutcomeKey(n) ==>
      && Handed(from, wm, dt, rolls, released, spawned, entry)
      && Shows(field, bumps, bombs, after) && charge == Charged(field)
  }

  lemma OutcomeIntro(field: seq<Enemy>, bumps: seq<SpeedBump>, bombs: seq<Bomb>, after: Scene, charge: int,
                     from: WaveRun, wm: WaveManager, dt: real, rolls: seq<int>,
                     released: seq<EnemySpawn>, spawned: seq<Enemy>, entry: seq<EnemyPose>)
    requires Handed(from, wm, dt, rolls, released, spawned, entry)
    requires Shows(field, bumps, bombs, after) && charge == Charged(field)
    ensures Outcome(field, bumps, bombs, after, charge, from, wm, dt, rolls, released, spawned, entry)
  {
  }

  /** The arguments of `Outcome`, to reason about across a change of state. */
  datatype Witness = Witness(field: seq<Enemy>, bumps: seq<SpeedBump>, bombs: seq<Bomb>, after: Scene, charge: int,
                             from: WaveRun, wm: WaveManager, dt: real, rolls: seq<int>,
                             released: seq<EnemySpawn>, spawned: seq<Enemy>, entry: seq<EnemyPose>)

  /** Frame lemma: a change that leaves the field, the gadgets, the wave manager and the routes alone keeps the outcome. */
  twostate lemma OutcomeKept(w: Witness)
    requires unchanged(w.field) && unchanged(w.bumps) && unchanged(w.bombs) && unchanged(w.wm)
    requires unchanged(set r: Route | r in RoutesOf(w.released))
    requires old(Outcome(w.field, w.bumps, w.bombs, w.after, w.charge, w.from, w.wm, w.dt, w.rolls, w.released, w.spawned, w.entry))
    ensures Outcome(w.field, w.bumps, w.bombs, w.after, w.charge, w.from, w.wm, w.dt, w.rolls, w.released, w.spawned, w.entry)
  {
    assert OutcomeKey(0) && HandedKey(0) && ShowsKey(0) && WavesKey(0) && EnteredKey(0);
  }

  function RunnerOf(e: Enemy): Runner
    reads e`alive, e`leaked
  {
    Runner(e.powerValue, e.alive, e.leaked)
  }

  /**
   * The body of `updateEnemies`' loop: the `i`th enemy steps, and its power
   * is charged if it is leaked; no other enemy changes.
   */
  method StepOne(enemies: seq<Enemy>, i: nat, dt: real, dist: Distance) returns (gain: int)
    requires Distinct(enemies) && i < |enemies| && enemies[i].Valid()
    modifies {enemies[i]}`position, {enemies[i]}`currentWaypointIndex, {enemies[i]}`progressToNextWaypoint, {enemies[i]}`leaked
    modifies {enemies[i]}`slowFactor, {enemies[i]}`slowEndTime, {enemies[i]}`fireTimer
    ensures Stepped(enemies[i], dt, dist)
    ensures gain == if enemies[i].leaked then enemies[i].powerValue else 0
    ensures forall j | 0 <= j < |enemies| && j != i :: unchanged(enemies[j])
  {
    DistinctAt(enemies, i);
    var enemy := enemies[i];
    enemy.Update(dt, dist);
    gain := if enemy.leaked then enemy.powerValue else 0;
  }

  /** `updateEnemies`' loop: every enemy steps, and the power of each one flagged as leaked is summed. */
  method StepAll(enemies: seq<Enemy>, dt: real, dist: Distance) returns (charge: int)
    requires Distinct(enemies)
    requires forall i :: 0 <= i < |enemies| ==> enemies[i].Valid()
    modifies enemies`position, enemies`currentWaypointIndex, enemies`progressToNextWaypoint, enemies`leaked
    modifies enemies`slowFactor, enemies`slowEndTime, enemies`fireTimer
    ensures forall i :: 0 <= i < |enemies| ==> Stepped(enemies[i], dt, dist)
    ensures charge == Charged(enemies)
  {
    charge := 0;
    ghost var runs: seq<Runner> := [];
    for i := 0 to |enemies|
      invariant |runs| == i && forall j :: 0 <= j < i ==> runs[j] == RunnerOf(enemies[j])
      invariant charge == Charge(runs)
      invariant forall j :: 0 <= j < |enemies| ==> if j < i then Stepped(enemies[j], dt, dist) else unchanged(enemies[j])
    {
      var gain := StepOne(enemies, i, dt, dist);
      ChargeSnoc(runs, RunnerOf(enemies[i]));
      runs := runs + [RunnerOf(enemies[i])];
      charge := charge + gain;
    }
    assert runs == Runners(enemies);
    ChargedRunners(enemies);
  }

  /**
   * The field and the gadgets at one moment, as values: the enemies' poses
   * and what the gadgets see of them, the bumps' lifetimes, and the bombs.
   */
  datatype Scene = Scene(poses: seq<EnemyPose>, targets: seq<Target>, lifetimes: seq<real>, mines: seq<Mine>)

  /** The tile holding the centre of `e` when it stands at `at`: `TileOf` for a place given as a value. */
  function TileAt(e: Enemy, at: Point): Point
  {
    var c := CentreOf(at, e.width, e.height);
    Point(FloorToInt(c.x / TILE) as real, FloorToInt(c.y / TILE) as real)
  }

  /**
   * What the gadgets see of the enemies of `field` standing in the poses
   * `ps`: their vitals, their leak flags and the tiles of their centres.
   */
  function Seen(field: seq<Enemy>, ps: seq<EnemyPose>): (ts: seq<Target>)
    requires |ps| == |field|
    ensures |ts| == |field|
    ensures forall i :: 0 <= i < |field| ==> ts[i] == Target(ps[i].vit, ps[i].walk.leaked, TileAt(field[i], ps[i].position))
  {
    seq(|field|, i requires 0 <= i < |field| => Target(ps[i].vit, ps[i].walk.leaked, TileAt(field[i], ps[i].position)))
  }

  /**
   * Keys that hold of every number.  A predicate stated as
   * `forall n {:trigger K(n)} :: K(n) ==> Body` means `Body`, but the
   * verifier unfolds it only where a `K` term occurs: the methods that
   * only pass such a fact on do not reason about its body, and a lemma
   * that needs the body asserts `K(0)`.
   */
  function ShowsKey(n: nat): bool { true }
  function TickedKey(n: nat): bool { true }
  function GadgetsKey(n: nat): bool { true }
  function MarchKey(n: nat): bool { true }
  function EnteredKey(n: nat): bool { true }
  function WavesKey(n: nat): bool { true }
  function HandedKey(n: nat): bool { true }
  function OutcomeKey(n: nat): bool { true }

  /**
   * The scene `s` is the one the enemies `es`, the bumps `bumps` and the
   * bombs `bombs` now make: the enemies' poses, what the gadgets see of
   * them, the bumps' lifetimes and the bombs.  (The sizes are stated
   * outright, the rest behind `ShowsKey`.)
   */
  ghost predicate Shows(es: seq<Enemy>, bumps: seq<SpeedBump>, bombs: seq<Bomb>, s: Scene)
    reads es`position, es`currentWaypointIndex, es`progressToNextWaypoint, es`leaked
    reads es`slowFactor, es`slowEndTime, es`maxHp, es`currentHp, es`alive, es`fireTimer
    reads bumps`lifetime, bombs`triggered
  {
    && |s.poses| == |es| && |s.targets| == |es| && |s.lifetimes| == |bumps| && |s.mines| == |bombs|
    && forall n: nat {:trigger ShowsKey(n)} :: ShowsKey(n) ==> ShowsBody(es, bumps, bombs, s)
  }

  ghost predicate ShowsBody(es: seq<Enemy>, bumps: seq<SpeedBump>, bombs: seq<Bomb>, s: Scene)
    requires |s.poses| == |es| && |s.lifetimes| == |bumps| && |s.mines| == |bombs|
    reads es`position, es`currentWaypointIndex, es`progressToNextWaypoint, es`leaked
    reads es`slowFactor, es`slowEndTime, es`maxHp, es`currentHp, es`alive, es`fireTimer
    reads bumps`lifetime, bombs`triggered
  {
    && (forall i {:trigger s.poses[i]} :: 0 <= i < |es| ==> s.poses[i] == es[i].Pose())
    && s.targets == Seen(es, s.poses)
    && (forall k {:trigger s.lifetimes[k]} :: 0 <= k < |bumps| ==> s.lifetimes[k] == bumps[k].lifetime)
    && (forall k {:trigger s.mines[k]} :: 0 <= k < |bombs| ==> s.mines[k] == Mine(bombs[k].tilePos, bombs[k].triggered))
  }

  /** The scene the enemies `es`, the bumps `bumps` and the bombs `bombs` now make; its targets are what its poses show. */
  function SceneOf(es: seq<Enemy>, bumps: seq<SpeedBump>, bombs: seq<Bomb>): (r: Scene)
    reads es`position, es`currentWaypointIndex, es`progressToNextWaypoint, es`leaked
    reads es`slowFactor, es`slowEndTime, es`maxHp, es`currentHp, es`alive, es`fireTimer
    reads bumps`lifetime, bombs`triggered
    ensures r.poses == Poses(es) && r.targets == Targets(es) && r.lifetimes == Lifetimes(bumps) && r.mines == Mines(bombs)
    ensures r.targets == Seen(es, r.poses)
  {
    Scene(Poses(es), Targets(es), Lifetimes(bumps), Mines(bombs))
  }

  /** The field and the gadgets always show some scene. */
  lemma Shown(es: seq<Enemy>, bumps: seq<SpeedBump>, bombs: seq<Bomb>) returns (s: Scene)
    ensures Shows(es, bumps, bombs, s)
  {
    s := SceneOf(es, bumps, bombs);
    ShowsSceneOf(es, bumps, bombs, s);
  }

  /** The poses a scene of the enemies `a` followed by `b` shows are those of `a`, then those of `b`. */
  lemma ShownJoin(a: seq<Enemy>, b: seq<Enemy>, olds: seq<EnemyPose>, bumps: seq<SpeedBump>, bombs: seq<Bomb>, s: Scene)
    requires Shows(a + b, bumps, bombs, s) && olds == Poses(a)
    ensures s.poses == olds + Poses(b)
  {
    assert ShowsKey(0);
    var pb := Poses(b);
    forall i | 0 <= i < |s.poses|
      ensures s.poses[i] == (olds + pb)[i]
    {
      if i < |a| {
        assert (a + b)[i] == a[i];
      } else {
        assert (a + b)[i] == b[i - |a|];
      }
    }
  }

  /** A scene is shown by the field and the gadgets exactly when it is the one they make. */
  lemma ShowsSceneOf(es: seq<Enemy>, bumps: seq<SpeedBump>, bombs: seq<Bomb>, s: Scene)
    ensures Shows(es, bumps, bombs, s) <==> s == SceneOf(es, bumps, bombs)
  {
    var now := SceneOf(es, bumps, bombs);
    if Shows(es, bumps, bombs, s) {
      assert ShowsKey(0);
      assert s.poses == now.poses;
      assert s.lifetimes == now.lifetimes;
      assert s.mines == now.mines;
    }
  }

  /**
   * The enemies and the gadgets, to reason about across a change of state.
   * (Twostate lemmas here take their arguments as one value.)
   */
  datatype Field = Field(es: seq<Enemy>, bumps: seq<SpeedBump>, bombs: seq<Bomb>)

  /**
   * The pose `enemy.update(dt)` gives the enemy `e` (of kind, route, speed
   * and size fixed at its making) that stood in the pose `p`: an enemy that
   * is alive and has not leaked walks its step along the route, slowed by
   * its slow factor, and stands centred on its new point of the route
   * unless it leaked; its slow runs down; a live tank runs its combat
   * timer; the vitals are untouched.
   */
  function MarchedPose(e: Enemy, p: EnemyPose, dt: real, dist: Distance): EnemyPose
  {
    var moving := p.vit.alive && !p.walk.leaked && 0 <= p.walk.index;
    var w := if moving then Advanced(p.walk, e.route, dist, Stride(e.speed, p.slow.factor, dt)) else p.walk;
    var pixel := PathPixel(e.route, w.index, w.progress);
    var at := if moving && !w.leaked && pixel.Some? then PlacedAt(pixel.value, e.width, e.height) else p.position;
    var timer := if e.kind == Tank && p.vit.alive then CombatTicked(p.fireTimer, dt) else p.fireTimer;
    EnemyPose(at, w, StepSlow(p, dt), p.vit, timer)
  }

  /** `MarchedPose` enemy by enemy. */
  function MarchedPoses(field: seq<Enemy>, ps: seq<EnemyPose>, dt: real, dist: Distance): (r: seq<EnemyPose>)
    requires |ps| == |field|
    ensures |r| == |field| && forall i :: 0 <= i < |field| ==> r[i] == MarchedPose(field[i], ps[i], dt, dist)
  {
    seq(|field|, i requires 0 <= i < |field| => MarchedPose(field[i], ps[i], dt, dist))
  }

  /** The scene after the enemy pass over `field` from the scene `before`: the enemies marched, the gadgets untouched. */
  function MarchScene(field: seq<Enemy>, before: Scene, dt: real, dist: Distance): Scene
    requires |before.poses| == |field|
  {
    var ps := MarchedPoses(field, before.poses, dt, dist);
    Scene(ps, Seen(field, ps), before.lifetimes, before.mines)
  }

  /**
   * The scene after the gadgets, the bumps `bumps` listed, acted on `field`
   * from the scene `mid`: every bump aged by `dt`; each exposed enemy on
   * the tile of an active bump is slowed; the bombs take their turns in
   * list order on the enemies as `mid` shows them; and the walks, places
   * and combat timers are untouched.
   */
  function GadgetScene(field: seq<Enemy>, bumps: seq<SpeedBump>, mid: Scene, dt: real, dist: Distance): (r: Scene)
    requires |mid.poses| == |field| && |mid.targets| == |field| && |mid.lifetimes| == |bumps|
    ensures |r.poses| == |field| && |r.targets| == |field| && |r.lifetimes| == |bumps| && |r.mines| == |mid.mines|
  {
    var ls := Aged(mid.lifetimes, dt);
    var tiles := BumpTiles(Kept(bumps, Live(ls)));
    var p := BombPass(mid.mines, dist, mid.targets);
    var ps := seq(|field|, i requires 0 <= i < |field| =>
      mid.poses[i].(slow := BumpSlow(mid.targets[i], tiles, mid.poses[i].slow), vit := p.1[i].v));
    Scene(ps, p.1, ls, p.0)
  }

  /** The middle of `update` as values: the enemy pass over `field` from `before`, then the gadgets. */
  function TickScene(field: seq<Enemy>, bumps: seq<SpeedBump>, before: Scene, dt: real, dist: Distance): (r: Scene)
    requires |before.poses| == |field| && |before.lifetimes| == |bumps|
    ensures |r.poses| == |field| && |r.targets| == |field| && |r.lifetimes| == |bumps| && |r.mines| == |before.mines|
  {
    GadgetScene(field, bumps, MarchScene(field, before, dt, dist), dt, dist)
  }

  /**
   * The middle of `update` took the field `field`, with the bumps `bumps`
   * and the bombs `bombs` listed, from the scene `before` to the scene
   * `after` as `TickScene` says, keeping the bumps still active and the
   * bombs not triggered, in order.
   */
  ghost predicate Ticked(field: seq<Enemy>, bumps: seq<SpeedBump>, bombs: seq<Bomb>, before: Scene, after: Scene,
                   keptBumps: seq<SpeedBump>, keptBombs: seq<Bomb>, dt: real, dist: Distance)
  {
    && |before.poses| == |field| && |before.targets| == |field| && |before.lifetimes| == |bumps| && |before.mines| == |bombs|
    && forall n: nat {:trigger TickedKey(n)} :: TickedKey(n) ==> TickedBody(field, bumps, bombs, before, after, keptBumps, keptBombs, dt, dist)
  }
  predicate TickedBody(field: seq<Enemy>, bumps: seq<SpeedBump>, bombs: seq<Bomb>, before: Scene, after: Scene,
                   keptBumps: seq<SpeedBump>, keptBombs: seq<Bomb>, dt: real, dist: Distance)
  {
    && |before.poses| == |field| && |before.lifetimes| == |bumps| && |before.mines| == |bombs|
    && after == TickScene(field, bumps, before, dt, dist)
    && keptBumps == Kept(bumps, Live(after.lifetimes)) && keptBombs == Kept(bombs, Armed(after.mines))
  }

  /**
   * `updateEnemies`' loop: every enemy takes the pose `MarchedPose` gives
   * it; they stay on their routes, and the power of those flagged as
   * leaked is charged.
   */
  method MarchAll(enemies: seq<Enemy>, dt: real, dist: Distance) returns (charge: int)
    requires Distinct(enemies)
    requires forall i :: 0 <= i < |enemies| ==> enemies[i].Valid()
    modifies enemies`position, enemies`currentWaypointIndex, enemies`progressToNextWaypoint, enemies`leaked
    modifies enemies`slowFactor, enemies`slowEndTime, enemies`fireTimer
    ensures Poses(enemies) == MarchedPoses(enemies, old(Poses(enemies)), dt, dist)
    ensures charge == Charged(enemies) && forall i :: 0 <= i < |enemies| ==> enemies[i].Valid()
  {
    ghost var pre := Poses(enemies);
    charge := StepAll(enemies, dt, dist);
    forall i | 0 <= i < |enemies|
      ensures Poses(enemies)[i] == MarchedPose(enemies[i], pre[i], dt, dist)
    {
      var e := enemies[i];
      assert Stepped(e, dt, dist) && pre[i] == old(e.Pose()) && Poses(enemies)[i] == e.Pose();
    }
  }

  /** The enemy pass, read on scenes: from the scene `before` the field and the gadgets now make the one `MarchScene` gives. */
  twostate lemma MarchShows(f: Field, new before: Scene, new dt: real, new dist: Distance)
    requires before == old(SceneOf(f.es, f.bumps, f.bombs))
    requires Poses(f.es) == MarchedPoses(f.es, old(Poses(f.es)), dt, dist)
    requires unchanged(f.bumps`lifetime, f.bombs`triggered)
    ensures Shows(f.es, f.bumps, f.bombs, MarchScene(f.es, before, dt, dist))
  {
    LifetimesKept(f.bumps);
    MinesKept(f.bombs);
    ShowsSceneOf(f.es, f.bumps, f.bombs, MarchScene(f.es, before, dt, dist));
  }

  /** The enemy pass took the field `field` from the scene `before` to the scene `mid` `MarchScene` gives. */
  ghost predicate Marched(field: seq<Enemy>, before: Scene, mid: Scene, dt: real, dist: Distance)
  {
    forall n: nat {:trigger MarchKey(n)} :: MarchKey(n) ==>
      |before.poses| == |field| && mid == MarchScene(field, before, dt, dist)
  }

  /**
   * The enemy pass as a step on scenes: from the scene `before` the field
   * and the gadgets showed, the enemies march and the field shows the
   * scene `mid` `MarchScene` gives; the leaks are charged.
   */
  method MarchStep(es: seq<Enemy>, bumps: seq<SpeedBump>, bombs: seq<Bomb>, ghost before: Scene, dt: real, dist: Distance)
    returns (charge: int, ghost mid: Scene)
    requires Distinct(es) && Shows(es, bumps, bombs, before)
    requires forall i :: 0 <= i < |es| ==> es[i].Valid()
    modifies es`position, es`currentWaypointIndex, es`progressToNextWaypoint, es`leaked
    modifies es`slowFactor, es`slowEndTime, es`fireTimer
    ensures Shows(es, bumps, bombs, mid) && Marched(es, before, mid, dt, dist)
    ensures charge == Charged(es) && forall i :: 0 <= i < |es| ==> es[i].Valid()
  {
    ShowsSceneOf(es, bumps, bombs, before);
    charge := MarchAll(es, dt, dist);
    mid := MarchScene(es, before, dt, dist);
    MarchShows(Field(es, bumps, bombs), before, dt, dist);
  }

  /**
   * The gadgets took the field `field`, with the bumps `bumps` and the
   * bombs `bombs` listed, from the scene `mid` to the scene `after`
   * `GadgetScene` gives, keeping the bumps still active and the bombs not
   * triggered, in order.
   */
  ghost predicate GadgetsDid(field: seq<Enemy>, bumps: seq<SpeedBump>, bombs: seq<Bomb>, mid: Scene, after: Scene,
                             keptBumps: seq<SpeedBump>, keptBombs: seq<Bomb>, dt: real, dist: Distance)
  {
    forall n: nat {:trigger GadgetsKey(n)} :: GadgetsKey(n) ==>
      && |mid.poses| == |field| && |mid.targets| == |field| && |mid.lifetimes| == |bumps| && |mid.mines| == |bombs|
      && after == GadgetScene(field, bumps, mid, dt, dist)
      && keptBumps == Kept(bumps, Live(after.lifetimes)) && keptBombs == Kept(bombs, Armed(after.mines))
  }

  /** The two passes, read on scenes, make a tick. */
  lemma TickedIntro(field: seq<Enemy>, bumps: seq<SpeedBump>, bombs: seq<Bomb>, before: Scene, mid: Scene, after: Scene,
                    keptBumps: seq<SpeedBump>, keptBombs: seq<Bomb>, dt: real, dist: Distance)
    requires |before.poses| == |field| && |before.targets| == |field| && |before.lifetimes| == |bumps| && |before.mines| == |bombs|
    requires Marched(field, before, mid, dt, dist)
    requires GadgetsDid(field, bumps, bombs, mid, after, keptBumps, keptBombs, dt, dist)
    ensures Ticked(field, bumps, bombs, before, after, keptBumps, keptBombs, dt, dist)
  {
    assert GadgetsKey(0) && MarchKey(0);
  }

  // ----- The speed-bump pass ---------------------------------------------------

  /** The body of a bump's inner loop for one enemy. */
  method SlowIfOn(bump: SpeedBump, enemy: Enemy)
    modifies enemy`slowFactor, enemy`slowEndTime
    ensures enemy.Slowing() == BumpSlow(TargetView(enemy), {bump.tilePos}, old(enemy.Slowing()))
  {
    if enemy.alive && !enemy.leaked {
      var enemyTile := TileOf(enemy);
      if bump.ContainsPoint(enemyTile) {
        enemy.ApplySlow(SPEED_BUMP_FACTOR, BUMP_SLOW_SEC);
      }
    }
  }

  /** The inner loop of a speed bump: every exposed enemy on its tile is slowed. */
  method SlowOnBump(bump: SpeedBump, enemies: seq<Enemy>)
    requires Distinct(enemies)
    modifies enemies`slowFactor, enemies`slowEndTime
    ensures forall j :: 0 <= j < |enemies| ==>
      enemies[j].Slowing() == BumpSlow(TargetView(enemies[j]), {bump.tilePos}, old(enemies[j].Slowing()))
  {
    ghost var ss := Slows(enemies);
    for i := 0 to |enemies|
      invariant forall j :: 0 <= j < i ==> enemies[j].Slowing() == BumpSlow(TargetView(enemies[j]), {bump.tilePos}, ss[j])
      invariant forall j :: i <= j < |enemies| ==> enemies[j].Slowing() == ss[j]
    {
      DistinctAt(enemies, i);
      SlowIfOn(bump, enemies[i]);
    }
  }

  /**
   * The body of the bump loop for one bump: its lifetime runs down; a spent
   * bump is to be removed, an active one is kept and slows the enemies on
   * its tile.
   */
  method TurnBump(bump: SpeedBump, enemies: seq<Enemy>, dt: real) returns (keep: seq<SpeedBump>)
    requires Distinct(enemies)
    modifies bump`lifetime, enemies`slowFactor, enemies`slowEndTime
    ensures bump.lifetime == old(bump.lifetime) - dt
    ensures keep == if bump.lifetime > 0.0 then [bump] else []
    ensures forall j :: 0 <= j < |enemies| ==>
      enemies[j].Slowing() == BumpSlow(TargetView(enemies[j]), BumpTiles(keep), old(enemies[j].Slowing()))
  {
    bump.Update(dt);
    if !bump.IsActive() {
      keep := [];
      return;
    }
    SlowOnBump(bump, enemies);
    keep := [bump];
    assert [bump][..0] == [];
  }

  /**
   * What holds after the first `i` rounds of the bump loop: those bumps
   * have run down by `dt` and the rest not yet, `kept` lists the ones of
   * them still active, and every enemy is slowed as the kept bumps make it.
   */
  ghost predicate BumpRounds(bumps: seq<SpeedBump>, enemies: seq<Enemy>, dt: real, i: nat, kept: seq<SpeedBump>,
                             ls: seq<real>, ss: seq<Slow>, live: seq<bool>)
    reads bumps, enemies
  {
    i <= |bumps| && |ls| == |bumps| && |live| == |bumps| && |ss| == |enemies| &&
    (forall k :: 0 <= k < i ==> bumps[k].lifetime == ls[k] - dt) &&
    (forall k :: i <= k < |bumps| ==> bumps[k].lifetime == ls[k]) &&
    kept == KeptFirst(bumps, live, i) &&
    forall j :: 0 <= j < |enemies| ==>
      enemies[j].Slowing() == BumpSlow(TargetView(enemies[j]), BumpTiles(kept), ss[j])
  }

  /** One round of the bump loop: the `i`-th bump turns. */
  method SweepBumpsStep(bumps: seq<SpeedBump>, enemies: seq<Enemy>, dt: real, i: nat, kept: seq<SpeedBump>,
                        ghost ls: seq<real>, ghost ss: seq<Slow>, ghost live: seq<bool>)
    returns (next: seq<SpeedBump>)
    requires Distinct(enemies) && Distinct(bumps) && i < |bumps|
    requires BumpRounds(bumps, enemies, dt, i, kept, ls, ss, live) && live[i] == (ls[i] - dt > 0.0)
    modifies {bumps[i]}`lifetime, enemies`slowFactor, enemies`slowEndTime
    ensures BumpRounds(bumps, enemies, dt, i + 1, next, ls, ss, live)
  {
    var bump := bumps[i];
    DistinctAt(bumps, i);
    var keep := TurnBump(bump, enemies, dt);
    BumpTilesSnoc(kept, keep);
    next := kept + keep;
  }

  /** Frame lemmas: a list's view is kept when the fields it reads are. */
  twostate lemma SlowsKept(es: seq<Enemy>)
    requires unchanged(es`slowFactor, es`slowEndTime)
    ensures Slows(es) == old(Slows(es))
  {
  }

  /** The gadgets leave the walks, the places and the combat timers alone. */
  twostate lemma WalksKept(es: seq<Enemy>)
    requires unchanged(es`position, es`currentWaypointIndex, es`progressToNextWaypoint, es`leaked, es`fireTimer)
    ensures forall i :: 0 <= i < |es| ==>
      var q := old(Poses(es))[i]; var r := Poses(es)[i];
      r.walk == q.walk && r.position == q.position && r.fireTimer == q.fireTimer
    ensures old(forall i :: 0 <= i < |es| ==> es[i].Valid()) ==> forall i :: 0 <= i < |es| ==> es[i].Valid()
  {
    forall i | 0 <= i < |es|
      ensures old(Poses(es))[i] == old(es[i].Pose()) && Poses(es)[i] == es[i].Pose()
    {
    }
  }

  /** An enemy's consistency reads only its walk. */
  twostate lemma ValidKept(es: seq<Enemy>)
    requires unchanged(es`currentWaypointIndex, es`leaked)
    ensures old(forall i :: 0 <= i < |es| ==> es[i].Valid()) ==> forall i :: 0 <= i < |es| ==> es[i].Valid()
  {
  }

  twostate lemma TargetsKept(es: seq<Enemy>)
    requires unchanged(es`maxHp, es`currentHp, es`alive, es`leaked, es`position)
    ensures Targets(es) == old(Targets(es))
  {
  }

  twostate lemma MinesKept(bs: seq<Bomb>)
    requires unchanged(bs`triggered)
    ensures Mines(bs) == old(Mines(bs))
  {
  }

  twostate lemma LifetimesKept(bs: seq<SpeedBump>)
    requires unchanged(bs`lifetime)
    ensures Lifetimes(bs) == old(Lifetimes(bs))
  {
  }

  /** Bumps whose lifetimes all ran down by `dt` from `ls`. */
  lemma LifetimesAged(bumps: seq<SpeedBump>, ls: seq<real>, dt: real)
    requires |ls| == |bumps| && forall k :: 0 <= k < |bumps| ==> bumps[k].lifetime == ls[k] - dt
    ensures Lifetimes(bumps) == Aged(ls, dt)
  {
  }

  /**
   * What `updateGadgets` did to the bumps `bumps`, the bombs `bombs` and the
   * enemies `enemies`, keeping `keptBumps` and `keptBombs`: no gadget is
   * kept twice; every bump aged by `dt` and only the ones still active
   * were kept; every exposed enemy on the tile of a kept bump was slowed,
   * the others kept their slows; and the bombs took their turns in list
   * order on the enemies as they stood before, the triggered ones going.
   */
  twostate predicate GadgetsRan(bumps: seq<SpeedBump>, bombs: seq<Bomb>, enemies: seq<Enemy>,
                                new keptBumps: seq<SpeedBump>, new keptBombs: seq<Bomb>, dt: real, dist: Distance)
    reads bumps`lifetime, bombs`triggered, enemies`slowFactor, enemies`slowEndTime
    reads enemies`maxHp, enemies`currentHp, enemies`alive, enemies`leaked, enemies`position
  {
    && Distinct(keptBumps) && Distinct(keptBombs)
    && forall n: nat {:trigger GadgetsKey(n)} :: GadgetsKey(n) ==>
         && Lifetimes(bumps) == Aged(old(Lifetimes(bumps)), dt)
         && keptBumps == Kept(bumps, Live(Aged(old(Lifetimes(bumps)), dt)))
         && Slows(enemies) == BumpSlows(old(Targets(enemies)), BumpTiles(keptBumps), old(Slows(enemies)))
         && var p := BombPass(old(Mines(bombs)), dist, old(Targets(enemies)));
            Mines(bombs) == p.0 && Targets(enemies) == p.1 && keptBombs == Kept(bombs, Armed(p.0))
  }

  /**
   * `updateGadgets` on explicit lists: the bump sweep, then the bomb sweep.
   * The bumps age and the spent ones go, the exposed enemies on the tiles of
   * the rest are slowed, and the bombs take their turns on the enemies as
   * they stood before (the bumps change only slows).
   */
  method SweepGadgets(bumps: seq<SpeedBump>, bombs: seq<Bomb>, enemies: seq<Enemy>, dt: real, dist: Distance)
    returns (keptBumps: seq<SpeedBump>, keptBombs: seq<Bomb>)
    requires Distinct(enemies) && Distinct(bumps) && Distinct(bombs)
    modifies bumps`lifetime, bombs`triggered, enemies`slowFactor, enemies`slowEndTime, enemies`currentHp, enemies`alive
    ensures GadgetsRan(bumps, bombs, enemies, keptBumps, keptBombs, dt, dist)
  {
    ghost var targets, lifetimes, slows, mines := Targets(enemies), Lifetimes(bumps), Slows(enemies), Mines(bombs);
    label start:
    keptBumps := SweepBumps(bumps, enemies, dt);
    KeptDistinct(bumps, Live(Aged(lifetimes, dt)), |bumps|);
    MinesKept@start(bombs);
    ghost var aged, slowed := Lifetimes(bumps), Slows(enemies);
    assert Targets(enemies) == targets && Mines(bombs) == mines;
    label swept:
    keptBombs := SweepBombs(bombs, enemies, dist);
    ghost var p := BombPass(mines, dist, targets);
    KeptDistinct(bombs, Armed(p.0), |bombs|);
    LifetimesKept@swept(bumps);
    assert Lifetimes(bumps) == aged == Aged(lifetimes, dt) && Slows(enemies) == slowed;
    assert Mines(bombs) == p.0 && Targets(enemies) == p.1 && keptBombs == Kept(bombs, Armed(p.0));
  }

  /**
   * What the gadgets did, read on scenes: from the scene `mid` the field
   * and the gadgets made before them, they now make the one
   * `GadgetScene` gives.
   */
  twostate lemma GadgetsShow(f: Field, new keptBumps: seq<SpeedBump>, new keptBombs: seq<Bomb>, new mid: Scene, new dt: real, new dist: Distance)
    returns (after: Scene)
    requires mid == old(SceneOf(f.es, f.bumps, f.bombs))
    requires GadgetsRan(f.bumps, f.bombs, f.es, keptBumps, keptBombs, dt, dist)
    requires unchanged(f.es`position, f.es`currentWaypointIndex, f.es`progressToNextWaypoint, f.es`leaked, f.es`fireTimer)
    ensures Shows(f.es, f.bumps, f.bombs, after)
    ensures GadgetsDid(f.es, f.bumps, f.bombs, mid, after, keptBumps, keptBombs, dt, dist)
  {
    var field, bumps, bombs := f.es, f.bumps, f.bombs;
    assert GadgetsKey(0);
    WalksKept(field);
    var g := GadgetScene(field, bumps, mid, dt, dist);
    after := g;
    GadgetPoses(f, keptBumps, keptBombs, mid, dt, dist);
    ShowsSceneOf(field, bumps, bombs, g);
  }

  /** The part of `GadgetsShow` about the enemies: their poses are the ones `GadgetScene` gives. */
  twostate lemma GadgetPoses(f: Field, new keptBumps: seq<SpeedBump>, new keptBombs: seq<Bomb>, new mid: Scene, new dt: real, new dist: Distance)
    requires mid == old(SceneOf(f.es, f.bumps, f.bombs))
    requires GadgetsRan(f.bumps, f.bombs, f.es, keptBumps, keptBombs, dt, dist)
    requires unchanged(f.es`position, f.es`currentWaypointIndex, f.es`progressToNextWaypoint, f.es`leaked, f.es`fireTimer)
    ensures Poses(f.es) == GadgetScene(f.es, f.bumps, mid, dt, dist).poses
  {
    var field := f.es;
    assert GadgetsKey(0);
    WalksKept(field);
    var g := GadgetScene(field, f.bumps, mid, dt, dist);
    forall i | 0 <= i < |field|
      ensures Poses(field)[i] == g.poses[i]
    {
      assert Poses(field)[i].slow == Slows(field)[i] && Poses(field)[i].vit == Targets(field)[i].v;
      assert mid.poses[i].slow == old(Slows(field))[i];
    }
  }

  /**
   * The gadgets after the enemy pass, read as a step from the scene `mid`
   * the field and the gadgets make before it to the scene `after` they
   * make once it is done, which is the one `GadgetScene` gives; the
   * bumps still active and the bombs not triggered are kept, in order.
   */
  method GadgetStep(bumps: seq<SpeedBump>, bombs: seq<Bomb>, field: seq<Enemy>, ghost mid: Scene, dt: real, dist: Distance)
    returns (keptBumps: seq<SpeedBump>, keptBombs: seq<Bomb>, ghost after: Scene)
    requires Distinct(field) && Distinct(bumps) && Distinct(bombs) && Shows(field, bumps, bombs, mid)
    modifies bumps`lifetime, bombs`triggered, field`slowFactor, field`slowEndTime, field`currentHp, field`alive
    ensures Distinct(keptBumps) && Distinct(keptBombs) && Shows(field, bumps, bombs, after)
    ensures old(forall i :: 0 <= i < |field| ==> field[i].Valid()) ==> forall i :: 0 <= i < |field| ==> field[i].Valid()
    ensures GadgetsDid(field, bumps, bombs, mid, after, keptBumps, keptBombs, dt, dist)
  {
    ShowsSceneOf(field, bumps, bombs, mid);
    keptBumps, keptBombs := SweepGadgets(bumps, bombs, field, dt, dist);
    after := GadgetsShow(Field(field, bumps, bombs), keptBumps, keptBombs, mid, dt, dist);
    ValidKept(field);
  }

  /**
   * The middle of `update` on explicit lists: the enemy pass over `es`,
   * whose leaks are charged, then the gadgets, taking the field from the
   * scene `before` to the scene `after` as `Ticked` says.
   */
  method Tick(es: seq<Enemy>, bumps: seq<SpeedBump>, bombs: seq<Bomb>, ghost before: Scene, dt: real, dist: Distance,
              ghost wm: WaveManager, ghost routes: set<Route>)
    returns (charge: int, keptBumps: seq<SpeedBump>, keptBombs: seq<Bomb>, ghost after: Scene)
    requires Distinct(es) && Distinct(bumps) && Distinct(bombs) && Shows(es, bumps, bombs, before)
    requires forall i :: 0 <= i < |es| ==> es[i].Valid() && es[i].powerValue > 0
    modifies es`position, es`currentWaypointIndex, es`progressToNextWaypoint, es`leaked, es`fireTimer
    modifies es`slowFactor, es`slowEndTime, es`currentHp, es`alive, bumps`lifetime, bombs`triggered
    ensures Shows(es, bumps, bombs, after) && charge == Charged(es) && 0 <= charge
    ensures (forall i :: 0 <= i < |es| ==> es[i].Valid()) && Distinct(keptBumps) && Distinct(keptBombs)
    ensures Ticked(es, bumps, bombs, before, after, keptBumps, keptBombs, dt, dist)
    ensures unchanged(wm) && unchanged(routes)
  {
    ghost var mid;
    charge, mid := MarchStep(es, bumps, bombs, before, dt, dist);
    keptBumps, keptBombs, after := GadgetStep(bumps, bombs, es, mid, dt, dist);
    TickedIntro(es, bumps, bombs, before, mid, after, keptBumps, keptBombs, dt, dist);
    ChargedNonNegative(es);
  }

  /**
   * The loop over the speed bumps: each bump's lifetime runs down; the
   * kept ones are those still active, and every exposed enemy on the tile
   * of a kept bump is slowed.
   */
  method SweepBumps(bumps: seq<SpeedBump>, enemies: seq<Enemy>, dt: real) returns (kept: seq<SpeedBump>)
    requires Distinct(enemies) && Distinct(bumps)
    modifies bumps`lifetime, enemies`slowFactor, enemies`slowEndTime
    ensures Targets(enemies) == old(Targets(enemies))
    ensures Lifetimes(bumps) == Aged(old(Lifetimes(bumps)), dt)
    ensures Slows(enemies) == BumpSlows(old(Targets(enemies)), BumpTiles(kept), old(Slows(enemies)))
    ensures kept == Kept(bumps, Live(Aged(old(Lifetimes(bumps)), dt)))
  {
    kept := [];
    ghost var ls, ss := Lifetimes(bumps), Slows(enemies);
    ghost var live := Live(Aged(ls, dt));
    assert forall k :: 0 <= k < |bumps| ==> ls[k] == old(bumps[k].lifetime);
    ghost var ts := Targets(enemies);
    for i := 0 to |bumps|
      invariant BumpRounds(bumps, enemies, dt, i, kept, ls, ss, live)
    {
      kept := SweepBumpsStep(bumps, enemies, dt, i, kept, ls, ss, live);
    }
    TargetsKept(enemies);
    assert Slows(enemies) == BumpSlows(ts, BumpTiles(kept), ss);
    LifetimesAged(bumps, ls, dt);
  }

  // ----- The loop ------------------------------------------------------------

  class GameLoop {
    const dist: Distance
    const resourceManager: ResourceManager
    const waveManager: WaveManager
    var enemies: seq<Enemy>
    var towers: seq<Tower>
    var speedBumps: seq<SpeedBump>
    var bombs: seq<Bomb>
    var lastUpdate: int
    var leakedPower: int
    var totalLevelPower: int
    var gameOver: bool
    var victory: bool

    /**
     * Between frames: the wave manager is consistent and has handed over
     * every enemy it spawned; the enemies on the field are distinct, on
     * their routes, alive, not leaked and of positive power; no gadget is
     * listed twice; and the leaked power plus the power still on the field
     * is at most the level's power, so the leak share never exceeds one.
     */
    predicate Valid()
      reads this`enemies, this`speedBumps, this`bombs, this`leakedPower, this`totalLevelPower
      reads enemies, waveManager
    {
      && waveManager.Valid() && waveManager.spawnedEnemies == []
      && Distinct(enemies) && Entering(enemies)
      && Distinct(speedBumps) && Distinct(bombs)
      && 0 <= leakedPower
      && leakedPower + PowerOf(enemies) <= totalLevelPower
    }

    /**
     * Within a frame, after the enemy pass: the field as between frames,
     * except that enemies may have died or leaked; the power charged for
     * those leaked is part of the leaked power, and the rest of it together
     * with the power on the field is still within the level's power.  (The
     * wave manager is not touched by the enemy pass.)
     */
    predicate Running()
      reads this`enemies, this`speedBumps, this`bombs, this`leakedPower, this`totalLevelPower
      reads enemies`currentWaypointIndex, enemies`leaked
    {
      && Distinct(enemies)
      && (forall k :: 0 <= k < |enemies| ==> enemies[k].Valid() && enemies[k].powerValue > 0)
      && Distinct(speedBumps) && Distinct(bombs)
      && Charged(enemies) <= leakedPower
      && leakedPower - Charged(enemies) + PowerOf(enemies) <= totalLevelPower
    }

    /** Stepping the enemies of a valid loop, and charging their leaks, starts a running enemy pass. */
    twostate lemma RunningAfterSteps()
      requires old(Valid())
      requires enemies == old(enemies) && Distinct(speedBumps) && Distinct(bombs)
      requires totalLevelPower == old(totalLevelPower) && leakedPower == old(leakedPower) + Charged(enemies)
      requires forall k :: 0 <= k < |enemies| ==> enemies[k].Valid()
      ensures Running()
    {
    }

    /** A loop over a wave manager that has not spawned anything yet. */
    constructor (dist: Distance, resourceManager: ResourceManager, waveManager: WaveManager)
      requires waveManager.Valid() && waveManager.spawnedEnemies == []
      ensures Valid()
      ensures this.dist == dist && this.resourceManager == resourceManager && this.waveManager == waveManager
      ensures enemies == [] && towers == [] && speedBumps == [] && bombs == []
      ensures lastUpdate == 0 && leakedPower == 0 && totalLevelPower == 0 && !gameOver && !victory
    {
      this.dist := dist;
      this.resourceManager := resourceManager;
      this.waveManager := waveManager;
      enemies := [];
      towers := [];
      speedBumps := [];
      bombs := [];
      lastUpdate := 0;
      leakedPower := 0;
      totalLevelPower := 0;
      gameOver := false;
      victory := false;
    }

    /**
     * `handle`: the first frame only records its time stamp; each later one
     * records it and, while the game is neither lost nor won, runs `update`
     * over the time since the previous frame, in seconds.
     */
    method Handle(now: int, rolls: seq<int>) returns (ran: bool, ghost dt: real)
      requires Valid()
      requires waveManager.currentWave < TOTAL_WAVES ==> TotalEnemies(waveManager.currentWave + 1, waveManager.difficulty) <= |rolls|
      modifies this`lastUpdate, this`enemies, this`towers, this`speedBumps, this`bombs
      modifies this`leakedPower, this`totalLevelPower, this`gameOver, this`victory
      modifies waveManager, enemies, speedBumps, bombs
      ensures Valid()
      ensures lastUpdate == now
      ensures ran <==> old(lastUpdate) != 0 && !old(gameOver) && !old(victory)
      ensures ran ==> dt == (now - old(lastUpdate)) as real / NANOS_PER_SECOND
      ensures ran ==> gameOver == Defeated(leakedPower, totalLevelPower)
      ensures ran ==> totalLevelPower >= old(totalLevelPower) && leakedPower >= old(leakedPower)
      ensures !ran ==> enemies == old(enemies) && towers == old(towers) && speedBumps == old(speedBumps) && bombs == old(bombs)
      ensures !ran ==> leakedPower == old(leakedPower) && totalLevelPower == old(totalLevelPower)
      ensures !ran ==> gameOver == old(gameOver) && victory == old(victory)
    {
      ran, dt := false, 0.0;
      if lastUpdate == 0 {
        lastUpdate := now;
        return;
      }
      var deltaTime := (now - lastUpdate) as real / NANOS_PER_SECOND;
      lastUpdate := now;
      if !gameOver && !victory {
        Run(deltaTime, rolls);
        ran, dt := true, deltaTime;
      }
    }

    /** One `update` of a game still in play, seen from `handle`: defeat is judged, and no power is forgotten. */
    method Run(dt: real, rolls: seq<int>)
      requires Valid() && !gameOver
      requires waveManager.currentWave < TOTAL_WAVES ==> TotalEnemies(waveManager.currentWave + 1, waveManager.difficulty) <= |rolls|
      modifies this`enemies, this`towers, this`speedBumps, this`bombs
      modifies this`leakedPower, this`totalLevelPower, this`gameOver, this`victory
      modifies waveManager, enemies, speedBumps, bombs
      ensures Valid() && gameOver == Defeated(leakedPower, totalLevelPower)
      ensures totalLevelPower >= old(totalLevelPower) && leakedPower >= old(leakedPower)
    {
      ghost var spawned, released, entry, field, before, after, charge := Update(dt, rolls);
    }

    /**
     * `update`: the wave manager runs and the enemies it released join the
     * field, their power added to the level's; the enemies step and the
     * gadgets act; defeat and victory are judged; and the intended clean-up
     * clears the field, which restores the between-frames invariant.
     * `field` is the list before the clean-up; `before` and `after` are the
     * scenes it made before the enemy pass (the old enemies as they stood,
     * the new ones in their entry poses `entry`) and after the gadgets,
     * related as `Ticked` says; `Outcome` says how the wave manager ran,
     * which spawns it released and how the enemies made from them entered,
     * and that `charge` is the power charged for leaks.
     */
    method Update(dt: real, rolls: seq<int>)
      returns (ghost spawned: seq<Enemy>, ghost released: seq<EnemySpawn>, ghost entry: seq<EnemyPose>,
               ghost field: seq<Enemy>, ghost before: Scene, ghost after: Scene, ghost charge: int)
      requires Valid()
      requires waveManager.currentWave < TOTAL_WAVES ==> TotalEnemies(waveManager.currentWave + 1, waveManager.difficulty) <= |rolls|
      modifies this`enemies, this`towers, this`speedBumps, this`bombs
      modifies this`leakedPower, this`totalLevelPower, this`gameOver, this`victory
      modifies waveManager, enemies, speedBumps, bombs
      ensures Valid()
      ensures field == old(enemies) + spawned && forall k :: 0 <= k < |spawned| ==> fresh(spawned[k])
      ensures before.poses == old(Poses(enemies)) + entry
      ensures Ticked(field, old(speedBumps), old(bombs), before, after, speedBumps, bombs, dt, dist)
      ensures Outcome(field, old(speedBumps), old(bombs), after, charge, old(RunOf(waveManager)), waveManager, dt, rolls, released, spawned, entry)
      ensures totalLevelPower == old(totalLevelPower) + PowerOf(spawned) && 0 <= PowerOf(spawned)
      ensures leakedPower == old(leakedPower) + charge && 0 <= charge
      ensures gameOver == (old(gameOver) || Defeated(leakedPower, totalLevelPower))
      ensures victory == (old(victory) || (!Defeated(leakedPower, totalLevelPower) && waveManager.AllWavesComplete() && NoneAlive(field)))
      ensures enemies == Survivors(field) && towers == Standing(old(towers))
    {
      spawned, released, entry, before, after, charge := Judge(dt, rolls);
      field := enemies;
      Conclude(Witness(field, old(speedBumps), old(bombs), after, charge, old(RunOf(waveManager)), waveManager, dt, rolls, released, spawned, entry));
    }

    /** `cleanupEntities`, which leaves the outcome `w` of the frame as it stood. */
    method Conclude(ghost w: Witness)
      requires Outcome(w.field, w.bumps, w.bombs, w.after, w.charge, w.from, w.wm, w.dt, w.rolls, w.released, w.spawned, w.entry)
      modifies this`enemies, this`towers
      ensures enemies == Survivors(old(enemies)) && towers == Standing(old(towers))
      ensures speedBumps == old(speedBumps) && bombs == old(bombs) && leakedPower == old(leakedPower)
      ensures totalLevelPower == old(totalLevelPower) && gameOver == old(gameOver) && victory == old(victory)
      ensures old(Running() && waveManager.Valid() && waveManager.spawnedEnemies == []) ==> Valid()
      ensures Outcome(w.field, w.bumps, w.bombs, w.after, w.charge, w.from, w.wm, w.dt, w.rolls, w.released, w.spawned, w.entry)
    {
      CleanupEntities();
      OutcomeKept(w);
    }

    /**
     * `update` up to the clean-up: the new enemies join the field, the
     * enemy pass and the gadgets run over it, and defeat and victory are
     * judged on the field as it then stands.
     */
    method Judge(dt: real, rolls: seq<int>)
      returns (ghost spawned: seq<Enemy>, ghost released: seq<EnemySpawn>, ghost entry: seq<EnemyPose>,
               ghost before: Scene, ghost after: Scene, ghost charge: int)
      requires Valid()
      requires waveManager.currentWave < TOTAL_WAVES ==> TotalEnemies(waveManager.currentWave + 1, waveManager.difficulty) <= |rolls|
      modifies this`enemies, this`speedBumps, this`bombs, this`leakedPower, this`totalLevelPower, this`gameOver, this`victory
      modifies waveManager, enemies, speedBumps, bombs
      ensures Running() && waveManager.Valid() && waveManager.spawnedEnemies == []
      ensures enemies == old(enemies) + spawned && forall k :: 0 <= k < |spawned| ==> fresh(spawned[k])
      ensures before.poses == old(Poses(enemies)) + entry
      ensures Ticked(enemies, old(speedBumps), old(bombs), before, after, speedBumps, bombs, dt, dist)
      ensures Outcome(enemies, old(speedBumps), old(bombs), after, charge, old(RunOf(waveManager)), waveManager, dt, rolls, released, spawned, entry)
      ensures totalLevelPower == old(totalLevelPower) + PowerOf(spawned) && 0 <= PowerOf(spawned)
      ensures leakedPower == old(leakedPower) + charge && 0 <= charge
      ensures gameOver == (old(gameOver) || Defeated(leakedPower, totalLevelPower))
      ensures victory == (old(victory) || (!Defeated(leakedPower, totalLevelPower) && waveManager.AllWavesComplete() && NoneAlive(enemies)))
    {
      spawned, released, entry, before, after, charge := Prepare(dt, rolls);
      Assess(Witness(enemies, old(speedBumps), old(bombs), after, charge, old(RunOf(waveManager)), waveManager, dt, rolls, released, spawned, entry));
    }

    /** `checkGameState`, which leaves the outcome `w` of the frame as it stood. */
    method Assess(ghost w: Witness)
      requires Outcome(w.field, w.bumps, w.bombs, w.after, w.charge, w.from, w.wm, w.dt, w.rolls, w.released, w.spawned, w.entry)
      modifies this`gameOver, this`victory
      ensures gameOver == (old(gameOver) || Defeated(leakedPower, totalLevelPower))
      ensures victory == (old(victory) || (!Defeated(leakedPower, totalLevelPower) && waveManager.AllWavesComplete() && NoneAlive(enemies)))
      ensures enemies == old(enemies) && speedBumps == old(speedBumps) && bombs == old(bombs)
      ensures leakedPower == old(leakedPower) && totalLevelPower == old(totalLevelPower)
      ensures old(Running() && waveManager.Valid() && waveManager.spawnedEnemies == []) ==> Running() && waveManager.Valid() && waveManager.spawnedEnemies == []
      ensures Outcome(w.field, w.bumps, w.bombs, w.after, w.charge, w.from, w.wm, w.dt, w.rolls, w.released, w.spawned, w.entry)
    {
      CheckGameState();
      OutcomeKept(w);
    }

    /**
     * The first two steps of `update`: the new enemies join the field and
     * the enemy pass and the gadgets run over it; the wave manager stays
     * consistent with nothing to hand over.
     */
    method Prepare(dt: real, rolls: seq<int>)
      returns (ghost spawned: seq<Enemy>, ghost released: seq<EnemySpawn>, ghost entry: seq<EnemyPose>,
               ghost before: Scene, ghost after: Scene, ghost charge: int)
      requires Valid()
      requires waveManager.currentWave < TOTAL_WAVES ==> TotalEnemies(waveManager.currentWave + 1, waveManager.difficulty) <= |rolls|
      modifies this`enemies, this`speedBumps, this`bombs, this`leakedPower, this`totalLevelPower
      modifies waveManager, enemies, speedBumps, bombs
      ensures Running() && waveManager.Valid() && waveManager.spawnedEnemies == []
      ensures enemies == old(enemies) + spawned && forall k :: 0 <= k < |spawned| ==> fresh(spawned[k])
      ensures before.poses == old(Poses(enemies)) + entry
      ensures Ticked(enemies, old(speedBumps), old(bombs), before, after, speedBumps, bombs, dt, dist)
      ensures Outcome(enemies, old(speedBumps), old(bombs), after, charge, old(RunOf(waveManager)), waveManager, dt, rolls, released, spawned, entry)
      ensures totalLevelPower == old(totalLevelPower) + PowerOf(spawned) && 0 <= PowerOf(spawned)
      ensures leakedPower == old(leakedPower) + charge && 0 <= charge
    {
      spawned, released := Spawn(dt, rolls);
      entry := Poses(spawned);
      before := Shown(enemies, speedBumps, bombs);
      ShownJoin(old(enemies), spawned, old(Poses(enemies)), speedBumps, bombs, before);
      after, charge := Proceed(dt, before, Witness([], [], [], before, 0, old(RunOf(waveManager)), waveManager, dt, rolls, released, spawned, entry));
    }

    /**
     * The enemy pass and the gadgets, after the hand-over `w` of the wave
     * manager, which they leave as it was.
     */
    method Proceed(dt: real, ghost before: Scene, ghost w: Witness) returns (ghost after: Scene, ghost charge: int)
      requires Valid() && Shows(enemies, speedBumps, bombs, before) && w.wm == waveManager
      requires Handed(w.from, w.wm, w.dt, w.rolls, w.released, w.spawned, w.entry)
      modifies this`leakedPower, this`speedBumps, this`bombs, speedBumps`lifetime, bombs`triggered, enemies
      ensures enemies == old(enemies) && totalLevelPower == old(totalLevelPower)
      ensures Running() && waveManager.Valid() && waveManager.spawnedEnemies == []
      ensures Ticked(enemies, old(speedBumps), old(bombs), before, after, speedBumps, bombs, dt, dist)
      ensures Outcome(enemies, old(speedBumps), old(bombs), after, charge, w.from, w.wm, w.dt, w.rolls, w.released, w.spawned, w.entry)
      ensures leakedPower == old(leakedPower) + charge && 0 <= charge
    {
      after, charge := Advance(dt, before, set r: Route | r in RoutesOf(w.released));
      HandedKept(w);
      OutcomeIntro(enemies, old(speedBumps), old(bombs), after, charge, w.from, w.wm, w.dt, w.rolls, w.released, w.spawned, w.entry);
    }

    /** The first step of `update`: the enemies the wave manager released join the field. */
    method Spawn(dt: real, rolls: seq<int>) returns (ghost spawned: seq<Enemy>, ghost released: seq<EnemySpawn>)
      requires Valid()
      requires waveManager.currentWave < TOTAL_WAVES ==> TotalEnemies(waveManager.currentWave + 1, waveManager.difficulty) <= |rolls|
      modifies waveManager, this`enemies, this`totalLevelPower
      ensures Valid()
      ensures Handed(old(RunOf(waveManager)), waveManager, dt, rolls, released, spawned, Poses(spawned))
      ensures enemies == old(enemies) + spawned && forall k :: 0 <= k < |spawned| ==> fresh(spawned[k])
      ensures forall e | e in enemies :: e in old(enemies) || fresh(e)
      ensures totalLevelPower == old(totalLevelPower) + PowerOf(spawned) && 0 <= PowerOf(spawned)
    {
      ghost var from := RunOf(waveManager);
      var newEnemies;
      newEnemies, released := Poll(dt, rolls);
      Enlist(newEnemies, Witness([], [], [], Scene([], [], [], []), 0, from, waveManager, dt, rolls, released, newEnemies, Poses(newEnemies)));
      spawned := newEnemies;
    }

    /** `waveManager.update(dt)` and `getSpawnedEnemies`: the enemies it released, as `Handed` says. */
    method Poll(dt: real, rolls: seq<int>) returns (newEnemies: seq<Enemy>, ghost released: seq<EnemySpawn>)
      requires Valid()
      requires waveManager.currentWave < TOTAL_WAVES ==> TotalEnemies(waveManager.currentWave + 1, waveManager.difficulty) <= |rolls|
      modifies waveManager
      ensures Valid() && Distinct(newEnemies) && Entering(newEnemies)
      ensures forall k :: 0 <= k < |newEnemies| ==> fresh(newEnemies[k])
      ensures Handed(old(RunOf(waveManager)), waveManager, dt, rolls, released, newEnemies, Poses(newEnemies))
    {
      ghost var from := RunOf(waveManager);
      newEnemies := RunWaves(waveManager, dt, rolls);
      released := ReleasedNow(from, waveManager);
      HandedIntro(from, waveManager, dt, rolls, released, newEnemies, Poses(newEnemies));
    }

    /**
     * The enemies the wave manager released join the field, and their power
     * the level's; the hand-over `w` of the wave manager stands as it was.
     */
    method Enlist(newEnemies: seq<Enemy>, ghost w: Witness)
      requires Valid()
      requires Distinct(newEnemies) && Entering(newEnemies) && forall k :: 0 <= k < |newEnemies| ==> newEnemies[k] !in enemies
      modifies this`enemies, this`totalLevelPower
      ensures Valid() && unchanged(waveManager) && unchanged(newEnemies)
      ensures old(Handed(w.from, w.wm, w.dt, w.rolls, w.released, w.spawned, w.entry)) ==> Handed(w.from, w.wm, w.dt, w.rolls, w.released, w.spawned, w.entry)
      ensures Poses(newEnemies) == old(Poses(newEnemies))
      ensures enemies == old(enemies) + newEnemies
      ensures totalLevelPower == old(totalLevelPower) + PowerOf(newEnemies) && 0 <= PowerOf(newEnemies)
    {
      Admit(newEnemies);
      if old(Handed(w.from, w.wm, w.dt, w.rolls, w.released, w.spawned, w.entry)) {
        HandedKept(w);
      }
    }

    /** The bookkeeping of `Enlist`: the field grows by the new enemies, the level's power by theirs. */
    method Admit(newEnemies: seq<Enemy>)
      requires Valid()
      requires Distinct(newEnemies) && Entering(newEnemies) && forall k :: 0 <= k < |newEnemies| ==> newEnemies[k] !in enemies
      modifies this`enemies, this`totalLevelPower
      ensures Valid()
      ensures enemies == old(enemies) + newEnemies
      ensures totalLevelPower == old(totalLevelPower) + PowerOf(newEnemies) && 0 <= PowerOf(newEnemies)
    {
      Join(enemies, newEnemies);
      PowerOfAppend(enemies, newEnemies);
      PowerOfNonNegative(newEnemies);
      enemies, totalLevelPower := enemies + newEnemies, if newEnemies != [] then totalLevelPower + PowerOf(newEnemies) else totalLevelPower;
    }

    /**
     * The middle of `update`: the enemies step and the gadgets act, taking
     * the field from the scene `before` it shows to the scene `after` as
     * `Ticked` says; the leaks, `charge`, are charged.
     */
    method Advance(dt: real, ghost before: Scene, ghost routes: set<Route>) returns (ghost after: Scene, ghost charge: int)
      requires Valid() && Shows(enemies, speedBumps, bombs, before)
      modifies this`leakedPower, this`speedBumps, this`bombs, speedBumps`lifetime, bombs`triggered
      modifies enemies`position, enemies`currentWaypointIndex, enemies`progressToNextWaypoint, enemies`leaked
      modifies enemies`slowFactor, enemies`slowEndTime, enemies`fireTimer, enemies`currentHp, enemies`alive
      ensures Running()
      ensures Ticked(enemies, old(speedBumps), old(bombs), before, after, speedBumps, bombs, dt, dist)
      ensures Shows(enemies, old(speedBumps), old(bombs), after) && charge == Charged(enemies)
      ensures leakedPower == old(leakedPower) + charge && 0 <= charge
      ensures unchanged(waveManager) && unchanged(routes)
    {
      label start:
      var keptBumps, keptBombs, paid;
      paid, keptBumps, keptBombs, after := Tick(enemies, speedBumps, bombs, before, dt, dist, waveManager, routes);
      Settle(keptBumps, keptBombs, paid, after);
      charge := paid;
      RunningAfterSteps@start();
    }

    /**
     * The gadgets still in play replace the lists, and the leaks are
     * charged; the field and the gadgets as listed before still show `after`.
     */
    method Settle(keptBumps: seq<SpeedBump>, keptBombs: seq<Bomb>, paid: int, ghost after: Scene)
      modifies this`speedBumps, this`bombs, this`leakedPower
      ensures speedBumps == keptBumps && bombs == keptBombs && leakedPower == old(leakedPower) + paid
      ensures old(Shows(enemies, speedBumps, bombs, after)) ==> Shows(enemies, old(speedBumps), old(bombs), after)
    {
      speedBumps, bombs, leakedPower := keptBumps, keptBombs, leakedPower + paid;
    }

    /** `getLeakPercentage`: the leaked share of the level's power, zero before any enemy came. */
    function GetLeakPercentage(): (r: real)
      reads this`leakedPower, this`totalLevelPower
      ensures totalLevelPower <= 0 ==> r == 0.0
      ensures totalLevelPower > 0 ==> r * totalLevelPower as real == leakedPower as real
      ensures Defeated(leakedPower, totalLevelPower) <==> totalLevelPower > 0 && r >= LEAK_DEFEAT_RATIO
    {
      if totalLevelPower > 0 then leakedPower as real / totalLevelPower as real else 0.0
    }

    /** A part of a positive whole, as a share of it, lies between zero and one. */
    static lemma ShareWithin(part: int, whole: int)
      requires 0 <= part <= whole && 0 < whole
      ensures 0.0 <= part as real / whole as real <= 1.0
    {
      var r := part as real / whole as real;
      assert r * whole as real == part as real <= whole as real;
    }

    /** Between frames the leak share lies between zero and one. */
    lemma LeakShareAtMostOne()
      requires Valid()
      ensures 0.0 <= GetLeakPercentage() <= 1.0
    {
      PowerOfRunners(enemies);
      PowerNonNegative(Runners(enemies));
      if totalLevelPower > 0 {
        ShareWithin(leakedPower, totalLevelPower);
      }
    }

    /** `addTower`. */
    method AddTower(tower: Tower)
      modifies this`towers
      ensures towers == old(towers) + [tower]
    {
      towers := towers + [tower];
    }

    /** `addSpeedBump`: a new bump on the tile. */
    method AddSpeedBump(position: Point) returns (ghost b: SpeedBump)
      requires Valid()
      modifies this`speedBumps
      ensures Valid()
      ensures fresh(b) && b.tilePos == position && b.lifetime == SPEED_BUMP_LIFETIME_SEC
      ensures speedBumps == old(speedBumps) + [b]
    {
      var bump := new SpeedBump(position);
      DistinctSnoc(speedBumps, bump);
      speedBumps := speedBumps + [bump];
      b := bump;
    }

    /** `addBomb`: a new armed bomb on the tile. */
    method AddBomb(position: Point) returns (ghost b: Bomb)
      requires Valid()
      modifies this`bombs
      ensures Valid()
      ensures fresh(b) && b.tilePos == position && !b.triggered
      ensures bombs == old(bombs) + [b]
    {
      var bomb := new Bomb(position);
      DistinctSnoc(bombs, bomb);
      bombs := bombs + [bomb];
      b := bomb;
    }

    /**
     * `checkGameState`: defeat once the leaked share reaches the ratio, and
     * otherwise victory once every wave is done and no enemy listed is alive.
     */
    method CheckGameState()
      modifies this`gameOver, this`victory
      ensures gameOver == (old(gameOver) || Defeated(leakedPower, totalLevelPower))
      ensures victory == (old(victory) || (!Defeated(leakedPower, totalLevelPower) && waveManager.AllWavesComplete() && NoneAlive(enemies)))
    {
      if totalLevelPower > 0 {
        var leakRatio := leakedPower as real / totalLevelPower as real;
        if leakRatio >= LEAK_DEFEAT_RATIO {
          gameOver := true;
          return;
        }
      }
      if waveManager.AllWavesComplete() && NoneAlive(enemies) {
        victory := true;
      }
    }

    /**
     * `cleanupEntities` as intended: an enemy stays only while it is alive
     * and has not leaked, and a tower only while it stands; after an enemy
     * pass this restores the between-frames invariant.
     */
    method CleanupEntities()
      modifies this`enemies, this`towers
      ensures enemies == Survivors(old(enemies)) && towers == Standing(old(towers))
      ensures old(Running() && waveManager.Valid() && waveManager.spawnedEnemies == []) ==> Valid()
    {
      if Running() && waveManager.Valid() && waveManager.spawnedEnemies == [] {
        SurvivorsDistinct(enemies);
        SurvivorsEntering(enemies);
        SurvivorsWithinBudget(enemies);
      }
      enemies := Survivors(enemies);
      towers := Standing(towers);
    }

    /** `cleanupEntities` as written: only enemies both dead and leaked are removed. */
    method CleanupEntitiesAsWritten()
      modifies this`enemies, this`towers
      ensures enemies == SurvivorsAsWritten(old(enemies)) && towers == Standing(old(towers))
    {
      enemies := SurvivorsAsWritten(enemies);
      towers := Standing(towers);
    }

    /**
     * `handleBuildSlotClick`: a fast tower on the tile's pixel corner,
     * bought when the money covers its cost.
     */
    method HandleBuildSlotClick(tileX: int, tileY: int) returns (built: bool)
      modifies resourceManager`money, this`towers
      ensures built <==> old(resourceManager.money) >= FAST_TOWER_COST
      ensures resourceManager.money == Apply(old(resourceManager.money), Spend(FAST_TOWER_COST))
      ensures !built ==> towers == old(towers)
      ensures built ==> |towers| == |old(towers)| + 1 && towers[..|old(towers)|] == old(towers)
      ensures built ==> var t := towers[|old(towers)|];
        fresh(t) && t.kind == TowerKind.FastTower && t.position == Point(tileX as real * TILE, tileY as real * TILE)
    {
      var pixelX := (tileX * TILE_SIZE) as real;
      var pixelY := (tileY * TILE_SIZE) as real;
      built := false;
      if resourceManager.CanAfford(FAST_TOWER_COST) {
        var ok, _ := resourceManager.SpendMoney(FAST_TOWER_COST);
        if ok {
          var tower := new Tower(TowerKind.FastTower, pixelX, pixelY);
          towers := towers + [tower];
          built := true;
        }
      }
    }

    /** `handleSpeedBumpSlotClick`: a speed bump on the tile, bought when the money covers its cost. */
    method HandleSpeedBumpSlotClick(tileX: int, tileY: int) returns (built: bool)
      requires Valid()
      modifies resourceManager`money, this`speedBumps
      ensures Valid()
      ensures built <==> old(resourceManager.money) >= SPEED_BUMP_COST
      ensures resourceManager.money == Apply(old(resourceManager.money), Spend(SPEED_BUMP_COST))
      ensures !built ==> speedBumps == old(speedBumps)
      ensures built ==> |speedBumps| == |old(speedBumps)| + 1 && speedBumps[..|old(speedBumps)|] == old(speedBumps)
      ensures built ==> var b := speedBumps[|old(speedBumps)|];
        fresh(b) && b.tilePos == Point(tileX as real, tileY as real) && b.lifetime == SPEED_BUMP_LIFETIME_SEC
    {
      built := false;
      if resourceManager.CanAfford(SPEED_BUMP_COST) {
        var ok, _ := resourceManager.SpendMoney(SPEED_BUMP_COST);
        if ok {
          var pos := Point(tileX as real, tileY as real);
          ghost var b := AddSpeedBump(pos);
          built := true;
        }
      }
    }

    /** `handleBombSlotClick`: an armed bomb on the tile, bought when the money covers its cost. */
    method HandleBombSlotClick(tileX: int, tileY: int) returns (built: bool)
      requires Valid()
      modifies resourceManager`money, this`bombs
      ensures Valid()
      ensures built <==> old(resourceManager.money) >= BOMB_COST
      ensures resourceManager.money == Apply(old(resourceManager.money), Spend(BOMB_COST))
      ensures !built ==> bombs == old(bombs)
      ensures built ==> |bombs| == |old(bombs)| + 1 && bombs[..|old(bombs)|] == old(bombs)
      ensures built ==> var b := bombs[|old(bombs)|];
        fresh(b) && b.tilePos == Point(tileX as real, tileY as real) && !b.triggered
    {
      built := false;
      if resourceManager.CanAfford(BOMB_COST) {
        var ok, _ := resourceManager.SpendMoney(BOMB_COST);
        if ok {
          var pos := Point(tileX as real, tileY as real);
          ghost var b := AddBomb(pos);
          built := true;
        }
      }
    }

    /**
     * `findBestTarget`: the live, unleaked enemy within the tower's reach
     * that is nearest the exit, the one with fewer hit points among equals,
     * the first listed among full ties.
     */
    method FindBestTarget(tower: Tower) returns (bestTarget: Enemy?)
      requires forall i :: 0 <= i < |enemies| ==> enemies[i].Valid()
      ensures bestTarget == ChosenEnemy(enemies, LeadScan(tower.Aim(), dist, Views(enemies, dist), |enemies|).index)
    {
      bestTarget := null;
      var closestToExit := DOUBLE_MAX;
      var lowestHp := DOUBLE_MAX;
      ghost var fs := Views(enemies, dist);
      ghost var aim := tower.Aim();
      for i := 0 to |enemies|
        invariant var l := LeadScan(aim, dist, fs, i);
          l.toExit == closestToExit && l.hp == lowestHp && bestTarget == ChosenEnemy(enemies, l.index)
      {
        var enemy := enemies[i];
        assert fs[i] == enemy.View(dist);
        if !enemy.alive || enemy.leaked {
          continue;
        }
        if !tower.CanTarget(enemy, dist) {
          continue;
        }
        var distance := PointDistance(dist, tower.Centre(), enemy.Centre());
        if distance > tower.GetRange() * TILE {
          continue;
        }
        var distanceToExit := enemy.GetDistanceToEnd(dist);
        if distanceToExit < closestToExit || (distanceToExit == closestToExit && enemy.currentHp < lowestHp) {
          closestToExit := distanceToExit;
          lowestHp := enemy.currentHp;
          bestTarget := enemy;
        }
      }
    }
  }

  /**
   * The first two calls of `update`: the wave manager runs, then hands over
   * the enemies it spawned: new, distinct and entering the game, one made
   * from each spawn it released that makes an enemy; the manager stays
   * consistent and keeps none.
   */
  method RunWaves(wm: WaveManager, dt: real, rolls: seq<int>) returns (spawned: seq<Enemy>)
    requires wm.Valid() && wm.spawnedEnemies == []
    requires wm.currentWave < TOTAL_WAVES ==> TotalEnemies(wm.currentWave + 1, wm.difficulty) <= |rolls|
    modifies wm
    ensures WavesRan(old(RunOf(wm)), wm, dt, rolls) && wm.spawnedEnemies == []
    ensures forall k :: 0 <= k < |spawned| ==> fresh(spawned[k])
    ensures Distinct(spawned) && Entering(spawned)
    ensures Entered(spawned, Poses(spawned), ReleasedNow(old(RunOf(wm)), wm), wm.difficulty, wm.currentWave)
  {
    ghost var released := PollWaves(wm, dt, rolls);
    spawned := wm.GetSpawnedEnemies();
    MadeAllEntered(spawned, released, wm.difficulty, wm.currentWave);
  }

  /**
   * `waveManager.update(dt)` on a manager with nothing buffered: it runs as
   * `WavesRan` says, and the buffer holds, new, distinct and entering the
   * game, one enemy made from each spawn `released` says it released.
   */
  method PollWaves(wm: WaveManager, dt: real, rolls: seq<int>) returns (ghost released: seq<EnemySpawn>)
    requires wm.Valid() && wm.spawnedEnemies == []
    requires wm.currentWave < TOTAL_WAVES ==> TotalEnemies(wm.currentWave + 1, wm.difficulty) <= |rolls|
    modifies wm
    ensures WavesRan(old(RunOf(wm)), wm, dt, rolls) && released == ReleasedNow(old(RunOf(wm)), wm)
    ensures forall k :: 0 <= k < |wm.spawnedEnemies| ==> fresh(wm.spawnedEnemies[k])
    ensures Distinct(wm.spawnedEnemies) && Entering(wm.spawnedEnemies)
    ensures MadeAll(wm.spawnedEnemies, released, wm.difficulty, wm.currentWave)
  {
    ghost var from := RunOf(wm);
    wm.Update(dt, rolls);
    released := ReleasedNow(from, wm);
    assert wm.spawnedEnemies[0..] == wm.spawnedEnemies;
    assert WavesRan(from, wm, dt, rolls) by {
      assert WavesKey(0);
    }
  }

  /** New enemies, fresh and without repeats, join a list without repeats. */
  lemma Join(a: seq<Enemy>, b: seq<Enemy>)
    requires Distinct(a) && Distinct(b) && Entering(a) && Entering(b)
    requires forall i, j :: 0 <= i < |a| && 0 <= j < |b| ==> a[i] != b[j]
    ensures Distinct(a + b) && Entering(a + b)
  {
    DistinctPairwise(a);
    DistinctPairwise(b);
    DistinctPairwise(a + b);
    assert forall i :: 0 <= i < |a| ==> (a + b)[i] == a[i];
    assert forall j :: 0 <= j < |b| ==> (a + b)[|a| + j] == b[j];
  }

  lemma {:induction false} PowerOfNonNegative(es: seq<Enemy>)
    requires forall k :: 0 <= k < |es| ==> es[k].powerValue >= 0
    ensures PowerOf(es) >= 0
    decreases |es|
  {
    if es != [] {
      PowerOfNonNegative(es[..|es| - 1]);
    }
  }

  lemma {:induction false} ChargedNonNegative(es: seq<Enemy>)
    requires forall k :: 0 <= k < |es| ==> es[k].powerValue >= 0
    ensures Charged(es) >= 0
    decreases |es|
  {
    if es != [] {
      ChargedNonNegative(es[..|es| - 1]);
    }
  }

  lemma {:induction false} PowerNonNegative(rs: seq<Runner>)
    requires forall i :: 0 <= i < |rs| ==> rs[i].power >= 0
    ensures Power(rs) >= 0
    decreases |rs|
  {
    if rs != [] {
      PowerNonNegative(rs[..|rs| - 1]);
    }
  }
}
