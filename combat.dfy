/**
 * The combat system of the FX engine: the six entity lists, the per-tick
 * pipeline that updates every entity in a fixed order, the collection of
 * the towers' projectiles into the shared list, and the cleanup that drops
 * the dead and the spent.
 */
module Combat {
  import opened Math2D
  import opened Events
  import opened Actors
  import opened Placeables
  import opened Vitals
  import opened Targeting

  function BumpSet(bs: seq<SpeedBump>): set<SpeedBump> { set b | b in bs }
  function BombSet(bs: seq<Bomb>): set<Bomb> { set b | b in bs }

  // ---------------------------------------------------------------------
  // Appending without repeats
  // ---------------------------------------------------------------------

  /**
   * `for (p : xs) if (!acc.contains(p)) acc.add(p)`: the entries of `xs`
   * appended in order to `acc`, each only when not there yet.
   */
  function Gathered<T(==)>(acc: seq<T>, xs: seq<T>): seq<T>
    decreases |xs|
  {
    if xs == [] then acc
    else Gathered(if xs[0] in acc then acc else acc + [xs[0]], xs[1..])
  }

  /**
   * Gathering only appends, adds exactly the entries of `xs` that are
   * missing, and so keeps a list without repeats without repeats.
   */
  lemma {:induction false} GatheredAppends<T>(acc: seq<T>, xs: seq<T>)
    ensures var r := Gathered(acc, xs);
      && |acc| <= |r| && r[..|acc|] == acc
      && (forall x :: x in r <==> x in acc || x in xs)
      && (Distinct(acc) ==> Distinct(r))
    decreases |xs|
  {
    if xs != [] {
      var next := if xs[0] in acc then acc else acc + [xs[0]];
      GatheredAppends(next, xs[1..]);
      var r := Gathered(acc, xs);
      assert r[..|acc|] == r[..|next|][..|acc|];
      assert forall x :: x in xs <==> x == xs[0] || x in xs[1..];
      if Distinct(acc) && xs[0] !in acc {
        assert forall j :: 0 <= j < |acc| ==> next[j] == acc[j];
      }
    }
  }

  // ---------------------------------------------------------------------
  // Keeping order
  // ---------------------------------------------------------------------

  /** `r` is `s` with some entries left out, the rest in their order. */
  predicate Subsequence<T(==)>(r: seq<T>, s: seq<T>)
    decreases |s|
  {
    if r == [] then true
    else if s == [] then false
    else if r[0] == s[0] then Subsequence(r[1..], s[1..])
    else Subsequence(r, s[1..])
  }

  /** Filtering leaves the kept entries in their order. */
  lemma {:induction false} FilterIsSubsequence<T>(s: seq<T>, keep: seq<bool>)
    requires |keep| == |s|
    ensures Subsequence(Filter(s, keep), s)
  {
    if s != [] {
      FilterIsSubsequence(s[1..], keep[1..]);
      var rest := Filter(s[1..], keep[1..]);
      if keep[0] {
        assert Filter(s, keep) == [s[0]] + rest;
        assert ([s[0]] + rest)[1..] == rest;
      } else {
        assert Filter(s, keep) == rest;
        DropFront(rest, s);
      }
    }
  }

  /** A subsequence of the tail is a subsequence of the whole list. */
  lemma {:induction false} DropFront<T>(r: seq<T>, s: seq<T>)
    requires s != [] && Subsequence(r, s[1..])
    ensures Subsequence(r, s)
    decreases |s|, |r|
  {
    if r != [] && r[0] == s[0] {
      SubsequenceTail(r, s[1..]);
    }
  }

  /** Dropping the first entry of a subsequence leaves a subsequence. */
  lemma {:induction false} SubsequenceTail<T>(r: seq<T>, s: seq<T>)
    requires r != [] && Subsequence(r, s)
    ensures Subsequence(r[1..], s)
    decreases |s|, |r|
  {
    if r[0] == s[0] {
      if r[1..] != [] {
        DropFront(r[1..], s);
      }
    } else {
      SubsequenceTail(r, s[1..]);
      DropFront(r[1..], s);
    }
  }

  // ---------------------------------------------------------------------
  // The cleanup filters
  // ---------------------------------------------------------------------

  /** Whether each enemy is alive. */
  function EnemyFlags(es: seq<Enemy>): (r: seq<bool>)
    reads EnemySet(es)`alive
    ensures |r| == |es| && forall j :: 0 <= j < |es| ==> r[j] == es[j].alive
  {
    if es == [] then [] else [es[0].alive] + EnemyFlags(es[1..])
  }

  /** Whether each tower is alive. */
  function TowerFlags(ts: seq<Tower>): (r: seq<bool>)
    reads TowerSet(ts)`alive
    ensures |r| == |ts| && forall j :: 0 <= j < |ts| ==> r[j] == ts[j].alive
  {
    if ts == [] then [] else [ts[0].alive] + TowerFlags(ts[1..])
  }

  /** Whether each AA defense is alive. */
  function AAFlags(aas: seq<AADefense>): (r: seq<bool>)
    reads AASet(aas)`alive
    ensures |r| == |aas| && forall j :: 0 <= j < |aas| ==> r[j] == aas[j].alive
  {
    if aas == [] then [] else [aas[0].alive] + AAFlags(aas[1..])
  }

  /** Whether each speed bump is still active. */
  function BumpFlags(bs: seq<SpeedBump>): (r: seq<bool>)
    reads BumpSet(bs)`active
    ensures |r| == |bs| && forall j :: 0 <= j < |bs| ==> r[j] == bs[j].active
  {
    if bs == [] then [] else [bs[0].active] + BumpFlags(bs[1..])
  }

  /** Whether each bomb's explosion is still to finish. */
  function BombFlags(bs: seq<Bomb>): (r: seq<bool>)
    reads BombSet(bs)
    ensures |r| == |bs| && forall j :: 0 <= j < |bs| ==> r[j] == !bs[j].ExplosionComplete()
  {
    if bs == [] then [] else [!bs[0].ExplosionComplete()] + BombFlags(bs[1..])
  }

  /** Filtering keeps nothing that was not there. */
  lemma {:induction false} FilterWithin<T>(s: seq<T>, keep: seq<bool>)
    requires |keep| == |s|
    ensures forall x | x in Filter(s, keep) :: x in s
  {
    if s != [] {
      FilterWithin(s[1..], keep[1..]);
    }
  }

  /** `removeIf(!alive)` on enemies leaves exactly the living ones. */
  lemma EnemiesKept(es: seq<Enemy>)
    ensures var r := EnemySet(Filter(es, EnemyFlags(es)));
      r <= EnemySet(es) && forall e | e in EnemySet(es) :: e in r <==> e.alive
  {
    FilterMembers(es, EnemyFlags(es));
  }

  /** `removeIf(!alive)` on towers leaves exactly the living ones. */
  lemma TowersKept(ts: seq<Tower>)
    ensures var r := TowerSet(Filter(ts, TowerFlags(ts)));
      r <= TowerSet(ts) && forall t | t in TowerSet(ts) :: t in r <==> t.alive
  {
    FilterMembers(ts, TowerFlags(ts));
  }

  /** `removeIf(!alive)` on AA defenses leaves exactly the living ones. */
  lemma DefensesKept(aas: seq<AADefense>)
    ensures var r := AASet(Filter(aas, AAFlags(aas)));
      r <= AASet(aas) && forall a | a in AASet(aas) :: a in r <==> a.alive
  {
    FilterMembers(aas, AAFlags(aas));
  }

  /** `removeIf(!active)` on speed bumps leaves exactly the active ones. */
  lemma BumpsKept(bs: seq<SpeedBump>)
    ensures var r := BumpSet(Filter(bs, BumpFlags(bs)));
      r <= BumpSet(bs) && forall b | b in BumpSet(bs) :: b in r <==> b.active
  {
    FilterMembers(bs, BumpFlags(bs));
  }

  /** `removeIf(isExplosionComplete)` on bombs leaves exactly those still to finish. */
  lemma BombsKept(bs: seq<Bomb>)
    ensures var r := BombSet(Filter(bs, BombFlags(bs)));
      r <= BombSet(bs) && forall b | b in BombSet(bs) :: b in r <==> !b.ExplosionComplete()
  {
    FilterMembers(bs, BombFlags(bs));
  }

  /** What `removeIf` leaves of a list: exactly the flagged entries, in their order. */
  lemma KeptInOrder<T>(s: seq<T>, keep: seq<bool>)
    requires |keep| == |s|
    ensures var r := Filter(s, keep);
      && Subsequence(r, s)
      && (forall j :: 0 <= j < |s| && keep[j] ==> s[j] in r)
      && (forall x | x in r :: exists j :: 0 <= j < |s| && keep[j] && s[j] == x)
      && (Distinct(s) ==> Distinct(r))
  {
    FilterIsSubsequence(s, keep);
    FilterMembers(s, keep);
  }

  // ---------------------------------------------------------------------
  // The combat system
  // ---------------------------------------------------------------------

  class CombatSystem {
    var towers: seq<Tower>
    var aaDefenses: seq<AADefense>
    var enemies: seq<Enemy>
    var projectiles: seq<Projectile>
    var speedBumps: seq<SpeedBump>
    var bombs: seq<Bomb>
    /** Every object an update may reach: the listed entities and what they point at. */
    ghost var Repr: set<object>

    /** Everything the listed entities point at lies in `R`. */
    ghost predicate FramedBy(R: set<object>)
      reads this`enemies, this`towers, this`aaDefenses, this`projectiles, this`speedBumps, this`bombs
      reads EnemySet(enemies)`nearbyTowers, EnemySet(enemies)`nearbyAA
      reads TowerSet(towers)`projectiles, TowerSet(towers)`currentTarget, AASet(aaDefenses)`currentTarget
    {
      && EnemySet(enemies) <= R && TowerSet(towers) <= R && AASet(aaDefenses) <= R
      && ProjectileSet(projectiles) <= R && Targets(projectiles) <= R
      && BumpSet(speedBumps) <= R && BombSet(bombs) <= R
      && (forall e | e in EnemySet(enemies) :: TowerSet(e.nearbyTowers) <= R && AASet(e.nearbyAA) <= R)
      && (forall t | t in TowerSet(towers) ::
            && ProjectileSet(t.projectiles) <= R && Targets(t.projectiles) <= R
            && (t.currentTarget != null ==> t.currentTarget in R))
      && (forall a | a in AASet(aaDefenses) :: a.currentTarget != null ==> a.currentTarget in R)
    }

    /** Every listed entity keeps its own invariant, and the shared projectile list has no repeats. */
    ghost predicate Sound()
      reads this`enemies, this`towers, this`aaDefenses, this`projectiles, this`bombs
      reads EnemySet(enemies)`pathProgress, EnemySet(enemies)`reachedEnd, EnemySet(enemies)`path, EnemySet(enemies)`context
      reads TowerSet(towers)`projectiles, AASet(aaDefenses)`currentTarget, BombSet(bombs)`armed, BombSet(bombs)`exploded
    {
      && Distinct(projectiles)
      && (forall e | e in EnemySet(enemies) :: e.Valid())
      && (forall t | t in TowerSet(towers) :: t.Valid())
      && (forall a | a in AASet(aaDefenses) :: a.Valid())
      && (forall b | b in BombSet(bombs) :: b.Valid())
    }

    /** `Repr` frames the lists, and every listed entity is sound. */
    ghost predicate Valid()
      reads this`enemies, this`towers, this`aaDefenses, this`projectiles, this`speedBumps, this`bombs, this`Repr
      reads EnemySet(enemies)`nearbyTowers, EnemySet(enemies)`nearbyAA
      reads EnemySet(enemies)`pathProgress, EnemySet(enemies)`reachedEnd, EnemySet(enemies)`path, EnemySet(enemies)`context
      reads TowerSet(towers)`projectiles, TowerSet(towers)`currentTarget, AASet(aaDefenses)`currentTarget
      reads BombSet(bombs)`armed, BombSet(bombs)`exploded
    {
      FramedBy(Repr) && Sound()
    }

    /** `new CombatSystem(config)`: six empty lists. */
    constructor ()
      ensures Valid()
      ensures towers == [] && aaDefenses == [] && enemies == [] && projectiles == [] && speedBumps == [] && bombs == []
      ensures Repr == {}
    {
      towers, aaDefenses, enemies, projectiles, speedBumps, bombs := [], [], [], [], [], [];
      Repr := {};
    }

    // -- add* ------------------------------------------------------------

    /** `addTower`: the tower goes at the end of the list; nothing else changes. */
    method AddTower(tower: Tower)
      requires Valid() && tower.Valid()
      modifies this`towers, this`Repr
      ensures Valid() && old(Repr) <= Repr
      ensures towers == old(towers) + [tower]
    {
      towers := towers + [tower];
      Reframe(Repr + {tower} + ProjectileSet(tower.projectiles) + Targets(tower.projectiles)
        + (if tower.currentTarget == null then {} else {tower.currentTarget}));
    }

    /** `addAADefense`: the defense goes at the end of the list; nothing else changes. */
    method AddAADefense(aa: AADefense)
      requires Valid() && aa.Valid()
      modifies this`aaDefenses, this`Repr
      ensures Valid() && old(Repr) <= Repr
      ensures aaDefenses == old(aaDefenses) + [aa]
    {
      aaDefenses := aaDefenses + [aa];
      Repr := Repr + {aa} + (if aa.currentTarget == null then {} else {aa.currentTarget});
    }

    /** `addEnemy`: the enemy goes at the end of the list; nothing else changes. */
    method AddEnemy(enemy: Enemy)
      requires Valid() && enemy.Valid()
      modifies this`enemies, this`Repr
      ensures Valid() && old(Repr) <= Repr
      ensures enemies == old(enemies) + [enemy]
    {
      enemies := enemies + [enemy];
      Repr := Repr + {enemy} + TowerSet(enemy.nearbyTowers) + AASet(enemy.nearbyAA);
    }

    /** `addSpeedBump`: the bump goes at the end of the list; nothing else changes. */
    method AddSpeedBump(bump: SpeedBump)
      requires Valid()
      modifies this`speedBumps, this`Repr
      ensures Valid() && old(Repr) <= Repr
      ensures speedBumps == old(speedBumps) + [bump]
    {
      speedBumps := speedBumps + [bump];
      Repr := Repr + {bump};
    }

    /** `addBomb`: the bomb goes at the end of the list; nothing else changes. */
    method AddBomb(bomb: Bomb)
      requires Valid() && bomb.Valid()
      modifies this`bombs, this`Repr
      ensures Valid() && old(Repr) <= Repr
      ensures bombs == old(bombs) + [bomb]
    {
      bombs := bombs + [bomb];
      Repr := Repr + {bomb};
    }

    // -- the tick ------------------------------------------------------

    /**
     * `update`: the phases in the source's order (enemies, towers, AA
     * defenses, projectiles, placeables; the tank-attack phase is not part
     * of this model), then the cleanup.  The system stays valid; every
     * reported castle hit comes from a walking enemy.  `!ok` is an error
     * path: it stands for the null-pointer exception an aircraft raises in
     * the enemy phase when it reads the grid it was never given; nothing
     * catches it, so the rest of the tick never runs.  After a full tick each list holds, in its old order, only
     * living or active entries (that every living entry is kept is stated
     * on `CleanupDeadEntities`).
     */
    method Update(dt: real, dist: Distance, bearing: Bearing, mover: Mover, hits: seq<bool>)
      returns (published: seq<Event>, ok: bool)
      requires Valid() && |hits| == |aaDefenses|
      modifies this, Repr
      ensures Valid()
      ensures forall ev | ev in published :: CastleHitBy(old(enemies), ev)
      ensures !ok ==> exists j | 0 <= j < |old(enemies)| :: old(enemies)[j].kind == Aircraft
      ensures ok ==> Subsequence(enemies, old(enemies)) && forall e | e in EnemySet(enemies) :: e.alive
      ensures ok ==> Subsequence(towers, old(towers)) && forall t | t in TowerSet(towers) :: t.alive
      ensures ok ==> Subsequence(aaDefenses, old(aaDefenses)) && forall a | a in AASet(aaDefenses) :: a.alive
      ensures ok ==> Subsequence(speedBumps, old(speedBumps)) && forall b | b in BumpSet(speedBumps) :: b.active
      ensures ok ==> Subsequence(bombs, old(bombs)) && forall b | b in BombSet(bombs) :: !b.ExplosionComplete()
      ensures ok ==> forall p | p in ProjectileSet(projectiles) :: p.active
    {
      ghost var stepped;
      published, ok, stepped := UpdateEnemies(dt, dist, mover);
      if !ok {
        assert enemies[stepped - 1].kind == Aircraft;
        return;
      }
      FinishTick(dt, dist, bearing, mover, hits);
    }

    /** The phases of `update` after the enemies', then the cleanup. */
    method FinishTick(dt: real, dist: Distance, bearing: Bearing, mover: Mover, hits: seq<bool>)
      requires Valid() && |hits| == |aaDefenses|
      modifies this, Repr
      ensures Valid()
      ensures Subsequence(enemies, old(enemies)) && forall e | e in EnemySet(enemies) :: e.alive
      ensures Subsequence(towers, old(towers)) && forall t | t in TowerSet(towers) :: t.alive
      ensures Subsequence(aaDefenses, old(aaDefenses)) && forall a | a in AASet(aaDefenses) :: a.alive
      ensures Subsequence(speedBumps, old(speedBumps)) && forall b | b in BumpSet(speedBumps) :: b.active
      ensures Subsequence(bombs, old(bombs)) && forall b | b in BombSet(bombs) :: !b.ExplosionComplete()
      ensures forall p | p in ProjectileSet(projectiles) :: p.active
    {
      UpdateTowers(dt, dist, bearing, mover);
      UpdateAADefenses(dt, dist, hits);
      UpdateProjectiles(dt, dist, mover);
      UpdatePlaceables(dt, dist);
      Sweep();
    }

    /**
     * The cleanup seen from the tick: each list becomes a subsequence of
     * itself holding only living or active entries.
     */
    method Sweep()
      requires Valid()
      modifies this`enemies, this`towers, this`aaDefenses, this`projectiles, this`speedBumps, this`bombs
      ensures Valid()
      ensures Subsequence(enemies, old(enemies)) && forall e | e in EnemySet(enemies) :: e.alive
      ensures Subsequence(towers, old(towers)) && forall t | t in TowerSet(towers) :: t.alive
      ensures Subsequence(aaDefenses, old(aaDefenses)) && forall a | a in AASet(aaDefenses) :: a.alive
      ensures Subsequence(speedBumps, old(speedBumps)) && forall b | b in BumpSet(speedBumps) :: b.active
      ensures Subsequence(bombs, old(bombs)) && forall b | b in BombSet(bombs) :: !b.ExplosionComplete()
      ensures forall p | p in ProjectileSet(projectiles) :: p.active
    {
      ghost var es, ts, aas, bs, ms, ps := enemies, towers, aaDefenses, speedBumps, bombs, projectiles;
      CleanupDeadEntities();
      Tidy(es, ts, aas, bs, ms, ps);
    }

    /** After the cleanup each list is a subsequence of what it was, of living or active entries only. */
    lemma Tidy(es: seq<Enemy>, ts: seq<Tower>, aas: seq<AADefense>, bs: seq<SpeedBump>, ms: seq<Bomb>, ps: seq<Projectile>)
      requires enemies == Filter(es, EnemyFlags(es)) && towers == Filter(ts, TowerFlags(ts))
      requires aaDefenses == Filter(aas, AAFlags(aas)) && speedBumps == Filter(bs, BumpFlags(bs))
      requires bombs == Filter(ms, BombFlags(ms)) && projectiles == Survivors(ps, false)
      ensures Subsequence(enemies, es) && forall e | e in EnemySet(enemies) :: e.alive
      ensures Subsequence(towers, ts) && forall t | t in TowerSet(towers) :: t.alive
      ensures Subsequence(aaDefenses, aas) && forall a | a in AASet(aaDefenses) :: a.alive
      ensures Subsequence(speedBumps, bs) && forall b | b in BumpSet(speedBumps) :: b.active
      ensures Subsequence(bombs, ms) && forall b | b in BombSet(bombs) :: !b.ExplosionComplete()
      ensures forall p | p in ProjectileSet(projectiles) :: p.active
    {
      EnemiesKept(es);
      TowersKept(ts);
      DefensesKept(aas);
      BumpsKept(bs);
      BombsKept(ms);
      SurvivorsAreKept(ps, false);
      FilterIsSubsequence(es, EnemyFlags(es));
      FilterIsSubsequence(ts, TowerFlags(ts));
      FilterIsSubsequence(aas, AAFlags(aas));
      FilterIsSubsequence(bs, BumpFlags(bs));
      FilterIsSubsequence(ms, BombFlags(ms));
    }

    // -- cleanup ---------------------------------------------------------

    /**
     * `cleanupDeadEntities`: each list keeps, in order, exactly its living
     * enemies, towers and AA defenses, its active projectiles and speed
     * bumps, and the bombs whose explosion has not finished.
     */
    method CleanupDeadEntities()
      requires Valid()
      modifies this`enemies, this`towers, this`aaDefenses, this`projectiles, this`speedBumps, this`bombs
      ensures Valid()
      ensures enemies == Filter(old(enemies), old(EnemyFlags(enemies)))
      ensures towers == Filter(old(towers), old(TowerFlags(towers)))
      ensures aaDefenses == Filter(old(aaDefenses), old(AAFlags(aaDefenses)))
      ensures projectiles == old(Survivors(projectiles, false))
      ensures speedBumps == Filter(old(speedBumps), old(BumpFlags(speedBumps)))
      ensures bombs == Filter(old(bombs), old(BombFlags(bombs)))
    {
      var ef, tf, af, bf, mf := EnemyFlags(enemies), TowerFlags(towers), AAFlags(aaDefenses), BumpFlags(speedBumps), BombFlags(bombs);
      var ps := Survivors(projectiles, false);
      FilterWithin(enemies, ef);
      FilterWithin(towers, tf);
      FilterWithin(aaDefenses, af);
      FilterWithin(speedBumps, bf);
      FilterWithin(bombs, mf);
      SurvivorsAreKept(projectiles, false);
      enemies, towers, aaDefenses, projectiles, speedBumps, bombs :=
        Filter(enemies, ef), Filter(towers, tf), Filter(aaDefenses, af), ps, Filter(speedBumps, bf), Filter(bombs, mf);
      StillValid();
    }

    /** Shrinking the lists, and changing nothing else, keeps the system valid. */
    twostate lemma StillValid()
      requires old(Valid()) && Repr == old(Repr)
      requires unchanged(old(EnemySet(enemies)), old(TowerSet(towers)), old(AASet(aaDefenses)), old(BombSet(bombs)))
      requires EnemySet(enemies) <= old(EnemySet(enemies)) && TowerSet(towers) <= old(TowerSet(towers))
      requires AASet(aaDefenses) <= old(AASet(aaDefenses)) && ProjectileSet(projectiles) <= old(ProjectileSet(projectiles))
      requires BumpSet(speedBumps) <= old(BumpSet(speedBumps)) && BombSet(bombs) <= old(BombSet(bombs))
      requires Distinct(projectiles)
      ensures Valid()
    {
      forall e | e in Targets(projectiles) ensures e in old(Targets(projectiles)) {
        var p :| p in projectiles && p.target == e;
        assert p in ProjectileSet(projectiles);
      }
    }

    // -- enemies ---------------------------------------------------------

    /**
     * `updateEnemies`: each enemy updates once, in order, moving as
     * `Enemy.Moved` says; the castle hits they report come back as
     * `published`.  An aircraft without a strike context stops the phase
     * with `ok` false, the enemies after it not updated: the source
     * dereferences the missing combat system there and the exception ends
     * the frame.
     */
    method UpdateEnemies(dt: real, dist: Distance, mover: Mover) returns (published: seq<Event>, ok: bool, ghost stepped: nat)
      requires Valid()
      modifies Repr
      ensures Valid() && unchanged(this)
      ensures |published| <= |enemies|
      ensures forall ev | ev in published :: CastleHitBy(enemies, ev)
      ensures stepped <= |enemies| && (ok ==> stepped == |enemies|)
      ensures !ok ==> 0 < stepped && enemies[stepped - 1].kind == Aircraft
      ensures Distinct(enemies) ==> forall j | 0 <= j < |enemies| ::
        if j < stepped then enemies[j].Moved(old(enemies[j].MotionOf()), enemies[j].MotionOf(), dt, dist, mover)
        else enemies[j].MotionOf() == old(enemies[j].MotionOf())
    {
      ghost var defenders, guards := Defenders();
      var es := enemies;
      published, ok, stepped := StepEnemies(es, towers, aaDefenses, dt, dist, mover, defenders, guards);
      EnemiesKeepValid(defenders);
    }

    /** The towers and AA defenses the lists and the enemies point at, all in `Repr`. */
    lemma Defenders() returns (defenders: set<Tower>, guards: set<AADefense>)
      requires Valid()
      ensures defenders <= Repr && guards <= Repr
      ensures TowerSet(towers) <= defenders && AASet(aaDefenses) <= guards
      ensures forall e | e in EnemySet(enemies) :: TowerSet(e.nearbyTowers) <= defenders && AASet(e.nearbyAA) <= guards
    {
      defenders := TowerSet(towers) + (set e, t | e in EnemySet(enemies) && t in TowerSet(e.nearbyTowers) :: t);
      guards := AASet(aaDefenses) + (set e, a | e in EnemySet(enemies) && a in AASet(e.nearbyAA) :: a);
    }

    /**
     * The enemy phase keeps the system valid: towers lose at most all their
     * shells, and nothing else any invariant reads changes except on the
     * enemies, which stay valid.
     */
    twostate lemma EnemiesKeepValid(defenders: set<Tower>)
      requires old(Valid()) && unchanged(this) && TowerSet(towers) <= defenders && ShellsShed(defenders)
      requires forall e | e in EnemySet(enemies) :: e.Valid() && e.nearbyTowers == old(e.nearbyTowers) && e.nearbyAA == old(e.nearbyAA)
      requires forall t | t in TowerSet(towers) :: unchanged(t`currentTarget)
      requires forall a | a in AASet(aaDefenses) :: unchanged(a`currentTarget)
      requires forall b | b in BombSet(bombs) :: unchanged(b`armed, b`exploded)
      ensures Valid()
    {
    }

    // -- towers ----------------------------------------------------------

    /**
     * `updateTowers`: each living tower updates once, in order, and its
     * projectiles are then appended to the shared list unless already there;
     * destroyed towers are skipped and left as they were.  The shared list
     * only grows, stays free of repeats, ends up holding every projectile of
     * every living tower, and gains only the towers' projectiles.  In a list
     * without repeats each living tower's cooldown, flash and last shot are
     * what its update leaves (`Reloaded`).
     */
    method UpdateTowers(dt: real, dist: Distance, bearing: Bearing, mover: Mover)
      requires Valid()
      modifies this`projectiles, this`Repr, Repr
      ensures Valid() && old(Repr) <= Repr
      ensures unchanged(this`enemies, this`towers, this`aaDefenses, this`speedBumps, this`bombs)
      ensures forall t | t in TowerSet(towers) && !t.alive :: unchanged(t)
      ensures |old(projectiles)| <= |projectiles| && projectiles[..|old(projectiles)|] == old(projectiles)
      ensures forall t | t in TowerSet(towers) && t.alive :: ProjectileSet(t.projectiles) <= ProjectileSet(projectiles)
      ensures forall p | p in ProjectileSet(projectiles) :: p in old(Repr) || fresh(p)
      ensures forall o | o in Repr :: o in old(Repr) || fresh(o)
      ensures Distinct(towers) ==> forall j | 0 <= j < |towers| && towers[j].alive ::
        towers[j].Reloaded(old(towers[j].fireCooldown), old(towers[j].fireFlashDuration), dt)
    {
      ghost var shells, aims := Holdings();
      projectiles := StepTowers(towers, enemies, dt, dist, bearing, mover, projectiles, shells, aims);
      ghost var R := Repr + ProjectileSet(projectiles);
      TowersKeepValid(R, shells, aims);
      Reframe(R);
    }

    /** The projectiles the towers hold, and the enemies they or those projectiles aim at, all lie in `Repr`. */
    lemma Holdings() returns (shells: set<Projectile>, aims: set<Enemy>)
      requires Valid()
      ensures shells <= Repr && aims <= Repr && EnemySet(enemies) <= aims
      ensures forall t | t in TowerSet(towers) :: ProjectileSet(t.projectiles) <= shells && Aimed(t, aims)
    {
      shells, aims := Shells(towers), EnemySet(enemies) + Aims(towers);
    }

    /** Takes a larger frame that still frames every list. */
    ghost method Reframe(R: set<object>)
      requires Repr <= R && FramedBy(R) && Sound()
      modifies this`Repr
      ensures Valid() && Repr == R
    {
      Repr := R;
    }

    /**
     * The tower phase keeps the system valid: its frame grows by the new
     * projectiles, and it changes on the other entities nothing their
     * invariants read.
     */
    twostate lemma TowersKeepValid(new R: set<object>, new shells: set<Projectile>, new aims: set<Enemy>)
      requires old(Valid()) && R == old(Repr) + ProjectileSet(projectiles)
      requires shells <= old(Repr) && aims <= old(Repr) && EnemySet(enemies) <= aims
      requires unchanged(this`enemies, this`towers, this`aaDefenses, this`speedBumps, this`bombs)
      requires forall t | t in TowerSet(towers) :: Tended(t) && Aimed(t, aims) && Stocked(t, shells)
      requires Distinct(projectiles)
      requires forall t | t in TowerSet(towers) && t.alive :: ProjectileSet(t.projectiles) <= ProjectileSet(projectiles)
      requires forall p | p in ProjectileSet(projectiles) ::
        p in old(ProjectileSet(projectiles)) || ((fresh(p) || p in shells) && p.target in aims)
      requires forall e | e in aims :: unchanged(e`nearbyTowers, e`nearbyAA, e`pathProgress, e`reachedEnd, e`path, e`context)
      requires forall a | a in AASet(aaDefenses) :: unchanged(a`currentTarget)
      requires forall b | b in BombSet(bombs) :: unchanged(b`armed, b`exploded)
      ensures FramedBy(R) && Sound()
      ensures forall o | o in R :: o in old(Repr) || fresh(o)
    {
    }

    // -- AA defenses -----------------------------------------------------

    /**
     * `updateAADefenses`: each living defense updates once, in order, with
     * the roll `hits[i]` for the `i`th; destroyed ones are skipped and left
     * as they were, and in a list without repeats each living one's cooldown
     * is what its update leaves.
     */
    method UpdateAADefenses(dt: real, dist: Distance, hits: seq<bool>)
      requires Valid() && |hits| == |aaDefenses|
      modifies AASet(aaDefenses)`fireCooldown, AASet(aaDefenses)`currentTarget
      modifies EnemySet(enemies)`currentHp, EnemySet(enemies)`alive, EnemySet(enemies)`isDestroying
      modifies EnemySet(enemies)`destructionTime, EnemySet(enemies)`hasTriggeredStrike
      modifies AATargets(aaDefenses)`currentHp, AATargets(aaDefenses)`alive, AATargets(aaDefenses)`isDestroying
      modifies AATargets(aaDefenses)`destructionTime, AATargets(aaDefenses)`hasTriggeredStrike
      ensures Valid()
      ensures forall a | a in AASet(aaDefenses) && !a.alive :: unchanged(a)
      ensures Distinct(aaDefenses) ==> forall j | 0 <= j < |aaDefenses| && aaDefenses[j].alive ::
        aaDefenses[j].Reloaded(old(aaDefenses[j].fireCooldown), dt)
    {
      StepDefenses(aaDefenses, enemies, dt, dist, hits);
    }

    // -- placeables ------------------------------------------------------

    /**
     * `updatePlaceables`: the speed bumps update in order, then the bombs.
     * Spent bumps and exploded bombs stay so, each bump counts down once and
     * each one still active slows exactly the enemies in play within its
     * reach, and each bomb has `Detonated` (in lists without repeats).
     */
    method UpdatePlaceables(dt: real, dist: Distance)
      requires Valid()
      modifies BumpSet(speedBumps)`remainingTime, BumpSet(speedBumps)`active, BumpSet(speedBumps)`affectedEnemies
      modifies EnemySet(enemies)`slowMultiplier, EnemySet(enemies)`slowDuration
      modifies BombSet(bombs)`armed, BombSet(bombs)`exploded, BombSet(bombs)`explosionTimer
      modifies EnemySet(enemies)`currentHp, EnemySet(enemies)`alive, EnemySet(enemies)`isDestroying
      modifies EnemySet(enemies)`destructionTime, EnemySet(enemies)`hasTriggeredStrike
      ensures Valid()
      ensures forall b | b in BumpSet(speedBumps) :: (b.active ==> old(b.active)) && (!old(b.active) ==> unchanged(b))
      ensures forall j | 0 <= j < |speedBumps| && speedBumps[j].active ::
        speedBumps[j].affectedEnemies == old(speedBumps[j].SlowedAmong(enemies, |enemies|, dist))
      ensures forall b | b in BombSet(bombs) :: old(b.exploded) ==> b.exploded
      ensures Distinct(speedBumps) ==> forall j | 0 <= j < |speedBumps| ::
        speedBumps[j].CountedDown(old(speedBumps[j].remainingTime), old(speedBumps[j].active), dt)
      ensures Distinct(bombs) ==> forall j | 0 <= j < |bombs| :: Detonated(bombs[j], enemies, dt, dist)
    {
      UpdateSpeedBumps(dt, dist);
      UpdateBombs(dt, dist);
    }

    /**
     * Counts every speed bump down once (in a list without repeats) and
     * lets the active ones slow the enemies in play.
     */
    method UpdateSpeedBumps(dt: real, dist: Distance)
      requires Valid()
      modifies BumpSet(speedBumps)`remainingTime, BumpSet(speedBumps)`active, BumpSet(speedBumps)`affectedEnemies
      modifies EnemySet(enemies)`slowMultiplier, EnemySet(enemies)`slowDuration
      ensures Valid()
      ensures forall b | b in BumpSet(speedBumps) :: (b.active ==> old(b.active)) && (!old(b.active) ==> unchanged(b))
      ensures forall j | 0 <= j < |speedBumps| && speedBumps[j].active ::
        speedBumps[j].affectedEnemies == old(speedBumps[j].SlowedAmong(enemies, |enemies|, dist))
      ensures Distinct(speedBumps) ==> forall j | 0 <= j < |speedBumps| ::
        speedBumps[j].CountedDown(old(speedBumps[j].remainingTime), old(speedBumps[j].active), dt)
    {
      StepBumps(speedBumps, enemies, dt, dist);
    }

    /**
     * Advances every bomb once, in order: an armed bomb goes off when an
     * enemy is in play within its trigger range, as `Detonated` states it
     * for the whole phase (in a list without repeats); no enemy comes back
     * to life.
     */
    method UpdateBombs(dt: real, dist: Distance)
      requires Valid()
      modifies BombSet(bombs)`armed, BombSet(bombs)`exploded, BombSet(bombs)`explosionTimer
      modifies EnemySet(enemies)`currentHp, EnemySet(enemies)`alive, EnemySet(enemies)`isDestroying
      modifies EnemySet(enemies)`destructionTime, EnemySet(enemies)`hasTriggeredStrike
      ensures Valid()
      ensures forall b | b in BombSet(bombs) :: old(b.exploded) ==> b.exploded
      ensures forall e | e in EnemySet(enemies) :: e.alive ==> old(e.alive)
      ensures Distinct(bombs) ==> forall j | 0 <= j < |bombs| :: Detonated(bombs[j], enemies, dt, dist)
    {
      StepBombs(bombs, enemies, dt, dist);
    }

    // -- projectiles -----------------------------------------------------

    /**
     * `updateProjectiles`: every listed projectile takes exactly one step;
     * the list has no repeats, so none is stepped twice.
     */
    method UpdateProjectiles(dt: real, dist: Distance, mover: Mover)
      requires Valid()
      modifies ProjectileSet(projectiles)
      modifies Targets(projectiles)`currentHp, Targets(projectiles)`alive, Targets(projectiles)`isDestroying
      modifies Targets(projectiles)`destructionTime, Targets(projectiles)`hasTriggeredStrike
      ensures Valid()
      ensures forall j :: 0 <= j < |projectiles| ==> Stepped(old(projectiles[j].State()), projectiles[j].State(), dt)
    {
      StepProjectiles(projectiles, dt, dist, mover);
    }
  }

  /** Steps each of `ps` once, in order. */
  method StepProjectiles(ps: seq<Projectile>, dt: real, dist: Distance, mover: Mover)
    requires Distinct(ps)
    modifies ProjectileSet(ps)
    modifies Targets(ps)`currentHp, Targets(ps)`alive, Targets(ps)`isDestroying
    modifies Targets(ps)`destructionTime, Targets(ps)`hasTriggeredStrike
    ensures forall j :: 0 <= j < |ps| ==> Stepped(old(ps[j].State()), ps[j].State(), dt)
  {
    var i := 0;
    while i < |ps|
      invariant 0 <= i <= |ps|
      invariant forall j :: 0 <= j < i ==> Stepped(old(ps[j].State()), ps[j].State(), dt)
      invariant forall j :: i <= j < |ps| ==> ps[j].State() == old(ps[j].State())
    {
      ps[i].Update(dt, dist, mover);
      i := i + 1;
    }
  }

  /** The targets the defenses of `aas` hold. */
  ghost function AATargets(aas: seq<AADefense>): set<Enemy>
    reads AASet(aas)
  {
    set a | a in AASet(aas) && a.currentTarget != null :: a.currentTarget
  }

  /** `ev` is the castle hit of a walking enemy of `es`. */
  predicate CastleHitBy(es: seq<Enemy>, ev: Event)
  {
    exists j | 0 <= j < |es| :: es[j].kind != Aircraft && ev == EnemyReachedCastle(es[j].power)
  }

  /**
   * Updates each enemy of `es` once, in order, collecting what they
   * publish, and stops early when one reports failure.  The first `stepped`
   * enemies have moved as `Enemy.Moved` says (in a list without repeats)
   * and the rest are as they were; `stepped` is the whole list unless an
   * aircraft, the last one stepped, failed.  Every enemy stays valid and
   * keeps its nearby defenders; towers lose at most all their shells; every
   * event is the castle hit of a walking enemy of `es`, at most one per
   * enemy.
   */
  method StepEnemies(es: seq<Enemy>, towers: seq<Tower>, aas: seq<AADefense>, dt: real, dist: Distance, mover: Mover,
                     ghost defenders: set<Tower>, ghost guards: set<AADefense>)
    returns (published: seq<Event>, ok: bool, ghost stepped: nat)
    requires TowerSet(towers) <= defenders && AASet(aas) <= guards
    requires forall e | e in EnemySet(es) :: e.Valid() && TowerSet(e.nearbyTowers) <= defenders && AASet(e.nearbyAA) <= guards
    modifies EnemySet(es), defenders`hp, defenders`alive, defenders`projectiles, guards`hp, guards`alive
    ensures forall e | e in EnemySet(es) :: e.Valid() && e.nearbyTowers == old(e.nearbyTowers) && e.nearbyAA == old(e.nearbyAA)
    ensures ShellsShed(defenders)
    ensures |published| <= |es|
    ensures forall ev | ev in published :: CastleHitBy(es, ev)
    ensures stepped <= |es| && (ok ==> stepped == |es|)
    ensures !ok ==> 0 < stepped && es[stepped - 1].kind == Aircraft
    ensures Distinct(es) ==> forall j | 0 <= j < |es| ::
      if j < stepped then es[j].Moved(old(es[j].MotionOf()), es[j].MotionOf(), dt, dist, mover)
      else es[j].MotionOf() == old(es[j].MotionOf())
  {
    published, ok, stepped := [], true, 0;
    var i := 0;
    while i < |es|
      invariant 0 <= i <= |es| && |published| <= i && stepped == i
      invariant forall e | e in EnemySet(es) :: e.Valid() && e.nearbyTowers == old(e.nearbyTowers) && e.nearbyAA == old(e.nearbyAA)
      invariant ShellsShed(defenders)
      invariant forall ev | ev in published :: CastleHitBy(es, ev)
      invariant Distinct(es) ==> forall j | 0 <= j < |es| ::
        if j < i then es[j].Moved(old(es[j].MotionOf()), es[j].MotionOf(), dt, dist, mover)
        else es[j].MotionOf() == old(es[j].MotionOf())
    {
      var events, good := StepEnemy(es, i, towers, aas, dt, dist, mover, defenders, guards);
      stepped := i + 1;
      published := published + events;
      if !good {
        return published, false, stepped;
      }
      i := i + 1;
    }
  }

  /** One turn of `StepEnemies`: the `i`th enemy updates and no other enemy changes. */
  method StepEnemy(es: seq<Enemy>, i: nat, towers: seq<Tower>, aas: seq<AADefense>, dt: real, dist: Distance, mover: Mover,
                   ghost defenders: set<Tower>, ghost guards: set<AADefense>)
    returns (events: seq<Event>, good: bool)
    requires i < |es|
    requires TowerSet(towers) <= defenders && AASet(aas) <= guards
    requires forall e | e in EnemySet(es) :: e.Valid() && TowerSet(e.nearbyTowers) <= defenders && AASet(e.nearbyAA) <= guards
    modifies es[i], defenders`hp, defenders`alive, defenders`projectiles, guards`hp, guards`alive
    ensures forall e | e in EnemySet(es) :: e.Valid() && e.nearbyTowers == old(e.nearbyTowers) && e.nearbyAA == old(e.nearbyAA)
    ensures forall e | e in EnemySet(es) && e != es[i] :: unchanged(e)
    ensures ShellsShed(defenders)
    ensures |events| <= 1 && forall ev | ev in events :: CastleHitBy(es, ev)
    ensures !good ==> es[i].kind == Aircraft
    ensures es[i].Moved(old(es[i].MotionOf()), es[i].MotionOf(), dt, dist, mover)
  {
    var e := es[i];
    events, good := e.Update(dt, dist, mover, towers, aas);
    forall t | t in defenders ensures t.projectiles == old(t.projectiles) || t.projectiles == [] {
      if t !in TowerSet(e.nearbyTowers) + TowerSet(towers) {
        assert t.projectiles == old(t.projectiles);
      }
    }
    forall ev | ev in events ensures CastleHitBy(es, ev) {
      assert es[i].kind != Aircraft && ev == EnemyReachedCastle(es[i].power);
    }
  }

  /**
   * Updates each living defense of `aas` once, in order, the roll `hits[i]`
   * deciding the `i`th one's shot; destroyed defenses are skipped, and every
   * target is an aircraft of `enemies` or the one held before.  In a list
   * without repeats each living defense's cooldown is what its one update
   * leaves.
   */
  method StepDefenses(aas: seq<AADefense>, enemies: seq<Enemy>, dt: real, dist: Distance, hits: seq<bool>)
    requires |hits| == |aas|
    requires forall a | a in AASet(aas) :: a.Valid()
    modifies AASet(aas)`fireCooldown, AASet(aas)`currentTarget
    modifies EnemySet(enemies)`currentHp, EnemySet(enemies)`alive, EnemySet(enemies)`isDestroying
    modifies EnemySet(enemies)`destructionTime, EnemySet(enemies)`hasTriggeredStrike
    modifies AATargets(aas)`currentHp, AATargets(aas)`alive, AATargets(aas)`isDestroying
    modifies AATargets(aas)`destructionTime, AATargets(aas)`hasTriggeredStrike
    ensures forall a | a in AASet(aas) ::
      && a.Valid()
      && (a.currentTarget == null || a.currentTarget in EnemySet(enemies) || a.currentTarget == old(a.currentTarget))
    ensures forall a | a in AASet(aas) && !a.alive :: unchanged(a)
    ensures Distinct(aas) ==> forall j | 0 <= j < |aas| && aas[j].alive :: aas[j].Reloaded(old(aas[j].fireCooldown), dt)
  {
    var i := 0;
    while i < |aas|
      invariant 0 <= i <= |aas|
      invariant forall a | a in AASet(aas) ::
        && a.Valid()
        && (a.currentTarget == null || a.currentTarget in EnemySet(enemies) || a.currentTarget == old(a.currentTarget))
      invariant forall a | a in AASet(aas) && !a.alive :: unchanged(a)
      invariant Distinct(aas) ==> forall j | 0 <= j < |aas| && aas[j].alive ::
        if j < i then aas[j].Reloaded(old(aas[j].fireCooldown), dt) else aas[j].fireCooldown == old(aas[j].fireCooldown)
    {
      StepDefense(aas, i, enemies, dt, dist, hits[i]);
      i := i + 1;
    }
  }

  /** One turn of `StepDefenses`: the `i`th defense updates when alive, and no other defense changes. */
  method StepDefense(aas: seq<AADefense>, i: nat, enemies: seq<Enemy>, dt: real, dist: Distance, hit: bool)
    requires i < |aas|
    requires forall a | a in AASet(aas) :: a.Valid()
    modifies {aas[i]}`fireCooldown, {aas[i]}`currentTarget
    modifies EnemySet(enemies)`currentHp, EnemySet(enemies)`alive, EnemySet(enemies)`isDestroying
    modifies EnemySet(enemies)`destructionTime, EnemySet(enemies)`hasTriggeredStrike
    modifies AATargets(aas)`currentHp, AATargets(aas)`alive, AATargets(aas)`isDestroying
    modifies AATargets(aas)`destructionTime, AATargets(aas)`hasTriggeredStrike
    ensures forall a | a in AASet(aas) :: a.Valid()
    ensures forall a | a in AASet(aas) && a != aas[i] :: unchanged(a)
    ensures aas[i].currentTarget == null || aas[i].currentTarget in EnemySet(enemies) || aas[i].currentTarget == old(aas[i].currentTarget)
    ensures !aas[i].alive ==> unchanged(aas[i])
    ensures aas[i].alive ==> aas[i].Reloaded(old(aas[i].fireCooldown), dt)
  {
    if aas[i].alive {
      aas[i].Update(dt, enemies, dist, hit);
    }
  }

  /**
   * Updates each bump of `bs` once, in order: a spent bump stays spent and
   * untouched, each one updated and still active slows exactly the enemies
   * in play within its reach, and in a list without repeats each bump has
   * counted down once.
   */
  method StepBumps(bs: seq<SpeedBump>, enemies: seq<Enemy>, dt: real, dist: Distance)
    modifies BumpSet(bs)`remainingTime, BumpSet(bs)`active, BumpSet(bs)`affectedEnemies
    modifies EnemySet(enemies)`slowMultiplier, EnemySet(enemies)`slowDuration
    ensures forall b | b in BumpSet(bs) :: (b.active ==> old(b.active)) && (!old(b.active) ==> unchanged(b))
    ensures forall j | 0 <= j < |bs| && bs[j].active :: bs[j].affectedEnemies == bs[j].SlowedAmong(enemies, |enemies|, dist)
    ensures Distinct(bs) ==> forall j | 0 <= j < |bs| :: bs[j].CountedDown(old(bs[j].remainingTime), old(bs[j].active), dt)
  {
    var i := 0;
    while i < |bs|
      invariant 0 <= i <= |bs|
      invariant forall b | b in BumpSet(bs) :: (b.active ==> old(b.active)) && (!old(b.active) ==> unchanged(b))
      invariant forall j | 0 <= j < i && bs[j].active :: bs[j].affectedEnemies == bs[j].SlowedAmong(enemies, |enemies|, dist)
      invariant Distinct(bs) ==> forall j | 0 <= j < |bs| ::
        if j < i then bs[j].CountedDown(old(bs[j].remainingTime), old(bs[j].active), dt) else unchanged(bs[j])
    {
      StepBump(bs, i, enemies, dt, dist);
      i := i + 1;
    }
  }

  /** One turn of `StepBumps`: the `i`th bump updates and no other bump changes. */
  method StepBump(bs: seq<SpeedBump>, i: nat, enemies: seq<Enemy>, dt: real, dist: Distance)
    requires i < |bs|
    modifies {bs[i]}`remainingTime, {bs[i]}`active, {bs[i]}`affectedEnemies
    modifies EnemySet(enemies)`slowMultiplier, EnemySet(enemies)`slowDuration
    ensures forall b | b in BumpSet(bs) && b != bs[i] :: unchanged(b)
    ensures (bs[i].active ==> old(bs[i].active)) && (!old(bs[i].active) ==> unchanged(bs[i]))
    ensures bs[i].active ==> bs[i].affectedEnemies == bs[i].SlowedAmong(enemies, |enemies|, dist)
    ensures bs[i].CountedDown(old(bs[i].remainingTime), old(bs[i].active), dt)
  {
    bs[i].Update(dt, enemies, dist);
  }

  /**
   * One bomb's turn of the bomb phase, seen from the whole phase: an
   * exploded bomb only runs its explosion timer; any other explodes only if
   * an enemy was in play within its trigger range when the phase began, and
   * stays armed only if no enemy is in play within that range when it ends.
   */
  twostate predicate Detonated(b: Bomb, enemies: seq<Enemy>, dt: real, dist: Distance)
    reads b, EnemySet(enemies)
  {
    if old(b.exploded) then b.exploded && b.explosionTimer == old(b.explosionTimer) + dt
    else
      && b.explosionTimer == old(b.explosionTimer)
      && (b.exploded ==> exists k | 0 <= k < |enemies| :: old(b.Triggers(enemies[k], dist)))
      && (!b.exploded ==> forall k | 0 <= k < |enemies| :: !b.Triggers(enemies[k], dist))
  }

  /**
   * Updates each bomb of `bs` once, in order: every bomb stays valid, one
   * that has exploded stays exploded, no enemy comes back to life, and in a
   * list without repeats each bomb has `Detonated`.
   */
  method StepBombs(bs: seq<Bomb>, enemies: seq<Enemy>, dt: real, dist: Distance)
    requires forall b | b in BombSet(bs) :: b.Valid()
    modifies BombSet(bs)`armed, BombSet(bs)`exploded, BombSet(bs)`explosionTimer
    modifies EnemySet(enemies)`currentHp, EnemySet(enemies)`alive, EnemySet(enemies)`isDestroying
    modifies EnemySet(enemies)`destructionTime, EnemySet(enemies)`hasTriggeredStrike
    ensures forall b | b in BombSet(bs) :: b.Valid() && (old(b.exploded) ==> b.exploded)
    ensures forall e | e in EnemySet(enemies) :: e.alive ==> old(e.alive)
    ensures Distinct(bs) ==> forall j | 0 <= j < |bs| :: Detonated(bs[j], enemies, dt, dist)
  {
    var i := 0;
    while i < |bs|
      invariant 0 <= i <= |bs|
      invariant forall b | b in BombSet(bs) :: b.Valid() && (old(b.exploded) ==> b.exploded)
      invariant forall e | e in EnemySet(enemies) :: e.alive ==> old(e.alive)
      invariant Distinct(bs) ==> forall j | 0 <= j < |bs| :: if j < i then Detonated(bs[j], enemies, dt, dist) else unchanged(bs[j])
    {
      label turn:
      StepBomb(bs, i, enemies, dt, dist);
      if Distinct(bs) && !old(bs[i].exploded) && bs[i].exploded {
        var k :| 0 <= k < |enemies| && old@turn(bs[i].Triggers(enemies[k], dist));
        assert old(bs[i].Triggers(enemies[k], dist));
      }
      i := i + 1;
    }
  }

  /**
   * One turn of `StepBombs`: the `i`th bomb updates, no other bomb changes,
   * and no enemy comes back to life.
   */
  method StepBomb(bs: seq<Bomb>, i: nat, enemies: seq<Enemy>, dt: real, dist: Distance)
    requires i < |bs|
    requires forall b | b in BombSet(bs) :: b.Valid()
    modifies {bs[i]}`armed, {bs[i]}`exploded, {bs[i]}`explosionTimer
    modifies EnemySet(enemies)`currentHp, EnemySet(enemies)`alive, EnemySet(enemies)`isDestroying
    modifies EnemySet(enemies)`destructionTime, EnemySet(enemies)`hasTriggeredStrike
    ensures forall b | b in BombSet(bs) :: b.Valid()
    ensures forall b | b in BombSet(bs) && b != bs[i] :: unchanged(b)
    ensures forall e | e in EnemySet(enemies) :: e.alive ==> old(e.alive)
    ensures Detonated(bs[i], enemies, dt, dist)
  {
    var b := bs[i];
    b.Update(dt, enemies, dist);
    forall e | e in EnemySet(enemies) ensures e.alive ==> old(e.alive) {
      if !old(b.exploded) && b.exploded && !old(e.alive) {
        WoundedTimesDead(e.kind == Aircraft, old(WoundOf(e)), b.damage, old(b.BlastHits(enemies, e, |enemies|, dist)));
      }
    }
  }

  /** The projectiles the towers of `ts` hold. */
  ghost function Shells(ts: seq<Tower>): set<Projectile>
    reads TowerSet(ts)
  {
    set t, p | t in TowerSet(ts) && p in ProjectileSet(t.projectiles) :: p
  }

  /** The enemies the towers of `ts` aim at, and those their projectiles fly at. */
  ghost function Aims(ts: seq<Tower>): set<Enemy>
    reads TowerSet(ts)
  {
    (set t, p | t in TowerSet(ts) && p in ProjectileSet(t.projectiles) :: p.target)
      + (set t | t in TowerSet(ts) && t.currentTarget != null :: t.currentTarget)
  }

  /** Every enemy `t` or its projectiles aim at is among `aims`. */
  predicate Aimed(t: Tower, aims: set<Enemy>)
    reads t
  {
    && (forall p | p in ProjectileSet(t.projectiles) :: p.target in aims)
    && (t.currentTarget == null || t.currentTarget in aims)
  }

  /** Each projectile `t` holds was among `shells` or is new. */
  twostate predicate Stocked(t: Tower, shells: set<Projectile>)
    reads t
  {
    forall p | p in ProjectileSet(t.projectiles) :: fresh(p) || p in shells
  }

  /** The tower phase's effect on one tower: valid, skipped when destroyed, alive when it was. */
  twostate predicate Tended(t: Tower)
    reads t
  {
    t.Valid() && t.alive == old(t.alive) && (!t.alive ==> unchanged(t))
  }

  /**
   * Updates each living tower of `ts` once, in order, and after each one
   * appends to `shared` those of its projectiles not yet there.  Destroyed
   * towers are skipped.  The result extends `shared`, keeps it free of
   * repeats, holds every projectile of every living tower, and holds no
   * projectile that was not already there, not a tower's, and not new.
   * `shells` and `aims` bound what the towers hold and aim at.  In a list
   * without repeats each living tower ends `Reloaded` from its state before.
   */
  method StepTowers(ts: seq<Tower>, enemies: seq<Enemy>, dt: real, dist: Distance, bearing: Bearing, mover: Mover,
                    shared: seq<Projectile>, ghost shells: set<Projectile>, ghost aims: set<Enemy>)
    returns (r: seq<Projectile>)
    requires EnemySet(enemies) <= aims
    requires forall t | t in TowerSet(ts) :: t.Valid() && ProjectileSet(t.projectiles) <= shells && Aimed(t, aims)
    modifies TowerSet(ts), shells
    modifies aims`currentHp, aims`alive, aims`isDestroying, aims`destructionTime, aims`hasTriggeredStrike
    ensures forall t | t in TowerSet(ts) :: Tended(t) && Aimed(t, aims) && Stocked(t, shells)
    ensures |shared| <= |r| && r[..|shared|] == shared && (Distinct(shared) ==> Distinct(r))
    ensures forall t | t in TowerSet(ts) && t.alive :: ProjectileSet(t.projectiles) <= ProjectileSet(r)
    ensures forall p | p in ProjectileSet(r) :: p in ProjectileSet(shared) || ((fresh(p) || p in shells) && p.target in aims)
    ensures forall e | e in aims :: unchanged(e`nearbyTowers, e`nearbyAA, e`pathProgress, e`reachedEnd, e`path, e`context)
    ensures Distinct(ts) ==> forall j | 0 <= j < |ts| && ts[j].alive ::
      ts[j].Valid() && ts[j].Reloaded(old(ts[j].fireCooldown), old(ts[j].fireFlashDuration), dt)
  {
    r := shared;
    var i := 0;
    while i < |ts|
      invariant 0 <= i <= |ts|
      invariant forall t | t in TowerSet(ts) :: Tended(t) && Stocked(t, shells) && Aimed(t, aims)
      invariant |shared| <= |r| && r[..|shared|] == shared && (Distinct(shared) ==> Distinct(r))
      invariant forall j | 0 <= j < i && ts[j].alive :: ProjectileSet(ts[j].projectiles) <= ProjectileSet(r)
      invariant forall p | p in ProjectileSet(r) :: p in ProjectileSet(shared) || ((fresh(p) || p in shells) && p.target in aims)
      invariant forall j | 0 <= j < |ts| && ts[j].alive && Distinct(ts) ::
        if j < i then ts[j].Reloaded(old(ts[j].fireCooldown), old(ts[j].fireFlashDuration), dt)
        else unchanged(ts[j])
    {
      var t := ts[i];
      if t.alive {
        label before:
        r := Visit(t, r, enemies, dt, dist, bearing, mover, aims);
        forall j | 0 <= j <= i && ts[j].alive
          ensures ProjectileSet(ts[j].projectiles) <= ProjectileSet(r)
        {
          if ts[j] != t {
            assert ts[j].projectiles == old@before(ts[j].projectiles);
          }
        }
      }
      i := i + 1;
    }
  }

  /**
   * One step of the tower phase: the living tower `t` updates, then its
   * projectiles join `r` unless already there.  What `t` holds and aims at
   * stays within reach: its shells are old or new, and they and its target
   * aim within `aims`.
   */
  method Visit(t: Tower, r: seq<Projectile>, enemies: seq<Enemy>, dt: real, dist: Distance, bearing: Bearing, mover: Mover,
               ghost aims: set<Enemy>)
    returns (r': seq<Projectile>)
    requires t.alive && t.Valid() && Aimed(t, aims) && EnemySet(enemies) <= aims
    modifies t, ProjectileSet(t.projectiles)
    modifies aims`currentHp, aims`alive, aims`isDestroying, aims`destructionTime, aims`hasTriggeredStrike
    ensures t.Valid() && Aimed(t, aims) && t.alive
    ensures t.Reloaded(old(t.fireCooldown), old(t.fireFlashDuration), dt)
    ensures Stocked(t, old(ProjectileSet(t.projectiles)))
    ensures |r| <= |r'| && r'[..|r|] == r && (Distinct(r) ==> Distinct(r'))
    ensures ProjectileSet(r') == ProjectileSet(r) + ProjectileSet(t.projectiles)
  {
    Serve(t, enemies, dt, dist, bearing, mover, aims);
    r' := Collect(r, t.projectiles);
  }

  /**
   * The update of the living tower `t` in the tower phase: it ends as its
   * update leaves it (`Reloaded`), and its shells and target stay within
   * reach.
   */
  method Serve(t: Tower, enemies: seq<Enemy>, dt: real, dist: Distance, bearing: Bearing, mover: Mover,
               ghost aims: set<Enemy>)
    requires t.alive && t.Valid() && Aimed(t, aims) && EnemySet(enemies) <= aims
    modifies t, ProjectileSet(t.projectiles)
    modifies aims`currentHp, aims`alive, aims`isDestroying, aims`destructionTime, aims`hasTriggeredStrike
    ensures t.Valid() && Aimed(t, aims) && t.alive
    ensures t.Reloaded(old(t.fireCooldown), old(t.fireFlashDuration), dt)
    ensures Stocked(t, old(ProjectileSet(t.projectiles)))
  {
    ghost var ps := t.projectiles;
    t.Update(dt, enemies, dist, bearing, mover);
    ghost var base := if t.kind == TankTower then Survivors(ps, true) else ps;
    SurvivorsAreKept(ps, true);
    assert ProjectileSet(base) <= ProjectileSet(ps);
    if t.currentTarget != null && old(t.fireCooldown) - dt <= 0.0 {
      ghost var shot := t.projectiles[|base|];
      assert shot.target == t.currentTarget;
      AppendedOne(t.projectiles, base);
    }
  }

  /** Appends each of `ps` not yet in `acc`, in order. */
  method Collect(acc: seq<Projectile>, ps: seq<Projectile>) returns (r: seq<Projectile>)
    ensures r == Gathered(acc, ps)
    ensures |acc| <= |r| && r[..|acc|] == acc && (Distinct(acc) ==> Distinct(r))
    ensures ProjectileSet(r) == ProjectileSet(acc) + ProjectileSet(ps)
  {
    GatheredAppends(acc, ps);
    r := acc;
    var i := 0;
    while i < |ps|
      invariant 0 <= i <= |ps|
      invariant Gathered(r, ps[i..]) == Gathered(acc, ps)
    {
      assert ps[i..][0] == ps[i] && ps[i..][1..] == ps[i + 1..];
      if ps[i] !in r {
        r := r + [ps[i]];
      }
      i := i + 1;
    }
  }

  /** A list that is `base` and one entry more holds only `base`'s entries and that one. */
  lemma AppendedOne<T>(s: seq<T>, base: seq<T>)
    requires |s| == |base| + 1 && s[..|base|] == base
    ensures forall x | x in s :: x in base || x == s[|base|]
  {
    assert s == base + [s[|base|]];
  }
}
