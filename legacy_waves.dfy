/**
 * The older engine's `WaveManager`: six waves, each a list of timed spawns
 * drawn from a random roll per enemy, interleaved across the map's routes and
 * sorted by time, released by a spawn clock and handed to the game loop
 * through a buffer.
 *
 * The random number generator is an oracle: `rolls[i]` is the value
 * `nextInt(100)` returns for the i-th enemy of the wave being generated.
 * Doubles are exact reals.
 */
module LegacyWaves {
  import opened Numerics
  import opened LegacyConfig
  import opened LegacyEntity
  import opened LegacyMap
  import opened LegacyUnits

  datatype Difficulty = Easy | Medium | Hard

  /** The class a spawn names: a soldier or tank on a route, or a plane. */
  datatype SpawnKind = Ground(kind: EnemyKind) | Air

  /** `EnemySpawn`: what to create, on which route (none for a plane), and when. */
  datatype EnemySpawn = EnemySpawn(kind: SpawnKind, route: Route?, time: real)

  /** `getWaveDelay`: five seconds between waves. */
  const WAVE_DELAY: real := 5.0

  // ----- Generating a wave -------------------------------------------------

  /** `getDifficultyMultiplier`, scaling the number of enemies. */
  function CountMultiplier(d: Difficulty): real
  {
    match d
    case Easy => 0.8
    case Medium => 1.0
    case Hard => 1.3
  }

  /** `totalEnemies`: the base count `8 + 2 * wave` scaled and truncated. */
  function TotalEnemies(wave: nat, d: Difficulty): (n: nat)
  {
    TruncateToInt((8 + 2 * wave) as real * CountMultiplier(d))
  }

  /**
   * The truncated product in integer terms: four fifths of the base on easy,
   * the base itself on medium, thirteen tenths of it on hard, each rounded
   * down.
   */
  lemma TotalEnemiesCounts(wave: nat)
    ensures TotalEnemies(wave, Easy) == (4 * (8 + 2 * wave)) / 5
    ensures TotalEnemies(wave, Medium) == 8 + 2 * wave
    ensures TotalEnemies(wave, Hard) == (13 * (8 + 2 * wave)) / 10
  {
    var b := 8 + 2 * wave;
    TruncAtQuotient(4 * b, 5, b as real * 0.8);
    TruncAtQuotient(b, 1, b as real * 1.0);
    TruncAtQuotient(13 * b, 10, b as real * 1.3);
  }

  /** A non-negative real `a / q`, truncated, is the integer quotient. */
  lemma TruncAtQuotient(a: nat, q: int, x: real)
    requires q > 0 && x == a as real / q as real
    ensures TruncateToInt(x) == a / q
  {
    var n := a / q;
    var r := a % q;
    assert a == n * q + r;
    assert x == n as real + r as real / q as real;
    assert 0.0 <= r as real / q as real < 1.0;
    var t := TruncateToInt(x);
    assert t as real <= x < t as real + 1.0;
  }

  /** The wave sizes over the six waves. */
  lemma WaveSizes()
    ensures TotalEnemies(1, Easy) == 8 && TotalEnemies(6, Easy) == 16
    ensures TotalEnemies(1, Medium) == 10 && TotalEnemies(6, Medium) == 20
    ensures TotalEnemies(1, Hard) == 13 && TotalEnemies(6, Hard) == 26
  {
    TotalEnemiesCounts(1);
    TotalEnemiesCounts(6);
  }

  /** The roll thresholds: below 70 a soldier, 70 to 94 a tank, 95 and above a soldier again. */
  function RolledKind(roll: int): (k: EnemyKind)
    ensures k == Tank <==> 70 <= roll < 95
  {
    if roll < 70 then Soldier
    else if roll < 95 then Tank
    else Soldier
  }

  /** The gap after a spawn: a tank takes twice a soldier's 1.5 seconds. */
  function SpawnDelay(k: EnemyKind): (r: real)
    ensures r == (if k == Tank then 2.0 else 1.0) * 1.5
  {
    if k == Tank then 3.0 else 1.5
  }

  /** The spawn time of the n-th ground enemy: the delays of the ones before it added up. */
  function StartTime(rolls: seq<int>, n: nat): real
    requires n <= |rolls|
  {
    if n == 0 then 0.0 else StartTime(rolls, n - 1) + SpawnDelay(RolledKind(rolls[n - 1]))
  }

  /** Ground spawns come at least 1.5 and at most 3 seconds apart, so they are strictly in time order. */
  lemma {:induction false} StartTimesIncrease(rolls: seq<int>, i: nat, j: nat)
    requires i < j <= |rolls|
    ensures 1.5 * (j - i) as real <= StartTime(rolls, j) - StartTime(rolls, i) <= 3.0 * (j - i) as real
    decreases j
  {
    if j > i + 1 {
      StartTimesIncrease(rolls, i, j - 1);
    }
  }

  /**
   * The ground spawns of the first `n` rolls, in the order the loop adds
   * them: the i-th on route `i mod |routes|`, with the rolled kind, at its
   * start time.
   */
  function GroundSpawns(routes: seq<Route>, rolls: seq<int>, n: nat): (s: seq<EnemySpawn>)
    requires |routes| > 0 && n <= |rolls|
    ensures |s| == n
    ensures forall i :: 0 <= i < n ==>
      s[i] == EnemySpawn(Ground(RolledKind(rolls[i])), routes[i % |routes|], StartTime(rolls, i))
  {
    if n == 0 then []
    else GroundSpawns(routes, rolls, n - 1) + [EnemySpawn(Ground(RolledKind(rolls[n - 1])), routes[(n - 1) % |routes|], StartTime(rolls, n - 1))]
  }

  /** Planes come from the second wave on: two on hard, one otherwise. */
  function PlaneCount(wave: nat, d: Difficulty): (n: nat)
    ensures n <= 2
  {
    if wave < 2 then 0 else if d == Hard then 2 else 1
  }

  /** The plane spawns: no route, ten seconds in and eight seconds apart. */
  function PlaneSpawns(wave: nat, d: Difficulty): (s: seq<EnemySpawn>)
    ensures |s| == PlaneCount(wave, d)
    ensures forall i :: 0 <= i < |s| ==> s[i] == EnemySpawn(Air, null, 10.0 + i as real * 8.0)
  {
    seq(PlaneCount(wave, d), i => EnemySpawn(Air, null, 10.0 + i as real * 8.0))
  }

  /** The plane schedule by wave and difficulty. */
  lemma PlaneSchedule(wave: nat, d: Difficulty)
    ensures wave < 2 ==> PlaneSpawns(wave, d) == []
    ensures wave >= 2 && d == Hard ==> PlaneSpawns(wave, d) == [EnemySpawn(Air, null, 10.0), EnemySpawn(Air, null, 18.0)]
    ensures wave >= 2 && d != Hard ==> PlaneSpawns(wave, d) == [EnemySpawn(Air, null, 10.0)]
  {
  }

  /** Every spawn of a wave before sorting: the ground spawns, then the planes. */
  function Unsorted(wave: nat, d: Difficulty, routes: seq<Route>, rolls: seq<int>): seq<EnemySpawn>
    requires |routes| > 0 && TotalEnemies(wave, d) <= |rolls|
  {
    GroundSpawns(routes, rolls, TotalEnemies(wave, d)) + PlaneSpawns(wave, d)
  }

  /** The spawn list of a wave, as `generateWaveSpawns` leaves it. */
  function WaveSpawns(wave: nat, d: Difficulty, routes: seq<Route>, rolls: seq<int>): seq<EnemySpawn>
    requires |routes| > 0 && TotalEnemies(wave, d) <= |rolls|
  {
    SortByTime(Unsorted(wave, d, routes, rolls))
  }

  // ----- Sorting by spawn time ----------------------------------------------

  predicate Sorted(s: seq<EnemySpawn>)
  {
    forall i, j :: 0 <= i < j < |s| ==> s[i].time <= s[j].time
  }

  /**
   * Inserts `x` after every element whose time is not later than its own,
   * the insertion step of a stable sort.
   */
  function InsertByTime(x: EnemySpawn, s: seq<EnemySpawn>): (r: seq<EnemySpawn>)
    ensures |r| == |s| + 1
    ensures multiset(r) == multiset(s) + multiset{x}
    decreases |s|
  {
    if s == [] || s[|s| - 1].time <= x.time then s + [x]
    else
      assert s == s[..|s| - 1] + [s[|s| - 1]];
      InsertByTime(x, s[..|s| - 1]) + [s[|s| - 1]]
  }

  /** `List.sort` with `Double.compare` on the spawn times, a stable sort. */
  function SortByTime(s: seq<EnemySpawn>): (r: seq<EnemySpawn>)
    ensures |r| == |s|
    ensures multiset(r) == multiset(s)
  {
    if s == [] then []
    else
      assert s == s[..|s| - 1] + [s[|s| - 1]];
      InsertByTime(s[|s| - 1], SortByTime(s[..|s| - 1]))
  }

  lemma {:induction false} InsertKeepsSorted(x: EnemySpawn, s: seq<EnemySpawn>)
    requires Sorted(s)
    ensures Sorted(InsertByTime(x, s))
    decreases |s|
  {
    if s != [] && s[|s| - 1].time > x.time {
      var init := s[..|s| - 1];
      var last := s[|s| - 1];
      InsertKeepsSorted(x, init);
      var r := InsertByTime(x, init);
      forall i | 0 <= i < |r|
        ensures r[i].time <= last.time
      {
        assert r[i] in multiset(r);
        assert r[i] == x || r[i] in init;
      }
    }
  }

  /** The sorted list is in time order and holds exactly the spawns given. */
  lemma {:induction false} SortIsSorted(s: seq<EnemySpawn>)
    ensures Sorted(SortByTime(s))
    ensures multiset(SortByTime(s)) == multiset(s)
    decreases |s|
  {
    if s != [] {
      SortIsSorted(s[..|s| - 1]);
      InsertKeepsSorted(s[|s| - 1], SortByTime(s[..|s| - 1]));
    }
  }

  /** The spawns at time `t`, in list order. */
  function AtTime(s: seq<EnemySpawn>, t: real): seq<EnemySpawn>
  {
    if s == [] then []
    else AtTime(s[..|s| - 1], t) + (if s[|s| - 1].time == t then [s[|s| - 1]] else [])
  }

  lemma AtTimeSnoc(s: seq<EnemySpawn>, e: EnemySpawn, t: real)
    ensures AtTime(s + [e], t) == AtTime(s, t) + (if e.time == t then [e] else [])
  {
    assert (s + [e])[..|s|] == s;
  }

  lemma {:induction false} InsertIsStable(x: EnemySpawn, s: seq<EnemySpawn>, t: real)
    ensures AtTime(InsertByTime(x, s), t) == AtTime(s, t) + (if x.time == t then [x] else [])
    decreases |s|
  {
    if s == [] || s[|s| - 1].time <= x.time {
      AtTimeSnoc(s, x, t);
    } else {
      InsertIsStable(x, s[..|s| - 1], t);
      InsertPastLast(x, s[..|s| - 1], s[|s| - 1], t);
      assert s == s[..|s| - 1] + [s[|s| - 1]];
    }
  }

  /** The step of `InsertIsStable`: inserting before a later last spawn. */
  lemma InsertPastLast(x: EnemySpawn, init: seq<EnemySpawn>, last: EnemySpawn, t: real)
    requires last.time > x.time
    requires AtTime(InsertByTime(x, init), t) == AtTime(init, t) + (if x.time == t then [x] else [])
    ensures AtTime(InsertByTime(x, init + [last]), t)
         == AtTime(init + [last], t) + (if x.time == t then [x] else [])
  {
    var r := InsertByTime(x, init);
    assert (init + [last])[..|init|] == init;
    assert InsertByTime(x, init + [last]) == r + [last];
    AtTimeSnoc(r, last, t);
    AtTimeSnoc(init, last, t);
    if last.time == t {
      assert AtTime(r, t) == AtTime(init, t);
    }
  }

  /** Stability: spawns that share a time stay in the order they were added. */
  lemma {:induction false} SortIsStable(s: seq<EnemySpawn>, t: real)
    ensures AtTime(SortByTime(s), t) == AtTime(s, t)
    decreases |s|
  {
    if s != [] {
      SortIsStable(s[..|s| - 1], t);
      InsertIsStable(s[|s| - 1], SortByTime(s[..|s| - 1]), t);
    }
  }

  /**
   * A generated wave is in time order, holds every ground spawn and every
   * plane spawn exactly once, and spawns at the same moment keep the order
   * they were generated in.
   */
  lemma WaveSpawnsAreOrdered(wave: nat, d: Difficulty, routes: seq<Route>, rolls: seq<int>, t: real)
    requires |routes| > 0 && TotalEnemies(wave, d) <= |rolls|
    ensures Sorted(WaveSpawns(wave, d, routes, rolls))
    ensures multiset(WaveSpawns(wave, d, routes, rolls))
         == multiset(GroundSpawns(routes, rolls, TotalEnemies(wave, d))) + multiset(PlaneSpawns(wave, d))
    ensures |WaveSpawns(wave, d, routes, rolls)| == TotalEnemies(wave, d) + PlaneCount(wave, d)
    ensures AtTime(WaveSpawns(wave, d, routes, rolls), t) == AtTime(Unsorted(wave, d, routes, rolls), t)
  {
    SortIsSorted(Unsorted(wave, d, routes, rolls));
    SortIsStable(Unsorted(wave, d, routes, rolls), t);
  }

  // ----- Power ----------------------------------------------------------------

  /** The power `calculateTotalPower` counts per spawn: 1, 2 and 3. */
  function KindPower(k: SpawnKind): (p: int)
    ensures k.Ground? ==> p == EnemyStatsOf(k.kind).power
    ensures p > 0
  {
    match k
    case Ground(Soldier) => SOLDIER_POWER
    case Ground(Tank) => TANK_POWER
    case Air => PLANE_POWER
  }

  function TotalPower(s: seq<EnemySpawn>): (p: int)
    ensures p >= 0
    ensures s != [] ==> p > 0
  {
    if s == [] then 0 else TotalPower(s[..|s| - 1]) + KindPower(s[|s| - 1].kind)
  }

  lemma {:induction false} TotalPowerAppend(a: seq<EnemySpawn>, b: seq<EnemySpawn>)
    ensures TotalPower(a + b) == TotalPower(a) + TotalPower(b)
    decreases |b|
  {
    if b != [] {
      assert (a + b)[..|a + b| - 1] == a + b[..|b| - 1];
      TotalPowerAppend(a, b[..|b| - 1]);
    } else {
      assert a + b == a;
    }
  }

  lemma {:induction false} InsertAddsPower(x: EnemySpawn, s: seq<EnemySpawn>)
    ensures TotalPower(InsertByTime(x, s)) == TotalPower(s) + KindPower(x.kind)
    decreases |s|
  {
    if s != [] && s[|s| - 1].time > x.time {
      InsertAddsPower(x, s[..|s| - 1]);
      var r := InsertByTime(x, s[..|s| - 1]) + [s[|s| - 1]];
      assert r[..|r| - 1] == InsertByTime(x, s[..|s| - 1]);
    } else {
      assert (s + [x])[..|s|] == s;
    }
  }

  lemma {:induction false} SortKeepsPower(s: seq<EnemySpawn>)
    ensures TotalPower(SortByTime(s)) == TotalPower(s)
    decreases |s|
  {
    if s != [] {
      SortKeepsPower(s[..|s| - 1]);
      InsertAddsPower(s[|s| - 1], SortByTime(s[..|s| - 1]));
    }
  }

  /** The power of a wave: its ground enemies' power plus three per plane. */
  lemma WavePower(wave: nat, d: Difficulty, routes: seq<Route>, rolls: seq<int>)
    requires |routes| > 0 && TotalEnemies(wave, d) <= |rolls|
    ensures TotalPower(WaveSpawns(wave, d, routes, rolls))
         == TotalPower(GroundSpawns(routes, rolls, TotalEnemies(wave, d))) + PLANE_POWER * PlaneCount(wave, d)
  {
    SortKeepsPower(Unsorted(wave, d, routes, rolls));
    TotalPowerAppend(GroundSpawns(routes, rolls, TotalEnemies(wave, d)), PlaneSpawns(wave, d));
    PlanesPower(PlaneSpawns(wave, d));
  }

  lemma {:induction false} PlanesPower(s: seq<EnemySpawn>)
    requires forall i :: 0 <= i < |s| ==> s[i].kind == Air
    ensures TotalPower(s) == PLANE_POWER * |s|
    decreases |s|
  {
    if s != [] {
      PlanesPower(s[..|s| - 1]);
    }
  }

  /** The spawns `createEnemy` turns into an enemy: a soldier or tank that has a route. */
  predicate MakesEnemy(s: EnemySpawn)
  {
    s.kind.Ground? && s.route != null
  }

  /** The spawns at positions `lo` to `hi - 1` that make an enemy, in order. */
  function EmittedBetween(s: seq<EnemySpawn>, lo: nat, hi: nat): (r: seq<EnemySpawn>)
    requires lo <= hi <= |s|
    ensures |r| <= hi - lo
    decreases hi
  {
    if hi == lo then []
    else EmittedBetween(s, lo, hi - 1) + (if MakesEnemy(s[hi - 1]) then [s[hi - 1]] else [])
  }

  /** The emitted spawns are exactly the ones in the range that make an enemy. */
  lemma {:induction false} EmittedAreMakers(s: seq<EnemySpawn>, lo: nat, hi: nat)
    requires lo <= hi <= |s|
    ensures forall i :: 0 <= i < |EmittedBetween(s, lo, hi)| ==>
      MakesEnemy(EmittedBetween(s, lo, hi)[i]) && EmittedBetween(s, lo, hi)[i] in s[lo..hi]
    ensures forall j :: lo <= j < hi && MakesEnemy(s[j]) ==> s[j] in EmittedBetween(s, lo, hi)
    decreases hi
  {
    if hi > lo {
      EmittedAreMakers(s, lo, hi - 1);
      assert s[lo..hi] == s[lo..hi - 1] + [s[hi - 1]];
    }
  }

  /** The power of the enemies the spawns at `lo` to `hi - 1` make. */
  function EmittedPower(s: seq<EnemySpawn>, lo: nat, hi: nat): (p: int)
    requires lo <= hi <= |s|
    ensures p >= 0
    decreases hi
  {
    if hi == lo then 0
    else EmittedPower(s, lo, hi - 1) + (if MakesEnemy(s[hi - 1]) then KindPower(s[hi - 1].kind) else 0)
  }

  /** The emitted power of a range is that of its two halves. */
  lemma {:induction false} EmittedPowerSplit(s: seq<EnemySpawn>, lo: nat, mid: nat, hi: nat)
    requires lo <= mid <= hi <= |s|
    ensures EmittedPower(s, lo, hi) == EmittedPower(s, lo, mid) + EmittedPower(s, mid, hi)
    decreases hi
  {
    if hi > mid {
      EmittedPowerSplit(s, lo, mid, hi - 1);
    }
  }

  /** The emitted power is the power of the emitted spawns. */
  lemma {:induction false} EmittedPowerIsTheirs(s: seq<EnemySpawn>, lo: nat, hi: nat)
    requires lo <= hi <= |s|
    ensures EmittedPower(s, lo, hi) == TotalPower(EmittedBetween(s, lo, hi))
    decreases hi
  {
    if hi > lo {
      EmittedPowerIsTheirs(s, lo, hi - 1);
      var e := EmittedBetween(s, lo, hi - 1);
      if MakesEnemy(s[hi - 1]) {
        assert (e + [s[hi - 1]])[..|e|] == e;
      } else {
        assert e + [] == e;
      }
    }
  }

  /** The power released so far never exceeds the wave's total. */
  lemma {:induction false} EmittedPowerBounded(s: seq<EnemySpawn>, hi: nat)
    requires hi <= |s|
    ensures EmittedPower(s, 0, hi) <= TotalPower(s[..hi]) <= TotalPower(s)
    decreases hi
  {
    if hi > 0 {
      EmittedPowerBounded(s, hi - 1);
      assert s[..hi][..hi - 1] == s[..hi - 1];
    }
    PrefixPowerBounded(s, hi);
  }

  lemma {:induction false} PrefixPowerBounded(s: seq<EnemySpawn>, i: nat)
    requires i <= |s|
    ensures TotalPower(s[..i]) <= TotalPower(s)
    decreases |s| - i
  {
    if i < |s| {
      assert s[..i + 1][..i] == s[..i];
      PrefixPowerBounded(s, i + 1);
    } else {
      assert s[..i] == s;
    }
  }

  // ----- Difficulty modifiers -----------------------------------------------

  /** The difficulty part of the hit-point multiplier: +20% on easy, +25% on hard. */
  function DifficultyHp(d: Difficulty): real
  {
    match d
    case Easy => 1.0 + EASY_HP_BONUS
    case Medium => 1.0
    case Hard => HARD_HP_MULTIPLIER
  }

  /**
   * The hit-point multiplier: the difficulty part times 10% more per wave
   * after the first, written with the difficulty factor as a literal so the
   * product stays linear in the wave.
   */
  function HpMultiplier(d: Difficulty, wave: int): (m: real)
    ensures wave >= 1 ==> m >= 1.0
    ensures wave >= 1 && (d != Medium || wave >= 2) ==> m > 1.0
  {
    match d
    case Easy => 1.2 * (1.0 + (wave - 1) as real * 0.1)
    case Medium => 1.0 + (wave - 1) as real * 0.1
    case Hard => 1.25 * (1.0 + (wave - 1) as real * 0.1)
  }

  /** The multiplier is the difficulty factor of the configuration times the wave factor. */
  lemma HpMultiplierIsProduct(d: Difficulty, wave: int)
    ensures HpMultiplier(d, wave) == DifficultyHp(d) * (1.0 + (wave - 1) as real * 0.1)
  {
  }

  /** `baseMaxHp * totalMultiplier`. */
  function Scaled(base: real, m: real): real
  {
    base * m
  }

  /**
   * The modifier as written: the entity is healed by the increase while its
   * maximum is still the base, and only then is the maximum raised.
   */
  function AsWrittenModified(v: Vitals, m: real): Vitals
  {
    var newMax := Scaled(v.maxHp, m);
    if newMax - v.maxHp > 0.0 then Healed(v, newMax - v.maxHp).(maxHp := newMax) else v
  }

  /** The modifier with the maximum raised first, so the heal can reach it. */
  function IntendedModified(v: Vitals, m: real): Vitals
  {
    var newMax := Scaled(v.maxHp, m);
    if newMax - v.maxHp > 0.0 then Healed(v.(maxHp := newMax), newMax - v.maxHp) else v
  }

  /**
   * As written, a freshly spawned enemy gets the higher maximum but keeps its
   * base hit points: the heal was capped by the old maximum.
   */
  lemma AsWrittenKeepsBaseHp(hp: real, m: real)
    requires hp > 0.0 && m > 1.0
    ensures AsWrittenModified(Spawned(hp), m) == Vitals(hp * m, hp, true)
    ensures AsWrittenModified(Spawned(hp), m).currentHp < AsWrittenModified(Spawned(hp), m).maxHp
  {
    assert hp * m > hp * 1.0;
  }

  /** A wave-two soldier on medium, as written: 44 maximum hit points, 40 left. */
  lemma AsWrittenWaveTwoSoldier()
    ensures HpMultiplier(Medium, 2) == 1.1
    ensures AsWrittenModified(Spawned(EnemyStatsOf(Soldier).hp), HpMultiplier(Medium, 2)) == Vitals(44.0, 40.0, true)
  {
    AsWrittenKeepsBaseHp(40.0, 1.1);
  }

  /**
   * Raising the maximum first, a freshly spawned enemy starts at full health
   * at the scaled maximum, and an enemy that needs no scaling is untouched.
   */
  lemma IntendedStartsAtScaledHp(hp: real, m: real)
    requires hp > 0.0 && m >= 1.0
    ensures IntendedModified(Spawned(hp), m) == Spawned(hp * m)
  {
    if m > 1.0 {
      assert hp * m > hp * 1.0;
    } else {
      assert m == 1.0;
    }
  }

  // ----- The manager -------------------------------------------------------

  /** The scalar state of the manager. */
  datatype Progress = Progress(
    wave: int, waveTimer: real, inProgress: bool,
    totalPower: int, spawnedPower: int, index: int, spawnTimer: real)

  /** The vitals an enemy of `kind` starts with once the difficulty modifiers are applied in the intended order. */
  function StartVitals(kind: EnemyKind, d: Difficulty, wave: int): (v: Vitals)
    ensures wave >= 1 ==> v == Spawned(StartHp(kind, d, wave))
  {
    var base := match kind case Soldier => 40.0 case Tank => 260.0;
    if StartHp(kind, d, wave) > base then Spawned(StartHp(kind, d, wave)) else Spawned(base)
  }

  /** The scaled hit points: the base of the kind times the multiplier. */
  function StartHp(kind: EnemyKind, d: Difficulty, wave: int): (hp: real)
    ensures wave >= 1 ==> hp >= EnemyStatsOf(kind).hp
  {
    match kind
    case Soldier => 40.0 * HpMultiplier(d, wave)
    case Tank => 260.0 * HpMultiplier(d, wave)
  }

  /**
   * The modifiers in the intended order, applied to a fresh enemy, give its
   * starting vitals.  In the order as written the enemy gets the same
   * maximum but keeps the base hit points of its kind.
   */
  lemma ModifiedIsStart(kind: EnemyKind, d: Difficulty, wave: int)
    ensures IntendedModified(Spawned(EnemyStatsOf(kind).hp), HpMultiplier(d, wave)) == StartVitals(kind, d, wave)
    ensures AsWrittenModified(Spawned(EnemyStatsOf(kind).hp), HpMultiplier(d, wave))
         == StartVitals(kind, d, wave).(currentHp := EnemyStatsOf(kind).hp)
  {
    var m := HpMultiplier(d, wave);
    assert StartHp(kind, d, wave) == EnemyStatsOf(kind).hp * m;
  }

  /**
   * What `createEnemy` makes of a spawn: a fresh enemy of its kind on its
   * route, at full scaled health.  That is the intended heal order; as
   * written the enemy keeps its base hit points under the raised maximum
   * (`ModifiedIsStart`).
   */
  predicate Made(e: Enemy, s: EnemySpawn, d: Difficulty, wave: int)
    reads e, s.route
  {
    && MakesEnemy(s)
    && e.kind == s.kind.kind && e.route == s.route.waypoints && e.powerValue == KindPower(s.kind)
    && e.Vit() == StartVitals(e.kind, d, wave)
    && e.Walking() == Walk(0, 0.0, false) && e.Slowing() == Slow(1.0, 0.0)
    && e.position == StartPosition(e.route) && e.fireTimer == 0.0
  }

  /** The pose `createEnemy` gives a new enemy of `kind` on `route`, with the intended heal order. */
  function EntryPose(kind: EnemyKind, route: seq<Math2D.Point>, d: Difficulty, wave: int): EnemyPose
  {
    EnemyPose(StartPosition(route), Walk(0, 0.0, false), Slow(1.0, 0.0), StartVitals(kind, d, wave), 0.0)
  }

  /** A made enemy stands in the entry pose of its kind and route. */
  lemma MadeIsEntry(e: Enemy, s: EnemySpawn, d: Difficulty, wave: int)
    requires Made(e, s, d, wave)
    ensures e.Pose() == EntryPose(s.kind.kind, s.route.waypoints, d, wave)
  {
  }

  /** The routes of the spawns `ss`, in order. */
  function RoutesOf(ss: seq<EnemySpawn>): (r: seq<Route?>)
    ensures |r| == |ss| && forall k :: 0 <= k < |ss| ==> r[k] == ss[k].route
  {
    if ss == [] then [] else RoutesOf(ss[..|ss| - 1]) + [ss[|ss| - 1].route]
  }

  /** The enemies `es` were made from the spawns `ss`, one by one. */
  predicate MadeAll(es: seq<Enemy>, ss: seq<EnemySpawn>, d: Difficulty, wave: int)
    reads es, RoutesOf(ss)
  {
    |es| == |ss| && forall k :: 0 <= k < |es| ==> Made(es[k], ss[k], d, wave)
  }

  class WaveManager {
    const mapDefinition: MapDefinition
    const difficulty: Difficulty
    var currentWave: int
    var waveTimer: real
    var waveInProgress: bool
    var totalEnemyPower: int
    var spawnedEnemyPower: int
    var currentWaveSpawns: seq<EnemySpawn>
    var currentSpawnIndex: int
    var spawnTimer: real
    /** The buffer `onEnemySpawned` fills and `getSpawnedEnemies` drains. */
    var spawnedEnemies: seq<Enemy>
    /** The routes the latest `getRoutes` call returned. */
    ghost var routes: seq<Route>

    function State(): Progress
      reads this`currentWave, this`waveTimer, this`waveInProgress, this`totalEnemyPower
      reads this`spawnedEnemyPower, this`currentSpawnIndex, this`spawnTimer
    {
      Progress(currentWave, waveTimer, waveInProgress, totalEnemyPower, spawnedEnemyPower, currentSpawnIndex, spawnTimer)
    }

    /**
     * At most six waves have started; the spawn index lies within the list,
     * which is in time order; the total power is the list's, and the spawned
     * power is that of the enemies made from the spawns released so far.
     */
    predicate Valid()
      reads this`currentWave, this`currentSpawnIndex, this`currentWaveSpawns
      reads this`totalEnemyPower, this`spawnedEnemyPower
    {
      && 0 <= currentWave <= TOTAL_WAVES
      && 0 <= currentSpawnIndex <= |currentWaveSpawns|
      && Sorted(currentWaveSpawns)
      && totalEnemyPower == TotalPower(currentWaveSpawns)
      && spawnedEnemyPower == EmittedPower(currentWaveSpawns, 0, currentSpawnIndex)
    }

    /** The manager starts idle, with the first wave three seconds away. */
    constructor (mapDefinition: MapDefinition, difficulty: Difficulty)
      ensures this.mapDefinition == mapDefinition && this.difficulty == difficulty && Valid()
      ensures State() == Progress(0, WAVE_DELAY - 3.0, false, 0, 0, 0, 0.0)
      ensures currentWaveSpawns == [] && spawnedEnemies == []
      ensures TimeToNextWave() == 3.0
    {
      this.mapDefinition := mapDefinition;
      this.difficulty := difficulty;
      currentWave := 0;
      waveTimer := 0.0;
      waveInProgress := false;
      totalEnemyPower := 0;
      spawnedEnemyPower := 0;
      currentWaveSpawns := [];
      currentSpawnIndex := 0;
      spawnTimer := 0.0;
      spawnedEnemies := [];
      routes := [];
      new;
      waveTimer := WAVE_DELAY - 3.0;
    }

    /**
     * `update`: between waves the wave clock runs and the next wave starts
     * once it reaches the delay (spawning begins on the following call);
     * during a wave the spawn clock runs and every spawn now due is released.
     */
    method Update(dt: real, rolls: seq<int>)
      requires Valid()
      requires currentWave < TOTAL_WAVES ==> TotalEnemies(currentWave + 1, difficulty) <= |rolls|
      modifies this`currentWave, this`waveTimer, this`waveInProgress, this`totalEnemyPower
      modifies this`spawnedEnemyPower, this`currentWaveSpawns, this`currentSpawnIndex
      modifies this`spawnTimer, this`spawnedEnemies, this`routes
      ensures Valid()
      ensures |old(spawnedEnemies)| <= |spawnedEnemies| && spawnedEnemies[..|old(spawnedEnemies)|] == old(spawnedEnemies)
      ensures !old(waveInProgress) && (old(waveTimer) + dt < WAVE_DELAY || old(currentWave) >= TOTAL_WAVES) ==>
        && State() == old(State()).(waveTimer := old(waveTimer) + dt)
        && currentWaveSpawns == old(currentWaveSpawns) && spawnedEnemies == old(spawnedEnemies)
      ensures !old(waveInProgress) && old(waveTimer) + dt >= WAVE_DELAY && old(currentWave) < TOTAL_WAVES ==>
        && State() == Progress(old(currentWave) + 1, 0.0, true, totalEnemyPower, 0, 0, 0.0)
        && |routes| > 0
        && currentWaveSpawns == WaveSpawns(currentWave, difficulty, routes, rolls)
        && spawnedEnemies == old(spawnedEnemies)
      ensures old(waveInProgress) ==>
        && currentWave == old(currentWave) && currentWaveSpawns == old(currentWaveSpawns)
        && spawnTimer == old(spawnTimer) + dt
        && Released(old(currentSpawnIndex), old(waveTimer), old(waveInProgress))
        && MadeAll(spawnedEnemies[|old(spawnedEnemies)|..], EmittedBetween(currentWaveSpawns, old(currentSpawnIndex), currentSpawnIndex), difficulty, currentWave)
      ensures forall k :: old(|spawnedEnemies|) <= k < |spawnedEnemies| ==> fresh(spawnedEnemies[k])
      ensures Distinct(spawnedEnemies[|old(spawnedEnemies)|..]) && Entering(spawnedEnemies[|old(spawnedEnemies)|..])
    {
      if !waveInProgress {
        waveTimer := waveTimer + dt;
        if waveTimer >= WAVE_DELAY {
          StartNextWave(rolls);
        }
      } else {
        spawnTimer := spawnTimer + dt;
        SpawnEnemiesIfReady();
      }
    }

    /**
     * What a run of the spawn loop leaves, from index `from` and the given
     * wave clock and flag: the spawns released are exactly the due ones
     * from `from` on (which enemies the buffer gained `MadeAll` states
     * beside it); the wave is over exactly when the index reached the end
     * of the list.
     */
    ghost predicate Released(from: int, timer: real, inProgress: bool)
      reads this`currentSpawnIndex, this`currentWaveSpawns, this`spawnTimer, this`waveInProgress, this`waveTimer
    {
      && 0 <= from <= currentSpawnIndex <= |currentWaveSpawns|
      && (forall j :: from <= j < currentSpawnIndex ==> currentWaveSpawns[j].time <= spawnTimer)
      && (forall j :: currentSpawnIndex <= j < |currentWaveSpawns| ==> currentWaveSpawns[j].time > spawnTimer)
      && (currentSpawnIndex == |currentWaveSpawns| ==> !waveInProgress && waveTimer == 0.0)
      && (currentSpawnIndex < |currentWaveSpawns| ==> waveInProgress == inProgress && waveTimer == timer)
    }

    /**
     * `startNextWave`: nothing once six waves have started; otherwise the
     * next wave begins with both clocks and the index at zero, its spawns
     * generated and its power counted.
     */
    method StartNextWave(rolls: seq<int>)
      requires Valid()
      requires currentWave < TOTAL_WAVES ==> TotalEnemies(currentWave + 1, difficulty) <= |rolls|
      modifies this`currentWave, this`waveTimer, this`waveInProgress, this`totalEnemyPower
      modifies this`spawnedEnemyPower, this`currentWaveSpawns, this`currentSpawnIndex
      modifies this`spawnTimer, this`routes
      ensures Valid()
      ensures old(currentWave) >= TOTAL_WAVES ==>
        State() == old(State()) && currentWaveSpawns == old(currentWaveSpawns)
      ensures old(currentWave) < TOTAL_WAVES ==>
        && State() == Progress(old(currentWave) + 1, 0.0, true, totalEnemyPower, 0, 0, 0.0)
        && |routes| > 0
        && currentWaveSpawns == WaveSpawns(currentWave, difficulty, routes, rolls)
    {
      if currentWave >= TOTAL_WAVES {
        return;
      }
      currentWave := currentWave + 1;
      waveInProgress := true;
      waveTimer := 0.0;
      spawnTimer := 0.0;
      currentSpawnIndex := 0;
      GenerateWaveSpawns(rolls);
      CalculateTotalPower();
    }

    /**
     * `generateWaveSpawns`: fetches the routes, adds the ground spawns one
     * roll at a time and the planes after them, and sorts the list by time.
     */
    method GenerateWaveSpawns(rolls: seq<int>)
      requires 0 <= currentWave && TotalEnemies(currentWave, difficulty) <= |rolls|
      modifies this`currentWaveSpawns, this`routes
      ensures |routes| == 2 && fresh(routes[0]) && fresh(routes[1])
      ensures routes[0].waypoints == mapDefinition.routeAPath && routes[1].waypoints == mapDefinition.routeBPath
      ensures currentWaveSpawns == WaveSpawns(currentWave, difficulty, routes, rolls)
      ensures Sorted(currentWaveSpawns)
    {
      var fetched := mapDefinition.GetRoutes();
      routes := fetched;
      currentWaveSpawns := BuildSpawns(fetched, rolls, currentWave, difficulty);
    }

    /** The list `generateWaveSpawns` builds from the routes and the rolls: ground spawns, then planes, sorted. */
    static method BuildSpawns(routes: seq<Route>, rolls: seq<int>, wave: int, d: Difficulty) returns (spawns: seq<EnemySpawn>)
      requires |routes| > 0 && 0 <= wave && TotalEnemies(wave, d) <= |rolls|
      ensures spawns == WaveSpawns(wave, d, routes, rolls)
      ensures Sorted(spawns)
    {
      var ground := GroundWave(routes, rolls, TotalEnemies(wave, d));
      var unsorted := AddPlanes(ground, wave, d);
      spawns := SortByTime(unsorted);
      SortIsSorted(unsorted);
    }

    /**
     * The first loop of `generateWaveSpawns`: `total` ground spawns, the
     * routes taken in turn, each roll choosing the kind and the clock
     * advancing by that kind's delay.
     */
    static method GroundWave(routes: seq<Route>, rolls: seq<int>, total: nat) returns (spawns: seq<EnemySpawn>)
      requires |routes| > 0 && total <= |rolls|
      ensures spawns == GroundSpawns(routes, rolls, total)
    {
      spawns := [];
      var currentTime := 0.0;
      for i := 0 to total
        invariant spawns == GroundSpawns(routes, rolls, i) && currentTime == StartTime(rolls, i)
      {
        var route := routes[i % |routes|];
        var kind := RolledKind(rolls[i]);
        spawns := spawns + [EnemySpawn(Ground(kind), route, currentTime)];
        currentTime := currentTime + SpawnDelay(kind);
      }
    }

    /** The second loop of `generateWaveSpawns`: the planes of the wave appended. */
    static method AddPlanes(ground: seq<EnemySpawn>, wave: int, d: Difficulty) returns (spawns: seq<EnemySpawn>)
      requires wave >= 0
      ensures spawns == ground + PlaneSpawns(wave, d)
    {
      spawns := ground;
      if wave >= 2 {
        var planeCount := if d == Hard then 2 else 1;
        for i := 0 to planeCount
          invariant spawns == ground + PlaneSpawns(wave, d)[..i]
        {
          spawns := spawns + [EnemySpawn(Air, null, 10.0 + i as real * 8.0)];
        }
      }
      assert PlaneSpawns(wave, d)[..PlaneCount(wave, d)] == PlaneSpawns(wave, d);
    }

    /** `calculateTotalPower`: the power of the whole list, and none spawned yet. */
    method CalculateTotalPower()
      modifies this`totalEnemyPower, this`spawnedEnemyPower
      ensures totalEnemyPower == TotalPower(currentWaveSpawns) && spawnedEnemyPower == 0
      ensures State() == old(State()).(totalPower := totalEnemyPower, spawnedPower := 0)
    {
      totalEnemyPower := 0;
      spawnedEnemyPower := 0;
      for i := 0 to |currentWaveSpawns|
        invariant totalEnemyPower == TotalPower(currentWaveSpawns[..i]) && spawnedEnemyPower == 0
      {
        assert currentWaveSpawns[..i + 1][..i] == currentWaveSpawns[..i];
        match currentWaveSpawns[i].kind {
          case Ground(Soldier) =>
            totalEnemyPower := totalEnemyPower + SOLDIER_POWER;
          case Ground(Tank) =>
            totalEnemyPower := totalEnemyPower + TANK_POWER;
          case Air =>
            totalEnemyPower := totalEnemyPower + PLANE_POWER;
        }
      }
      assert currentWaveSpawns[..|currentWaveSpawns|] == currentWaveSpawns;
    }

    /**
     * `spawnEnemiesIfReady`: releases spawns in list order while the next is
     * due, buffering and counting the enemy each one makes; the wave ends
     * when the list is used up.
     */
    method SpawnEnemiesIfReady()
      requires Valid()
      modifies this`currentSpawnIndex, this`spawnedEnemyPower, this`spawnedEnemies
      modifies this`waveInProgress, this`waveTimer
      ensures Valid()
      ensures Released(old(currentSpawnIndex), old(waveTimer), old(waveInProgress))
      ensures |old(spawnedEnemies)| <= |spawnedEnemies| && spawnedEnemies[..|old(spawnedEnemies)|] == old(spawnedEnemies)
      ensures forall k :: old(|spawnedEnemies|) <= k < |spawnedEnemies| ==> fresh(spawnedEnemies[k])
      ensures Distinct(spawnedEnemies[|old(spawnedEnemies)|..])
      ensures Entering(spawnedEnemies[|old(spawnedEnemies)|..])
      ensures MadeAll(spawnedEnemies[|old(spawnedEnemies)|..], EmittedBetween(currentWaveSpawns, old(currentSpawnIndex), currentSpawnIndex), difficulty, currentWave)
      ensures spawnedEnemyPower == old(spawnedEnemyPower) + EmittedPower(currentWaveSpawns, old(currentSpawnIndex), currentSpawnIndex)
    {
      ReleaseAll();
      EndWaveIfDone(spawnedEnemies[|old(spawnedEnemies)|..], EmittedBetween(currentWaveSpawns, old(currentSpawnIndex), currentSpawnIndex));
    }

    /** The loop of `spawnEnemiesIfReady` and its effect on the index, the buffer and the count. */
    method ReleaseAll()
      requires Valid()
      modifies this`currentSpawnIndex, this`spawnedEnemyPower, this`spawnedEnemies
      ensures Valid()
      ensures old(currentSpawnIndex) <= currentSpawnIndex
      ensures forall j :: old(currentSpawnIndex) <= j < currentSpawnIndex ==> currentWaveSpawns[j].time <= spawnTimer
      ensures forall j :: currentSpawnIndex <= j < |currentWaveSpawns| ==> currentWaveSpawns[j].time > spawnTimer
      ensures |old(spawnedEnemies)| <= |spawnedEnemies| && spawnedEnemies[..|old(spawnedEnemies)|] == old(spawnedEnemies)
      ensures forall k :: old(|spawnedEnemies|) <= k < |spawnedEnemies| ==> fresh(spawnedEnemies[k])
      ensures Distinct(spawnedEnemies[|old(spawnedEnemies)|..])
      ensures Entering(spawnedEnemies[|old(spawnedEnemies)|..])
      ensures MadeAll(spawnedEnemies[|old(spawnedEnemies)|..], EmittedBetween(currentWaveSpawns, old(currentSpawnIndex), currentSpawnIndex), difficulty, currentWave)
      ensures spawnedEnemyPower == old(spawnedEnemyPower) + EmittedPower(currentWaveSpawns, old(currentSpawnIndex), currentSpawnIndex)
    {
      var next, buffer, power := Buffer(currentWaveSpawns, currentSpawnIndex, spawnTimer, difficulty, currentWave, spawnedEnemies);
      EmittedPowerSplit(currentWaveSpawns, 0, old(currentSpawnIndex), next);
      currentSpawnIndex := next;
      spawnedEnemies := buffer;
      spawnedEnemyPower := spawnedEnemyPower + power;
    }

    /** `ReleaseDue` from `from`, with the enemies made appended to `before`. */
    static method Buffer(s: seq<EnemySpawn>, from: int, timer: real, d: Difficulty, wave: int, before: seq<Enemy>)
      returns (next: int, after: seq<Enemy>, power: int)
      requires 0 <= from <= |s| && Sorted(s)
      ensures from <= next <= |s|
      ensures forall j :: from <= j < next ==> s[j].time <= timer
      ensures forall j :: next <= j < |s| ==> s[j].time > timer
      ensures |before| <= |after| && after[..|before|] == before
      ensures forall k :: |before| <= k < |after| ==> fresh(after[k])
      ensures Distinct(after[|before|..]) && Entering(after[|before|..])
      ensures MadeAll(after[|before|..], EmittedBetween(s, from, next), d, wave)
      ensures power == EmittedPower(s, from, next)
    {
      var made;
      next, made, power := ReleaseDue(s, from, timer, d, wave);
      SortedBeyond(s, next, timer);
      MadeAllSuffix(before, made, EmittedBetween(s, from, next), d, wave);
      after := before + made;
      assert after[..|before|] == before;
    }

    /**
     * The end of `spawnEnemiesIfReady`: the wave is over once the whole list
     * is released.  The enemies `made` from the spawns `emitted` stay as
     * they were made.
     */
    method EndWaveIfDone(ghost made: seq<Enemy>, ghost emitted: seq<EnemySpawn>)
      modifies this`waveInProgress, this`waveTimer
      requires MadeAll(made, emitted, difficulty, currentWave)
      ensures MadeAll(made, emitted, difficulty, currentWave)
      ensures currentSpawnIndex >= |currentWaveSpawns| ==> !waveInProgress && waveTimer == 0.0
      ensures currentSpawnIndex < |currentWaveSpawns| ==>
        waveInProgress == old(waveInProgress) && waveTimer == old(waveTimer)
    {
      if currentSpawnIndex >= |currentWaveSpawns| {
        waveInProgress := false;
        waveTimer := 0.0;
      }
    }

    /** `getTimeToNextWave`: zero during a wave, else what is left of the delay, never negative. */
    function TimeToNextWave(): (r: real)
      reads this`waveInProgress, this`waveTimer
      ensures r >= 0.0
      ensures waveInProgress ==> r == 0.0
      ensures !waveInProgress ==> (r == 0.0 <==> waveTimer >= WAVE_DELAY)
      ensures !waveInProgress && r > 0.0 ==> waveTimer + r == WAVE_DELAY
    {
      if waveInProgress then 0.0 else Max(0.0, WAVE_DELAY - waveTimer)
    }

    /** `getRemainingSpawns`: the spawns not yet released during a wave, none between waves. */
    function RemainingSpawns(): (r: int)
      reads this`waveInProgress, this`currentWaveSpawns, this`currentSpawnIndex, this`currentWave
      reads this`totalEnemyPower, this`spawnedEnemyPower
      ensures Valid() ==> 0 <= r <= |currentWaveSpawns|
      ensures !waveInProgress ==> r == 0
      ensures waveInProgress && Valid() ==> (r == 0 <==> currentSpawnIndex == |currentWaveSpawns|)
    {
      if waveInProgress then |currentWaveSpawns| - currentSpawnIndex else 0
    }

    /** `allWavesComplete`, which `isComplete` returns: six waves started and none in progress. */
    predicate AllWavesComplete()
      reads this`currentWave, this`waveInProgress
    {
      currentWave >= TOTAL_WAVES && !waveInProgress
    }

    /** `getSpawnedEnemies`: hands over the buffered enemies and empties the buffer. */
    method GetSpawnedEnemies() returns (result: seq<Enemy>)
      modifies this`spawnedEnemies
      ensures result == old(spawnedEnemies) && spawnedEnemies == []
    {
      result := spawnedEnemies;
      spawnedEnemies := [];
    }
  }

  /** Once the spawn at `i` is not due, no later one is, the list being in time order. */
  lemma SortedBeyond(s: seq<EnemySpawn>, i: int, timer: real)
    requires Sorted(s) && 0 <= i <= |s|
    requires i < |s| ==> s[i].time > timer
    ensures forall j :: i <= j < |s| ==> s[j].time > timer
  {
  }

  /**
   * The loop of `spawnEnemiesIfReady` on the spawn list `s` from index
   * `from`: releases spawns in list order while the next is due at the
   * spawn clock `timer`; returns the index it stops at, the enemies the
   * released spawns make, in order, and the power they add to the count.
   */
  method ReleaseDue(s: seq<EnemySpawn>, from: int, timer: real, d: Difficulty, wave: int)
    returns (next: int, made: seq<Enemy>, power: int)
    requires 0 <= from <= |s|
    ensures from <= next <= |s|
    ensures forall j :: from <= j < next ==> s[j].time <= timer
    ensures next < |s| ==> s[next].time > timer
    ensures forall k :: 0 <= k < |made| ==> fresh(made[k])
    ensures Distinct(made)
    ensures MadeAll(made, EmittedBetween(s, from, next), d, wave)
    ensures power == EmittedPower(s, from, next)
  {
    next, made, power := from, [], 0;
    while next < |s|
      invariant from <= next <= |s|
      invariant forall j :: from <= j < next ==> s[j].time <= timer
      invariant forall k :: 0 <= k < |made| ==> fresh(made[k])
      invariant forall i, j :: 0 <= i < j < |made| ==> made[i] != made[j]
      invariant MadeAll(made, EmittedBetween(s, from, next), d, wave)
      invariant power == EmittedPower(s, from, next)
    {
      var spawn := s[next];
      if timer >= spawn.time {
        ghost var em := EmittedBetween(s, from, next);
        var added, gain := ReleaseSpawn(spawn, d, wave, made, em);
        made := made + added;
        power := power + gain;
        next := next + 1;
      } else {
        break;
      }
    }
    DistinctPairwise(made);
  }

  /**
   * One turn of the loop of `spawnEnemiesIfReady` over a due spawn: the
   * enemy it makes, if any, is `added` to the enemies `made` so far from the
   * spawns `ss`, and its power is the `gain` to the count.
   */
  method ReleaseSpawn(spawn: EnemySpawn, d: Difficulty, wave: int, ghost made: seq<Enemy>, ghost ss: seq<EnemySpawn>)
    returns (added: seq<Enemy>, gain: int)
    requires MadeAll(made, ss, d, wave)
    ensures MadeAll(made + added, ss + (if MakesEnemy(spawn) then [spawn] else []), d, wave)
    ensures gain == if MakesEnemy(spawn) then KindPower(spawn.kind) else 0
    ensures |added| <= 1 && forall k :: 0 <= k < |added| ==> fresh(added[k])
    ensures forall i, j :: 0 <= i < |made| && 0 <= j < |added| ==> made[i] != added[j]
  {
    var enemy := CreateEnemy(spawn, d, wave);
    assert MadeAll(made, ss, d, wave);
    if enemy != null {
      MadeAllAppend(made, ss, enemy, spawn, d, wave);
      assert forall k :: 0 <= k < |made| ==> allocated(made[k]) && made[k] != enemy;
      added, gain := [enemy], enemy.powerValue;
    } else {
      added, gain := [], 0;
      assert made + added == made && ss + [] == ss;
    }
  }

  /**
   * `createEnemy` at difficulty `d` in wave `wave`: a soldier or tank on
   * the spawn's route with the difficulty modifiers applied in the intended
   * order (the maximum raised before the heal).  A spawn
   * without a route fails in the enemy constructor, and the failure is
   * caught: no enemy.  A plane spawn makes no enemy either.
   */
  method CreateEnemy(spawn: EnemySpawn, d: Difficulty, wave: int) returns (e: Enemy?)
    ensures e != null <==> MakesEnemy(spawn)
    ensures e != null ==> fresh(e) && Made(e, spawn, d, wave)
  {
    match spawn.kind {
      case Air =>
        e := null;
      case Ground(kind) =>
        if spawn.route == null {
          e := null;
        } else {
          var enemy := new Enemy(kind, spawn.route);
          ApplyDifficultyModifiers(enemy, d, wave);
          ModifiedIsStart(kind, d, wave);
          e := enemy;
        }
    }
  }

  /**
   * `applyDifficultyModifiers`, with the maximum raised before the heal
   * (the intended order): a fresh enemy starts at full scaled health.
   */
  method ApplyDifficultyModifiers(enemy: Enemy, d: Difficulty, wave: int)
    modifies enemy`maxHp, enemy`currentHp
    ensures enemy.Vit() == IntendedModified(old(enemy.Vit()), HpMultiplier(d, wave))
  {
    var baseMaxHp := enemy.maxHp;
    var totalMultiplier := HpMultiplier(d, wave);
    var newMaxHp := Scaled(baseMaxHp, totalMultiplier);
    var hpIncrease := newMaxHp - baseMaxHp;
    if hpIncrease > 0.0 {
      enemy.maxHp := newMaxHp;
      enemy.Heal(hpIncrease);
    }
  }

  /** `applyDifficultyModifiers` as written: heal first, then raise the maximum. */
  method ApplyDifficultyModifiersAsWritten(enemy: Enemy, d: Difficulty, wave: int)
    modifies enemy`maxHp, enemy`currentHp
    ensures enemy.Vit() == AsWrittenModified(old(enemy.Vit()), HpMultiplier(d, wave))
  {
    var baseMaxHp := enemy.maxHp;
    var totalMultiplier := HpMultiplier(d, wave);
    var newMaxHp := Scaled(baseMaxHp, totalMultiplier);
    var hpIncrease := newMaxHp - baseMaxHp;
    if hpIncrease > 0.0 {
      enemy.Heal(hpIncrease);
      enemy.maxHp := newMaxHp;
    }
  }

  /** Enemies as they join the game: on their route, alive, not leaked and of positive power. */
  predicate Entering(es: seq<Enemy>)
    reads es
  {
    forall k :: 0 <= k < |es| ==> es[k].Valid() && es[k].alive && !es[k].leaked && es[k].powerValue > 0
  }

  lemma MadeAllEntering(es: seq<Enemy>, ss: seq<EnemySpawn>, d: Difficulty, wave: int)
    requires MadeAll(es, ss, d, wave)
    ensures Entering(es)
  {
    forall k | 0 <= k < |es|
      ensures es[k].Valid() && es[k].alive && !es[k].leaked && es[k].powerValue > 0
    {
      assert Made(es[k], ss[k], d, wave);
    }
  }

  lemma MadeAllSuffix(before: seq<Enemy>, es: seq<Enemy>, ss: seq<EnemySpawn>, d: Difficulty, wave: int)
    requires MadeAll(es, ss, d, wave)
    ensures MadeAll((before + es)[|before|..], ss, d, wave) && Entering((before + es)[|before|..])
    ensures Distinct(es) ==> Distinct((before + es)[|before|..])
  {
    assert (before + es)[|before|..] == es;
    MadeAllEntering(es, ss, d, wave);
  }

  lemma MadeAllAppend(es: seq<Enemy>, ss: seq<EnemySpawn>, e: Enemy, s: EnemySpawn, d: Difficulty, wave: int)
    requires MadeAll(es, ss, d, wave) && Made(e, s, d, wave)
    ensures MadeAll(es + [e], ss + [s], d, wave)
  {
    assert forall k :: 0 <= k < |es| ==> (es + [e])[k] == es[k] && (ss + [s])[k] == ss[k];
  }
}
