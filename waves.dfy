/**
 * The wave scheduler: a state machine that waits for each configured wave's
 * start time, then emits the wave's groups one enemy at a time, `gap` seconds
 * apart, and moves on to the next wave once the wave is over.
 *
 * The bookkeeping is specified by pure functions over a `Cursor` value, one per
 * step of the scheduler; the `WaveManager` class performs those steps on its
 * fields and creates the enemy objects the functions only name by kind.  The
 * chance roll is an injected draw in [0, 1).
 */
module Waves {
  import opened Wrappers
  import opened Text
  import opened Math2D
  import opened GameData
  import opened Events
  import opened GridPath
  import opened Vitals
  import opened Actors

  /** `createEnemy(type)`: the enemy a type name makes (case-insensitively), and none for an unknown name. */
  function KindOf(name: string): (r: Option<EnemyKind>)
    ensures r.Some? ==> r.value in {Soldier, Tank, Aircraft}
  {
    var k := ToLower(name);
    if k == "soldier" then Some(Soldier)
    else if k == "tank" then Some(Tank)
    else if k == "aircraft" then Some(Aircraft)
    else None
  }

  /** Upper- and lower-case spellings of a type name make the same enemy. */
  lemma KindOfIgnoresCase(name: string)
    ensures KindOf(ToLower(name)) == KindOf(name)
  {
    ToLowerIdempotent(name);
  }

  /** The aircraft a strike asks for is always a known type. */
  lemma AircraftIsKnown()
    ensures KindOf("aircraft") == Some(Aircraft)
  {
    ToLowerKeepsLowerCase("aircraft");
    assert "aircraft"[0] != "soldier"[0] && "aircraft"[0] != "tank"[0];
  }

  /** The scheduler's fields, as one value. */
  datatype Cursor = Cursor(
    currentWaveIndex: int,
    gameTime: real,
    allWavesComplete: bool,
    currentWave: Option<Wave>,
    waveStarted: bool,
    remainingSpawns: seq<EnemySpawn>,
    spawnTimer: real,
    currentSpawnIndex: int,
    enemiesSpawnedInCurrentGroup: int,
    aircraftStrikeTriggered: bool)

  /** A step's new cursor and the kinds of the enemies it creates, in order. */
  datatype Effect = Effect(cursor: Cursor, added: seq<EnemyKind>)

  /**
   * One update: the new cursor, the aircraft a wave start sends, the enemy the
   * spawner emits and the events published.
   */
  datatype Outcome = Outcome(cursor: Cursor, strike: seq<EnemyKind>, spawned: seq<EnemyKind>, events: seq<Event>)

  /**
   * The test that ends a wave.  `AsWritten` also demands that the list of
   * remaining groups be empty, which spawning never makes it; `Intended` asks
   * only that every group has been emitted.
   */
  datatype Rule = AsWritten | Intended

  /** A new scheduler: before the first wave, nothing scheduled. */
  function Initial(): Cursor
  {
    Cursor(0, 0.0, false, None, false, [], 0.0, 0, 0, false)
  }

  /**
   * What the scheduler keeps true: the indices are in range, a started wave is
   * the configured wave at the cursor and its groups are the remaining list, a
   * wave not yet started has nothing remaining, the group counter stays below
   * the group's count, and completion leaves the cursor past the last wave.
   */
  ghost predicate Consistent(waves: seq<Wave>, c: Cursor)
  {
    && 0 <= c.currentWaveIndex <= |waves|
    && 0 <= c.currentSpawnIndex <= |c.remainingSpawns|
    && 0 <= c.enemiesSpawnedInCurrentGroup
    && (c.currentWave.Some? ==> c.currentWave.value in waves)
    && (c.allWavesComplete ==> c.currentWaveIndex == |waves| && |waves| > 0 && !c.waveStarted)
    && (c.waveStarted ==>
          && c.currentWaveIndex < |waves|
          && c.currentWave == Some(waves[c.currentWaveIndex])
          && c.remainingSpawns == waves[c.currentWaveIndex].enemies)
    && (!c.waveStarted && !c.allWavesComplete ==>
          && c.remainingSpawns == []
          && c.enemiesSpawnedInCurrentGroup == 0
          && (c.currentWave.Some? ==> c.currentWaveIndex < |waves| && c.currentWave == Some(waves[c.currentWaveIndex])))
    && (c.currentSpawnIndex < |c.remainingSpawns| ==>
          c.enemiesSpawnedInCurrentGroup == 0 || c.enemiesSpawnedInCurrentGroup < c.remainingSpawns[c.currentSpawnIndex].count)
    && (c.waveStarted && c.currentSpawnIndex == |c.remainingSpawns| ==> c.enemiesSpawnedInCurrentGroup == 0)
  }

  /** `scheduleNextWave`: make the wave at the cursor current and reset the spawner, or finish past the last wave. */
  function Schedule(waves: seq<Wave>, c: Cursor): Cursor
    requires 0 <= c.currentWaveIndex
  {
    if c.currentWaveIndex >= |waves| then c.(allWavesComplete := true)
    else
      c.(currentWave := Some(waves[c.currentWaveIndex]), waveStarted := false, aircraftStrikeTriggered := false,
         remainingSpawns := [], currentSpawnIndex := 0, enemiesSpawnedInCurrentGroup := 0, spawnTimer := 0.0)
  }

  /** `start`: rewind the clock and the wave index, and schedule the first wave when there is one. */
  function Launch(waves: seq<Wave>, c: Cursor): Cursor
  {
    var c1 := c.(gameTime := 0.0, currentWaveIndex := 0, allWavesComplete := false);
    if waves != [] then Schedule(waves, c1) else c1
  }

  /**
   * `scheduleAircraftStrike`: one aircraft, unless this wave already sent one.
   * The type name "aircraft" always makes an aircraft (`AircraftIsKnown`), so
   * the test for a null enemy never fails.
   */
  function Strike(c: Cursor): Effect
  {
    if c.aircraftStrikeTriggered then Effect(c, [])
    else Effect(c.(aircraftStrikeTriggered := true), [Aircraft])
  }

  /**
   * `startCurrentWave`: the wave starts, its groups join the remaining list,
   * the start is announced, and a draw below the wave's aircraft chance asks
   * for a strike.
   */
  function Begin(c: Cursor, draw: real): Outcome
    requires c.currentWave.Some?
  {
    var w := c.currentWave.value;
    var c1 := c.(waveStarted := true, remainingSpawns := c.remainingSpawns + w.enemies);
    var events := [WaveStarted(c.currentWaveIndex + 1)];
    if w.aircraftChance.Some? && draw < w.aircraftChance.value then
      var s := Strike(c1);
      Outcome(s.cursor, s.added, [], events)
    else Outcome(c1, [], [], events)
  }

  /**
   * `spawnNextEnemy`: one attempt on the current group.  The counter moves on
   * whether or not the type is known; after `count` attempts (one, when the
   * count is not positive) the next group becomes current and its gap is the
   * wait, otherwise the group's own gap is.
   */
  function SpawnNext(c: Cursor): Effect
    requires 0 <= c.currentSpawnIndex
  {
    if c.currentSpawnIndex >= |c.remainingSpawns| then Effect(c, [])
    else
      var spawn := c.remainingSpawns[c.currentSpawnIndex];
      var made := KindOf(spawn.kind);
      var added := if made.Some? then [made.value] else [];
      var n := c.enemiesSpawnedInCurrentGroup + 1;
      if n >= spawn.count then
        var next := c.currentSpawnIndex + 1;
        var timer := if next < |c.remainingSpawns| then c.remainingSpawns[next].gap else c.spawnTimer;
        Effect(c.(currentSpawnIndex := next, enemiesSpawnedInCurrentGroup := 0, spawnTimer := timer), added)
      else
        Effect(c.(enemiesSpawnedInCurrentGroup := n, spawnTimer := spawn.gap), added)
  }

  /** `updateEnemySpawning`: with groups remaining, run the timer down and attempt a spawn once it is spent. */
  function Spawning(c: Cursor, dt: real): Effect
    requires 0 <= c.currentSpawnIndex
  {
    if c.remainingSpawns == [] then Effect(c, [])
    else
      var c1 := c.(spawnTimer := c.spawnTimer - dt);
      if c1.spawnTimer <= 0.0 then SpawnNext(c1) else Effect(c1, [])
  }

  /** `completeCurrentWave`: move the cursor on and schedule that wave, or finish after the last. */
  function Complete(waves: seq<Wave>, c: Cursor): Cursor
    requires 0 <= c.currentWaveIndex
  {
    var c1 := c.(waveStarted := false, currentWaveIndex := c.currentWaveIndex + 1);
    if c1.currentWaveIndex < |waves| then Schedule(waves, c1) else c1.(allWavesComplete := true)
  }

  /** Whether the started wave is over, under `rule`. */
  predicate Done(c: Cursor, rule: Rule)
  {
    && c.waveStarted
    && c.currentWave.Some?
    && (rule == AsWritten ==> c.remainingSpawns == [])
    && c.currentSpawnIndex >= |c.currentWave.value.enemies|
  }

  /** Whether the scheduled wave is due to start: not yet started and the clock past its delay. */
  predicate Due(c: Cursor)
  {
    !c.waveStarted && c.currentWave.Some? && c.gameTime >= c.currentWave.value.delay
  }

  /** The first phase of an update: start the wave when it is due. */
  function Opening(c: Cursor, draw: real): (o: Outcome)
    ensures o.cursor.currentWaveIndex == c.currentWaveIndex && o.cursor.currentSpawnIndex == c.currentSpawnIndex
  {
    if Due(c) then Begin(c, draw) else Outcome(c, [], [], [])
  }

  /** The second phase: a started wave spawns. */
  function Emitting(c: Cursor, dt: real): (e: Effect)
    requires 0 <= c.currentSpawnIndex
    ensures e.cursor.currentWaveIndex == c.currentWaveIndex
  {
    if c.waveStarted then Spawning(c, dt) else Effect(c, [])
  }

  /** The last phase: complete the wave when `rule` says it is over. */
  function Closing(waves: seq<Wave>, c: Cursor, rule: Rule): Cursor
    requires 0 <= c.currentWaveIndex
  {
    if Done(c, rule) then Complete(waves, c) else c
  }

  /**
   * `update(dt)`: advance the clock; unless all waves are over, start the
   * current wave once its delay has passed, let a started wave spawn, and
   * complete the wave when `rule` says it is over.
   */
  function Updated(waves: seq<Wave>, c: Cursor, dt: real, draw: real, rule: Rule): Outcome
    requires Consistent(waves, c)
  {
    var c0 := c.(gameTime := c.gameTime + dt);
    if c0.allWavesComplete then Outcome(c0, [], [], [])
    else
      var b := Opening(c0, draw);
      var s := Emitting(b.cursor, dt);
      Outcome(Closing(waves, s.cursor, rule), b.strike, s.added, b.events)
  }

  /** `getCurrentWaveNumber`: the 1-based number of a started wave, else the count of waves finished. */
  function WaveNumber(c: Cursor): int
  {
    if c.waveStarted then c.currentWaveIndex + 1 else c.currentWaveIndex
  }

  // ---------------------------------------------------------------------
  // The invariant is kept by every step.
  // ---------------------------------------------------------------------

  lemma InitialConsistent(waves: seq<Wave>)
    ensures Consistent(waves, Initial())
  {
  }

  lemma StartKeepsConsistent(waves: seq<Wave>, c: Cursor)
    requires Consistent(waves, c)
    ensures Consistent(waves, Launch(waves, c))
  {
  }

  lemma BeginKeepsConsistent(waves: seq<Wave>, c: Cursor, draw: real)
    requires Consistent(waves, c) && !c.allWavesComplete && !c.waveStarted && c.currentWave.Some?
    ensures Consistent(waves, Begin(c, draw).cursor)
    ensures Begin(c, draw).cursor.waveStarted && Begin(c, draw).cursor.currentWaveIndex == c.currentWaveIndex
  {
  }

  lemma SpawnNextKeepsConsistent(waves: seq<Wave>, c: Cursor)
    requires Consistent(waves, c)
    ensures Consistent(waves, SpawnNext(c).cursor)
    ensures SpawnNext(c).cursor.(currentSpawnIndex := c.currentSpawnIndex,
      enemiesSpawnedInCurrentGroup := c.enemiesSpawnedInCurrentGroup, spawnTimer := c.spawnTimer) == c
  {
  }

  lemma SpawningKeepsConsistent(waves: seq<Wave>, c: Cursor, dt: real)
    requires Consistent(waves, c)
    ensures Consistent(waves, Spawning(c, dt).cursor)
    ensures Spawning(c, dt).cursor.(currentSpawnIndex := c.currentSpawnIndex,
      enemiesSpawnedInCurrentGroup := c.enemiesSpawnedInCurrentGroup, spawnTimer := c.spawnTimer) == c
  {
    if c.remainingSpawns != [] {
      SpawnNextKeepsConsistent(waves, c.(spawnTimer := c.spawnTimer - dt));
    }
  }

  lemma CompleteKeepsConsistent(waves: seq<Wave>, c: Cursor)
    requires Consistent(waves, c) && c.waveStarted
    ensures Consistent(waves, Complete(waves, c))
  {
  }

  /**
   * The opening phase keeps the wave index; it announces the wave exactly
   * when the wave is due, then starts it, and sends an aircraft exactly when
   * the wave has not sent one and the draw falls below its aircraft chance.
   */
  lemma OpeningKeepsConsistent(waves: seq<Wave>, c: Cursor, draw: real)
    requires Consistent(waves, c) && !c.allWavesComplete
    ensures var o := Opening(c, draw);
      && Consistent(waves, o.cursor)
      && o.cursor.currentWaveIndex == c.currentWaveIndex
    ensures var o := Opening(c, draw);
      && (o.events != [] <==> Due(c))
      && (Due(c) ==> o.events == [WaveStarted(c.currentWaveIndex + 1)] && o.cursor.waveStarted)
      && (!Due(c) ==> o == Outcome(c, [], [], []))
      && (o.strike == [] || o.strike == [Aircraft])
      && (o.strike != [] <==>
            && Due(c) && !c.aircraftStrikeTriggered
            && c.currentWave.value.aircraftChance.Some? && draw < c.currentWave.value.aircraftChance.value)
  {
    if Due(c) {
      BeginKeepsConsistent(waves, c, draw);
    }
  }

  /** The spawning phase changes only the spawner's index, counter and timer, and creates at most one enemy. */
  lemma EmittingKeepsConsistent(waves: seq<Wave>, c: Cursor, dt: real)
    requires Consistent(waves, c)
    ensures Consistent(waves, Emitting(c, dt).cursor)
    ensures Emitting(c, dt).cursor.(currentSpawnIndex := c.currentSpawnIndex,
      enemiesSpawnedInCurrentGroup := c.enemiesSpawnedInCurrentGroup, spawnTimer := c.spawnTimer) == c
    ensures |Emitting(c, dt).added| <= 1
  {
    if c.waveStarted {
      SpawningKeepsConsistent(waves, c, dt);
    }
  }

  lemma ClosingKeepsConsistent(waves: seq<Wave>, c: Cursor, rule: Rule)
    requires Consistent(waves, c)
    ensures Consistent(waves, Closing(waves, c, rule))
  {
    if Done(c, rule) {
      CompleteKeepsConsistent(waves, c);
    }
  }

  /** An update with waves still to run is its three phases in order. */
  lemma Phases(waves: seq<Wave>, c: Cursor, dt: real, draw: real, rule: Rule)
    requires Consistent(waves, c) && !c.allWavesComplete
    ensures var c0 := c.(gameTime := c.gameTime + dt);
      var o := Opening(c0, draw);
      var e := Emitting(o.cursor, dt);
      Updated(waves, c, dt, draw, rule) == Outcome(Closing(waves, e.cursor, rule), o.strike, e.added, o.events)
  {
  }

  /** An update keeps the scheduler consistent, under either completion rule. */
  lemma UpdateKeepsConsistent(waves: seq<Wave>, c: Cursor, dt: real, draw: real, rule: Rule)
    requires Consistent(waves, c)
    ensures Consistent(waves, Updated(waves, c, dt, draw, rule).cursor)
  {
    if !c.allWavesComplete {
      Phases(waves, c, dt, draw, rule);
      var c0 := c.(gameTime := c.gameTime + dt);
      OpeningKeepsConsistent(waves, c0, draw);
      EmittingKeepsConsistent(waves, Opening(c0, draw).cursor, dt);
      ClosingKeepsConsistent(waves, Emitting(Opening(c0, draw).cursor, dt).cursor, rule);
    }
  }

  // ---------------------------------------------------------------------
  // Runs of updates.
  // ---------------------------------------------------------------------

  /** One update's inputs: the elapsed time and the chance draw. */
  datatype Input = Input(dt: real, draw: real)

  /** The cursor after the updates `inputs`, in order. */
  function Run(waves: seq<Wave>, c: Cursor, inputs: seq<Input>, rule: Rule): (r: Cursor)
    requires Consistent(waves, c)
    ensures Consistent(waves, r)
    decreases |inputs|
  {
    if inputs == [] then c
    else
      UpdateKeepsConsistent(waves, c, inputs[0].dt, inputs[0].draw, rule);
      Run(waves, Updated(waves, c, inputs[0].dt, inputs[0].draw, rule).cursor, inputs[1..], rule)
  }

  /** With no waves configured, starting schedules nothing and the waves are never all complete. */
  lemma {:induction false} NoWavesNeverComplete(c: Cursor, inputs: seq<Input>, rule: Rule)
    requires Consistent([], c)
    ensures Launch([], c).currentWave.None? && !Launch([], c).allWavesComplete
    ensures Consistent([], Launch([], c)) && !Run([], Launch([], c), inputs, rule).allWavesComplete
  {
    StartKeepsConsistent([], c);
    NoWavesStayIdle(Launch([], c), inputs, rule);
  }

  lemma {:induction false} NoWavesStayIdle(c: Cursor, inputs: seq<Input>, rule: Rule)
    requires Consistent([], c) && !c.allWavesComplete
    ensures !Run([], c, inputs, rule).allWavesComplete
    decreases |inputs|
  {
    if inputs != [] {
      var t := Updated([], c, inputs[0].dt, inputs[0].draw, rule);
      NoWavesStayIdle(t.cursor, inputs[1..], rule);
    }
  }

  // ---------------------------------------------------------------------
  // Properties of one update.
  // ---------------------------------------------------------------------

  /** Once every wave is over an update only advances the clock. */
  lemma FinishedStaysFinished(waves: seq<Wave>, c: Cursor, dt: real, draw: real, rule: Rule)
    requires Consistent(waves, c) && c.allWavesComplete
    ensures var t := Updated(waves, c, dt, draw, rule);
      t.cursor == c.(gameTime := c.gameTime + dt) && t.strike == [] && t.spawned == [] && t.events == []
  {
  }

  /**
   * A wave starts (and its start is announced, with its 1-based number)
   * exactly when it is scheduled, not yet started, and the clock has reached
   * its delay.
   */
  lemma BeginsOnlyWhenDue(waves: seq<Wave>, c: Cursor, dt: real, draw: real, rule: Rule)
    requires Consistent(waves, c) && !c.allWavesComplete
    ensures var t := Updated(waves, c, dt, draw, rule);
      && (t.events != [] <==> !c.waveStarted && c.currentWave.Some? && c.gameTime + dt >= c.currentWave.value.delay)
      && (t.events != [] ==> t.events == [WaveStarted(c.currentWaveIndex + 1)])
  {
    Phases(waves, c, dt, draw, rule);
    OpeningKeepsConsistent(waves, c.(gameTime := c.gameTime + dt), draw);
  }

  /**
   * An update sends at most one strike aircraft and spawns at most one enemy.
   * The aircraft comes only with the start of a wave that has not sent one,
   * when the draw falls below the wave's aircraft chance, and then always.
   */
  lemma AtMostOneOfEach(waves: seq<Wave>, c: Cursor, dt: real, draw: real, rule: Rule)
    requires Consistent(waves, c)
    ensures var t := Updated(waves, c, dt, draw, rule);
      && |t.spawned| <= 1
      && (t.strike == [] || t.strike == [Aircraft])
      && (t.strike != [] <==>
            && t.events != []
            && !c.aircraftStrikeTriggered
            && c.currentWave.Some? && c.currentWave.value.aircraftChance.Some?
            && draw < c.currentWave.value.aircraftChance.value)
  {
    if !c.allWavesComplete {
      Phases(waves, c, dt, draw, rule);
      var c0 := c.(gameTime := c.gameTime + dt);
      OpeningKeepsConsistent(waves, c0, draw);
      EmittingKeepsConsistent(waves, Opening(c0, draw).cursor, dt);
    }
  }

  /** A started wave publishes nothing and sends no further aircraft: one strike at most per wave. */
  lemma NoSecondStart(waves: seq<Wave>, c: Cursor, dt: real, draw: real, rule: Rule)
    requires Consistent(waves, c) && c.waveStarted
    ensures var t := Updated(waves, c, dt, draw, rule); t.events == [] && t.strike == []
  {
    Phases(waves, c, dt, draw, rule);
  }

  /**
   * Finishing a wave moves the cursor on by one; the waves are all complete
   * exactly when that was the last, and otherwise the next wave is scheduled,
   * not started, with an empty remaining list, a fresh spawner and the strike
   * flag cleared.
   */
  lemma CompletionAdvances(waves: seq<Wave>, c: Cursor)
    requires Consistent(waves, c) && c.waveStarted
    ensures var r := Complete(waves, c);
      && !r.waveStarted && r.currentWaveIndex == c.currentWaveIndex + 1
      && (r.allWavesComplete <==> c.currentWaveIndex + 1 == |waves|)
      && (!r.allWavesComplete ==>
            && r.currentWaveIndex < |waves| && r.currentWave == Some(waves[r.currentWaveIndex])
            && !r.aircraftStrikeTriggered
            && r.remainingSpawns == [] && r.currentSpawnIndex == 0 && r.enemiesSpawnedInCurrentGroup == 0
            && r.spawnTimer == 0.0)
  {
  }

  /** The update that moves on to the next wave leaves that wave scheduled afresh. */
  lemma NextWaveScheduledFresh(waves: seq<Wave>, c: Cursor, dt: real, draw: real, rule: Rule)
    requires Consistent(waves, c)
    ensures var r := Updated(waves, c, dt, draw, rule).cursor;
      r.currentWaveIndex != c.currentWaveIndex && !r.allWavesComplete ==>
        && r.currentWaveIndex == c.currentWaveIndex + 1
        && r.currentWaveIndex < |waves| && r.currentWave == Some(waves[r.currentWaveIndex])
        && !r.waveStarted && !r.aircraftStrikeTriggered
        && r.remainingSpawns == [] && r.currentSpawnIndex == 0 && r.enemiesSpawnedInCurrentGroup == 0
        && r.spawnTimer == 0.0
  {
    if !c.allWavesComplete {
      Phases(waves, c, dt, draw, rule);
      var c0 := c.(gameTime := c.gameTime + dt);
      OpeningKeepsConsistent(waves, c0, draw);
      var e := Emitting(Opening(c0, draw).cursor, dt);
      EmittingKeepsConsistent(waves, Opening(c0, draw).cursor, dt);
      if Done(e.cursor, rule) {
        CompletionAdvances(waves, e.cursor);
      }
    }
  }

  /** Right after the update that announces wave `n`, the current wave number is `n`. */
  lemma WaveNumberAfterStart(waves: seq<Wave>, c: Cursor, dt: real, draw: real, rule: Rule, n: int)
    requires Consistent(waves, c)
    requires WaveStarted(n) in Updated(waves, c, dt, draw, rule).events
    ensures WaveNumber(Updated(waves, c, dt, draw, rule).cursor) == n
  {
    Phases(waves, c, dt, draw, rule);
    var c0 := c.(gameTime := c.gameTime + dt);
    OpeningKeepsConsistent(waves, c0, draw);
    var o := Opening(c0, draw);
    assert n == c.currentWaveIndex + 1 && o.cursor.waveStarted;
    var e := Emitting(o.cursor, dt);
    EmittingKeepsConsistent(waves, o.cursor, dt);
    assert e.cursor.waveStarted && e.cursor.currentWaveIndex == c.currentWaveIndex;
    if Done(e.cursor, rule) {
      CompletionAdvances(waves, e.cursor);
    }
  }

  // ---------------------------------------------------------------------
  // The spawner.
  // ---------------------------------------------------------------------

  /**
   * Every spawn attempt moves the spawner forward, whether or not the type is
   * known: either the counter goes up by one, or (after `count` attempts) the
   * next group becomes current with the counter at zero and its gap as the
   * wait.  The attempt creates the named enemy, or nothing for an unknown type.
   */
  lemma SpawnAttemptAdvances(c: Cursor)
    requires 0 <= c.currentSpawnIndex < |c.remainingSpawns|
    ensures var e := SpawnNext(c); var g := c.remainingSpawns[c.currentSpawnIndex];
      && e.added == (if KindOf(g.kind).Some? then [KindOf(g.kind).value] else [])
      && (c.enemiesSpawnedInCurrentGroup + 1 >= g.count ==>
            && e.cursor.currentSpawnIndex == c.currentSpawnIndex + 1
            && e.cursor.enemiesSpawnedInCurrentGroup == 0
            && (e.cursor.currentSpawnIndex < |c.remainingSpawns| ==>
                  e.cursor.spawnTimer == c.remainingSpawns[e.cursor.currentSpawnIndex].gap))
      && (c.enemiesSpawnedInCurrentGroup + 1 < g.count ==>
            && e.cursor.currentSpawnIndex == c.currentSpawnIndex
            && e.cursor.enemiesSpawnedInCurrentGroup == c.enemiesSpawnedInCurrentGroup + 1
            && e.cursor.spawnTimer == g.gap)
  {
  }

  /** `k` spawn attempts in a row, and the enemies they create. */
  function Attempts(c: Cursor, k: nat): (e: Effect)
    requires 0 <= c.currentSpawnIndex
    ensures 0 <= e.cursor.currentSpawnIndex
    decreases k
  {
    if k == 0 then Effect(c, [])
    else
      var first := SpawnNext(c);
      var rest := Attempts(first.cursor, k - 1);
      Effect(rest.cursor, first.added + rest.added)
  }

  /** The number of attempts a group takes: its count, and one when the count is not positive. */
  function Attempted(g: EnemySpawn): nat
  {
    if g.count <= 0 then 1 else g.count
  }

  /**
   * A group takes exactly its count of attempts (one for a count that is not
   * positive) from its first attempt to the next group, and creates one enemy
   * per attempt when its type is known and none otherwise.
   */
  lemma {:induction false} GroupTakesItsCount(c: Cursor, k: nat)
    requires 0 <= c.currentSpawnIndex < |c.remainingSpawns|
    requires var g := c.remainingSpawns[c.currentSpawnIndex];
      0 <= c.enemiesSpawnedInCurrentGroup < Attempted(g) && k == Attempted(g) - c.enemiesSpawnedInCurrentGroup
    ensures var e := Attempts(c, k); var g := c.remainingSpawns[c.currentSpawnIndex];
      && e.cursor.currentSpawnIndex == c.currentSpawnIndex + 1
      && e.cursor.enemiesSpawnedInCurrentGroup == 0
      && e.cursor.remainingSpawns == c.remainingSpawns
      && e.added == (if KindOf(g.kind).Some? then seq(k, _ => KindOf(g.kind).value) else [])
    ensures forall j: nat | j < k :: Attempts(c, j).cursor.currentSpawnIndex == c.currentSpawnIndex
    decreases k
  {
    var g := c.remainingSpawns[c.currentSpawnIndex];
    var first := SpawnNext(c);
    if k == 1 {
      assert Attempts(first.cursor, 0) == Effect(first.cursor, []);
      forall j: nat | j < k
        ensures Attempts(c, j).cursor.currentSpawnIndex == c.currentSpawnIndex
      {
        assert j == 0;
      }
    } else {
      assert first.cursor.currentSpawnIndex == c.currentSpawnIndex;
      assert first.cursor.enemiesSpawnedInCurrentGroup == c.enemiesSpawnedInCurrentGroup + 1;
      GroupTakesItsCount(first.cursor, k - 1);
      var rest := Attempts(first.cursor, k - 1);
      if KindOf(g.kind).Some? {
        assert first.added + rest.added == seq(k, _ => KindOf(g.kind).value);
      }
      forall j: nat | j < k
        ensures Attempts(c, j).cursor.currentSpawnIndex == c.currentSpawnIndex
      {
        if j > 0 {
          assert Attempts(c, j).cursor == Attempts(first.cursor, j - 1).cursor;
        }
      }
    }
  }

  // ---------------------------------------------------------------------
  // Wave completion, as written and as intended.
  // ---------------------------------------------------------------------

  /** As written, one update of a started wave with groups leaves it started, on the same wave and groups. */
  lemma AsWrittenStalls(waves: seq<Wave>, c: Cursor, dt: real, draw: real)
    requires Consistent(waves, c) && c.waveStarted && c.remainingSpawns != []
    ensures var r := Updated(waves, c, dt, draw, AsWritten).cursor;
      && r.waveStarted && !r.allWavesComplete
      && r.currentWaveIndex == c.currentWaveIndex && r.remainingSpawns == c.remainingSpawns
  {
    Phases(waves, c, dt, draw, AsWritten);
    var c0 := c.(gameTime := c.gameTime + dt);
    EmittingKeepsConsistent(waves, Opening(c0, draw).cursor, dt);
  }

  /**
   * As written, a wave with at least one group never completes: spawning
   * leaves the remaining list as it was, so the emptiness test fails on every
   * later update, the wave stays started and the waves are never all complete.
   */
  lemma {:induction false} AsWrittenWaveNeverCompletes(waves: seq<Wave>, c: Cursor, inputs: seq<Input>)
    requires Consistent(waves, c) && c.waveStarted && c.remainingSpawns != []
    ensures var r := Run(waves, c, inputs, AsWritten);
      && r.waveStarted && !r.allWavesComplete
      && r.currentWaveIndex == c.currentWaveIndex && r.remainingSpawns == c.remainingSpawns
    decreases |inputs|
  {
    if inputs != [] {
      var t := Updated(waves, c, inputs[0].dt, inputs[0].draw, AsWritten);
      AsWrittenStalls(waves, c, inputs[0].dt, inputs[0].draw);
      UpdateKeepsConsistent(waves, c, inputs[0].dt, inputs[0].draw, AsWritten);
      AsWrittenWaveNeverCompletes(waves, t.cursor, inputs[1..]);
    }
  }

  /** The one-wave schedule of a single soldier with no delay. */
  function OneSoldier(): seq<Wave>
  {
    [Wave(0.0, [EnemySpawn("soldier", 1, 1.0)], None)]
  }

  /**
   * On the one-soldier schedule, the first update after `start` starts the
   * wave and spawns the soldier.  The intended test then completes the wave
   * and with it the schedule; as written the wave stays started.
   */
  lemma OneSoldierWave()
    ensures Consistent(OneSoldier(), Launch(OneSoldier(), Initial()))
    ensures var c := Launch(OneSoldier(), Initial());
      var a := Updated(OneSoldier(), c, 0.5, 0.0, AsWritten);
      var b := Updated(OneSoldier(), c, 0.5, 0.0, Intended);
      && a.spawned == [Soldier] && b.spawned == [Soldier]
      && a.cursor.waveStarted && !a.cursor.allWavesComplete
      && b.cursor.allWavesComplete
  {
    var w := OneSoldier();
    var c := Launch(w, Initial());
    OneSoldierEmits();
    var e := Cursor(0, 0.5, false, Some(w[0]), true, w[0].enemies, -0.5, 1, 0, false);
    assert !Done(e, AsWritten) && Closing(w, e, AsWritten) == e;
    assert Closing(w, e, Intended).allWavesComplete;
    Phases(w, c, 0.5, 0.0, AsWritten);
    Phases(w, c, 0.5, 0.0, Intended);
  }

  /** The opening and emitting phases of that first update: the wave starts and its one soldier comes out. */
  lemma OneSoldierEmits()
    ensures var c := Launch(OneSoldier(), Initial());
      && c == Cursor(0, 0.0, false, Some(OneSoldier()[0]), false, [], 0.0, 0, 0, false)
      && var c0 := c.(gameTime := c.gameTime + 0.5);
      var o := Opening(c0, 0.0);
      var e := Emitting(o.cursor, 0.5);
      && o.strike == [] && e.added == [Soldier]
      && e.cursor == Cursor(0, 0.5, false, Some(OneSoldier()[0]), true, OneSoldier()[0].enemies, -0.5, 1, 0, false)
  {
    var w := OneSoldier();
    var c := Launch(w, Initial());
    assert c == Cursor(0, 0.0, false, Some(w[0]), false, [], 0.0, 0, 0, false);
    var c0 := c.(gameTime := 0.5);
    var o := Opening(c0, 0.0);
    assert o.cursor == c0.(waveStarted := true, remainingSpawns := w[0].enemies) && o.strike == [];
    ToLowerKeepsLowerCase("soldier");
    assert KindOf("soldier") == Some(Soldier);
    var e := Emitting(o.cursor, 0.5);
    assert e.cursor == o.cursor.(spawnTimer := -0.5, currentSpawnIndex := 1) && e.added == [Soldier];
  }

  /**
   * Under the intended test, a wave that is still started after an update
   * has groups left to emit: the update that emits the last group completes
   * the wave.
   */
  lemma IntendedCompletesAfterLastGroup(waves: seq<Wave>, c: Cursor, dt: real, draw: real)
    requires Consistent(waves, c)
    ensures var r := Updated(waves, c, dt, draw, Intended).cursor;
      r.waveStarted ==> r.currentSpawnIndex < |r.remainingSpawns|
  {
    if !c.allWavesComplete {
      Phases(waves, c, dt, draw, Intended);
      var c0 := c.(gameTime := c.gameTime + dt);
      OpeningKeepsConsistent(waves, c0, draw);
      var e := Emitting(Opening(c0, draw).cursor, dt);
      EmittingKeepsConsistent(waves, Opening(c0, draw).cursor, dt);
      if Done(e.cursor, Intended) {
        CompletionAdvances(waves, e.cursor);
      }
    }
  }

  /** The enemies `made` are, in order, of the given kinds. */
  predicate Makes(made: seq<Enemy>, kinds: seq<EnemyKind>)
  {
    |made| == |kinds| && forall i | 0 <= i < |made| :: made[i].kind == kinds[i]
  }

  lemma MakesAppend(a: seq<Enemy>, b: seq<Enemy>, ka: seq<EnemyKind>, kb: seq<EnemyKind>)
    requires Makes(a, ka) && Makes(b, kb)
    ensures Makes(a + b, ka + kb)
  {
  }

  lemma AppendAssociates(a: seq<Enemy>, b: seq<Enemy>, c: seq<Enemy>)
    ensures a + b + c == a + (b + c)
  {
  }

  /**
   * The wave manager.  `enemies` is the list it appends the enemies it creates
   * to; every enemy it creates has full health, is alive, has its type's
   * stats, and a ground enemy has the map's main path.
   */
  class WaveManager {
    const waves: seq<Wave>
    const enemyStats: EnemiesConfig
    const mainPath: Option<Path>
    var enemies: seq<Enemy>

    var currentWaveIndex: int
    var gameTime: real
    var allWavesComplete: bool
    var currentWave: Option<Wave>
    var waveStarted: bool
    var remainingSpawns: seq<EnemySpawn>
    var spawnTimer: real
    var currentSpawnIndex: int
    var enemiesSpawnedInCurrentGroup: int
    var aircraftStrikeTriggered: bool

    function State(): Cursor
      reads this
    {
      Cursor(currentWaveIndex, gameTime, allWavesComplete, currentWave, waveStarted,
             remainingSpawns, spawnTimer, currentSpawnIndex, enemiesSpawnedInCurrentGroup, aircraftStrikeTriggered)
    }

    ghost predicate Valid()
      reads this
    {
      Consistent(waves, State())
    }

    /** The stats the balance configuration gives an enemy of `kind`. */
    function StatsFor(kind: EnemyKind): EnemyStats
    {
      match kind
      case Soldier => enemyStats.soldier
      case SoldierFast => enemyStats.soldierFast
      case SoldierHeavy => enemyStats.soldierHeavy
      case Tank => enemyStats.tank
      case Aircraft => enemyStats.aircraft
    }

    /** A newly created enemy, placed on the main path when it walks one. */
    ghost predicate Arrival(e: Enemy)
      reads e`pathProgress, e`reachedEnd, e`path, e`context, e`currentHp, e`alive
    {
      && e.Valid()
      && e.HealthOf() == Health(e.maxHp, true)
      && e.power == StatsFor(e.kind).power
      && e.pathProgress == 0.0 && !e.reachedEnd
      && (e.kind != Aircraft ==> e.path == mainPath)
    }

    constructor (waves: seq<Wave>, enemyStats: EnemiesConfig, mainPath: Option<Path>, enemies: seq<Enemy>)
      ensures Valid() && State() == Initial()
      ensures this.waves == waves && this.enemyStats == enemyStats && this.mainPath == mainPath
      ensures this.enemies == enemies
    {
      this.waves, this.enemyStats, this.mainPath, this.enemies := waves, enemyStats, mainPath, enemies;
      currentWaveIndex, gameTime, allWavesComplete := 0, 0.0, false;
      currentWave, waveStarted, remainingSpawns := None, false, [];
      spawnTimer, currentSpawnIndex, enemiesSpawnedInCurrentGroup := 0.0, 0, 0;
      aircraftStrikeTriggered := false;
    }

    method Start()
      requires Valid()
      modifies this
      ensures Valid() && State() == Launch(waves, old(State())) && enemies == old(enemies)
    {
      gameTime := 0.0;
      currentWaveIndex := 0;
      allWavesComplete := false;
      if waves != [] {
        ScheduleNextWave();
      }
      StartKeepsConsistent(waves, old(State()));
    }

    /**
     * `update(dt)`, with the intended completion test.  The enemies it
     * creates are appended to `enemies`, in order.
     */
    method Update(dt: real, draw: real, dist: Distance) returns (published: seq<Event>, ghost added: seq<Enemy>)
      requires Valid()
      modifies this
      ensures Valid()
      ensures var t := Updated(waves, old(State()), dt, draw, Intended);
        && State() == t.cursor && published == t.events
        && enemies == old(enemies) + added && Makes(added, t.strike + t.spawned)
    {
      ghost var c := old(State());
      gameTime := gameTime + dt;
      published, added := [], [];
      if allWavesComplete {
        FinishedStaysFinished(waves, c, dt, draw, Intended);
        return;
      }
      ghost var c0 := c.(gameTime := c.gameTime + dt);
      assert State() == c0;
      ghost var o := Opening(c0, draw);
      ghost var e := Emitting(o.cursor, dt);
      Phases(waves, c, dt, draw, Intended);
      ghost var fromStart, fromGroups;
      published, fromStart := StartIfDue(draw, dist);
      fromGroups := SpawnIfStarted(dt, dist);
      CompleteIfDone();
      MakesAppend(fromStart, fromGroups, o.strike, e.added);
      AppendAssociates(old(enemies), fromStart, fromGroups);
      added := fromStart + fromGroups;
    }

    /** The first step of `update`: the current wave starts once its delay has passed. */
    method StartIfDue(draw: real, dist: Distance) returns (published: seq<Event>, ghost added: seq<Enemy>)
      requires Valid() && !allWavesComplete
      modifies this
      ensures Valid()
      ensures var o := Opening(old(State()), draw);
        && State() == o.cursor && published == o.events
        && enemies == old(enemies) + added && Makes(added, o.strike)
      ensures forall i | 0 <= i < |added| :: fresh(added[i]) && Arrival(added[i])
    {
      OpeningKeepsConsistent(waves, old(State()), draw);
      published, added := [], [];
      if !waveStarted && currentWave.Some? && gameTime >= currentWave.value.delay {
        published, added := StartCurrentWave(draw, dist);
      }
    }

    /** The second step of `update`: a started wave goes on spawning. */
    method SpawnIfStarted(dt: real, dist: Distance) returns (ghost added: seq<Enemy>)
      requires Valid()
      modifies this
      ensures Valid()
      ensures var e := Emitting(old(State()), dt);
        State() == e.cursor && enemies == old(enemies) + added && Makes(added, e.added)
      ensures forall i | 0 <= i < |added| :: fresh(added[i]) && Arrival(added[i])
    {
      EmittingKeepsConsistent(waves, old(State()), dt);
      added := [];
      if waveStarted {
        added := UpdateEnemySpawning(dt, dist);
      }
    }

    /** The last step of `update`, with the intended completion test. */
    method CompleteIfDone()
      requires Valid()
      modifies this
      ensures Valid() && State() == Closing(waves, old(State()), Intended) && enemies == old(enemies)
    {
      ClosingKeepsConsistent(waves, old(State()), Intended);
      if waveStarted && currentWave.Some? && currentSpawnIndex >= |currentWave.value.enemies| {
        CompleteCurrentWave();
      }
    }

    method ScheduleNextWave()
      requires 0 <= currentWaveIndex
      modifies this
      ensures State() == Schedule(waves, old(State())) && enemies == old(enemies)
    {
      if currentWaveIndex >= |waves| {
        allWavesComplete := true;
        return;
      }
      currentWave := Some(waves[currentWaveIndex]);
      waveStarted := false;
      aircraftStrikeTriggered := false;
      remainingSpawns := [];
      currentSpawnIndex := 0;
      enemiesSpawnedInCurrentGroup := 0;
      spawnTimer := 0.0;
    }

    method StartCurrentWave(draw: real, dist: Distance) returns (published: seq<Event>, ghost added: seq<Enemy>)
      requires Valid() && !allWavesComplete && !waveStarted && currentWave.Some?
      modifies this
      ensures Valid()
      ensures var b := Begin(old(State()), draw);
        && State() == b.cursor && published == b.events
        && enemies == old(enemies) + added && Makes(added, b.strike)
      ensures forall i | 0 <= i < |added| :: fresh(added[i]) && Arrival(added[i])
    {
      BeginKeepsConsistent(waves, old(State()), draw);
      waveStarted := true;
      remainingSpawns := remainingSpawns + currentWave.value.enemies;
      published, added := [WaveStarted(currentWaveIndex + 1)], [];
      if currentWave.value.aircraftChance.Some? && draw < currentWave.value.aircraftChance.value {
        added := ScheduleAircraftStrike(dist);
      }
    }

    method UpdateEnemySpawning(dt: real, dist: Distance) returns (ghost added: seq<Enemy>)
      requires Valid()
      modifies this
      ensures Valid()
      ensures var e := Spawning(old(State()), dt);
        State() == e.cursor && enemies == old(enemies) + added && Makes(added, e.added)
      ensures forall i | 0 <= i < |added| :: fresh(added[i]) && Arrival(added[i])
    {
      SpawningKeepsConsistent(waves, old(State()), dt);
      added := [];
      if remainingSpawns == [] {
        return;
      }
      spawnTimer := spawnTimer - dt;
      if spawnTimer <= 0.0 {
        added := SpawnNextEnemy(dist);
      }
    }

    method SpawnNextEnemy(dist: Distance) returns (ghost added: seq<Enemy>)
      requires 0 <= currentSpawnIndex
      modifies this
      ensures var e := SpawnNext(old(State()));
        State() == e.cursor && enemies == old(enemies) + added && Makes(added, e.added)
      ensures forall i | 0 <= i < |added| :: fresh(added[i]) && Arrival(added[i])
    {
      added := [];
      if currentSpawnIndex >= |remainingSpawns| {
        return;
      }
      var spawn := remainingSpawns[currentSpawnIndex];
      var enemy := CreateOnPath(spawn.kind, dist);
      if enemy != null {
        enemies := enemies + [enemy];
        added := [enemy];
      }
      CountSpawn();
    }

    /** The bookkeeping half of `spawnNextEnemy`: count the attempt and move to the next group once this one is done. */
    method CountSpawn()
      requires 0 <= currentSpawnIndex < |remainingSpawns|
      modifies this
      ensures State() == SpawnNext(old(State())).cursor && enemies == old(enemies)
    {
      var spawn := remainingSpawns[currentSpawnIndex];
      enemiesSpawnedInCurrentGroup := enemiesSpawnedInCurrentGroup + 1;
      if enemiesSpawnedInCurrentGroup >= spawn.count {
        currentSpawnIndex := currentSpawnIndex + 1;
        enemiesSpawnedInCurrentGroup := 0;
        if currentSpawnIndex < |remainingSpawns| {
          spawnTimer := remainingSpawns[currentSpawnIndex].gap;
        }
      } else {
        spawnTimer := spawn.gap;
      }
    }

    /** `createEnemy`: a new enemy of the named type with that type's stats, or null for an unknown name. */
    method CreateEnemy(name: string) returns (e: Enemy?)
      ensures KindOf(name).None? ==> e == null
      ensures KindOf(name).Some? ==> e != null && fresh(e) && e.kind == KindOf(name).value
      ensures e != null ==> e.Valid() && e.HealthOf() == Health(e.maxHp, true) && e.power == StatsFor(e.kind).power
      ensures e != null ==> e.pathProgress == 0.0 && !e.reachedEnd
    {
      var kind := KindOf(name);
      match kind {
        case None => e := null;
        case Some(k) => e := new Enemy(k, StatsFor(k));
      }
    }

    /** A new enemy of the named type, put on the main path (an aircraft ignores it), or null for an unknown name. */
    method CreateOnPath(name: string, dist: Distance) returns (e: Enemy?)
      ensures KindOf(name).None? ==> e == null
      ensures KindOf(name).Some? ==> e != null && fresh(e) && e.kind == KindOf(name).value && Arrival(e)
    {
      e := CreateEnemy(name);
      if e != null {
        e.SetPath(mainPath, dist);
      }
    }

    method ScheduleAircraftStrike(dist: Distance) returns (ghost added: seq<Enemy>)
      modifies this
      ensures var s := Strike(old(State()));
        State() == s.cursor && enemies == old(enemies) + added && Makes(added, s.added)
      ensures forall i | 0 <= i < |added| :: fresh(added[i]) && Arrival(added[i])
    {
      added := [];
      if aircraftStrikeTriggered {
        return;
      }
      AircraftIsKnown();
      var aircraft := CreateOnPath("aircraft", dist);
      if aircraft != null {
        enemies := enemies + [aircraft];
        added := [aircraft];
        aircraftStrikeTriggered := true;
      }
    }

    method CompleteCurrentWave()
      requires Valid() && waveStarted
      modifies this
      ensures Valid() && State() == Complete(waves, old(State())) && enemies == old(enemies)
    {
      CompleteKeepsConsistent(waves, old(State()));
      waveStarted := false;
      currentWaveIndex := currentWaveIndex + 1;
      if currentWaveIndex < |waves| {
        ScheduleNextWave();
      } else {
        allWavesComplete := true;
      }
    }

    /** `getCurrentWaveNumber`. */
    function CurrentWaveNumber(): int
      reads this
    {
      WaveNumber(State())
    }
  }
}
