/**
 * The victory/defeat evaluator.  Total power is the power of every enemy the
 * configured waves will send; leaked power grows as enemies reach the castle.
 * The game is lost once the leaked share of the total reaches the threshold,
 * and won once every wave is complete and no enemy is alive.
 */
module Rules {
  import opened Text
  import opened Wrappers
  import opened GameData
  import opened Events

  /** The power of one enemy of the named type, matched case-insensitively. */
  function EnemyPower(kind: string): (p: int)
    ensures 1 <= p <= 3
  {
    var k := ToLower(kind);
    if k == "tank" then 2
    else if k == "aircraft" then 3
    else 1  // soldier, soldierfast, soldierheavy and any unknown type
  }

  /** Upper- and lower-case spellings of a type have the same power. */
  lemma EnemyPowerIgnoresCase(kind: string)
    ensures EnemyPower(ToLower(kind)) == EnemyPower(kind)
  {
    ToLowerIdempotent(kind);
  }

  /** The power of the groups of one wave. */
  function GroupsPower(groups: seq<EnemySpawn>): int
  {
    if groups == [] then 0
    else GroupsPower(groups[..|groups| - 1]) + EnemyPower(groups[|groups| - 1].kind) * groups[|groups| - 1].count
  }

  /** Whether a wave is counted as bringing one aircraft. */
  predicate HasAircraft(w: Wave)
  {
    w.aircraftChance.Some? && w.aircraftChance.value > 0.0
  }

  function WavePower(w: Wave): int
  {
    GroupsPower(w.enemies) + (if HasAircraft(w) then 3 else 0)
  }

  /** The power of all the configured waves. */
  function TotalEnemyPower(waves: seq<Wave>): int
  {
    if waves == [] then 0 else TotalEnemyPower(waves[..|waves| - 1]) + WavePower(waves[|waves| - 1])
  }

  lemma {:induction false} GroupsPowerAppend(a: seq<EnemySpawn>, b: seq<EnemySpawn>)
    ensures GroupsPower(a + b) == GroupsPower(a) + GroupsPower(b)
  {
    if b != [] {
      assert (a + b)[..|a + b| - 1] == a + b[..|b| - 1];
      GroupsPowerAppend(a, b[..|b| - 1]);
    } else {
      assert a + b == a;
    }
  }

  /** Total power is additive over the wave list. */
  lemma {:induction false} TotalEnemyPowerAppend(a: seq<Wave>, b: seq<Wave>)
    ensures TotalEnemyPower(a + b) == TotalEnemyPower(a) + TotalEnemyPower(b)
  {
    if b != [] {
      assert (a + b)[..|a + b| - 1] == a + b[..|b| - 1];
      TotalEnemyPowerAppend(a, b[..|b| - 1]);
    } else {
      assert a + b == a;
    }
  }

  /** With non-negative group sizes every group and wave adds at least its count. */
  lemma {:induction false} GroupsPowerAtLeastCount(groups: seq<EnemySpawn>)
    requires forall i :: 0 <= i < |groups| ==> groups[i].count >= 0
    ensures GroupsPower(groups) >= 0
    ensures groups != [] ==> GroupsPower(groups) >= groups[|groups| - 1].count
  {
    if groups != [] {
      var init := groups[..|groups| - 1];
      GroupsPowerAtLeastCount(init);
      var g := groups[|groups| - 1];
      assert EnemyPower(g.kind) * g.count >= g.count;
    }
  }

  /** A single wave of `n` soldiers and no aircraft has total power `n`. */
  lemma SoldierWavePower(n: int)
    ensures TotalEnemyPower([Wave(0.0, [EnemySpawn("soldier", n, 1.0)], None)]) == n
  {
    var w := Wave(0.0, [EnemySpawn("soldier", n, 1.0)], None);
    assert [w][..0] == [];
    assert w.enemies[..0] == [];
    ToLowerKeepsLowerCase("soldier");
    assert "soldier" != "tank" && "soldier" != "aircraft" by {
      assert "soldier"[0] != "tank"[0] && "soldier"[0] != "aircraft"[0];
    }
    assert EnemyPower("soldier") == 1;
    assert GroupsPower(w.enemies) == GroupsPower(w.enemies[..0]) + n;
    assert WavePower(w) == n;
    assert TotalEnemyPower([w]) == TotalEnemyPower([w][..0]) + WavePower(w);
  }

  /** `leaked / total` as a double, and 0 when there is no total power. */
  function LeakPercentage(leaked: int, total: int): (r: real)
    ensures total <= 0 ==> r == 0.0
    ensures total > 0 ==> r * total as real == leaked as real
    ensures total > 0 && 0 <= leaked ==> 0.0 <= r
  {
    if total > 0 then leaked as real / total as real else 0.0
  }

  /** The defeat condition: some power exists and the leaked share has reached the threshold. */
  predicate DefeatReached(leaked: int, total: int, threshold: real)
  {
    total > 0 && LeakPercentage(leaked, total) >= threshold
  }

  /** Defeat holds exactly when the leaked power reaches threshold × total. */
  lemma DefeatIffLeakedReachesShare(leaked: int, total: int, threshold: real)
    ensures DefeatReached(leaked, total, threshold) <==> total > 0 && leaked as real >= threshold * total as real
  {
    if total > 0 {
      var r := LeakPercentage(leaked, total);
      var t := total as real;
      assert r * t == leaked as real;
      if r >= threshold {
        assert (r - threshold) * t >= 0.0;
      } else {
        assert (threshold - r) * t > 0.0;
      }
    }
  }

  /** How much more of the total may leak before defeat; 1.0 when there is no total power. */
  function RemainingLeakAllowance(leaked: int, total: int, threshold: real): (r: real)
    ensures total <= 0 ==> r == 1.0
    ensures total > 0 ==> 0.0 <= r && threshold - LeakPercentage(leaked, total) <= r
    ensures total > 0 ==> (r == 0.0 || r == threshold - LeakPercentage(leaked, total))
  {
    if total <= 0 then 1.0
    else if 0.0 >= threshold - LeakPercentage(leaked, total) then 0.0
    else threshold - LeakPercentage(leaked, total)
  }

  /** With some total power, the allowance is used up exactly when defeat is reached. */
  lemma AllowanceExhaustedIffDefeat(leaked: int, total: int, threshold: real)
    requires total > 0
    ensures RemainingLeakAllowance(leaked, total, threshold) == 0.0 <==> DefeatReached(leaked, total, threshold)
  {
  }

  /** Ten of a hundred at a threshold of 0.1 is already defeat: the comparison is inclusive. */
  lemma ThresholdIsInclusive()
    ensures DefeatReached(10, 100, 0.1)
    ensures !DefeatReached(9, 100, 0.1)
    ensures RemainingLeakAllowance(5, 100, 0.1) == 0.05
  {
    DefeatIffLeakedReachesShare(10, 100, 0.1);
    DefeatIffLeakedReachesShare(9, 100, 0.1);
  }

  class Rules {
    /** The wave list of the game's configuration. */
    const waves: seq<Wave>
    const leakDefeatThreshold: real
    var totalEnemyPower: int
    var leakedEnemyPower: int
    var gameOver: bool
    var victory: bool

    ghost predicate Valid()
      reads this
    {
      victory ==> gameOver
    }

    /**
     * Sets the threshold and computes the total power of the configured waves.
     * The subscription of OnEnemyReachedCastle to the global event bus is not
     * part of this model.
     */
    constructor (waves: seq<Wave>, leakDefeatThreshold: real)
      ensures Valid()
      ensures this.waves == waves && this.leakDefeatThreshold == leakDefeatThreshold
      ensures totalEnemyPower == TotalEnemyPower(waves)
      ensures leakedEnemyPower == 0 && !gameOver && !victory
    {
      this.waves := waves;
      this.leakDefeatThreshold := leakDefeatThreshold;
      leakedEnemyPower := 0;
      gameOver := false;
      victory := false;
      totalEnemyPower := 0;
      new;
      CalculateTotalEnemyPower();
    }

    /** Recomputes the total power by summing over every wave and every group. */
    method CalculateTotalEnemyPower()
      modifies this`totalEnemyPower
      ensures totalEnemyPower == TotalEnemyPower(waves)
    {
      totalEnemyPower := 0;
      var i := 0;
      while i < |waves|
        invariant 0 <= i <= |waves|
        invariant totalEnemyPower == TotalEnemyPower(waves[..i])
      {
        var wave := waves[i];
        var j := 0;
        ghost var before := totalEnemyPower;
        while j < |wave.enemies|
          invariant 0 <= j <= |wave.enemies|
          invariant totalEnemyPower == before + GroupsPower(wave.enemies[..j])
        {
          var spawn := wave.enemies[j];
          assert wave.enemies[..j + 1][..j] == wave.enemies[..j];
          totalEnemyPower := totalEnemyPower + EnemyPower(spawn.kind) * spawn.count;
          j := j + 1;
        }
        assert wave.enemies[..j] == wave.enemies;
        if wave.aircraftChance.Some? && wave.aircraftChance.value > 0.0 {
          totalEnemyPower := totalEnemyPower + 3;
        }
        assert waves[..i + 1][..i] == waves[..i];
        i := i + 1;
      }
      assert waves[..i] == waves;
    }

    /**
     * One tick of the evaluator: nothing once the game is over; otherwise the
     * victory check and then the defeat check.  The returned events are the
     * GameOver events the source publishes.
     */
    method Update(allWavesComplete: bool, hasLiveEnemies: bool) returns (published: seq<Event>)
      requires Valid()
      modifies this`gameOver, this`victory
      ensures Valid()
      ensures old(gameOver) ==> gameOver && victory == old(victory) && published == []
      ensures !old(gameOver) && allWavesComplete && !hasLiveEnemies ==>
        victory && gameOver && published == [GameOver(true)]
      ensures !old(gameOver) && !(allWavesComplete && !hasLiveEnemies) ==>
        if DefeatReached(leakedEnemyPower, totalEnemyPower, leakDefeatThreshold)
        then gameOver && !victory && published == [GameOver(false)]
        else !gameOver && !victory && published == []
    {
      published := [];
      if gameOver {
        return;
      }
      published := CheckVictoryConditions(allWavesComplete, hasLiveEnemies);
      var more := CheckDefeatConditions();
      published := published + more;
    }

    method CheckVictoryConditions(allWavesComplete: bool, hasLiveEnemies: bool) returns (published: seq<Event>)
      requires Valid()
      modifies this`gameOver, this`victory
      ensures Valid()
      ensures old(victory) ==> gameOver == old(gameOver) && victory && published == []
      ensures !old(victory) && allWavesComplete && !hasLiveEnemies ==>
        victory && gameOver && published == [GameOver(true)]
      ensures !old(victory) && !(allWavesComplete && !hasLiveEnemies) ==>
        gameOver == old(gameOver) && !victory && published == []
    {
      published := [];
      if victory {
        return;
      }
      if allWavesComplete && !hasLiveEnemies {
        victory := true;
        gameOver := true;
        published := [GameOver(true)];
      }
    }

    method CheckDefeatConditions() returns (published: seq<Event>)
      requires Valid()
      modifies this`gameOver, this`victory
      ensures Valid()
      ensures old(gameOver) ==> gameOver && victory == old(victory) && published == []
      ensures !old(gameOver) && DefeatReached(leakedEnemyPower, totalEnemyPower, leakDefeatThreshold) ==>
        gameOver && !victory && published == [GameOver(false)]
      ensures !old(gameOver) && !DefeatReached(leakedEnemyPower, totalEnemyPower, leakDefeatThreshold) ==>
        !gameOver && victory == old(victory) && published == []
    {
      published := [];
      if gameOver {
        return;
      }
      if totalEnemyPower > 0 {
        var leakPercentage := leakedEnemyPower as real / totalEnemyPower as real;
        if leakPercentage >= leakDefeatThreshold {
          victory := false;
          gameOver := true;
          published := [GameOver(false)];
        }
      }
    }

    /** A leak adds its power unconditionally, also after the game is over. */
    method OnEnemyReachedCastle(damage: int)
      modifies this`leakedEnemyPower
      ensures leakedEnemyPower == old(leakedEnemyPower) + damage
    {
      leakedEnemyPower := leakedEnemyPower + damage;
    }

    method AddEnemyPower(power: int)
      modifies this`totalEnemyPower
      ensures totalEnemyPower == old(totalEnemyPower) + power
    {
      totalEnemyPower := totalEnemyPower + power;
    }

    method Reset()
      modifies this
      ensures Valid()
      ensures totalEnemyPower == 0 && leakedEnemyPower == 0 && !gameOver && !victory
    {
      totalEnemyPower := 0;
      leakedEnemyPower := 0;
      gameOver := false;
      victory := false;
    }
  }
}
