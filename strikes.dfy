/**
 * The aircraft strike system of `AircraftStrikeSystem`: an aircraft that is
 * halfway along its path calls in one strike on the row or column of the grid
 * where the player's defenses are worth most; a called strike is announced
 * for a second and then damages every live defense on its line.
 */
module Strikes {
  import opened Wrappers
  import opened GameData
  import opened Vitals
  import opened Targeting
  import opened Selection
  import opened Actors

  /** The warning before a strike lands, the damage it deals, and the progress at which an aircraft calls one. */
  const WARNING_TIME: real := 1.0
  const STRIKE_BASE_DAMAGE: int := 50
  const TRIGGER_PROGRESS: real := 0.5

  datatype StrikeType = Row | Column
  datatype StrikeTarget = StrikeTarget(kind: StrikeType, index: int)
  datatype PendingStrike = PendingStrike(kind: StrikeType, index: int, warningTime: real, damage: int)

  // ---------------------------------------------------------------------
  // Scores of the lines
  // ---------------------------------------------------------------------

  /** A live tower on the grid row (`isRow`) or column `line`. */
  predicate TowerOn(t: Tower, isRow: bool, line: int, tileSize: int)
    requires tileSize > 0
    reads t`x, t`y, t`alive
  {
    t.alive && LineOf(if isRow then t.y else t.x, tileSize) == line
  }

  /** A live AA defense on the grid row (`isRow`) or column `line`. */
  predicate AAOn(a: AADefense, isRow: bool, line: int, tileSize: int)
    requires tileSize > 0
    reads a`x, a`y, a`alive
  {
    a.alive && LineOf(if isRow then a.y else a.x, tileSize) == line
  }

  /** Twice the full hp of every live tower on the line. */
  function TowerScore(ts: seq<Tower>, isRow: bool, line: int, tileSize: int): int
    requires tileSize > 0
    reads ts`x, ts`y, ts`alive
  {
    if ts == [] then 0
    else
      var t := ts[|ts| - 1];
      TowerScore(ts[..|ts| - 1], isRow, line, tileSize) + (if TowerOn(t, isRow, line, tileSize) then 2 * t.maxHp else 0)
  }

  /** Three times the full hp of every live AA defense on the line. */
  function AAScore(aas: seq<AADefense>, isRow: bool, line: int, tileSize: int): int
    requires tileSize > 0
    reads aas`x, aas`y, aas`alive
  {
    if aas == [] then 0
    else
      var a := aas[|aas| - 1];
      AAScore(aas[..|aas| - 1], isRow, line, tileSize) + (if AAOn(a, isRow, line, tileSize) then 3 * a.maxHp else 0)
  }

  /** `calculateRowStrikeValue` (`isRow`) and `calculateColumnStrikeValue`. */
  function LineScore(ts: seq<Tower>, aas: seq<AADefense>, isRow: bool, line: int, tileSize: int): int
    requires tileSize > 0
    reads ts`x, ts`y, ts`alive, aas`x, aas`y, aas`alive
  {
    TowerScore(ts, isRow, line, tileSize) + AAScore(aas, isRow, line, tileSize)
  }

  /** The scores of lines 0 to n - 1. */
  function Scores(ts: seq<Tower>, aas: seq<AADefense>, isRow: bool, n: nat, tileSize: int): (r: seq<int>)
    requires tileSize > 0
    reads ts`x, ts`y, ts`alive, aas`x, aas`y, aas`alive
    ensures |r| == n && forall i | 0 <= i < n :: r[i] == LineScore(ts, aas, isRow, i, tileSize)
  {
    if n == 0 then [] else Scores(ts, aas, isRow, n - 1, tileSize) + [LineScore(ts, aas, isRow, n - 1, tileSize)]
  }

  /**
   * A line without a live tower scores 0 from towers; with positive hp
   * everywhere, the score is never negative and is positive exactly when a
   * live tower stands on the line.
   */
  lemma {:induction false} TowerScoreCounts(ts: seq<Tower>, isRow: bool, line: int, tileSize: int)
    requires tileSize > 0
    ensures (forall k | 0 <= k < |ts| :: !TowerOn(ts[k], isRow, line, tileSize)) ==> TowerScore(ts, isRow, line, tileSize) == 0
    ensures (forall k | 0 <= k < |ts| :: ts[k].maxHp > 0) ==>
      && TowerScore(ts, isRow, line, tileSize) >= 0
      && (TowerScore(ts, isRow, line, tileSize) > 0 <==> exists k | 0 <= k < |ts| :: TowerOn(ts[k], isRow, line, tileSize))
  {
    if ts != [] {
      var init := ts[..|ts| - 1];
      assert forall k | 0 <= k < |init| :: init[k] == ts[k];
      TowerScoreCounts(init, isRow, line, tileSize);
    }
  }

  /** The same for the AA defenses. */
  lemma {:induction false} AAScoreCounts(aas: seq<AADefense>, isRow: bool, line: int, tileSize: int)
    requires tileSize > 0
    ensures (forall k | 0 <= k < |aas| :: !AAOn(aas[k], isRow, line, tileSize)) ==> AAScore(aas, isRow, line, tileSize) == 0
    ensures (forall k | 0 <= k < |aas| :: aas[k].maxHp > 0) ==>
      && AAScore(aas, isRow, line, tileSize) >= 0
      && (AAScore(aas, isRow, line, tileSize) > 0 <==> exists k | 0 <= k < |aas| :: AAOn(aas[k], isRow, line, tileSize))
  {
    if aas != [] {
      var init := aas[..|aas| - 1];
      assert forall k | 0 <= k < |init| :: init[k] == aas[k];
      AAScoreCounts(init, isRow, line, tileSize);
    }
  }

  /**
   * A line scores only through the live defenses on it: without one the
   * score is 0, and when every defense has positive hp the score is positive
   * exactly when one stands there.
   */
  lemma LineScoreMeansDefenders(ts: seq<Tower>, aas: seq<AADefense>, isRow: bool, line: int, tileSize: int)
    requires tileSize > 0
    ensures var occupied := (exists k | 0 <= k < |ts| :: TowerOn(ts[k], isRow, line, tileSize))
                         || (exists k | 0 <= k < |aas| :: AAOn(aas[k], isRow, line, tileSize));
      && (!occupied ==> LineScore(ts, aas, isRow, line, tileSize) == 0)
      && ((forall k | 0 <= k < |ts| :: ts[k].maxHp > 0) && (forall k | 0 <= k < |aas| :: aas[k].maxHp > 0) ==>
            (LineScore(ts, aas, isRow, line, tileSize) > 0 <==> occupied))
  {
    TowerScoreCounts(ts, isRow, line, tileSize);
    AAScoreCounts(aas, isRow, line, tileSize);
  }

  // ---------------------------------------------------------------------
  // Choosing the line
  // ---------------------------------------------------------------------

  /**
   * `calculateOptimalStrike`: one running best from 0 over the rows and then
   * the columns, replaced only by a strictly higher score.
   */
  function BestStrike(rowScores: seq<int>, colScores: seq<int>): Option<StrikeTarget>
  {
    var rowPick := MaxScan(AllTrue(|rowScores|), AsReals(rowScores), 0.0, |rowScores|);
    var colPick := MaxScan(AllTrue(|colScores|), AsReals(colScores), rowPick.best, |colScores|);
    if colPick.index.Some? then Some(StrikeTarget(Column, colPick.index.value))
    else if rowPick.index.Some? then Some(StrikeTarget(Row, rowPick.index.value))
    else None
  }

  /**
   * The chosen line has the highest positive score; among lines of that
   * score the first row wins, and a column only when it beats every row.
   * Nothing is chosen exactly when no line scores above 0.
   */
  lemma BestStrikeIsFirstMaximum(rowScores: seq<int>, colScores: seq<int>)
    ensures var r := BestStrike(rowScores, colScores);
      && (r.None? <==> (forall i | 0 <= i < |rowScores| :: rowScores[i] <= 0) && (forall j | 0 <= j < |colScores| :: colScores[j] <= 0))
      && (r.Some? && r.value.kind == Row ==>
            var i := r.value.index;
            && 0 <= i < |rowScores| && rowScores[i] > 0
            && (forall k | 0 <= k < |rowScores| :: rowScores[k] <= rowScores[i])
            && (forall k | 0 <= k < i :: rowScores[k] < rowScores[i])
            && (forall j | 0 <= j < |colScores| :: colScores[j] <= rowScores[i]))
      && (r.Some? && r.value.kind == Column ==>
            var j := r.value.index;
            && 0 <= j < |colScores| && colScores[j] > 0
            && (forall i | 0 <= i < |rowScores| :: rowScores[i] < colScores[j])
            && (forall k | 0 <= k < |colScores| :: colScores[k] <= colScores[j])
            && (forall k | 0 <= k < j :: colScores[k] < colScores[j]))
  {
    var rowPick := MaxScan(AllTrue(|rowScores|), AsReals(rowScores), 0.0, |rowScores|);
    MaxScanIsFirstMaximum(AllTrue(|rowScores|), AsReals(rowScores), 0.0, |rowScores|);
    MaxScanIsFirstMaximum(AllTrue(|colScores|), AsReals(colScores), rowPick.best, |colScores|);
  }

  /** A chosen line always holds a live defense. */
  lemma ChosenLineIsDefended(ts: seq<Tower>, aas: seq<AADefense>, rows: nat, cols: nat, tileSize: int)
    requires tileSize > 0
    ensures var r := BestStrike(Scores(ts, aas, true, rows, tileSize), Scores(ts, aas, false, cols, tileSize));
      r.Some? ==>
        var isRow := r.value.kind == Row;
        (exists k | 0 <= k < |ts| :: TowerOn(ts[k], isRow, r.value.index, tileSize))
        || (exists k | 0 <= k < |aas| :: AAOn(aas[k], isRow, r.value.index, tileSize))
  {
    var rs, cs := Scores(ts, aas, true, rows, tileSize), Scores(ts, aas, false, cols, tileSize);
    BestStrikeIsFirstMaximum(rs, cs);
    var r := BestStrike(rs, cs);
    if r.Some? {
      LineScoreMeansDefenders(ts, aas, r.value.kind == Row, r.value.index, tileSize);
    }
  }

  // ---------------------------------------------------------------------
  // Calling strikes
  // ---------------------------------------------------------------------

  /** An aircraft that calls a strike now: alive, not yet triggered, and halfway along its path. */
  predicate Ready(e: Enemy)
    reads e`alive, e`hasTriggeredStrike, e`pathProgress
  {
    e.kind == Aircraft && e.alive && !e.hasTriggeredStrike && e.pathProgress >= TRIGGER_PROGRESS
  }

  function ReadySet(es: seq<Enemy>): set<Enemy>
    reads es`alive, es`hasTriggeredStrike, es`pathProgress
  {
    set e | e in es && Ready(e)
  }

  /** One more enemy in the scan: it joins the fired set exactly when it is ready and has not fired yet. */
  lemma FiredStep(ready: set<Enemy>, fired: set<Enemy>, next: set<Enemy>, es: seq<Enemy>, i: nat, fires: bool)
    requires i < |es| && fired == ready * EnemySet(es[..i])
    requires fires <==> es[i] in ready && es[i] !in fired
    requires next == if fires then fired + {es[i]} else fired
    ensures next == ready * EnemySet(es[..i + 1]) && |next| == |fired| + (if fires then 1 else 0)
  {
    assert es[..i + 1] == es[..i] + [es[i]];
    assert EnemySet(es[..i + 1]) == EnemySet(es[..i]) + {es[i]};
  }

  /** The strike `triggerOptimalStrike` queues for a target: none without one. */
  function Called(target: Option<StrikeTarget>): seq<PendingStrike>
  {
    if target.None? then [] else [PendingStrike(target.value.kind, target.value.index, WARNING_TIME, STRIKE_BASE_DAMAGE)]
  }

  /** The strikes that `n` calls for the same target queue. */
  function Queued(target: Option<StrikeTarget>, n: nat): (r: seq<PendingStrike>)
    ensures target.None? ==> r == []
    ensures target.Some? ==> |r| == n
  {
    if n == 0 then [] else Queued(target, n - 1) + Called(target)
  }

  /** Calling once more appends one more call to the queue. */
  lemma QueuedOneMore(before: seq<PendingStrike>, target: Option<StrikeTarget>, n: nat)
    ensures before + Queued(target, n) + Called(target) == before + Queued(target, n + 1)
  {
  }

  /** Called strikes target the chosen line, with the 1 s warning and 50 damage. */
  lemma {:induction false} QueuedStrikes(target: Option<StrikeTarget>, n: nat)
    ensures forall k | 0 <= k < |Queued(target, n)| ::
      Queued(target, n)[k] == PendingStrike(target.value.kind, target.value.index, WARNING_TIME, STRIKE_BASE_DAMAGE)
  {
    if n > 0 {
      QueuedStrikes(target, n - 1);
    }
  }

  /** An aircraft that satisfies its class invariant never calls a strike: its path progress stays 0. */
  lemma ValidAircraftNeverReady(es: seq<Enemy>)
    requires forall e | e in es :: e.Valid()
    ensures ReadySet(es) == {}
  {
    forall e | e in es
      ensures !Ready(e)
    {
      assert e.Valid();
    }
  }

  // ---------------------------------------------------------------------
  // Counting down
  // ---------------------------------------------------------------------

  /** The strikes still pending after `dt`: each has `dt` less warning, and those at or below 0 are gone. */
  function Countdown(p: seq<PendingStrike>, dt: real): (r: seq<PendingStrike>)
    ensures |r| <= |p|
    ensures forall k | 0 <= k < |r| :: r[k].warningTime > 0.0
  {
    if p == [] then []
    else
      var s := p[|p| - 1];
      Countdown(p[..|p| - 1], dt) + (if s.warningTime - dt <= 0.0 then [] else [s.(warningTime := s.warningTime - dt)])
  }

  /** The strikes that go off after `dt`, in list order. */
  function Due(p: seq<PendingStrike>, dt: real): (r: seq<PendingStrike>)
    ensures forall k | 0 <= k < |r| :: r[k].warningTime - dt <= 0.0
  {
    if p == [] then []
    else
      var s := p[|p| - 1];
      Due(p[..|p| - 1], dt) + (if s.warningTime - dt <= 0.0 then [s] else [])
  }

  /** One more pending strike either joins the due ones or stays, counted down. */
  lemma CountdownStep(p: seq<PendingStrike>, s: PendingStrike, dt: real)
    ensures Due(p + [s], dt) == if s.warningTime - dt <= 0.0 then Due(p, dt) + [s] else Due(p, dt)
    ensures Countdown(p + [s], dt) == if s.warningTime - dt <= 0.0 then Countdown(p, dt) else Countdown(p, dt) + [s.(warningTime := s.warningTime - dt)]
  {
    assert (p + [s])[..|p|] == p;
  }

  /** Every pending strike either goes off or stays, not both. */
  lemma {:induction false} DueOrKept(p: seq<PendingStrike>, dt: real)
    ensures |Due(p, dt)| + |Countdown(p, dt)| == |p|
  {
    if p != [] {
      DueOrKept(p[..|p| - 1], dt);
    }
  }

  /** The time that passes over the updates `dts`. */
  function Elapsed(dts: seq<real>): real
  {
    if dts == [] then 0.0 else dts[0] + Elapsed(dts[1..])
  }

  /** How many strikes go off over the updates `dts`. */
  function Executions(p: seq<PendingStrike>, dts: seq<real>): nat
    decreases |dts|
  {
    if dts == [] then 0 else |Due(p, dts[0])| + Executions(Countdown(p, dts[0]), dts[1..])
  }

  lemma {:induction false} NothingPendingNothingExecutes(dts: seq<real>)
    ensures Executions([], dts) == 0
  {
    if dts != [] {
      NothingPendingNothingExecutes(dts[1..]);
    }
  }

  /**
   * A strike goes off at most once, whatever the updates, and it goes off
   * exactly when its warning runs out: at some update the time elapsed so far
   * has reached its warning time.
   */
  lemma {:induction false} ExecutesOnce(s: PendingStrike, dts: seq<real>)
    ensures Executions([s], dts) <= 1
    ensures Executions([s], dts) == 1 <==> Expires(s.warningTime, dts)
    decreases |dts|
  {
    if dts != [] {
      var d := dts[0];
      assert [s][..0] == [];
      if s.warningTime - d <= 0.0 {
        assert Countdown([s], d) == [] && Due([s], d) == [s];
        NothingPendingNothingExecutes(dts[1..]);
        ExpiresAtFirst(s.warningTime, dts);
      } else {
        var s' := s.(warningTime := s.warningTime - d);
        assert Countdown([s], d) == [s'] && Due([s], d) == [];
        ExecutesOnce(s', dts[1..]);
        ExpiresLater(s.warningTime, dts);
      }
    }
  }

  /** Some update among `dts` brings the time elapsed so far up to `warning`. */
  predicate Expires(warning: real, dts: seq<real>)
  {
    exists k | 1 <= k <= |dts| :: warning - Elapsed(dts[..k]) <= 0.0
  }

  lemma ExpiresAtFirst(warning: real, dts: seq<real>)
    requires dts != [] && warning - dts[0] <= 0.0
    ensures Expires(warning, dts)
  {
    assert dts[..1][1..] == [];
    assert warning - Elapsed(dts[..1]) <= 0.0;
  }

  /** A warning that outlasts the first update expires later exactly when the rest of the updates use it up. */
  lemma ExpiresLater(warning: real, dts: seq<real>)
    requires dts != [] && warning - dts[0] > 0.0
    ensures Expires(warning, dts) <==> Expires(warning - dts[0], dts[1..])
  {
    var d, rest := dts[0], dts[1..];
    forall k | 1 <= k <= |rest|
      ensures Elapsed(dts[..k + 1]) == d + Elapsed(rest[..k])
    {
      assert dts[..k + 1][1..] == rest[..k];
    }
    if Expires(warning, dts) {
      var k :| 1 <= k <= |dts| && warning - Elapsed(dts[..k]) <= 0.0;
      assert dts[..1][1..] == [];
      assert k > 1;
      assert (warning - d) - Elapsed(rest[..k - 1]) <= 0.0;
    }
    if Expires(warning - d, rest) {
      var k :| 1 <= k <= |rest| && (warning - d) - Elapsed(rest[..k]) <= 0.0;
      assert warning - Elapsed(dts[..k + 1]) <= 0.0;
    }
  }

  // ---------------------------------------------------------------------
  // Landing strikes
  // ---------------------------------------------------------------------

  /** Whether a strike lands on the grid cell (`col`, `row`). */
  predicate Covers(s: PendingStrike, col: int, row: int)
  {
    if s.kind == Row then s.index == row else s.index == col
  }

  /** The hits the strikes deal to a defense at (`col`, `row`) listed `n` times, in order. */
  function Blows(col: int, row: int, strikes: seq<PendingStrike>, n: nat): seq<int>
  {
    if strikes == [] then []
    else
      var s := strikes[|strikes| - 1];
      Blows(col, row, strikes[..|strikes| - 1], n) + (if Covers(s, col, row) then Copies(s.damage, n) else [])
  }

  /** `n` copies of `x`. */
  function Copies(x: int, n: nat): (r: seq<int>)
    ensures |r| == n
  {
    if n == 0 then [] else Copies(x, n - 1) + [x]
  }

  lemma {:induction false} AfterHitsRepeated(h: Health, blows: seq<int>, damage: int, n: nat)
    ensures AfterHits(h, blows + Copies(damage, n)) == Repeated(AfterHits(h, blows), damage, n)
  {
    if n > 0 {
      var more := blows + Copies(damage, n);
      assert more[..|more| - 1] == blows + Copies(damage, n - 1) && more[|more| - 1] == damage;
      AfterHitsRepeated(h, blows, damage, n - 1);
    } else {
      assert blows + Copies(damage, 0) == blows;
    }
  }

  /** A tank turret's shells after two hits in a row are its shells after one hit: a dead turret stays dead. */
  lemma AfterLossChains(kind: TowerKind, p: seq<Projectile>, a0: bool, a1: bool, a2: bool)
    requires (a1 ==> a0) && (a2 ==> a1)
    ensures AfterLoss(kind, AfterLoss(kind, p, a0, a1), a1, a2) == AfterLoss(kind, p, a0, a2)
  {
  }

  /**
   * Against the marks taken before, every listed tower and AA defense took
   * each hit of the strikes that cover its cell, once per listing, and a tank
   * turret that died lost its shells.
   */
  ghost predicate Battered(before: map<Tower, TowerMark>, beforeAA: map<AADefense, Health>, strikes: seq<PendingStrike>,
                           ts: seq<Tower>, aas: seq<AADefense>, tileSize: int)
    requires tileSize > 0
    reads ts`x, ts`y, ts`hp, ts`alive, ts`projectiles
    reads aas`x, aas`y, aas`hp, aas`alive
  {
    TowersBattered(before, strikes, ts, tileSize) && AABattered(beforeAA, strikes, aas, tileSize)
  }

  ghost predicate TowersBattered(before: map<Tower, TowerMark>, strikes: seq<PendingStrike>, ts: seq<Tower>, tileSize: int)
    requires tileSize > 0
    reads ts`x, ts`y, ts`hp, ts`alive, ts`projectiles
  {
    forall t | t in ts ::
      && t in before
      && t.HealthOf() == AfterHits(before[t].health, Blows(LineOf(t.x, tileSize), LineOf(t.y, tileSize), strikes, Occurrences(ts, t)))
      && t.projectiles == AfterLoss(t.kind, before[t].shells, before[t].health.alive, t.alive)
  }

  ghost predicate AABattered(before: map<AADefense, Health>, strikes: seq<PendingStrike>, aas: seq<AADefense>, tileSize: int)
    requires tileSize > 0
    reads aas`x, aas`y, aas`hp, aas`alive
  {
    forall a | a in aas ::
      && a in before
      && a.HealthOf() == AfterHits(before[a], Blows(LineOf(a.x, tileSize), LineOf(a.y, tileSize), strikes, Occurrences(aas, a)))
  }

  // ---------------------------------------------------------------------
  // The system
  // ---------------------------------------------------------------------

  class AircraftStrikeSystem {
    const rows: nat
    const cols: nat
    const tileSize: int
    var pendingStrikes: seq<PendingStrike>

    ghost predicate Valid()
    {
      tileSize > 0
    }

    /** A system for a grid of `rows` by `cols` tiles of `tileSize` pixels, with nothing queued. */
    constructor (rows: nat, cols: nat, tileSize: int)
      requires tileSize > 0
      ensures Valid() && this.rows == rows && this.cols == cols && this.tileSize == tileSize && pendingStrikes == []
    {
      this.rows, this.cols, this.tileSize := rows, cols, tileSize;
      pendingStrikes := [];
    }

    /** The line `calculateOptimalStrike` picks for the current defenses. */
    function Choice(towers: seq<Tower>, aas: seq<AADefense>): Option<StrikeTarget>
      requires Valid()
      reads towers`x, towers`y, towers`alive, aas`x, aas`y, aas`alive
    {
      BestStrike(Scores(towers, aas, true, rows, tileSize), Scores(towers, aas, false, cols, tileSize))
    }

    /**
     * `update`: aircraft that are ready call their strikes, then every
     * pending strike, the new ones included, counts down and the due ones land.
     */
    method Update(dt: real, enemies: seq<Enemy>, towers: seq<Tower>, aas: seq<AADefense>)
      requires Valid()
      modifies this`pendingStrikes, enemies`hasTriggeredStrike
      modifies towers`hp, towers`alive, towers`projectiles, aas`hp, aas`alive
      ensures var queue := old(pendingStrikes) + Queued(old(Choice(towers, aas)), |old(ReadySet(enemies))|);
        && pendingStrikes == Countdown(queue, dt)
        && Battered(old(TowerMarks(towers)), old(AAHealths(aas)), Due(queue, dt), towers, aas, tileSize)
      ensures forall e | e in enemies :: e.hasTriggeredStrike == (old(e.hasTriggeredStrike) || e in old(ReadySet(enemies)))
    {
      ghost var marks, healths := TowerMarks(towers), AAHealths(aas);
      CheckForAircraftStrikes(enemies, towers, aas);
      assert TowerMarks(towers) == marks && AAHealths(aas) == healths;
      UpdatePendingStrikes(dt, towers, aas);
    }

    /**
     * `checkForAircraftStrikes`: each ready aircraft calls a strike on the
     * best line and is marked as having struck, so it calls at most one.
     */
    method CheckForAircraftStrikes(enemies: seq<Enemy>, towers: seq<Tower>, aas: seq<AADefense>)
      requires Valid()
      modifies this`pendingStrikes, enemies`hasTriggeredStrike
      ensures pendingStrikes == old(pendingStrikes) + Queued(Choice(towers, aas), |old(ReadySet(enemies))|)
      ensures forall e | e in enemies :: e.hasTriggeredStrike == (old(e.hasTriggeredStrike) || e in old(ReadySet(enemies)))
    {
      ghost var ready, choice := ReadySet(enemies), Choice(towers, aas);
      ghost var fired: set<Enemy> := {};
      ghost var before := map e | e in enemies :: e.hasTriggeredStrike;
      ghost var count, pending0 := 0, pendingStrikes;
      var i := 0;
      while i < |enemies|
        invariant 0 <= i <= |enemies|
        invariant fired == ready * EnemySet(enemies[..i])
        invariant forall e | e in enemies :: e.hasTriggeredStrike == (before[e] || e in fired)
        invariant choice == Choice(towers, aas)
        invariant |fired| == count
        invariant pendingStrikes == pending0 + Queued(choice, count)
      {
        var e := enemies[i];
        ghost var fires := e in ready && e !in fired;
        assert fires == Ready(e) by {
          assert e in ready <==> old(Ready(e));
          assert e.hasTriggeredStrike == (before[e] || e in fired);
          assert before[e] == old(e.hasTriggeredStrike);
        }
        ghost var next := if fires then fired + {e} else fired;
        FiredStep(ready, fired, next, enemies, i, fires);
        CheckAircraft(e, towers, aas, choice, fires, enemies, before, fired, next);
        if fires {
          QueuedOneMore(pending0, choice, count);
        }
        fired, count := next, if fires then count + 1 else count;
        i := i + 1;
        assert fired == ready * EnemySet(enemies[..i]);
      }
      assert enemies[..i] == enemies;
      assert fired == ready;
    }

    /** The body of the `checkForAircraftStrikes` loop, for one enemy. */
    method CheckAircraft(e: Enemy, towers: seq<Tower>, aas: seq<AADefense>, ghost choice: Option<StrikeTarget>, ghost fires: bool,
                         ghost es: seq<Enemy>, ghost before: map<Enemy, bool>, ghost fired: set<Enemy>, ghost next: set<Enemy>)
      requires Valid() && choice == Choice(towers, aas) && fires == Ready(e)
      requires forall x | x in es :: x in before && x.hasTriggeredStrike == (before[x] || x in fired)
      requires next == if fires then fired + {e} else fired
      modifies this`pendingStrikes, e`hasTriggeredStrike
      ensures choice == Choice(towers, aas)
      ensures pendingStrikes == old(pendingStrikes) + if fires then Called(choice) else []
      ensures e.hasTriggeredStrike == (old(e.hasTriggeredStrike) || fires)
      ensures forall x | x in es :: x.hasTriggeredStrike == (before[x] || x in next)
    {
      if e.kind == Aircraft && e.alive && !e.hasTriggeredStrike && e.pathProgress >= TRIGGER_PROGRESS {
        TriggerOptimalStrike(towers, aas);
        e.SetTriggeredStrike(true);
      }
    }

    /** `triggerOptimalStrike`: queue a strike on the best line, if there is one. */
    method TriggerOptimalStrike(towers: seq<Tower>, aas: seq<AADefense>)
      requires Valid()
      modifies this`pendingStrikes
      ensures pendingStrikes == old(pendingStrikes) + Called(Choice(towers, aas))
    {
      var best := CalculateOptimalStrike(towers, aas);
      if best.Some? {
        pendingStrikes := pendingStrikes + [PendingStrike(best.value.kind, best.value.index, WARNING_TIME, STRIKE_BASE_DAMAGE)];
      }
    }

    /** `calculateOptimalStrike`: every row, then every column, is scored and the first strictly best one is kept. */
    method CalculateOptimalStrike(towers: seq<Tower>, aas: seq<AADefense>) returns (best: Option<StrikeTarget>)
      requires Valid()
      ensures best == Choice(towers, aas)
    {
      var bestScore;
      bestScore, best := ScanLines(true, rows, towers, aas, 0.0, None);
      bestScore, best := ScanLines(false, cols, towers, aas, bestScore, best);
    }

    /**
     * One of the two scans of `calculateOptimalStrike`: lines 0 to `n - 1`
     * of one direction, each replacing the running best only with a
     * strictly higher score.
     */
    method ScanLines(isRow: bool, n: nat, towers: seq<Tower>, aas: seq<AADefense>, score0: real, best0: Option<StrikeTarget>)
      returns (bestScore: real, best: Option<StrikeTarget>)
      requires Valid()
      ensures var p := MaxScan(AllTrue(n), AsReals(Scores(towers, aas, isRow, n, tileSize)), score0, n);
        && bestScore == p.best
        && best == if p.index.Some? then Some(StrikeTarget(if isRow then Row else Column, p.index.value)) else best0
    {
      ghost var key, eligible := AsReals(Scores(towers, aas, isRow, n, tileSize)), AllTrue(n);
      bestScore, best := score0, best0;
      var line := 0;
      while line < n
        invariant 0 <= line <= n
        invariant var p := MaxScan(eligible, key, score0, line);
          bestScore == p.best && best == if p.index.Some? then Some(StrikeTarget(if isRow then Row else Column, p.index.value)) else best0
      {
        var score := StrikeValue(isRow, line, towers, aas);
        ghost var before := MaxScan(eligible, key, score0, line);
        assert key[line] == score as real && eligible[line];
        assert MaxScan(eligible, key, score0, line + 1) == if score as real > before.best then Pick(score as real, Some(line)) else before;
        if score as real > bestScore {
          bestScore := score as real;
          best := Some(StrikeTarget(if isRow then Row else Column, line));
        }
        line := line + 1;
      }
    }

    /**
     * `calculateRowStrikeValue` (`isRow`) and `calculateColumnStrikeValue`:
     * twice the full hp of each live tower and three times that of each live
     * AA defense whose grid cell is on the line.
     */
    method StrikeValue(isRow: bool, line: int, towers: seq<Tower>, aas: seq<AADefense>) returns (score: int)
      requires Valid()
      ensures score == LineScore(towers, aas, isRow, line, tileSize)
    {
      score := 0;
      var i := 0;
      while i < |towers|
        invariant 0 <= i <= |towers|
        invariant score == TowerScore(towers[..i], isRow, line, tileSize)
      {
        var t := towers[i];
        assert towers[..i + 1][..i] == towers[..i];
        if t.alive && LineOf(if isRow then t.y else t.x, tileSize) == line {
          score := score + t.maxHp * 2;
        }
        i := i + 1;
      }
      assert towers[..i] == towers;
      var towerScore := score;
      var k := 0;
      while k < |aas|
        invariant 0 <= k <= |aas|
        invariant score == towerScore + AAScore(aas[..k], isRow, line, tileSize)
      {
        var a := aas[k];
        assert aas[..k + 1][..k] == aas[..k];
        if a.alive && LineOf(if isRow then a.y else a.x, tileSize) == line {
          score := score + a.maxHp * 3;
        }
        k := k + 1;
      }
      assert aas[..k] == aas;
    }

    /**
     * `updatePendingStrikes`: in list order, each strike has `dt` taken off
     * its warning; one at or below 0 lands and is removed.
     */
    method UpdatePendingStrikes(dt: real, towers: seq<Tower>, aas: seq<AADefense>)
      requires Valid()
      modifies this`pendingStrikes
      modifies towers`hp, towers`alive, towers`projectiles, aas`hp, aas`alive
      ensures pendingStrikes == Countdown(old(pendingStrikes), dt)
      ensures Battered(old(TowerMarks(towers)), old(AAHealths(aas)), Due(old(pendingStrikes), dt), towers, aas, tileSize)
    {
      ghost var marks, healths := TowerMarks(towers), AAHealths(aas);
      var queue := pendingStrikes;
      var kept := [];
      var i := 0;
      Unbattered(marks, healths, towers, aas);
      while i < |queue|
        invariant 0 <= i <= |queue|
        invariant kept == Countdown(queue[..i], dt)
        invariant Battered(marks, healths, Due(queue[..i], dt), towers, aas, tileSize)
      {
        var s := queue[i];
        ghost var done := Due(queue[..i], dt);
        assert queue[..i + 1] == queue[..i] + [s];
        CountdownStep(queue[..i], s, dt);
        var left := s.warningTime - dt;
        if left <= 0.0 {
          ExecuteStrike(s, marks, healths, done, towers, aas);
          assert Due(queue[..i + 1], dt) == done + [s];
        } else {
          kept := kept + [s.(warningTime := left)];
          assert Due(queue[..i + 1], dt) == done;
        }
        i := i + 1;
      }
      assert queue[..i] == queue;
      pendingStrikes := kept;
    }

    /** Before any strike lands, every defense stands as marked. */
    lemma Unbattered(marks: map<Tower, TowerMark>, healths: map<AADefense, Health>, towers: seq<Tower>, aas: seq<AADefense>)
      requires Valid() && marks == TowerMarks(towers) && healths == AAHealths(aas)
      ensures Battered(marks, healths, [], towers, aas, tileSize)
    {
    }

    /**
     * `executeStrike`: a row strike (`executeRowStrike`) damages the live
     * defenses whose grid row is the strike's index, a column strike those
     * whose column is; the grid cell of `worldToGrid` is the `LineOf` of each
     * coordinate, so the loops are the aircraft's own line strike.
     */
    method ExecuteStrike(s: PendingStrike, ghost marks: map<Tower, TowerMark>, ghost healths: map<AADefense, Health>,
                         ghost done: seq<PendingStrike>, towers: seq<Tower>, aas: seq<AADefense>)
      requires Valid() && Battered(marks, healths, done, towers, aas, tileSize)
      modifies towers`hp, towers`alive, towers`projectiles, aas`hp, aas`alive
      ensures Battered(marks, healths, done + [s], towers, aas, tileSize)
    {
      HitTowers(s, marks, done, towers);
      HitAA(s, healths, done, aas);
    }

    /** The tower loop of `executeRowStrike` / `executeColumnStrike`. */
    method HitTowers(s: PendingStrike, ghost marks: map<Tower, TowerMark>, ghost done: seq<PendingStrike>, towers: seq<Tower>)
      requires Valid() && TowersBattered(marks, done, towers, tileSize)
      modifies towers`hp, towers`alive, towers`projectiles
      ensures TowersBattered(marks, done + [s], towers, tileSize)
    {
      Enemy.StrikeTowers(s.kind == Row, s.index, s.damage, towers, tileSize);
      forall t | t in towers
        ensures t.HealthOf() == AfterHits(marks[t].health, Blows(LineOf(t.x, tileSize), LineOf(t.y, tileSize), done + [s], Occurrences(towers, t)))
        ensures t.projectiles == AfterLoss(t.kind, marks[t].shells, marks[t].health.alive, t.alive)
      {
        var col, row, n := LineOf(t.x, tileSize), LineOf(t.y, tileSize), Occurrences(towers, t);
        var blows := Blows(col, row, done, n);
        assert (done + [s])[..|done|] == done;
        assert old(t.HealthOf()) == AfterHits(marks[t].health, blows);
        if Covers(s, col, row) {
          assert t in old(TowersOnLine(towers, s.kind == Row, s.index, tileSize));
          assert Blows(col, row, done + [s], n) == blows + Copies(s.damage, n);
          AfterHitsRepeated(marks[t].health, blows, s.damage, n);
        } else {
          assert t !in old(TowersOnLine(towers, s.kind == Row, s.index, tileSize));
          assert Blows(col, row, done + [s], n) == blows + [];
          assert blows + [] == blows;
        }
        DiesAtMostOnce(marks[t].health, blows);
        if !old(t.alive) {
          RepeatedKeepsDead(old(t.HealthOf()), s.damage, n);
        }
        AfterLossChains(t.kind, marks[t].shells, marks[t].health.alive, old(t.alive), t.alive);
      }
    }

    /** The AA loop of `executeRowStrike` / `executeColumnStrike`. */
    method HitAA(s: PendingStrike, ghost healths: map<AADefense, Health>, ghost done: seq<PendingStrike>, aas: seq<AADefense>)
      requires Valid() && AABattered(healths, done, aas, tileSize)
      modifies aas`hp, aas`alive
      ensures AABattered(healths, done + [s], aas, tileSize)
    {
      Enemy.StrikeAA(s.kind == Row, s.index, s.damage, aas, tileSize);
      forall a | a in aas
        ensures a.HealthOf() == AfterHits(healths[a], Blows(LineOf(a.x, tileSize), LineOf(a.y, tileSize), done + [s], Occurrences(aas, a)))
      {
        var col, row, n := LineOf(a.x, tileSize), LineOf(a.y, tileSize), Occurrences(aas, a);
        var blows := Blows(col, row, done, n);
        assert (done + [s])[..|done|] == done;
        assert old(a.HealthOf()) == AfterHits(healths[a], blows);
        if Covers(s, col, row) {
          assert a in old(AAOnLine(aas, s.kind == Row, s.index, tileSize));
          assert Blows(col, row, done + [s], n) == blows + Copies(s.damage, n);
          AfterHitsRepeated(healths[a], blows, s.damage, n);
        } else {
          assert a !in old(AAOnLine(aas, s.kind == Row, s.index, tileSize));
          assert Blows(col, row, done + [s], n) == blows + [];
          assert blows + [] == blows;
        }
      }
    }
  }
}
