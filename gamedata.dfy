/**
 * The shapes of the game's configuration data that the game-logic systems
 * consume: the wave list and the balance tunables.  Loading them from JSON is
 * not part of this model.  A boxed field the code tests for null is an
 * Option; a boxed field it always unboxes is a plain value.
 */
module GameData {
  import opened Wrappers

  /** One group of a wave: `count` enemies of one type, `gap` seconds apart. */
  datatype EnemySpawn = EnemySpawn(kind: string, count: int, gap: real)

  /** One wave: its start time, its groups in order and the optional chance of an aircraft. */
  datatype Wave = Wave(delay: real, enemies: seq<EnemySpawn>, aircraftChance: Option<real>)

  datatype TowerStats = TowerStats(cost: int, range: real, rpm: int, damage: int, hp: int, spriteIndex: int)

  datatype AAStats = AAStats(cost: int, hitChance: real, range: real, hp: int)

  datatype PlaceableStats = PlaceableStats(cost: int, slowPct: real, durationSec: real, damage: int, radius: real)

  datatype EnemyStats = EnemyStats(hp: int, speed: real, power: int, dpsVsDefenses: Option<int>, spriteIndex: int)

  datatype EnemiesConfig = EnemiesConfig(
    soldier: EnemyStats, soldierFast: EnemyStats, soldierHeavy: EnemyStats,
    tank: EnemyStats, aircraft: EnemyStats)

  /** The balance values the build menu reads. */
  datatype BuildConfig = BuildConfig(
    fast: TowerStats, power: TowerStats, tank: TowerStats,
    aa60: AAStats, aa80: AAStats,
    speedBump: PlaceableStats, bomb: PlaceableStats,
    fastSprite: int, powerSprite: int, tankSprite: int,
    speedBumpSprite: int, bombSprite: int,
    towerShotSpeed: real)
}
