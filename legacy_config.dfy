/**
 * The constants of the older engine's `Config` class.  Integer constants stay
 * integers and double constants are reals; the asset table is not modelled.
 */
module LegacyConfig {
  // Map dimensions
  const TILE_SIZE: int := 64
  const GRID_W: int := 11
  const GRID_H: int := 9
  const MAP_WIDTH: int := GRID_W * TILE_SIZE
  const MAP_HEIGHT: int := GRID_H * TILE_SIZE

  // Economy
  const STARTING_MONEY: int := 100
  const MONEY_TICK_SEC: real := 0.5
  const MONEY_PER_TICK: real := 5.0

  // Fast tower
  const FAST_TOWER_COST: int := 50
  const FAST_TOWER_HP: int := 100
  const FAST_TOWER_RANGE: real := 3.0
  const FAST_TOWER_FIRE_RATE: real := 4.0
  const FAST_TOWER_DAMAGE_SOLDIER: int := 8
  const FAST_TOWER_DAMAGE_TANK: int := 4
  const FAST_TOWER_DAMAGE_PLANE: int := 0

  // Heavy tower
  const HEAVY_TOWER_COST: int := 80
  const HEAVY_TOWER_HP: int := 220
  const HEAVY_TOWER_RANGE: real := 4.0
  const HEAVY_TOWER_FIRE_RATE: real := 1.0
  const HEAVY_TOWER_DAMAGE_SOLDIER: int := 20
  const HEAVY_TOWER_DAMAGE_TANK: int := 12
  const HEAVY_TOWER_DAMAGE_PLANE: int := 0

  // Anti-air
  const AA_CHEAP_COST: int := 90
  const AA_CHEAP_HIT_CHANCE: real := 0.6
  const AA_EXPENSIVE_COST: int := 140
  const AA_EXPENSIVE_HIT_CHANCE: real := 0.8

  // Enemies
  const SOLDIER_HP: int := 40
  const SOLDIER_SPEED: real := 1.0
  const SOLDIER_POWER: int := 1

  const TANK_HP: int := 260
  const TANK_SPEED: real := 0.6
  const TANK_POWER: int := 2
  const TANK_RANGE: real := 3.0
  const TANK_FIRE_RATE: real := 1.0
  const TANK_DAMAGE: int := 12

  const PLANE_SPEED: real := 3.0
  const PLANE_POWER: int := 3

  // Gadgets
  const SPEED_BUMP_COST: int := 25
  const SPEED_BUMP_FACTOR: real := 0.5
  const SPEED_BUMP_LIFETIME_SEC: real := 12.0

  const BOMB_COST: int := 40

  // Rules
  const LEAK_DEFEAT_RATIO: real := 0.10
  const TOTAL_WAVES: int := 6
  const WAVE_HP_SCALING: real := 0.10

  // Difficulty modifiers
  const EASY_HP_BONUS: real := 0.20
  const HARD_HP_MULTIPLIER: real := 1.25

  // Aliases kept by the source for older call sites
  const TOWER_RANGE_FAST: real := FAST_TOWER_RANGE
  const TOWER_RANGE_HEAVY: real := HEAVY_TOWER_RANGE

  // Window: the 704 by 576 pixel map with the HUD strip below, 704 by 676
  const HUD_HEIGHT: int := 100
  const WINDOW_WIDTH: int := MAP_WIDTH
  const WINDOW_HEIGHT: int := MAP_HEIGHT + HUD_HEIGHT

  /** The tile size as a double, as the source's mixed arithmetic uses it. */
  const TILE: real := TILE_SIZE as real
}
