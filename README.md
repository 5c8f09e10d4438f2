# Tower defence game logic, modelled in Dafny

This project models the game-logic layer of a Java tower-defence game. The
repository holds two versions of it.

**The TowerDefenseFX engine (`com.tdgame`)**, which has these parts:

- The rules evaluator decides victory and defeat. It compares the enemy
  power that leaked into the castle against the level's total power.
- The money ledger.
- The wave scheduler spawns enemy groups one at a time.
- The combat system runs every entity once per tick and then clears out the
  dead.
- The aircraft strike system scores every row and column of the map and
  counts down the strikes it queues.
- The actors:
  - soldiers (three variants), tanks and aircraft;
  - fast, power and tank towers;
  - AA defences and projectiles.
- Speed bumps and bombs.
- The grid, with its tiles, build slots, path painting and paths.
- The build menu controller.
- The event bus and the scalar helpers of `Math2D`.

**The older engine (`src/main/java/game`)**, which has these parts:

- `GameLoop`, with its per-frame update, targeting, game-state judgement,
  cleanup and slot-click handlers, and its inner speed bump and bomb.
- The timed spawn list of `WaveManager` and the `ResourceManager` ledger.
- The entity hierarchy: soldiers, tanks, towers, planes and anti-air.
- The targeting strategies, fire behaviours and move behaviours.
- Routes, the map definition, the tile grid, the `Collision` helpers and the
  `Config` constants.

Each source class whose fields the game updates in place is a Dafny `class`.
Its methods carry `modifies` clauses, and their `ensures` state the new state
in terms of specification functions. Lemmas prove what the game promises
about those functions: sticky terminal flags, no overdraft, one spawn per
step, death at most once, first-scanned tie-breaking, round trips between
grid and world coordinates, and exactly-once strikes and explosions. Pure
code (tile flags, damage tables, priority formulas, coordinate conversions)
is functions.

A Java subclass becomes a `kind` field of one Dafny class, and each
overridden hook becomes a branch on that kind. For example, `Actors.Enemy`
covers `Soldier`, `SoldierFast`, `SoldierHeavy`, `Tank` and `Aircraft`. A
member that models several subclasses cites one file in the table below,
and its states cell names the other files and lines it covers.

Several parts of the program are supplied from outside:

- Distances between points, angles and the move along a bearing are
  injected functions: `Distance`, `Bearing` and `Mover`. Range tests that
  compare a distance with a radius are stated on squared distances.
- Random rolls are oracle parameters.
- Publishing an event becomes a returned list of events. The event bus
  models delivery to listeners as an ordered record of invocations.

Module map:

| module | file | Java sources |
|---|---|---|
| `Wrappers`, `Numerics`, `Text` | common.dfy | Java casts, `Math.floor`, `toLowerCase` |
| `Math2D` | math2d.dfy | util/Math2D.java |
| `Events` | events.dfy | core/EventBus.java |
| `GameData` | gamedata.dfy | the data shapes that config/Balance and level data give the systems |
| `Rules` | rules.dfy | model/systems/Rules.java |
| `Economy` | economy.dfy | model/systems/EconomyManager.java |
| `Waves` | waves.dfy | model/systems/WaveManager.java |
| `Vitals`, `Selection`, `Targeting` | vitals.dfy, selection.dfy, targeting.dfy | the value-level rules of the actors (hp, slows, first-strict-maximum scans, priorities) |
| `Actors` | actors.dfy | model/actors/*.java |
| `Placeables` | placeables.dfy | model/placeables/SpeedBump.java, Bomb.java |
| `Combat` | combat.dfy | model/systems/CombatSystem.java |
| `Strikes` | strikes.dfy | model/systems/AircraftStrikeSystem.java |
| `GridPath`, `Grid`, `Pathfinding` | gridpath.dfy, grid.dfy, pathfinding.dfy | model/grid/*.java, model/systems/Pathfinding.java |
| `BuildMenu` | buildmenu.dfy | controller/BuildMenuController.java |
| `LegacyConfig` | legacy_config.dfy | game/Config.java |
| `LegacyMap` | legacy_map.dfy | game/map/Route.java, MapDefinition.java, Grid.java |
| `LegacyEntity`, `LegacyUnits` | legacy_entity.dfy, legacy_units.dfy | game/entity/*.java |
| `LegacyCollision` | legacy_collision.dfy | game/core/Collision.java |
| `LegacyResources` | legacy_resources.dfy | game/core/ResourceManager.java |
| `LegacyWaves` | legacy_waves.dfy | game/core/WaveManager.java |
| `LegacyLoop` | legacy_loop.dfy | game/core/GameLoop.java |

In the module map, the paths of the TowerDefenseFX engine are relative to
`TowerDefenseFX/src/main/java/com/tdgame/`, and those of the older engine to
`src/main/java/`.

## Model

| member | source | states |
|---|---|---|
| Actors.NextProgress | TowerDefenseFX/src/main/java/com/tdgame/model/actors/Enemy.java:116-138 | The new progress lies in [0, 1]; on a path of positive length it is the old progress plus the covered share, clamped; on a path of no length it is the old progress. |
| Actors.Sortied | TowerDefenseFX/src/main/java/com/tdgame/model/actors/Aircraft.java:59-80 | One sortie step strikes only for a flying aircraft not yet triggered, leaves it triggered exactly when it was or strikes now, and never changes whether it is flying; an aircraft neither flying nor triggered is left alone. |
| Actors.StrikesAtMostOnce | TowerDefenseFX/src/main/java/com/tdgame/model/actors/Aircraft.java:50-93 | Over any run of updates the in-flight strike fires at most once, never once the strike was triggered, and a strike leaves the aircraft triggered for good. |
| Actors.FirstTowerWithinIsFirst | TowerDefenseFX/src/main/java/com/tdgame/model/actors/Tank.java:42-50 | The tank's tower scan finds the first tower within reach from the start index, and nothing exactly when none is within reach. |
| Actors.FirstAAWithinIsFirst | TowerDefenseFX/src/main/java/com/tdgame/model/actors/Tank.java:51-59 | The tank's AA scan finds the first AA defense within reach, and nothing exactly when none is within reach. |
| Actors.UnaimedAsTheyStand | TowerDefenseFX/src/main/java/com/tdgame/model/actors/Tank.java:42-60 | A volley with no defense in reach leaves every tower and AA defense as it stands. |
| Actors.Enemy.constructor | TowerDefenseFX/src/main/java/com/tdgame/model/actors/Enemy.java:33-40 | A new enemy of `kind`: full health, alive, at the start of no path, not slowed. An aircraft has 50 hp whatever its stats say; a tank's damage against defenses defaults to 0. Also Soldier.java:12-14: For a soldier (likewise SoldierFast.java:12-14 and SoldierHeavy.java:12-14): hp, speed, power and sprite are the stats' own, at full health and alive. Also Tank.java:24-27: For a tank: the stats' hp, speed, power and sprite, and a damage rate against defences that is 0 when the stat is absent. Also Aircraft.java:35-39: For an aircraft: 50 hp whatever the stats say. |
| Actors.Enemy.SetPath | TowerDefenseFX/src/main/java/com/tdgame/model/actors/Enemy.java:45-55 | `setPath`: a ground enemy takes the path and moves to its start (the first waypoint, or the origin for none); an aircraft ignores paths. Also Aircraft.java:300-302: An aircraft ignores the path it is given: its state is unchanged. |
| Actors.Enemy.SetPosition | TowerDefenseFX/src/main/java/com/tdgame/model/actors/Enemy.java:270-273 | The enemy stands at the given point. |
| Actors.Enemy.UpdateStatusEffects | TowerDefenseFX/src/main/java/com/tdgame/model/actors/Enemy.java:201-210 | `updateStatusEffects`: the slow ticks down and wears off, and the current speed follows the multiplier. |
| Actors.Enemy.ApplySlow | TowerDefenseFX/src/main/java/com/tdgame/model/actors/Enemy.java:231-234 | `applySlow`: the stronger multiplier and the longer duration win. |
| Actors.Enemy.TakeDamage | TowerDefenseFX/src/main/java/com/tdgame/model/actors/Enemy.java:215-226 | `takeDamage`: ignored once dead; hp drops and the enemy dies at 0 or below, with hp held at 0. An aircraft's hook zeroes its hp on any hit and starts it going down with its strike cancelled. Also Aircraft.java:305-325: An aircraft hit by any damage has 0 hp, starts its fall and will call no strike. |
| Actors.Enemy.MoveAlongPath | TowerDefenseFX/src/main/java/com/tdgame/model/actors/Enemy.java:116-138 | `moveAlongPath`: with a path, the speed follows the slow; on a path of positive length progress advances by the covered share of its length, clamped to [0, 1], and the enemy stands at that point of the path. |
| Actors.Enemy.AttackNearbyDefenses | TowerDefenseFX/src/main/java/com/tdgame/model/actors/Tank.java:42-60 | `attackNearbyDefenses`: the first nearby tower within 2 px and the first nearby AA defense within 2 px each take `(int)(dps · 1.0)` damage. |
| Actors.Enemy.AttackFirstTower | TowerDefenseFX/src/main/java/com/tdgame/model/actors/Tank.java:42-60 | The first loop of `attackNearbyDefenses`: the first tower within reach of `at` takes `damage`. |
| Actors.Enemy.AttackFirstAA | TowerDefenseFX/src/main/java/com/tdgame/model/actors/Tank.java:42-60 | The second loop of `attackNearbyDefenses`: the first AA defense within reach of `at` takes `damage`. |
| Actors.Enemy.UpdateNearbyDefenses | TowerDefenseFX/src/main/java/com/tdgame/model/actors/Tank.java:65-80 | `updateNearbyDefenses`: both lists are cleared and become the ordered sub-lists of the given towers and AA defenses that are alive and within 3 px, each entry as often as it is listed. |
| Actors.Enemy.NearTowers | TowerDefenseFX/src/main/java/com/tdgame/model/actors/Tank.java:69-73 | The tower loop: the live towers within 3 px, in list order. |
| Actors.Enemy.NearAA | TowerDefenseFX/src/main/java/com/tdgame/model/actors/Tank.java:75-79 | The AA loop: the live AA defenses within 3 px, in list order. |
| Actors.NearTowerFlags | TowerDefenseFX/src/main/java/com/tdgame/model/actors/Tank.java:70 | The loop's test, tower by tower: alive and within 3 px of the tank. |
| Actors.NearAAFlags | TowerDefenseFX/src/main/java/com/tdgame/model/actors/Tank.java:76 | The loop's test, defense by defense: alive and within 3 px of the tank. |
| Actors.NearTowersMembers | TowerDefenseFX/src/main/java/com/tdgame/model/actors/Tank.java:65-80 | The nearby towers are exactly the listed live towers within 3 px, and none is listed twice when the given list has no repeats. |
| Actors.NearAAMembers | TowerDefenseFX/src/main/java/com/tdgame/model/actors/Tank.java:65-80 | The nearby AA defenses are exactly the listed live ones within 3 px, and none is listed twice when the given list has no repeats. |
| Actors.Enemy.UpdateOnPath | TowerDefenseFX/src/main/java/com/tdgame/model/actors/Enemy.java:94-111 | `Enemy.update` of a ground enemy: nothing happens unless it is moving; then the slow ticks, it moves, and on reaching progress 1 it is at the end and reports its power to the castle, once. A tank then counts its shot timer down and fires a volley when it runs out. Also Soldier.java:17-36: For a soldier (and its fast and heavy variants) nothing but the walk changes: the cooldown and the defenders are untouched, and reaching the castle publishes exactly one castle-hit event carrying the soldier's power. Also Tank.java:30-37: A tank's cooldown counts down and, at or below 0, it attacks once and the cooldown returns to 1 s. |
| Actors.Enemy.Advance | TowerDefenseFX/src/main/java/com/tdgame/model/actors/Enemy.java:97-110 | The update of a moving ground enemy: it walks, and a tank then fights. |
| Actors.Enemy.Walk | TowerDefenseFX/src/main/java/com/tdgame/model/actors/Enemy.java:97-107 | The moving half of `update` keeps the enemy's invariant and takes the step that `Walked` describes: the slow ticks, the enemy advances along its path at the slowed speed, and reaching the end publishes the castle event. |
| Actors.Enemy.Reload | TowerDefenseFX/src/main/java/com/tdgame/model/actors/Tank.java:30-37 | A tank's shot timer runs down by `dt`; when it runs out the tank fires its volley and reloads. |
| Actors.Enemy.CountDefenders | TowerDefenseFX/src/main/java/com/tdgame/model/actors/Aircraft.java:112-136 | `planStrike`'s row and column counting, into arrays of `rows` and `cols` entries. |
| Actors.Enemy.CountTowerLines | TowerDefenseFX/src/main/java/com/tdgame/model/actors/Aircraft.java:116-125 | The tower loop of the counting: each live tower adds one to its row and to its column, where those exist. |
| Actors.Enemy.CountAALines | TowerDefenseFX/src/main/java/com/tdgame/model/actors/Aircraft.java:127-136 | Each row and column counter grows by exactly the number of live AA defenses standing on that line. |
| Actors.Enemy.BusiestLine | TowerDefenseFX/src/main/java/com/tdgame/model/actors/Aircraft.java:138-156 | `planStrike`'s scan for the busiest line: the first strict maximum above 0, else `fallback`. |
| Actors.Enemy.SetCombatSystem | TowerDefenseFX/src/main/java/com/tdgame/model/actors/Aircraft.java:41-47 | `setCombatSystem` and `planStrike`: the aircraft keeps the grid, counts the live defenders on every row and column, and sets up the flight along the chosen line. |
| Actors.Enemy.TakeLine | TowerDefenseFX/src/main/java/com/tdgame/model/actors/Aircraft.java:159-189 | The flight along the line of `plan` on the grid `c`, with the grid kept. |
| Actors.Enemy.PlanStrike | TowerDefenseFX/src/main/java/com/tdgame/model/actors/Aircraft.java:103-190 | `planStrike`: the live defenders are counted on every row and column, and the busiest line is chosen. |
| Actors.Enemy.ChooseStrike | TowerDefenseFX/src/main/java/com/tdgame/model/actors/Aircraft.java:158-186 | The choice between the busiest row and the busiest column: the row on a tie, the middle row when no line holds a defender. |
| Actors.Enemy.SetTriggeredStrike | TowerDefenseFX/src/main/java/com/tdgame/model/actors/Aircraft.java:371-373 | The strike flag is set to the given value. |
| Actors.Enemy.FlyStraight | TowerDefenseFX/src/main/java/com/tdgame/model/actors/Aircraft.java:195-201 | `updateStraightFlight`: one step of `baseSpeed · 120 · dt` pixels toward the flight's target. |
| Actors.Enemy.StrikeLine | TowerDefenseFX/src/main/java/com/tdgame/model/actors/Aircraft.java:226-297 | `strikeRow` and `strikeColumn`: every live tower and AA defense whose grid line is `line` takes `damage`, once per listing. |
| Actors.Enemy.StrikeTowers | TowerDefenseFX/src/main/java/com/tdgame/model/actors/Aircraft.java:226-259 | Exactly the towers on the struck line take the strike's damage; every other tower is unchanged. |
| Actors.Enemy.StrikeAA | TowerDefenseFX/src/main/java/com/tdgame/model/actors/Aircraft.java:226-259 | Exactly the AA defenses on the struck line take the strike's damage; every other defense is unchanged. |
| Actors.Enemy.UpdateAircraft | TowerDefenseFX/src/main/java/com/tdgame/model/actors/Aircraft.java:50-93 | `Aircraft.update`: an aircraft going down falls for one second and is then gone; a dead one does nothing; a living one flies its sortie, strikes its line once when it has a grid, and leaves the map past the far edge. `ok` is false where the source dereferences the grid it was never given: the update stops there. |
| Actors.Enemy.Fall | TowerDefenseFX/src/main/java/com/tdgame/model/actors/Aircraft.java:330-344 | An aircraft going down falls at `FALL_SPEED` and is gone after `DESTRUCTION_DURATION` seconds. |
| Actors.Enemy.Fly | TowerDefenseFX/src/main/java/com/tdgame/model/actors/Aircraft.java:57-92 | A living aircraft's sortie: it flies toward the strike point, strikes its line once past it when it has a grid, flies on, and leaves the map past the far edge. |
| Actors.Enemy.Approach | TowerDefenseFX/src/main/java/com/tdgame/model/actors/Aircraft.java:59-80 | The first half of a sortie: an untriggered flying aircraft moves one step, and once past the strike point it is triggered; `strikes` says that it got there in this update. |
| Actors.Enemy.Depart | TowerDefenseFX/src/main/java/com/tdgame/model/actors/Aircraft.java:82-92 | The second half of a sortie: a triggered aircraft moves one more step and is gone once off the map; `ok` is false where it has no grid. |
| Actors.Enemy.Update | TowerDefenseFX/src/main/java/com/tdgame/model/actors/Enemy.java:94-111 | `update`, dispatched on the kind: an aircraft flies (never following a path, so it never reaches the castle), every other enemy walks its path. |
| Actors.Projectile.constructor | TowerDefenseFX/src/main/java/com/tdgame/model/actors/Projectile.java:24-33 | A new projectile is launched from the start point at the target with the given speed, damage and sprite, active and not yet hit. |
| Actors.Projectile.Update | TowerDefenseFX/src/main/java/com/tdgame/model/actors/Projectile.java:38-69 | `update`: the shot state machine steps; a projectile in flight tracks a living target, and either hits (jumping to the aim point and damaging the target if it still lives) or moves one step toward the aim point. |
| Actors.Projectile.OnHit | TowerDefenseFX/src/main/java/com/tdgame/model/actors/Projectile.java:74-86 | `onHit`: damages a living target, starts the hit effect and moves to the aim point. |
| Actors.Projectile.Destroy | TowerDefenseFX/src/main/java/com/tdgame/model/actors/Projectile.java:91-93 | The projectile is no longer active; nothing else changes. |
| Actors.Projectile.SpriteIndex | TowerDefenseFX/src/main/java/com/tdgame/model/actors/Projectile.java:98-103 | `getSpriteIndex`: the hit-effect sprite while the effect shows, else its own. |
| Actors.SurvivorsAreKept | TowerDefenseFX/src/main/java/com/tdgame/model/actors/FastTower.java:91-96 | The shots a tower keeps are exactly the listed shots that stay (still active, and for the turret not yet hit), with no shot kept twice. |
| Actors.Tower.Fast | TowerDefenseFX/src/main/java/com/tdgame/model/actors/FastTower.java:26-29 | A new fast tower stands at the origin with full health, fire rate rpm/60, its stats, sprite and projectile speed, and no target, no shots and its cooldown spent. |
| Actors.Tower.Power | TowerDefenseFX/src/main/java/com/tdgame/model/actors/PowerTower.java:16-19 | A new power tower stands at the origin with full health, fire rate rpm/60, its stats, sprite and projectile speed, and no target, no shots and its cooldown spent. |
| Actors.Tower.Turret | TowerDefenseFX/src/main/java/com/tdgame/model/actors/TankTower.java:27-29 | A new tank turret stands at the origin with full health, fire rate rpm/60, the sprite from its stats and no target; its shells fly at 300 px/s. |
| Actors.Tower.IsValidTarget | TowerDefenseFX/src/main/java/com/tdgame/model/actors/Tower.java:82-85 | `isValidTarget`: alive, not at the castle, and targetable by towers. |
| Actors.Tower.TakeDamage | TowerDefenseFX/src/main/java/com/tdgame/model/actors/Tower.java:104-113 | `takeDamage`: ignored once destroyed; hp drops and the tower is destroyed at 0 or below, with hp held at 0. A tank turret's `onDestroyed` clears its shells. Also TankTower.java:116-119: A tank tower that is destroyed loses its fired projectiles. |
| Actors.Tower.SetPosition | TowerDefenseFX/src/main/java/com/tdgame/model/actors/Tower.java:125-128 | The tower stands at the given point. |
| Actors.Tower.AcquireTarget | TowerDefenseFX/src/main/java/com/tdgame/model/actors/Tower.java:58-77 | `acquireTarget`: the scan over all enemies keeps the first valid enemy in range whose priority is strictly highest and above -1. |
| Actors.Tower.Fire | TowerDefenseFX/src/main/java/com/tdgame/model/actors/FastTower.java:76-86 | `fire`: a shot from the tower's position at `target`, added to its list; no shot at null, nor (for the tank turret) at a dead target. The fast tower and the turret start their muzzle flash. Also PowerTower.java:22-28: A power tower firing at a target appends one projectile (sprite 280) and leaves the flash alone; a null target changes nothing. Also TankTower.java:101-113: A tank tower fires only at a live target: one projectile with speed 300 and sprite 274, and the flash set to 0.15 s. |
| Actors.Tower.UpdateRotation | TowerDefenseFX/src/main/java/com/tdgame/model/actors/FastTower.java:50-73 | `updateRotation` (fast tower) and `updateTurretRotation` (tank turret): toward a living target, turn by at most one step of the rotation speed through the shorter way round. |
| Actors.Tower.UpdateProjectiles | TowerDefenseFX/src/main/java/com/tdgame/model/actors/FastTower.java:91-96 | `updateProjectiles`: every shot is updated once and the list keeps, in order, those still active (for the tank turret: also not yet hit). The fast and power towers update front to back, the turret back to front. Also PowerTower.java:33-38: A power tower keeps exactly the projectiles still active after their update, in order. Also TankTower.java:89-98: A tank tower keeps exactly the projectiles still active and not yet on target, in order. |
| Actors.Tower.BackStep | TowerDefenseFX/src/main/java/com/tdgame/model/actors/TankTower.java:90-96 | One pass of the turret's reverse loop at index `i`: the shot there is updated, and removed from `kept` when inactive or when it has hit. |
| Actors.Tower.KeepForward | TowerDefenseFX/src/main/java/com/tdgame/model/actors/FastTower.java:91-96 | The fast and power towers' `removeIf`: each shot is updated in order and kept while active. |
| Actors.Tower.KeepBackward | TowerDefenseFX/src/main/java/com/tdgame/model/actors/TankTower.java:89-98 | The tank turret's reverse index loop: each shot is updated from the back, and removed in place when inactive or when it has hit. |
| Actors.Tower.Update | TowerDefenseFX/src/main/java/com/tdgame/model/actors/Tower.java:38-53 | `update` of each tower kind: nothing when destroyed. Otherwise the fast tower and turret turn toward their target and their flash fades, the turret updates its shells, the cooldown runs down, a missing or invalid target is replaced by the scan's choice, and with a target and the cooldown spent the tower fires and the cooldown restarts at `1 / fireRate`. |
| Actors.Tower.UpdateLive | TowerDefenseFX/src/main/java/com/tdgame/model/actors/TankTower.java:32-49 | A living tower turns toward its target, re-acquires a living target, keeps stepping its shots (a tank tower only), and fires exactly when it has a target and its cooldown has run out, the cooldown then restarting at one over the fire rate. |
| Actors.Tower.Act | TowerDefenseFX/src/main/java/com/tdgame/model/actors/TankTower.java:39-48 | `update` after the turn: the turret's shells, then targeting and firing. |
| Actors.Tower.ServeTurret | TowerDefenseFX/src/main/java/com/tdgame/model/actors/TankTower.java:39-48 | The turret's `update` after the turn: its shells are updated before it targets and fires. |
| Actors.Tower.NextTarget | TowerDefenseFX/src/main/java/com/tdgame/model/actors/Tower.java:43-46 | The target after `update`'s check: `t` while valid, else the scan's choice. |
| Actors.Tower.Retarget | TowerDefenseFX/src/main/java/com/tdgame/model/actors/Tower.java:43-46 | Keeps a valid target, or else takes the scan's choice, which is always valid. |
| Actors.Tower.Engage | TowerDefenseFX/src/main/java/com/tdgame/model/actors/Tower.java:39-52 | The rest of `update` for a living tower: the flash fades (except on the power tower), the cooldown runs down, a missing or invalid target is replaced by the scan's choice, and with a target and the cooldown spent the tower fires and the cooldown restarts at `1 / fireRate`. |
| Actors.AADefense.constructor | TowerDefenseFX/src/main/java/com/tdgame/model/actors/AADefense.java:26-32 | `new AADefense(hitChance, range, hp, spriteIndex)`: configured and at the origin. |
| Actors.AADefense.AcquireTarget | TowerDefenseFX/src/main/java/com/tdgame/model/actors/AADefense.java:57-74 | `acquireTarget`: among the aircraft that are valid and within range·64 px, the first of strictly highest progress above -1. |
| Actors.AADefense.NextTarget | TowerDefenseFX/src/main/java/com/tdgame/model/actors/AADefense.java:42-45 | The target after `update`'s check: `t` while valid, else the scan's choice. |
| Actors.AADefense.Update | TowerDefenseFX/src/main/java/com/tdgame/model/actors/AADefense.java:37-52 | `update`: nothing when destroyed. Otherwise the cooldown runs down, a missing or invalid target is replaced by the scan's choice, and with a target and the cooldown spent the defense fires, the roll `hit` deciding whether the target takes 999, and the cooldown restarts at one second. Only the target can be hurt. |
| Actors.AADefense.Retarget | TowerDefenseFX/src/main/java/com/tdgame/model/actors/AADefense.java:42-45 | Keeps a valid target, or else takes the scan's choice among `enemies`. |
| Actors.AADefense.Shoot | TowerDefenseFX/src/main/java/com/tdgame/model/actors/AADefense.java:47-51 | With a target and the cooldown spent: fire with roll `hit` and restart the cooldown. |
| Actors.AADefense.Fire | TowerDefenseFX/src/main/java/com/tdgame/model/actors/AADefense.java:86-98 | `fire`: with a target, a successful roll `hit` deals it 999 damage; a miss changes nothing. |
| Actors.AADefense.TakeDamage | TowerDefenseFX/src/main/java/com/tdgame/model/actors/AADefense.java:103-112 | `takeDamage`: ignored once destroyed; hp drops and the defense is destroyed at 0 or below, with hp held at 0. |
| Actors.AADefense.SetPosition | TowerDefenseFX/src/main/java/com/tdgame/model/actors/AADefense.java:124-127 | The AA defense stands at the given point. |
| BuildMenu.WithTankSprite | TowerDefenseFX/src/main/java/com/tdgame/controller/BuildMenuController.java:100-108 | The configuration after a tank tower is built: the tank builder writes the tank sprite into the shared tank stats before it builds. |
| BuildMenu.BuildCost | TowerDefenseFX/src/main/java/com/tdgame/controller/BuildMenuController.java:169-179 | `getBuildCost`: the price of an option is the cost field of the very stats its builder builds from, whatever kind of structure it is. |
| BuildMenu.TankSpriteKeepsCosts | TowerDefenseFX/src/main/java/com/tdgame/controller/BuildMenuController.java:100-108 | Writing the tank sprite changes no price, so a tank build leaves every later price as it was. |
| BuildMenu.OptionKinds | TowerDefenseFX/src/main/java/com/tdgame/controller/BuildMenuController.java:40-67 | Every option is exactly one of a tower, an AA defence and a placeable. |
| BuildMenu.BuildMenuController.constructor | TowerDefenseFX/src/main/java/com/tdgame/controller/BuildMenuController.java:31-35 | The controller holds the given configuration, economy and combat system. |
| BuildMenu.BuildMenuController.GetBuildCost | TowerDefenseFX/src/main/java/com/tdgame/controller/BuildMenuController.java:169-179 | The price of an option is the one the current configuration lists for it. |
| BuildMenu.BuildMenuController.CanAffordOption | TowerDefenseFX/src/main/java/com/tdgame/controller/BuildMenuController.java:184-186 | `canAfford(option)`: the economy could pay the option's price, that is a spend of it now would succeed. |
| BuildMenu.BuildMenuController.TryBuild | TowerDefenseFX/src/main/java/com/tdgame/controller/BuildMenuController.java:40-67 | `tryBuild`: fails, changing nothing, on a missing or occupied slot or when the price is not covered. Otherwise it charges the price exactly once, builds exactly one structure of the chosen kind from the chosen stats at the slot's centre, adds it to its combat list and, for a tower or an AA defence, puts it in the slot. On success it passes on the balance notice the spend publishes (`MoneyChanged` with the new balance); on failure there is none. |
| BuildMenu.BuildMenuController.BuildTower | TowerDefenseFX/src/main/java/com/tdgame/controller/BuildMenuController.java:72-81 | `buildFastTower`, `buildPowerTower` and `buildTankTower`: the tower is moved to the slot's centre, put in the slot and added to the combat system. The tank builder first writes the tank sprite into the shared tank stats. |
| BuildMenu.BuildMenuController.BuildAA | TowerDefenseFX/src/main/java/com/tdgame/controller/BuildMenuController.java:113-121 | `buildAA60` and `buildAA80`: the defence is moved to the slot's centre, put in the slot and added. |
| BuildMenu.BuildMenuController.BuildSpeedBumpAt | TowerDefenseFX/src/main/java/com/tdgame/controller/BuildMenuController.java:139-149 | `buildSpeedBump`: a bump at the slot's centre is added; the slot stays free. |
| BuildMenu.BuildMenuController.BuildBombAt | TowerDefenseFX/src/main/java/com/tdgame/controller/BuildMenuController.java:154-164 | `buildBomb`: an armed bomb at the slot's centre is added; the slot stays free. |
| Combat.GatheredAppends | TowerDefenseFX/src/main/java/com/tdgame/model/systems/CombatSystem.java:78-83 | Collecting a tower's projectiles only appends: it adds exactly the ones not already listed, so the shared list stays without repeats. |
| Combat.EnemiesKept | TowerDefenseFX/src/main/java/com/tdgame/model/systems/CombatSystem.java:162 | `removeIf(!alive)` on the enemies leaves exactly the living ones. |
| Combat.TowersKept | TowerDefenseFX/src/main/java/com/tdgame/model/systems/CombatSystem.java:165 | `removeIf(!alive)` on the towers leaves exactly the living ones. |
| Combat.DefensesKept | TowerDefenseFX/src/main/java/com/tdgame/model/systems/CombatSystem.java:168 | `removeIf(!alive)` on the AA defenses leaves exactly the living ones. |
| Combat.BumpsKept | TowerDefenseFX/src/main/java/com/tdgame/model/systems/CombatSystem.java:174 | `removeIf(!active)` on the speed bumps leaves exactly the active ones. |
| Combat.BombsKept | TowerDefenseFX/src/main/java/com/tdgame/model/systems/CombatSystem.java:177 | `removeIf(isExplosionComplete)` on the bombs leaves exactly those whose explosion is still to finish. |
| Combat.KeptInOrder | TowerDefenseFX/src/main/java/com/tdgame/model/systems/CombatSystem.java:160-178 | What `removeIf` leaves of a list: exactly the flagged entries, in their order. |
| Combat.CombatSystem.constructor | TowerDefenseFX/src/main/java/com/tdgame/model/systems/CombatSystem.java:24-32 | A new combat system has six empty lists. |
| Combat.CombatSystem.AddTower | TowerDefenseFX/src/main/java/com/tdgame/model/systems/CombatSystem.java:183-185 | `addTower`: the tower goes at the end of the list; nothing else changes. |
| Combat.CombatSystem.AddAADefense | TowerDefenseFX/src/main/java/com/tdgame/model/systems/CombatSystem.java:190-192 | `addAADefense`: the defense goes at the end of the list; nothing else changes. |
| Combat.CombatSystem.AddEnemy | TowerDefenseFX/src/main/java/com/tdgame/model/systems/CombatSystem.java:197-199 | `addEnemy`: the enemy goes at the end of the list; nothing else changes. |
| Combat.CombatSystem.AddSpeedBump | TowerDefenseFX/src/main/java/com/tdgame/model/systems/CombatSystem.java:204-206 | `addSpeedBump`: the bump goes at the end of the list; nothing else changes. |
| Combat.CombatSystem.AddBomb | TowerDefenseFX/src/main/java/com/tdgame/model/systems/CombatSystem.java:211-213 | `addBomb`: the bomb goes at the end of the list; nothing else changes. |
| Combat.CombatSystem.Update | TowerDefenseFX/src/main/java/com/tdgame/model/systems/CombatSystem.java:34-55 | `update`: the phases in the source's order (enemies, towers, AA defenses, projectiles, placeables; the tank-attack phase is not part of this model), then the cleanup. The system stays valid; every reported castle hit comes from a walking enemy. `!ok` is an error path: it stands for the null-pointer exception an aircraft raises in the enemy phase when it reads the grid it was never given; nothing catches it, so the rest of the tick never runs. After a full tick each list holds, in its old order, only living or active entries (that every living entry is kept is stated on `CleanupDeadEntities`). |
| Combat.CombatSystem.Sweep | TowerDefenseFX/src/main/java/com/tdgame/model/systems/CombatSystem.java:160-178 | The cleanup seen from the tick: each list becomes a subsequence of itself holding only living or active entries. |
| Combat.CombatSystem.Tidy | TowerDefenseFX/src/main/java/com/tdgame/model/systems/CombatSystem.java:160-178 | After the cleanup each list is a subsequence of what it was, of living or active entries only. |
| Combat.CombatSystem.CleanupDeadEntities | TowerDefenseFX/src/main/java/com/tdgame/model/systems/CombatSystem.java:160-178 | `cleanupDeadEntities`: each list keeps, in order, exactly its living enemies, towers and AA defenses, its active projectiles and speed bumps, and the bombs whose explosion has not finished. |
| Combat.CombatSystem.UpdateEnemies | TowerDefenseFX/src/main/java/com/tdgame/model/systems/CombatSystem.java:60-64 | `updateEnemies`: each enemy updates once, in order. In a list without repeats the first `stepped` enemies have moved as `Enemy.Moved` says and the rest are as they were. Every reported event is the castle hit of a walking enemy of the list, at most one per enemy. An aircraft without a strike context stops the phase with `ok` false, the enemies after it not updated (the source dereferences the missing combat system there). |
| Combat.CombatSystem.EnemiesKeepValid | TowerDefenseFX/src/main/java/com/tdgame/model/systems/CombatSystem.java:60-64 | The enemy phase keeps the system valid: towers lose at most all their shells, and nothing else any invariant reads changes except on the enemies, which stay valid. |
| Combat.CombatSystem.UpdateTowers | TowerDefenseFX/src/main/java/com/tdgame/model/systems/CombatSystem.java:69-102 | `updateTowers`: each living tower updates once, in order, and its projectiles are then appended to the shared list unless already there; destroyed towers are skipped and left as they were. The shared list only grows, stays free of repeats, ends up holding every projectile of every living tower, and gains only the towers' projectiles. In a list without repeats each living tower ends `Reloaded`: holding a target with its cooldown spent, it fired, its last shot aims at that target, its cooldown restarts at `1 / fireRate` and, on the fast tower and turret, its flash lights; otherwise its cooldown ran down by `dt` and its flash faded (a power tower's flash stays as it was). Which target it chose and what its shells hit are stated per tower on `Actors.Tower.Update` (see Left out). |
| Combat.CombatSystem.TowersKeepValid | TowerDefenseFX/src/main/java/com/tdgame/model/systems/CombatSystem.java:69-102 | The tower phase keeps the system valid: its frame grows by the new projectiles, and it changes on the other entities nothing their invariants read. |
| Combat.CombatSystem.UpdateAADefenses | TowerDefenseFX/src/main/java/com/tdgame/model/systems/CombatSystem.java:107-112 | `updateAADefenses`: each living defense updates once, in order, with the roll `hits[i]` for the `i`th. Destroyed ones are skipped and left as they were. In a list without repeats each living one's cooldown is what its one update leaves (`Reloaded`). |
| Combat.CombatSystem.UpdatePlaceables | TowerDefenseFX/src/main/java/com/tdgame/model/systems/CombatSystem.java:126-134 | `updatePlaceables`: the speed bumps update in order, then the bombs. Spent bumps and exploded bombs stay so. Each bump counts down once, and each one still active slows exactly the enemies in play within its reach. Each bomb has `Detonated` (in lists without repeats). |
| Combat.CombatSystem.UpdateSpeedBumps | TowerDefenseFX/src/main/java/com/tdgame/model/systems/CombatSystem.java:127-129 | A spent bump stays spent and untouched. Each active bump slows exactly the enemies in play within its reach. In a list without repeats every bump counts down once. |
| Combat.CombatSystem.UpdateBombs | TowerDefenseFX/src/main/java/com/tdgame/model/systems/CombatSystem.java:131-133 | An exploded bomb stays exploded and no enemy comes back to life. In a list without repeats each bomb has `Detonated`: an exploded one only runs its timer; an armed one goes off only if an enemy was in play within its trigger range when the phase began, and stays armed only if none is when it ends. |
| Combat.CombatSystem.UpdateProjectiles | TowerDefenseFX/src/main/java/com/tdgame/model/systems/CombatSystem.java:117-121 | `updateProjectiles`: every listed projectile takes exactly one step; the list has no repeats, so none is stepped twice. |
| Combat.StepProjectiles | TowerDefenseFX/src/main/java/com/tdgame/model/systems/CombatSystem.java:118-120 | Every listed projectile takes exactly one step of its shot state machine. |
| Combat.StepEnemies | TowerDefenseFX/src/main/java/com/tdgame/model/systems/CombatSystem.java:60-64 | The loop of `updateEnemies` over `es`: it stops after an aircraft that fails. In a list without repeats the first `stepped` enemies have moved as `Enemy.Moved` says and the rest are as they were. Every enemy stays valid with its nearby defenders; towers lose at most all their shells. At most one castle hit per enemy, each from a walking enemy of `es`. |
| Combat.StepDefenses | TowerDefenseFX/src/main/java/com/tdgame/model/systems/CombatSystem.java:108-111 | Updates each living defense of `aas` once, in order, the roll `hits[i]` deciding the `i`th one's shot. Destroyed defenses are skipped and unchanged. Every target is an aircraft of `enemies` or the one held before. In a list without repeats each living defense is `Reloaded` once. |
| Combat.StepBumps | TowerDefenseFX/src/main/java/com/tdgame/model/systems/CombatSystem.java:127-129 | Updates each bump of `bs` once, in order. A spent bump stays spent and untouched, and each one updated and still active slows exactly the enemies in play within its reach. In a list without repeats each bump has counted down once. |
| Combat.StepBombs | TowerDefenseFX/src/main/java/com/tdgame/model/systems/CombatSystem.java:131-133 | Updates each bomb of `bs` once, in order. Every bomb stays valid, one that has exploded stays exploded, and no enemy comes back to life. In a list without repeats each bomb has `Detonated`. |
| Combat.StepTowers | TowerDefenseFX/src/main/java/com/tdgame/model/systems/CombatSystem.java:70-101 | Updates each living tower of `ts` once, in order, and after each one appends to `shared` those of its projectiles not yet there. Destroyed towers are skipped. The result extends `shared`, keeps it free of repeats, holds every projectile of every living tower, and holds no projectile that was not already there, not a tower's, and not new. `shells` and `aims` bound what the towers hold and aim at. In a list without repeats each living tower ends `Reloaded`: holding a target with its cooldown spent, it fired, its last shot aims at that target, its cooldown restarts at `1 / fireRate` and, on the fast tower and turret, its flash lights; otherwise its cooldown ran down by `dt` and its flash faded (a power tower's flash stays as it was). Which target it chose and what its shells hit are stated per tower on `Actors.Tower.Update` (see Left out). |
| Combat.Collect | TowerDefenseFX/src/main/java/com/tdgame/model/systems/CombatSystem.java:79-83 | The collected list starts with the old one, gains exactly the projectiles of `ps`, and stays without repeats. |
| Economy.Spends | TowerDefenseFX/src/main/java/com/tdgame/model/systems/EconomyManager.java:109-125 | The reference definition of a run of spend attempts, one success flag per attempt: each succeeds exactly when the balance the earlier ones left covers it, and then subtracts it. |
| Economy.SpendsLedger | TowerDefenseFX/src/main/java/com/tdgame/model/systems/EconomyManager.java:109-125 | Over any run of spends, the final balance is the initial one minus the amounts of the successful spends. |
| Economy.SpendsNeverOverdraw | TowerDefenseFX/src/main/java/com/tdgame/model/systems/EconomyManager.java:109-125 | With non-negative amounts, a non-negative balance stays non-negative over any run of spends. |
| Economy.UniformSpends | TowerDefenseFX/src/main/java/com/tdgame/model/systems/EconomyManager.java:109-125 | `n` attempts of the same positive amount lower the balance by the amount once per success and never below 0, and they stop succeeding only once the balance is below the amount. |
| Economy.NoSpendBelowAmount | TowerDefenseFX/src/main/java/com/tdgame/model/systems/EconomyManager.java:109-125 | A balance below the amount never changes: every attempt fails. |
| Economy.EconomyManager.constructor | TowerDefenseFX/src/main/java/com/tdgame/model/systems/EconomyManager.java:25-29 | The manager starts with the configured money and income, and not running. |
| Economy.EconomyManager.Start | TowerDefenseFX/src/main/java/com/tdgame/model/systems/EconomyManager.java:34-51 | Starts the income and returns the notification of the current balance; a no-op with no notification when already running. |
| Economy.EconomyManager.Pause | TowerDefenseFX/src/main/java/com/tdgame/model/systems/EconomyManager.java:56-61 | The income stops. |
| Economy.EconomyManager.Resume | TowerDefenseFX/src/main/java/com/tdgame/model/systems/EconomyManager.java:66-70 | Starts the income only when it is not running. |
| Economy.EconomyManager.Stop | TowerDefenseFX/src/main/java/com/tdgame/model/systems/EconomyManager.java:75-88 | The income stops. |
| Economy.EconomyManager.GenerateIncome | TowerDefenseFX/src/main/java/com/tdgame/model/systems/EconomyManager.java:93-102 | One income tick: credits `incomePerSecond` only while running, and then returns the money notification the user interface is sent. |
| Economy.EconomyManager.SpendMoney | TowerDefenseFX/src/main/java/com/tdgame/model/systems/EconomyManager.java:109-125 | Spends `amount` if the balance covers it. The method is one step of `Spends`, so the ledger lemmas above apply to any run of calls. |
| Economy.EconomyManager.AddMoney | TowerDefenseFX/src/main/java/com/tdgame/model/systems/EconomyManager.java:130-137 | Adds `amount` with no sign check and returns the notification. |
| Economy.EconomyManager.CanAfford | TowerDefenseFX/src/main/java/com/tdgame/model/systems/EconomyManager.java:142-144 | `canAfford(cost)` holds exactly when one spend of `cost` would succeed. |
| Events.ListenersAreSubscriptionsSinceLastClear | TowerDefenseFX/src/main/java/com/tdgame/core/EventBus.java:30-60 | The listeners of a type are exactly the subscriptions to it made since the last clear of that type (or of all types), in subscription order, with repeats kept. |
| Events.ListenersAfterStep | TowerDefenseFX/src/main/java/com/tdgame/core/EventBus.java:30-60 | A subscription appends its listener to its own type's list only; clearing a type empties that list only; clearing all empties every list. |
| Events.OtherTypesUnaffected | TowerDefenseFX/src/main/java/com/tdgame/core/EventBus.java:30-60 | Subscribing or clearing under one type never changes another type's listeners. |
| Events.Deliveries | TowerDefenseFX/src/main/java/com/tdgame/core/EventBus.java:39-46 | The invocations one publish performs: every listener of the event's class, in order, once per registration. |
| Events.EventBus.constructor | TowerDefenseFX/src/main/java/com/tdgame/core/EventBus.java:18-22 | The bus starts with no listeners, no deliveries and no history. |
| Events.EventBus.Subscribe | TowerDefenseFX/src/main/java/com/tdgame/core/EventBus.java:30-33 | A listener is appended to its type's list; other types and the deliveries so far are unchanged. |
| Events.EventBus.Publish | TowerDefenseFX/src/main/java/com/tdgame/core/EventBus.java:39-46 | Calls the listeners of the event's own class, in registration order. |
| Events.EventBus.ClearListeners | TowerDefenseFX/src/main/java/com/tdgame/core/EventBus.java:51-53 | The type's list is removed and the others are kept. |
| Events.EventBus.ClearAllListeners | TowerDefenseFX/src/main/java/com/tdgame/core/EventBus.java:58-60 | Every list is removed. |
| Grid.NewTile | TowerDefenseFX/src/main/java/com/tdgame/model/grid/Tile.java:21-28 | A new tile has the given type and sprite. |
| Grid.TileFlags | TowerDefenseFX/src/main/java/com/tdgame/model/grid/Tile.java:38-48 | Every tile the constructor makes is walkable exactly when it is not blocked, buildable exactly when it is ground, and so buildable only if walkable; a path tile is walkable and not buildable. |
| Grid.CellAt | TowerDefenseFX/src/main/java/com/tdgame/model/grid/GridMap.java:157-159 | For non-negative coordinates, the cell is the one whose span of `tileSize` pixels holds the point (truncation toward zero). |
| Grid.CellCentreRoundTrip | TowerDefenseFX/src/main/java/com/tdgame/model/grid/GridMap.java:150-159 | The centre of a cell with non-negative coordinates converts back to that cell. |
| Grid.BuildSlot.constructor | TowerDefenseFX/src/main/java/com/tdgame/model/grid/BuildSlot.java:16-21 | A new slot is free, holds nothing and sits at the centre of its cell. |
| Grid.BuildSlot.PlaceTower | TowerDefenseFX/src/main/java/com/tdgame/model/grid/BuildSlot.java:27-33 | `placeTower`: on a free slot stores the tower, occupies the slot and moves the tower to the slot's centre; on an occupied slot nothing changes. |
| Grid.BuildSlot.PlaceAADefense | TowerDefenseFX/src/main/java/com/tdgame/model/grid/BuildSlot.java:35-41 | `placeAADefense`: the same as `placeTower`, for an AA defence. |
| Grid.FindSlotAt | TowerDefenseFX/src/main/java/com/tdgame/model/grid/GridMap.java:189-220 | The slot found is the first in list order whose centre is within the tolerance, and null exactly when none is. |
| Grid.LastVisit | TowerDefenseFX/src/main/java/com/tdgame/model/grid/GridMap.java:117-145 | The index of the last visit of a cell in a walk, -1 exactly when the cell is never visited. |
| Grid.StepCounts | TowerDefenseFX/src/main/java/com/tdgame/model/grid/GridMap.java:131-143 | After `k` of the `dx + dy` steps the walker has made `a` steps along x and `b` along y, never more than the spans `dx` and `dy`. |
| Grid.WalkShape | TowerDefenseFX/src/main/java/com/tdgame/model/grid/GridMap.java:117-145 | The walk makes exactly `1 + \|dx\| + \|dy\|` visits, starts on `(x1, y1)` and ends on `(x2, y2)`. |
| Grid.WalkStep | TowerDefenseFX/src/main/java/com/tdgame/model/grid/GridMap.java:137-143 | Between one visit and the next the walk moves exactly one cell along one axis, toward the end. |
| Grid.WalkInBox | TowerDefenseFX/src/main/java/com/tdgame/model/grid/GridMap.java:117-145 | Every visited cell lies inside the box spanned by the two ends. |
| Grid.GridMap.constructor | TowerDefenseFX/src/main/java/com/tdgame/model/grid/GridMap.java:27-66 | The map holds the given dimensions, tiles, slot lists, paths and castle position. |
| Grid.GridMap.GridWorldRoundTrip | TowerDefenseFX/src/main/java/com/tdgame/model/grid/GridMap.java:150-159 | `worldToGrid(gridToWorld(c, r)) == (c, r)` for non-negative cells of a positive tile size. |
| Grid.GridMap.GetTile | TowerDefenseFX/src/main/java/com/tdgame/model/grid/GridMap.java:171-176 | `getTile`: the tile at an in-bounds cell, and nothing outside `0 <= col < cols, 0 <= row < rows`. |
| Grid.GridMap.TileAtCentre | TowerDefenseFX/src/main/java/com/tdgame/model/grid/GridMap.java:181-184 | The tile at the world position of a cell's centre is that cell's tile. |
| Grid.GridMap.FindBuildSlotAt | TowerDefenseFX/src/main/java/com/tdgame/model/grid/GridMap.java:189-196 | The build slot found is the first whose centre is within the tolerance, and null exactly when none is. |
| Grid.GridMap.FindSpeedBumpSlotAt | TowerDefenseFX/src/main/java/com/tdgame/model/grid/GridMap.java:201-208 | The speed-bump slot found is the first whose centre is within the tolerance, and null exactly when none is. |
| Grid.GridMap.FindBombSlotAt | TowerDefenseFX/src/main/java/com/tdgame/model/grid/GridMap.java:213-220 | The bomb slot found is the first whose centre is within the tolerance, and null exactly when none is. |
| Grid.GridMap.GetMainPath | TowerDefenseFX/src/main/java/com/tdgame/model/grid/GridMap.java:225-227 | The first path, and none exactly when the map has no paths. |
| Grid.GridMap.FillPathBetween | TowerDefenseFX/src/main/java/com/tdgame/model/grid/GridMap.java:117-145 | `fillPathBetween`: every in-bounds cell the walk from `(x1, y1)` to `(x2, y2)` visits becomes a path tile, and every other cell keeps its tile. The k-th visit paints with the k-th draw `sprite(k)`, so a cell visited more than once shows the draw of its last visit. |
| Grid.GridMap.Paint | TowerDefenseFX/src/main/java/com/tdgame/model/grid/GridMap.java:132-135 | One visit of the walk: an in-bounds cell becomes a path tile, and no other cell changes. |
| GridPath.MainPath | TowerDefenseFX/src/main/java/com/tdgame/model/grid/GridMap.java:225-227 | The first path, and none exactly when there are no paths. |
| GridPath.TotalLengthBasics | TowerDefenseFX/src/main/java/com/tdgame/model/grid/GridMap.java:289-295 | A path is never of negative length, and a path of fewer than two waypoints has none. |
| GridPath.TotalLengthSnoc | TowerDefenseFX/src/main/java/com/tdgame/model/grid/GridMap.java:289-295 | Appending a waypoint adds exactly the new segment to the length. |
| GridPath.PositionAtEndpoints | TowerDefenseFX/src/main/java/com/tdgame/model/grid/GridMap.java:258-261 | The endpoints: the origin for no waypoints, the first at progress ≤ 0, the last at ≥ 1. |
| GridPath.PositionIsOnPath | TowerDefenseFX/src/main/java/com/tdgame/model/grid/GridMap.java:258-284 | On a path of positive length every position is a finite point on one of the segments, whatever the progress. |
| GridPath.GetTotalLength | TowerDefenseFX/src/main/java/com/tdgame/model/grid/GridMap.java:289-295 | The loop returns the path's total length, the sum of its segment lengths, which is never negative. |
| GridPath.GetPositionAt | TowerDefenseFX/src/main/java/com/tdgame/model/grid/GridMap.java:258-284 | `Path.getPositionAt(progress)`, with its early returns; None stands for a non-finite point. |
| GridPath.ScanSegments | TowerDefenseFX/src/main/java/com/tdgame/model/grid/GridMap.java:263-283 | The segment loop of `Path.getPositionAt`, walking towards `targetDistance`. |
| LegacyCollision.GetDistance | src/main/java/game/core/Collision.java:16-18 | `getDistance(e1, e2)`: the distance between the centres. |
| LegacyCollision.IsInRangeExact | src/main/java/game/core/Collision.java:11-14 | Where the distance is Euclidean, `isInRange` is the squared-distance test. |
| LegacyCollision.EntitiesInRange | src/main/java/game/core/Collision.java:24-36 | The list `getEntitiesInRange` returns: the entities of `es`, in order, that are not `center` itself, are alive and lie within `range` of it. |
| LegacyCollision.GetEntitiesInRange | src/main/java/game/core/Collision.java:24-36 | The loop returns exactly the list `EntitiesInRange` describes: the other living entities within range, in order. |
| LegacyCollision.EntitiesInArea | src/main/java/game/core/Collision.java:38-51 | The list `getEntitiesInArea` returns: the living entities of `es`, in order, whose centre lies within `radius` of the point. |
| LegacyCollision.GetEntitiesInArea | src/main/java/game/core/Collision.java:38-51 | The loop returns exactly the list `EntitiesInArea` describes: the living entities centred within the radius, in order. |
| LegacyCollision.RangeIsAreaWithoutCentre | src/main/java/game/core/Collision.java:24-51 | The two filters agree on an entity other than the centre: where the distance is symmetric at their centres, an entity is in range of an entity exactly when it is in the area around that entity's centre. |
| LegacyCollision.ClampedParam | src/main/java/game/core/Collision.java:89-102 | The fraction of the segment the point projects to, clamped to the segment: 0 for a degenerate segment or a negative projection, 1 past the end, and `dot / lenSq` otherwise. |
| LegacyCollision.DistanceFromPointToLine | src/main/java/game/core/Collision.java:75-107 | `distanceFromPointToLine`: the distance from the point to the closest point of the segment. For a degenerate segment that is the distance from the start, which is also what `Closest` gives. |
| LegacyCollision.ClosestAtClampedParam | src/main/java/game/core/Collision.java:89-106 | The closest point is the point at the clamped fraction. |
| LegacyCollision.ClosestIsNearest | src/main/java/game/core/Collision.java:75-107 | The point `distanceFromPointToLine` measures to is a nearest point of the segment: no point of the segment is closer. |
| LegacyCollision.HasLineOfSight | src/main/java/game/core/Collision.java:53-73 | `hasLineOfSight`: a missing or empty obstacle list leaves the line clear; otherwise it is clear exactly when no obstacle blocks it. |
| LegacyCollision.BlocksExactly | src/main/java/game/core/Collision.java:65-70 | Where the distance is Euclidean at the measured pair, an obstacle blocks the line exactly when some point of the segment lies strictly within half a tile of it: the closest point is a witness in one direction, and no point of the segment is nearer than the closest one in the other. |
| LegacyCollision.GetTileCenter | src/main/java/game/core/Collision.java:120-125 | The centre of a tile lies half a tile (32 pixels) right of and below the tile's corner pixel. |
| LegacyCollision.TileIndex | src/main/java/game/core/Collision.java:127-132 | The floored tile index of one pixel coordinate. |
| LegacyCollision.PixelToTile | src/main/java/game/core/Collision.java:127-132 | `pixelToTile`: the floored tile coordinates, as doubles. |
| LegacyCollision.TileCenterRoundTrip | src/main/java/game/core/Collision.java:120-132 | Converting a tile's centre back with the floored conversion gives exactly the tile, for every tile, negative coordinates included. |
| LegacyCollision.PixelNearTileCenter | src/main/java/game/core/Collision.java:120-132 | Every pixel lies within half a tile, on each axis, of its tile's centre. |
| LegacyCollision.ValidTileIsOnMap | src/main/java/game/core/Collision.java:134-136 | A tile is on the grid exactly when its centre lies on the map. |
| LegacyEntity.Spawned | src/main/java/game/entity/Entity.java:14-21 | A new entity has full health and is alive, and its vitals are sound exactly when its maximum is non-negative. |
| LegacyEntity.Damaged | src/main/java/game/entity/Entity.java:25-34 | `takeDamage`: nothing happens to a dead entity; otherwise the damage is subtracted, and reaching zero or below pins the hit points at zero and marks the entity dead. |
| LegacyEntity.DamagedSound | src/main/java/game/entity/Entity.java:25-34 | Non-negative damage keeps the vitals sound and never raises the hit points. |
| LegacyEntity.Healed | src/main/java/game/entity/Entity.java:36-40 | `heal`: nothing for a dead entity, else the hit points rise but not above `maxHp`. |
| LegacyEntity.HealedSound | src/main/java/game/entity/Entity.java:36-40 | A non-negative heal keeps the vitals sound; a full entity stays as it is. |
| LegacyEntity.Killed | src/main/java/game/entity/Entity.java:82-86 | `kill`: dead with no hit points, whatever the state before. |
| LegacyEntity.HpRatio | src/main/java/game/entity/Entity.java:74-76 | `getHpRatio`: 0 without a positive maximum, else the share of hit points left. |
| LegacyEntity.RatioInUnit | src/main/java/game/entity/Entity.java:74-76 | For sound vitals with a positive maximum, the health ratio lies between 0 and 1. |
| LegacyEntity.DamageDiesAtMostOnce | src/main/java/game/entity/Entity.java:42-44 | Damage and healing alone run `onDeath` at most once, and only when the entity ends dead. |
| LegacyEntity.KillRunsOnDeathEveryTime | src/main/java/game/entity/Entity.java:82-86 | `kill` has no already-dead guard: each call runs `onDeath` again. |
| LegacyEntity.KillsCount | src/main/java/game/entity/Entity.java:82-86 | Killing an entity n times runs `onDeath` n times, and any positive number of kills leaves it as one kill does. |
| LegacyEntity.EventsKeepSound | src/main/java/game/entity/Entity.java:25-40 | All events with non-negative amounts keep the vitals sound. |
| LegacyEntity.CentreOf | src/main/java/game/entity/Entity.java:96-98 | `getCenter`: the top-left position plus half the size. |
| LegacyEntity.PlacedAt | src/main/java/game/entity/Enemy.java:83 | Placing an entity at this position puts its centre on the given point. |
| LegacyEntity.Moved | src/main/java/game/entity/MoveBehavior.java:46-54 | Only a velocity-based behaviour moves an entity, and only a living one. |
| LegacyEntity.VelocityStepsAdd | src/main/java/game/entity/MoveBehavior.java:46-54 | Velocity-based movement is linear in time: two steps go as far as one step of their combined length, and a zero step stays put. |
| LegacyLoop.Keep | src/main/java/game/core/GameLoop.java:232-236 | The enemies `cleanupEntities` is meant to keep: alive and not leaked. |
| LegacyLoop.KeepAsWritten | src/main/java/game/core/GameLoop.java:232-236 | The enemies `cleanupEntities` keeps as written: all but the dead that leaked. |
| LegacyLoop.KeepChargesNothing | src/main/java/game/core/GameLoop.java:232-236 | A kept enemy has not leaked, so nothing kept is charged again. |
| LegacyLoop.KeepWithinBudget | src/main/java/game/core/GameLoop.java:232-236 | With the intended clean-up the charged power and the power still on the field together never exceed the power of the enemies before it: every enemy is charged once, kept, or dropped dead. |
| LegacyLoop.DefeatedInIntegers | src/main/java/game/core/GameLoop.java:218-224 | The defeat test holds exactly when some power came and ten times the leaked power reaches it, that is when a tenth of the level's power has leaked. |
| LegacyLoop.AsWrittenChargesLeakAgain | src/main/java/game/core/GameLoop.java:112-119 | As written the clean-up keeps an enemy that leaked alive, so each later enemy pass charges its power again. With eleven soldiers of which one has leaked, the first charge is a tenth short of defeat; the next pass charges the same soldier again and the game is lost, though no further enemy leaked. |
| LegacyLoop.IntendedChargesLeakOnce | src/main/java/game/core/GameLoop.java:112-119 | The same field with the intended clean-up: the leaked soldier is charged once. |
| LegacyLoop.KeepAsWrittenKeepsTheLiving | src/main/java/game/core/GameLoop.java:233 | The as-written clean-up drops nobody alive. |
| LegacyLoop.SurvivorsSound | src/main/java/game/core/GameLoop.java:233 | The intended clean-up keeps exactly the listed enemies that are alive and have not leaked. |
| LegacyLoop.SurvivorsAsWrittenSound | src/main/java/game/core/GameLoop.java:233 | As written, the clean-up keeps exactly the listed enemies that are alive or have not leaked. |
| LegacyLoop.SurvivorsDistinct | src/main/java/game/core/GameLoop.java:233 | The clean-up lists no enemy twice when the list it filters did not. |
| LegacyLoop.SurvivorsEntering | src/main/java/game/core/GameLoop.java:233 | What the clean-up keeps is on its route, alive, not leaked and of positive power. |
| LegacyLoop.EnteringChargesNothing | src/main/java/game/core/GameLoop.java:112-119 | Enemies that have just joined are charged nothing. |
| LegacyLoop.SurvivorsWithinBudget | src/main/java/game/core/GameLoop.java:232-236 | The intended clean-up keeps the books: the power charged for the enemies of a list and the power of those it keeps together never exceed the list's power, and the charge is never negative. |
| LegacyLoop.StandingSound | src/main/java/game/core/GameLoop.java:234 | The tower clean-up keeps exactly the listed towers that are alive. |
| LegacyLoop.KeptContains | src/main/java/game/core/GameLoop.java:171-177 | Every flagged entry is kept. |
| LegacyLoop.KeptWithin | src/main/java/game/core/GameLoop.java:171-177 | Nothing unlisted is kept. |
| LegacyLoop.KeptDistinct | src/main/java/game/core/GameLoop.java:171-177 | From a list without repeats nothing is kept twice. |
| LegacyLoop.KeptOnlyFlagged | src/main/java/game/core/GameLoop.java:171-177 | From a list without repeats an entry is kept only if it is flagged. |
| LegacyLoop.SpeedBump.constructor | src/main/java/game/core/GameLoop.java:391-394 | A new bump lies on the given tile with the full lifetime of 12 seconds. |
| LegacyLoop.SpeedBump.Update | src/main/java/game/core/GameLoop.java:396-398 | The bump's lifetime drops by the frame time. |
| LegacyLoop.Live | src/main/java/game/core/GameLoop.java:400-402 | The flags of the lifetimes still positive: the bumps `isActive` keeps. |
| LegacyLoop.BumpSlow | src/main/java/game/core/GameLoop.java:182-189 | One enemy's slow after bumps on `tiles` have acted: an exposed enemy standing on one of them is slowed to `SPEED_BUMP_FACTOR` for `BUMP_SLOW_SEC`, any other keeps its slow. |
| LegacyLoop.BumpSlowTwice | src/main/java/game/core/GameLoop.java:171-190 | Bumps acting one after another act as their tiles together: a second slow only repeats the first. |
| LegacyLoop.BlastReach | src/main/java/game/core/GameLoop.java:426-437 | A blast deals its damage to exactly the exposed enemies within a tile and a half of the bomb; the others, and every enemy's tile and leaked flag, are untouched. |
| LegacyLoop.Armed | src/main/java/game/core/GameLoop.java:197-212 | The flags of the bombs not yet triggered: the ones the iterator keeps. |
| LegacyLoop.BombPass | src/main/java/game/core/GameLoop.java:193-213 | The bombs and the enemies after the turns of the bombs in `ms`, in list order. |
| LegacyLoop.BombPassFires | src/main/java/game/core/GameLoop.java:193-213 | The bomb pass never disarms a bomb and never moves a bomb; a bomb armed after it had no exposed enemy on its tile at its turn, and a bomb it set off had one. |
| LegacyLoop.HitIfNear | src/main/java/game/core/GameLoop.java:430-435 | One exposed enemy within a tile and a half of the bomb takes 50 damage; any other enemy is unchanged. |
| LegacyLoop.Blast | src/main/java/game/core/GameLoop.java:429-436 | `trigger`'s loop: every exposed enemy within a tile and a half of `at` takes the damage. |
| LegacyLoop.Bomb.constructor | src/main/java/game/core/GameLoop.java:417-420 | A new bomb lies on the given tile and is armed. |
| LegacyLoop.Bomb.Trigger | src/main/java/game/core/GameLoop.java:426-437 | `trigger`: the bomb is spent and every exposed enemy within a tile and a half of it takes the bomb's damage. |
| LegacyLoop.FindOnTile | src/main/java/game/core/GameLoop.java:199-207 | The search of the bomb loop: is an exposed enemy standing on the tile? |
| LegacyLoop.FireIfTouched | src/main/java/game/core/GameLoop.java:195-212 | The body of the bomb loop for one bomb: an armed bomb goes off when an exposed enemy stands on its tile; the bomb is kept while it is armed. |
| LegacyLoop.SweepBombs | src/main/java/game/core/GameLoop.java:193-213 | The bomb loop: the bombs take their turns in list order, each blasting the enemies as the earlier turns left them; the kept bombs are the ones still armed. |
| LegacyLoop.LeadScanIsFirstLeast | src/main/java/game/core/GameLoop.java:135-157 | `findBestTarget` picks the first considered enemy that no other considered enemy is ahead of, by distance to the exit and then hit points; it picks none exactly when no considered enemy is ahead of `Double.MAX_VALUE` on both counts. |
| LegacyLoop.StepOne | src/main/java/game/core/GameLoop.java:113-118 | The body of `updateEnemies`' loop for the `i`th enemy: it steps as `Stepped` says, its power is charged exactly when it has leaked, and no other enemy of the list changes. |
| LegacyLoop.StepAll | src/main/java/game/core/GameLoop.java:113-118 | `updateEnemies`' loop: every enemy steps, and the power of each one flagged as leaked is summed. |
| LegacyLoop.SlowIfOn | src/main/java/game/core/GameLoop.java:183-188 | An exposed enemy standing on the bump's tile is slowed to half speed; any other enemy keeps its slow. |
| LegacyLoop.SlowOnBump | src/main/java/game/core/GameLoop.java:182-189 | The inner loop of a speed bump: every exposed enemy on its tile is slowed. |
| LegacyLoop.TurnBump | src/main/java/game/core/GameLoop.java:173-189 | The body of the bump loop for one bump: its lifetime runs down; a spent bump is to be removed, an active one is kept and slows the enemies on its tile. |
| LegacyLoop.SweepBumps | src/main/java/game/core/GameLoop.java:171-190 | The loop over the speed bumps: each bump's lifetime runs down; the kept ones are those still active, and every exposed enemy on the tile of a kept bump is slowed. |
| LegacyLoop.GameLoop.constructor | src/main/java/game/core/GameLoop.java:41-54 | A new loop has no enemies, towers or gadgets, no leaked or level power, is neither lost nor won, and satisfies the between-frames invariant. |
| LegacyLoop.GameLoop.Handle | src/main/java/game/core/GameLoop.java:57-71 | `handle`: the first frame only records its time stamp; each later one records it and, while the game is neither lost nor won, runs `update` over the time since the previous frame, in seconds. |
| LegacyLoop.GameLoop.Update | src/main/java/game/core/GameLoop.java:73-93 | `update`: the wave manager runs as `WavesRan` says, and exactly the fresh enemies made from the spawns it released join the end of the field: per spawn, in order, its kind, route and power and the entry pose `createEnemy` gives (`Handed`), with their power added to the level's. From the scene the field then shows (the old enemies as they stood, the new ones in their entry poses), the enemy pass and the gadgets take it to the scene `TickScene` gives; the bumps still active and the bombs not triggered are kept, in order (`Ticked`). The leaked power grows by the power of every enemy flagged as leaked. Defeat and victory are judged on that field. The intended clean-up then keeps the living, unleaked enemies and the standing towers, which restores the between-frames invariant. The new enemies' starting hit points follow the intended heal order of `LegacyWaves.ApplyDifficultyModifiers` (Findings row 2): full scaled health, where Java's enemies keep their base hit points under the raised maximum. |
| LegacyLoop.GameLoop.Judge | src/main/java/game/core/GameLoop.java:73-89 | `update` up to the clean-up: the same hand-over, enemy pass, gadgets and leak charge as `Update`. Then the game is lost once the leak share reaches the ratio, and otherwise won once every wave is done and no enemy on the field is alive. The new enemies' starting hit points follow the intended heal order of `LegacyWaves.ApplyDifficultyModifiers` (Findings row 2): full scaled health, where Java's enemies keep their base hit points under the raised maximum. |
| LegacyLoop.GameLoop.Prepare | src/main/java/game/core/GameLoop.java:74-86 | The hand-over and the two passes of `update`: the enemies made from the released spawns join the field with their power, the field goes from the scene it shows to the one `TickScene` gives, and the leaks are charged. The wave manager stays consistent with an empty buffer. The new enemies' starting hit points follow the intended heal order of `LegacyWaves.ApplyDifficultyModifiers` (Findings row 2): full scaled health, where Java's enemies keep their base hit points under the raised maximum. |
| LegacyLoop.GameLoop.Spawn | src/main/java/game/core/GameLoop.java:74-80 | The first step of `update`: the wave manager runs as `WavesRan` says. Exactly the fresh enemies made from the spawns it released join the end of the field (`Handed`), and their non-negative total power is added to the level's. The new enemies' starting hit points follow the intended heal order of `LegacyWaves.ApplyDifficultyModifiers` (Findings row 2): full scaled health, where Java's enemies keep their base hit points under the raised maximum. |
| LegacyLoop.GameLoop.Advance | src/main/java/game/core/GameLoop.java:82-86 | `updateEnemies` and `updateGadgets` on the loop's own lists: the field goes from the scene `before` it shows to the scene `TickScene` gives. The bump and bomb lists become the bumps still active and the bombs not triggered, in order. The leaked power grows by the non-negative power of every enemy now flagged as leaked, and the wave manager is untouched. |
| LegacyLoop.GameLoop.GetLeakPercentage | src/main/java/game/core/GameLoop.java:374-376 | `getLeakPercentage`: the leaked share of the level's power, zero before any enemy came. |
| LegacyLoop.GameLoop.LeakShareAtMostOne | src/main/java/game/core/GameLoop.java:374-376 | Between frames the leak share lies between zero and one. |
| LegacyLoop.GameLoop.AddTower | src/main/java/game/core/GameLoop.java:96-98 | The tower is appended to the tower list. |
| LegacyLoop.GameLoop.AddSpeedBump | src/main/java/game/core/GameLoop.java:104-106 | A new bump with the full 12-second lifetime on the tile is appended to the bump list, and the between-frames invariant is kept. |
| LegacyLoop.GameLoop.AddBomb | src/main/java/game/core/GameLoop.java:108-110 | A new armed bomb on the tile is appended to the bomb list, and the between-frames invariant is kept. |
| LegacyLoop.GameLoop.CheckGameState | src/main/java/game/core/GameLoop.java:216-230 | `checkGameState`: defeat once the leaked share reaches the ratio, and otherwise victory once every wave is done and no enemy listed is alive. |
| LegacyLoop.GameLoop.CleanupEntities | src/main/java/game/core/GameLoop.java:232-236 | `cleanupEntities` as intended: an enemy stays only while it is alive and has not leaked, and a tower only while it stands; after an enemy pass this restores the between-frames invariant. |
| LegacyLoop.GameLoop.CleanupEntitiesAsWritten | src/main/java/game/core/GameLoop.java:232-236 | `cleanupEntities` as written: only enemies both dead and leaked are removed. |
| LegacyLoop.GameLoop.HandleBuildSlotClick | src/main/java/game/core/GameLoop.java:344-354 | `handleBuildSlotClick`: a fast tower on the tile's pixel corner, bought when the money covers its cost. |
| LegacyLoop.GameLoop.HandleSpeedBumpSlotClick | src/main/java/game/core/GameLoop.java:356-363 | `handleSpeedBumpSlotClick`: a speed bump on the tile, bought when the money covers its cost. |
| LegacyLoop.GameLoop.HandleBombSlotClick | src/main/java/game/core/GameLoop.java:365-372 | `handleBombSlotClick`: an armed bomb on the tile, bought when the money covers its cost. |
| LegacyLoop.GameLoop.FindBestTarget | src/main/java/game/core/GameLoop.java:135-157 | `findBestTarget`: the live, unleaked enemy within the tower's reach that is nearest the exit, the one with fewer hit points among equals, the first listed among full ties. |
| LegacyLoop.RunWaves | src/main/java/game/core/GameLoop.java:75-76 | `waveManager.update` then `getSpawnedEnemies`: the manager runs as `WavesRan` says and keeps nothing buffered. The enemies handed over are fresh, distinct and entering, one made from each released spawn that makes an enemy, in order (`Entered`). The new enemies' starting hit points follow the intended heal order of `LegacyWaves.ApplyDifficultyModifiers` (Findings row 2): full scaled health, where Java's enemies keep their base hit points under the raised maximum. |
| LegacyLoop.GameLoop.Run | src/main/java/game/core/GameLoop.java:65-67 | One `update` as `handle` runs it on a game still in play: the between-frames invariant is kept, the game is lost exactly when the leak share reaches the ratio, and neither the level's power nor the leaked power goes down. |
| LegacyLoop.GameLoop.Poll | src/main/java/game/core/GameLoop.java:75-76 | `waveManager.update` and `getSpawnedEnemies` on the loop's manager: the manager runs and hands over, as `Handed` says, fresh and distinct enemies, one made from each released spawn, and the invariant is kept. The new enemies' starting hit points follow the intended heal order of `LegacyWaves.ApplyDifficultyModifiers` (Findings row 2): full scaled health, where Java's enemies keep their base hit points under the raised maximum. |
| LegacyLoop.GameLoop.Enlist | src/main/java/game/core/GameLoop.java:77-80 | `addAll` and the power sum: the new enemies are appended to the field and their non-negative power is added to the level's. The wave manager and the new enemies are untouched, a hand-over that held still holds (`Handed`), and the between-frames invariant is kept. |
| LegacyLoop.GameLoop.Proceed | src/main/java/game/core/GameLoop.java:82-86 | The enemy pass and the gadgets after the hand-over: they run as `Ticked` says, the wave manager stays consistent with an empty buffer, the leaks are charged, and the frame's `Outcome` (hand-over, scene and charge together) holds. |
| LegacyLoop.GameLoop.Assess | src/main/java/game/core/GameLoop.java:88-89 | `checkGameState` inside `update`: defeat once the leak share reaches the ratio, otherwise victory once every wave is done and no enemy is alive; the frame's `Outcome` is kept. |
| LegacyLoop.GameLoop.Conclude | src/main/java/game/core/GameLoop.java:91-92 | `cleanupEntities` inside `update`: the intended clean-up, which restores the between-frames invariant after an enemy pass; the frame's `Outcome` is kept. |
| LegacyLoop.GameLoop.RunningAfterSteps | src/main/java/game/core/GameLoop.java:82-86 | Stepping the enemies of a valid loop and charging exactly their leaks starts a running enemy pass: the leaked power covers the charge, and the rest plus the power on the field stays within the level's power. |
| LegacyLoop.PollWaves | src/main/java/game/core/WaveManager.java:62-74 | `waveManager.update` on a manager with nothing buffered: it runs as `WavesRan` says, and the buffer holds fresh, distinct, entering enemies, one made from each released spawn that makes one (`MadeAll`). The new enemies' starting hit points follow the intended heal order of `LegacyWaves.ApplyDifficultyModifiers` (Findings row 2): full scaled health, where Java's enemies keep their base hit points under the raised maximum. |
| LegacyLoop.MadeAllEntered | src/main/java/game/core/WaveManager.java:169-178 | Enemies made one per spawn, as `createEnemy` makes them, entered as `Entered` says: kind, route and power of the spawn, and the entry pose. The new enemies' starting hit points follow the intended heal order of `LegacyWaves.ApplyDifficultyModifiers` (Findings row 2): full scaled health, where Java's enemies keep their base hit points under the raised maximum. |
| LegacyLoop.Tick | src/main/java/game/core/GameLoop.java:82-86 | The enemy pass then the gadgets on explicit lists: from the scene `before` the field and gadgets show, they go to the scene `TickScene` gives (`Ticked`). The active bumps and the untriggered bombs are kept in order, with no repeats; the non-negative power of the enemies flagged as leaked is charged; each enemy stays consistent. |
| LegacyLoop.TickedIntro | src/main/java/game/core/GameLoop.java:82-86 | The enemy pass from `before` to `mid` and the gadgets from `mid` to `after` compose into one tick: `after` is `TickScene` of `before`. |
| LegacyLoop.MarchAll | src/main/java/game/core/GameLoop.java:112-119 | `updateEnemies`' loop: every enemy takes the pose `MarchedPose` gives it from the pose it stood in, stays consistent, and the power of each enemy flagged as leaked is charged. |
| LegacyLoop.MarchStep | src/main/java/game/core/GameLoop.java:112-119 | The enemy pass read on scenes: from the scene `before` the field showed, it now shows the scene `MarchScene` gives, and the leaks are charged. |
| LegacyLoop.MarchShows | src/main/java/game/core/GameLoop.java:112-119 | After the enemies march, with the gadgets untouched, the field and gadgets show `MarchScene` of the scene before. |
| LegacyLoop.SweepGadgets | src/main/java/game/core/GameLoop.java:169-214 | `updateGadgets` on explicit lists: every bump ages by the frame time and exactly the active ones are kept, in order. Every exposed enemy on a kept bump's tile is slowed, and the others keep their slows. The bombs then take their turns in list order on the enemies as they stood (`BombPass`), and the untriggered ones are kept. No gadget is kept twice. |
| LegacyLoop.GadgetStep | src/main/java/game/core/GameLoop.java:169-214 | `updateGadgets` read on scenes: from the scene `mid` the field and gadgets show, they now show the scene `GadgetScene` gives. The active bumps and untriggered bombs are kept in order, with no repeats, and each enemy stays consistent. |
| LegacyLoop.GadgetsShow | src/main/java/game/core/GameLoop.java:169-214 | After the gadgets run as `GadgetsRan` says, with walks, places and timers untouched, the field and gadgets show `GadgetScene` of the scene `mid`. |
| LegacyLoop.GadgetPoses | src/main/java/game/core/GameLoop.java:169-214 | The enemies' poses after the gadgets are those `GadgetScene` gives: the bump pass's slows and the bomb pass's vitals, with walks, places and timers as they were. |
| LegacyLoop.SceneOf | src/main/java/game/core/GameLoop.java:73-93 | The scene the field and gadgets make: the enemies' poses, what the gadgets see of them at those poses, the bumps' lifetimes and the bombs. |
| LegacyLoop.ShowsSceneOf | src/main/java/game/core/GameLoop.java:73-93 | A scene is shown by the field and gadgets exactly when it is the one they make, in both directions. |
| LegacyLoop.Shown | src/main/java/game/core/GameLoop.java:73-93 | The field and gadgets always show some scene. |
| LegacyLoop.ShownJoin | src/main/java/game/core/GameLoop.java:77 | The scene shown after `addAll` has the old enemies' poses followed by the new ones' poses. |
| LegacyLoop.HandedKept | src/main/java/game/core/GameLoop.java:82-92 | A change that leaves the wave manager and the released spawns' routes alone keeps the hand-over as `Handed` states it. |
| LegacyLoop.OutcomeKept | src/main/java/game/core/GameLoop.java:88-92 | A change that leaves the field, the gadgets, the wave manager and the routes alone keeps the frame's `Outcome`. |
| LegacyMap.TileToPixel | src/main/java/game/map/Grid.java:42-44 | A tile's corner pixel is its coordinates times the 64-pixel tile size. |
| LegacyMap.GridPixelToTile | src/main/java/game/map/Grid.java:46-50 | `Grid.pixelToTile`: each pixel coordinate divided by the tile size and truncated toward zero by the int cast. A non-negative coordinate lands in the tile that contains it. |
| LegacyMap.WithinTile | src/main/java/game/map/Grid.java:46-50 | A non-negative pixel coordinate whose truncated tile quotient is `t` lies in tile `t`. |
| LegacyMap.TileCentre | src/main/java/game/map/Grid.java:52-56 | `getTileCenter`: the centre pixel of a tile, half a tile in from its corner. |
| LegacyMap.GridCentreRoundTrip | src/main/java/game/map/Grid.java:46-56 | Truncating the centre of a tile gives the tile back exactly for tiles of non-negative coordinates; for a negative coordinate the truncation rounds toward zero and lands one tile off. |
| LegacyMap.TruncatedCentre | src/main/java/game/map/Grid.java:46-56 | Converting a tile's centre back with the truncating cast gives the tile exactly when its coordinate is non-negative. |
| LegacyMap.TileDistance | src/main/java/game/map/Grid.java:58-62 | `Grid.getDistance`: the distance between the two tile centres, in tiles. The square root is the injected distance. |
| LegacyMap.TileDistanceSymmetric | src/main/java/game/map/Grid.java:58-62 | Where the distance is Euclidean at both orders, the tile distance is symmetric. |
| LegacyMap.TileDistanceToSelf | src/main/java/game/map/Grid.java:58-62 | Where the distance is Euclidean, a tile is at distance zero from itself. |
| LegacyMap.Grid.constructor | src/main/java/game/map/Grid.java:12-23 | The grid is 11 by 9 and every cell starts as grass. |
| LegacyMap.Grid.GetTile | src/main/java/game/map/Grid.java:25-30 | `getTile`: the stored tile, and GRASS for any cell outside the grid. |
| LegacyMap.Grid.SetTile | src/main/java/game/map/Grid.java:32-36 | `setTile`: writes the one cell when it lies inside the grid and ignores the call otherwise; every other cell keeps its tile. |
| LegacyMap.PathLengthAppend | src/main/java/game/map/Route.java:71-79 | Appending a waypoint adds the one new segment to the route's length. |
| LegacyMap.Route.constructor | src/main/java/game/map/Route.java:12-15 | A new route has the given name and no waypoints. |
| LegacyMap.Route.AddWaypointAt | src/main/java/game/map/Route.java:17-19 | `addWaypoint(x, y)`: appends the tile coordinate as a point. |
| LegacyMap.Route.AddWaypoint | src/main/java/game/map/Route.java:21-23 | `addWaypoint(point)`: appends the point. |
| LegacyMap.Route.GetWaypoints | src/main/java/game/map/Route.java:25-27 | `getWaypoints` returns a copy: later appends to the route do not show in it, which a value sequence says by itself. |
| LegacyMap.Route.GetWaypoint | src/main/java/game/map/Route.java:29-34 | `getWaypoint`: the point at an index inside the list, null outside it. |
| LegacyMap.Route.StartPoint | src/main/java/game/map/Route.java:40-42 | `getStartPoint`: null exactly for an empty route, else the first waypoint. |
| LegacyMap.Route.EndPoint | src/main/java/game/map/Route.java:44-46 | `getEndPoint`: null exactly for an empty route, else the last waypoint. |
| LegacyMap.Route.PixelPosition | src/main/java/game/map/Route.java:52-69 | The pixel for a segment and fraction is the one `PathPixel` gives on the route's own waypoints: between the two waypoint centres, or null outside the route. |
| LegacyMap.Route.TotalLength | src/main/java/game/map/Route.java:71-79 | The loop returns the sum of the distances between consecutive waypoints. |
| LegacyMap.PathPixel | src/main/java/game/map/Route.java:52-69 | The pixel a fraction `progress` of the way along segment `index` of a waypoint list, between the centres of its two waypoint tiles; null unless the segment exists. |
| LegacyMap.WaypointCentreIsTileCentre | src/main/java/game/map/Route.java:52-69 | A waypoint with integer coordinates has its centre where the grid puts it. |
| LegacyMap.RouteAIsConnected | src/main/java/game/map/MapDefinition.java:13-17 | Route A has 9 waypoints, and each moves one tile down. |
| LegacyMap.RouteBIsConnected | src/main/java/game/map/MapDefinition.java:49-75 | Route B has 20 waypoints, and each moves one tile along the row or column. |
| LegacyMap.OnRouteA | src/main/java/game/map/MapDefinition.java:13-17 | `routeAPath.contains(new Point2D(x, y))`: column 0, rows 0 to 8. |
| LegacyMap.OnRouteB | src/main/java/game/map/MapDefinition.java:49-75 | `routeBPath.contains(new Point2D(x, y))`: row 0 from column 1 to 10, column 10 from row 0 to 6, and row 6 from column 6 to 10. |
| LegacyMap.PathTileTypeAt | src/main/java/game/map/MapDefinition.java:126-150 | `getPathTileType`: vertical on route A; on route B horizontal along the rows, vertical down column 10, and the two corners; NONE off both routes. Stated by coordinates, with the route membership worked out. |
| LegacyMap.PathTilesAreRouteTiles | src/main/java/game/map/MapDefinition.java:126-150 | Every tile of either route has a path sprite, and no other tile has one. |
| LegacyMap.SlotLayout | src/main/java/game/map/MapDefinition.java:22-47 | The slot sets hold 10, 3, 2, 1 and 3 distinct tiles. The speed-bump markers lie on the routes, and the bomb marker (9, 6) is both a build slot and a tile of route B. |
| LegacyMap.MapDefinition.constructor | src/main/java/game/map/MapDefinition.java:49-75 | Route A is the literal list; route B is built by three loops and two corners. |
| LegacyMap.MapDefinition.SlotMembership | src/main/java/game/map/MapDefinition.java:105-123 | The slot predicates hold at exactly the listed coordinates. |
| LegacyMap.MapDefinition.GetRoutes | src/main/java/game/map/MapDefinition.java:160-176 | `getRoutes`: two new routes each call, named A and B, holding the two waypoint lists in order. |
| LegacyMap.FillRoute | src/main/java/game/map/MapDefinition.java:164-171 | Appends every point of `path` to the route, one after another. |
| LegacyResources.TicksBy | src/main/java/game/core/ResourceManager.java:59-70 | The number of income ticks a `scheduleAtFixedRate(task, period, period)` has run `elapsed` milliseconds after it was started: the first runs one period in. |
| LegacyResources.NeverNegative | src/main/java/game/core/ResourceManager.java:80-105 | No operation takes the counter below zero, whatever its argument: a spend is refused unless the balance covers it, and only positive additions are made. |
| LegacyResources.SpendsFollowLedger | src/main/java/game/core/ResourceManager.java:80-96 | A run of spend attempts leaves the counter where the spend ledger says. |
| LegacyResources.TicksAddIncome | src/main/java/game/core/ResourceManager.java:59-70 | n income ticks add n times 5 to the counter. |
| LegacyResources.ResourceManager.constructor | src/main/java/game/core/ResourceManager.java:22-33 | The counter starts at the starting money, the income task is scheduled, and the balance invariant holds. |
| LegacyResources.ResourceManager.IncomeTick | src/main/java/game/core/ResourceManager.java:62-69 | One firing of the income task: the tick income is added and the callback posted. A shut-down scheduler fires no more. |
| LegacyResources.ResourceManager.GetMoney | src/main/java/game/core/ResourceManager.java:72-74 | The balance the invariant keeps is never negative. |
| LegacyResources.ResourceManager.CanAfford | src/main/java/game/core/ResourceManager.java:76-78 | `canAfford`: exactly when a spend of `cost` would succeed now. |
| LegacyResources.ResourceManager.SpendMoney | src/main/java/game/core/ResourceManager.java:80-96 | `spendMoney`: refused, with the counter untouched, when it does not cover the cost; otherwise the cost is taken and the callback posted. |
| LegacyResources.ResourceManager.AddMoney | src/main/java/game/core/ResourceManager.java:98-105 | `addMoney`: only a positive amount is added and announced. |
| LegacyResources.ResourceManager.Shutdown | src/main/java/game/core/ResourceManager.java:107-119 | After shutdown the income task no longer fires. |
| LegacyUnits.EnemyStatsOf | src/main/java/game/entity/Soldier.java:8-12 | A soldier has 40 hp, speed 1.0, power 1 and is 0.6 tiles (38.4 pixels) wide; a tank has 260 hp, speed 0.6, power 2 and is one tile wide; every figure is positive. Also Tank.java:13-20: A tank has the configured tank hp, speed and power and is one tile wide and high. |
| LegacyUnits.Advanced | src/main/java/game/entity/Enemy.java:46-86 | `updateMovement` for a living enemy that has not leaked, moving `move` pixels: at or past the last waypoint it leaks; otherwise the progress grows by `move` over the segment's pixel length, and reaching 1 moves on to the next waypoint with progress 0, leaking if that is the last one. On a segment of length zero a positive step reaches the next waypoint; a zero or negative step leaves the walk as it was (Java differs there, see Left out). |
| LegacyUnits.SoldierStep | src/main/java/game/entity/Enemy.java:46-86 | Without slows, a soldier walking a segment of length `len` tiles in steps of `dt` makes the same progress each step: `dt / len` of the segment, since it walks one tile per second. |
| LegacyUnits.RemainingAtStart | src/main/java/game/entity/Enemy.java:130-155 | At the first waypoint with no progress, the whole route is still ahead. |
| LegacyUnits.RemainingAcrossWaypoint | src/main/java/game/entity/Enemy.java:130-155 | Arriving at a waypoint and leaving it with progress 0 leave the same distance ahead. |
| LegacyUnits.RemainingAtEnd | src/main/java/game/entity/Enemy.java:130-155 | Nothing is ahead at the end of the last segment, or at or past the last waypoint. |
| LegacyUnits.RemainingShrinks | src/main/java/game/entity/Enemy.java:130-155 | More progress on the same segment leaves less of the route ahead. |
| LegacyUnits.SlowTicked | src/main/java/game/entity/Enemy.java:88-95 | `updateSlowEffect`: a running slow loses `dt` of its time and the factor reverts to 1.0 once no time is left; without a running slow nothing changes. |
| LegacyUnits.SlowWearsOff | src/main/java/game/entity/Enemy.java:88-100 | A slow wears off: once updates of non-negative length have covered its remaining time, the factor is back to 1.0, and until then a running slow keeps its factor. |
| LegacyUnits.SlowStaysOff | src/main/java/game/entity/Enemy.java:88-95 | An expired slow stays expired. |
| LegacyUnits.CombatTicked | src/main/java/game/entity/Tank.java:31-39 | The tank's fire timer after `updateCombat`: it counts down and resets to 1/TANK_FIRE_RATE at zero. |
| LegacyUnits.CombatTimerBounded | src/main/java/game/entity/Tank.java:31-39 | With non-negative frame times the tank's timer stays in (0, 1] once it has fired. |
| LegacyUnits.Enemy.constructor | src/main/java/game/entity/Enemy.java:18-36 | A new enemy has its kind's speed, power, size and full health, starts at the first waypoint with no progress, unslowed and not leaked, and stands where the first waypoint's tile centres a box of the default 32-pixel size when the route has a segment (at the origin otherwise). The kind's own size is set after that placement, so a soldier's centre starts 3.2 px and a tank's 16 px off the tile centre. |
| LegacyUnits.Enemy.Update | src/main/java/game/entity/Enemy.java:39-44 | `update`, with the tank's override: a dead or leaked enemy does not move and its slow does not tick; otherwise it advances along the route at its speed times the slow factor (taken before the slow ticks) and is placed on the route, unless it leaked. A tank still alive afterwards runs its combat timer, even once it has leaked. |
| LegacyUnits.Enemy.UpdateMovement | src/main/java/game/entity/Enemy.java:46-86 | The walk advances as `Advanced` states; a leaked enemy keeps its position and any other is centred on its new point of the route. |
| LegacyUnits.Enemy.UpdateSlowEffect | src/main/java/game/entity/Enemy.java:88-95 | The slow ticks exactly as `SlowTicked` states. |
| LegacyUnits.Enemy.ApplySlow | src/main/java/game/entity/Enemy.java:97-100 | `applySlow`: the latest slow replaces any earlier one. |
| LegacyUnits.Enemy.TakeDamage | src/main/java/game/entity/Entity.java:25-34 | The enemy's vitals change exactly as `takeDamage` specifies. |
| LegacyUnits.Enemy.Heal | src/main/java/game/entity/Entity.java:36-40 | The enemy's vitals change exactly as `heal` specifies. |
| LegacyUnits.Enemy.Kill | src/main/java/game/entity/Entity.java:82-86 | The enemy ends dead with no hit points. |
| LegacyUnits.Enemy.GetDistanceToEnd | src/main/java/game/entity/Enemy.java:130-155 | `getDistanceToEnd`, adding the later segments one by one. |
| LegacyUnits.Enemy.CurrentTilePosition | src/main/java/game/entity/Enemy.java:157-162 | `getCurrentTilePosition`: the tile holding the centre, by flooring. |
| LegacyUnits.Enemy.SetTowersInRange | src/main/java/game/entity/Tank.java:46-66 | `Tank.setTowersInRange`: the target becomes the nearest live tower within three tiles of the tank's centre (the first of equals), and that tower takes the tank's damage; with none, the target is cleared and no tower is hit. |
| LegacyUnits.FloorTile | src/main/java/game/entity/Enemy.java:157-162 | Flooring a pixel coordinate over the tile size gives the tile that holds it. |
| LegacyUnits.TowerStatsOf | src/main/java/game/entity/FastTower.java:7-10 | The fast tower has 100 hp, a 3-tile range, 4 shots a second and costs 50; the heavy tower has 220 hp, a 4-tile range, 1 shot a second and costs 80. Also HeavyTower.java:7-10: The heavy tower's hp, range, fire rate and cost are the configured heavy values. |
| LegacyUnits.DamageAgainst | src/main/java/game/entity/FastTower.java:13-22 | `getDamageAgainst`: the fast tower deals 8 to soldiers and 4 to tanks, the heavy tower 20 and 12. (The source's plane branch can never be taken, since a plane is not an enemy.) Also HeavyTower.java:13-22: The heavy tower deals 20 to soldiers and 12 to tanks. |
| LegacyUnits.TowerTypesCompared | src/main/java/game/Config.java:20-35 | The heavy tower is the stronger and dearer one: more hit points, longer range, more damage against either enemy and a higher cost, while the fast tower fires more often; both damage both enemy kinds, and soldiers take more than tanks. |
| LegacyUnits.StrategyPickIsFirstMinimum | src/main/java/game/entity/TargetingStrategy.java:18-72 | Every strategy selects the first qualifying enemy of least score, and selects nothing exactly when no qualifying enemy scores below `Double.MAX_VALUE`: dead, leaked and untargetable enemies are never chosen. |
| LegacyUnits.SelectTarget | src/main/java/game/entity/TargetingStrategy.java:18-72 | The enemy a strategy returns is the first qualifying enemy of least score, as `StrategyPick` selects it, or null when none qualifies. |
| LegacyUnits.Candidates | src/main/java/game/entity/Tower.java:60-69 | The enemies `findBestTarget` passes on: alive, not leaked, in range and damageable, in list order. |
| LegacyUnits.Filtered | src/main/java/game/entity/Tower.java:60-69 | The pass returns exactly the candidates: alive, not leaked, in range and damageable, in list order. |
| LegacyUnits.Tower.constructor | src/main/java/game/entity/Tower.java:15-24 | A new tower has its kind's hit points, range, fire rate and cost, is 0.9 tiles wide, has no target and no manager, and targets the enemy closest to the exit. |
| LegacyUnits.Tower.SetProjectileManager | src/main/java/game/entity/Tower.java:73-75 | The tower's manager becomes the given one. |
| LegacyUnits.Tower.Update | src/main/java/game/entity/Tower.java:27-34 | `update`: a dead tower does nothing. Otherwise the timer counts down, a target that died, left the range or leaked is dropped, and with the timer run out and a target left the tower fires and the timer restarts at 1/fireRate. |
| LegacyUnits.Tower.FireAtTarget | src/main/java/game/entity/Tower.java:77-83 | `fireAtTarget` with `createProjectile`: a shot goes to the manager only if there is damage and a manager. |
| LegacyUnits.Tower.SetEnemiesInRange | src/main/java/game/entity/Tower.java:49-55 | `setEnemiesInRange`: a target still held is kept, otherwise the best target is chosen afresh. |
| LegacyUnits.Tower.FindBestTarget | src/main/java/game/entity/Tower.java:60-69 | The target is the enemy the tower's strategy picks among the candidates in list order. |
| LegacyUnits.Tower.TakeDamage | src/main/java/game/entity/Entity.java:25-34 | The tower's vitals change exactly as `takeDamage` specifies. |
| LegacyUnits.TankPickIsNearest | src/main/java/game/entity/Tank.java:46-66 | A tank shoots exactly when some live tower is within three tiles, and then at the nearest such tower, the first of equals. |
| LegacyUnits.Flown | src/main/java/game/entity/Plane.java:29-53 | `Plane.update`: a dead plane stays as it is; otherwise it flies three tiles a second, dies on reaching the end, else moves to that share of the line from start to end and marks its bombing done inside the window. |
| LegacyUnits.ShortStepsNeverLeak | src/main/java/game/entity/Plane.java:29-53 | With time steps that never carry the plane more than a fifth of its flight, it cannot fly over the bombing window: a plane that has not yet reached 40% bombs before the end and never leaks. |
| LegacyUnits.FlightsOfDead | src/main/java/game/entity/Plane.java:29-53 | A dead plane stays as it is. |
| LegacyUnits.Plane.constructor | src/main/java/game/entity/Plane.java:16-26 | A new plane is at its start with full health, no progress, not bombed, and knows the distance to its end. |
| LegacyUnits.Plane.Update | src/main/java/game/entity/Plane.java:29-53 | The flight advances exactly as `Flown` states: a dead plane stays, a live one moves three tiles a second along its line and dies at its end. |
| LegacyUnits.Plane.Kill | src/main/java/game/entity/Entity.java:82-86 | The plane ends dead with no hit points. |
| LegacyUnits.Plane.PerformBombingOnTargets | src/main/java/game/entity/Plane.java:60-70 | `performBombingOnTargets`: once only. The bomber picks the row or column of greatest tower worth; if one is worth more than nothing it bombs every tile centre along it and marks its bombing done. |
| LegacyUnits.Lines | src/main/java/game/entity/Plane.java:84-107 | The bomber considers the 9 rows in order, then the 11 columns in order. |
| LegacyUnits.LineValuePositive | src/main/java/game/entity/Plane.java:109-143 | A line of positive value covers some live tower. |
| LegacyUnits.BombScanStep | src/main/java/game/entity/Plane.java:84-107 | One more line: it replaces the best only with a strictly greater value. |
| LegacyUnits.BombPickIsFirstMaximum | src/main/java/game/entity/Plane.java:84-107 | The bomber picks the first line of greatest value, rows before columns, with the value it reports; it picks nothing exactly when no line is worth more than 0, so it never bombs a line without a live tower near it. |
| LegacyUnits.BombPoints | src/main/java/game/entity/Plane.java:145-166 | A row gets 11 bomb points and a column 9, one at the centre of each of its tiles, in order. |
| LegacyUnits.BlastsSpareFarTowers | src/main/java/game/entity/Plane.java:168-177 | A tower out of reach of every bomb point, or already dead, is untouched. |
| LegacyUnits.BlastsKeepSound | src/main/java/game/entity/Plane.java:168-177 | Bombing keeps a tower's vitals sound and takes at most fifty hit points per bomb point. |
| LegacyUnits.CalculateLineValue | src/main/java/game/entity/Plane.java:109-125 | The loop returns the line's tower worth as `LineValue` defines it. |
| LegacyUnits.FindOptimalRowOrColumn | src/main/java/game/entity/Plane.java:84-107 | `findOptimalRowOrColumn`: the nine rows, then the eleven columns, keeping a strictly better line. |
| LegacyUnits.ConsiderLine | src/main/java/game/entity/Plane.java:84-107 | One step of the scan takes the best value and target from the first n lines to those of the first n + 1. |
| LegacyUnits.BombRowOrColumn | src/main/java/game/entity/Plane.java:145-166 | `bombRowOrColumn`: a bomb at every tile centre of the line, in order. |
| LegacyUnits.DamageTowersInRadius | src/main/java/game/entity/Plane.java:168-177 | `damageTowersInRadius`: every live tower centred within the radius takes the damage. |
| LegacyUnits.SkyPickIsFurthest | src/main/java/game/entity/AntiAir.java:49-64 | A battery picks the live plane furthest along its run, the first of equals; with progress never below 0 it picks nothing only when no plane is alive. |
| LegacyUnits.AntiAir.constructor | src/main/java/game/entity/AntiAir.java:15-24 | A new battery has the given hit chance and cost, 100 hit points, is alive, ready to fire and has no target. |
| LegacyUnits.AntiAir.Update | src/main/java/game/entity/AntiAir.java:27-37 | `update`: a dead battery does nothing; otherwise the timer counts down, and with it run out and a live target the battery fires, restarting the timer at one second. The target plane keeps its position, its flight and whether it has bombed; only a hit changes its vitals. |
| LegacyUnits.AntiAir.FireAtPlane | src/main/java/game/entity/AntiAir.java:66-74 | `fireAtPlane`: a roll below the hit chance destroys the plane and clears the target. |
| LegacyUnits.AntiAir.SetPlanesInRange | src/main/java/game/entity/AntiAir.java:39-47 | `setPlanesInRange`: a live target is kept, otherwise the best plane is chosen. |
| LegacyUnits.AntiAir.FindBestTarget | src/main/java/game/entity/AntiAir.java:49-64 | `findBestTarget`: the live plane of highest progress, from -1. |
| LegacyUnits.ProjectileFire | src/main/java/game/entity/FireBehavior.java:17-25 | `PROJECTILE_FIRE`: it reports a shot for exactly the shootable targets. (The projectile it would create, through a `createProjectile` overload that does not exist, is not modelled.) |
| LegacyUnits.InstantHit | src/main/java/game/entity/FireBehavior.java:28-39 | `INSTANT_HIT`: a shootable target the tower can damage takes the damage at once. |
| LegacyUnits.AAChanceBased | src/main/java/game/entity/FireBehavior.java:42-55 | `AA_CHANCE_BASED`: `hitChance` is the firing unit's hit chance when it is an anti-air battery and None otherwise. A live target is killed, and a shot reported, only on a roll below the hit chance. |
| LegacyUnits.MoveEntity | src/main/java/game/entity/MoveBehavior.java:17-54 | Applying a movement behaviour to an enemy moves it exactly as `Moved` states: only a living enemy under a velocity-based behaviour moves, by the velocity times the time step. |
| LegacyWaves.TotalEnemiesCounts | src/main/java/game/core/WaveManager.java:96-98 | The truncated product in integer terms: four fifths of the base on easy, the base itself on medium, thirteen tenths of it on hard, each rounded down. |
| LegacyWaves.WaveSizes | src/main/java/game/core/WaveManager.java:96-98 | Waves 1 to 6 hold 8, 9, 11, 12, 14 and 16 ground enemies on easy, 10 to 20 in steps of 2 on medium, and 13, 15, 18, 20, 23 and 26 on hard. |
| LegacyWaves.RolledKind | src/main/java/game/core/WaveManager.java:109-117 | The roll thresholds: below 70 a soldier, 70 to 94 a tank, 95 and above a soldier again. |
| LegacyWaves.SpawnDelay | src/main/java/game/core/WaveManager.java:119-126 | The gap after a spawn: a tank takes twice a soldier's 1.5 seconds. |
| LegacyWaves.StartTimesIncrease | src/main/java/game/core/WaveManager.java:102-129 | Ground spawns come at least 1.5 and at most 3 seconds apart, so they are strictly in time order. |
| LegacyWaves.GroundSpawns | src/main/java/game/core/WaveManager.java:102-129 | The ground spawns of the first `n` rolls, in the order the loop adds them: the i-th on route `i mod \|routes\|`, with the rolled kind, at its start time. |
| LegacyWaves.PlaneCount | src/main/java/game/core/WaveManager.java:132-133 | Planes come from the second wave on: two on hard, one otherwise. |
| LegacyWaves.PlaneSpawns | src/main/java/game/core/WaveManager.java:132-139 | The plane spawns: no route, ten seconds in and eight seconds apart. |
| LegacyWaves.PlaneSchedule | src/main/java/game/core/WaveManager.java:132-139 | No planes before wave 2; from wave 2 on one plane at 10 seconds, with a second at 18 seconds on hard. |
| LegacyWaves.SortByTime | src/main/java/game/core/WaveManager.java:142 | `List.sort` with `Double.compare` on the spawn times, a stable sort. |
| LegacyWaves.SortIsSorted | src/main/java/game/core/WaveManager.java:142 | The sorted list is in time order and holds exactly the spawns given. |
| LegacyWaves.SortIsStable | src/main/java/game/core/WaveManager.java:142 | Stability: spawns that share a time stay in the order they were added. |
| LegacyWaves.WaveSpawnsAreOrdered | src/main/java/game/core/WaveManager.java:91-143 | A generated wave is in time order, holds every ground spawn and every plane spawn exactly once, and spawns at the same moment keep the order they were generated in. |
| LegacyWaves.KindPower | src/main/java/game/core/WaveManager.java:243-256 | The power `calculateTotalPower` counts per spawn: 1, 2 and 3. |
| LegacyWaves.SortKeepsPower | src/main/java/game/core/WaveManager.java:142 | Sorting the spawns does not change the wave's total power. |
| LegacyWaves.WavePower | src/main/java/game/core/WaveManager.java:243-256 | The power of a wave: its ground enemies' power plus three per plane. |
| LegacyWaves.EmittedAreMakers | src/main/java/game/core/WaveManager.java:145-167 | The emitted spawns are exactly the ones in the range that make an enemy. |
| LegacyWaves.EmittedPowerBounded | src/main/java/game/core/WaveManager.java:145-167 | The power released so far never exceeds the wave's total. |
| LegacyWaves.HpMultiplier | src/main/java/game/core/WaveManager.java:215-232 | The hit-point multiplier: the difficulty part times 10% more per wave after the first, written with the difficulty factor as a literal so the product stays linear in the wave. |
| LegacyWaves.HpMultiplierIsProduct | src/main/java/game/core/WaveManager.java:215-232 | The multiplier is the difficulty factor of the configuration times the wave factor. |
| LegacyWaves.AsWrittenKeepsBaseHp | src/main/java/game/core/WaveManager.java:236-240 | As written, a freshly spawned enemy gets the higher maximum but keeps its base hit points: the heal was capped by the old maximum. |
| LegacyWaves.AsWrittenWaveTwoSoldier | src/main/java/game/core/WaveManager.java:236-240 | A wave-two soldier on medium, as written: 44 maximum hit points, 40 left. |
| LegacyWaves.IntendedStartsAtScaledHp | src/main/java/game/core/WaveManager.java:236-240 | Raising the maximum first, a freshly spawned enemy starts at full health at the scaled maximum, and an enemy that needs no scaling is untouched. |
| LegacyWaves.ModifiedIsStart | src/main/java/game/core/WaveManager.java:215-241 | The modifiers applied to a fresh enemy in the intended order (maximum first, then the heal) give the starting vitals `createEnemy` is modelled with: full health at the scaled maximum. Applied in the order as written, they give the same maximum with the base hit points of the kind. |
| LegacyWaves.WaveManager.constructor | src/main/java/game/core/WaveManager.java:47-60 | The manager starts idle, with the first wave three seconds away. |
| LegacyWaves.WaveManager.Update | src/main/java/game/core/WaveManager.java:62-74 | `update`: between waves the wave clock runs and the next wave starts once it reaches the delay (spawning begins on the following call); during a wave the spawn clock runs and every spawn now due is released. The new enemies' starting hit points follow the intended heal order of `LegacyWaves.ApplyDifficultyModifiers` (Findings row 2): full scaled health, where Java's enemies keep their base hit points under the raised maximum. |
| LegacyWaves.WaveManager.StartNextWave | src/main/java/game/core/WaveManager.java:76-89 | `startNextWave`: nothing once six waves have started; otherwise the next wave begins with both clocks and the index at zero, its spawns generated and its power counted. |
| LegacyWaves.WaveManager.GenerateWaveSpawns | src/main/java/game/core/WaveManager.java:91-143 | `generateWaveSpawns`: fetches the routes, adds the ground spawns one roll at a time and the planes after them, and sorts the list by time. |
| LegacyWaves.WaveManager.BuildSpawns | src/main/java/game/core/WaveManager.java:91-143 | The list `generateWaveSpawns` builds from the routes and the rolls: ground spawns, then planes, sorted. |
| LegacyWaves.WaveManager.GroundWave | src/main/java/game/core/WaveManager.java:91-143 | The first loop of `generateWaveSpawns`: `total` ground spawns, the routes taken in turn, each roll choosing the kind and the clock advancing by that kind's delay. |
| LegacyWaves.WaveManager.AddPlanes | src/main/java/game/core/WaveManager.java:91-143 | The second loop of `generateWaveSpawns`: the planes of the wave appended. |
| LegacyWaves.WaveManager.CalculateTotalPower | src/main/java/game/core/WaveManager.java:243-256 | `calculateTotalPower`: the power of the whole list, and none spawned yet. |
| LegacyWaves.WaveManager.SpawnEnemiesIfReady | src/main/java/game/core/WaveManager.java:145-167 | `spawnEnemiesIfReady`: releases spawns in list order while the next is due, buffering and counting the enemy each one makes; the wave ends when the list is used up. The new enemies' starting hit points follow the intended heal order of `LegacyWaves.ApplyDifficultyModifiers` (Findings row 2): full scaled health, where Java's enemies keep their base hit points under the raised maximum. |
| LegacyWaves.WaveManager.ReleaseAll | src/main/java/game/core/WaveManager.java:145-167 | The loop of `spawnEnemiesIfReady` and its effect on the index, the buffer and the count. The new enemies' starting hit points follow the intended heal order of `LegacyWaves.ApplyDifficultyModifiers` (Findings row 2): full scaled health, where Java's enemies keep their base hit points under the raised maximum. |
| LegacyWaves.WaveManager.EndWaveIfDone | src/main/java/game/core/WaveManager.java:145-167 | The end of `spawnEnemiesIfReady`: the wave is over once the whole list is released. |
| LegacyWaves.WaveManager.TimeToNextWave | src/main/java/game/core/WaveManager.java:295-297 | `getTimeToNextWave`: zero during a wave, else what is left of the delay, never negative. |
| LegacyWaves.WaveManager.RemainingSpawns | src/main/java/game/core/WaveManager.java:299-301 | `getRemainingSpawns`: the spawns not yet released during a wave, none between waves. |
| LegacyWaves.WaveManager.GetSpawnedEnemies | src/main/java/game/core/WaveManager.java:314-318 | `getSpawnedEnemies`: hands over the buffered enemies and empties the buffer. |
| LegacyWaves.ReleaseDue | src/main/java/game/core/WaveManager.java:145-167 | The loop of `spawnEnemiesIfReady` on the spawn list `s` from index `from`: releases spawns in list order while the next is due at the spawn clock `timer`; returns the index it stops at, the enemies the released spawns make, in order, and the power they add to the count. The new enemies' starting hit points follow the intended heal order of `LegacyWaves.ApplyDifficultyModifiers` (Findings row 2): full scaled health, where Java's enemies keep their base hit points under the raised maximum. |
| LegacyWaves.ReleaseSpawn | src/main/java/game/core/WaveManager.java:145-167 | One turn of the loop of `spawnEnemiesIfReady` over a due spawn: the enemy it makes, if any, is `added` to the enemies `made` so far from the spawns `ss`, and its power is the `gain` to the count. The new enemies' starting hit points follow the intended heal order of `LegacyWaves.ApplyDifficultyModifiers` (Findings row 2): full scaled health, where Java's enemies keep their base hit points under the raised maximum. |
| LegacyWaves.CreateEnemy | src/main/java/game/core/WaveManager.java:169-213 | `createEnemy` at difficulty `d` in wave `wave`: a soldier or tank on the spawn's route with the difficulty modifiers applied in the intended order (Findings row 2), so it starts at full scaled health where Java's enemy keeps its base hit points under the raised maximum. A spawn without a route fails in the enemy constructor, and the failure is caught: no enemy. A plane spawn makes no enemy either, since the plane branch does not compile (see Left out). |
| LegacyWaves.ApplyDifficultyModifiers | src/main/java/game/core/WaveManager.java:215-241 | `applyDifficultyModifiers`, with the maximum raised before the heal (the intended order): a fresh enemy starts at full scaled health. |
| LegacyWaves.ApplyDifficultyModifiersAsWritten | src/main/java/game/core/WaveManager.java:215-241 | `applyDifficultyModifiers` as written: heal first, then raise the maximum. |
| Math2D.PointDistance | TowerDefenseFX/src/main/java/com/tdgame/util/Math2D.java:74-76 | `p.distanceTo(q)` is never negative. |
| Math2D.MeasuredWithin | TowerDefenseFX/src/main/java/com/tdgame/util/Math2D.java:11-15 | Where the injected distance measures Euclidean distance, `distance(p, q) <= r` holds exactly when the squared-distance test does. |
| Math2D.DistanceSquared | TowerDefenseFX/src/main/java/com/tdgame/util/Math2D.java:20-24 | The squared distance is non-negative and is 0 between equal points. |
| Math2D.Lerp | TowerDefenseFX/src/main/java/com/tdgame/util/Math2D.java:45-47 | `lerp` gives `a` at 0 and `b` at 1, and between them a value between `a` and `b`. |
| Math2D.Clamp | TowerDefenseFX/src/main/java/com/tdgame/util/Math2D.java:52-54 | `clamp` stays within [min, max], leaves a value already inside unchanged and moves one outside to the nearer bound; with min > max the result is min, as `Math.max(min, Math.min(max, v))` gives. |
| Math2D.PointInCircle | TowerDefenseFX/src/main/java/com/tdgame/util/Math2D.java:59-61 | Exactly `distance(p, c) <= radius` for a non-negative radius; a negative radius acts as its absolute value, since the source compares squares. |
| Math2D.NormalizeAngle | TowerDefenseFX/src/main/java/com/tdgame/util/Math2D.java:36-40 | The result lies in [0, 2π) and differs from the input by whole turns; the two loops run until it does. |
| Pathfinding.GetPositionOnPath | TowerDefenseFX/src/main/java/com/tdgame/model/systems/Pathfinding.java:34-37 | The origin without a main path; otherwise the main path's position at that progress. |
| Pathfinding.GetPathLength | TowerDefenseFX/src/main/java/com/tdgame/model/systems/Pathfinding.java:42-45 | `getPathLength`: the main path's length, or 0 without a path. |
| Pathfinding.ProjectionParameter | TowerDefenseFX/src/main/java/com/tdgame/model/systems/Pathfinding.java:69-83 | The projection parameter, clamped, lies in [0, 1]. |
| Pathfinding.DistanceToLineSegment | TowerDefenseFX/src/main/java/com/tdgame/model/systems/Pathfinding.java:69-83 | `distanceToLineSegment`: for a degenerate segment the distance to its point, else the distance to the projection clamped onto the segment. The source compares `sqrt(dx² + dy²)` with 0, which holds exactly when the squared length is 0, and divides by the square of that root, which is the squared length. |
| Pathfinding.ProjectionOnSegment | TowerDefenseFX/src/main/java/com/tdgame/model/systems/Pathfinding.java:69-83 | The projection is a point of the segment. |
| Pathfinding.ProjectionIsClosest | TowerDefenseFX/src/main/java/com/tdgame/model/systems/Pathfinding.java:69-83 | The clamped projection is a closest point of the segment: no point of the segment is nearer to the point. |
| Pathfinding.NearFromIffSomeSegment | TowerDefenseFX/src/main/java/com/tdgame/model/systems/Pathfinding.java:50-64 | The early-exit scan finds a near segment exactly when one exists at or after `i`. |
| Pathfinding.IsOnPath | TowerDefenseFX/src/main/java/com/tdgame/model/systems/Pathfinding.java:50-64 | `isOnPath`: false without a main path; otherwise whether some segment is within tolerance. |
| Placeables.SpeedBump.constructor | TowerDefenseFX/src/main/java/com/tdgame/model/placeables/SpeedBump.java:26-34 | `new SpeedBump(x, y, slowMultiplier, duration, spriteIndex)`: active, with its whole duration left. |
| Placeables.SpeedBump.Update | TowerDefenseFX/src/main/java/com/tdgame/model/placeables/SpeedBump.java:39-60 | `update`: an inactive bump does nothing. An active one loses `dt` seconds; once none are left it turns inactive for good and slows no one on that tick. Otherwise the affected set becomes exactly the enemies in play within 48 px, and each of them, and no other, takes the half-second slow (once, however often it is listed). |
| Placeables.SpeedBump.SlowInRange | TowerDefenseFX/src/main/java/com/tdgame/model/placeables/SpeedBump.java:39-60 | The scan of `update` on a live bump: the affected set is rebuilt from the enemies in range, each of which takes the slow. |
| Placeables.SpeedBump.RemainingPercent | TowerDefenseFX/src/main/java/com/tdgame/model/placeables/SpeedBump.java:65-67 | `getRemainingPercent`: 0 once inactive; while active, the share of the duration left, which lies in (0, 1] while the time left is positive and at most the duration. An active bump of duration 0 gives 0 (see Left out). |
| Placeables.SlowOnce | TowerDefenseFX/src/main/java/com/tdgame/model/placeables/SpeedBump.java:47-56 | One `applySlow` on the enemy at index `i`: enemies already slowed this tick keep their slow (applying the same slow twice is applying it once), the enemy at `i` joins them, and no other enemy changes. |
| Placeables.WoundedTimesAircraft | TowerDefenseFX/src/main/java/com/tdgame/model/placeables/Bomb.java:60-76 | Later hits on an enemy killed by an earlier one change nothing, and an aircraft is downed by its first hit: more hits are the same as one. |
| Placeables.WoundedTimesGround | TowerDefenseFX/src/main/java/com/tdgame/model/placeables/Bomb.java:60-76 | A ground enemy hit `n` times has the health of `n` equal hits. |
| Placeables.Bomb.constructor | TowerDefenseFX/src/main/java/com/tdgame/model/placeables/Bomb.java:24-30 | `new Bomb(x, y, damage, radius, spriteIndex)`: armed, not exploded, timer at 0. |
| Placeables.Bomb.Update | TowerDefenseFX/src/main/java/com/tdgame/model/placeables/Bomb.java:35-55 | `update`: an exploded bomb only advances its explosion timer; an armed one explodes exactly when some enemy in play is within its trigger range, and otherwise nothing changes. |
| Placeables.Bomb.Trigger | TowerDefenseFX/src/main/java/com/tdgame/model/placeables/Bomb.java:81-83 | `trigger`: the same as an explosion from `update`. |
| Placeables.Bomb.Explode | TowerDefenseFX/src/main/java/com/tdgame/model/placeables/Bomb.java:60-76 | `explode`: once only. An armed bomb disarms, is marked exploded and damages every enemy within the blast; a second call does nothing. |
| Placeables.Bomb.BlastAll | TowerDefenseFX/src/main/java/com/tdgame/model/placeables/Bomb.java:60-76 | The blast of `explode`: every enemy in it takes the damage. |
| Placeables.Bomb.BlastAt | TowerDefenseFX/src/main/java/com/tdgame/model/placeables/Bomb.java:65-73 | One step of the blast, at index `i`: an enemy alive, not at the castle and within 1.2 times the trigger range takes the damage. Every listing of the enemy at `i` counts one more blast hit; no other enemy changes. |
| Placeables.Bomb.ExplosionProgress | TowerDefenseFX/src/main/java/com/tdgame/model/placeables/Bomb.java:101-103 | `getExplosionProgress`: 0 before the explosion, then the share of the half-second shown, capped at 1; it reaches 1 exactly when the explosion is complete. |
| Rules.EnemyPower | TowerDefenseFX/src/main/java/com/tdgame/model/systems/Rules.java:118-127 | Every enemy type, known or not, has a power between 1 and 3. |
| Rules.EnemyPowerIgnoresCase | TowerDefenseFX/src/main/java/com/tdgame/model/systems/Rules.java:118-127 | Spellings that lower-case to the same text have the same power. |
| Rules.TotalEnemyPowerAppend | TowerDefenseFX/src/main/java/com/tdgame/model/systems/Rules.java:96-113 | The total power of a wave list is additive over concatenation. |
| Rules.GroupsPowerAtLeastCount | TowerDefenseFX/src/main/java/com/tdgame/model/systems/Rules.java:96-113 | With non-negative counts, every group and wave adds at least its enemy count. |
| Rules.SoldierWavePower | TowerDefenseFX/src/main/java/com/tdgame/model/systems/Rules.java:96-113 | One wave of `n` soldiers and no aircraft has total power `n`. |
| Rules.LeakPercentage | TowerDefenseFX/src/main/java/com/tdgame/model/systems/Rules.java:139-141 | `leaked / total` as a double, and 0 when the total is 0. |
| Rules.DefeatIffLeakedReachesShare | TowerDefenseFX/src/main/java/com/tdgame/model/systems/Rules.java:63-80 | Defeat holds exactly when leaked >= threshold × total (for positive total). |
| Rules.RemainingLeakAllowance | TowerDefenseFX/src/main/java/com/tdgame/model/systems/Rules.java:146-151 | 1.0 when there is no total power; otherwise `threshold - leaked/total`, held at 0 from below. |
| Rules.AllowanceExhaustedIffDefeat | TowerDefenseFX/src/main/java/com/tdgame/model/systems/Rules.java:146-151 | With positive total power, the allowance is used up exactly when defeat is reached. |
| Rules.ThresholdIsInclusive | TowerDefenseFX/src/main/java/com/tdgame/model/systems/Rules.java:63-80 | 10 leaked of 100 at threshold 0.1 is already a defeat and 9 is not: the comparison is inclusive. 5 of 100 leaves an allowance of 0.05. |
| Rules.Rules.constructor | TowerDefenseFX/src/main/java/com/tdgame/model/systems/Rules.java:22-33 | The threshold is set and the total power is the sum over the configured waves; nothing leaked, no game over. |
| Rules.Rules.CalculateTotalEnemyPower | TowerDefenseFX/src/main/java/com/tdgame/model/systems/Rules.java:96-113 | Recomputes the total power by summing over every wave and every group. |
| Rules.Rules.Update | TowerDefenseFX/src/main/java/com/tdgame/model/systems/Rules.java:35-40 | One tick of the evaluator: nothing once the game is over; otherwise the victory check and then the defeat check. The returned events are the GameOver events the source publishes. |
| Rules.Rules.CheckVictoryConditions | TowerDefenseFX/src/main/java/com/tdgame/model/systems/Rules.java:45-58 | Once won, nothing changes; otherwise all waves complete with no live enemy sets victory and game over and publishes GameOver(true), and anything else clears victory. |
| Rules.Rules.CheckDefeatConditions | TowerDefenseFX/src/main/java/com/tdgame/model/systems/Rules.java:63-80 | Once over, nothing changes; otherwise reaching the leak share ends the game as a defeat and publishes GameOver(false), and anything else changes nothing. |
| Rules.Rules.OnEnemyReachedCastle | TowerDefenseFX/src/main/java/com/tdgame/model/systems/Rules.java:85-91 | A leak adds its power unconditionally, also after the game is over. |
| Rules.Rules.AddEnemyPower | TowerDefenseFX/src/main/java/com/tdgame/model/systems/Rules.java:132-134 | The total grows by the given power. |
| Rules.Rules.Reset | TowerDefenseFX/src/main/java/com/tdgame/model/systems/Rules.java:156-161 | Both power totals are 0 and the game is neither over nor won. |
| Selection.MaxScanIsFirstMaximum | TowerDefenseFX/src/main/java/com/tdgame/model/actors/Aircraft.java:138-156 | The strictly-greater scan finds the first eligible entry of highest key above the initial best: every eligible key is at most the result, earlier eligible keys are strictly smaller, and it finds nothing exactly when no eligible key beats the initial best. |
| Selection.MinScanIsFirstMinimum | src/main/java/game/entity/TargetingStrategy.java:20-36 | The strictly-smaller scan finds the first eligible entry of lowest key below the initial best: every eligible key is at least the result, earlier eligible keys are strictly larger, and it finds nothing exactly when no eligible key is below the initial best. |
| Strikes.TowerScoreCounts | TowerDefenseFX/src/main/java/com/tdgame/model/systems/AircraftStrikeSystem.java:108-134 | A line without a live tower scores 0 from towers; with positive hp everywhere, the score is never negative and is positive exactly when a live tower stands on the line. |
| Strikes.AAScoreCounts | TowerDefenseFX/src/main/java/com/tdgame/model/systems/AircraftStrikeSystem.java:108-134 | An AA defense adds to a line's score only if it stands on the line; with positive maxima the score is non-negative, and positive exactly when some defense stands on the line. |
| Strikes.LineScoreMeansDefenders | TowerDefenseFX/src/main/java/com/tdgame/model/systems/AircraftStrikeSystem.java:108-165 | A line scores only through the live defenses on it: without one the score is 0, and when every defense has positive hp the score is positive exactly when one stands there. |
| Strikes.BestStrikeIsFirstMaximum | TowerDefenseFX/src/main/java/com/tdgame/model/systems/AircraftStrikeSystem.java:77-103 | The chosen line has the highest positive score; among lines of that score the first row wins, and a column only when it beats every row. Nothing is chosen exactly when no line scores above 0. |
| Strikes.ChosenLineIsDefended | TowerDefenseFX/src/main/java/com/tdgame/model/systems/AircraftStrikeSystem.java:77-103 | A chosen line always holds a live defense. |
| Strikes.QueuedStrikes | TowerDefenseFX/src/main/java/com/tdgame/model/systems/AircraftStrikeSystem.java:56-72 | Called strikes target the chosen line, with the 1 s warning and 50 damage. |
| Strikes.ValidAircraftNeverReady | TowerDefenseFX/src/main/java/com/tdgame/model/systems/AircraftStrikeSystem.java:43-44 | An aircraft that satisfies its class invariant never calls a strike: its path progress stays 0. |
| Strikes.Countdown | TowerDefenseFX/src/main/java/com/tdgame/model/systems/AircraftStrikeSystem.java:170-181 | After `dt`, every strike still pending has exactly `dt` less warning, and only strikes whose warning stayed positive remain, in order. |
| Strikes.Due | TowerDefenseFX/src/main/java/com/tdgame/model/systems/AircraftStrikeSystem.java:170-181 | The strikes that land after `dt` are those whose warning runs out, in list order. |
| Strikes.DueOrKept | TowerDefenseFX/src/main/java/com/tdgame/model/systems/AircraftStrikeSystem.java:170-181 | Every pending strike either goes off or stays, not both. |
| Strikes.NothingPendingNothingExecutes | TowerDefenseFX/src/main/java/com/tdgame/model/systems/AircraftStrikeSystem.java:170-181 | With no strike pending, no run of updates executes any strike. |
| Strikes.ExecutesOnce | TowerDefenseFX/src/main/java/com/tdgame/model/systems/AircraftStrikeSystem.java:170-181 | A strike goes off at most once, whatever the updates, and it goes off exactly when its warning runs out: at some update the time elapsed so far has reached its warning time. |
| Strikes.AircraftStrikeSystem.constructor | TowerDefenseFX/src/main/java/com/tdgame/model/systems/AircraftStrikeSystem.java:23-27 | A system for a grid of `rows` by `cols` tiles of `tileSize` pixels, with nothing queued. |
| Strikes.AircraftStrikeSystem.Update | TowerDefenseFX/src/main/java/com/tdgame/model/systems/AircraftStrikeSystem.java:29-35 | `update`: aircraft that are ready call their strikes, then every pending strike, the new ones included, counts down and the due ones land. |
| Strikes.AircraftStrikeSystem.CheckForAircraftStrikes | TowerDefenseFX/src/main/java/com/tdgame/model/systems/AircraftStrikeSystem.java:40-51 | `checkForAircraftStrikes`: each ready aircraft calls a strike on the best line and is marked as having struck, so it calls at most one. |
| Strikes.AircraftStrikeSystem.TriggerOptimalStrike | TowerDefenseFX/src/main/java/com/tdgame/model/systems/AircraftStrikeSystem.java:56-72 | `triggerOptimalStrike`: queue a strike on the best line, if there is one. |
| Strikes.AircraftStrikeSystem.CalculateOptimalStrike | TowerDefenseFX/src/main/java/com/tdgame/model/systems/AircraftStrikeSystem.java:77-103 | `calculateOptimalStrike`: every row, then every column, is scored and the first strictly best one is kept. |
| Strikes.AircraftStrikeSystem.ScanLines | TowerDefenseFX/src/main/java/com/tdgame/model/systems/AircraftStrikeSystem.java:77-103 | One of the two scans of `calculateOptimalStrike`: lines 0 to `n - 1` of one direction, each replacing the running best only with a strictly higher score. |
| Strikes.AircraftStrikeSystem.StrikeValue | TowerDefenseFX/src/main/java/com/tdgame/model/systems/AircraftStrikeSystem.java:108-134 | `calculateRowStrikeValue` (`isRow`) and `calculateColumnStrikeValue`: twice the full hp of each live tower and three times that of each live AA defense whose grid cell is on the line. |
| Strikes.AircraftStrikeSystem.UpdatePendingStrikes | TowerDefenseFX/src/main/java/com/tdgame/model/systems/AircraftStrikeSystem.java:170-181 | `updatePendingStrikes`: in list order, each strike has `dt` taken off its warning; one at or below 0 lands and is removed. |
| Strikes.AircraftStrikeSystem.ExecuteStrike | TowerDefenseFX/src/main/java/com/tdgame/model/systems/AircraftStrikeSystem.java:186-242 | `executeStrike`: the row or column strike hits every live tower and AA defense on its line. Stated over the strikes landed so far: each entity's health is what its marked health takes from the blows on its line. |
| Strikes.AircraftStrikeSystem.HitTowers | TowerDefenseFX/src/main/java/com/tdgame/model/systems/AircraftStrikeSystem.java:202-209 | The tower loop of `executeRowStrike` / `executeColumnStrike`. After one more strike every tower holds the health its marked health takes from all blows so far on its grid line, counted once per listing. A tank turret that dies drops its shells. |
| Strikes.AircraftStrikeSystem.HitAA | TowerDefenseFX/src/main/java/com/tdgame/model/systems/AircraftStrikeSystem.java:211-218 | The AA loop of `executeRowStrike` / `executeColumnStrike`. After one more strike every AA defense holds the health its marked health takes from all blows so far on its grid line, counted once per listing. |
| Targeting.FastBonusBounds | TowerDefenseFX/src/main/java/com/tdgame/model/actors/FastTower.java:99-102 | For an enemy in range, a fast tower's priority is its progress plus a nearness bonus between 0 and 0.5. |
| Targeting.PowerPrefersHealthier | TowerDefenseFX/src/main/java/com/tdgame/model/actors/PowerTower.java:41-45 | With equal progress and maximum hp, a power tower ranks the healthier enemy strictly higher. |
| Targeting.TowerChoice | TowerDefenseFX/src/main/java/com/tdgame/model/actors/Tower.java:58-77 | The chosen enemy, if any, is one of the listed enemies. |
| Targeting.TowerChoiceIsBest | TowerDefenseFX/src/main/java/com/tdgame/model/actors/Tower.java:58-77 | `acquireTarget` picks the first candidate of highest priority provided that priority beats -1, and picks nothing exactly when no candidate's priority does. |
| Targeting.TowerFindsAnyCandidate | TowerDefenseFX/src/main/java/com/tdgame/model/actors/Tower.java:58-94 | With progress and hp never negative, a tower picks nothing exactly when no enemy is a candidate. |
| Targeting.AAChoice | TowerDefenseFX/src/main/java/com/tdgame/model/actors/AADefense.java:57-74 | The chosen aircraft, if any, is one of the listed enemies. |
| Targeting.AAChoiceIsBest | TowerDefenseFX/src/main/java/com/tdgame/model/actors/AADefense.java:57-74 | An AA defense picks an aircraft in range, the first of highest progress, and with progress never negative it picks nothing exactly when no aircraft is in range. |
| Targeting.LineCounts | TowerDefenseFX/src/main/java/com/tdgame/model/actors/Aircraft.java:112-136 | Every row or column count is the number of live defenders on that line. |
| Targeting.BestLineIsFirstMaximum | TowerDefenseFX/src/main/java/com/tdgame/model/actors/Aircraft.java:138-156 | The busiest-line scan's count is the maximum of 0 and every count, it sits on the first line holding it, and with no positive count the middle line is the fallback. |
| Targeting.PlanStrikesBusiestLine | TowerDefenseFX/src/main/java/com/tdgame/model/actors/Aircraft.java:138-186 | A chosen row holds at least as many defenders as every row and column, a chosen column more than every row and at least as many as every column, and the middle row is chosen exactly when no line holds anyone. |
| Targeting.FlightFollowsLine | TowerDefenseFX/src/main/java/com/tdgame/model/actors/Aircraft.java:159-186 | The flight runs along the planned line: its fixed coordinate lies on that line, and start and target share it. |
| Vitals.Damaged | TowerDefenseFX/src/main/java/com/tdgame/model/actors/Enemy.java:215-226 | `takeDamage` of enemies, towers and AA: ignored once dead; otherwise hp drops by the damage, and at or below zero the owner dies with hp held at 0. |
| Vitals.DiesAtMostOnce | TowerDefenseFX/src/main/java/com/tdgame/model/actors/Enemy.java:215-226 | Over any run of hits the owner dies at most once: exactly once when it was alive and ends dead, never otherwise; hits leave a dead owner as it is. |
| Vitals.SurvivesIffDamageBelowHp | TowerDefenseFX/src/main/java/com/tdgame/model/actors/Enemy.java:215-226 | With non-negative hits, a living owner survives exactly when the total damage stays below its hp; a survivor keeps hp minus the total and a dead one has hp 0. |
| Vitals.Applied | TowerDefenseFX/src/main/java/com/tdgame/model/actors/Enemy.java:231-234 | `applySlow`: the stronger of the current and the new effect wins on each axis, the smaller multiplier and the longer duration. |
| Vitals.AppliedCommutes | TowerDefenseFX/src/main/java/com/tdgame/model/actors/Enemy.java:231-234 | Two slows applied in either order leave the same effect. |
| Vitals.AppliedIdempotent | TowerDefenseFX/src/main/java/com/tdgame/model/actors/Enemy.java:231-234 | Re-applying the same slow changes nothing. |
| Vitals.Ticked | TowerDefenseFX/src/main/java/com/tdgame/model/actors/Enemy.java:201-210 | `updateStatusEffects`: a running slow loses `dt` seconds, and once its time is up the multiplier reverts to 1; an expired slow is left alone. |
| Vitals.SlowHolds | TowerDefenseFX/src/main/java/com/tdgame/model/actors/Enemy.java:201-210 | While fewer seconds than the duration have passed, the multiplier holds and the duration has run down by exactly the elapsed time. |
| Vitals.SlowExpires | TowerDefenseFX/src/main/java/com/tdgame/model/actors/Enemy.java:201-210 | Once the ticks cover the duration, the multiplier is back at 1 and the duration is spent. |
| Vitals.Advanced | TowerDefenseFX/src/main/java/com/tdgame/model/actors/Enemy.java:116-138 | `moveAlongPath`'s progress update: the distance covered as a fraction of the path length is added and the result clamped to [0, 1]. It never leaves [0, 1], never moves back for a non-negative distance, and reaches 1 exactly when the unclamped progress does. |
| Vitals.ShotStep | TowerDefenseFX/src/main/java/com/tdgame/model/actors/Projectile.java:38-69 | One projectile tick keeps the flag invariant, never clears a hit, hits exactly when an active, unhit projectile reaches its target (and then shows the hit effect for its full time), and ends the projectile exactly when a running hit effect runs out. |
| Vitals.Destroyed | TowerDefenseFX/src/main/java/com/tdgame/model/actors/Projectile.java:91-93 | A destroyed shot is inactive, keeps its hit flag and keeps the shot invariant. |
| Vitals.HitsAtMostOnce | TowerDefenseFX/src/main/java/com/tdgame/model/actors/Projectile.java:38-93 | Over any run of ticks and destroys a projectile hits at most once: once exactly when it had not hit at the start and has at the end; the flag invariant is kept. |
| Vitals.TurnStep | TowerDefenseFX/src/main/java/com/tdgame/model/actors/FastTower.java:63-70 | Within 0.05 rad the rotation stays; a difference below the step snaps to the target; otherwise the rotation moves by exactly the step, in the direction of the difference. |
| Vitals.WrappedInRange | TowerDefenseFX/src/main/java/com/tdgame/model/actors/FastTower.java:58-62 | The wrapped difference lies in [-π, π] and differs from the input by whole turns. |
| Vitals.WrapDownTurns | TowerDefenseFX/src/main/java/com/tdgame/model/actors/FastTower.java:61 | The first wrapping loop leaves the difference at most π, changed by whole turns, and leaves one already at most π alone. |
| Vitals.WrapUpTurns | TowerDefenseFX/src/main/java/com/tdgame/model/actors/FastTower.java:62 | The second wrapping loop takes a difference at most π into [-π, π], changed by whole turns. |
| Vitals.WrapDifference | TowerDefenseFX/src/main/java/com/tdgame/model/actors/FastTower.java:58-62 | The two loops end with the difference in [-π, π], equal to the reference wrapping. |
| Waves.KindOf | TowerDefenseFX/src/main/java/com/tdgame/model/systems/WaveManager.java:164-176 | `createEnemy(type)`: the enemy a type name makes (case-insensitively), and none for an unknown name. |
| Waves.KindOfIgnoresCase | TowerDefenseFX/src/main/java/com/tdgame/model/systems/WaveManager.java:164-176 | Spellings that lower-case to the same text make the same enemy kind. |
| Waves.AircraftIsKnown | TowerDefenseFX/src/main/java/com/tdgame/model/systems/WaveManager.java:181-191 | The name "aircraft" a strike asks for always makes an aircraft, so the strike's null test never fails. |
| Waves.OpeningKeepsConsistent | TowerDefenseFX/src/main/java/com/tdgame/model/systems/WaveManager.java:64-66 | The opening phase keeps the wave index; it announces the wave exactly when the wave is due, then starts it, and sends an aircraft exactly when the wave has not sent one and the draw falls below its aircraft chance. |
| Waves.EmittingKeepsConsistent | TowerDefenseFX/src/main/java/com/tdgame/model/systems/WaveManager.java:69-71 | The spawning phase changes only the spawner's index, counter and timer, and creates at most one enemy. |
| Waves.UpdateKeepsConsistent | TowerDefenseFX/src/main/java/com/tdgame/model/systems/WaveManager.java:58-77 | An update keeps the scheduler's consistency invariant, under the completion test as written and under the intended one. |
| Waves.NoWavesNeverComplete | TowerDefenseFX/src/main/java/com/tdgame/model/systems/WaveManager.java:47-56 | With no waves configured, starting schedules nothing and the waves are never all complete. |
| Waves.NoWavesStayIdle | TowerDefenseFX/src/main/java/com/tdgame/model/systems/WaveManager.java:47-77 | With no waves configured, no run of updates ever reports all waves complete. |
| Waves.FinishedStaysFinished | TowerDefenseFX/src/main/java/com/tdgame/model/systems/WaveManager.java:58-61 | Once every wave is over an update only advances the clock. |
| Waves.BeginsOnlyWhenDue | TowerDefenseFX/src/main/java/com/tdgame/model/systems/WaveManager.java:64-66 | A wave starts (and its start is announced, with its 1-based number) exactly when it is scheduled, not yet started, and the clock has reached its delay. |
| Waves.AtMostOneOfEach | TowerDefenseFX/src/main/java/com/tdgame/model/systems/WaveManager.java:58-77 | An update sends at most one strike aircraft and spawns at most one enemy. The aircraft comes only with the start of a wave that has not sent one, when the draw falls below the wave's aircraft chance, and then always. |
| Waves.NoSecondStart | TowerDefenseFX/src/main/java/com/tdgame/model/systems/WaveManager.java:102-114 | A started wave publishes nothing and sends no further aircraft: one strike at most per wave. |
| Waves.CompletionAdvances | TowerDefenseFX/src/main/java/com/tdgame/model/systems/WaveManager.java:196-205 | Finishing a wave moves the cursor on by one; the waves are all complete exactly when that was the last, and otherwise the next wave is scheduled, not started, with an empty remaining list, a fresh spawner and the strike flag cleared. |
| Waves.NextWaveScheduledFresh | TowerDefenseFX/src/main/java/com/tdgame/model/systems/WaveManager.java:196-205 | The update that moves on to the next wave leaves that wave scheduled afresh. |
| Waves.WaveNumberAfterStart | TowerDefenseFX/src/main/java/com/tdgame/model/systems/WaveManager.java:102-114 | Right after the update that announces wave `n`, the current wave number is `n`. |
| Waves.SpawnAttemptAdvances | TowerDefenseFX/src/main/java/com/tdgame/model/systems/WaveManager.java:132-159 | Every spawn attempt moves the spawner forward, whether or not the type is known: either the counter goes up by one, or (after `count` attempts) the next group becomes current with the counter at zero and its gap as the wait. The attempt creates the named enemy, or nothing for an unknown type. |
| Waves.GroupTakesItsCount | TowerDefenseFX/src/main/java/com/tdgame/model/systems/WaveManager.java:132-159 | A group takes exactly its count of attempts (one for a count that is not positive) from its first attempt to the next group, and creates one enemy per attempt when its type is known and none otherwise. |
| Waves.AsWrittenStalls | TowerDefenseFX/src/main/java/com/tdgame/model/systems/WaveManager.java:69-76 | As written, one update of a started wave with groups leaves it started, on the same wave and groups. |
| Waves.AsWrittenWaveNeverCompletes | TowerDefenseFX/src/main/java/com/tdgame/model/systems/WaveManager.java:74 | As written, a wave with at least one group never completes: spawning leaves the remaining list as it was, so the emptiness test fails on every later update, the wave stays started and the waves are never all complete. |
| Waves.OneSoldierWave | TowerDefenseFX/src/main/java/com/tdgame/model/systems/WaveManager.java:47-77 | On the one-soldier schedule, the first update after `start` starts the wave and spawns the soldier. The intended test then completes the wave and with it the schedule; as written the wave stays started. |
| Waves.IntendedCompletesAfterLastGroup | TowerDefenseFX/src/main/java/com/tdgame/model/systems/WaveManager.java:74 | Under the intended test, a wave that is still started after an update has groups left to emit: the update that emits the last group completes the wave. |
| Waves.WaveManager.constructor | TowerDefenseFX/src/main/java/com/tdgame/model/systems/WaveManager.java:40-45 | A new manager holds the configured waves, stats, path and enemy list, and is before the first wave with nothing scheduled. |
| Waves.WaveManager.Start | TowerDefenseFX/src/main/java/com/tdgame/model/systems/WaveManager.java:47-56 | The clock and the wave index are rewound and the first wave, if any, is scheduled; the enemy list is untouched and the invariant holds. |
| Waves.WaveManager.Update | TowerDefenseFX/src/main/java/com/tdgame/model/systems/WaveManager.java:58-77 | `update(dt)`, with the intended completion test. The enemies it creates are appended to `enemies`, in order. |
| Waves.WaveManager.StartIfDue | TowerDefenseFX/src/main/java/com/tdgame/model/systems/WaveManager.java:64-66 | The first step of `update`: the current wave starts once its delay has passed. |
| Waves.WaveManager.SpawnIfStarted | TowerDefenseFX/src/main/java/com/tdgame/model/systems/WaveManager.java:69-71 | The second step of `update`: a started wave goes on spawning. |
| Waves.WaveManager.CompleteIfDone | TowerDefenseFX/src/main/java/com/tdgame/model/systems/WaveManager.java:74-76 | The last step of `update`, with the intended completion test. |
| Waves.WaveManager.ScheduleNextWave | TowerDefenseFX/src/main/java/com/tdgame/model/systems/WaveManager.java:82-97 | The wave at the index becomes current with a fresh spawner, or all waves are complete past the last one; the enemy list is untouched. |
| Waves.WaveManager.StartCurrentWave | TowerDefenseFX/src/main/java/com/tdgame/model/systems/WaveManager.java:102-114 | The wave starts and its groups become the remaining list; the start is announced with the wave's number, and a draw below the wave's aircraft chance appends one fresh aircraft on arrival to the enemy list. |
| Waves.WaveManager.UpdateEnemySpawning | TowerDefenseFX/src/main/java/com/tdgame/model/systems/WaveManager.java:119-127 | With groups remaining the spawn timer runs down, and once it is spent one spawn attempt is made; every enemy it creates is fresh, arriving, and appended to the list. |
| Waves.WaveManager.SpawnNextEnemy | TowerDefenseFX/src/main/java/com/tdgame/model/systems/WaveManager.java:132-159 | One spawn attempt: an enemy of the current group's type, if the type is known, is appended fresh and arriving; the attempt is counted and after the group's count the next group becomes current. |
| Waves.WaveManager.CountSpawn | TowerDefenseFX/src/main/java/com/tdgame/model/systems/WaveManager.java:144-158 | The bookkeeping half of `spawnNextEnemy`: count the attempt and move to the next group once this one is done. |
| Waves.WaveManager.CreateEnemy | TowerDefenseFX/src/main/java/com/tdgame/model/systems/WaveManager.java:164-176 | `createEnemy`: a new enemy of the named type with that type's stats, or null for an unknown name. |
| Waves.WaveManager.CreateOnPath | TowerDefenseFX/src/main/java/com/tdgame/model/systems/WaveManager.java:138-142 | A new enemy of the named type, put on the main path (an aircraft ignores it), or null for an unknown name. |
| Waves.WaveManager.ScheduleAircraftStrike | TowerDefenseFX/src/main/java/com/tdgame/model/systems/WaveManager.java:181-191 | One fresh aircraft is appended, on arrival, unless the wave already sent one. |
| Waves.WaveManager.CompleteCurrentWave | TowerDefenseFX/src/main/java/com/tdgame/model/systems/WaveManager.java:196-205 | The index moves on and the next wave is scheduled, or all waves are complete after the last; the enemy list is untouched. |

## Left out

- Rendering and input are presentation, not game logic: the JavaFX canvases, the HUD, menus, toasts, the old `BuildMenu`, the input controller, the App classes and the `GameLoop.render*` methods (src/main/java/game/core/GameLoop.java:238-342).
- Assets and SVG (sprite stores, the SVG atlas extractor, `ResourceManager.loadSprites`/`getSprite`) depend on file I/O and XML parsing. Config.ASSET_MAP is not modelled either.
- Configuration loading (Jackson JSON, `GameConfig`, `Balance`, `LevelData`) is I/O. Only the data shapes the systems consume are modelled, in `GameData`. The FX `GridMap` constructor reads its level from that data, so its tile generation (GridMap.java:71-113) is not modelled; the map's state is a parameter of `Grid.GridMap`.
- Threads, schedulers and the clock are left out:
  - the income executors of both ledgers (EconomyManager.java:38-45, ResourceManager.java:24-28,59-69);
  - `Platform.runLater`, `System.nanoTime` and the `AnimationTimer`/`Game` driver.
- Each ledger's compare-and-set retry loop is one atomic step. A sequential model has no competing writer.
- The frame time is an argument `dt`, and the older loop's timestamp is an argument of `Handle`.
- Random numbers are oracle parameters:
  - the AA hit roll (AADefense.java:92, AntiAir.java:68, FireBehavior.java:49);
  - the FX aircraft roll (model/systems/WaveManager.java:111);
  - the older wave generator's rolls (src/main/java/game/core/WaveManager.java:109,184,188-201).
- Square roots, `atan2`, `cos` and `sin` are left out. Distances, bearings and moves along a bearing are the injected functions `Distance`, `Bearing` and `Mover`; range tests use squared distances.
- Cosmetics are left out:
  - the lane offsets and turn sharpness of FX enemies (model/actors/Enemy.java:60-89,143-196);
  - turret angles beyond the per-step bound;
  - fade, flash and hit-effect intensities (`getFireFlashIntensity`, `getHitEffectIntensity`);
  - `BuildMenuController.getDescription`, which returns display strings;
  - `Math2D.angle` and the `toString` methods.
- The older `Projectile` class is left out: a JavaFX `Timeline` callback drives its motion and hit, not the game tick. The older `GameLoop.updateTowers` and `updateProjectiles` (GameLoop.java:121-133,159-167) are left out with it. They also call `Tower.canShoot`/`shootAt` and `Projectile.hasReachedTarget`/`dealDamage`, which the sources do not define.
- The tank-attack phase of the FX `CombatSystem.update` (CombatSystem.java:139-155) is left out. It calls `Tank.updateNearbyEnemies`, `updateNearbyTowers`, `updateNearbyAA` and `getFiredProjectiles`, which FX Tank.java does not define. `Combat.CombatSystem.Update` runs the remaining phases and the cleanup in the source's order.
- The build-slot release in the base `onDestroyed` of FX towers and AA defences (Tower.java:118-123, AADefense.java:117-122) is left out. It calls `BuildSlot.clearSlot`, which BuildSlot.java does not define. Nothing ever calls `setBuildSlot`, so `buildSlot` is always null and the call never happens. `Actors.Tower.TakeDamage` and `Actors.AADefense.TakeDamage` therefore change no slot.
- Source that does not compile is modelled only on the branches that do:
  - the `instanceof Plane` branches of the older `FastTower`/`HeavyTower.getDamageAgainst` and of `FireBehavior.AA_CHANCE_BASED`, where the classes are unrelated;
  - the one-argument `createProjectile` that `PROJECTILE_FIRE` calls;
  - the plane branch of the older `WaveManager.createEnemy` (WaveManager.java:179-206), which returns a `Plane`, not an `Enemy`. The model makes no enemy for a plane spawn. A plane's 3 power is still counted in `totalEnemyPower`, but never in `spawnedEnemyPower`. The direction and position rolls at WaveManager.java:184,188-201 feed only this branch.
- `WaveManager.onEnemySpawned` is declared twice in the older engine (WaveManager.java:277 and 321). Only the buffering version is modelled.
- Stubs with empty bodies are not modelled:
  - the older `GameLoop.addAntiAir` (GameLoop.java:100-102);
  - `Tank.findAndShootTower` (Tank.java:41-44) and `Plane.performBombing` (Plane.java:55-58);
  - the unused helper `Plane.bombArea` (Plane.java:179-192).
- Getters that only return a field or a copy of a fixed list are read directly as fields or constants. For example: `getMoney`, `getRoute`, `getCurrentWave`, `getTotalWaves`, the `MapDefinition` slot-list getters, `Entity.getX`/`getY`/`getWidth`. `Collision.getDistance` is the injected distance function itself.
- The Python scripts are offline image generation, not part of the game.
- `Text.ToLower` lowers only ASCII letters. Java's `toLowerCase` also folds non-ASCII capitals. `Rules.EnemyPower` and `Waves.KindOf` read enemy type names through it, and those names are ASCII, so only a non-ASCII type name in a configuration would be classified differently.
- 32-bit overflow is not modelled: money and power counters are unbounded integers. This covers the FX `AtomicInteger` money and the `int` `totalEnemyPower`/`leakedEnemyPower` of Rules.java:17-18, and the older engine's `AtomicInteger` money and `int` `leakedPower`/`totalLevelPower`. Likewise, `Numerics.TruncateToInt` does not saturate at the 32-bit bounds or model NaN.
- Java doubles are exact reals here: no rounding, no overflow to an infinity and no NaN. Where that changes behaviour, the member says so on its own line below.
- LegacyUnits.Advanced: on a segment of length zero (two equal waypoints) a zero step makes Java's progress NaN (0/0) and a negative step makes it -Infinity (Enemy.java:62-65). NaN never reaches 1, so Java's enemy stalls there for good; the model leaves the walk unchanged, and the enemy moves on at its next positive step.
- Targeting.Admissible: a power tower's priority divides by the enemy's maximum hp (PowerTower.java:43). With a maximum of 0, Java's priority is NaN while the hp is 0, which is never chosen, but +Infinity once a negative hit (`takeDamage` has no sign check) has raised the hp above 0, and Java's scan would then choose that enemy. The model leaves every enemy of maximum hp 0 out of the scan, and so also leaves out a fast tower of range 0, whose priority is 0/0.
- Placeables.SpeedBump.RemainingPercent: returns 0 for an active bump of duration 0, where Java's 0/0 is NaN.
- LegacyUnits.Plane.PerformBombingOnTargets: requires a tower list without repeats. Java accepts repeats, and a tower listed twice is hit once per listing; `GameLoop.addTower` does not prevent them. Nothing in the older engine calls this method, so the case does not arise in play.
- LegacyUnits.BombRowOrColumn: requires a tower list without repeats, for the same reason.
- LegacyUnits.DamageTowersInRadius: requires a tower list without repeats, for the same reason.
- Actors.Tower.Fast: requires `stats.rpm != 0`. With rpm 0, Java's `1.0 / fireRate` after the first shot is `Infinity` (FastTower.java:27, Tower.java:51), so the tower fires once and never again. A `real` cooldown cannot hold infinity.
- Actors.Tower.Power: requires `stats.rpm != 0`, for the same reason (PowerTower.java:17, Tower.java:51).
- Actors.Tower.Turret: requires `stats.rpm != 0`, for the same reason (TankTower.java:28, Tower.java:51).
- BuildMenu.BuildMenuController.TryBuild: requires `TowerRatesSet(config)` (every tower's rpm non-zero) for tower options, because it builds through the three constructors above. A zero-rpm tower config, which Java accepts, is outside the model.
- Combat.CombatSystem.UpdateEnemies: states each enemy's motion (`Enemy.Moved`) and the events, not the damage a tank's volley or an aircraft's strike deals. Towers are only bounded: each loses at most all its shells (`ShellsShed`). The per-enemy effects are stated on `Actors.Enemy.Advance`, `Actors.Enemy.Reload` and `Actors.Enemy.UpdateAircraft`.
- Combat.StepEnemies: the same bound as `Combat.CombatSystem.UpdateEnemies`, for the same reason.
- Combat.CombatSystem.UpdateAADefenses: states per living defense only the cooldown (`Reloaded`), and that every target is an aircraft of the list or the one held before. Which aircraft is chosen and what the shot does to it are stated per defense on `Actors.AADefense.Update`, and are not passed through the phase.
- Combat.StepDefenses: the same as `Combat.CombatSystem.UpdateAADefenses`, for the same reason.
- Combat.CombatSystem.UpdatePlaceables: the per-entry facts (each bump counted down once, each bomb `Detonated`) are stated for lists without repeats. Java's lists could hold an entry twice only if it were added twice, and it would then be updated twice. `Combat.CombatSystem.UpdateSpeedBumps`, `Combat.CombatSystem.UpdateBombs`, `Combat.StepBumps`, `Combat.StepBombs`, `Combat.CombatSystem.UpdateEnemies` and `Combat.CombatSystem.UpdateAADefenses` carry the same condition.
- LegacyWaves.CreateEnemy: applies the difficulty modifiers in the intended order (`LegacyWaves.ApplyDifficultyModifiers`, the corrected half of Findings row 2), so every new enemy starts at full scaled health. Java heals first and `heal` caps at the old maximum (WaveManager.java:236-240, Entity.java:39), so its EASY and HARD enemies, and its MEDIUM enemies from wave 2, start at their base hit points under the raised maximum (a wave-2 MEDIUM soldier is 44/40 in Java, 44/44 here). `LegacyWaves.ModifiedIsStart` states both outcomes.
- LegacyWaves.ModifiedIsStart: ties the starting vitals (`StartVitals`) to the intended order; the as-written order is stated beside it, with the base hit points.
- LegacyWaves.ReleaseSpawn: the enemy it adds is `Made` with the intended heal order, as `LegacyWaves.CreateEnemy` above.
- LegacyWaves.ReleaseDue: the enemies it makes are `Made` with the intended heal order, as `LegacyWaves.CreateEnemy` above.
- LegacyWaves.WaveManager.ReleaseAll: the buffered enemies are `Made` with the intended heal order, as `LegacyWaves.CreateEnemy` above.
- LegacyWaves.WaveManager.SpawnEnemiesIfReady: the buffered enemies are `Made` with the intended heal order, as `LegacyWaves.CreateEnemy` above.
- LegacyWaves.WaveManager.Update: the buffered enemies are `Made` with the intended heal order, as `LegacyWaves.CreateEnemy` above.
- LegacyLoop.PollWaves: the buffered enemies are `Made` with the intended heal order, as `LegacyWaves.CreateEnemy` above.
- LegacyLoop.MadeAllEntered: the entry pose (`EntryPose`) carries the intended heal order's full scaled health, as `LegacyWaves.CreateEnemy` above.
- LegacyLoop.RunWaves: the enemies handed over stand in the entry pose of the intended heal order, as `LegacyWaves.CreateEnemy` above.
- LegacyLoop.GameLoop.Poll: the enemies handed over stand in the entry pose of the intended heal order, as `LegacyWaves.CreateEnemy` above.
- LegacyLoop.GameLoop.Spawn: the enemies joining the field stand in the entry pose of the intended heal order, as `LegacyWaves.CreateEnemy` above.
- LegacyLoop.GameLoop.Prepare: the enemies joining the field stand in the entry pose of the intended heal order, as `LegacyWaves.CreateEnemy` above.
- LegacyLoop.GameLoop.Judge: the enemies joining the field stand in the entry pose of the intended heal order, as `LegacyWaves.CreateEnemy` above.
- LegacyLoop.GameLoop.Update: the enemies joining the field stand in the entry pose of the intended heal order, as `LegacyWaves.CreateEnemy` above; the enemy pass, defeat and victory are judged on those hit points.
- Combat.CombatSystem.UpdateTowers: states per living tower its cooldown, flash and whether it fired at its target (`Actors.Tower.Reloaded`), not which target it chose, how it turned, or what its shells did. Those depend on the enemies as the earlier towers' shots left them; they are stated per tower on `Actors.Tower.Update` and are not passed through the phase. The per-tower fact is stated for a tower list without repeats.
- Combat.StepTowers: the same as `Combat.CombatSystem.UpdateTowers`, for the same reason.
- Combat.CombatSystem.Update: states that each surviving list is an ordered sub-list of the old one holding only live or active entries. It does not state that every live entry is kept; that half is stated exactly on `Combat.CombatSystem.CleanupDeadEntities`, which the update ends with. `!ok` stands for the uncaught null-pointer exception an aircraft raises in the enemy phase when it reads a grid it was never given.

## Findings

| source | as written | input that shows it | evidently intended | confidence | as-written member | corrected member |
|---|---|---|---|---|---|---|
| TowerDefenseFX/src/main/java/com/tdgame/model/systems/WaveManager.java:74 | A wave completes only when `remainingSpawns` is empty, but that list is filled at line 106 and cleared only at line 93, when the next wave is scheduled; spawning never drains it. | One wave holding one group of a single soldier (`Waves.OneSoldierWave`): the soldier spawns, the wave stays started, and `allWavesComplete` never becomes true, so the game can never be won. | The wave completes once every group has been emitted (`currentSpawnIndex >= enemies.size()`). | not executed | Waves.AsWrittenWaveNeverCompletes | Waves.WaveManager.Update (with Waves.IntendedCompletesAfterLastGroup) |
| src/main/java/game/core/WaveManager.java:236-240 | `applyDifficultyModifiers` heals by the hp increase before raising `maxHp`, so the heal is capped at the old maximum and the enemy starts below its new maximum. | A wave-2 soldier on MEDIUM (`LegacyWaves.AsWrittenWaveTwoSoldier`): the multiplier is 1.1, so max hp becomes 44 while current hp stays 40. | The enemy starts at full scaled health: max and current hp both `hp * multiplier`. `LegacyWaves.CreateEnemy`, and with it the whole spawn chain, uses this order. | not executed | LegacyWaves.ApplyDifficultyModifiersAsWritten (with LegacyWaves.AsWrittenKeepsBaseHp) | LegacyWaves.ApplyDifficultyModifiers (with LegacyWaves.IntendedStartsAtScaledHp) |
| src/main/java/game/core/GameLoop.java:115,233 | Every tick, `updateEnemies` adds the power of each enemy that reports `hasLeaked`. Cleanup removes an enemy only if it is dead and leaked, and a leaked enemy is still alive, so it is never removed and its power is counted again on every later tick. | One leaked soldier among eleven (`LegacyLoop.AsWrittenChargesLeakAgain`): one leak of 11 power is 9%, below the 10% defeat ratio, but after the second tick the same leak counts 18% and the game is lost. | A leaked enemy is counted once: cleanup removes enemies that are dead or leaked. | not executed | LegacyLoop.GameLoop.CleanupEntitiesAsWritten (with LegacyLoop.AsWrittenChargesLeakAgain) | LegacyLoop.GameLoop.CleanupEntities (with LegacyLoop.IntendedChargesLeakOnce) |

## Notes

- `Strikes.ValidAircraftNeverReady` proves that the FX strike system never calls a strike for an aircraft. The trigger at AircraftStrikeSystem.java:43-44 needs `pathProgress >= 0.5`. An aircraft ignores `setPath` (Aircraft.java:300-302) and never advances its progress, so progress stays 0. The strikes aircraft actually make are their own, in flight (`Actors.Enemy.UpdateAircraft`, Aircraft.java:50-93), and these are modelled. The system's queue is therefore dead code in the program as written. This is not recorded as a finding: the sources do not show whether the queue or the in-flight strike was meant to be the live mechanism, so no corrected member is offered.
