/**
 * The build menu controller: the seven things a player can build, what each
 * costs, and `tryBuild`, which checks the slot and the funds, charges the
 * cost once and then builds exactly one structure.  Towers and AA defences
 * take the slot; speed bumps and bombs are dropped at the slot's centre and
 * leave it free.
 */
module BuildMenu {
  import opened Wrappers
  import opened Events
  import opened GameData
  import opened Math2D
  import opened Actors
  import opened Placeables
  import opened Grid
  import opened Economy
  import opened Combat
  import opened Targeting

  datatype BuildOption =
    | BuildFastTower | BuildPowerTower | BuildTankTower
    | BuildAA60 | BuildAA80
    | BuildSpeedBump | BuildBomb

  /** The AA defences' sprites are fixed in the controller, not configured. */
  const AA60_SPRITE: int := 205
  const AA80_SPRITE: int := 206

  predicate IsTower(option: BuildOption)
  {
    option.BuildFastTower? || option.BuildPowerTower? || option.BuildTankTower?
  }

  predicate IsAA(option: BuildOption)
  {
    option.BuildAA60? || option.BuildAA80?
  }

  predicate IsPlaceable(option: BuildOption)
  {
    option.BuildSpeedBump? || option.BuildBomb?
  }

  /** Whether the structure takes its build slot. */
  predicate Occupies(option: BuildOption)
  {
    IsTower(option) || IsAA(option)
  }

  // ---------------------------------------------------------------------
  // What each builder builds from
  // ---------------------------------------------------------------------

  function TowerKindOf(option: BuildOption): TowerKind
    requires IsTower(option)
  {
    match option
    case BuildFastTower => FastTower
    case BuildPowerTower => PowerTower
    case BuildTankTower => TankTower
  }

  /**
   * The configuration after a tank tower is built: the tank builder writes
   * the tank sprite into the shared tank stats before it builds.
   */
  function WithTankSprite(config: BuildConfig): (r: BuildConfig)
    ensures r.tank.spriteIndex == config.tankSprite
    ensures r.fast == config.fast && r.power == config.power && r.aa60 == config.aa60 && r.aa80 == config.aa80
    ensures r.speedBump == config.speedBump && r.bomb == config.bomb
    ensures r.tank.cost == config.tank.cost && r.tank.range == config.tank.range && r.tank.rpm == config.tank.rpm
    ensures r.tank.damage == config.tank.damage && r.tank.hp == config.tank.hp
  {
    config.(tank := config.tank.(spriteIndex := config.tankSprite))
  }

  /** The stats a tower builder passes to the tower; a tank tower gets the tank sprite written into them. */
  function TowerStatsOf(config: BuildConfig, option: BuildOption): TowerStats
    requires IsTower(option)
  {
    match option
    case BuildFastTower => config.fast
    case BuildPowerTower => config.power
    case BuildTankTower => WithTankSprite(config).tank
  }

  /** The sprite a tower builder gives the tower. */
  function TowerSpriteOf(config: BuildConfig, option: BuildOption): int
    requires IsTower(option)
  {
    match option
    case BuildFastTower => config.fastSprite
    case BuildPowerTower => config.powerSprite
    case BuildTankTower => config.tankSprite
  }

  /** How fast the tower's shots fly: the configured tower shot speed, or the tank's fixed shell speed. */
  function ShotSpeedOf(config: BuildConfig, option: BuildOption): real
    requires IsTower(option)
  {
    if option.BuildTankTower? then SHELL_SPEED else config.towerShotSpeed
  }

  function AAStatsOf(config: BuildConfig, option: BuildOption): AAStats
    requires IsAA(option)
  {
    if option.BuildAA60? then config.aa60 else config.aa80
  }

  function AASpriteOf(option: BuildOption): int
    requires IsAA(option)
  {
    if option.BuildAA60? then AA60_SPRITE else AA80_SPRITE
  }

  function PlaceableStatsOf(config: BuildConfig, option: BuildOption): PlaceableStats
    requires IsPlaceable(option)
  {
    if option.BuildSpeedBump? then config.speedBump else config.bomb
  }

  /**
   * `getBuildCost`: the price of an option is the cost field of the very
   * stats its builder builds from, whatever kind of structure it is.
   */
  function BuildCost(config: BuildConfig, option: BuildOption): (cost: int)
    ensures IsTower(option) ==> cost == TowerStatsOf(config, option).cost
    ensures IsAA(option) ==> cost == AAStatsOf(config, option).cost
    ensures IsPlaceable(option) ==> cost == PlaceableStatsOf(config, option).cost
  {
    match option
    case BuildFastTower => config.fast.cost
    case BuildPowerTower => config.power.cost
    case BuildTankTower => config.tank.cost
    case BuildAA60 => config.aa60.cost
    case BuildAA80 => config.aa80.cost
    case BuildSpeedBump => config.speedBump.cost
    case BuildBomb => config.bomb.cost
  }

  /** Writing the tank sprite changes no price, so a tank build leaves every later price as it was. */
  lemma TankSpriteKeepsCosts(config: BuildConfig, option: BuildOption)
    ensures BuildCost(WithTankSprite(config), option) == BuildCost(config, option)
  {
  }

  /** Every option is exactly one of a tower, an AA defence and a placeable. */
  lemma OptionKinds(option: BuildOption)
    ensures IsTower(option) || IsAA(option) || IsPlaceable(option)
    ensures !(IsTower(option) && IsAA(option)) && !(IsTower(option) && IsPlaceable(option)) && !(IsAA(option) && IsPlaceable(option))
  {
  }

  /** The tower stats carry a non-zero rate of fire, which the tower constructors need. */
  predicate TowerRatesSet(config: BuildConfig)
  {
    config.fast.rpm != 0 && config.power.rpm != 0 && config.tank.rpm != 0
  }

  /** Moves a tower to a free slot's centre and puts it in the slot. */
  method SeatTower(tower: Tower, slot: BuildSlot, ghost kind: TowerKind, ghost stats: TowerStats, ghost sprite: int, ghost speed: real)
    requires slot.Valid() && !slot.occupied && tower.Configured(kind, stats, sprite, speed)
    modifies tower`x, tower`y, slot`tower, slot`occupied
    ensures slot.Valid() && slot.occupied && slot.tower == tower && tower.Configured(kind, stats, sprite, speed)
    ensures tower.Position() == Point(slot.worldX, slot.worldY)
  {
    tower.SetPosition(slot.worldX, slot.worldY);
    slot.PlaceTower(tower);
  }

  /** Moves an AA defence to a free slot's centre and puts it in the slot. */
  method SeatAA(aa: AADefense, slot: BuildSlot, ghost stats: AAStats, ghost sprite: int)
    requires slot.Valid() && !slot.occupied && aa.Configured(stats.hitChance, stats.range, stats.hp, sprite)
    modifies aa`x, aa`y, slot`aaDefense, slot`occupied
    ensures slot.Valid() && slot.occupied && slot.aaDefense == aa
    ensures aa.Configured(stats.hitChance, stats.range, stats.hp, sprite)
    ensures aa.Position() == Point(slot.worldX, slot.worldY)
  {
    aa.SetPosition(slot.worldX, slot.worldY);
    slot.PlaceAADefense(aa);
  }

  // ---------------------------------------------------------------------
  // The controller
  // ---------------------------------------------------------------------

  class BuildMenuController {
    /** The balance values; a tank build writes the tank sprite into them. */
    var config: BuildConfig
    const economy: EconomyManager
    const combat: CombatSystem

    constructor (config: BuildConfig, economy: EconomyManager, combat: CombatSystem)
      ensures this.config == config && this.economy == economy && this.combat == combat
    {
      this.config, this.economy, this.combat := config, economy, combat;
    }

    /** `getBuildCost` on the controller's current configuration. */
    function GetBuildCost(option: BuildOption): (cost: int)
      reads this`config
      ensures cost == BuildCost(config, option)
    {
      BuildCost(config, option)
    }

    /**
     * `canAfford(option)`: the economy could pay the option's price, that is
     * a spend of it now would succeed.
     */
    function CanAffordOption(option: BuildOption): (r: bool)
      reads this`config, economy
      ensures r <==> economy.money >= BuildCost(config, option)
      ensures r <==> Spends(economy.money, [BuildCost(config, option)]).succeeded == [true]
    {
      economy.CanAfford(BuildCost(config, option))
    }

    /**
     * `tryBuild`: fails, changing nothing, on a missing or occupied slot or
     * when the price is not covered.  Otherwise it charges the price exactly
     * once, builds exactly one structure of the chosen kind from the
     * chosen stats at the slot's centre, adds it to its combat list and, for
     * a tower or an AA defence, puts it in the slot.  The balance notice the
     * spend publishes is passed on.
     */
    method TryBuild(option: BuildOption, slot: BuildSlot?) returns (ok: bool, notice: Option<Event>)
      requires combat.Valid() && (slot != null ==> slot.Valid())
      requires IsTower(option) ==> TowerRatesSet(config)
      modifies this`config, economy`money
      modifies slot
      modifies combat`towers, combat`aaDefenses, combat`speedBumps, combat`bombs, combat`Repr
      ensures combat.Valid() && (slot != null ==> slot.Valid())
      ensures ok <==> slot != null && !old(slot.occupied) && old(economy.money) >= old(BuildCost(config, option))
      ensures economy.money == if ok then old(economy.money) - old(BuildCost(config, option)) else old(economy.money)
      ensures notice == if ok then Some(MoneyChanged(economy.money)) else None
      ensures config == if ok && option.BuildTankTower? then WithTankSprite(old(config)) else old(config)
      ensures !ok ==> unchanged(combat) && (slot != null ==> unchanged(slot))
      ensures ok ==> combat.Repr >= old(combat.Repr)
      ensures ok ==> slot.occupied == (old(slot.occupied) || Occupies(option))
      ensures ok && IsTower(option) ==>
        && slot.tower != null && fresh(slot.tower) && slot.aaDefense == old(slot.aaDefense)
        && slot.tower.Configured(TowerKindOf(option), TowerStatsOf(old(config), option),
                                 TowerSpriteOf(old(config), option), ShotSpeedOf(old(config), option))
        && slot.tower.Position() == Point(slot.worldX, slot.worldY)
        && combat.towers == old(combat.towers) + [slot.tower]
        && combat.aaDefenses == old(combat.aaDefenses) && combat.speedBumps == old(combat.speedBumps)
        && combat.bombs == old(combat.bombs)
      ensures ok && IsAA(option) ==>
        && slot.aaDefense != null && fresh(slot.aaDefense) && slot.tower == old(slot.tower)
        && var stats := AAStatsOf(old(config), option);
        && slot.aaDefense.Configured(stats.hitChance, stats.range, stats.hp, AASpriteOf(option))
        && slot.aaDefense.Position() == Point(slot.worldX, slot.worldY)
        && combat.aaDefenses == old(combat.aaDefenses) + [slot.aaDefense]
        && combat.towers == old(combat.towers) && combat.speedBumps == old(combat.speedBumps)
        && combat.bombs == old(combat.bombs)
      ensures ok && option.BuildSpeedBump? ==>
        && unchanged(slot)
        && |combat.speedBumps| == |old(combat.speedBumps)| + 1
        && combat.speedBumps[..|old(combat.speedBumps)|] == old(combat.speedBumps)
        && var bump, stats := combat.speedBumps[|old(combat.speedBumps)|], old(config).speedBump;
        && fresh(bump) && bump.x == slot.worldX && bump.y == slot.worldY
        && bump.slowMultiplier == stats.slowPct && bump.duration == stats.durationSec
        && bump.spriteIndex == old(config).speedBumpSprite
        && bump.active && bump.remainingTime == stats.durationSec && bump.affectedEnemies == {}
        && combat.towers == old(combat.towers) && combat.aaDefenses == old(combat.aaDefenses)
        && combat.bombs == old(combat.bombs)
      ensures ok && option.BuildBomb? ==>
        && unchanged(slot)
        && |combat.bombs| == |old(combat.bombs)| + 1
        && combat.bombs[..|old(combat.bombs)|] == old(combat.bombs)
        && var bomb, stats := combat.bombs[|old(combat.bombs)|], old(config).bomb;
        && fresh(bomb) && bomb.x == slot.worldX && bomb.y == slot.worldY
        && bomb.damage == stats.damage && bomb.radius == stats.radius
        && bomb.spriteIndex == old(config).bombSprite
        && bomb.armed && !bomb.exploded && bomb.explosionTimer == 0.0
        && combat.towers == old(combat.towers) && combat.aaDefenses == old(combat.aaDefenses)
        && combat.speedBumps == old(combat.speedBumps)
    {
      if slot == null || slot.occupied {
        return false, None;
      }
      var cost := GetBuildCost(option);
      if !CanAffordOption(option) {
        return false, None;
      }
      var spent;
      spent, notice := economy.SpendMoney(cost);
      if !spent {
        return false, None;
      }
      match option {
        case BuildFastTower => BuildTower(option, slot);
        case BuildPowerTower => BuildTower(option, slot);
        case BuildTankTower => BuildTower(option, slot);
        case BuildAA60 => BuildAA(option, slot);
        case BuildAA80 => BuildAA(option, slot);
        case BuildSpeedBump => BuildSpeedBumpAt(slot);
        case BuildBomb => BuildBombAt(slot);
      }
      ok := true;
    }

    /**
     * `buildFastTower`, `buildPowerTower` and `buildTankTower`: the tower is
     * moved to the slot's centre, put in the slot and added to the combat
     * system.  The tank builder first writes the tank sprite into the shared
     * tank stats.
     */
    method BuildTower(option: BuildOption, slot: BuildSlot)
      requires IsTower(option) && TowerRatesSet(config)
      requires combat.Valid() && slot.Valid() && !slot.occupied
      modifies this`config, slot`tower, slot`occupied, combat`towers, combat`Repr
      ensures combat.Valid() && slot.Valid() && slot.occupied && combat.Repr >= old(combat.Repr)
      ensures config == if option.BuildTankTower? then WithTankSprite(old(config)) else old(config)
      ensures slot.tower != null && fresh(slot.tower)
      ensures slot.tower.Configured(TowerKindOf(option), TowerStatsOf(old(config), option),
                                    TowerSpriteOf(old(config), option), ShotSpeedOf(old(config), option))
      ensures slot.tower.Position() == Point(slot.worldX, slot.worldY)
      ensures combat.towers == old(combat.towers) + [slot.tower]
    {
      ghost var kind, stats, sprite, speed :=
        TowerKindOf(option), TowerStatsOf(config, option), TowerSpriteOf(config, option), ShotSpeedOf(config, option);
      var tower: Tower;
      if option.BuildFastTower? {
        tower := new Tower.Fast(config.fast, config.fastSprite, config.towerShotSpeed);
      } else if option.BuildPowerTower? {
        tower := new Tower.Power(config.power, config.powerSprite, config.towerShotSpeed);
      } else {
        config := WithTankSprite(config);
        tower := new Tower.Turret(config.tank);
      }
      Install(tower, slot, kind, stats, sprite, speed);
    }

    /** The steps every tower builder ends with: move the tower to the slot's centre, put it in the slot, add it. */
    method Install(tower: Tower, slot: BuildSlot, ghost kind: TowerKind, ghost stats: TowerStats, ghost sprite: int, ghost speed: real)
      requires combat.Valid() && slot.Valid() && !slot.occupied && tower.Valid()
      requires tower.Configured(kind, stats, sprite, speed)
      modifies tower`x, tower`y, slot`tower, slot`occupied, combat`towers, combat`Repr
      ensures combat.Valid() && slot.Valid() && slot.occupied && combat.Repr >= old(combat.Repr)
      ensures slot.tower == tower && tower.Configured(kind, stats, sprite, speed)
      ensures tower.Position() == Point(slot.worldX, slot.worldY)
      ensures combat.towers == old(combat.towers) + [tower]
    {
      SeatTower(tower, slot, kind, stats, sprite, speed);
      combat.AddTower(tower);
    }

    /** `buildAA60` and `buildAA80`: the defence is moved to the slot's centre, put in the slot and added. */
    method BuildAA(option: BuildOption, slot: BuildSlot)
      requires IsAA(option)
      requires combat.Valid() && slot.Valid() && !slot.occupied
      modifies slot`aaDefense, slot`occupied, combat`aaDefenses, combat`Repr
      ensures combat.Valid() && slot.Valid() && slot.occupied && combat.Repr >= old(combat.Repr)
      ensures slot.aaDefense != null && fresh(slot.aaDefense)
      ensures var stats := AAStatsOf(config, option);
        slot.aaDefense.Configured(stats.hitChance, stats.range, stats.hp, AASpriteOf(option))
      ensures slot.aaDefense.Position() == Point(slot.worldX, slot.worldY)
      ensures combat.aaDefenses == old(combat.aaDefenses) + [slot.aaDefense]
    {
      var stats := if option.BuildAA60? then config.aa60 else config.aa80;
      var spriteIndex := if option.BuildAA60? then AA60_SPRITE else AA80_SPRITE;
      var aa := new AADefense(stats.hitChance, stats.range, stats.hp, spriteIndex);
      SeatAA(aa, slot, stats, spriteIndex);
      combat.AddAADefense(aa);
    }

    /** `buildSpeedBump`: a bump at the slot's centre is added; the slot stays free. */
    method BuildSpeedBumpAt(slot: BuildSlot)
      requires combat.Valid()
      modifies combat`speedBumps, combat`Repr
      ensures combat.Valid() && combat.Repr >= old(combat.Repr)
      ensures |combat.speedBumps| == |old(combat.speedBumps)| + 1
      ensures combat.speedBumps[..|old(combat.speedBumps)|] == old(combat.speedBumps)
      ensures var bump, stats := combat.speedBumps[|old(combat.speedBumps)|], config.speedBump;
        && fresh(bump) && bump.x == slot.worldX && bump.y == slot.worldY
        && bump.slowMultiplier == stats.slowPct && bump.duration == stats.durationSec
        && bump.spriteIndex == config.speedBumpSprite
        && bump.active && bump.remainingTime == stats.durationSec && bump.affectedEnemies == {}
    {
      var stats := config.speedBump;
      var bump := new SpeedBump(slot.worldX, slot.worldY, stats.slowPct, stats.durationSec, config.speedBumpSprite);
      combat.AddSpeedBump(bump);
    }

    /** `buildBomb`: an armed bomb at the slot's centre is added; the slot stays free. */
    method BuildBombAt(slot: BuildSlot)
      requires combat.Valid()
      modifies combat`bombs, combat`Repr
      ensures combat.Valid() && combat.Repr >= old(combat.Repr)
      ensures |combat.bombs| == |old(combat.bombs)| + 1
      ensures combat.bombs[..|old(combat.bombs)|] == old(combat.bombs)
      ensures var bomb, stats := combat.bombs[|old(combat.bombs)|], config.bomb;
        && fresh(bomb) && bomb.x == slot.worldX && bomb.y == slot.worldY
        && bomb.damage == stats.damage && bomb.radius == stats.radius
        && bomb.spriteIndex == config.bombSprite
        && bomb.armed && !bomb.exploded && bomb.explosionTimer == 0.0
    {
      var stats := config.bomb;
      var bomb := new Bomb(slot.worldX, slot.worldY, stats.damage, stats.radius, config.bombSprite);
      combat.AddBomb(bomb);
    }
  }
}
