/** The constant tables every other component reads
    (src/lib/game-config.ts). */
module GameConfig {
  import opened GameTypes

  /** `INITIAL_PLAYER_STATS`. */
  const InitialPlayerStats: PlayerStats :=
    PlayerStats(
      health := 100.0,
      maxHealth := 100.0,
      baseMoveSpeed := 200.0,
      attackSpeed := 1.5,
      damage := 10.0,
      pickupRadius := 80.0,
      critRate := 0.05)

  /** The gameplay part of `GAME_CONFIG` (colours are display only). */
  datatype Settings = Settings(
    width: real,
    height: real,
    invulnerabilityDuration: real,
    joystickDeadzone: real,
    playerHitboxRatio: real,
    baseXPRequired: int,
    xpGrowthRate: real,
    tokenDropRate: real,
    baseDifficulty: real,
    difficultyGrowthPerSecond: real,
    spawnInterval: real,
    projectileSpeed: real,
    projectileSize: real)

  const Config: Settings :=
    Settings(
      width := 720.0,
      height := 1280.0,
      invulnerabilityDuration := 1000.0,
      joystickDeadzone := 0.1,
      playerHitboxRatio := 0.6,
      baseXPRequired := 100,
      xpGrowthRate := 1.2,
      tokenDropRate := 0.15,
      baseDifficulty := 1.0,
      difficultyGrowthPerSecond := 1.0,
      spawnInterval := 2000.0,
      projectileSpeed := 600.0,
      projectileSize := 6.0)

  /** `TIMINGS`. */
  datatype TimingTable = TimingTable(
    invulnerabilityWindow: real,
    coyoteTime: real,
    draftPauseTransition: real,
    turretChargeTime: real,
    turretTelegraphTime: real,
    lobberCooldown: real)

  const Timings: TimingTable :=
    TimingTable(
      invulnerabilityWindow := 1000.0,
      coyoteTime := 100.0,
      draftPauseTransition := 200.0,
      turretChargeTime := 2000.0,
      turretTelegraphTime := 500.0,
      lobberCooldown := 3000.0)

  /** `ENEMY_CONFIGS[type]`: the record stored under each key. */
  function EnemyConfigFor(t: EnemyType): (c: EnemyConfig)
    ensures c.kind == t
    ensures c.health > 0.0 && c.damage > 0.0 && c.speed > 0.0 && c.size > 0.0
    ensures c.cost >= 1
  {
    match t
    case Bat => EnemyConfig(Bat, 20.0, 8.0, 80.0, 1, 0x8B00FF, 18.0, Zigzag)
    case Goblin => EnemyConfig(Goblin, 35.0, 12.0, 56.0, 2, 0x00FF80, 22.0, Shoot)
    case Orc => EnemyConfig(Orc, 80.0, 20.0, 35.0, 3, 0xFF4500, 28.0, Charge)
    case Dragon => EnemyConfig(Dragon, 300.0, 30.0, 18.0, 10, 0xFF0000, 45.0, Boss)
  }

  /** The behaviour each enemy type is driven by. */
  function PatternOf(t: EnemyType): AiPattern
  {
    match t
    case Bat => Zigzag
    case Goblin => Shoot
    case Orc => Charge
    case Dragon => Boss
  }

  /** The minimum available budget at which the spawner acts at all. */
  const MinSpawnBudget: real := 1.0

  lemma EnemyTableFacts()
    ensures EnemyConfigFor(Bat).cost == 1 && EnemyConfigFor(Goblin).cost == 2
    ensures EnemyConfigFor(Orc).cost == 3 && EnemyConfigFor(Dragon).cost == 10
    ensures forall t: EnemyType :: EnemyConfigFor(t).aiPattern == PatternOf(t)
    // the cheapest enemy is affordable exactly at the spawner's minimum budget
    ensures forall t: EnemyType :: EnemyConfigFor(t).cost as real >= MinSpawnBudget
    ensures EnemyConfigFor(Bat).cost as real == MinSpawnBudget
  {
  }

  lemma InitialTablesFacts()
    ensures StatsValid(InitialPlayerStats)
    ensures InitialPlayerStats.health == InitialPlayerStats.maxHealth == 100.0
    ensures Timings.invulnerabilityWindow == Config.invulnerabilityDuration == 1000.0
    ensures Config.xpGrowthRate > 1.0 && Config.baseXPRequired > 0
  {
  }
}
