/** The record shapes shared by the gameplay rules: player stats, perks and
    enemy configurations (src/types/game.ts). */
module GameTypes {

  /** The seven player stats. All are JavaScript numbers; they are modelled
      as exact reals. */
  datatype PlayerStats = PlayerStats(
    health: real,
    maxHealth: real,
    baseMoveSpeed: real,
    attackSpeed: real,   // shots per second
    damage: real,
    pickupRadius: real,
    critRate: real)      // 0 .. 1

  datatype PerkRarity = Common | Rare | Epic | Legendary

  datatype PerkType = StatBoost | BehaviorMod | WeaponAugment

  /** The perk ids of the catalogue. `Other` stands for an id of a perk
      outside the shown catalogue. */
  datatype PerkId =
    // perks.ts
    | SpeedBoost | AttackSpeed | DamageBoost | HealthBoost | PickupRadius
    | Multishot | Piercing | CritChance | Lifesteal
    | Bloodthirst | TokenMultiplier | GuardianAngel | ChainLightning
    // perks-extended.ts
    | Regen | ProjectileSize | DodgeChance | XpBoost
    | BounceShot | ExplosiveRounds | Berserker | ShieldOnKill | HomingShots | CooldownReduction
    | TimeDilation | OrbitalStrike | PoisonAura | Resurrection
    | GodMode | OmniShot | PerfectDodge | InfinitePierce | TokenRain
    | Other(key: string)

  /** What a perk's `apply` does to the stats. Every `apply` in the
      catalogue is one of these shapes. */
  datatype Effect =
    | Unchanged                                      // stats => stats
    | ScaleMoveSpeed(factor: real)
    | ScaleAttackSpeed(factor: real)
    | ScaleAttackSpeedCapped(factor: real, cap: real)  // min(attackSpeed * factor, cap)
    | ScaleDamage(factor: real)
    | RaiseHealth(amount: real)                        // maxHealth and health both
    | ScalePickupRadius(factor: real)
    | RaiseCritRateCapped(amount: real, cap: real)     // min(critRate + amount, cap)

  /** A catalogue entry. The name, description, tags and icon are display text
      and are not part of the model. */
  datatype Perk = Perk(id: PerkId, rarity: PerkRarity, kind: PerkType, effect: Effect)

  /** `perk.apply(stats)`. */
  function ApplyEffect(e: Effect, s: PlayerStats): (r: PlayerStats)
    ensures r.health - s.health == r.maxHealth - s.maxHealth
    ensures e.Unchanged? ==> r == s
  {
    match e
    case Unchanged => s
    case ScaleMoveSpeed(f) => s.(baseMoveSpeed := s.baseMoveSpeed * f)
    case ScaleAttackSpeed(f) => s.(attackSpeed := s.attackSpeed * f)
    case ScaleAttackSpeedCapped(f, cap) =>
      s.(attackSpeed := if s.attackSpeed * f <= cap then s.attackSpeed * f else cap)
    case ScaleDamage(f) => s.(damage := s.damage * f)
    case RaiseHealth(n) => s.(maxHealth := s.maxHealth + n, health := s.health + n)
    case ScalePickupRadius(f) => s.(pickupRadius := s.pickupRadius * f)
    case RaiseCritRateCapped(n, cap) =>
      s.(critRate := if s.critRate + n <= cap then s.critRate + n else cap)
  }

  /** An effect whose factors are positive and whose additions are not
      negative. */
  predicate EffectWellFormed(e: Effect)
  {
    match e
    case Unchanged => true
    case ScaleMoveSpeed(f) => f > 0.0
    case ScaleAttackSpeed(f) => f > 0.0
    case ScaleAttackSpeedCapped(f, cap) => f > 0.0 && cap > 0.0
    case ScaleDamage(f) => f > 0.0
    case RaiseHealth(n) => n >= 0.0
    case ScalePickupRadius(f) => f > 0.0
    case RaiseCritRateCapped(n, cap) => n >= 0.0 && 0.0 <= cap <= 0.75
  }

  /** The stat invariant the game relies on: health within [0, maxHealth],
      every rate and size positive, and the crit rate within [0, 0.75]. */
  predicate StatsValid(s: PlayerStats)
  {
    && 0.0 <= s.health <= s.maxHealth
    && s.baseMoveSpeed > 0.0
    && s.attackSpeed > 0.0
    && s.damage > 0.0
    && s.pickupRadius > 0.0
    && 0.0 <= s.critRate <= 0.75
  }

  /** Every well-formed perk keeps the stat invariant. */
  lemma ApplyEffectKeepsStatsValid(e: Effect, s: PlayerStats)
    requires EffectWellFormed(e) && StatsValid(s)
    ensures StatsValid(ApplyEffect(e, s))
  {
  }

  datatype EnemyType = Bat | Goblin | Orc | Dragon

  datatype AiPattern = Zigzag | Shoot | Charge | Boss

  /** An `EnemyConfig`; a live enemy's `enemyData` has the same shape, with
      `health` its current health. */
  datatype EnemyConfig = EnemyConfig(
    kind: EnemyType,
    health: real,
    damage: real,
    speed: real,
    cost: int,
    color: int,
    size: real,
    aiPattern: AiPattern)
}
