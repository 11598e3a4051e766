/** The extended perk catalogue (src/lib/perks-extended.ts): four more
    common perks, six rare, four epic and the legendary tier. */
module PerksExtended {
  import opened GameTypes

  /** `EXTENDED_PERKS`, in source order. */
  const ExtendedPerks: seq<Perk> := [
    Perk(Regen, Common, BehaviorMod, Unchanged),
    Perk(ProjectileSize, Common, StatBoost, ScaleDamage(1.15)),
    Perk(DodgeChance, Common, BehaviorMod, Unchanged),
    Perk(XpBoost, Common, BehaviorMod, Unchanged),
    Perk(BounceShot, Rare, WeaponAugment, Unchanged),
    Perk(ExplosiveRounds, Rare, WeaponAugment, ScaleDamage(0.8)),
    Perk(Berserker, Rare, BehaviorMod, Unchanged),
    Perk(ShieldOnKill, Rare, BehaviorMod, Unchanged),
    Perk(HomingShots, Rare, WeaponAugment, Unchanged),
    Perk(CooldownReduction, Rare, StatBoost, ScaleAttackSpeed(1.25)),
    Perk(TimeDilation, Epic, BehaviorMod, Unchanged),
    Perk(OrbitalStrike, Epic, WeaponAugment, Unchanged),
    Perk(PoisonAura, Epic, BehaviorMod, Unchanged),
    Perk(Resurrection, Epic, BehaviorMod, Unchanged),
    Perk(GodMode, Legendary, BehaviorMod, Unchanged),
    Perk(OmniShot, Legendary, WeaponAugment, ScaleDamage(0.5)),
    Perk(PerfectDodge, Legendary, BehaviorMod, Unchanged),
    Perk(InfinitePierce, Legendary, WeaponAugment, ScaleDamage(1.5)),
    Perk(TokenRain, Legendary, BehaviorMod, Unchanged)
  ]

  /** The stats other than damage and attack speed agree. */
  predicate SameExceptDamageAndAttackSpeed(s: PlayerStats, t: PlayerStats)
  {
    && t.health == s.health && t.maxHealth == s.maxHealth
    && t.baseMoveSpeed == s.baseMoveSpeed && t.pickupRadius == s.pickupRadius
    && t.critRate == s.critRate
  }

  /** No extended perk touches anything but damage or attack speed, and
      none touches both. */
  lemma ExtendedTouchesOneStat(i: nat, s: PlayerStats)
    requires i < |ExtendedPerks|
    ensures var t := ApplyEffect(ExtendedPerks[i].effect, s);
      SameExceptDamageAndAttackSpeed(s, t) && (t.damage == s.damage || t.attackSpeed == s.attackSpeed)
  {
  }

  /** The stat-changing entries below the legendary tier and their
      factors. */
  lemma ExtendedStatTransforms(s: PlayerStats)
    ensures ExtendedPerks[1].id == ProjectileSize
      && ApplyEffect(ExtendedPerks[1].effect, s) == s.(damage := s.damage * 1.15)
    ensures ExtendedPerks[5].id == ExplosiveRounds
      && ApplyEffect(ExtendedPerks[5].effect, s) == s.(damage := s.damage * 0.8)
    ensures ExtendedPerks[9].id == CooldownReduction
      && ApplyEffect(ExtendedPerks[9].effect, s) == s.(attackSpeed := s.attackSpeed * 1.25)
  {
  }

  /** The stat-changing legendaries and their factors. */
  lemma LegendaryStatTransforms(s: PlayerStats)
    ensures ExtendedPerks[15].id == OmniShot
      && ApplyEffect(ExtendedPerks[15].effect, s) == s.(damage := s.damage * 0.5)
    ensures ExtendedPerks[17].id == InfinitePierce
      && ApplyEffect(ExtendedPerks[17].effect, s) == s.(damage := s.damage * 1.5)
  {
  }

  /** Every other extended perk returns the stats unchanged. */
  lemma ExtendedOthersUnchanged(i: nat, s: PlayerStats)
    requires i < |ExtendedPerks| && i !in {1, 5, 9, 15, 17}
    ensures ApplyEffect(ExtendedPerks[i].effect, s) == s
  {
  }

  /** Unlike the capped `attack_speed`, `cooldown_reduction` can take the
      attack speed past 10. */
  lemma CooldownReductionUncapped(s: PlayerStats)
    requires s.attackSpeed > 8.0
    ensures ApplyEffect(ExtendedPerks[9].effect, s).attackSpeed > 10.0
  {
  }

  /** The legendary tier is exactly the last five entries. */
  lemma ExtendedLegendaries()
    ensures forall i :: 0 <= i < |ExtendedPerks| ==> (ExtendedPerks[i].rarity == Legendary <==> 14 <= i)
    ensures forall i :: 14 <= i < |ExtendedPerks| ==>
      ExtendedPerks[i].id in {GodMode, OmniShot, PerfectDodge, InfinitePierce, TokenRain}
  {
  }
}
