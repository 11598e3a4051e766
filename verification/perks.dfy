/** The base perk catalogue, the whole draft pool and the weighted draft
    (src/lib/perks.ts). */
module Perks {
  import opened Wrappers
  import opened GameTypes
  import opened Random
  import opened PerksExtended

  /** The thirteen perks written out in `PERK_POOL`, in source order. */
  const BasePerks: seq<Perk> := [
    Perk(SpeedBoost, Common, StatBoost, ScaleMoveSpeed(1.15)),
    Perk(AttackSpeed, Common, StatBoost, ScaleAttackSpeedCapped(1.2, 10.0)),
    Perk(DamageBoost, Common, StatBoost, ScaleDamage(1.25)),
    Perk(HealthBoost, Common, StatBoost, RaiseHealth(20.0)),
    Perk(PickupRadius, Common, StatBoost, ScalePickupRadius(1.3)),
    Perk(Multishot, Rare, WeaponAugment, ScaleDamage(0.7)),
    Perk(Piercing, Rare, WeaponAugment, Unchanged),
    Perk(CritChance, Rare, StatBoost, RaiseCritRateCapped(0.15, 0.75)),
    Perk(Lifesteal, Rare, BehaviorMod, Unchanged),
    Perk(Bloodthirst, Epic, BehaviorMod, Unchanged),
    Perk(TokenMultiplier, Epic, BehaviorMod, Unchanged),
    Perk(GuardianAngel, Epic, BehaviorMod, Unchanged),
    Perk(ChainLightning, Epic, WeaponAugment, Unchanged)
  ]

  /** The perks of the two catalogues shown here. */
  const ShownPerks: seq<Perk> := BasePerks + ExtendedPerks

  /** `PERK_POOL`: the base perks, then the extended ones, then the perks
      of the mega catalogue, which is not part of this model and is taken
      as a parameter. */
  function PerkPool(mega: seq<Perk>): (pool: seq<Perk>)
    ensures |pool| == 32 + |mega|
    ensures pool[..32] == ShownPerks && pool[32..] == mega
  {
    ShownPerks + mega
  }

  // ----- the stat transforms of the base perks -----

  /** `attack_speed` scales by 1.2 up to a cap of 10 and `crit_chance`
      adds 0.15 up to a cap of 0.75; the caps hold afterwards. */
  lemma CappedTransforms(s: PlayerStats)
    ensures var t := ApplyEffect(BasePerks[1].effect, s);
      BasePerks[1].id == AttackSpeed
      && t == s.(attackSpeed := t.attackSpeed)
      && t.attackSpeed <= 10.0
      && (t.attackSpeed == s.attackSpeed * 1.2 || t.attackSpeed == 10.0)
      && (s.attackSpeed * 1.2 <= 10.0 ==> t.attackSpeed == s.attackSpeed * 1.2)
    ensures var t := ApplyEffect(BasePerks[7].effect, s);
      BasePerks[7].id == CritChance
      && t == s.(critRate := t.critRate)
      && t.critRate <= 0.75
      && (t.critRate == s.critRate + 0.15 || t.critRate == 0.75)
      && (s.critRate + 0.15 <= 0.75 ==> t.critRate == s.critRate + 0.15)
  {
  }

  /** `health_boost` raises both health and maximum by 20, so health stays
      within the maximum. */
  lemma HealthBoostKeepsHealthInRange(s: PlayerStats)
    requires s.health <= s.maxHealth
    ensures var t := ApplyEffect(BasePerks[3].effect, s);
      BasePerks[3].id == HealthBoost
      && t == s.(health := s.health + 20.0, maxHealth := s.maxHealth + 20.0)
      && t.health <= t.maxHealth
  {
  }

  /** The other stat transforms of the base catalogue. */
  lemma BaseStatTransforms(s: PlayerStats)
    ensures BasePerks[0].id == SpeedBoost
      && ApplyEffect(BasePerks[0].effect, s) == s.(baseMoveSpeed := s.baseMoveSpeed * 1.15)
    ensures BasePerks[2].id == DamageBoost
      && ApplyEffect(BasePerks[2].effect, s) == s.(damage := s.damage * 1.25)
    ensures BasePerks[4].id == PickupRadius
      && ApplyEffect(BasePerks[4].effect, s) == s.(pickupRadius := s.pickupRadius * 1.3)
    ensures BasePerks[5].id == Multishot
      && ApplyEffect(BasePerks[5].effect, s) == s.(damage := s.damage * 0.7)
  {
  }

  /** The behaviour-only base perks leave the stats as they are; their
      effect lives in the scene. */
  lemma BaseBehaviourPerksUnchanged(i: nat, s: PlayerStats)
    requires i in {6, 8, 9, 10, 11, 12}
    ensures BasePerks[i].id in {Piercing, Lifesteal, Bloodthirst, TokenMultiplier, GuardianAngel, ChainLightning}
    ensures ApplyEffect(BasePerks[i].effect, s) == s
  {
  }

  /** Every shown perk keeps the stat invariant, so any sequence of shown
      perk selections does too. */
  lemma ShownPerksKeepStatsValid(i: nat, s: PlayerStats)
    requires i < |ShownPerks| && StatsValid(s)
    ensures StatsValid(ApplyEffect(ShownPerks[i].effect, s))
  {
    assert EffectWellFormed(ShownPerks[i].effect);
    ApplyEffectKeepsStatsValid(ShownPerks[i].effect, s);
  }

  /** There is no legendary perk in the base catalogue: all of the shown
      legendaries are extended perks. */
  lemma LegendariesAreExtended()
    ensures forall i :: 0 <= i < |BasePerks| ==> BasePerks[i].rarity != Legendary
    ensures forall i :: 0 <= i < |ShownPerks| && ShownPerks[i].rarity == Legendary ==>
      i >= |BasePerks| && ShownPerks[i] == ExtendedPerks[i - |BasePerks|]
  {
  }

  // ----- ids -----

  /** The position of each shown perk's id in the catalogue. */
  function IdRank(id: PerkId): int
  {
    match id
    case SpeedBoost => 0 case AttackSpeed => 1 case DamageBoost => 2 case HealthBoost => 3
    case PickupRadius => 4 case Multishot => 5 case Piercing => 6 case CritChance => 7
    case Lifesteal => 8 case Bloodthirst => 9 case TokenMultiplier => 10 case GuardianAngel => 11
    case ChainLightning => 12 case Regen => 13 case ProjectileSize => 14 case DodgeChance => 15
    case XpBoost => 16 case BounceShot => 17 case ExplosiveRounds => 18 case Berserker => 19
    case ShieldOnKill => 20 case HomingShots => 21 case CooldownReduction => 22 case TimeDilation => 23
    case OrbitalStrike => 24 case PoisonAura => 25 case Resurrection => 26 case GodMode => 27
    case OmniShot => 28 case PerfectDodge => 29 case InfinitePierce => 30 case TokenRain => 31
    case Other(_) => -1
  }

  /** No two perks of `s` share an id. */
  predicate DistinctIds(s: seq<Perk>)
  {
    forall i, j :: 0 <= i < j < |s| ==> s[i].id != s[j].id
  }

  /** Each base perk's id ranks at its own position. */
  lemma BaseIdRanks()
    ensures forall i :: 0 <= i < |BasePerks| ==> IdRank(BasePerks[i].id) == i
  {
  }

  /** Each extended perk's id ranks thirteen past its own position (in
      two halves). */
  lemma ExtendedIdRanksLow()
    ensures forall i :: 0 <= i < 10 ==> IdRank(ExtendedPerks[i].id) == i + 13
  {
  }

  lemma ExtendedIdRanksHigh()
    ensures forall i :: 10 <= i < |ExtendedPerks| ==> IdRank(ExtendedPerks[i].id) == i + 13
  {
  }

  /** The shown perks have pairwise different ids. */
  lemma ShownIdsDistinct()
    ensures DistinctIds(ShownPerks)
  {
    BaseIdRanks();
    ExtendedIdRanksLow();
    ExtendedIdRanksHigh();
    forall i | 0 <= i < |ShownPerks|
      ensures IdRank(ShownPerks[i].id) == i
    {
      if i >= |BasePerks| {
        assert ShownPerks[i] == ExtendedPerks[i - |BasePerks|];
      }
    }
  }

  // ----- the weighted draft -----

  /** The rarity weights of `getRandomPerks`. */
  function RarityWeight(r: PerkRarity): real
  {
    match r
    case Common => 0.65
    case Rare => 0.25
    case Epic => 0.08
    case Legendary => 0.02
  }

  /** The rarity a roll selects: the rarer tiers are compared first, each
      against the running sum of the weights. */
  function RollRarity(roll: Unit): PerkRarity
  {
    var legendary := RarityWeight(Legendary);
    var epic := legendary + RarityWeight(Epic);
    var rare := epic + RarityWeight(Rare);
    if roll < legendary then Legendary
    else if roll < epic then Epic
    else if roll < rare then Rare
    else Common
  }

  /** Where a rarity's band of rolls starts. */
  function BandStart(r: PerkRarity): real
  {
    match r
    case Legendary => 0.0
    case Epic => 0.02
    case Rare => 0.10
    case Common => 0.35
  }

  /** Each rarity is selected by a band of rolls exactly as wide as its
      weight, and the bands tile [0, 1). */
  lemma RarityBandsMatchWeights(roll: Unit, r: PerkRarity)
    ensures RollRarity(roll) == r <==> BandStart(r) <= roll < BandStart(r) + RarityWeight(r)
    ensures RarityWeight(Common) + RarityWeight(Rare) + RarityWeight(Epic) + RarityWeight(Legendary) == 1.0
    ensures BandStart(Common) + RarityWeight(Common) == 1.0
  {
  }

  /** The bands written out: legendary below 0.02, epic below 0.10, rare
      below 0.35, common from there on. */
  lemma RollRarityThresholds(roll: Unit)
    ensures RollRarity(roll) == Legendary <==> roll < 0.02
    ensures RollRarity(roll) == Epic <==> 0.02 <= roll < 0.10
    ensures RollRarity(roll) == Rare <==> 0.10 <= roll < 0.35
    ensures RollRarity(roll) == Common <==> 0.35 <= roll
  {
  }

  /** `available.filter(p => p.rarity === rarity)`. */
  function OfRarity(s: seq<Perk>, rarity: PerkRarity): (r: seq<Perk>)
    ensures |r| <= |s|
  {
    if s == [] then []
    else (if s[0].rarity == rarity then [s[0]] else []) + OfRarity(s[1..], rarity)
  }

  /** The filter keeps exactly the perks of the given rarity. */
  lemma {:induction false} OfRarityMembers(s: seq<Perk>, rarity: PerkRarity)
    ensures forall p :: p in OfRarity(s, rarity) <==> p in s && p.rarity == rarity
  {
    if s != [] {
      OfRarityMembers(s[1..], rarity);
      assert s == [s[0]] + s[1..];
    }
  }

  /** The filter distributes over concatenation. */
  lemma {:induction false} OfRarityAppend(a: seq<Perk>, b: seq<Perk>, rarity: PerkRarity)
    ensures OfRarity(a + b, rarity) == OfRarity(a, rarity) + OfRarity(b, rarity)
  {
    if a == [] {
      assert a + b == b;
    } else {
      assert (a + b)[0] == a[0];
      assert (a + b)[1..] == a[1..] + b;
      OfRarityAppend(a[1..], b, rarity);
      var head := if a[0].rarity == rarity then [a[0]] else [];
      assert head + (OfRarity(a[1..], rarity) + OfRarity(b, rarity))
          == (head + OfRarity(a[1..], rarity)) + OfRarity(b, rarity);
    }
  }

  /** A list all of one rarity passes the filter whole. */
  lemma {:induction false} OfRarityAll(s: seq<Perk>, rarity: PerkRarity)
    requires forall i :: 0 <= i < |s| ==> s[i].rarity == rarity
    ensures OfRarity(s, rarity) == s
  {
    if s != [] {
      OfRarityAll(s[1..], rarity);
    }
  }

  /** The first index of `x` in `s` (`indexOf`). */
  function IndexOf(s: seq<Perk>, x: Perk): (i: nat)
    requires x in s
    ensures i < |s| && s[i] == x
  {
    if s[0] == x then 0 else 1 + IndexOf(s[1..], x)
  }

  /** The index found is that of the first occurrence. */
  lemma {:induction false} IndexOfFirst(s: seq<Perk>, x: Perk)
    requires x in s
    ensures forall j :: 0 <= j < IndexOf(s, x) ==> s[j] != x
  {
    if s[0] != x {
      IndexOfFirst(s[1..], x);
      forall j | 0 <= j < IndexOf(s, x)
        ensures s[j] != x
      {
        if j > 0 {
          assert s[j] == s[1..][j - 1];
        }
      }
    }
  }

  /** `splice(i, 1)`. */
  function RemoveAt(s: seq<Perk>, i: nat): (r: seq<Perk>)
    requires i < |s|
    ensures |r| == |s| - 1
  {
    s[..i] + s[i + 1..]
  }

  /** Removing one perk keeps the others and nothing else. */
  lemma RemoveAtMembers(s: seq<Perk>, i: nat)
    requires i < |s|
    ensures forall k :: 0 <= k < |RemoveAt(s, i)| ==>
      RemoveAt(s, i)[k] == (if k < i then s[k] else s[k + 1])
    ensures forall q :: q in RemoveAt(s, i) ==> q in s
  {
    var r := RemoveAt(s, i);
    forall k | 0 <= k < |r|
      ensures r[k] == (if k < i then s[k] else s[k + 1])
    {
      if k < i {
        assert r[k] == s[..i][k];
      } else {
        assert r[k] == s[i + 1..][k - i];
      }
    }
    forall q | q in r
      ensures q in s
    {
      var k :| 0 <= k < |r| && r[k] == q;
      assert q == (if k < i then s[k] else s[k + 1]);
    }
  }

  /** Splicing a perk out takes exactly that one copy out of the list. */
  lemma RemoveAtMultiset(s: seq<Perk>, i: nat)
    requires i < |s|
    ensures multiset(RemoveAt(s, i)) + multiset{s[i]} == multiset(s)
  {
    assert s == s[..i] + [s[i]] + s[i + 1..];
  }

  /** The outcome of one iteration of the draft loop: the perk it adds, if
      any, the perks still available, and the next unread random value. */
  datatype Draw = Draw(picked: Option<Perk>, rest: seq<Perk>, next: nat)

  /** Picks `candidates[floor(r * |candidates|)]` and removes its first
      occurrence from `available`. */
  function PickFrom(available: seq<Perk>, candidates: seq<Perk>, r: Unit, next: nat): (d: Draw)
    requires |candidates| > 0
    requires forall p :: p in candidates ==> p in available
    ensures d.picked.Some? && d.picked.value in candidates && d.next == next
    ensures d.rest == RemoveAt(available, IndexOf(available, d.picked.value))
  {
    var p := candidates[FloorIndex(r, |candidates|)];
    Draw(Some(p), RemoveAt(available, IndexOf(available, p)), next)
  }

  /** One iteration of the draft loop, reading the rarity roll at `pos`
      and, when something can be picked, the index roll after it. */
  function DrawOne(available: seq<Perk>, rng: Stream, pos: nat): Draw
  {
    var ofRarity := OfRarity(available, RollRarity(rng(pos)));
    if |ofRarity| > 0 then
      OfRarityMembers(available, RollRarity(rng(pos)));
      PickFrom(available, ofRarity, rng(pos + 1), pos + 2)
    else
      var commons := OfRarity(available, Common);
      if |commons| > 0 then
        OfRarityMembers(available, Common);
        PickFrom(available, commons, rng(pos + 1), pos + 2)
      else Draw(None, available, pos + 1)
  }

  /** When an iteration adds a perk, it is one of the available perks, its
      first occurrence is taken out of them, and it costs a second random
      value; when it adds none, nothing changes but the roll read. */
  lemma DrawOneTakes(available: seq<Perk>, rng: Stream, pos: nat)
    ensures var d := DrawOne(available, rng, pos);
      d.picked.Some? ==>
        && d.picked.value in available
        && d.rest == RemoveAt(available, IndexOf(available, d.picked.value))
        && d.next == pos + 2
    ensures var d := DrawOne(available, rng, pos);
      d.picked.None? ==> d.rest == available && d.next == pos + 1
  {
    OfRarityMembers(available, RollRarity(rng(pos)));
    OfRarityMembers(available, Common);
  }

  /** The perk an iteration adds has the rolled rarity, or is common when
      no perk of that rarity remains; it adds none exactly when neither
      remains. */
  lemma DrawOneRarity(available: seq<Perk>, rng: Stream, pos: nat)
    ensures var d := DrawOne(available, rng, pos);
      d.picked.None? <==>
        |OfRarity(available, RollRarity(rng(pos)))| == 0 && |OfRarity(available, Common)| == 0
    ensures var d := DrawOne(available, rng, pos);
      d.picked.Some? ==>
        d.picked.value.rarity == RollRarity(rng(pos))
        || (d.picked.value.rarity == Common && |OfRarity(available, RollRarity(rng(pos)))| == 0)
  {
    OfRarityMembers(available, RollRarity(rng(pos)));
    OfRarityMembers(available, Common);
  }

  /** The state of `getRandomPerks` between iterations: the perks chosen
      so far, the perks still available and the next unread random value. */
  datatype DraftState = DraftState(selected: seq<Perk>, available: seq<Perk>, pos: nat)

  /** One iteration of the draft loop on a state; with no perk left the
      loop stops, which leaves the state as it is. */
  function DraftPass(s: DraftState, rng: Stream): DraftState
  {
    if |s.available| == 0 then s
    else
      var d := DrawOne(s.available, rng, s.pos);
      DraftState(s.selected + (if d.picked.Some? then [d.picked.value] else []), d.rest, d.next)
  }

  /** `k` applications of `step` to `s0`. */
  function Iterate(step: DraftState -> DraftState, s0: DraftState, k: nat): DraftState
  {
    if k == 0 then s0 else step(Iterate(step, s0, k - 1))
  }

  /** The draft loop's iteration with the stream fixed. */
  function PassWith(rng: Stream): DraftState -> DraftState
  {
    s => DraftPass(s, rng)
  }

  /** The state after `k` iterations of the draft loop over `pool`, the
      stream being read from `start`. */
  function DraftAfter(pool: seq<Perk>, k: nat, rng: Stream, start: nat): DraftState
  {
    Iterate(PassWith(rng), DraftState([], pool, start), k)
  }

  /** Once a state is a fixed point of the step, further steps change nothing. */
  lemma {:induction false} IterateStable(step: DraftState -> DraftState, s0: DraftState, i: nat, k: nat)
    requires i <= k && step(Iterate(step, s0, i)) == Iterate(step, s0, i)
    ensures Iterate(step, s0, k) == Iterate(step, s0, i)
    decreases k
  {
    if k > i {
      IterateStable(step, s0, i, k - 1);
    }
  }

  /** Once the pool is exhausted, further iterations change nothing. */
  lemma DraftAfterStable(pool: seq<Perk>, i: nat, k: nat, rng: Stream, start: nat)
    requires i <= k && |DraftAfter(pool, i, rng, start).available| == 0
    ensures DraftAfter(pool, k, rng, start) == DraftAfter(pool, i, rng, start)
  {
    IterateStable(PassWith(rng), DraftState([], pool, start), i, k);
  }

  /** One pass of the loop body of `getRandomPerks` on a non-empty list:
      roll a rarity, pick uniformly among the remaining perks of that
      rarity, else among the remaining common perks, push the pick and
      splice it out of the available perks. */
  method DraftIteration(s: DraftState, rng: Stream) returns (t: DraftState)
    requires |s.available| > 0
    ensures t == DraftPass(s, rng)
  {
    var roll := rng(s.pos);
    t := s.(pos := s.pos + 1);
    var ofRarity := OfRarity(s.available, RollRarity(roll));
    if |ofRarity| > 0 {
      OfRarityMembers(s.available, RollRarity(roll));
      var p := ofRarity[FloorIndex(rng(t.pos), |ofRarity|)];
      t := DraftState(s.selected + [p], RemoveAt(s.available, IndexOf(s.available, p)), t.pos + 1);
    } else {
      var commons := OfRarity(s.available, Common);
      if |commons| > 0 {
        OfRarityMembers(s.available, Common);
        var p := commons[FloorIndex(rng(t.pos), |commons|)];
        t := DraftState(s.selected + [p], RemoveAt(s.available, IndexOf(s.available, p)), t.pos + 1);
      }
    }
  }

  /** `getRandomPerks(count)` over `pool`, which is `PERK_POOL`, that is
      `PerkPool(mega)`; returns the perks and the next unread random
      value. */
  method GetRandomPerks(pool: seq<Perk>, count: int, rng: Stream, start: nat)
    returns (selected: seq<Perk>, next: nat)
    ensures var s := DraftAfter(pool, if count < 0 then 0 else count, rng, start);
      selected == s.selected && next == s.pos
  {
    var n: nat := if count < 0 then 0 else count;
    var state := DraftState([], pool, start);
    var i: nat := 0;
    while i < n
      invariant i <= n && state == DraftAfter(pool, i, rng, start)
    {
      if |state.available| == 0 {
        DraftAfterStable(pool, i, n, rng, start);
        break;
      }
      state := DraftIteration(state, rng);
      i := i + 1;
    }
    selected, next := state.selected, state.pos;
  }

  /** What the draft loop keeps true of its state: every copy of a perk in
      the pool is either chosen or still available, never both, so no perk
      is chosen more often than the pool holds it; and when the pool's ids
      are distinct, no id is chosen twice and no chosen id is still on
      offer. */
  predicate DraftInvariant(pool: seq<Perk>, s: DraftState)
  {
    && multiset(s.selected) + multiset(s.available) == multiset(pool)
    && |s.selected| + |s.available| == |pool|
    && (forall q :: q in s.selected ==> q in pool)
    && (forall q :: q in s.available ==> q in pool)
    && (DistinctIds(pool) ==>
          && DistinctIds(s.selected)
          && DistinctIds(s.available)
          && (forall a, b :: a in s.selected && b in s.available ==> a.id != b.id))
  }

  /** Removing one perk keeps the ids distinct, and no remaining perk has
      the removed perk's id. */
  lemma RemoveAtDistinct(s: seq<Perk>, i: nat)
    requires i < |s| && DistinctIds(s)
    ensures DistinctIds(RemoveAt(s, i))
    ensures forall q :: q in RemoveAt(s, i) ==> q.id != s[i].id
  {
    RemoveAtMembers(s, i);
  }

  /** Appending a perk whose id none of `s` has keeps the ids distinct. */
  lemma SnocDistinct(s: seq<Perk>, p: Perk)
    requires DistinctIds(s) && forall q :: q in s ==> q.id != p.id
    ensures DistinctIds(s + [p])
  {
    var r := s + [p];
    forall a, b | 0 <= a < b < |r|
      ensures r[a].id != r[b].id
    {
      assert r[a] == s[a];
      if b < |s| {
        assert r[b] == s[b];
      } else {
        assert s[a] in s;
      }
    }
  }

  /** One iteration keeps the invariant and chooses at most one perk. */
  lemma DraftPassKeepsInvariant(pool: seq<Perk>, s: DraftState, rng: Stream)
    requires DraftInvariant(pool, s)
    ensures DraftInvariant(pool, DraftPass(s, rng))
    ensures |DraftPass(s, rng).selected| <= |s.selected| + 1
  {
    if |s.available| > 0 {
      var d := DrawOne(s.available, rng, s.pos);
      DrawOneTakes(s.available, rng, s.pos);
      if d.picked.Some? {
        var p := d.picked.value;
        var k := IndexOf(s.available, p);
        RemoveAtMembers(s.available, k);
        RemoveAtMultiset(s.available, k);
        if DistinctIds(pool) {
          RemoveAtDistinct(s.available, k);
          SnocDistinct(s.selected, p);
        }
      }
    }
  }

  /** A step that keeps an invariant and adds at most one perk keeps it
      over any number of steps. */
  lemma {:induction false} IterateKeeps(step: DraftState -> DraftState, inv: DraftState -> bool, s0: DraftState, k: nat)
    requires inv(s0)
    requires forall s :: inv(s) ==> inv(step(s)) && |step(s).selected| <= |s.selected| + 1
    ensures inv(Iterate(step, s0, k))
    ensures |Iterate(step, s0, k).selected| <= |s0.selected| + k
  {
    if k > 0 {
      IterateKeeps(step, inv, s0, k - 1);
    }
  }

  /** After any number of iterations the invariant holds and at most that
      many perks have been chosen, none more often than the pool holds it. */
  lemma DraftAfterInvariant(pool: seq<Perk>, k: nat, rng: Stream, start: nat)
    ensures DraftInvariant(pool, DraftAfter(pool, k, rng, start))
    ensures |DraftAfter(pool, k, rng, start).selected| <= k
    ensures multiset(DraftAfter(pool, k, rng, start).selected) <= multiset(pool)
  {
    var inv := s => DraftInvariant(pool, s);
    forall s | inv(s)
      ensures inv(PassWith(rng)(s)) && |PassWith(rng)(s).selected| <= |s.selected| + 1
    {
      DraftPassKeepsInvariant(pool, s, rng);
    }
    assert inv(DraftState([], pool, start));
    IterateKeeps(PassWith(rng), inv, DraftState([], pool, start), k);
    assert inv(DraftAfter(pool, k, rng, start));
  }

  /** Taking one perk out removes at most one common perk. */
  lemma OfRarityRemoveAt(s: seq<Perk>, i: nat, rarity: PerkRarity)
    requires i < |s|
    ensures |OfRarity(RemoveAt(s, i), rarity)| >= |OfRarity(s, rarity)| - 1
  {
    assert s == s[..i] + [s[i]] + s[i + 1..];
    OfRarityAppend(s[..i] + [s[i]], s[i + 1..], rarity);
    OfRarityAppend(s[..i], [s[i]], rarity);
    OfRarityAppend(s[..i], s[i + 1..], rarity);
  }

  /** While a common perk remains, an iteration chooses a perk, and it
      takes out at most one common perk. */
  lemma DraftPassChooses(s: DraftState, rng: Stream)
    requires |OfRarity(s.available, Common)| > 0
    ensures |DraftPass(s, rng).selected| == |s.selected| + 1
    ensures |OfRarity(DraftPass(s, rng).available, Common)| >= |OfRarity(s.available, Common)| - 1
  {
    var d := DrawOne(s.available, rng, s.pos);
    DrawOneRarity(s.available, rng, s.pos);
    DrawOneTakes(s.available, rng, s.pos);
    OfRarityRemoveAt(s.available, IndexOf(s.available, d.picked.value), Common);
  }

  /** The common perks still available in a state. */
  function CommonsLeft(s: DraftState): nat
  {
    |OfRarity(s.available, Common)|
  }

  /** A step that adds a perk whenever `left` is positive, lowering
      `left` by at most one, adds a perk in each of the first `left(s0)`
      steps. */
  lemma {:induction false} IterateChooses(step: DraftState -> DraftState, left: DraftState -> nat, s0: DraftState, k: nat)
    requires k <= left(s0)
    requires forall s :: left(s) > 0 ==>
      |step(s).selected| == |s.selected| + 1 && left(step(s)) >= left(s) - 1
    ensures |Iterate(step, s0, k).selected| == |s0.selected| + k
    ensures left(Iterate(step, s0, k)) >= left(s0) - k
  {
    if k > 0 {
      IterateChooses(step, left, s0, k - 1);
    }
  }

  /** With at least `k` common perks in the pool, `k` iterations choose
      exactly `k` perks. */
  lemma DraftAfterFull(pool: seq<Perk>, k: nat, rng: Stream, start: nat)
    requires k <= |OfRarity(pool, Common)|
    ensures |DraftAfter(pool, k, rng, start).selected| == k
  {
    forall s | CommonsLeft(s) > 0
      ensures |PassWith(rng)(s).selected| == |s.selected| + 1
      ensures CommonsLeft(PassWith(rng)(s)) >= CommonsLeft(s) - 1
    {
      DraftPassChooses(s, rng);
    }
    IterateChooses(PassWith(rng), CommonsLeft, DraftState([], pool, start), k);
  }

  /** The shown catalogue has nine common perks. */
  lemma ShownCommons()
    ensures |OfRarity(ShownPerks, Common)| >= 9
  {
    assert BasePerks == BasePerks[..5] + BasePerks[5..];
    assert ExtendedPerks == ExtendedPerks[..4] + ExtendedPerks[4..];
    forall i | 0 <= i < 5
      ensures BasePerks[..5][i].rarity == Common
    {
      assert BasePerks[..5][i] == BasePerks[i];
    }
    forall i | 0 <= i < 4
      ensures ExtendedPerks[..4][i].rarity == Common
    {
      assert ExtendedPerks[..4][i] == ExtendedPerks[i];
    }
    OfRarityAll(BasePerks[..5], Common);
    OfRarityAll(ExtendedPerks[..4], Common);
    OfRarityAppend(BasePerks[..5], BasePerks[5..], Common);
    OfRarityAppend(ExtendedPerks[..4], ExtendedPerks[4..], Common);
    OfRarityAppend(BasePerks, ExtendedPerks, Common);
  }

  /** A level-up draft, `getRandomPerks(3)`, always offers exactly three
      perks of the pool, none more often than the pool holds it, whatever
      the mega catalogue holds. */
  lemma LevelUpDraftOffersThree(mega: seq<Perk>, rng: Stream, pos: nat)
    ensures var offered := DraftAfter(PerkPool(mega), 3, rng, pos).selected;
      |offered| == 3 && multiset(offered) <= multiset(PerkPool(mega))
  {
    ShownCommons();
    OfRarityAppend(ShownPerks, mega, Common);
    DraftAfterFull(PerkPool(mega), 3, rng, pos);
    DraftAfterInvariant(PerkPool(mega), 3, rng, pos);
  }

  /** When the mega catalogue brings no id twice and none of the shown
      ids, the three perks offered also have different ids. */
  lemma LevelUpDraftDistinct(mega: seq<Perk>, rng: Stream, pos: nat)
    requires DistinctIds(PerkPool(mega))
    ensures DistinctIds(DraftAfter(PerkPool(mega), 3, rng, pos).selected)
  {
    DraftAfterInvariant(PerkPool(mega), 3, rng, pos);
  }
}
