/** The game-state store (src/stores/game-store.ts): player stats, XP and
    level, kills and stage, tokens, and the draft/pause flags. The store is
    a class whose actions overwrite its fields; each action is specified by
    a function on the `StoreState` value it leaves behind, and the
    properties of those functions are proved as lemmas. */
module GameStore {
  import opened Wrappers
  import opened GameTypes
  import opened GameConfig

  // ----- the XP curve -----

  /** `Math.pow(b, n)` for a whole exponent, as an exact real. */
  function Pow(b: real, n: nat): real
  {
    if n == 0 then 1.0 else b * Pow(b, n - 1)
  }

  lemma {:induction false} PowGrowthAtLeastOne(n: nat)
    ensures Pow(Config.xpGrowthRate, n) >= 1.0
  {
    if n > 0 {
      PowGrowthAtLeastOne(n - 1);
    }
  }

  /** `calculateXPRequired(level)`: `floor(100 * 1.2^level)`. */
  function CalculateXPRequired(level: nat): (r: int)
    ensures r >= Config.baseXPRequired
  {
    PowGrowthAtLeastOne(level);
    ((Config.baseXPRequired as real) * Pow(Config.xpGrowthRate, level)).Floor
  }

  /** Each level needs at least 20 more XP than the one before. */
  lemma XPRequiredIncreases(level: nat)
    ensures CalculateXPRequired(level + 1) >= CalculateXPRequired(level) + 20
  {
    PowGrowthAtLeastOne(level);
    var a := (Config.baseXPRequired as real) * Pow(Config.xpGrowthRate, level);
    assert (Config.baseXPRequired as real) * Pow(Config.xpGrowthRate, level + 1) == a + 0.2 * a;
  }

  /** The first thresholds of the curve: 100, 120, 144. */
  lemma XPRequiredFirstValues()
    ensures CalculateXPRequired(0) == 100
    ensures CalculateXPRequired(1) == 120
    ensures CalculateXPRequired(2) == 144
  {
    assert Pow(Config.xpGrowthRate, 2) == 1.44;
  }

  // ----- the state -----

  /** The data fields of `GameState`. XP and tokens are whole numbers: every
      caller passes 10 or 100 XP and 1 or 10 tokens. */
  datatype StoreState = StoreState(
    playerStats: PlayerStats,
    isMoving: bool,
    isAlive: bool,
    currentDungeon: int,
    currentStage: int,
    stageKills: int,
    currentWave: int,
    xp: int,
    xpRequired: int,
    level: int,
    score: int,
    killCount: int,
    pendingTokens: int,
    totalTokensEarned: int,
    isPaused: bool,
    isDrafting: bool,
    draftChoices: seq<Perk>)

  /** The store as created. */
  const InitialStore: StoreState :=
    StoreState(
      playerStats := InitialPlayerStats,
      isMoving := false,
      isAlive := true,
      currentDungeon := 1,
      currentStage := 1,
      stageKills := 0,
      currentWave := 1,
      xp := 0,
      xpRequired := Config.baseXPRequired,
      level := 1,
      score := 0,
      killCount := 0,
      pendingTokens := 0,
      totalTokensEarned := 0,
      isPaused := false,
      isDrafting := false,
      draftChoices := [])

  /** The state after `takeDamage(amount)`. */
  function Damaged(s: StoreState, amount: real): StoreState
  {
    var h := Max(0.0, s.playerStats.health - amount);
    s.(playerStats := s.playerStats.(health := h), isAlive := h > 0.0)
  }

  /** The state after `heal(amount)`. */
  function Healed(s: StoreState, amount: real): StoreState
  {
    s.(playerStats := s.playerStats.(health := Min(s.playerStats.health + amount, s.playerStats.maxHealth)))
  }

  /** The state after `addXP(amount)`: reaching the threshold levels up and
      discards the surplus. */
  function WithXP(s: StoreState, amount: int): StoreState
  {
    if s.xp + amount >= s.xpRequired then
      s.(xp := 0, level := s.level + 1, xpRequired := CalculateXPRequired(if s.level + 1 < 0 then 0 else s.level + 1))
    else
      s.(xp := s.xp + amount)
  }

  /** The state after `addTokens(amount)`. */
  function WithTokens(s: StoreState, amount: int): StoreState
  {
    s.(pendingTokens := s.pendingTokens + amount, totalTokensEarned := s.totalTokensEarned + amount)
  }

  /** Whether the next kill ends the current stage. */
  predicate KillEndsStage(s: StoreState)
  {
    s.currentStage < 5 && s.stageKills + 1 >= 10
  }

  /** The state after `incrementKills()`. */
  function AfterKill(s: StoreState): StoreState
  {
    s.(killCount := s.killCount + 1,
       score := s.score + 100,
       currentStage := if KillEndsStage(s) then s.currentStage + 1 else s.currentStage,
       stageKills := if KillEndsStage(s) then 0 else s.stageKills + 1)
  }

  /** The state after `incrementStage()`. */
  function AfterStageIncrement(s: StoreState): StoreState
  {
    s.(currentStage := s.currentStage + 1)
  }

  /** The state after `startDraft(perks)`. */
  function Drafting(s: StoreState, perks: seq<Perk>): StoreState
  {
    s.(isDrafting := true, isPaused := true, draftChoices := perks)
  }

  /** The state after `selectPerk(perk)`. */
  function AfterPerk(s: StoreState, perk: Perk): StoreState
  {
    s.(playerStats := ApplyEffect(perk.effect, s.playerStats), isDrafting := false, isPaused := false, draftChoices := [])
  }

  /** The state after `resetGame()`: everything but the dungeon choice and
      the lifetime token count goes back to its initial value. */
  function Reset(s: StoreState): StoreState
  {
    s.(playerStats := InitialPlayerStats,
       isMoving := false,
       isAlive := true,
       currentStage := 1,
       stageKills := 0,
       currentWave := 1,
       xp := 0,
       xpRequired := Config.baseXPRequired,
       level := 1,
       score := 0,
       killCount := 0,
       pendingTokens := 0,
       isPaused := false,
       isDrafting := false,
       draftChoices := [])
  }

  // ----- the store object -----

  /** The store. Every zustand `set` call replaces the state object with a
      merged copy, so the store holds one `StoreState` value and each action
      replaces it. */
  class Store {
    var state: StoreState

    /** `create(...)`: the initial store. */
    constructor()
      ensures state == InitialStore
    {
      state := InitialStore;
    }

    /** `takeDamage(amount)`. */
    method TakeDamage(amount: real)
      modifies this
      ensures state == Damaged(old(state), amount)
    {
      var newHealth := Max(0.0, state.playerStats.health - amount);
      state := state.(playerStats := state.playerStats.(health := newHealth), isAlive := newHealth > 0.0);
    }

    /** `heal(amount)`. */
    method Heal(amount: real)
      modifies this
      ensures state == Healed(old(state), amount)
    {
      var newHealth := Min(state.playerStats.health + amount, state.playerStats.maxHealth);
      state := state.(playerStats := state.playerStats.(health := newHealth));
    }

    /** `addXP(amount)`. */
    method AddXP(amount: int)
      modifies this
      ensures state == WithXP(old(state), amount)
    {
      var newXP := state.xp + amount;
      if newXP >= state.xpRequired {
        var newLevel := state.level + 1;
        state := state.(xp := 0, level := newLevel, xpRequired := CalculateXPRequired(if newLevel < 0 then 0 else newLevel));
      } else {
        state := state.(xp := newXP);
      }
    }

    /** `addTokens(amount)`. */
    method AddTokens(amount: int)
      modifies this
      ensures state == WithTokens(old(state), amount)
    {
      state := state.(pendingTokens := state.pendingTokens + amount,
                      totalTokensEarned := state.totalTokensEarned + amount);
    }

    /** `incrementKills()`. */
    method IncrementKills()
      modifies this
      ensures state == AfterKill(old(state))
    {
      var newKillCount := state.killCount + 1;
      var newStageKills := state.stageKills + 1;
      var newStage := state.currentStage;
      if state.currentStage < 5 && newStageKills >= 10 {
        newStage := state.currentStage + 1;
        newStageKills := 0;
      }
      state := state.(killCount := newKillCount, score := state.score + 100,
                      currentStage := newStage, stageKills := newStageKills);
    }

    /** `incrementStage()`. */
    method IncrementStage()
      modifies this
      ensures state == AfterStageIncrement(old(state))
    {
      state := state.(currentStage := state.currentStage + 1);
    }

    /** `startDraft(perks)`. */
    method StartDraft(perks: seq<Perk>)
      modifies this
      ensures state == Drafting(old(state), perks)
    {
      state := state.(isDrafting := true, isPaused := true, draftChoices := perks);
    }

    /** `selectPerk(perk)`. */
    method SelectPerk(perk: Perk)
      modifies this
      ensures state == AfterPerk(old(state), perk)
    {
      var newStats := ApplyEffect(perk.effect, state.playerStats);
      state := state.(playerStats := newStats, isDrafting := false, isPaused := false, draftChoices := []);
    }

    /** `nextWave()`. */
    method NextWave()
      modifies this
      ensures state == old(state).(currentWave := old(state).currentWave + 1)
    {
      state := state.(currentWave := state.currentWave + 1);
    }

    /** `setDungeon(dungeonId)`. */
    method SetDungeon(dungeonId: int)
      modifies this
      ensures state == old(state).(currentDungeon := dungeonId)
    {
      state := state.(currentDungeon := dungeonId);
    }

    /** `setMoving(moving)`. */
    method SetMoving(moving: bool)
      modifies this
      ensures state == old(state).(isMoving := moving)
    {
      state := state.(isMoving := moving);
    }

    /** `resetGame()`. */
    method ResetGame()
      modifies this
      ensures state == Reset(old(state))
    {
      state := InitialStore.(currentDungeon := state.currentDungeon,
                             totalTokensEarned := state.totalTokensEarned);
    }
  }

  // ----- what the actions promise -----

  /** Damage never takes health below zero, the player is alive exactly
      while health is positive, and nothing but those two fields changes. */
  lemma DamageClampsAtZero(s: StoreState, amount: real)
    ensures var t := Damaged(s, amount);
      && t.playerStats.health >= 0.0
      && t.playerStats.health == (if s.playerStats.health - amount > 0.0 then s.playerStats.health - amount else 0.0)
      && (t.isAlive <==> t.playerStats.health > 0.0)
      && t == s.(playerStats := s.playerStats.(health := t.playerStats.health), isAlive := t.isAlive)
  {
  }

  /** A non-negative hit never raises health. */
  lemma DamageNeverHeals(s: StoreState, amount: real)
    requires amount >= 0.0 && s.playerStats.health >= 0.0
    ensures Damaged(s, amount).playerStats.health <= s.playerStats.health
  {
  }

  /** Healing is capped at the maximum; health within its maximum stays
      there, and only health changes. */
  lemma HealCapsAtMaximum(s: StoreState, amount: real)
    ensures var t := Healed(s, amount);
      && t.playerStats.health <= s.playerStats.maxHealth
      && (t.playerStats.health == s.playerStats.health + amount || t.playerStats.health == s.playerStats.maxHealth)
      && t == s.(playerStats := s.playerStats.(health := t.playerStats.health))
    ensures amount >= 0.0 && s.playerStats.health <= s.playerStats.maxHealth ==>
      s.playerStats.health <= Healed(s, amount).playerStats.health
  {
  }

  /** Reaching the threshold: XP resets to 0 (the surplus is lost), the
      level rises by exactly one and the threshold becomes that of the new
      level. Below it, only XP changes. */
  lemma AddXPCases(s: StoreState, amount: int)
    requires s.level >= 1
    ensures s.xp + amount >= s.xpRequired ==>
      WithXP(s, amount) == s.(xp := 0, level := s.level + 1, xpRequired := CalculateXPRequired(s.level + 1))
    ensures s.xp + amount < s.xpRequired ==>
      WithXP(s, amount) == s.(xp := s.xp + amount)
  {
  }

  /** The XP bookkeeping the store keeps: a positive level, XP below the
      threshold, and the threshold 100 at level 1 and `calculateXPRequired`
      of the level after that. (Level 1 uses the base value directly, so the
      curve's second value, 120, is never used.) */
  predicate XPInvariant(s: StoreState)
  {
    && s.level >= 1
    && 0 <= s.xp < s.xpRequired
    && s.xpRequired == (if s.level == 1 then Config.baseXPRequired else CalculateXPRequired(s.level))
  }

  /** Adding a non-negative amount of XP keeps the invariant, and the level
      rises by at most one per call. */
  lemma AddXPKeepsInvariant(s: StoreState, amount: int)
    requires XPInvariant(s) && amount >= 0
    ensures XPInvariant(WithXP(s, amount))
    ensures s.level <= WithXP(s, amount).level <= s.level + 1
  {
    if s.xp + amount >= s.xpRequired {
      assert CalculateXPRequired(s.level + 1) >= Config.baseXPRequired;
    }
  }

  /** `addTokens` raises the pending and lifetime counts by the same amount. */
  lemma AddTokensCounts(s: StoreState, amount: int)
    ensures var t := WithTokens(s, amount);
      && t.pendingTokens - s.pendingTokens == amount
      && t.totalTokensEarned - s.totalTokensEarned == amount
      && t == s.(pendingTokens := t.pendingTokens, totalTokensEarned := t.totalTokensEarned)
  {
  }

  /** Every kill counts once and scores 100; a stage before the fifth ends
      on its tenth kill, which resets the stage count; otherwise the stage
      count grows, without bound on stage 5. */
  lemma KillCases(s: StoreState)
    ensures AfterKill(s).killCount == s.killCount + 1 && AfterKill(s).score == s.score + 100
    ensures s.currentStage < 5 && s.stageKills + 1 >= 10 ==>
      AfterKill(s).currentStage == s.currentStage + 1 && AfterKill(s).stageKills == 0
    ensures !(s.currentStage < 5 && s.stageKills + 1 >= 10) ==>
      AfterKill(s).currentStage == s.currentStage && AfterKill(s).stageKills == s.stageKills + 1
    ensures AfterKill(s) == s.(killCount := AfterKill(s).killCount, score := AfterKill(s).score,
      currentStage := AfterKill(s).currentStage, stageKills := AfterKill(s).stageKills)
  {
  }

  /** The stage bookkeeping: stages run 1..5 and a stage before the fifth
      has fewer than ten kills. */
  predicate StageInvariant(s: StoreState)
  {
    1 <= s.currentStage <= 5 && s.stageKills >= 0 && (s.currentStage < 5 ==> s.stageKills < 10)
  }

  lemma KillKeepsStageInvariant(s: StoreState)
    requires StageInvariant(s)
    ensures StageInvariant(AfterKill(s))
    ensures AfterKill(s).currentStage >= s.currentStage
  {
  }

  /** `n` kills in a row. */
  function Kills(s: StoreState, n: nat): StoreState
  {
    if n == 0 then s else AfterKill(Kills(s, n - 1))
  }

  /** Ten kills starting a stage before the fifth move to the next stage;
      the stage then starts again from zero kills. */
  lemma {:induction false} TenKillsAdvanceStage(s: StoreState)
    requires s.currentStage < 5 && s.stageKills == 0
    ensures Kills(s, 10).currentStage == s.currentStage + 1
    ensures Kills(s, 10).stageKills == 0
    ensures Kills(s, 10).killCount == s.killCount + 10 && Kills(s, 10).score == s.score + 1000
  {
    KillsBelowTen(s, 9);
  }

  /** Fewer than ten kills into a stage before the fifth leave the stage. */
  lemma {:induction false} KillsBelowTen(s: StoreState, n: nat)
    requires s.currentStage < 5 && s.stageKills == 0 && n < 10
    ensures Kills(s, n).currentStage == s.currentStage
    ensures Kills(s, n).stageKills == n
    ensures Kills(s, n).killCount == s.killCount + n && Kills(s, n).score == s.score + 100 * n
  {
    if n > 0 {
      KillsBelowTen(s, n - 1);
    }
  }

  /** On stage 5 no number of kills changes the stage. */
  lemma {:induction false} StageFiveIsFinal(s: StoreState, n: nat)
    requires s.currentStage == 5
    ensures Kills(s, n).currentStage == 5
    ensures Kills(s, n).stageKills == s.stageKills + n
  {
    if n > 0 {
      StageFiveIsFinal(s, n - 1);
    }
  }

  /** A draft opens paused with the offered perks; choosing one applies
      its effect to the stats and closes and unpauses the draft. */
  lemma DraftCycle(s: StoreState, offered: seq<Perk>, chosen: Perk)
    ensures Drafting(s, offered).isDrafting && Drafting(s, offered).isPaused
    ensures Drafting(s, offered).draftChoices == offered
    ensures var t := AfterPerk(Drafting(s, offered), chosen);
      && t.playerStats == ApplyEffect(chosen.effect, s.playerStats)
      && !t.isDrafting && !t.isPaused && t.draftChoices == []
      && t == s.(playerStats := t.playerStats, isDrafting := false, isPaused := false, draftChoices := [])
  {
  }

  /** A reset is the initial store with the dungeon choice and lifetime
      token count carried over; a second reset changes nothing. */
  lemma ResetRestoresInitial(s: StoreState)
    ensures Reset(s) == InitialStore.(currentDungeon := s.currentDungeon, totalTokensEarned := s.totalTokensEarned)
    ensures Reset(Reset(s)) == Reset(s)
    ensures Reset(s).currentDungeon == s.currentDungeon && Reset(s).totalTokensEarned == s.totalTokensEarned
  {
  }

  /** The initial store satisfies the invariants, and a reset restores
      them. */
  lemma InitialStoreValid(s: StoreState)
    ensures XPInvariant(InitialStore) && StageInvariant(InitialStore) && StatsValid(InitialStore.playerStats)
    ensures XPInvariant(Reset(s)) && StageInvariant(Reset(s)) && StatsValid(Reset(s).playerStats)
  {
    InitialTablesFacts();
  }
}
