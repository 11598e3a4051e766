# Cosmic Dungeon Archer — gameplay rules in Dafny

This project models the gameplay core of *Cosmic Dungeon Archer*, a
top-down auto-shooter built on Phaser. The player moves an archer through
six dungeons of five stages each. The archer fires automatically at the
nearest enemy whenever it stands still. Enemies (bats, goblins, orcs and,
on a fifth stage, a dragon boss) spawn from a difficulty budget. Killed
enemies drop XP gems and token orbs. Every level-up opens a draft of three
perks drawn by rarity. Progress per dungeon is merged into a persisted
record.

The modules follow the source files:

| module | file | models |
|---|---|---|
| `GameTypes` | `game_types.dfy` | the records of `src/types/game.ts`: player stats, perks (with their `apply` as an `Effect`), enemy configurations |
| `GameConfig` | `game_config.dfy` | `INITIAL_PLAYER_STATS`, `GAME_CONFIG`, `ENEMY_CONFIGS`, `TIMINGS` |
| `DungeonConfig` | `dungeon_config.dfy` | `DUNGEON_THEMES`, `getDungeonTheme`, `getTotalStages`, `getGlobalStageNumber` (a loop) |
| `ProgressTypes` | `progress_types.dfy` | `DungeonProgress`, `GameProgress`, `INITIAL_PROGRESS` |
| `ProgressStorage` | `progress_storage.dfy` | the dungeon-fill step of `loadProgress`; `updateDungeonProgress` as a method that writes the loaded record field by field |
| `Random` | `random.dfy` | `Math.random()` as a stream of values in [0, 1) read at a position |
| `Perks`, `PerksExtended` | `perks.dfy`, `perks_extended.dfy` | the perk catalogues, `PERK_POOL`, and `getRandomPerks` as a loop method |
| `GameStore` | `game_store.dfy` | the zustand store: a `Store` class whose actions update its state, each specified by a function on the state |
| `SceneEntities` | `scene_entities.dfy` | the scene's game objects as records with ids, plus the pure per-object rules: flight, trimming, nearest target, volleys, enemy AI, movement, timers |
| `SceneRules` | `scene_rules.dfy` | the scene's rules over a whole world: firing, enemy death, player hits, the collision passes, pickups, spawning, the level watch |
| `MainScene` | `main_scene.dfy` | `MainScene` as a `Scene` class whose fields are the scene's timers, groups and perk state; each handler is a method specified by a rule of `SceneRules` |

Modelling choices:

- **Numbers.** JavaScript numbers are exact `real`s. XP, tokens, costs and counters are `int`s. Floating-point rounding is not modelled.
- **Randomness.** `Math.random()` is a stream `rng: nat -> Unit` with a read position. Every call consumes the next value. Only the order of the reads is modelled, not their distribution.
- **Geometry.** `Math.cos`, `Math.sin`, `Math.sqrt`, `Math.PI` and `Phaser.Math.Angle.Between` are the fields of an uninterpreted `Geometry` record. A distance test `Distance.Between(a, b) < r` is the exact squared comparison `Within(a, b, r)`.
- **Game objects.** A game object is an `Obj` with a fresh `id`, a position and its data. A Phaser group is a `seq` of them. `destroy()` removes the object with that id.
- **The draft pool.** `MEGA_PERKS` comes from a file that is not part of this model, so the pool takes it as a parameter `mega`.

## Model

| member | source | states |
|---|---|---|
| `GameTypes.ApplyEffect` | src/lib/perks.ts:14-148 | A perk's `apply` changes health and maxHealth by the same amount, and an `Unchanged` perk returns the stats as they were. |
| `GameTypes.ApplyEffectKeepsStatsValid` | src/lib/perks.ts:14-148 | Every well-formed perk keeps health within [0, maxHealth], every rate and size positive, and the crit rate within [0, 0.75]. |
| `GameConfig.EnemyConfigFor` | src/lib/game-config.ts:50-91 | Each `ENEMY_CONFIGS` entry's type equals its key; health, damage, speed and size are positive; every cost is at least 1. |
| `GameConfig.EnemyTableFacts` | src/lib/game-config.ts:50-91 | The costs are bat 1, goblin 2, orc 3, dragon 10, and the patterns are zigzag, shoot, charge, boss. The cheapest cost equals the spawner's minimum budget of 1. |
| `GameConfig.InitialTablesFacts` | src/lib/game-config.ts:3-11 | The initial stats satisfy the stat invariant with health = maxHealth = 100. `TIMINGS.invulnerabilityWindow` equals `invulnerabilityDuration` (1000). |
| `DungeonConfig.ThemesTableFacts` | src/lib/dungeon-config.ts:19-98 | There are six themes with ids 1..6 in order, each of five stages. The enemy modifier, token multiplier and XP multiplier rise strictly with the id. |
| `DungeonConfig.GetDungeonTheme` | src/lib/dungeon-config.ts:100-102 | Returns the theme with `id == d` for d in 1..6, and the first theme for any other d. |
| `DungeonConfig.SumStagesPrefix` | src/lib/dungeon-config.ts:104-106 | Every prefix of the table sums to five stages per dungeon. |
| `DungeonConfig.GetTotalStages` | src/lib/dungeon-config.ts:104-106 | The `reduce` over the stages is 30. |
| `DungeonConfig.GetGlobalStageNumber` | src/lib/dungeon-config.ts:108-114 | The loop returns `(d-1)*5 + s` for 1 ≤ d ≤ 7 and `s` for d ≤ 1. It fails (the source reads past the table and throws) exactly when d > 7. |
| `ProgressTypes.FreshDungeon` | src/types/progress.ts:32-37 | A fresh dungeon record has zero counters and is unlocked exactly when it is dungeon 1. |
| `ProgressTypes.InitialProgressFacts` | src/types/progress.ts:29-43 | `INITIAL_PROGRESS` holds exactly dungeons 1..6, each fresh and within the documented 0..5 ranges. Its globals are currentDungeon 1, tokens 0, kills 0, highestStage 0, highestDungeon 1. |
| `ProgressStorage.FillDungeons` | src/lib/progress-storage.ts:48-58 | The filled record has entries for exactly dungeons 1..6. Each entry is the parsed one when present, else the initial one. Every other field is the parsed value. |
| `ProgressStorage.LoadProgress` | src/lib/progress-storage.ts:35-66 | Covers the paths of `loadProgress`: no window gives the initial record; no storage with a memory copy gives the memory copy; a saved record gives its filled form. |
| `ProgressStorage.LoadProgressHasAllDungeons` | src/lib/progress-storage.ts:35-66 | Whatever path is taken, the result has entries for dungeons 1..6, provided the memory copy does. |
| `ProgressStorage.MergeBestTime` | src/lib/progress-storage.ts:107-114 | An unset best time (0) takes the run's time. Otherwise the result is the smaller of the two. |
| `ProgressStorage.BestTimeNeverRegresses` | src/lib/progress-storage.ts:107-114 | A recorded positive best time never gets worse and never becomes unset. |
| `ProgressStorage.MergeDungeon` | src/lib/progress-storage.ts:94-114 | completedStages, stars and bestScore become the larger of old and new. bestTime follows `MergeBestTime`. `unlocked` is kept. |
| `ProgressStorage.UpdateDungeonProgress` | src/lib/progress-storage.ts:81-127 | The in-place field writes produce exactly the merged record `Merged` (or the throw, as `None`). |
| `ProgressStorage.MergedMissingDungeon` | src/lib/progress-storage.ts:89-91 | A dungeon id with no entry returns the progress unchanged. |
| `ProgressStorage.MergedTotalOnAllDungeons` | src/lib/progress-storage.ts:117-119 | On a record of dungeons 1..6 the update never throws, and the result still has exactly those dungeons. |
| `ProgressStorage.MergedNoRegression` | src/lib/progress-storage.ts:94-123 | The update is monotone: the same dungeons, no per-dungeon best decreased, nothing re-locked, and highestStage and highestDungeon never lower. totalTokens, totalKills and currentDungeon are untouched. |
| `ProgressStorage.MergedFrame` | src/lib/progress-storage.ts:81-127 | Dungeon `d` becomes its merged record. Dungeon `d+1` gains `unlocked` when stage ≥ 5 and d < 6, and nothing else. Every other dungeon is kept. highestStage and highestDungeon become maxima. |
| `ProgressStorage.MergedIdempotent` | src/lib/progress-storage.ts:81-127 | Reporting the same run twice records the same as reporting it once. |
| `ProgressStorage.MergedDocumentedRange` | src/types/progress.ts:2-3 | From a dungeon within the documented 0..5 range, the range survives the update exactly when the stage passed in is at most 5; nothing clamps it. |
| `Random.FloorIndex` | src/lib/perks.ts:186 | `Math.floor(r * n)` for r in [0, 1) is an index below n. |
| `Perks.PerkPool` | src/lib/perks.ts:6-154 | `PERK_POOL` is the 13 base perks, then the 19 extended ones, then the mega perks. |
| `Perks.CappedTransforms` | src/lib/perks.ts:26-29 | `attack_speed` gives min(attackSpeed × 1.2, 10) and `crit_chance` gives min(critRate + 0.15, 0.75). Both caps hold afterwards. |
| `Perks.HealthBoostKeepsHealthInRange` | src/lib/perks.ts:50-54 | `health_boost` adds 20 to health and maxHealth, so health ≤ maxHealth is kept. |
| `Perks.BaseStatTransforms` | src/lib/perks.ts:14-79 | Gives the factors of speed_boost, damage_boost, pickup_radius and multishot (damage × 0.7). |
| `Perks.BaseBehaviourPerksUnchanged` | src/lib/perks.ts:89-148 | piercing, lifesteal, bloodthirst, token_multiplier, guardian_angel and chain_lightning return the stats unchanged. |
| `Perks.ShownPerksKeepStatsValid` | src/lib/perks.ts:6-154 | Every perk of the two shown catalogues keeps the stat invariant. |
| `Perks.LegendariesAreExtended` | src/lib/perks-extended.ts:150-200 | No base perk is legendary. Every legendary shown perk is one of the extended catalogue's last five. |
| `Perks.BaseIdRanks` | src/lib/perks.ts:6-148 | Each base perk's id ranks at its own position, so the base ids are distinct. |
| `Perks.ExtendedIdRanksLow` | src/lib/perks-extended.ts:7-110 | The first ten extended ids rank after the base ones, at their own positions. |
| `Perks.ExtendedIdRanksHigh` | src/lib/perks-extended.ts:111-201 | The remaining extended ids rank at their own positions. |
| `Perks.ShownIdsDistinct` | src/lib/perks.ts:6-154 | No two shown perks share an id. |
| `Perks.RarityBandsMatchWeights` | src/lib/perks.ts:157-179 | Each rarity is chosen by a band of rolls exactly as wide as its weight, and the weights sum to 1. |
| `Perks.RollRarityThresholds` | src/lib/perks.ts:170-179 | A roll maps to legendary iff < 0.02, epic iff in [0.02, 0.10), rare iff in [0.10, 0.35), and common otherwise. |
| `Perks.OfRarity` | src/lib/perks.ts:181-183 | The filter is no longer than its input. |
| `Perks.OfRarityMembers` | src/lib/perks.ts:181-183 | The filter keeps exactly the perks of the rarity. |
| `Perks.OfRarityAppend` | src/lib/perks.ts:181-183 | The filter distributes over concatenation. |
| `Perks.OfRarityAll` | src/lib/perks.ts:181-183 | A list all of one rarity passes the filter whole. |
| `Perks.IndexOf` | src/lib/perks.ts:190 | `indexOf` of a present perk is an index holding it. |
| `Perks.IndexOfFirst` | src/lib/perks.ts:190 | `indexOf` finds the first occurrence. |
| `Perks.RemoveAt` | src/lib/perks.ts:191 | `splice(i, 1)` shortens the list by one. |
| `Perks.RemoveAtMembers` | src/lib/perks.ts:191 | `splice(i, 1)` keeps every other element in order and adds none. |
| `Perks.PickFrom` | src/lib/perks.ts:185-191 | The pick is one of the candidates, and its first occurrence leaves the available list. |
| `Perks.DrawOneTakes` | src/lib/perks.ts:170-205 | An iteration that adds a perk takes an available one out and reads two random values. One that adds nothing changes nothing and reads one. |
| `Perks.DrawOneRarity` | src/lib/perks.ts:181-205 | The perk added has the rolled rarity, or is common when none of that rarity remains. Nothing is added exactly when neither remains. |
| `Perks.IterateStable` | src/lib/perks.ts:167-168 | Once the loop state is a fixed point of the step, further iterations change nothing. |
| `Perks.DraftAfterStable` | src/lib/perks.ts:168 | Once the pool is empty, the remaining iterations change nothing, so the `break` is harmless. |
| `Perks.DraftIteration` | src/lib/perks.ts:170-205 | One loop body on a non-empty list equals the specification step `DraftPass`. |
| `Perks.GetRandomPerks` | src/lib/perks.ts:156-209 | The loop returns the perks chosen, and the next unread random value, after `max(count, 0)` specification steps. |
| `Perks.RemoveAtDistinct` | src/lib/perks.ts:190-191 | Splicing a perk out keeps the ids distinct, and no remaining perk shares its id. |
| `Perks.SnocDistinct` | src/lib/perks.ts:188 | Pushing a perk whose id is not yet selected keeps the ids distinct. |
| `Perks.RemoveAtMultiset` | src/lib/perks.ts:191 | `splice(i, 1)` takes exactly one copy of the perk at i out of the list. |
| `Perks.DraftPassKeepsInvariant` | src/lib/perks.ts:185-204 | One iteration keeps every copy of a pool perk either chosen or available, never both (as multisets). With distinct pool ids it keeps the ids distinct between the two. It chooses at most one perk. |
| `Perks.IterateKeeps` | src/lib/perks.ts:167 | A step that keeps the invariant keeps it over any number of iterations. |
| `Perks.DraftAfterInvariant` | src/lib/perks.ts:164-168 | After k iterations at most k perks are chosen. All of them come from the pool, and none more often than the pool holds it. With distinct pool ids, no id is chosen twice. |
| `Perks.OfRarityRemoveAt` | src/lib/perks.ts:191 | Splicing removes at most one perk of any rarity. |
| `Perks.DraftPassChooses` | src/lib/perks.ts:194-204 | While a common perk remains, an iteration chooses one perk, and at most one common perk is used up. |
| `Perks.IterateChooses` | src/lib/perks.ts:167 | A step that chooses while `left` is positive chooses on every one of k ≤ left iterations. |
| `Perks.DraftAfterFull` | src/lib/perks.ts:164-205 | With at least k common perks in the pool, k iterations choose exactly k perks. |
| `Perks.ShownCommons` | src/lib/perks.ts:6-154 | The shown catalogues hold at least nine common perks. |
| `Perks.LevelUpDraftOffersThree` | src/lib/perks.ts:156-209 | `getRandomPerks(3)` always offers exactly three perks of the pool, none more often than the pool holds it, whatever the mega perks are. |
| `Perks.LevelUpDraftDistinct` | src/lib/perks.ts:185-191 | When the whole pool has distinct ids, the three perks offered have distinct ids. |
| `PerksExtended.ExtendedTouchesOneStat` | src/lib/perks-extended.ts:7-201 | No extended perk changes anything but damage or attack speed, and none changes both. |
| `PerksExtended.ExtendedStatTransforms` | src/lib/perks-extended.ts:25-108 | projectile_size gives damage × 1.15, explosive_rounds gives damage × 0.8, and cooldown_reduction gives attackSpeed × 1.25. |
| `PerksExtended.LegendaryStatTransforms` | src/lib/perks-extended.ts:166-190 | omni_shot halves damage and infinite_pierce multiplies it by 1.5. |
| `PerksExtended.ExtendedOthersUnchanged` | src/lib/perks-extended.ts:16-157 | Every other extended perk (regen, dodge_chance, xp_boost, berserker, resurrection, god_mode, …) returns the stats unchanged. |
| `PerksExtended.CooldownReductionUncapped` | src/lib/perks-extended.ts:105-108 | Unlike the capped attack_speed, cooldown_reduction can take attack speed past 10. |
| `PerksExtended.ExtendedLegendaries` | src/lib/perks-extended.ts:150-200 | The legendary tier is exactly the last five entries: god_mode, omni_shot, perfect_dodge, infinite_pierce, token_rain. |
| `GameStore.PowGrowthAtLeastOne` | src/stores/game-store.ts:5-7 | 1.2ⁿ ≥ 1 for every n. |
| `GameStore.CalculateXPRequired` | src/stores/game-store.ts:5-7 | floor(100 × 1.2^level) is at least 100. |
| `GameStore.XPRequiredIncreases` | src/stores/game-store.ts:5-7 | Each level needs at least 20 more XP than the one before. |
| `GameStore.XPRequiredFirstValues` | src/stores/game-store.ts:5-7 | The first thresholds are 100, 120 and 144. |
| `GameStore.Store.constructor` | src/stores/game-store.ts:9-33 | The store starts in the initial state. |
| `GameStore.Store.TakeDamage` | src/stores/game-store.ts:36-47 | The new state is `Damaged(old, amount)`. |
| `GameStore.Store.Heal` | src/stores/game-store.ts:49-60 | The new state is `Healed(old, amount)`. |
| `GameStore.Store.AddXP` | src/stores/game-store.ts:62-76 | The new state is `WithXP(old, amount)`. |
| `GameStore.Store.AddTokens` | src/stores/game-store.ts:78-84 | The new state is `WithTokens(old, amount)`. |
| `GameStore.Store.IncrementKills` | src/stores/game-store.ts:86-108 | The new state is `AfterKill(old)`. |
| `GameStore.Store.IncrementStage` | src/stores/game-store.ts:110-115 | Only the stage rises, by one; nothing caps it. |
| `GameStore.Store.StartDraft` | src/stores/game-store.ts:117-123 | The new state is `Drafting(old, perks)`. |
| `GameStore.Store.SelectPerk` | src/stores/game-store.ts:125-135 | The new state is `AfterPerk(old, perk)`. |
| `GameStore.Store.NextWave` | src/stores/game-store.ts:137-142 | Only the wave counter rises, by one. |
| `GameStore.Store.SetDungeon` | src/stores/game-store.ts:144-146 | Only the dungeon choice changes. |
| `GameStore.Store.SetMoving` | src/stores/game-store.ts:171-173 | Only `isMoving` changes. |
| `GameStore.Store.ResetGame` | src/stores/game-store.ts:148-169 | The new state is `Reset(old)`. |
| `GameStore.DamageClampsAtZero` | src/stores/game-store.ts:36-47 | Health becomes max(0, health − amount), never negative. The player is alive exactly when it is positive. Nothing else changes. |
| `GameStore.DamageNeverHeals` | src/stores/game-store.ts:36-47 | A non-negative hit never raises health. |
| `GameStore.HealCapsAtMaximum` | src/stores/game-store.ts:49-60 | Health becomes min(health + amount, maxHealth). Health within its maximum stays there, and no other stat changes. |
| `GameStore.AddXPCases` | src/stores/game-store.ts:62-76 | At the threshold, xp becomes 0 (the surplus is lost), the level rises by one, and xpRequired is recomputed for the new level. Below it, only xp rises. |
| `GameStore.AddXPKeepsInvariant` | src/stores/game-store.ts:62-76 | A non-negative gain keeps 0 ≤ xp < xpRequired with xpRequired matching the level, and raises the level by at most one. |
| `GameStore.AddTokensCounts` | src/stores/game-store.ts:78-84 | Pending and lifetime tokens rise by the same amount, and nothing else changes. |
| `GameStore.KillCases` | src/stores/game-store.ts:86-108 | Each kill adds 1 to killCount and 100 to score. Before stage 5, the tenth stage kill advances the stage and resets stageKills; otherwise stageKills rises. Nothing else changes. |
| `GameStore.KillKeepsStageInvariant` | src/stores/game-store.ts:97-107 | Kills keep the stage within 1..5 and stageKills below 10 before stage 5, and never lower the stage. |
| `GameStore.TenKillsAdvanceStage` | src/stores/game-store.ts:97-103 | Ten kills from a fresh stage before the fifth advance exactly one stage. |
| `GameStore.KillsBelowTen` | src/stores/game-store.ts:104-107 | Fewer than ten kills leave the stage, counting the kills. |
| `GameStore.StageFiveIsFinal` | src/stores/game-store.ts:97-107 | On stage 5 no number of kills changes the stage, and stageKills grows without bound. |
| `GameStore.DraftCycle` | src/stores/game-store.ts:117-135 | A draft opens paused with the offered perks. Choosing applies the perk's `apply` to the stats and clears drafting, pause and choices. |
| `GameStore.ResetRestoresInitial` | src/stores/game-store.ts:148-169 | A reset is the initial state with the dungeon choice and lifetime tokens kept, and it is idempotent. |
| `GameStore.InitialStoreValid` | src/stores/game-store.ts:11-33 | The initial and every reset state satisfy the XP, stage and stat invariants. |
| `SceneEntities.Destroy` | src/game/MainScene.ts:618 | Destroying removes exactly the object with that id and keeps every other. |
| `SceneEntities.DestroyKeeps` | src/game/MainScene.ts:618 | After `destroy()` no object of that id is left, and every object of another id is there exactly when it was before. |
| `SceneEntities.DestroyAbsent` | src/game/MainScene.ts:618 | Destroying an id not in the group changes nothing. |
| `SceneEntities.Fly` | src/game/MainScene.ts:284-289 | One frame of flight keeps a projectile's id and data. |
| `SceneEntities.Trim` | src/game/MainScene.ts:279-282 | More than `limit` projectiles drops the oldest `drop`; otherwise the pool is kept. |
| `SceneEntities.Advance` | src/game/MainScene.ts:284-300 | Moving and culling never grows the pool. |
| `SceneEntities.AdvanceMembers` | src/game/MainScene.ts:284-300 | What survives a frame is exactly the projectiles that, moved one frame, lie inside the box. |
| `SceneEntities.ProjectileUpdateShrinks` | src/game/MainScene.ts:276-328 | The per-frame update keeps the pool within the box, never grows it, and shrinks an over-full pool by at least `drop`. |
| `SceneEntities.NearestAmong` | src/game/MainScene.ts:218-233 | The scan's index lies among the enemies scanned. |
| `SceneEntities.Nearest` | src/game/MainScene.ts:218-233 | The target is an index of the group. |
| `SceneEntities.NearestAmongIsFirstNearest` | src/game/MainScene.ts:218-233 | After any prefix, the scan holds the first enemy of least distance in that prefix. |
| `SceneEntities.NearestIsFirstNearest` | src/game/MainScene.ts:218-233 | The target is the first enemy of least distance (ties go to the earlier one), and it is the only index with that property. |
| `SceneEntities.VolleyShape` | src/game/MainScene.ts:245-265 | A volley of n shots has length n, with ids firstId + i. |
| `SceneEntities.VolleyFacts` | src/game/MainScene.ts:245-265 | With multishot, three shots flying at 600 toward angle −0.3, angle and angle +0.3; otherwise one shot at 600 toward the angle. All start at the player with ids firstId + i, damage × (1 + 0.1 × stacks) and the piercing flag. |
| `SceneEntities.BloodthirstStrengthens` | src/game/MainScene.ts:259 | Stacks never weaken a shot, and each stack adds a tenth of the base damage. |
| `SceneEntities.GoblinCooldown` | src/game/MainScene.ts:390-397 | The goblin fires exactly when its cooldown minus delta reaches 0, and the cooldown then restarts at 2000. |
| `SceneEntities.BreathCooldown` | src/game/MainScene.ts:456-463 | The dragon breathes exactly when its cooldown minus delta reaches 0, and the cooldown then restarts at 3000. |
| `SceneEntities.AttackIntervals` | src/game/MainScene.ts:394-463 | A goblin that just fired does not fire in the next frame if that frame is shorter than 2000 ms, and a dragon not if it is shorter than 3000 ms. |
| `SceneEntities.Breath` | src/game/MainScene.ts:466-481 | A breath is eight shots from the dragon, with ids firstId + i and 0.7 of its damage. |
| `SceneEntities.BatStep` | src/game/MainScene.ts:360-375 | A bat step keeps the bat's id and data. |
| `SceneEntities.GoblinStep` | src/game/MainScene.ts:377-420 | A goblin step keeps id and configuration. It fires one shot exactly when the cooldown runs out, with a fresh id. |
| `SceneEntities.OrcStep` | src/game/MainScene.ts:422-436 | An orc step keeps the orc's id and data. |
| `SceneEntities.DragonStep` | src/game/MainScene.ts:438-486 | A dragon step keeps id and configuration. It fires eight shots exactly when the breath cooldown runs out, with consecutive fresh ids. |
| `SceneEntities.EnemyStep` | src/game/MainScene.ts:330-358 | Dispatches on the AI pattern: only goblins and dragons fire (1 and 8 shots respectively), and zigzag and charge enemies fire nothing. |
| `SceneEntities.EnemyShotDamage` | src/game/MainScene.ts:416-478 | A goblin's shot carries half its damage and a dragon's breath 0.7 of it; no enemy projectile pierces. |
| `SceneEntities.Direction` | src/game/MainScene.ts:155-174 | A joystick pushed past the dead zone overrides the keys with its (forceX, forceY); without a joystick, the keys give components in {−1, 0, 1}. |
| `SceneEntities.Moved` | src/game/MainScene.ts:180-194 | A move always ends inside [20, 700] × [20, 1260], and a move of `baseMoveSpeed`/60 along the normalised direction that stays inside is not altered by the clamp. |
| `SceneEntities.Countdown` | src/game/MainScene.ts:122-123 | max(0, t − delta): never negative, 0 exactly when t ≤ delta. |
| `SceneEntities.SpawnClock` | src/game/MainScene.ts:124-142 | A spawn is attempted exactly when the clock plus delta reaches 2000, and the clock then restarts at 0. |
| `SceneEntities.SpawnClockBounded` | src/game/MainScene.ts:124-142 | For non-negative frames the spawn clock stays within [0, 2000). |
| `SceneEntities.AiPass` | src/game/MainScene.ts:330-358 | The AI pass keeps the number of enemies. |
| `SceneEntities.AiPassKeepsEnemies` | src/game/MainScene.ts:330-358 | Every enemy keeps its place, id and configuration. |
| `SceneEntities.AiPassNumbersShots` | src/game/MainScene.ts:330-358 | The pass only appends enemy projectiles, with consecutive fresh ids, and advances the id counter by their number. |
| `SceneRules.FireFacts` | src/game/MainScene.ts:213-274 | `Fire`: with no enemies nothing changes. Otherwise it targets the first nearest enemy and appends 3 (multishot) or 1 shots with fresh ids, keeping the old projectiles. Each shot has the bloodthirst-scaled damage and the piercing flag; a single shot flies at 600 toward the target. The cooldown becomes 1000/attackSpeed. |
| `SceneRules.FireKeepsIdsFresh` | src/game/MainScene.ts:213-274 | Firing keeps every projectile id below the next free id. |
| `SceneRules.EnemyDeathFacts` | src/game/MainScene.ts:558-622 | `EnemyDeath` drops one XP gem worth 100 for a dragon and 10 otherwise, and a dragon always drops a 10-token orb. It counts the kill, adds a bloodthirst stack and heals 2 exactly with those perks, reads one random value and removes the enemy. Nothing else changes. |
| `SceneRules.GuardianAngelSaves` | src/game/MainScene.ts:631-636 | `PlayerHit` on a lethal hit with the charge armed: the charge is spent, the player heals by half the maximum (capped), stays alive, and is invulnerable for 3000 ms. |
| `SceneRules.PlayerHitFacts` | src/game/MainScene.ts:624-644 | Any other hit is `takeDamage` with the 1000 ms window. Either way the player ends invulnerable, health stays in [0, maxHealth], and the charge is never re-armed. |
| `SceneRules.SetHealth` | src/game/MainScene.ts:506 | Writing an enemy's health keeps the group's size and order. The enemy of that id gets the new health and keeps its position and all other data. Every other enemy is left as it was. |
| `SceneRules.SetHealthGroup` | src/game/MainScene.ts:506 | For an enemy in the group, it stays there with the new health, and the membership of every other enemy is unchanged. |
| `SceneRules.HitEnemy` | src/game/MainScene.ts:495-517 | Covers one projectile–enemy test of the first pass, skipping objects destroyed earlier in the pass. The snapshot keeps its size. |
| `SceneRules.HitEnemyFacts` | src/game/MainScene.ts:495-508 | For all inputs: unless both objects are still there and within 30 pixels, nothing changes. On a hit, the enemy's health drops by the projectile's damage and every other snapshot entry is kept. |
| `SceneRules.HitGroupFacts` | src/game/MainScene.ts:503-512 | On a hit, the enemy stays in its group with the lowered health exactly when that health is above 0; otherwise `onEnemyDeath` removes it. Every other enemy is kept. |
| `SceneRules.GroupAfterHit` | src/game/MainScene.ts:506-512 | A health write followed by the destroy at health ≤ 0 keeps other enemies and leaves the enemy exactly when its health is above 0. |
| `SceneRules.HitRewardFacts` | src/game/MainScene.ts:503-512 | On a hit, the kill is counted, one random value is read and loot is dropped exactly when the new health is ≤ 0. Otherwise the store, pickups, stacks and ids are kept. Enemy projectiles, the invulnerability timer and the guardian charge are kept either way. |
| `SceneRules.HitProjectileFacts` | src/game/MainScene.ts:513-516 | On a hit, the projectile is destroyed exactly when it does not pierce, and every other projectile is kept. |
| `SceneRules.HitEnemies` | src/game/MainScene.ts:495-518 | Covers one projectile against the enemy snapshot. The snapshot keeps its size. |
| `SceneRules.HitEnemyAsWritten` | src/game/MainScene.ts:495-517 | Covers the same test without the destroyed-projectile check, as the source reads. The snapshot keeps its size. |
| `SceneRules.HitEnemiesAsWritten` | src/game/MainScene.ts:494-519 | Covers one projectile against the snapshot without that check. |
| `SceneRules.ProjectilePass` | src/game/MainScene.ts:494-519 | Covers the first pass: every projectile against every enemy. The snapshot keeps its size. |
| `SceneRules.ShotPassInvulnerable` | src/game/MainScene.ts:522-536 | After the enemy-projectile pass the player is invulnerable as soon as one shot hit, and otherwise the timer is unchanged. |
| `SceneRules.MeleePassInvulnerable` | src/game/MainScene.ts:539-555 | The same holds for the melee pass. |
| `SceneRules.HitEnemiesKeepTimer` | src/game/MainScene.ts:494-519 | Hits on enemies never touch the player's invulnerability. |
| `SceneRules.ProjectilePassKeepsTimer` | src/game/MainScene.ts:494-519 | The whole first pass leaves the invulnerability timer as it was. |
| `SceneRules.CollisionsKeepTimer` | src/game/MainScene.ts:488-556 | `Collisions` never leaves the invulnerability timer negative. |
| `SceneRules.DestroyedProjectileHitsNothing` | src/game/MainScene.ts:513-516 | Once a projectile is destroyed it hits no further enemy. |
| `SceneRules.HitDestroysProjectile` | src/game/MainScene.ts:513-516 | A hit by a non-piercing projectile destroys it. |
| `SceneRules.DestroyedShotKeepsHitting` | src/game/MainScene.ts:494-519 | As written, one ordinary 10-damage projectile over two orcs hits both, though its first hit destroyed it. |
| `SceneRules.OrdinaryShotHitsOnce` | src/game/MainScene.ts:494-519 | As intended, the same projectile hits only the first orc and is gone. |
| `SceneRules.KillCountedOnce` | src/game/MainScene.ts:494-519 | Two 25-damage projectiles over a 20-health bat: one kill, one XP gem worth 10, and the second projectile flies on. |
| `SceneRules.LiveCollectSkips` | src/game/MainScene.ts:646-672 | Two gems in reach: the loop over the live group array (`CollectLive`) collects one and skips the other; the pass over a copy (`CollectPass`) collects both. |
| `SceneRules.CollectOneTokens` | src/game/MainScene.ts:661-667 | `Collect`: one pickup adds its value to pending and lifetime tokens exactly when it is a token orb. |
| `SceneRules.CollectTokens` | src/game/MainScene.ts:646-672 | `CollectPass` banks exactly the token value within reach, as both pending and lifetime tokens. |
| `SceneRules.CollectLeavesOutOfReach` | src/game/MainScene.ts:646-672 | With distinct ids, the pickups left are exactly those out of reach. |
| `SceneRules.DragonsZero` | src/game/MainScene.ts:683 | No dragon is counted exactly when none is alive. |
| `SceneRules.SpawnFacts` | src/game/MainScene.ts:674-755 | `Spawn`: at most one enemy per call, none when the budget is below 1. What appears costs at most the budget and has its config's full health. A dragon appears exactly on stage 5 with no dragon alive and budget ≥ 10, at (360, 100). |
| `SceneRules.SpawnKeepsOneDragon` | src/game/MainScene.ts:683-705 | With at most one dragon alive before a spawn, there is at most one after. |
| `SceneRules.LevelCheckNeverApplies` | src/game/MainScene.ts:757-793 | As written, `LevelCheck` run on any sequence of frames applies no perk, whatever the store does. |
| `SceneRules.LevelCheckFixedKeepsStore` | src/game/MainScene.ts:757-781 | `LevelCheckFixed` changes no more of the store than the draft flags and choices. |
| `SceneRules.DraftPickReachesScene` | src/game/MainScene.ts:757-793 | After a level-up and a pick, the watch as written leaves the perk unapplied (a multishot pick still fires one shot). With the fix the perk is applied, a guardian angel pick arms the charge, and multishot fires three. |
| `SceneRules.ActStepFacts` | src/game/MainScene.ts:126-134 | The first half of a frame (`ActStep`: `handleMovement`, `updateEnemies` from the new position, both projectile updates) changes the store only in `isMoving`. A moving player ends in the playfield, fires nothing and keeps the weapon timer, and the projectiles are only trimmed and moved. A standing player stays put. Every enemy keeps its place and id. The id counter never goes back, and the weapon timer stays ≥ 0. |
| `SceneRules.ResolveStepFacts` | src/game/MainScene.ts:136-146 | The second half (`ResolveStep`: `checkCollisions`, the spawn gate, `collectPickups`) changes enemies, ids and random reads after the collisions only when the spawn clock was due, and then appends at most one enemy with the next fresh id. Projectiles, the timer, the charge and the stacks are those the collisions leave. The tokens within reach are banked, and the timer stays ≥ 0. |
| `SceneRules.OneDraftPerLevelJump` | src/game/MainScene.ts:759-768 | `OpenDraft`: a level rise opens one draft and records the level; no other opens until the level rises again. |
| `MainScene.Scene.constructor` | src/game/MainScene.ts:24-104 | The scene starts with the player at the screen centre, empty groups, zero timers, no perks and the invariant `Valid`. |
| `MainScene.Scene.OnEnemyDeath` | src/game/MainScene.ts:558-622 | The world after the handler is `EnemyDeath` of the world before. |
| `MainScene.Scene.DropLoot` | src/game/MainScene.ts:589-603 | Adds the XP gem and the token roll: `Loot` of the world before. |
| `MainScene.Scene.OnPlayerHit` | src/game/MainScene.ts:624-644 | The world after is `PlayerHit` of the world before, and the player is invulnerable. |
| `MainScene.Scene.HitEnemyAt` | src/game/MainScene.ts:495-517 | One projectile–enemy test is `HitEnemy`. |
| `MainScene.Scene.CheckCollisions` | src/game/MainScene.ts:488-556 | The world after is `Collisions` of the world before, and a non-negative invulnerability timer stays non-negative. |
| `MainScene.Scene.ProjectileHits` | src/game/MainScene.ts:494-519 | The nested loop is `ProjectilePass` over the copies. |
| `MainScene.Scene.ProjectileAgainstAll` | src/game/MainScene.ts:495-518 | The inner loop is `HitEnemies`. |
| `MainScene.Scene.EnemyShotHits` | src/game/MainScene.ts:523-535 | The loop is `ShotPass`, and it leaves the player invulnerable or the timer unchanged. |
| `MainScene.Scene.MeleeHits` | src/game/MainScene.ts:540-554 | The loop is `MeleePass`, and it leaves the player invulnerable or the timer unchanged. |
| `MainScene.Scene.FindNearest` | src/game/MainScene.ts:218-233 | The scan returns the first enemy of least distance. |
| `MainScene.Scene.ShootAtNearestEnemy` | src/game/MainScene.ts:213-274 | The weapon state after is `Fire` of the state before. |
| `MainScene.Scene.VolleyLoop` | src/game/MainScene.ts:245-265 | The loop builds exactly `Volley` for the shot count. |
| `MainScene.Scene.FlyAll` | src/game/MainScene.ts:284-300 | The flight loop is `Advance`. |
| `MainScene.Scene.UpdateProjectiles` | src/game/MainScene.ts:276-301 | Player projectiles are trimmed (over 200 drops the oldest 100), moved and culled at the screen edge. |
| `MainScene.Scene.UpdateEnemyProjectiles` | src/game/MainScene.ts:303-328 | Enemy projectiles are trimmed (over 150 drops the oldest 75), moved and culled with a 50-pixel margin. |
| `MainScene.Scene.UpdateEnemies` | src/game/MainScene.ts:330-358 | Enemies, enemy projectiles and the id counter are `AiPass` of the old values. |
| `MainScene.Scene.AiLoop` | src/game/MainScene.ts:333-357 | The loop is `AiPass` over the whole group. |
| `MainScene.Scene.HandleMovement` | src/game/MainScene.ts:150-211 | The arena after is `MoveStep` of the one before. A direction past the dead zone moves the player into the playfield, sets isMoving and does not fire. Otherwise the player stays, isMoving is cleared, and `Fire` happens exactly when the cooldown is ≤ 0. |
| `MainScene.Scene.CollectPickups` | src/game/MainScene.ts:646-672 | The store and the pickups after are `CollectPass` over a copy of the group, so the world after is `CollectStep` of the world before. |
| `MainScene.Scene.SpawnEnemies` | src/game/MainScene.ts:674-755 | The enemies, the random position and the id counter follow `Spawn`. |
| `MainScene.Scene.ApplySelectedPerk` | src/game/MainScene.ts:783-793 | `ApplyPerk`: records the perk id, arms the guardian angel for that perk, and remembers the perk. |
| `MainScene.Scene.OpenDraftIfLevelled` | src/game/MainScene.ts:762-768 | The draft-opening half of the watch is `OpenDraft`. |
| `MainScene.Scene.CheckLevelUp` | src/game/MainScene.ts:757-781 | The watch as written is `LevelCheck`. |
| `MainScene.Scene.CheckLevelUpFixed` | src/game/MainScene.ts:757-781 | The corrected watch is `LevelCheckFixed`. |
| `MainScene.Scene.Update` | src/game/MainScene.ts:107-148 | Paused or dead changes nothing. Otherwise it records the global stage (d−1)·5+s, adds delta/1000 to the difficulty, and advances the spawn clock by `SpawnClock`; the scene invariant is kept. |
| `MainScene.Scene.FrameWork` | src/game/MainScene.ts:128-147 | The frame's work keeps the invariant, and it restarts the spawn clock exactly when it reached 2000. |
| `MainScene.Scene.Act` | src/game/MainScene.ts:126-134 | The player, store, weapon, enemies and enemy projectiles after are `ActStep` of those before. The cooldown stays non-negative and the player stays put or ends in the playfield. |
| `MainScene.Scene.UpdateGroups` | src/game/MainScene.ts:129-134 | Enemies, ids and enemy shots are `AiPass` from the player's position. Both projectile groups are trimmed, moved and culled. |
| `MainScene.Scene.Resolve` | src/game/MainScene.ts:136-146 | The world after is `ResolveStep` of the world before, with the spawn gate open exactly when the clock reached 2000. The invulnerability timer stays non-negative, and the clock restarts exactly when it reached 2000. |
| `MainScene.Scene.SpawnIfDue` | src/game/MainScene.ts:139-142 | When the clock has reached 2000 it restarts and the world becomes `SpawnStep` of the old one. Otherwise nothing changes. |
| `MainScene.Scene.Frame` | src/game/MainScene.ts:104-148 | The corrected level watch followed by `update` keeps the scene invariant. |

## Left out

- Rendering, audio, camera shake and flash, particles, the background manager and the sprite factories have no rules and are not modelled. The stage change that `updateStage` would receive is recorded as `lastStage`.
- `localStorage`, JSON parsing and `saveProgress` are I/O. `loadProgress` takes what it would observe as a `StorageView` value. `updateDungeonProgress` takes the loaded record as a parameter and returns what it would save.
- `resetProgress` and the React, wallet and music components are outside the gameplay rules.
- Floating point: stats, positions and timers are exact reals. The `1/60` step and all trigonometry are uninterpreted (`Geometry`).
- The distributions of `Math.random` are not modelled, only which value each call reads.
- `src/lib/perks-mega.ts` is not part of this model. `MEGA_PERKS` is a parameter of the pool. The level-up draft offers three perks of the pool for any mega catalogue, and three perks of distinct ids when the whole pool's ids are distinct (`Perks.LevelUpDraftDistinct`).
- The perks' names, descriptions, tags and icons are display text, as are the themes' colours and descriptions.
- The `time` argument of `update` is unused by the source. The scene clock `now` (used by the bat's zigzag) is a parameter instead.
- Enemy projectiles reuse the `Missile` record with `piercing` false. They never pierce: each is destroyed on its hit.
- Every live enemy carries `enemyData`, so the source's `if (enemyData)` guards always pass and are not modelled.
- `update` reads the store once at its start. `MainScene.Scene.Update` passes that snapshot's stats to the steps, as the source does.
- The loops of `updateEnemies`, `shootAtNearestEnemy` and the projectile updates are written as loops over local sequences (`AiLoop`, `VolleyLoop`, `FlyAll`). The group field is then assigned once. The objects are values, so this is the same as updating each object in place.
- Phaser's `getChildren()` returns the group's live array, and `destroy()` removes the object from it. A `forEach` over that array skips the element after each destroyed one. The model shows this for `collectPickups` (see Findings). The projectile updates and the collision passes are modelled over a copy of the group, skipping objects destroyed earlier in the pass; that skip is the corrected behaviour.
- An enemy killed in the first collision pass is removed from its group, so it is neither hit again nor counted twice (`SceneRules.KillCountedOnce`). It does not touch the player in the melee pass either.
- MainScene.Scene.ShootAtNearestEnemy: requires `attackSpeed > 0`. A zero attack speed would make the source's cooldown `Infinity`, which has no exact real.
- MainScene.Scene.HandleMovement: requires `attackSpeed > 0`, because it may shoot.
- MainScene.Scene.Update: requires `delta >= 0` and `attackSpeed > 0`. It states the clocks, the recorded stage and the pause gate. The effect of each step it calls is stated by that step's own contract, not repeated in one ensures. The invulnerability and weapon timers are set by `Countdown` and then changed by the later steps.
- MainScene.Scene.Frame: states only the scene invariant. Its two steps carry the detailed contracts.
- MainScene.Scene.FrameWork: states only the invariant and the spawn-clock reset. `Act` and `Resolve` state the rest as `ActStep` and `ResolveStep`.
- The scene invariant `Valid` covers the player's position and the three clocks, not the groups.
- Documented versus coded behaviour:
  - Guardian Angel is described as "Survive a fatal hit once" (src/lib/perks.ts:135). The save at src/game/MainScene.ts:631-636 ignores the hit and heals BY half the maximum health, capped, so the player can end above half health. `SceneRules.GuardianAngelSaves` follows the code. The "Revive once with 50% HP" text at src/lib/perks-extended.ts:142 belongs to the separate `resurrection` perk, which the scene never reads.
  - The comment at src/stores/game-store.ts:93 calls stage 5 "Boss (1 kill)". The code at src/stores/game-store.ts:97-107 never advances past stage 5, and `stageKills` keeps growing with every kill. `GameStore.StageFiveIsFinal` follows the code.
- A run reported with time 0 leaves the best time unset, so the next run replaces it. Such a run is not possible in play.

## Findings

| source | as written | input that shows it | evidently intended | confidence | as-written member | corrected member |
|---|---|---|---|---|---|---|
| src/game/MainScene.ts:757-793 | `checkLevelUp` applies `lastSelectedPerk`, but that field is set only by `applySelectedPerk`, which only `checkLevelUp` calls. No perk picked on the draft screen ever reaches `appliedPerks`, so multishot, piercing, lifesteal, bloodthirst, token multiplier and guardian angel never take effect in the scene. | Level 2 reached, draft opened, the player picks multishot: the next shot is still a single projectile. | When a draft closes, the perk chosen on the draft screen is applied to the scene. | medium, not executed (the draft screen calls only `selectPerk` on the store) | `SceneRules.LevelCheckNeverApplies`, `SceneRules.DraftPickReachesScene`, `MainScene.Scene.CheckLevelUp` | `SceneRules.LevelCheckFixed`, `SceneRules.DraftPickReachesScene`, `MainScene.Scene.CheckLevelUpFixed` (used by `MainScene.Scene.Frame`) |
| src/game/MainScene.ts:494-519 | The inner loop goes on after `projectile.destroy()`. A non-piercing projectile destroyed by its first hit still damages every later enemy within 30 pixels in the same pass. | Two orcs at the same point and one ordinary 10-damage projectile there: both orcs lose 10. | A non-piercing projectile hits one enemy and is gone. | high, not executed | `SceneRules.HitEnemiesAsWritten`, `SceneRules.DestroyedShotKeepsHitting` | `SceneRules.HitEnemies`, `SceneRules.OrdinaryShotHitsOnce`, `SceneRules.DestroyedProjectileHitsNothing`, `MainScene.Scene.CheckCollisions` |
| src/game/MainScene.ts:646-672 | `forEach` runs over the pickup group's live array, and `pickup.destroy()` removes the collected pickup from it. The next pickup moves into the visited index and is skipped this frame. | Two XP gems worth 10 at the player's position: one is collected, the other stays. | Every pickup within reach is collected in the frame. | medium, not executed (depends on Phaser's `getChildren` returning the live array) | `SceneRules.CollectLive`, `SceneRules.LiveCollectSkips` | `SceneRules.CollectPass`, `SceneRules.CollectLeavesOutOfReach`, `MainScene.Scene.CollectPickups` |
