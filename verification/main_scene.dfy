/** The main scene (src/game/MainScene.ts) as an object: its timers, perk
    state, level watch, player position and the four groups are fields
    that its methods update in place, and the store is the object its
    actions go to. Each method is specified by the rule of `SceneRules` or
    `SceneEntities` it carries out. Rendering, audio, camera effects and
    particles are left out. */
module MainScene {
  import opened Wrappers
  import opened GameTypes
  import opened GameConfig
  import opened Random
  import opened Perks
  import opened GameStore
  import opened SceneEntities
  import opened SceneRules

  class Scene {
    /** The store the scene reads and acts on. */
    const store: Store
    /** The trigonometry oracle, the `Math.random` results, and the perks
        of the mega catalogue appended to the perk pool. */
    const geo: Geometry
    const rng: Stream
    const mega: seq<Perk>

    var player: Point
    var enemies: seq<Enemy>
    var projectiles: seq<Shot>
    var enemyShots: seq<Shot>
    var pickups: seq<Pickup>

    var invulnerabilityTimer: real
    var weaponCooldown: real
    var difficultyScore: real
    var spawnTimer: real

    var appliedPerks: set<PerkId>
    var bloodthirstStacks: int
    var hasGuardianAngel: bool

    var lastStage: int
    /** The level watch's properties, which the source attaches to the
        scene on first use; `lastLevel` 0 and `lastSelectedPerk` `None`
        stand for unset. */
    var lastLevel: int
    var wasDrafting: bool
    var lastSelectedPerk: Option<Perk>

    /** The id the next created game object gets, and the position of the
        next unread `Math.random` result. */
    var nextId: nat
    var rngPos: nat

    /** What the collision and pickup rules act on. */
    function World(): World
      reads this, store
    {
      SceneRules.World(store.state, enemies, projectiles, enemyShots, pickups,
        invulnerabilityTimer, hasGuardianAngel, bloodthirstStacks, nextId, rngPos)
    }

    /** What the level watch acts on. */
    function Watch(): Watch
      reads this, store
    {
      SceneRules.Watch(store.state, rngPos, lastLevel, wasDrafting, lastSelectedPerk, appliedPerks, hasGuardianAngel)
    }

    /** What every frame keeps true of the scene: the player inside the
        playfield, the countdowns not negative, and the spawn clock below
        the spawn interval. */
    predicate Valid()
      reads this
    {
      && InPlayfield(player)
      && invulnerabilityTimer >= 0.0
      && weaponCooldown >= 0.0
      && 0.0 <= spawnTimer < Config.spawnInterval
    }

    /** The scene after `create()`: the player in the middle of the screen,
        empty groups and zeroed timers. */
    constructor(store: Store, geo: Geometry, rng: Stream, mega: seq<Perk>, rngPos: nat)
      ensures this.store == store && this.geo == geo && this.rng == rng && this.mega == mega
      ensures player == Point(Config.width / 2.0, Config.height / 2.0)
      ensures enemies == [] && projectiles == [] && enemyShots == [] && pickups == []
      ensures invulnerabilityTimer == 0.0 && weaponCooldown == 0.0 && difficultyScore == 0.0 && spawnTimer == 0.0
      ensures appliedPerks == {} && bloodthirstStacks == 0 && !hasGuardianAngel
      ensures lastStage == 1 && lastLevel == 0 && !wasDrafting && lastSelectedPerk.None?
      ensures nextId == 0 && this.rngPos == rngPos
      ensures Valid()
    {
      this.store := store;
      this.geo := geo;
      this.rng := rng;
      this.mega := mega;
      player := Point(Config.width / 2.0, Config.height / 2.0);
      enemies, projectiles, enemyShots, pickups := [], [], [], [];
      invulnerabilityTimer, weaponCooldown, difficultyScore, spawnTimer := 0.0, 0.0, 0.0, 0.0;
      appliedPerks, bloodthirstStacks, hasGuardianAngel := {}, 0, false;
      lastStage, lastLevel, wasDrafting, lastSelectedPerk := 1, 0, false, None;
      nextId := 0;
      this.rngPos := rngPos;
    }

    // ----- onEnemyDeath and onPlayerHit -----

    /** `onEnemyDeath(enemy)`. */
    method OnEnemyDeath(e: Enemy)
      modifies this`pickups, this`nextId, this`rngPos, this`bloodthirstStacks, this`enemies, store
      ensures World() == EnemyDeath(old(World()), e, appliedPerks, rng)
    {
      DropLoot(e);
      store.IncrementKills();
      if Bloodthirst in appliedPerks {
        bloodthirstStacks := bloodthirstStacks + 1;
      }
      if Lifesteal in appliedPerks {
        store.Heal(2.0);
      }
      enemies := Destroy(enemies, e.id);
    }

    /** The XP gem and token roll of `onEnemyDeath`. */
    method DropLoot(e: Enemy)
      modifies this`pickups, this`nextId, this`rngPos
      ensures World() == Loot(old(World()), e, appliedPerks, rng)
    {
      var dragon := e.data.config.kind == Dragon;
      pickups := pickups + [Obj(nextId, e.pos, PickupData(XpGem, if dragon then 100 else 10))];
      nextId := nextId + 1;
      var roll := rng(rngPos);
      rngPos := rngPos + 1;
      if roll < TokenChance(e.data.config.kind, appliedPerks) {
        pickups := pickups + [Obj(nextId, e.pos, PickupData(TokenOrb, if dragon then 10 else 1))];
        nextId := nextId + 1;
      }
    }

    /** `onPlayerHit(damage)`. */
    method OnPlayerHit(damage: real)
      modifies this`hasGuardianAngel, this`invulnerabilityTimer, store
      ensures World() == PlayerHit(old(World()), damage)
      ensures invulnerabilityTimer > 0.0
    {
      if store.state.playerStats.health - damage <= 0.0 && hasGuardianAngel {
        hasGuardianAngel := false;
        store.Heal(store.state.playerStats.maxHealth * 0.5);
        invulnerabilityTimer := 3000.0;
        return;
      }
      store.TakeDamage(damage);
      invulnerabilityTimer := Timings.invulnerabilityWindow;
    }

    // ----- checkCollisions -----

    /** One projectile against the `j`-th enemy of the snapshot; returns
        the snapshot with that enemy's lowered health. */
    method HitEnemyAt(snap: seq<Enemy>, p: Shot, j: nat) returns (snap': seq<Enemy>)
      requires j < |snap|
      modifies this`pickups, this`nextId, this`rngPos, this`bloodthirstStacks, this`enemies, this`projectiles, store
      ensures PassState(World(), snap') == HitEnemy(PassState(old(World()), snap), p, j, appliedPerks, rng)
    {
      var e := snap[j];
      snap' := snap;
      if Present(enemies, e.id) && Present(projectiles, p.id) && Within(p.pos, e.pos, HitRadius) {
        var h := e.data.config.health - p.data.damage;
        var e' := e.(data := e.data.(config := e.data.config.(health := h)));
        snap' := snap[j := e'];
        enemies := SetHealth(enemies, e.id, h);
        if h <= 0.0 {
          OnEnemyDeath(e');
        }
        if !p.data.piercing {
          projectiles := Destroy(projectiles, p.id);
        }
      }
    }

    /** `checkCollisions()`: the three passes over copies of the groups
        taken when it starts, skipping objects destroyed since. */
    method CheckCollisions()
      modifies this`enemies, this`projectiles, this`enemyShots, this`pickups, this`nextId, this`rngPos
      modifies this`bloodthirstStacks, this`hasGuardianAngel, this`invulnerabilityTimer, store
      ensures World() == Collisions(old(World()), player, appliedPerks, rng)
      ensures old(invulnerabilityTimer) >= 0.0 ==> invulnerabilityTimer >= 0.0
    {
      var enemyShotSnap := enemyShots;
      var snap := ProjectileHits();
      if invulnerabilityTimer <= 0.0 {
        EnemyShotHits(enemyShotSnap);
      }
      if invulnerabilityTimer <= 0.0 {
        MeleeHits(snap);
      }
    }

    /** The first pass: every projectile against every enemy, over the two
        groups as they were at the start; returns the enemy snapshot. */
    method ProjectileHits() returns (snap: seq<Enemy>)
      modifies this`pickups, this`nextId, this`rngPos, this`bloodthirstStacks, this`enemies, this`projectiles, store
      ensures PassState(World(), snap) ==
        ProjectilePass(PassState(old(World()), old(enemies)), old(projectiles), |old(projectiles)|, appliedPerks, rng)
    {
      ghost var w0 := World();
      var shots := projectiles;
      snap := enemies;
      var n := |snap|;
      var i: nat := 0;
      while i < |shots|
        invariant i <= |shots| && |snap| == n
        invariant PassState(World(), snap) == ProjectilePass(PassState(w0, w0.enemies), shots, i, appliedPerks, rng)
      {
        snap := ProjectileAgainstAll(snap, shots[i]);
        i := i + 1;
      }
    }

    /** One projectile against every enemy of the snapshot. */
    method ProjectileAgainstAll(snap: seq<Enemy>, p: Shot) returns (snap': seq<Enemy>)
      modifies this`pickups, this`nextId, this`rngPos, this`bloodthirstStacks, this`enemies, this`projectiles, store
      ensures PassState(World(), snap') == HitEnemies(PassState(old(World()), snap), p, |snap|, appliedPerks, rng)
    {
      ghost var before := PassState(World(), snap);
      snap' := snap;
      var j: nat := 0;
      while j < |snap|
        invariant j <= |snap| && |snap'| == |snap|
        invariant PassState(World(), snap') == HitEnemies(before, p, j, appliedPerks, rng)
      {
        ghost var mid := HitEnemies(before, p, j, appliedPerks, rng);
        snap' := HitEnemyAt(snap', p, j);
        assert HitEnemies(before, p, j + 1, appliedPerks, rng) == HitEnemy(mid, p, j, appliedPerks, rng);
        j := j + 1;
      }
    }

    /** The second pass: enemy projectiles of the snapshot against the
        player. */
    method EnemyShotHits(shots: seq<Shot>)
      modifies this`enemyShots, this`hasGuardianAngel, this`invulnerabilityTimer, store
      ensures World() == ShotPass(old(World()), player, shots, |shots|)
      ensures invulnerabilityTimer > 0.0 || invulnerabilityTimer == old(invulnerabilityTimer)
    {
      ghost var w1 := World();
      var k: nat := 0;
      while k < |shots|
        invariant k <= |shots|
        invariant World() == ShotPass(w1, player, shots, k)
        invariant invulnerabilityTimer > 0.0 || invulnerabilityTimer == w1.invulnerabilityTimer
      {
        var s := shots[k];
        if Within(player, s.pos, ShotRadius) {
          OnPlayerHit(ShotHitDamage(s.data.damage));
          enemyShots := Destroy(enemyShots, s.id);
        }
        k := k + 1;
      }
    }

    /** The third pass: enemies of the snapshot touching the player. */
    method MeleeHits(snap: seq<Enemy>)
      modifies this`hasGuardianAngel, this`invulnerabilityTimer, store
      ensures World() == MeleePass(old(World()), player, snap, |snap|)
      ensures invulnerabilityTimer > 0.0 || invulnerabilityTimer == old(invulnerabilityTimer)
    {
      ghost var w2 := World();
      var k: nat := 0;
      while k < |snap|
        invariant k <= |snap|
        invariant World() == MeleePass(w2, player, snap, k)
        invariant invulnerabilityTimer > 0.0 || invulnerabilityTimer == w2.invulnerabilityTimer
      {
        var e := snap[k];
        if Present(enemies, e.id) && Within(player, e.pos, PlayerHitbox + e.data.config.size) {
          OnPlayerHit(e.data.config.damage);
        }
        k := k + 1;
      }
    }

    // ----- shootAtNearestEnemy -----

    /** The weapon part of the scene. */
    function Gun(): Gun
      reads this
    {
      SceneRules.Gun(projectiles, nextId, weaponCooldown)
    }

    /** The nearest-enemy scan of `shootAtNearestEnemy`: an enemy replaces
        the one kept only when strictly closer, so the first of the nearest
        is found. */
    method FindNearest(es: seq<Enemy>) returns (best: nat)
      requires |es| > 0
      ensures IsFirstNearest(player, es, best)
    {
      best := 0;
      var bestDist := DistSq(player, es[0].pos);
      var k: nat := 1;
      while k < |es|
        invariant 1 <= k <= |es| && best < k
        invariant bestDist == DistSq(player, es[best].pos)
        invariant forall j :: 0 <= j < k ==> bestDist <= DistSq(player, es[j].pos)
        invariant forall j :: 0 <= j < best ==> bestDist < DistSq(player, es[j].pos)
      {
        var d := DistSq(player, es[k].pos);
        if d < bestDist {
          best, bestDist := k, d;
        }
        k := k + 1;
      }
    }

    /** `shootAtNearestEnemy(stats)`. */
    method ShootAtNearestEnemy(stats: PlayerStats)
      requires stats.attackSpeed > 0.0
      modifies this`projectiles, this`nextId, this`weaponCooldown
      ensures Gun() == Fire(old(Gun()), geo, player, enemies, appliedPerks, bloodthirstStacks, stats)
    {
      if |enemies| == 0 {
        return;
      }
      var t := FindNearest(enemies);
      NearestIsFirstNearest(player, enemies);
      var angle := geo.angleBetween(player, enemies[t].pos);
      var multishot := Multishot in appliedPerks;
      var added := VolleyLoop(geo, player, angle, multishot, Piercing in appliedPerks, stats.damage, bloodthirstStacks, nextId);
      VolleyShape(geo, player, angle, multishot, Piercing in appliedPerks, stats.damage, bloodthirstStacks, nextId, ShotCount(multishot));
      projectiles := projectiles + added;
      nextId := nextId + |added|;
      weaponCooldown := 1000.0 / stats.attackSpeed;
    }

    /** The volley loop of `shootAtNearestEnemy`: one projectile per
        iteration, each with the next free id. */
    static method VolleyLoop(geo: Geometry, from: Point, angle: real, multishot: bool, piercing: bool,
                             damage: real, stacks: int, firstId: nat) returns (added: seq<Shot>)
      ensures added == Volley(geo, from, angle, multishot, piercing, damage, stacks, firstId, ShotCount(multishot))
    {
      added := [];
      var i: nat := 0;
      while i < ShotCount(multishot)
        invariant i <= ShotCount(multishot)
        invariant added == Volley(geo, from, angle, multishot, piercing, damage, stacks, firstId, i)
      {
        added := added + [VolleyShot(geo, from, angle, multishot, piercing, damage, stacks, firstId + i, i)];
        i := i + 1;
      }
    }

    // ----- updateProjectiles and updateEnemyProjectiles -----

    /** The flight loop over a projectile group: each one moves one frame
        and is dropped when it has left `b`. */
    static method FlyAll(pool: seq<Shot>, b: Box) returns (kept: seq<Shot>)
      ensures kept == Advance(pool, b)
    {
      kept := [];
      var i: nat := 0;
      while i < |pool|
        invariant i <= |pool| && kept == Advance(pool[..i], b)
      {
        assert pool[..i + 1][..i] == pool[..i];
        var f := Fly(pool[i]);
        if Inside(f.pos, b) {
          kept := kept + [f];
        }
        i := i + 1;
      }
      assert pool[..|pool|] == pool;
    }

    /** `updateProjectiles()`: more than 200 drops the oldest 100, then the
        rest fly and those off screen are destroyed. */
    method UpdateProjectiles()
      modifies this`projectiles
      ensures projectiles == Advance(Trim(old(projectiles), 200, 100), ScreenBox)
    {
      projectiles := FlyAll(Trim(projectiles, 200, 100), ScreenBox);
    }

    /** `updateEnemyProjectiles()`: more than 150 drops the oldest 75, then
        the rest fly and those more than 50 pixels off screen are
        destroyed. */
    method UpdateEnemyProjectiles()
      modifies this`enemyShots
      ensures enemyShots == Advance(Trim(old(enemyShots), 150, 75), MarginBox)
    {
      enemyShots := FlyAll(Trim(enemyShots, 150, 75), MarginBox);
    }

    // ----- updateEnemies -----

    /** `updateEnemies(delta)` at scene time `now`: every enemy takes its
        AI step, in group order, and what they fire joins the enemy
        projectiles. */
    method UpdateEnemies(delta: real, now: real)
      modifies this`enemies, this`enemyShots, this`nextId
      ensures var r := AiPass(geo, old(enemies), player, delta, now, old(nextId), |old(enemies)|);
        enemies == r.enemies && enemyShots == old(enemyShots) + r.shots && nextId == r.nextId
    {
      var r := AiLoop(geo, enemies, player, delta, now, nextId);
      enemies, enemyShots, nextId := r.enemies, enemyShots + r.shots, r.nextId;
    }

    /** The loop of `updateEnemies` over the group: each enemy in turn is
        replaced by its AI step, and what it fires is collected. */
    static method AiLoop(geo: Geometry, es: seq<Enemy>, player: Point, delta: real, now: real, firstId: nat)
      returns (r: AiResult)
      ensures r == AiPass(geo, es, player, delta, now, firstId, |es|)
    {
      var group, shots, id: nat := es, [], firstId;
      var k: nat := 0;
      while k < |es|
        invariant k <= |es| && AiResult(group, shots, id) == AiPass(geo, es, player, delta, now, firstId, k)
      {
        var step := EnemyStep(geo, group[k], player, delta, now, id);
        group, shots, id := group[k := step.0], shots + step.1, id + |step.1|;
        k := k + 1;
      }
      r := AiResult(group, shots, id);
    }

    // ----- handleMovement -----

    /** `handleMovement(stats)`: a direction past the dead zone moves the
        player and marks the store as moving; otherwise the store is marked
        as still and, with the weapon ready, the player shoots. */
    method HandleMovement(input: Input, stats: PlayerStats)
      requires stats.attackSpeed > 0.0
      modifies this`player, this`projectiles, this`nextId, this`weaponCooldown, store
      ensures old(weaponCooldown) >= 0.0 ==> weaponCooldown >= 0.0
      ensures InPlayfield(player) || player == old(player)
      ensures var d := Direction(input);
        if Moving(geo, d) then
          && player == Moved(geo, old(player), d, stats.baseMoveSpeed)
          && store.state == old(store.state).(isMoving := true)
          && Gun() == old(Gun())
        else
          && player == old(player)
          && store.state == old(store.state).(isMoving := false)
          && Gun() == (if old(weaponCooldown) <= 0.0
                       then Fire(old(Gun()), geo, player, enemies, appliedPerks, bloodthirstStacks, stats)
                       else old(Gun()))
      ensures Arena() == MoveStep(old(Arena()), geo, input, stats, appliedPerks, bloodthirstStacks)
    {
      var d := Direction(input);
      if Moving(geo, d) {
        player := Moved(geo, player, d, stats.baseMoveSpeed);
        store.SetMoving(true);
      } else {
        store.SetMoving(false);
        if weaponCooldown <= 0.0 {
          FireFacts(Gun(), geo, player, enemies, appliedPerks, bloodthirstStacks, stats);
          ShootAtNearestEnemy(stats);
        }
      }
    }

    // ----- collectPickups -----

    /** `collectPickups(stats)` over the group as it is when the pass
        starts: XP gems go through `addXP`, tokens through `addTokens`, and
        each collected pickup is destroyed. */
    method CollectPickups(stats: PlayerStats)
      modifies this`pickups, store
      ensures (store.state, pickups) ==
        CollectPass(old(store.state), old(pickups), old(pickups), player, stats.pickupRadius, |old(pickups)|)
      ensures World() == CollectStep(old(World()), player, stats.pickupRadius)
    {
      var snap := pickups;
      ghost var s0 := store.state;
      var k: nat := 0;
      while k < |snap|
        invariant k <= |snap|
        invariant (store.state, pickups) == CollectPass(s0, snap, snap, player, stats.pickupRadius, k)
      {
        var p := snap[k];
        if Within(player, p.pos, stats.pickupRadius) {
          match p.data.kind {
            case XpGem => store.AddXP(p.data.value);
            case TokenOrb => store.AddTokens(p.data.value);
          }
          pickups := Destroy(pickups, p.id);
        }
        k := k + 1;
      }
    }

    // ----- spawnEnemies -----

    /** `spawnEnemies()`. */
    method SpawnEnemies()
      modifies this`enemies, this`rngPos, this`nextId
      ensures var r := Spawn(difficultyScore, old(enemies), store.state.currentStage, rng, old(rngPos), old(nextId));
        && rngPos == r.next
        && enemies == old(enemies) + (if r.spawned.Some? then [r.spawned.value] else [])
        && nextId == old(nextId) + (if r.spawned.Some? then 1 else 0)
    {
      var budget := difficultyScore - |enemies| as real;
      if budget < 1.0 {
        return;
      }
      var boss := store.state.currentStage == 5 && !HasDragon(enemies);
      var kind: EnemyType;
      if boss && budget >= EnemyConfigFor(Dragon).cost as real {
        kind := Dragon;
      } else {
        kind := SpawnKinds[FloorIndex(rng(rngPos), |SpawnKinds|)];
        rngPos := rngPos + 1;
      }
      var config := EnemyConfigFor(kind);
      if config.cost as real <= budget {
        var at: Point;
        if kind == Dragon {
          at := BossSpawn;
        } else {
          at := EdgePoint(rng, rngPos);
          rngPos := rngPos + 2;
        }
        enemies := enemies + [Obj(nextId, at, EnemyData(config, 0.0, 0.0, 0.0))];
        nextId := nextId + 1;
      }
    }

    // ----- checkLevelUp and applySelectedPerk -----

    /** `applySelectedPerk(perk)`. */
    method ApplySelectedPerk(perk: Perk)
      modifies this`appliedPerks, this`hasGuardianAngel, this`lastSelectedPerk
      ensures Watch() == ApplyPerk(old(Watch()), perk)
    {
      appliedPerks := appliedPerks + {perk.id};
      if perk.id == GuardianAngel {
        hasGuardianAngel := true;
      }
      lastSelectedPerk := Some(perk);
    }

    /** The draft-opening half of `checkLevelUp`. */
    method OpenDraftIfLevelled(level: int, drafting: bool)
      requires level == store.state.level && drafting == store.state.isDrafting
      modifies store, this`rngPos, this`lastLevel
      ensures Watch() == OpenDraft(old(Watch()), mega, rng)
    {
      var prevLevel := if lastLevel == 0 then 1 else lastLevel;
      if level > prevLevel && !drafting {
        var perks, next := GetRandomPerks(PerkPool(mega), 3, rng, rngPos);
        rngPos := next;
        store.StartDraft(perks);
        lastLevel := level;
      }
    }

    /** `checkLevelUp()` as written, run on every frame before `update`. */
    method CheckLevelUp()
      modifies store, this`rngPos, this`lastLevel, this`wasDrafting, this`lastSelectedPerk
      modifies this`appliedPerks, this`hasGuardianAngel
      ensures Watch() == LevelCheck(old(Watch()), mega, rng)
    {
      var state := store.state;
      var prevDrafting := wasDrafting;
      OpenDraftIfLevelled(state.level, state.isDrafting);
      if prevDrafting && !state.isDrafting {
        if lastSelectedPerk.Some? {
          ApplySelectedPerk(lastSelectedPerk.value);
          lastSelectedPerk := None;
        }
      }
      wasDrafting := state.isDrafting;
    }

    /** `checkLevelUp()` as evidently intended: the perk chosen on the
        draft screen is applied when the draft closes. */
    method CheckLevelUpFixed(chosen: Option<Perk>)
      modifies store, this`rngPos, this`lastLevel, this`wasDrafting, this`lastSelectedPerk
      modifies this`appliedPerks, this`hasGuardianAngel
      ensures Watch() == LevelCheckFixed(old(Watch()), mega, rng, chosen)
    {
      var prevDrafting := wasDrafting;
      OpenDraftIfLevelled(store.state.level, store.state.isDrafting);
      if prevDrafting && !store.state.isDrafting && chosen.Some? {
        ApplySelectedPerk(chosen.value);
        lastSelectedPerk := None;
      }
      wasDrafting := store.state.isDrafting;
    }

    // ----- update and the frame -----

    /** `update(time, delta)`, with `now` the scene clock and `input` the
        keys and joystick of the frame. A paused or dead game does nothing;
        otherwise the background stage is recorded, the clocks advance,
        and the frame's work runs in the source's order. */
    method Update(delta: real, now: real, input: Input)
      requires Valid() && delta >= 0.0 && store.state.playerStats.attackSpeed > 0.0
      modifies this, store
      ensures Valid()
      ensures old(store.state.isPaused || !store.state.isAlive) ==>
        unchanged(this) && store.state == old(store.state)
      ensures !old(store.state.isPaused || !store.state.isAlive) ==>
        && lastStage == (old(store.state.currentDungeon) - 1) * 5 + old(store.state.currentStage)
        && difficultyScore == old(difficultyScore) + delta / 1000.0
        && spawnTimer == SpawnClock(old(spawnTimer), delta).0
    {
      var state := store.state;
      if state.isPaused || !state.isAlive {
        return;
      }
      var dungeonStage := (state.currentDungeon - 1) * 5 + state.currentStage;
      if dungeonStage != lastStage {
        lastStage := dungeonStage;
      }
      invulnerabilityTimer := Countdown(invulnerabilityTimer, delta);
      weaponCooldown := Countdown(weaponCooldown, delta);
      spawnTimer := spawnTimer + delta;
      difficultyScore := difficultyScore + delta / 1000.0;
      FrameWork(delta, now, input, state.playerStats);
    }

    /** The work of `update` after the clocks: movement and shooting, the
        enemy AI, the projectile updates, collisions, the spawn check and
        pickup collection, in that order. */
    method FrameWork(delta: real, now: real, input: Input, stats: PlayerStats)
      requires stats.attackSpeed > 0.0
      requires InPlayfield(player) && invulnerabilityTimer >= 0.0 && weaponCooldown >= 0.0
      requires 0.0 <= spawnTimer < Config.spawnInterval + delta
      modifies this`player, this`projectiles, this`nextId, this`weaponCooldown, this`enemies, this`enemyShots
      modifies this`pickups, this`rngPos, this`bloodthirstStacks, this`hasGuardianAngel, this`invulnerabilityTimer
      modifies this`spawnTimer, store
      ensures Valid()
      ensures spawnTimer == (if old(spawnTimer) >= Config.spawnInterval then 0.0 else old(spawnTimer))
    {
      Act(delta, now, input, stats);
      Resolve(stats);
    }

    /** What the first half of a frame acts on. */
    function Arena(): Arena
      reads this, store
    {
      SceneRules.Arena(player, store.state, Gun(), enemies, enemyShots)
    }

    /** Movement and shooting, the enemy AI and the projectile updates. */
    method Act(delta: real, now: real, input: Input, stats: PlayerStats)
      requires stats.attackSpeed > 0.0 && weaponCooldown >= 0.0
      modifies this`player, this`projectiles, this`nextId, this`weaponCooldown, this`enemies, this`enemyShots, store
      ensures Arena() == ActStep(old(Arena()), geo, input, stats, appliedPerks, bloodthirstStacks, delta, now)
      ensures weaponCooldown >= 0.0
      ensures InPlayfield(player) || player == old(player)
    {
      HandleMovement(input, stats);
      UpdateGroups(delta, now);
    }

    /** The enemy AI and the two projectile updates: `GroupStep` of the
        arena, field by field. */
    method UpdateGroups(delta: real, now: real)
      modifies this`projectiles, this`nextId, this`enemies, this`enemyShots
      ensures var ai := AiPass(geo, old(enemies), player, delta, now, old(nextId), |old(enemies)|);
        && enemies == ai.enemies && nextId == ai.nextId
        && projectiles == Advance(Trim(old(projectiles), 200, 100), ScreenBox)
        && enemyShots == Advance(Trim(old(enemyShots) + ai.shots, 150, 75), MarginBox)
    {
      UpdateEnemies(delta, now);
      UpdateProjectiles();
      UpdateEnemyProjectiles();
    }

    /** Collisions, the spawn check and pickup collection. */
    method Resolve(stats: PlayerStats)
      requires invulnerabilityTimer >= 0.0
      modifies this`projectiles, this`nextId, this`enemies, this`enemyShots, this`pickups, this`rngPos
      modifies this`bloodthirstStacks, this`hasGuardianAngel, this`invulnerabilityTimer, this`spawnTimer, store
      ensures World() == ResolveStep(old(World()), player, appliedPerks, rng, difficultyScore,
                                     old(spawnTimer) >= Config.spawnInterval, stats.pickupRadius)
      ensures invulnerabilityTimer >= 0.0
      ensures spawnTimer == (if old(spawnTimer) >= Config.spawnInterval then 0.0 else old(spawnTimer))
    {
      CheckCollisions();
      SpawnIfDue();
      CollectPickups(stats);
    }

    /** The spawn gate of `update`: once the spawn clock has reached the
        interval it restarts and `spawnEnemies` runs. */
    method SpawnIfDue()
      modifies this`enemies, this`rngPos, this`nextId, this`spawnTimer
      ensures World() == if old(spawnTimer) >= Config.spawnInterval
        then SpawnStep(old(World()), difficultyScore, rng) else old(World())
      ensures spawnTimer == (if old(spawnTimer) >= Config.spawnInterval then 0.0 else old(spawnTimer))
    {
      if spawnTimer >= Config.spawnInterval {
        spawnTimer := 0.0;
        SpawnEnemies();
      }
    }

    /** One game frame: Phaser emits the scene's `update` event, where the
        level watch (with the fix, given the perk picked on the draft
        screen since the last frame) runs, and then calls `update`. */
    method Frame(delta: real, now: real, input: Input, chosen: Option<Perk>)
      requires Valid() && delta >= 0.0 && store.state.playerStats.attackSpeed > 0.0
      modifies this, store
      ensures Valid()
    {
      LevelCheckFixedKeepsStore(Watch(), mega, rng, chosen);
      CheckLevelUpFixed(chosen);
      Update(delta, now, input);
    }
  }
}
