/** The rules of the main scene (src/game/MainScene.ts) that act on the
    scene and the store together, as functions on values: the death of an
    enemy, a hit on the player, the three collision passes, pickup
    collection, enemy spawning and the level-up watch. The `MainScene`
    module runs them on the scene object; the properties are proved here. */
module SceneRules {
  import opened Wrappers
  import opened GameTypes
  import opened GameConfig
  import opened Random
  import opened Perks
  import opened GameStore
  import opened SceneEntities

  /** What the collision and pickup rules read and change: the store, the
      four groups, the player's invulnerability and perk counters, and the
      next free object id and random-stream position. */
  datatype World = World(
    store: StoreState,
    enemies: seq<Enemy>,
    projectiles: seq<Shot>,
    enemyShots: seq<Shot>,
    pickups: seq<Pickup>,
    invulnerabilityTimer: real,
    hasGuardianAngel: bool,
    bloodthirstStacks: int,
    nextId: nat,
    rngPos: nat)

  // ----- shootAtNearestEnemy -----

  /** The player's weapon: the projectile group, the next free object id
      and the cooldown before the next shot. */
  datatype Gun = Gun(projectiles: seq<Shot>, nextId: nat, weaponCooldown: real)

  /** `shootAtNearestEnemy(stats)`: with no enemy nothing happens;
      otherwise a volley aimed at the nearest enemy joins the group and the
      cooldown becomes `1000 / attackSpeed`. */
  function Fire(g: Gun, geo: Geometry, player: Point, es: seq<Enemy>, perks: set<PerkId>, stacks: int, stats: PlayerStats): Gun
    requires stats.attackSpeed > 0.0
  {
    if es == [] then g
    else
      var n := ShotCount(Multishot in perks);
      var angle := geo.angleBetween(player, es[Nearest(player, es)].pos);
      Gun(g.projectiles + Volley(geo, player, angle, Multishot in perks, Piercing in perks, stats.damage, stacks, g.nextId, n),
          g.nextId + n, 1000.0 / stats.attackSpeed)
  }

  /** A shot with enemies present keeps the old projectiles, appends one
      projectile (three with multishot) at the player, aimed at the first
      nearest enemy, with fresh ids, the bloodthirst-scaled damage and the
      piercing flag of the perks, and sets a cooldown that allows
      `attackSpeed` shots a second. */
  lemma FireFacts(g: Gun, geo: Geometry, player: Point, es: seq<Enemy>, perks: set<PerkId>, stacks: int, stats: PlayerStats)
    requires stats.attackSpeed > 0.0
    ensures var r := Fire(g, geo, player, es, perks, stacks, stats);
      && (es == [] ==> r == g)
      && (es != [] ==>
            var n := |g.projectiles|;
            var t := Nearest(player, es);
            && IsFirstNearest(player, es, t)
            && |r.projectiles| == n + (if Multishot in perks then 3 else 1)
            && r.projectiles[..n] == g.projectiles
            && r.nextId == g.nextId + |r.projectiles| - n
            && (forall i :: n <= i < |r.projectiles| ==>
                  && r.projectiles[i].id == g.nextId + (i - n)
                  && r.projectiles[i].pos == player
                  && r.projectiles[i].data.damage == stats.damage * (1.0 + stacks as real * 0.1)
                  && r.projectiles[i].data.piercing == (Piercing in perks))
            && (Multishot !in perks ==>
                  var a := geo.angleBetween(player, es[t].pos);
                  r.projectiles[n].data.vel == Point(geo.cos(a) * 600.0, geo.sin(a) * 600.0))
            && r.weaponCooldown * stats.attackSpeed == 1000.0)
  {
    if es != [] {
      var t := Nearest(player, es);
      var a := geo.angleBetween(player, es[t].pos);
      var m := Multishot in perks;
      NearestIsFirstNearest(player, es);
      var v := Volley(geo, player, a, m, Piercing in perks, stats.damage, stacks, g.nextId, ShotCount(m));
      VolleyFacts(geo, player, a, m, Piercing in perks, stats.damage, stacks, g.nextId);
      var ps := g.projectiles + v;
      assert Fire(g, geo, player, es, perks, stacks, stats) == Gun(ps, g.nextId + |v|, 1000.0 / stats.attackSpeed);
      assert ps[..|g.projectiles|] == g.projectiles;
      assert forall i :: |g.projectiles| <= i < |ps| ==> ps[i] == v[i - |g.projectiles|];
    }
  }

  /** A shot keeps every projectile id below the next free id. */
  lemma FireKeepsIdsFresh(g: Gun, geo: Geometry, player: Point, es: seq<Enemy>, perks: set<PerkId>, stacks: int, stats: PlayerStats)
    requires stats.attackSpeed > 0.0 && IdsBelow(g.projectiles, g.nextId)
    ensures var r := Fire(g, geo, player, es, perks, stacks, stats);
      IdsBelow(r.projectiles, r.nextId) && r.nextId >= g.nextId
  {
    if es != [] {
      var t := Nearest(player, es);
      var a := geo.angleBetween(player, es[t].pos);
      var m := Multishot in perks;
      VolleyShape(geo, player, a, m, Piercing in perks, stats.damage, stacks, g.nextId, ShotCount(m));
      var v := Volley(geo, player, a, m, Piercing in perks, stats.damage, stacks, g.nextId, ShotCount(m));
      var ps := g.projectiles + v;
      assert forall i :: |g.projectiles| <= i < |ps| ==> ps[i] == v[i - |g.projectiles|];
    }
  }

  // ----- onEnemyDeath -----

  /** The chance that a kill drops a token. */
  function TokenChance(kind: EnemyType, perks: set<PerkId>): real
  {
    (if kind == Dragon then 1.0 else Config.tokenDropRate) * (if TokenMultiplier in perks then 2.0 else 1.0)
  }

  /** The loot of a death: an XP gem worth 100 for a dragon and 10
      otherwise, then, if the one random value read is below the token
      chance, a token worth 10 for a dragon and 1 otherwise. */
  function Loot(w: World, e: Enemy, perks: set<PerkId>, rng: Stream): World
  {
    var dragon := e.data.config.kind == Dragon;
    var gem := Obj(w.nextId, e.pos, PickupData(XpGem, if dragon then 100 else 10));
    var drop := rng(w.rngPos) < TokenChance(e.data.config.kind, perks);
    var token := Obj(w.nextId + 1, e.pos, PickupData(TokenOrb, if dragon then 10 else 1));
    w.(pickups := w.pickups + [gem] + (if drop then [token] else []),
       nextId := w.nextId + (if drop then 2 else 1),
       rngPos := w.rngPos + 1)
  }

  /** The rewards of a kill: the kill counted, a bloodthirst stack and a
      lifesteal heal of 2 when those perks are applied. */
  function Reward(w: World, perks: set<PerkId>): World
  {
    var killed := AfterKill(w.store);
    w.(store := if Lifesteal in perks then Healed(killed, 2.0) else killed,
       bloodthirstStacks := if Bloodthirst in perks then w.bloodthirstStacks + 1 else w.bloodthirstStacks)
  }

  /** `onEnemyDeath(e)`: loot, rewards, and the enemy removed. */
  function EnemyDeath(w: World, e: Enemy, perks: set<PerkId>, rng: Stream): World
  {
    var v := Reward(Loot(w, e, perks, rng), perks);
    v.(enemies := Destroy(v.enemies, e.id))
  }

  /** A death leaves one XP gem worth 100 for a dragon and 10 otherwise; a
      dragon always drops a token worth 10; the kill is counted; bloodthirst
      gains a stack and lifesteal heals 2 exactly when those perks are
      applied; the enemy leaves its group; nothing else changes. */
  lemma EnemyDeathFacts(w: World, e: Enemy, perks: set<PerkId>, rng: Stream)
    ensures var v := EnemyDeath(w, e, perks, rng);
      && |v.pickups| >= |w.pickups| + 1 && v.pickups[..|w.pickups|] == w.pickups
      && v.pickups[|w.pickups|] == Obj(w.nextId, e.pos, PickupData(XpGem, if e.data.config.kind == Dragon then 100 else 10))
      && (e.data.config.kind == Dragon ==>
            |v.pickups| == |w.pickups| + 2 && v.pickups[|w.pickups| + 1].data == PickupData(TokenOrb, 10))
      && v.store.killCount == w.store.killCount + 1
      && v.bloodthirstStacks == w.bloodthirstStacks + (if Bloodthirst in perks then 1 else 0)
      && v.store.playerStats ==
           (if Lifesteal in perks then Healed(w.store, 2.0).playerStats else w.store.playerStats)
      && (forall o :: o in v.enemies <==> o in w.enemies && o.id != e.id)
      && v.rngPos == w.rngPos + 1 && v.nextId == w.nextId + |v.pickups| - |w.pickups|
      && v.projectiles == w.projectiles && v.enemyShots == w.enemyShots
      && v.invulnerabilityTimer == w.invulnerabilityTimer && v.hasGuardianAngel == w.hasGuardianAngel
  {
  }

  // ----- onPlayerHit -----

  /** The `|| 10` of the enemy-projectile hit: an unset or zero damage
      counts as 10. */
  function ShotHitDamage(d: real): real
  {
    if d == 0.0 then 10.0 else d
  }

  /** `onPlayerHit(damage)`. */
  function PlayerHit(w: World, damage: real): World
  {
    if w.store.playerStats.health - damage <= 0.0 && w.hasGuardianAngel then
      w.(hasGuardianAngel := false,
         store := Healed(w.store, w.store.playerStats.maxHealth * 0.5),
         invulnerabilityTimer := 3000.0)
    else
      w.(store := Damaged(w.store, damage), invulnerabilityTimer := Timings.invulnerabilityWindow)
  }

  /** A lethal hit with Guardian Angel armed is absorbed: the charge is
      spent, the player heals by half the maximum (up to the maximum),
      stays alive, and is invulnerable for 3000 ms. */
  lemma GuardianAngelSaves(w: World, damage: real)
    requires w.hasGuardianAngel && w.store.playerStats.health - damage <= 0.0
    requires 0.0 <= w.store.playerStats.health <= w.store.playerStats.maxHealth
    requires w.store.playerStats.maxHealth > 0.0
    ensures var v := PlayerHit(w, damage);
      && !v.hasGuardianAngel
      && v.store.playerStats.health == Min(w.store.playerStats.health + w.store.playerStats.maxHealth * 0.5, w.store.playerStats.maxHealth)
      && v.store.playerStats.health > 0.0
      && v.store.isAlive == w.store.isAlive
      && v.invulnerabilityTimer == 3000.0
      && v == w.(hasGuardianAngel := false, store := v.store, invulnerabilityTimer := 3000.0)
  {
  }

  /** Any other hit goes through `takeDamage` and grants the 1000 ms
      window. Either way the player ends up invulnerable, health stays
      within [0, maxHealth], and the charge is never re-armed. */
  lemma PlayerHitFacts(w: World, damage: real)
    requires 0.0 <= w.store.playerStats.health <= w.store.playerStats.maxHealth && damage >= 0.0
    ensures var v := PlayerHit(w, damage);
      && (!(w.hasGuardianAngel && w.store.playerStats.health - damage <= 0.0) ==>
            v == w.(store := Damaged(w.store, damage), invulnerabilityTimer := 1000.0))
      && v.invulnerabilityTimer > 0.0
      && 0.0 <= v.store.playerStats.health <= v.store.playerStats.maxHealth
      && (v.hasGuardianAngel ==> w.hasGuardianAngel)
  {
  }

  // ----- checkCollisions -----

  /** `enemy` with its health replaced in the group (the group holds the
      same enemy object the snapshot does): the enemy of that id gets the
      new health and keeps everything else, and every other enemy is left
      as it was, in its place. */
  function SetHealth(es: seq<Enemy>, id: nat, health: real): (r: seq<Enemy>)
    ensures |r| == |es|
    ensures forall i {:trigger r[i]} :: 0 <= i < |es| && es[i].id != id ==> r[i] == es[i]
    ensures forall i {:trigger r[i]} :: 0 <= i < |es| && es[i].id == id ==>
      && r[i].id == id && r[i].pos == es[i].pos && r[i].data.config.health == health
      && r[i].data == es[i].data.(config := r[i].data.config)
      && r[i].data.config == es[i].data.config.(health := health)
  {
    seq(|es|, i requires 0 <= i < |es| =>
      if es[i].id == id then es[i].(data := es[i].data.(config := es[i].data.config.(health := health))) else es[i])
  }

  /** The contact radius of a projectile and an enemy. */
  const HitRadius: real := 30.0
  /** The contact radius of an enemy projectile and the player. */
  const ShotRadius: real := 20.0
  /** The player's hitbox radius, `15 * playerHitboxRatio`. */
  const PlayerHitbox: real := 15.0 * Config.playerHitboxRatio

  /** The state of the first pass: the world and the enemy snapshot, whose
      healths the hits lower. */
  datatype PassState = PassState(w: World, snap: seq<Enemy>)

  /** Projectile `p` and enemy `e` are both still in their groups and
      within 30 pixels of each other. */
  predicate Hits(w: World, e: Enemy, p: Shot)
  {
    Present(w.enemies, e.id) && Present(w.projectiles, p.id) && Within(p.pos, e.pos, HitRadius)
  }

  /** Projectile `p` against the `j`-th enemy of the snapshot, skipped
      when either of them has been destroyed earlier in the pass. */
  function HitEnemy(ps: PassState, p: Shot, j: nat, perks: set<PerkId>, rng: Stream): (r: PassState)
    requires j < |ps.snap|
    ensures |r.snap| == |ps.snap|
  {
    var e := ps.snap[j];
    if Hits(ps.w, e, p) then
      var h := e.data.config.health - p.data.damage;
      var e' := e.(data := e.data.(config := e.data.config.(health := h)));
      var w1 := ps.w.(enemies := SetHealth(ps.w.enemies, e.id, h));
      var w2 := if h <= 0.0 then EnemyDeath(w1, e', perks, rng) else w1;
      var w3 := if !p.data.piercing then w2.(projectiles := Destroy(w2.projectiles, p.id)) else w2;
      PassState(w3, ps.snap[j := e'])
    else ps
  }

  /** Writing a health into the group of an enemy that is there: the
      enemy stays, with that health, and no other enemy changes. */
  lemma SetHealthGroup(es: seq<Enemy>, id: nat, health: real)
    requires Present(es, id)
    ensures forall o: Enemy :: o.id != id ==> (o in SetHealth(es, id, health) <==> o in es)
    ensures Present(SetHealth(es, id, health), id)
    ensures forall o :: o in SetHealth(es, id, health) && o.id == id ==> o.data.config.health == health
  {
    var r := SetHealth(es, id, health);
    var k :| 0 <= k < |es| && es[k].id == id;
    assert r[k].id == id;
    forall o: Enemy | o.id != id
      ensures o in r <==> o in es
    {
      if o in r {
        var i :| 0 <= i < |r| && r[i] == o;
        assert r[i] == es[i];
      }
      if o in es {
        var i :| 0 <= i < |es| && es[i] == o;
        assert r[i] == es[i];
      }
    }
    forall o | o in r && o.id == id
      ensures o.data.config.health == health
    {
      var i :| 0 <= i < |r| && r[i] == o;
    }
  }

  /** One projectile-enemy test, for all inputs, as it concerns the
      snapshot. Unless both are still there and within 30 pixels, nothing
      changes at all. Otherwise the enemy's health in the snapshot drops by
      the projectile's damage, and every other snapshot entry is kept. */
  lemma HitEnemyFacts(ps: PassState, p: Shot, j: nat, perks: set<PerkId>, rng: Stream)
    requires j < |ps.snap|
    ensures !Hits(ps.w, ps.snap[j], p) ==> HitEnemy(ps, p, j, perks, rng) == ps
    ensures Hits(ps.w, ps.snap[j], p) ==>
      var e := ps.snap[j];
      var r := HitEnemy(ps, p, j, perks, rng);
      var h := e.data.config.health - p.data.damage;
      && r.snap[j].data.config.health == h
      && r.snap[j].data == e.data.(config := r.snap[j].data.config)
      && r.snap[j].data.config == e.data.config.(health := h)
      && r.snap[j].id == e.id && r.snap[j].pos == e.pos
      && (forall i :: 0 <= i < |ps.snap| && i != j ==> r.snap[i] == ps.snap[i])
  {
    if Hits(ps.w, ps.snap[j], p) {
      var e := ps.snap[j];
      var h := e.data.config.health - p.data.damage;
      assert HitEnemy(ps, p, j, perks, rng).snap == ps.snap[j := e.(data := e.data.(config := e.data.config.(health := h)))];
    }
  }

  /** One projectile-enemy test, for all inputs, as it concerns the enemy
      group: on a hit the enemy keeps its place with the lowered health,
      or leaves the group (through `onEnemyDeath`) exactly when that health
      is at most 0, and every other enemy is kept. */
  lemma HitGroupFacts(ps: PassState, p: Shot, j: nat, perks: set<PerkId>, rng: Stream)
    requires j < |ps.snap|
    ensures Hits(ps.w, ps.snap[j], p) ==>
      var e := ps.snap[j];
      var r := HitEnemy(ps, p, j, perks, rng);
      var h := e.data.config.health - p.data.damage;
      && (forall o: Enemy :: o.id != e.id ==> (o in r.w.enemies <==> o in ps.w.enemies))
      && (Present(r.w.enemies, e.id) <==> h > 0.0)
      && (forall o :: o in r.w.enemies && o.id == e.id ==> o.data.config.health == h)
  {
    var e := ps.snap[j];
    if Hits(ps.w, e, p) {
      var h := e.data.config.health - p.data.damage;
      if h <= 0.0 {
        HitKills(ps, p, j, perks, rng);
      } else {
        HitWounds(ps, p, j, perks, rng);
      }
      GroupAfterHit(ps.w.enemies, e.id, h, HitEnemy(ps, p, j, perks, rng).w.enemies);
    }
  }

  /** The enemy group after its enemy `id` was given health `h`, and
      destroyed if that is at most 0. */
  lemma GroupAfterHit(es: seq<Enemy>, id: nat, h: real, after: seq<Enemy>)
    requires Present(es, id)
    requires after == if h <= 0.0 then Destroy(SetHealth(es, id, h), id) else SetHealth(es, id, h)
    ensures forall o: Enemy :: o.id != id ==> (o in after <==> o in es)
    ensures Present(after, id) <==> h > 0.0
    ensures forall o :: o in after && o.id == id ==> o.data.config.health == h
  {
    SetHealthGroup(es, id, h);
    if h <= 0.0 {
      DestroyKeeps(SetHealth(es, id, h), id);
    }
  }

  /** A hit that leaves the enemy's health positive only writes it. */
  lemma HitWounds(ps: PassState, p: Shot, j: nat, perks: set<PerkId>, rng: Stream)
    requires j < |ps.snap| && Hits(ps.w, ps.snap[j], p)
    requires ps.snap[j].data.config.health - p.data.damage > 0.0
    ensures var e := ps.snap[j];
      HitEnemy(ps, p, j, perks, rng).w.enemies == SetHealth(ps.w.enemies, e.id, e.data.config.health - p.data.damage)
  {
  }

  /** A hit that brings the enemy's health to 0 or below writes it and
      then destroys the enemy. */
  lemma HitKills(ps: PassState, p: Shot, j: nat, perks: set<PerkId>, rng: Stream)
    requires j < |ps.snap| && Hits(ps.w, ps.snap[j], p)
    requires ps.snap[j].data.config.health - p.data.damage <= 0.0
    ensures var e := ps.snap[j];
      HitEnemy(ps, p, j, perks, rng).w.enemies
        == Destroy(SetHealth(ps.w.enemies, e.id, e.data.config.health - p.data.damage), e.id)
  {
  }

  /** One projectile-enemy test, for all inputs, as it concerns the
      rewards: on a hit, the kill is counted, one random value is read and
      loot is dropped exactly when the new health is at most 0; otherwise
      the store, the pickups, the perk counters and the ids are kept. The
      enemy projectiles and the player's timer and charge are kept either
      way. */
  lemma HitRewardFacts(ps: PassState, p: Shot, j: nat, perks: set<PerkId>, rng: Stream)
    requires j < |ps.snap|
    ensures Hits(ps.w, ps.snap[j], p) ==>
      var e := ps.snap[j];
      var r := HitEnemy(ps, p, j, perks, rng);
      var h := e.data.config.health - p.data.damage;
      && r.w.store.killCount == ps.w.store.killCount + (if h <= 0.0 then 1 else 0)
      && r.w.rngPos == ps.w.rngPos + (if h <= 0.0 then 1 else 0)
      && (h <= 0.0 <==> |r.w.pickups| > |ps.w.pickups|)
      && (h > 0.0 ==> r.w.store == ps.w.store && r.w.pickups == ps.w.pickups
                      && r.w.bloodthirstStacks == ps.w.bloodthirstStacks && r.w.nextId == ps.w.nextId)
      && r.w.enemyShots == ps.w.enemyShots
      && r.w.invulnerabilityTimer == ps.w.invulnerabilityTimer
      && r.w.hasGuardianAngel == ps.w.hasGuardianAngel
  {
    var e := ps.snap[j];
    var w := ps.w;
    if Hits(w, e, p) {
      var h := e.data.config.health - p.data.damage;
      var e' := e.(data := e.data.(config := e.data.config.(health := h)));
      var w1 := w.(enemies := SetHealth(w.enemies, e.id, h));
      var w2 := if h <= 0.0 then EnemyDeath(w1, e', perks, rng) else w1;
      var r := HitEnemy(ps, p, j, perks, rng);
      assert r.w == if !p.data.piercing then w2.(projectiles := Destroy(w2.projectiles, p.id)) else w2;
      if h <= 0.0 {
        EnemyDeathFacts(w1, e', perks, rng);
      }
    }
  }

  /** One projectile-enemy test, for all inputs, as it concerns the
      projectiles: on a hit the projectile is destroyed exactly when it
      does not pierce, and every other projectile is kept. */
  lemma HitProjectileFacts(ps: PassState, p: Shot, j: nat, perks: set<PerkId>, rng: Stream)
    requires j < |ps.snap|
    ensures Hits(ps.w, ps.snap[j], p) ==>
      var r := HitEnemy(ps, p, j, perks, rng);
      && (forall q :: q in r.w.projectiles <==> q in ps.w.projectiles && (p.data.piercing || q.id != p.id))
      && (Present(r.w.projectiles, p.id) <==> p.data.piercing)
  {
    var e := ps.snap[j];
    var w := ps.w;
    if Hits(w, e, p) {
      var h := e.data.config.health - p.data.damage;
      var e' := e.(data := e.data.(config := e.data.config.(health := h)));
      var w1 := w.(enemies := SetHealth(w.enemies, e.id, h));
      var w2 := if h <= 0.0 then EnemyDeath(w1, e', perks, rng) else w1;
      var r := HitEnemy(ps, p, j, perks, rng);
      assert w2.projectiles == w.projectiles;
      assert r.w.projectiles == if !p.data.piercing then Destroy(w.projectiles, p.id) else w.projectiles;
      forall q: Shot
        ensures q in r.w.projectiles <==> q in w.projectiles && (p.data.piercing || q.id != p.id)
      {
        if q in w.projectiles {
          var i :| 0 <= i < |w.projectiles| && w.projectiles[i] == q;
        }
        if q in r.w.projectiles {
          var i :| 0 <= i < |r.w.projectiles| && r.w.projectiles[i] == q;
        }
      }
    }
  }

  /** Projectile `p` against the first `k` enemies of the snapshot. */
  function HitEnemies(ps: PassState, p: Shot, k: nat, perks: set<PerkId>, rng: Stream): (r: PassState)
    requires k <= |ps.snap|
    ensures |r.snap| == |ps.snap|
  {
    if k == 0 then ps
    else
      var before := HitEnemies(ps, p, k - 1, perks, rng);
      HitEnemy(before, p, k - 1, perks, rng)
  }

  /** `HitEnemy` as the source reads: a projectile destroyed by an
      earlier hit of the same pass still hits. */
  function HitEnemyAsWritten(ps: PassState, p: Shot, j: nat, perks: set<PerkId>, rng: Stream): (r: PassState)
    requires j < |ps.snap|
    ensures |r.snap| == |ps.snap|
  {
    var e := ps.snap[j];
    if Present(ps.w.enemies, e.id) && Within(p.pos, e.pos, HitRadius) then
      var h := e.data.config.health - p.data.damage;
      var e' := e.(data := e.data.(config := e.data.config.(health := h)));
      var w1 := ps.w.(enemies := SetHealth(ps.w.enemies, e.id, h));
      var w2 := if h <= 0.0 then EnemyDeath(w1, e', perks, rng) else w1;
      var w3 := if !p.data.piercing then w2.(projectiles := Destroy(w2.projectiles, p.id)) else w2;
      PassState(w3, ps.snap[j := e'])
    else ps
  }

  function HitEnemiesAsWritten(ps: PassState, p: Shot, k: nat, perks: set<PerkId>, rng: Stream): (r: PassState)
    requires k <= |ps.snap|
    ensures |r.snap| == |ps.snap|
  {
    if k == 0 then ps else HitEnemyAsWritten(HitEnemiesAsWritten(ps, p, k - 1, perks, rng), p, k - 1, perks, rng)
  }

  /** The first `k` projectiles of `shots` against every enemy of the
      snapshot. */
  function ProjectilePass(ps: PassState, shots: seq<Shot>, k: nat, perks: set<PerkId>, rng: Stream): (r: PassState)
    requires k <= |shots|
    ensures |r.snap| == |ps.snap|
  {
    if k == 0 then ps
    else
      var before := ProjectilePass(ps, shots, k - 1, perks, rng);
      HitEnemies(before, shots[k - 1], |before.snap|, perks, rng)
  }

  /** Enemy projectile `s` against the player at `player`. */
  function ShotHit(w: World, player: Point, s: Shot): World
  {
    if Within(player, s.pos, ShotRadius) then
      var v := PlayerHit(w, ShotHitDamage(s.data.damage));
      v.(enemyShots := Destroy(v.enemyShots, s.id))
    else w
  }

  /** The first `k` enemy projectiles of the snapshot `shots`. */
  function ShotPass(w: World, player: Point, shots: seq<Shot>, k: nat): World
    requires k <= |shots|
  {
    if k == 0 then w else ShotHit(ShotPass(w, player, shots, k - 1), player, shots[k - 1])
  }

  /** Enemy `e` touching the player, unless it died earlier in the
      frame. */
  function MeleeHit(w: World, player: Point, e: Enemy): World
  {
    if Present(w.enemies, e.id) && Within(player, e.pos, PlayerHitbox + e.data.config.size)
    then PlayerHit(w, e.data.config.damage) else w
  }

  /** The first `k` enemies of the snapshot `snap`. */
  function MeleePass(w: World, player: Point, snap: seq<Enemy>, k: nat): World
    requires k <= |snap|
  {
    if k == 0 then w else MeleeHit(MeleePass(w, player, snap, k - 1), player, snap[k - 1])
  }

  /** `checkCollisions`: the three passes over copies of the groups taken
      when it starts, skipping objects destroyed since. The player passes
      run only while not invulnerable, the test made once before each. */
  function Collisions(w: World, player: Point, perks: set<PerkId>, rng: Stream): World
  {
    var first := ProjectilePass(PassState(w, w.enemies), w.projectiles, |w.projectiles|, perks, rng);
    var second := if first.w.invulnerabilityTimer <= 0.0
      then ShotPass(first.w, player, w.enemyShots, |w.enemyShots|) else first.w;
    if second.invulnerabilityTimer <= 0.0 then MeleePass(second, player, first.snap, |first.snap|) else second
  }

  /** The second and third passes leave the player invulnerable as soon as
      anything hits, so once an enemy projectile has hit, no melee contact
      is checked in the same frame. */
  lemma {:induction false} ShotPassInvulnerable(w: World, player: Point, shots: seq<Shot>, k: nat)
    requires k <= |shots|
    ensures var v := ShotPass(w, player, shots, k);
      v.invulnerabilityTimer > 0.0 || v == w
  {
    if k > 0 {
      ShotPassInvulnerable(w, player, shots, k - 1);
    }
  }

  /** The third pass, like the second, leaves the player invulnerable as
      soon as anything touches. */
  lemma {:induction false} MeleePassInvulnerable(w: World, player: Point, snap: seq<Enemy>, k: nat)
    requires k <= |snap|
    ensures var v := MeleePass(w, player, snap, k);
      v.invulnerabilityTimer > 0.0 || v == w
  {
    if k > 0 {
      MeleePassInvulnerable(w, player, snap, k - 1);
    }
  }

  /** Hits on enemies never touch the player's invulnerability. */
  lemma {:induction false} HitEnemiesKeepTimer(ps: PassState, p: Shot, k: nat, perks: set<PerkId>, rng: Stream)
    requires k <= |ps.snap|
    ensures HitEnemies(ps, p, k, perks, rng).w.invulnerabilityTimer == ps.w.invulnerabilityTimer
  {
    if k > 0 {
      HitEnemiesKeepTimer(ps, p, k - 1, perks, rng);
    }
  }

  lemma {:induction false} ProjectilePassKeepsTimer(ps: PassState, shots: seq<Shot>, k: nat, perks: set<PerkId>, rng: Stream)
    requires k <= |shots|
    ensures ProjectilePass(ps, shots, k, perks, rng).w.invulnerabilityTimer == ps.w.invulnerabilityTimer
  {
    if k > 0 {
      ProjectilePassKeepsTimer(ps, shots, k - 1, perks, rng);
      var before := ProjectilePass(ps, shots, k - 1, perks, rng);
      HitEnemiesKeepTimer(before, shots[k - 1], |before.snap|, perks, rng);
    }
  }

  /** Collisions never leave the invulnerability timer negative: it keeps
      its value or is set by a hit. */
  lemma CollisionsKeepTimer(w: World, player: Point, perks: set<PerkId>, rng: Stream)
    requires w.invulnerabilityTimer >= 0.0
    ensures Collisions(w, player, perks, rng).invulnerabilityTimer >= 0.0
  {
    var first := ProjectilePass(PassState(w, w.enemies), w.projectiles, |w.projectiles|, perks, rng);
    ProjectilePassKeepsTimer(PassState(w, w.enemies), w.projectiles, |w.projectiles|, perks, rng);
    ShotPassInvulnerable(first.w, player, w.enemyShots, |w.enemyShots|);
    var second := if first.w.invulnerabilityTimer <= 0.0
      then ShotPass(first.w, player, w.enemyShots, |w.enemyShots|) else first.w;
    MeleePassInvulnerable(second, player, first.snap, |first.snap|);
  }

  /** Once a projectile has been destroyed, it hits nothing more. */
  lemma {:induction false} DestroyedProjectileHitsNothing(ps: PassState, p: Shot, k: nat, perks: set<PerkId>, rng: Stream)
    requires k <= |ps.snap| && !Present(ps.w.projectiles, p.id)
    ensures HitEnemies(ps, p, k, perks, rng) == ps
  {
    if k > 0 {
      DestroyedProjectileHitsNothing(ps, p, k - 1, perks, rng);
    }
  }

  /** A hit that destroys the projectile leaves no trace of it. */
  lemma HitDestroysProjectile(ps: PassState, p: Shot, j: nat, perks: set<PerkId>, rng: Stream)
    requires j < |ps.snap| && !p.data.piercing
    ensures var r := HitEnemy(ps, p, j, perks, rng);
      r != ps ==> !Present(r.w.projectiles, p.id)
  {
  }

  /** Two orcs under one ordinary 10-damage projectile: as written the
      projectile, destroyed by its first hit, goes on to hit the second
      orc too. */
  lemma DestroyedShotKeepsHitting(w: World, rng: Stream, perks: set<PerkId>)
    requires w.enemies == [Obj(1, Point(0.0, 0.0), EnemyData(EnemyConfigFor(Orc), 0.0, 0.0, 0.0)),
                           Obj(2, Point(0.0, 0.0), EnemyData(EnemyConfigFor(Orc), 0.0, 0.0, 0.0))]
    requires w.projectiles == [Obj(3, Point(0.0, 0.0), Missile(Point(0.0, 0.0), 10.0, false))]
    ensures var r := HitEnemiesAsWritten(PassState(w, w.enemies), w.projectiles[0], 2, perks, rng);
      && r.snap[0].data.config.health == EnemyConfigFor(Orc).health - 10.0
      && r.snap[1].data.config.health == EnemyConfigFor(Orc).health - 10.0
  {
    var p := w.projectiles[0];
    var p0 := PassState(w, w.enemies);
    assert w.enemies[0].id == 1;
    var p1 := HitEnemyAsWritten(p0, p, 0, perks, rng);
    assert p1.w.enemies[1].id == 2;
    assert HitEnemiesAsWritten(p0, p, 1, perks, rng) == p1;
    assert HitEnemiesAsWritten(p0, p, 2, perks, rng) == HitEnemyAsWritten(p1, p, 1, perks, rng);
  }

  /** The same orcs with the hit as intended: only the first is hit, and
      the projectile is gone. */
  lemma OrdinaryShotHitsOnce(w: World, rng: Stream, perks: set<PerkId>)
    requires w.enemies == [Obj(1, Point(0.0, 0.0), EnemyData(EnemyConfigFor(Orc), 0.0, 0.0, 0.0)),
                           Obj(2, Point(0.0, 0.0), EnemyData(EnemyConfigFor(Orc), 0.0, 0.0, 0.0))]
    requires w.projectiles == [Obj(3, Point(0.0, 0.0), Missile(Point(0.0, 0.0), 10.0, false))]
    ensures var r := HitEnemies(PassState(w, w.enemies), w.projectiles[0], 2, perks, rng);
      && r.snap[0].data.config.health == EnemyConfigFor(Orc).health - 10.0
      && r.snap[1] == w.enemies[1]
      && r.w.projectiles == []
  {
    var p := w.projectiles[0];
    var p0 := PassState(w, w.enemies);
    assert w.enemies[0].id == 1 && w.projectiles[0].id == 3;
    var p1 := HitEnemy(p0, p, 0, perks, rng);
    assert p1.w.projectiles == [] by {
      assert Destroy(w.projectiles, 3) == Destroy(w.projectiles[1..], 3);
    }
    assert HitEnemies(p0, p, 1, perks, rng) == p1;
    DestroyedProjectileHitsNothing(p1, p, 1, perks, rng);
  }

  /** A bat with 20 health under two overlapping 25-damage projectiles: the
      first kills it, and the second, finding it destroyed, passes over it:
      one kill, one XP gem, and the second projectile flies on. */
  lemma KillCountedOnce(w: World, rng: Stream, perks: set<PerkId>)
    requires perks == {}
    requires w.enemies == [Obj(1, Point(0.0, 0.0), EnemyData(EnemyConfigFor(Bat), 0.0, 0.0, 0.0))]
    requires w.projectiles == [Obj(2, Point(0.0, 0.0), Missile(Point(0.0, 0.0), 25.0, false)),
                               Obj(3, Point(0.0, 0.0), Missile(Point(0.0, 0.0), 25.0, false))]
    ensures var r := ProjectilePass(PassState(w, w.enemies), w.projectiles, 2, perks, rng).w;
      && r.store.killCount == w.store.killCount + 1
      && r.enemies == [] && r.projectiles == [w.projectiles[1]]
      && |r.pickups| >= |w.pickups| + 1
      && r.pickups[|w.pickups|].data == PickupData(XpGem, 10)
  {
    var p0 := PassState(w, w.enemies);
    var p1 := HitEnemy(p0, w.projectiles[0], 0, perks, rng);
    assert HitEnemies(p0, w.projectiles[0], 1, perks, rng) == p1;
    assert p1.w.enemies == [] by {
      assert Destroy(SetHealth(w.enemies, 1, -5.0), 1) == [];
    }
    assert p1.w.projectiles == [w.projectiles[1]];
    var p2 := HitEnemy(p1, w.projectiles[1], 0, perks, rng);
    assert p2 == p1;
    assert HitEnemies(p1, w.projectiles[1], 1, perks, rng) == p2;
    assert ProjectilePass(p0, w.projectiles, 1, perks, rng) == p1;
    assert ProjectilePass(p0, w.projectiles, 2, perks, rng) == p2;
  }

  // ----- collectPickups -----

  /** Collecting one pickup: XP goes through `addXP`, a token through
      `addTokens`. */
  function Collect(s: StoreState, p: Pickup): StoreState
  {
    match p.data.kind
    case XpGem => WithXP(s, p.data.value)
    case TokenOrb => WithTokens(s, p.data.value)
  }

  /** The store and the pickup group after the first `k` pickups of the
      snapshot `snap` were checked against the player. */
  function CollectPass(s: StoreState, pickups: seq<Pickup>, snap: seq<Pickup>, player: Point, radius: real, k: nat)
    : (StoreState, seq<Pickup>)
    requires k <= |snap|
  {
    if k == 0 then (s, pickups)
    else
      var (s', ps') := CollectPass(s, pickups, snap, player, radius, k - 1);
      var p := snap[k - 1];
      if Within(player, p.pos, radius) then (Collect(s', p), Destroy(ps', p.id)) else (s', ps')
  }

  /** `collectPickups` as it runs: `forEach` over the group's live array,
      which each `destroy` shortens, so the pickup after a collected one
      moves into the visited index and is skipped. `n` is the length the
      array had when the loop began, `k` the index visited next. */
  function CollectLive(s: StoreState, live: seq<Pickup>, player: Point, radius: real, n: nat, k: nat)
    : (StoreState, seq<Pickup>)
    decreases n - k
  {
    if k >= n then (s, live)
    else if k < |live| && Within(player, live[k].pos, radius) then
      CollectLive(Collect(s, live[k]), Destroy(live, live[k].id), player, radius, n, k + 1)
    else CollectLive(s, live, player, radius, n, k + 1)
  }

  /** Two XP gems both within reach: the live-array loop collects the
      first and skips the second, while the pass over a copy collects
      both. */
  lemma LiveCollectSkips(s: StoreState, player: Point)
    ensures var g1 := Obj(1, player, PickupData(XpGem, 10));
      var g2 := Obj(2, player, PickupData(XpGem, 10));
      && CollectLive(s, [g1, g2], player, 80.0, 2, 0) == (WithXP(s, 10), [g2])
      && CollectPass(s, [g1, g2], [g1, g2], player, 80.0, 2) == (WithXP(WithXP(s, 10), 10), [])
  {
    var g1 := Obj(1, player, PickupData(XpGem, 10));
    var g2 := Obj(2, player, PickupData(XpGem, 10));
    assert Destroy([g1, g2], 1) == [g2] by {
      assert [g1, g2][1..] == [g2];
      assert [g2][1..] == [];
    }
    assert Destroy([g2], 2) == [];
    assert Within(player, player, 80.0);
    assert CollectLive(s, [g1, g2], player, 80.0, 2, 0) == CollectLive(WithXP(s, 10), [g2], player, 80.0, 2, 1);
    assert CollectLive(WithXP(s, 10), [g2], player, 80.0, 2, 1) == CollectLive(WithXP(s, 10), [g2], player, 80.0, 2, 2);
    assert Collect(s, g1) == WithXP(s, 10);
    assert CollectPass(s, [g1, g2], [g1, g2], player, 80.0, 0) == (s, [g1, g2]);
    assert CollectPass(s, [g1, g2], [g1, g2], player, 80.0, 1) == (WithXP(s, 10), [g2]);
  }

  /** The token value of the pickups within reach among the first `k`. */
  function TokensInReach(snap: seq<Pickup>, player: Point, radius: real, k: nat): int
    requires k <= |snap|
  {
    if k == 0 then 0
    else
      var p := snap[k - 1];
      TokensInReach(snap, player, radius, k - 1)
        + (if Within(player, p.pos, radius) && p.data.kind == TokenOrb then p.data.value else 0)
  }

  predicate DistinctObjIds<D>(s: seq<Obj<D>>)
  {
    forall i, j :: 0 <= i < j < |s| ==> s[i].id != s[j].id
  }

  /** One pickup adds its value to the tokens exactly when it is a token. */
  lemma CollectOneTokens(s: StoreState, p: Pickup)
    ensures var t := if p.data.kind == TokenOrb then p.data.value else 0;
      && Collect(s, p).pendingTokens == s.pendingTokens + t
      && Collect(s, p).totalTokensEarned == s.totalTokensEarned + t
  {
  }

  /** Collection banks exactly the tokens within reach, both as pending and
      as lifetime tokens; XP pickups do not touch tokens. */
  lemma {:induction false} CollectTokens(s: StoreState, pickups: seq<Pickup>, snap: seq<Pickup>, player: Point, radius: real, k: nat)
    requires k <= |snap|
    ensures var r := CollectPass(s, pickups, snap, player, radius, k).0;
      && r.pendingTokens == s.pendingTokens + TokensInReach(snap, player, radius, k)
      && r.totalTokensEarned == s.totalTokensEarned + TokensInReach(snap, player, radius, k)
  {
    if k > 0 {
      CollectTokens(s, pickups, snap, player, radius, k - 1);
      var c := CollectPass(s, pickups, snap, player, radius, k - 1);
      CollectOneTokens(c.0, snap[k - 1]);
    }
  }

  /** With distinct ids, the pickups left are exactly those out of reach. */
  lemma {:induction false} CollectLeavesOutOfReach(s: StoreState, snap: seq<Pickup>, player: Point, radius: real, k: nat)
    requires k <= |snap| && DistinctObjIds(snap)
    ensures var r := CollectPass(s, snap, snap, player, radius, k).1;
      && (forall i :: 0 <= i < k ==> (snap[i] in r <==> !Within(player, snap[i].pos, radius)))
      && (forall i :: k <= i < |snap| ==> snap[i] in r)
      && (forall o :: o in r ==> o in snap)
  {
    if k > 0 {
      CollectLeavesOutOfReach(s, snap, player, radius, k - 1);
    }
  }

  // ----- spawnEnemies -----

  /** Whether a dragon is among the enemies. */
  predicate HasDragon(es: seq<Enemy>)
  {
    exists i :: 0 <= i < |es| && es[i].data.config.kind == Dragon
  }

  /** The number of dragons among the enemies. */
  function Dragons(es: seq<Enemy>): nat
  {
    if es == [] then 0
    else Dragons(es[..|es| - 1]) + (if es[|es| - 1].data.config.kind == Dragon then 1 else 0)
  }

  lemma {:induction false} DragonsZero(es: seq<Enemy>)
    ensures Dragons(es) == 0 <==> !HasDragon(es)
  {
    if es != [] {
      var init := es[..|es| - 1];
      DragonsZero(init);
      assert HasDragon(es) <==> HasDragon(init) || es[|es| - 1].data.config.kind == Dragon by {
        if HasDragon(init) {
          var i :| 0 <= i < |init| && init[i].data.config.kind == Dragon;
          assert es[i] == init[i];
        }
        if HasDragon(es) {
          var i :| 0 <= i < |es| && es[i].data.config.kind == Dragon;
          if i < |es| - 1 {
            assert init[i] == es[i];
          }
        }
      }
    }
  }

  /** The kinds a regular spawn picks from. */
  const SpawnKinds: seq<EnemyType> := [Bat, Goblin, Orc]

  /** A spawn point on the screen edge: a random side, then a random
      coordinate along it, 20 pixels outside the screen. */
  function EdgePoint(rng: Stream, pos: nat): Point
  {
    var side := FloorIndex(rng(pos), 4);
    var r := rng(pos + 1);
    if side == 0 then Point(r * Config.width, -20.0)
    else if side == 1 then Point(Config.width + 20.0, r * Config.height)
    else if side == 2 then Point(r * Config.width, Config.height + 20.0)
    else Point(-20.0, r * Config.height)
  }

  /** Where the boss appears. */
  const BossSpawn: Point := Point(Config.width / 2.0, 100.0)

  /** The outcome of `spawnEnemies`: the enemy added, if any, and the
      random-stream position after it. */
  datatype SpawnResult = SpawnResult(spawned: Option<Enemy>, next: nat)

  /** The budget `spawnEnemies` works with. */
  function Budget(difficulty: real, es: seq<Enemy>): real
  {
    difficulty - |es| as real
  }

  /** `spawnEnemies`, with object id `id` for the enemy. */
  function Spawn(difficulty: real, es: seq<Enemy>, stage: int, rng: Stream, pos: nat, id: nat): SpawnResult
  {
    var budget := Budget(difficulty, es);
    if budget < MinSpawnBudget then SpawnResult(None, pos)
    else
      var boss := stage == 5 && !HasDragon(es) && budget >= EnemyConfigFor(Dragon).cost as real;
      var kind := if boss then Dragon else SpawnKinds[FloorIndex(rng(pos), 3)];
      var after := if boss then pos else pos + 1;
      var config := EnemyConfigFor(kind);
      if config.cost as real <= budget then
        if kind == Dragon then SpawnResult(Some(Obj(id, BossSpawn, EnemyData(config, 0.0, 0.0, 0.0))), after)
        else SpawnResult(Some(Obj(id, EdgePoint(rng, after), EnemyData(config, 0.0, 0.0, 0.0))), after + 2)
      else SpawnResult(None, after)
  }

  /** At most one enemy per call; none below a budget of 1; what appears
      costs no more than the budget and has full health; a dragon appears
      exactly on stage 5 with no dragon alive and a budget of at least 10,
      and then at (360, 100). */
  lemma SpawnFacts(difficulty: real, es: seq<Enemy>, stage: int, rng: Stream, pos: nat, id: nat)
    ensures var r := Spawn(difficulty, es, stage, rng, pos, id);
      && (Budget(difficulty, es) < 1.0 ==> r.spawned.None? && r.next == pos)
      && (r.spawned.Some? ==>
            var e := r.spawned.value;
            && e.id == id
            && e.data.config == EnemyConfigFor(e.data.config.kind)
            && e.data.config.health == EnemyConfigFor(e.data.config.kind).health
            && e.data.config.cost as real <= Budget(difficulty, es))
      && (r.spawned.Some? && r.spawned.value.data.config.kind == Dragon <==>
            Budget(difficulty, es) >= 10.0 && stage == 5 && !HasDragon(es))
      && (r.spawned.Some? && r.spawned.value.data.config.kind == Dragon ==> r.spawned.value.pos == Point(360.0, 100.0))
  {
    EnemyTableFacts();
  }

  /** Spawning never makes a second dragon: with at most one dragon alive
      before, there is at most one after. */
  lemma SpawnKeepsOneDragon(difficulty: real, es: seq<Enemy>, stage: int, rng: Stream, pos: nat, id: nat)
    requires Dragons(es) <= 1
    ensures var r := Spawn(difficulty, es, stage, rng, pos, id);
      Dragons(es + (if r.spawned.Some? then [r.spawned.value] else [])) <= 1
  {
    var r := Spawn(difficulty, es, stage, rng, pos, id);
    if r.spawned.Some? {
      var es' := es + [r.spawned.value];
      assert es'[..|es'| - 1] == es;
      assert Dragons(es') == Dragons(es) + (if r.spawned.value.data.config.kind == Dragon then 1 else 0);
      if r.spawned.value.data.config.kind == Dragon {
        SpawnFacts(difficulty, es, stage, rng, pos, id);
        assert !HasDragon(es);
        DragonsZero(es);
      }
    } else {
      assert es + [] == es;
    }
  }

  // ----- checkLevelUp and applySelectedPerk -----

  /** What the level watch reads and writes: the store, the random-stream
      position, the scene's `lastLevel`, `wasDrafting` and
      `lastSelectedPerk` (`lastLevel` 0 stands for unset), and the applied
      perk ids with the Guardian Angel charge. */
  datatype Watch = Watch(
    store: StoreState,
    rngPos: nat,
    lastLevel: int,
    wasDrafting: bool,
    lastSelectedPerk: Option<Perk>,
    appliedPerks: set<PerkId>,
    hasGuardianAngel: bool)

  /** `applySelectedPerk(perk)`. */
  function ApplyPerk(v: Watch, perk: Perk): Watch
  {
    v.(appliedPerks := v.appliedPerks + {perk.id},
       hasGuardianAngel := v.hasGuardianAngel || perk.id == GuardianAngel,
       lastSelectedPerk := Some(perk))
  }

  /** The draft-opening half of `checkLevelUp`, shared by both versions: a
      level above the last one seen, outside a draft, opens a draft of
      three perks and records the level. */
  function OpenDraft(v: Watch, mega: seq<Perk>, rng: Stream): Watch
  {
    var prevLevel := if v.lastLevel == 0 then 1 else v.lastLevel;
    if v.store.level > prevLevel && !v.store.isDrafting then
      var d := DraftAfter(PerkPool(mega), 3, rng, v.rngPos);
      v.(store := Drafting(v.store, d.selected), rngPos := d.pos, lastLevel := v.store.level)
    else v
  }

  /** `checkLevelUp` as written. The state it tests is read once, before
      the draft opens, so `wasDrafting` records the flag from before. The
      perk to apply is `lastSelectedPerk`, which only `applySelectedPerk`
      sets. */
  function LevelCheck(v: Watch, mega: seq<Perk>, rng: Stream): Watch
  {
    var before := v.store;
    var started := OpenDraft(v, mega, rng);
    var applied :=
      if v.wasDrafting && !before.isDrafting && started.lastSelectedPerk.Some? then
        ApplyPerk(started, started.lastSelectedPerk.value).(lastSelectedPerk := None)
      else started;
    applied.(wasDrafting := before.isDrafting)
  }

  /** No perk ever gets applied by the watch as written: from a scene with
      nothing applied and nothing recorded, nothing is applied after any
      number of frames, whatever the store does in between. */
  lemma {:induction false} LevelCheckNeverApplies(v: Watch, stores: seq<StoreState>, mega: seq<Perk>, rng: Stream)
    requires v.appliedPerks == {} && v.lastSelectedPerk.None? && !v.hasGuardianAngel
    ensures var r := Frames(v, stores, mega, rng);
      r.appliedPerks == {} && r.lastSelectedPerk.None? && !r.hasGuardianAngel
  {
    if stores != [] {
      LevelCheckNeverApplies(v, stores[..|stores| - 1], mega, rng);
    }
  }

  /** The watch run once per frame, with the store replaced before each
      frame by what the rest of the game made of it. */
  function Frames(v: Watch, stores: seq<StoreState>, mega: seq<Perk>, rng: Stream): Watch
  {
    if stores == [] then v
    else LevelCheck(Frames(v, stores[..|stores| - 1], mega, rng).(store := stores[|stores| - 1]), mega, rng)
  }

  /** `checkLevelUp` as evidently intended: when a draft has just closed,
      the perk chosen on the draft screen (`chosen`) is applied, and
      `wasDrafting` records the store as the check leaves it. */
  function LevelCheckFixed(v: Watch, mega: seq<Perk>, rng: Stream, chosen: Option<Perk>): Watch
  {
    var started := OpenDraft(v, mega, rng);
    var applied :=
      if v.wasDrafting && !started.store.isDrafting && chosen.Some? then
        ApplyPerk(started, chosen.value).(lastSelectedPerk := None)
      else started;
    applied.(wasDrafting := applied.store.isDrafting)
  }

  /** The watch changes no more of the store than the draft flags: the
      player's stats, life and progress are as they were. */
  lemma LevelCheckFixedKeepsStore(v: Watch, mega: seq<Perk>, rng: Stream, chosen: Option<Perk>)
    ensures var r := LevelCheckFixed(v, mega, rng, chosen);
      r.store == v.store.(isDrafting := r.store.isDrafting, isPaused := r.store.isPaused, draftChoices := r.store.draftChoices)
  {
    var started := OpenDraft(v, mega, rng);
    assert started.store == v.store.(isDrafting := started.store.isDrafting, isPaused := started.store.isPaused,
                                     draftChoices := started.store.draftChoices);
  }

  /** A level-up, then the player picking `p` on the draft screen: as
      written the pick never reaches the scene, so a Multishot pick still
      fires single shots; with the fix it is applied on the next frame. */
  lemma DraftPickReachesScene(v: Watch, mega: seq<Perk>, rng: Stream, p: Perk)
    requires v.store.level > (if v.lastLevel == 0 then 1 else v.lastLevel) && !v.store.isDrafting
    requires v.appliedPerks == {} && v.lastSelectedPerk.None? && !v.hasGuardianAngel
    ensures var a := LevelCheck(v, mega, rng);
      var b := LevelCheck(a, mega, rng);
      var c := LevelCheck(b.(store := AfterPerk(b.store, p)), mega, rng);
      && a.store.isDrafting && c.appliedPerks == {}
      && ShotCount(Multishot in c.appliedPerks) == 1
    ensures var a := LevelCheckFixed(v, mega, rng, None);
      var c := LevelCheckFixed(a.(store := AfterPerk(a.store, p)), mega, rng, Some(p));
      && a.store.isDrafting
      && c.appliedPerks == {p.id}
      && c.hasGuardianAngel == (p.id == GuardianAngel)
      && (p.id == Multishot ==> ShotCount(Multishot in c.appliedPerks) == 3)
  {
  }

  /** One draft per level jump: once a draft has opened, the watch opens no
      other until the level rises again, even after the draft closes. */
  lemma OneDraftPerLevelJump(v: Watch, mega: seq<Perk>, rng: Stream, s: StoreState)
    requires v.store.level > (if v.lastLevel == 0 then 1 else v.lastLevel) && !v.store.isDrafting
    ensures OpenDraft(v, mega, rng).store.isDrafting
    ensures OpenDraft(v, mega, rng).lastLevel == v.store.level
    ensures var u := OpenDraft(v, mega, rng).(store := s);
      s.level <= v.store.level ==> OpenDraft(u, mega, rng) == u
  {
  }

  // ----- the two halves of a frame -----

  /** What the first half of a frame reads and changes: the player's
      position, the store, the weapon, the enemies and their projectiles. */
  datatype Arena = Arena(player: Point, store: StoreState, gun: Gun, enemies: seq<Enemy>, enemyShots: seq<Shot>)

  /** `handleMovement(stats)` on an arena: a move, or a shot when standing
      with the weapon ready. */
  function MoveStep(a: Arena, geo: Geometry, input: Input, stats: PlayerStats, perks: set<PerkId>, stacks: int): Arena
    requires stats.attackSpeed > 0.0
  {
    var d := Direction(input);
    var moving := Moving(geo, d);
    var player := if moving then Moved(geo, a.player, d, stats.baseMoveSpeed) else a.player;
    var gun := if !moving && a.gun.weaponCooldown <= 0.0
      then Fire(a.gun, geo, player, a.enemies, perks, stacks, stats) else a.gun;
    a.(player := player, store := a.store.(isMoving := moving), gun := gun)
  }

  /** `updateEnemies` from the player's position, then the two projectile
      updates. */
  function GroupStep(a: Arena, geo: Geometry, delta: real, now: real): Arena
  {
    var ai := AiPass(geo, a.enemies, a.player, delta, now, a.gun.nextId, |a.enemies|);
    a.(gun := a.gun.(projectiles := Advance(Trim(a.gun.projectiles, 200, 100), ScreenBox), nextId := ai.nextId),
       enemies := ai.enemies,
       enemyShots := Advance(Trim(a.enemyShots + ai.shots, 150, 75), MarginBox))
  }

  /** The first half of `update`'s work: `handleMovement`, then
      `updateEnemies` from the player's new position and the two
      projectile updates. */
  function ActStep(a: Arena, geo: Geometry, input: Input, stats: PlayerStats, perks: set<PerkId>, stacks: int,
                   delta: real, now: real): Arena
    requires stats.attackSpeed > 0.0
  {
    GroupStep(MoveStep(a, geo, input, stats, perks, stacks), geo, delta, now)
  }

  /** The first half of a frame changes the store only in `isMoving`; a
      moving player ends inside the playfield and fires nothing, so the
      projectile group is only moved on and the weapon timer kept; a
      standing player stays put; every enemy keeps its place and id; the
      id counter never goes back; the projectile groups stay within their
      caps once trimmed; and the weapon timer stays non-negative. */
  lemma ActStepFacts(a: Arena, geo: Geometry, input: Input, stats: PlayerStats, perks: set<PerkId>, stacks: int,
                     delta: real, now: real)
    requires stats.attackSpeed > 0.0 && a.gun.weaponCooldown >= 0.0
    ensures var r := ActStep(a, geo, input, stats, perks, stacks, delta, now);
      var moving := Moving(geo, Direction(input));
      && r.store == a.store.(isMoving := moving)
      && (moving ==> InPlayfield(r.player)
                     && r.gun.projectiles == Advance(Trim(a.gun.projectiles, 200, 100), ScreenBox)
                     && r.gun.weaponCooldown == a.gun.weaponCooldown)
      && (!moving ==> r.player == a.player)
      && |r.enemies| == |a.enemies|
      && (forall i :: 0 <= i < |a.enemies| ==> r.enemies[i].id == a.enemies[i].id)
      && r.gun.nextId >= a.gun.nextId
      && r.gun.weaponCooldown >= 0.0
  {
    var d := Direction(input);
    var moving := Moving(geo, d);
    var m := MoveStep(a, geo, input, stats, perks, stacks);
    if !moving && a.gun.weaponCooldown <= 0.0 {
      FireFacts(a.gun, geo, m.player, a.enemies, perks, stacks, stats);
    }
    assert m.gun.nextId >= a.gun.nextId && m.gun.weaponCooldown >= 0.0;
    AiPassKeepsEnemies(geo, a.enemies, m.player, delta, now, m.gun.nextId, |a.enemies|);
    AiPassNumbersShots(geo, a.enemies, m.player, delta, now, m.gun.nextId, |a.enemies|);
  }

  /** `spawnEnemies()` on a world, reading the stage from its store. */
  function SpawnStep(w: World, difficulty: real, rng: Stream): World
  {
    var r := Spawn(difficulty, w.enemies, w.store.currentStage, rng, w.rngPos, w.nextId);
    w.(enemies := w.enemies + (if r.spawned.Some? then [r.spawned.value] else []),
       nextId := w.nextId + (if r.spawned.Some? then 1 else 0),
       rngPos := r.next)
  }

  /** `collectPickups(stats)` on a world, over a copy of its pickups. */
  function CollectStep(w: World, player: Point, radius: real): World
  {
    var c := CollectPass(w.store, w.pickups, w.pickups, player, radius, |w.pickups|);
    w.(store := c.0, pickups := c.1)
  }

  /** The second half of `update`'s work: `checkCollisions`, then
      `spawnEnemies` when the spawn clock was due, then `collectPickups`. */
  function ResolveStep(w: World, player: Point, perks: set<PerkId>, rng: Stream, difficulty: real,
                       spawnDue: bool, radius: real): World
  {
    var c := Collisions(w, player, perks, rng);
    CollectStep(if spawnDue then SpawnStep(c, difficulty, rng) else c, player, radius)
  }

  /** The second half of a frame: enemies, ids and random reads change
      after the collisions only when the spawn clock was due, and then by
      at most one new enemy of fresh id; the projectile groups, the
      player's timer and charge and the bloodthirst stacks are those the
      collisions leave; the tokens within reach of the pickups left by
      the collisions are banked; and the timer stays non-negative. */
  lemma ResolveStepFacts(w: World, player: Point, perks: set<PerkId>, rng: Stream, difficulty: real,
                         spawnDue: bool, radius: real)
    requires w.invulnerabilityTimer >= 0.0
    ensures var c := Collisions(w, player, perks, rng);
      var r := ResolveStep(w, player, perks, rng, difficulty, spawnDue, radius);
      && (!spawnDue ==> r.enemies == c.enemies && r.nextId == c.nextId && r.rngPos == c.rngPos)
      && (spawnDue ==> r.enemies[..|c.enemies|] == c.enemies && |c.enemies| <= |r.enemies| <= |c.enemies| + 1
                       && (|r.enemies| > |c.enemies| ==> r.enemies[|c.enemies|].id == c.nextId)
                       && r.nextId == c.nextId + |r.enemies| - |c.enemies|)
      && r.projectiles == c.projectiles && r.enemyShots == c.enemyShots
      && r.invulnerabilityTimer == c.invulnerabilityTimer && r.hasGuardianAngel == c.hasGuardianAngel
      && r.bloodthirstStacks == c.bloodthirstStacks
      && r.store.pendingTokens == c.store.pendingTokens + TokensInReach(c.pickups, player, radius, |c.pickups|)
      && r.invulnerabilityTimer >= 0.0
  {
    var c := Collisions(w, player, perks, rng);
    var m := if spawnDue then SpawnStep(c, difficulty, rng) else c;
    CollisionsKeepTimer(w, player, perks, rng);
    SpawnFacts(difficulty, c.enemies, c.store.currentStage, rng, c.rngPos, c.nextId);
    assert m.pickups == c.pickups && m.store == c.store;
    CollectTokens(m.store, m.pickups, m.pickups, player, radius, |m.pickups|);
  }
}
