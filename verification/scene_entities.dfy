/** The game objects of the main scene (src/game/MainScene.ts) as records,
    and the per-object rules the scene applies to them: distance tests,
    movement of shots, the pool trims, the nearest-target choice, the
    volley a shot fires, and the enemy attack cooldowns.

    Phaser's game objects become `Obj` records carrying an id, a position
    and the properties the scene attaches to them; a group is a sequence of
    such records, and `destroy()` removes the record with that id. Angles,
    sines, cosines and square roots are not computed: they come from a
    `Geometry` oracle, and distances are only ever compared, so they are
    compared on their squares. */
module SceneEntities {
  import opened Wrappers
  import opened GameTypes
  import opened GameConfig

  datatype Point = Point(x: real, y: real)

  /** The squared Euclidean distance. */
  function DistSq(a: Point, b: Point): real
  {
    (a.x - b.x) * (a.x - b.x) + (a.y - b.y) * (a.y - b.y)
  }

  /** `Phaser.Math.Distance.Between(a, b) < r`. The distance is the
      non-negative square root of `DistSq(a, b)`, so it is below `r` exactly
      when `r` is positive and the square is below `r * r`. */
  predicate Within(a: Point, b: Point, r: real)
  {
    r > 0.0 && DistSq(a, b) < r * r
  }

  /** Shrinking the square of the distance keeps a point within range, and
      a larger radius keeps it too. */
  lemma WithinMonotone(a: Point, b: Point, c: Point, r: real, s: real)
    requires Within(a, b, r) && DistSq(a, c) <= DistSq(a, b) && r <= s
    ensures Within(a, c, s)
  {
    assert r * r <= s * s by {
      assert 0.0 < r;
      assert r * r <= r * s <= s * s;
    }
  }

  /** The trigonometry the scene calls: `Phaser.Math.Angle.Between`,
      `Math.cos`, `Math.sin`, `Math.sqrt` and `Math.PI`. */
  datatype Geometry = Geometry(
    angleBetween: (Point, Point) -> real,
    cos: real -> real,
    sin: real -> real,
    sqrt: real -> real,
    pi: real)

  /** A game object: its id, its position and the data attached to it. */
  datatype Obj<D> = Obj(id: nat, pos: Point, data: D)

  /** An enemy's `enemyData`: its configuration (whose `health` is the
      current health) and the counters its AI keeps. `shootCooldown`,
      `breathCooldown` and `bossTimer` start out unset, which the AI reads
      as 0. */
  datatype EnemyData = EnemyData(config: EnemyConfig, shootCooldown: real, breathCooldown: real, bossTimer: real)

  /** A projectile's velocity (pixels per second), damage and piercing
      flag. Enemy projectiles never read the flag; it is always false. */
  datatype Missile = Missile(vel: Point, damage: real, piercing: bool)

  datatype PickupKind = XpGem | TokenOrb

  /** A pickup's `type` and `value`. */
  datatype PickupData = PickupData(kind: PickupKind, value: int)

  type Enemy = Obj<EnemyData>
  type Shot = Obj<Missile>
  type Pickup = Obj<PickupData>

  /** `obj.destroy()`: the group without the object of that id. */
  function Destroy<D>(s: seq<Obj<D>>, id: nat): (r: seq<Obj<D>>)
    ensures |r| <= |s|
    ensures forall i :: 0 <= i < |r| ==> r[i] in s && r[i].id != id
    ensures forall i :: 0 <= i < |s| && s[i].id != id ==> s[i] in r
  {
    if s == [] then []
    else if s[0].id == id then Destroy(s[1..], id)
    else [s[0]] + Destroy(s[1..], id)
  }

  /** Whether the object of that id is still in the group (not destroyed). */
  predicate Present<D>(s: seq<Obj<D>>, id: nat)
  {
    exists i :: 0 <= i < |s| && s[i].id == id
  }

  /** After `destroy()` no object of that id is left, and every object of
      another id is there exactly when it was before. */
  lemma DestroyKeeps<D>(s: seq<Obj<D>>, id: nat)
    ensures !Present(Destroy(s, id), id)
    ensures forall o :: o in Destroy(s, id) ==> o.id != id
    ensures forall o: Obj<D> :: o.id != id ==> (o in Destroy(s, id) <==> o in s)
  {
    var r := Destroy(s, id);
    forall o | o in r
      ensures o.id != id
    {
      var i :| 0 <= i < |r| && r[i] == o;
    }
    forall o: Obj<D> | o.id != id
      ensures o in r <==> o in s
    {
      if o in s {
        var i :| 0 <= i < |s| && s[i] == o;
      }
      if o in r {
        var i :| 0 <= i < |r| && r[i] == o;
      }
    }
  }

  /** Destroying an object whose id is not in the group changes nothing. */
  lemma {:induction false} DestroyAbsent<D>(s: seq<Obj<D>>, id: nat)
    requires forall i :: 0 <= i < |s| ==> s[i].id != id
    ensures Destroy(s, id) == s
  {
    if s != [] {
      DestroyAbsent(s[1..], id);
      assert s == [s[0]] + s[1..];
    }
  }

  /** Whether every object of the group has an id below `bound`. */
  predicate IdsBelow<D>(s: seq<Obj<D>>, bound: nat)
  {
    forall i :: 0 <= i < |s| ==> s[i].id < bound
  }

  // ----- projectiles: movement, bounds and the pool trim -----

  /** The rectangle a projectile may occupy and stay alive. */
  datatype Box = Box(minX: real, maxX: real, minY: real, maxY: real)

  /** Player projectiles live inside the screen. */
  const ScreenBox := Box(0.0, Config.width, 0.0, Config.height)
  /** Enemy projectiles get a margin of 50 pixels on every side. */
  const MarginBox := Box(-50.0, Config.width + 50.0, -50.0, Config.height + 50.0)

  predicate Inside(p: Point, b: Box)
  {
    b.minX <= p.x <= b.maxX && b.minY <= p.y <= b.maxY
  }

  /** One frame of flight: `x += vx * (1 / 60)`, the same for `y`. */
  function Fly(s: Shot): (r: Shot)
    ensures r.id == s.id && r.data == s.data
  {
    s.(pos := Point(s.pos.x + s.data.vel.x * (1.0 / 60.0), s.pos.y + s.data.vel.y * (1.0 / 60.0)))
  }

  /** The pool trim: more than `limit` projectiles destroys the oldest
      `drop` of them. */
  function Trim(s: seq<Shot>, limit: nat, drop: nat): (r: seq<Shot>)
    requires drop <= limit
    ensures |s| > limit ==> r == s[drop..] && |r| == |s| - drop
    ensures |s| <= limit ==> r == s
  {
    if |s| > limit then s[drop..] else s
  }

  /** The projectiles of `s` moved one frame, without those that left `b`,
      in their original order. */
  function Advance(s: seq<Shot>, b: Box): (r: seq<Shot>)
    ensures |r| <= |s|
  {
    if s == [] then []
    else
      var rest := Advance(s[..|s| - 1], b);
      var f := Fly(s[|s| - 1]);
      if Inside(f.pos, b) then rest + [f] else rest
  }

  /** What survives a frame is exactly the projectiles that, moved one
      frame, are inside the box. */
  lemma {:induction false} AdvanceMembers(s: seq<Shot>, b: Box)
    ensures forall o :: o in Advance(s, b) <==> Inside(o.pos, b) && exists q :: q in s && o == Fly(q)
  {
    if s != [] {
      AdvanceMembers(s[..|s| - 1], b);
      assert s == s[..|s| - 1] + [s[|s| - 1]];
    }
  }

  /** The per-frame projectile update: trim, then move and drop what left
      the box. A pool over the limit loses at least `drop` projectiles. */
  lemma ProjectileUpdateShrinks(s: seq<Shot>, limit: nat, drop: nat, b: Box)
    requires drop <= limit
    ensures |s| > limit ==> |Advance(Trim(s, limit, drop), b)| <= |s| - drop
    ensures |Advance(Trim(s, limit, drop), b)| <= |s|
    ensures forall o :: o in Advance(Trim(s, limit, drop), b) ==> Inside(o.pos, b)
  {
    AdvanceMembers(Trim(s, limit, drop), b);
  }

  // ----- targeting and the volley -----

  /** The index the nearest-enemy scan keeps after looking at the first `k`
      enemies: a later enemy replaces the kept one only when strictly
      closer. */
  function NearestAmong(p: Point, es: seq<Enemy>, k: nat): (i: nat)
    requires 0 < k <= |es|
    ensures i < k
  {
    if k == 1 then 0
    else
      var j := NearestAmong(p, es, k - 1);
      if DistSq(p, es[k - 1].pos) < DistSq(p, es[j].pos) then k - 1 else j
  }

  /** The enemy a shot targets. */
  function Nearest(p: Point, es: seq<Enemy>): (i: nat)
    requires |es| > 0
    ensures i < |es|
  {
    NearestAmong(p, es, |es|)
  }

  /** `i` is the first enemy at the least distance from `p`. */
  predicate IsFirstNearest(p: Point, es: seq<Enemy>, i: nat)
  {
    && i < |es|
    && (forall j :: 0 <= j < |es| ==> DistSq(p, es[i].pos) <= DistSq(p, es[j].pos))
    && (forall j :: 0 <= j < i ==> DistSq(p, es[i].pos) < DistSq(p, es[j].pos))
  }

  lemma {:induction false} NearestAmongIsFirstNearest(p: Point, es: seq<Enemy>, k: nat)
    requires 0 < k <= |es|
    ensures IsFirstNearest(p, es[..k], NearestAmong(p, es, k))
  {
    if k > 1 {
      NearestAmongIsFirstNearest(p, es, k - 1);
      assert forall j :: 0 <= j < k - 1 ==> es[..k][j] == es[..k - 1][j];
    }
  }

  /** The scan picks the first enemy of least distance, and only one index
      has that property. */
  lemma NearestIsFirstNearest(p: Point, es: seq<Enemy>)
    requires |es| > 0
    ensures IsFirstNearest(p, es, Nearest(p, es))
    ensures forall i :: IsFirstNearest(p, es, i) ==> i == Nearest(p, es)
  {
    NearestAmongIsFirstNearest(p, es, |es|);
    assert es[..|es|] == es;
  }

  /** Number of projectiles per volley. */
  function ShotCount(multishot: bool): nat
  {
    if multishot then 3 else 1
  }

  /** The angle offset of the `i`-th projectile of a volley. */
  function Spread(multishot: bool, i: nat): real
  {
    if multishot then (i as real - 1.0) * 0.3 else 0.0
  }

  /** Damage of a player projectile: `damage * (1 + stacks * 0.1)`. */
  function ShotDamage(damage: real, stacks: int): real
  {
    damage * (1.0 + stacks as real * 0.1)
  }

  /** The `i`-th projectile of a volley fired from `from` along `angle`. */
  function VolleyShot(geo: Geometry, from: Point, angle: real, multishot: bool, piercing: bool,
                      damage: real, stacks: int, id: nat, i: nat): Shot
  {
    var a := angle + Spread(multishot, i);
    Obj(id, from, Missile(Point(geo.cos(a) * Config.projectileSpeed, geo.sin(a) * Config.projectileSpeed),
                          ShotDamage(damage, stacks), piercing))
  }

  /** The first `n` projectiles of a volley, ids from `firstId` on. */
  function Volley(geo: Geometry, from: Point, angle: real, multishot: bool, piercing: bool,
                  damage: real, stacks: int, firstId: nat, n: nat): seq<Shot>
  {
    if n == 0 then []
    else Volley(geo, from, angle, multishot, piercing, damage, stacks, firstId, n - 1)
         + [VolleyShot(geo, from, angle, multishot, piercing, damage, stacks, firstId + n - 1, n - 1)]
  }

  lemma {:induction false} VolleyShape(geo: Geometry, from: Point, angle: real, multishot: bool, piercing: bool,
                                       damage: real, stacks: int, firstId: nat, n: nat)
    ensures var v := Volley(geo, from, angle, multishot, piercing, damage, stacks, firstId, n);
      && |v| == n
      && forall i :: 0 <= i < n ==> v[i] == VolleyShot(geo, from, angle, multishot, piercing, damage, stacks, firstId + i, i)
  {
    if n > 0 {
      VolleyShape(geo, from, angle, multishot, piercing, damage, stacks, firstId, n - 1);
    }
  }

  /** A full volley: three projectiles at offsets -0.3, 0 and +0.3 with
      multishot, otherwise one straight at the target; all fly at 600,
      start at the shooter, carry the same damage and piercing flag, and
      get fresh consecutive ids. */
  lemma VolleyFacts(geo: Geometry, from: Point, angle: real, multishot: bool, piercing: bool,
                    damage: real, stacks: int, firstId: nat)
    ensures var v := Volley(geo, from, angle, multishot, piercing, damage, stacks, firstId, ShotCount(multishot));
      && |v| == (if multishot then 3 else 1)
      && (forall i :: 0 <= i < |v| ==>
            v[i].id == firstId + i && v[i].pos == from
            && v[i].data.damage == damage * (1.0 + stacks as real * 0.1) && v[i].data.piercing == piercing)
      && (forall i :: 0 <= i < |v| ==>
            v[i].data.vel == Point(geo.cos(angle + Spread(multishot, i)) * 600.0,
                                   geo.sin(angle + Spread(multishot, i)) * 600.0))
      && (multishot ==>
            && v[0].data.vel == Point(geo.cos(angle - 0.3) * 600.0, geo.sin(angle - 0.3) * 600.0)
            && v[1].data.vel == Point(geo.cos(angle) * 600.0, geo.sin(angle) * 600.0)
            && v[2].data.vel == Point(geo.cos(angle + 0.3) * 600.0, geo.sin(angle + 0.3) * 600.0))
      && (!multishot ==> v[0].data.vel == Point(geo.cos(angle) * 600.0, geo.sin(angle) * 600.0))
  {
    VolleyShape(geo, from, angle, multishot, piercing, damage, stacks, firstId, ShotCount(multishot));
  }

  /** Bloodthirst stacks only ever strengthen shots, by a tenth of the base
      damage per stack. */
  lemma BloodthirstStrengthens(damage: real, stacks: int)
    requires damage > 0.0 && stacks >= 0
    ensures ShotDamage(damage, stacks) >= damage
    ensures ShotDamage(damage, stacks + 1) - ShotDamage(damage, stacks) == damage * 0.1
  {
  }

  // ----- enemy behaviour -----

  /** A step of `speed / 60` pixels from `from` along `angle`. */
  function Toward(geo: Geometry, from: Point, angle: real, speed: real): Point
  {
    Point(from.x + geo.cos(angle) * speed * (1.0 / 60.0), from.y + geo.sin(angle) * speed * (1.0 / 60.0))
  }

  /** An enemy projectile fired from `from` along `angle`. */
  function EnemyShotAt(geo: Geometry, id: nat, from: Point, angle: real, speed: real, damage: real): Shot
  {
    Obj(id, from, Missile(Point(geo.cos(angle) * speed, geo.sin(angle) * speed), damage, false))
  }

  /** The goblin's shot timer: after `delta` milliseconds it fires when the
      timer has run out, and is then set to 2000. */
  function GoblinCooldown(cooldown: real, delta: real): (r: (real, bool))
    ensures r.1 <==> cooldown - delta <= 0.0
    ensures r.0 == (if r.1 then 2000.0 else cooldown - delta)
  {
    var c := cooldown - delta;
    if c <= 0.0 then (2000.0, true) else (c, false)
  }

  /** The dragon's breath timer: the same rule with 3000. */
  function BreathCooldown(cooldown: real, delta: real): (r: (real, bool))
    ensures r.1 <==> cooldown - delta <= 0.0
    ensures r.0 == (if r.1 then 3000.0 else cooldown - delta)
  {
    var c := cooldown - delta;
    if c <= 0.0 then (3000.0, true) else (c, false)
  }

  /** A goblin that just fired does not fire in the next frame if that
      frame is shorter than 2000 ms, and a dragon not if it is shorter
      than 3000 ms. */
  lemma AttackIntervals(delta1: real, delta2: real, c: real)
    requires delta2 < 2000.0
    ensures GoblinCooldown(c, delta1).1 ==> !GoblinCooldown(GoblinCooldown(c, delta1).0, delta2).1
    ensures delta2 < 3000.0 && BreathCooldown(c, delta1).1 ==> !BreathCooldown(BreathCooldown(c, delta1).0, delta2).1
  {
  }

  /** The `i`-th shot of a dragon's breath, at angle `i / 8 * 2 pi`. */
  function BreathShot(geo: Geometry, from: Point, damage: real, firstId: nat, i: nat): Shot
  {
    EnemyShotAt(geo, firstId + i, from, i as real / 8.0 * geo.pi * 2.0, 250.0, damage * 0.7)
  }

  /** The eight shots of a dragon's breath. */
  function Breath(geo: Geometry, from: Point, damage: real, firstId: nat): (r: seq<Shot>)
    ensures |r| == 8
    ensures forall i :: 0 <= i < 8 ==>
      r[i].id == firstId + i && r[i].pos == from && r[i].data.damage == damage * 0.7 && !r[i].data.piercing
  {
    seq(8, i requires 0 <= i < 8 => BreathShot(geo, from, damage, firstId, i))
  }

  /** `updateBatAI`: a step toward the player plus a vertical zigzag of
      `sin(now / 1000 * 5 + x) * 50` pixels per second. */
  function BatStep(geo: Geometry, e: Enemy, player: Point, now: real): (r: Enemy)
    ensures r.id == e.id && r.data == e.data
  {
    var zigzag := geo.sin(now / 1000.0 * 5.0 + e.pos.x) * 50.0;
    var step := Toward(geo, e.pos, geo.angleBetween(e.pos, player), e.data.config.speed);
    e.(pos := Point(step.x, step.y + zigzag * (1.0 / 60.0)))
  }

  /** `updateGoblinAI`: a step toward the player, then, when the shot
      timer has run out, one projectile at the player at 300 pixels per
      second with half the goblin's damage. */
  function GoblinStep(geo: Geometry, e: Enemy, player: Point, delta: real, nextId: nat): (r: (Enemy, seq<Shot>))
    ensures r.0.id == e.id && r.0.data.config == e.data.config
    ensures |r.1| == (if e.data.shootCooldown - delta <= 0.0 then 1 else 0)
    ensures forall i :: 0 <= i < |r.1| ==> r.1[i].id == nextId + i
  {
    var moved := Toward(geo, e.pos, geo.angleBetween(e.pos, player), e.data.config.speed);
    var (c, fire) := GoblinCooldown(e.data.shootCooldown, delta);
    var e' := e.(pos := moved, data := e.data.(shootCooldown := c));
    if fire then
      (e', [EnemyShotAt(geo, nextId, moved, geo.angleBetween(moved, player), 300.0, e.data.config.damage * 0.5)])
    else (e', [])
  }

  /** `updateOrcAI`: a step toward the player. */
  function OrcStep(geo: Geometry, e: Enemy, player: Point): (r: Enemy)
    ensures r.id == e.id && r.data == e.data
  {
    e.(pos := Toward(geo, e.pos, geo.angleBetween(e.pos, player), e.data.config.speed))
  }

  /** `updateDragonAI`: the boss circles the screen centre at radius 200,
      half a radian per second of its own timer, and breathes eight
      projectiles when the breath timer has run out. */
  function DragonStep(geo: Geometry, e: Enemy, delta: real, nextId: nat): (r: (Enemy, seq<Shot>))
    ensures r.0.id == e.id && r.0.data.config == e.data.config
    ensures |r.1| == (if e.data.breathCooldown - delta <= 0.0 then 8 else 0)
    ensures forall i :: 0 <= i < |r.1| ==> r.1[i].id == nextId + i
  {
    var timer := e.data.bossTimer + delta;
    var orbit := timer / 1000.0 * 0.5;
    var at := Point(Config.width / 2.0 + geo.cos(orbit) * 200.0, Config.height / 2.0 + geo.sin(orbit) * 200.0);
    var (c, fire) := BreathCooldown(e.data.breathCooldown, delta);
    var e' := e.(pos := at, data := e.data.(bossTimer := timer, breathCooldown := c));
    (e', if fire then Breath(geo, at, e.data.config.damage, nextId) else [])
  }

  /** One enemy's AI step for a frame of `delta` ms at clock `now`, by its
      pattern, with the ids from `nextId` on for the projectiles it fires:
      the moved enemy and those projectiles. */
  function EnemyStep(geo: Geometry, e: Enemy, player: Point, delta: real, now: real, nextId: nat): (r: (Enemy, seq<Shot>))
    ensures r.0.id == e.id && r.0.data.config == e.data.config
    ensures e.data.config.aiPattern == Shoot ==> |r.1| == (if e.data.shootCooldown - delta <= 0.0 then 1 else 0)
    ensures e.data.config.aiPattern == Boss ==> |r.1| == (if e.data.breathCooldown - delta <= 0.0 then 8 else 0)
    ensures e.data.config.aiPattern in {Zigzag, Charge} ==> r.1 == []
    ensures forall i :: 0 <= i < |r.1| ==> r.1[i].id == nextId + i
  {
    match e.data.config.aiPattern
    case Zigzag => (BatStep(geo, e, player, now), [])
    case Shoot => GoblinStep(geo, e, player, delta, nextId)
    case Charge => (OrcStep(geo, e, player), [])
    case Boss => DragonStep(geo, e, delta, nextId)
  }

  /** A firing goblin's projectile carries half its damage and a dragon's
      breath 0.7 of it. */
  lemma EnemyShotDamage(geo: Geometry, e: Enemy, player: Point, delta: real, now: real, nextId: nat)
    ensures var r := EnemyStep(geo, e, player, delta, now, nextId);
      && (e.data.config.aiPattern == Shoot ==> forall s :: s in r.1 ==> s.data.damage == e.data.config.damage * 0.5)
      && (e.data.config.aiPattern == Boss ==> forall s :: s in r.1 ==> s.data.damage == e.data.config.damage * 0.7)
      && (forall s :: s in r.1 ==> !s.data.piercing)
  {
  }

  // ----- player movement -----

  datatype Joystick = Joystick(force: real, forceX: real, forceY: real)

  /** The frame's input: which direction keys (arrow or WASD) are held and
      the virtual joystick, present on touch devices. */
  datatype Input = Input(left: bool, right: bool, up: bool, down: bool, joystick: Option<Joystick>)

  /** The raw direction: left wins over right and up over down, and a
      joystick pushed past the dead zone overrides the keys. */
  function Direction(inp: Input): (d: Point)
    ensures inp.joystick.Some? && inp.joystick.value.force > Config.joystickDeadzone ==>
      d == Point(inp.joystick.value.forceX, inp.joystick.value.forceY)
    ensures inp.joystick.None? ==> d.x in {-1.0, 0.0, 1.0} && d.y in {-1.0, 0.0, 1.0}
  {
    var keys := Point(if inp.left then -1.0 else if inp.right then 1.0 else 0.0,
                      if inp.up then -1.0 else if inp.down then 1.0 else 0.0);
    match inp.joystick
    case Some(j) => if j.force > Config.joystickDeadzone then Point(j.forceX, j.forceY) else keys
    case None => keys
  }

  function Magnitude(geo: Geometry, d: Point): real
  {
    geo.sqrt(d.x * d.x + d.y * d.y)
  }

  /** Whether the player moves this frame (and so does not shoot). */
  predicate Moving(geo: Geometry, d: Point)
  {
    Magnitude(geo, d) > Config.joystickDeadzone
  }

  /** The part of the screen the player's centre is kept in. */
  predicate InPlayfield(p: Point)
  {
    20.0 <= p.x <= Config.width - 20.0 && 20.0 <= p.y <= Config.height - 20.0
  }

  /** A frame's move: the direction scaled to `speed` pixels per second,
      one sixtieth of a second of it, clamped 20 pixels inside the screen.
      Wherever the player was, the result is inside the playfield, and a
      move that stays inside is not altered. */
  function Moved(geo: Geometry, from: Point, d: Point, speed: real): (r: Point)
    requires Moving(geo, d)
    ensures InPlayfield(r)
    ensures var m := Magnitude(geo, d);
      var x := from.x + d.x / m * speed * (1.0 / 60.0);
      var y := from.y + d.y / m * speed * (1.0 / 60.0);
      InPlayfield(Point(x, y)) ==> r == Point(x, y)
  {
    var m := Magnitude(geo, d);
    Point(Clamp(from.x + d.x / m * speed * (1.0 / 60.0), 20.0, Config.width - 20.0),
          Clamp(from.y + d.y / m * speed * (1.0 / 60.0), 20.0, Config.height - 20.0))
  }

  // ----- the frame clocks -----

  /** A countdown after `delta` ms: `max(0, t - delta)`. It is never
      negative, and it reaches 0 exactly when no more than `delta` was
      left. */
  function Countdown(t: real, delta: real): (r: real)
    ensures r >= 0.0
    ensures r == 0.0 <==> t <= delta
    ensures t > delta ==> r == t - delta
  {
    Max(0.0, t - delta)
  }

  /** The spawn clock after `delta` ms, and whether a spawn is attempted:
      the clock accumulates, and on reaching the spawn interval a spawn is
      attempted and the clock restarts from 0. */
  function SpawnClock(t: real, delta: real): (r: (real, bool))
    ensures r.1 <==> t + delta >= Config.spawnInterval
    ensures r.0 == (if r.1 then 0.0 else t + delta)
  {
    if t + delta >= Config.spawnInterval then (0.0, true) else (t + delta, false)
  }

  /** The spawn clock stays within [0, 2000) for non-negative frame
      times, and a spawn is attempted at least once every 2000 ms of
      frames. */
  lemma SpawnClockBounded(t: real, delta: real)
    requires 0.0 <= t < Config.spawnInterval && delta >= 0.0
    ensures 0.0 <= SpawnClock(t, delta).0 < Config.spawnInterval
    ensures delta >= Config.spawnInterval ==> SpawnClock(t, delta).1
  {
  }

  // ----- the enemy AI pass -----

  /** The enemies, the projectiles they fired and the next free id after
      the AI pass has handled the first `k` enemies. */
  datatype AiResult = AiResult(enemies: seq<Enemy>, shots: seq<Shot>, nextId: nat)

  function AiPass(geo: Geometry, es: seq<Enemy>, player: Point, delta: real, now: real, nextId: nat, k: nat): (r: AiResult)
    requires k <= |es|
    ensures |r.enemies| == |es|
  {
    if k == 0 then AiResult(es, [], nextId)
    else
      var r := AiPass(geo, es, player, delta, now, nextId, k - 1);
      var step := EnemyStep(geo, r.enemies[k - 1], player, delta, now, r.nextId);
      AiResult(r.enemies[k - 1 := step.0], r.shots + step.1, r.nextId + |step.1|)
  }

  /** The AI pass keeps every enemy, with its id and configuration, in its
      place, and leaves the enemies it has not reached untouched. */
  lemma {:induction false} AiPassKeepsEnemies(geo: Geometry, es: seq<Enemy>, player: Point, delta: real, now: real, nextId: nat, k: nat)
    requires k <= |es|
    ensures var r := AiPass(geo, es, player, delta, now, nextId, k);
      && (forall i :: 0 <= i < |es| ==> r.enemies[i].id == es[i].id && r.enemies[i].data.config == es[i].data.config)
      && (forall i :: k <= i < |es| ==> r.enemies[i] == es[i])
  {
    if k > 0 {
      AiPassKeepsEnemies(geo, es, player, delta, now, nextId, k - 1);
    }
  }

  /** The AI pass only adds projectiles, with consecutive fresh ids from
      `nextId` on. */
  lemma {:induction false} AiPassNumbersShots(geo: Geometry, es: seq<Enemy>, player: Point, delta: real, now: real, nextId: nat, k: nat)
    requires k <= |es|
    ensures var r := AiPass(geo, es, player, delta, now, nextId, k);
      && r.nextId == nextId + |r.shots|
      && (forall i :: 0 <= i < |r.shots| ==> r.shots[i].id == nextId + i)
  {
    if k > 0 {
      AiPassNumbersShots(geo, es, player, delta, now, nextId, k - 1);
      var r := AiPass(geo, es, player, delta, now, nextId, k - 1);
      var step := EnemyStep(geo, r.enemies[k - 1], player, delta, now, r.nextId);
      var shots := r.shots + step.1;
      assert forall i :: |r.shots| <= i < |shots| ==> shots[i] == step.1[i - |r.shots|];
    }
  }
}
