/**
 * The weapon projectile pool of source/projectile.c: beams, missiles, bombs
 * and enemy bullets in a fixed pool of 32 slots with swap-remove, updated by
 * a backward loop that moves each projectile, counts down its lifetime or
 * bomb fuse, tests it against tiles, enemies, the boss or the player, and
 * removes it when it is spent.
 *
 * What one projectile does to the rest of the game in one update is a
 * function (`Step`) from a `World` value: the room's collision map, the
 * enemy pool's slots and active count, the boss record, the player record
 * and the camera-shake requests so far. The pool is a class whose update
 * pass is proved against folds of `Step` over the starting records.
 *
 * room_set_collision is not part of this model: it is a parameter
 * `setColl`, of which only one thing is assumed, that it maps a
 * well-formed room to a well-formed room.
 */
module Projectile {
  import opened CInt
  import opened SmTypes
  import opened PhysicsConstants
  import opened Room
  import Enemy
  import Boss
  import Player

  const PROJ_NONE: nat := 0
  const PROJ_POWER_BEAM: nat := 1
  const PROJ_ICE_BEAM: nat := 2
  const PROJ_WAVE_BEAM: nat := 3
  const PROJ_SPAZER_BEAM: nat := 4
  const PROJ_PLASMA_BEAM: nat := 5
  const PROJ_MISSILE: nat := 6
  const PROJ_SUPER_MISSILE: nat := 7
  const PROJ_BOMB: nat := 8
  const PROJ_POWER_BOMB: nat := 9
  const PROJ_ENEMY_BULLET: nat := 10
  const PROJ_TYPE_COUNT: nat := 11

  const OWNER_PLAYER: int := 0
  const OWNER_ENEMY: int := 1

  /** A row of proj_defs. */
  datatype ProjDef = ProjDef(damage: int, speed: int, lifetime: int, halfW: int, halfH: int,
                             wallPass: bool, enemyPass: bool)

  const PROJ_DEFS: seq<ProjDef> := [
    ProjDef(0, 0, 0, 0, 0, false, false),
    ProjDef(20, 4 * FX_ONE, 30, 4 * FX_ONE, 2 * FX_ONE, false, false),
    ProjDef(30, 3 * FX_ONE, 30, 4 * FX_ONE, 2 * FX_ONE, false, false),
    ProjDef(50, 4 * FX_ONE, 45, 4 * FX_ONE, 2 * FX_ONE, true, false),
    ProjDef(40, 4 * FX_ONE, 30, 6 * FX_ONE, 4 * FX_ONE, false, false),
    ProjDef(150, 4 * FX_ONE, 30, 4 * FX_ONE, 2 * FX_ONE, false, true),
    ProjDef(100, 5 * FX_ONE, 60, 4 * FX_ONE, 2 * FX_ONE, false, false),
    ProjDef(300, 5 * FX_ONE, 60, 4 * FX_ONE, 2 * FX_ONE, false, false),
    ProjDef(30, 0, BOMB_TIMER_FRAMES, 8 * FX_ONE, 8 * FX_ONE, false, false),
    ProjDef(200, 0, BOMB_TIMER_FRAMES, 32 * FX_ONE, 32 * FX_ONE, false, false),
    ProjDef(10, 2 * FX_ONE, 120, 3 * FX_ONE, 3 * FX_ONE, false, false)
  ]

  /** The Projectile record; damage is an int16, lifetime and timer are uint16. */
  datatype Proj = Proj(ptype: nat, owner: int, pos: Vec2, vel: Vec2, hitbox: Aabb,
                       damage: int, lifetime: int, timer: int, active: bool)

  const ZERO_PROJ: Proj := Proj(0, 0, Vec2(0, 0), Vec2(0, 0), Aabb(0, 0), 0, 0, 0, false)

  /** A record a pool slot may hold: a known type and counters inside their C types. */
  predicate WellFormed(p: Proj)
  {
    p.ptype < PROJ_TYPE_COUNT && IsInt16(p.damage) && IsUint16(p.lifetime) && IsUint16(p.timer)
  }

  predicate AllWellFormed(s: seq<Proj>) { forall j :: 0 <= j < |s| ==> WellFormed(s[j]) }

  predicate IsBomb(t: nat) { t == PROJ_BOMB || t == PROJ_POWER_BOMB }

  /** projectile_spawn's new record: the zeroed slot filled in from the type's row of proj_defs. */
  function Spawned(ptype: nat, owner: int, x: int, y: int, vx: int, vy: int): Proj
    requires ptype < PROJ_TYPE_COUNT
  {
    var def := PROJ_DEFS[ptype];
    ZERO_PROJ.(ptype := ptype, owner := owner, active := true, damage := def.damage,
               lifetime := def.lifetime, hitbox := Aabb(def.halfW, def.halfH),
               pos := Vec2(x, y), vel := Vec2(vx, vy),
               timer := if IsBomb(ptype) then def.lifetime else 0)
  }

  /** projectile_remove on the array: the last active record moves into slot i and its old slot is zeroed. */
  function SwapRemoved(s: seq<Proj>, n: int, i: int): (r: seq<Proj>)
    requires 0 <= i < n <= |s|
    ensures |r| == |s|
  {
    if i < n - 1 then s[i := s[n - 1]][n - 1 := ZERO_PROJ] else s[n - 1 := ZERO_PROJ]
  }

  // ---------------------------------------------------------------------
  // Tiles
  // ---------------------------------------------------------------------

  /** The uint8_t that room_get_collision returns for a tile. */
  function CodeAt(g: Grid, x: int, y: int): (c: int)
    requires GridValid(g)
    ensures 0 <= c < 256
  {
    ToUint8(CollisionAt(g, x, y))
  }

  /** tile_is_solid: COLL_SOLID, or any code whose high nibble is that of COLL_SPECIAL_BASE. */
  predicate TileIsSolid(c: int)
    requires 0 <= c < 256
  {
    c == COLL_SOLID || c / 16 == COLL_SPECIAL_BASE / 16
  }

  /** The room writes room_set_collision may do: any, as long as a well-formed room stays well-formed. */
  type SetColl = (Grid, int, int, int) -> Grid

  ghost predicate KeepsValid(setColl: SetColl)
  {
    forall g, x, y, c :: GridValid(g) ==> GridValid(setColl(g, x, y, c))
  }

  /** One tile of a bomb blast: a bomb block becomes air. */
  function BlastCell(setColl: SetColl, g: Grid, tx: int, ty: int): (r: Grid)
    requires KeepsValid(setColl) && GridValid(g)
    ensures GridValid(r)
  {
    if CodeAt(g, tx, ty) == COLL_SPECIAL_BOMB then setColl(g, tx, ty, COLL_AIR) else g
  }

  /** The blast along row ty from column tx to column x1, left to right. */
  function BlastRow(setColl: SetColl, g: Grid, ty: int, tx: int, x1: int): (r: Grid)
    requires KeepsValid(setColl) && GridValid(g)
    ensures GridValid(r)
    decreases x1 - tx + 1
  {
    if tx > x1 then g else BlastRow(setColl, BlastCell(setColl, g, tx, ty), ty, tx + 1, x1)
  }

  /** The blast over rows ty to y1, top to bottom, each from column x0 to x1. */
  function BlastRows(setColl: SetColl, g: Grid, ty: int, y1: int, x0: int, x1: int): (r: Grid)
    requires KeepsValid(setColl) && GridValid(g)
    ensures GridValid(r)
    decreases y1 - ty + 1
  {
    if ty > y1 then g else BlastRows(setColl, BlastRow(setColl, g, ty, x0, x1), ty + 1, y1, x0, x1)
  }

  /** The blast radius in tiles: half the blast width in whole tiles, at least one. */
  function BlastRadius(def: ProjDef): (r: int)
    ensures r >= 1
  {
    var t := PixelToTile(FxToInt(def.halfW));
    if t < 1 then 1 else t
  }

  // ---------------------------------------------------------------------
  // One projectile's update, on a world value
  // ---------------------------------------------------------------------

  /** What one projectile can read and change: the room, the enemy pool, the boss, the player and the requested shakes. */
  datatype World = World(grid: Grid, enemies: seq<Enemy.EnemyRec>, enemyCount: int,
                         boss: Boss.BossData, player: Player.PlayerData, shakes: seq<Boss.Shake>)

  predicate WorldOk(w: World)
  {
    GridValid(w.grid) && 0 <= w.enemyCount <= |w.enemies|
  }

  /** check_enemy_hits over enemy slots k-1 down to 0: the enemies after, and whether the projectile was stopped. */
  datatype Hits = Hits(enemies: seq<Enemy.EnemyRec>, stopped: bool)

  /** aabb_overlap of a projectile's box with an enemy's body. */
  predicate Struck(q: Proj, e: Enemy.EnemyRec)
  {
    BoxesOverlap(q.pos, q.hitbox, e.body.pos, e.body.hitbox)
  }

  function EnemyHits(es: seq<Enemy.EnemyRec>, k: int, q: Proj, pass: bool): (r: Hits)
    requires 0 <= k <= |es|
    ensures |r.enemies| == |es|
    decreases k
  {
    if k == 0 then Hits(es, false)
    else
      var e := k - 1;
      if Struck(q, es[e]) then
        var es1 := es[e := Enemy.DamagedRec(es[e], q.damage)];
        if !pass then Hits(es1, true) else EnemyHits(es1, e, q, pass)
      else EnemyHits(es, e, q, pass)
  }

  /** The enemy loop of bomb_explode over slots k-1 down to 0: every enemy the blast box overlaps is damaged. */
  function BlastEnemies(es: seq<Enemy.EnemyRec>, k: int, pos: Vec2, blast: Aabb, damage: int): (r: seq<Enemy.EnemyRec>)
    requires 0 <= k <= |es|
    ensures |r| == |es|
    decreases k
  {
    if k == 0 then es
    else
      var e := k - 1;
      var es1 := if BoxesOverlap(pos, blast, es[e].body.pos, es[e].body.hitbox)
                 then es[e := Enemy.DamagedRec(es[e], damage)] else es;
      BlastEnemies(es1, e, pos, blast, damage)
  }

  /** The bomb jump: a player within 16 pixels on both axes of the blast is launched upward. */
  function BombJumped(pl: Player.PlayerData, pos: Vec2): Player.PlayerData
  {
    if Abs(pos.x - pl.body.pos.x) < 16 * FX_ONE && Abs(pos.y - pl.body.pos.y) < 16 * FX_ONE
    then Player.WithVelY(pl, -BOMB_JUMP_VEL) else pl
  }

  /** bomb_explode: enemies in the blast box are damaged, bomb blocks around the centre break, the player may be launched. */
  function Exploded(setColl: SetColl, w: World, p: Proj): (r: World)
    requires KeepsValid(setColl) && WorldOk(w) && WellFormed(p)
    ensures WorldOk(r)
  {
    var def := PROJ_DEFS[p.ptype];
    var cx := PixelToTile(FxToInt(p.pos.x));
    var cy := PixelToTile(FxToInt(p.pos.y));
    var rad := BlastRadius(def);
    w.(enemies := BlastEnemies(w.enemies, w.enemyCount, p.pos, Aabb(def.halfW, def.halfH), def.damage),
       grid := BlastRows(setColl, w.grid, cy - rad, cy + rad, cx - rad, cx + rad),
       player := BombJumped(w.player, p.pos))
  }

  /** One update's effect on the world, and the projectile's new record unless it is removed. */
  datatype StepOut = StepOut(world: World, kept: Option<Proj>)

  /** A bomb: the fuse counts down, and at zero the bomb explodes and is removed. */
  function BombStep(setColl: SetColl, w: World, p: Proj): (r: StepOut)
    requires KeepsValid(setColl) && WorldOk(w) && WellFormed(p)
    ensures WorldOk(r.world) && (r.kept.Some? ==> WellFormed(r.kept.value))
  {
    var q := if p.timer > 0 then p.(timer := p.timer - 1) else p;
    if q.timer == 0 then StepOut(Exploded(setColl, w, q), None)
    else StepOut(w, Some(q))
  }

  /** The entity tests of a projectile still flying: its owner decides what it is tested against. */
  function HitStep(w: World, q: Proj): (r: StepOut)
    requires WorldOk(w) && WellFormed(q)
    ensures WorldOk(r.world) && (r.kept.Some? ==> r.kept.value == q)
  {
    if q.owner == OWNER_PLAYER then
      var h := EnemyHits(w.enemies, w.enemyCount, q, PROJ_DEFS[q.ptype].enemyPass);
      var w1 := w.(enemies := h.enemies);
      if h.stopped then StepOut(w1, None)
      else if w1.boss.active && BoxesOverlap(q.pos, q.hitbox, w1.boss.body.pos, w1.boss.body.hitbox) then
        var o := Boss.Damaged(w1.boss, q.damage);
        StepOut(w1.(boss := o.boss, shakes := w1.shakes + o.shakes), None)
      else StepOut(w1, Some(q))
    else if BoxesOverlap(q.pos, q.hitbox, w.player.body.pos, w.player.body.hitbox) then
      StepOut(w.(player := Player.Damaged(w.player, q.damage)), None)
    else StepOut(w, Some(q))
  }

  /** Movement, then the lifetime countdown: the record after both, or nothing once the lifetime runs out. */
  function Aged(p: Proj): (r: Option<Proj>)
    requires WellFormed(p)
    ensures r.Some? ==> WellFormed(r.value)
  {
    var q := p.(pos := Vec2(p.pos.x + p.vel.x, p.pos.y + p.vel.y));
    if q.lifetime == 0 then Some(q)
    else if q.lifetime - 1 == 0 then None
    else Some(q.(lifetime := q.lifetime - 1))
  }

  /** The tile test of a projectile that does not pass walls: the room after it, and whether the projectile stops. */
  datatype TileOut = TileOut(grid: Grid, stopped: bool)

  function TileHit(setColl: SetColl, g: Grid, q: Proj): (r: TileOut)
    requires KeepsValid(setColl) && GridValid(g) && WellFormed(q)
    ensures GridValid(r.grid)
  {
    var tx := PixelToTile(FxToInt(q.pos.x));
    var ty := PixelToTile(FxToInt(q.pos.y));
    var c := CodeAt(g, tx, ty);
    var solid := TileIsSolid(c);
    // A player shot that meets a shot block breaks it, and stops unless it is plasma.
    var shot := !solid && c == COLL_SPECIAL_SHOT && q.owner == OWNER_PLAYER;
    TileOut(if shot then setColl(g, tx, ty, COLL_AIR) else g, solid || (shot && !PROJ_DEFS[q.ptype].enemyPass))
  }

  /** Any projectile but a bomb: it moves, ages, meets the tile it is in, and then the entities. */
  function FlyStep(setColl: SetColl, w: World, p: Proj): (r: StepOut)
    requires KeepsValid(setColl) && WorldOk(w) && WellFormed(p)
    ensures WorldOk(r.world) && (r.kept.Some? ==> WellFormed(r.kept.value))
  {
    var a := Aged(p);
    if a.None? then StepOut(w, None)
    else
      var q := a.value;
      var t := if PROJ_DEFS[q.ptype].wallPass then TileOut(w.grid, false) else TileHit(setColl, w.grid, q);
      if t.stopped then StepOut(w.(grid := t.grid), None) else HitStep(w.(grid := t.grid), q)
  }

  /** The body of projectile_update_all for one slot. */
  function Step(setColl: SetColl, w: World, p: Proj): (r: StepOut)
    requires KeepsValid(setColl) && WorldOk(w) && WellFormed(p)
    ensures WorldOk(r.world) && (r.kept.Some? ==> WellFormed(r.kept.value))
  {
    if !p.active then StepOut(w, None)
    else if IsBomb(p.ptype) then BombStep(setColl, w, p)
    else FlyStep(setColl, w, p)
  }

  // ---------------------------------------------------------------------
  // A whole update pass, as functions of the starting pool
  // ---------------------------------------------------------------------

  /** The world after the records of s are processed, the last one first. */
  function PassWorld(setColl: SetColl, s: seq<Proj>, w: World): (r: World)
    requires KeepsValid(setColl) && WorldOk(w) && AllWellFormed(s)
    ensures WorldOk(r)
    decreases |s|
  {
    if |s| == 0 then w else Step(setColl, PassWorld(setColl, s[1..], w), s[0]).world
  }

  /** The records a pass keeps, in some order. */
  ghost function PassKept(setColl: SetColl, s: seq<Proj>, w: World): multiset<Proj>
    requires KeepsValid(setColl) && WorldOk(w) && AllWellFormed(s)
    decreases |s|
  {
    if |s| == 0 then multiset{}
    else
      var o := Step(setColl, PassWorld(setColl, s[1..], w), s[0]);
      (if o.kept.Some? then multiset{o.kept.value} else multiset{}) + PassKept(setColl, s[1..], w)
  }

  /** How many records a pass keeps. */
  function PassCount(setColl: SetColl, s: seq<Proj>, w: World): (r: nat)
    requires KeepsValid(setColl) && WorldOk(w) && AllWellFormed(s)
    ensures r <= |s|
    decreases |s|
  {
    if |s| == 0 then 0
    else (if Step(setColl, PassWorld(setColl, s[1..], w), s[0]).kept.Some? then 1 else 0) + PassCount(setColl, s[1..], w)
  }

  /** The world as the update sees it through the game's objects. */
  function WorldOf(g: Grid, shakes: seq<Boss.Shake>, enemies: Enemy.Pool, boss: Boss.Boss, player: Player.Player): World
    reads enemies, enemies.pool, boss, player
  {
    World(g, enemies.pool[..], enemies.activeCount, boss.Data(), player.Data(), shakes)
  }

  // ---------------------------------------------------------------------
  // The operations on the game's objects
  // ---------------------------------------------------------------------

  /** check_enemy_hits: from the last enemy slot down, damage each overlapped enemy; a non-plasma shot stops at the first. */
  method CheckEnemyHits(q: Proj, pass: bool, enemies: Enemy.Pool) returns (stopped: bool)
    requires enemies.Valid() && IsInt16(q.damage)
    modifies enemies.pool
    ensures enemies.Valid()
    ensures var h := EnemyHits(old(enemies.pool[..]), enemies.activeCount, q, pass);
      enemies.pool[..] == h.enemies && stopped == h.stopped
  {
    ghost var s0 := enemies.pool[..];
    var e := enemies.GetCount();
    e := e - 1;
    while e >= 0
      invariant enemies.Valid() && -1 <= e < enemies.activeCount
      invariant EnemyHits(enemies.pool[..], e + 1, q, pass) == EnemyHits(s0, enemies.activeCount, q, pass)
      decreases e
    {
      var en := enemies.Get(e);
      if en.Some? && BoxesOverlap(q.pos, q.hitbox, en.value.body.pos, en.value.body.hitbox) {
        enemies.Damage(e, q.damage);
        if !pass {
          return true;
        }
      }
      e := e - 1;
    }
    return false;
  }

  /** The enemy loop of bomb_explode. */
  method BlastEnemyPool(pos: Vec2, blast: Aabb, damage: int, enemies: Enemy.Pool)
    requires enemies.Valid() && IsInt16(damage)
    modifies enemies.pool
    ensures enemies.Valid()
    ensures enemies.pool[..] == BlastEnemies(old(enemies.pool[..]), enemies.activeCount, pos, blast, damage)
  {
    ghost var s0 := enemies.pool[..];
    var e := enemies.GetCount();
    e := e - 1;
    while e >= 0
      invariant enemies.Valid() && -1 <= e < enemies.activeCount
      invariant BlastEnemies(enemies.pool[..], e + 1, pos, blast, damage) ==
        BlastEnemies(s0, enemies.activeCount, pos, blast, damage)
      decreases e
    {
      var en := enemies.Get(e);
      if en.Some? && BoxesOverlap(pos, blast, en.value.body.pos, en.value.body.hitbox) {
        enemies.Damage(e, damage);
      }
      e := e - 1;
    }
  }

  /** The tile loop of bomb_explode: rows y0..y1, and in each row columns x0..x1. */
  method BlastTiles(setColl: SetColl, g: Grid, x0: int, x1: int, y0: int, y1: int) returns (r: Grid)
    requires KeepsValid(setColl) && GridValid(g)
    ensures r == BlastRows(setColl, g, y0, y1, x0, x1)
  {
    r := g;
    var ty := y0;
    while ty <= y1
      invariant GridValid(r)
      invariant BlastRows(setColl, r, ty, y1, x0, x1) == BlastRows(setColl, g, y0, y1, x0, x1)
      decreases y1 - ty + 1
    {
      ghost var rowStart := r;
      var tx := x0;
      while tx <= x1
        invariant GridValid(r)
        invariant BlastRow(setColl, r, ty, tx, x1) == BlastRow(setColl, rowStart, ty, x0, x1)
        decreases x1 - tx + 1
      {
        if CodeAt(r, tx, ty) == COLL_SPECIAL_BOMB {
          r := setColl(r, tx, ty, COLL_AIR);
        }
        tx := tx + 1;
      }
      ty := ty + 1;
    }
  }

  /** The bomb jump of bomb_explode. */
  method BombJump(pos: Vec2, player: Player.Player)
    modifies player
    ensures player.Data() == BombJumped(old(player.Data()), pos)
  {
    var px := Abs(pos.x - player.body.pos.x);
    var py := Abs(pos.y - player.body.pos.y);
    if px < 16 * FX_ONE && py < 16 * FX_ONE {
      player.SetVelY(-BOMB_JUMP_VEL);
    }
  }

  /** bomb_explode. */
  method Explode(setColl: SetColl, p: Proj, g: Grid, enemies: Enemy.Pool, player: Player.Player) returns (g2: Grid)
    requires KeepsValid(setColl) && GridValid(g) && WellFormed(p) && enemies.Valid()
    modifies enemies.pool, player
    ensures enemies.Valid()
    ensures var def := PROJ_DEFS[p.ptype];
      var cx, cy, rad := PixelToTile(FxToInt(p.pos.x)), PixelToTile(FxToInt(p.pos.y)), BlastRadius(def);
      g2 == BlastRows(setColl, g, cy - rad, cy + rad, cx - rad, cx + rad) &&
      enemies.pool[..] == BlastEnemies(old(enemies.pool[..]), enemies.activeCount, p.pos, Aabb(def.halfW, def.halfH), def.damage) &&
      player.Data() == BombJumped(old(player.Data()), p.pos)
  {
    var def := PROJ_DEFS[p.ptype];
    BlastEnemyPool(p.pos, Aabb(def.halfW, def.halfH), def.damage, enemies);
    var cx := PixelToTile(FxToInt(p.pos.x));
    var cy := PixelToTile(FxToInt(p.pos.y));
    var rad := FxToInt(def.halfW) / TILE_SIZE;
    if rad < 1 {
      rad := 1;
    }
    g2 := BlastTiles(setColl, g, cx - rad, cx + rad, cy - rad, cy + rad);
    BombJump(p.pos, player);
  }

  /** The movement and lifetime lines of projectile_update_all. */
  method Move(p0: Proj) returns (r: Option<Proj>)
    requires WellFormed(p0)
    ensures r == Aged(p0)
  {
    var p := p0.(pos := Vec2(p0.pos.x + p0.vel.x, p0.pos.y + p0.vel.y));
    if p.lifetime > 0 {
      p := p.(lifetime := p.lifetime - 1);
      if p.lifetime == 0 {
        return None;
      }
    }
    return Some(p);
  }

  /** The tile test of projectile_update_all. */
  method TileCheck(setColl: SetColl, g: Grid, p: Proj) returns (g2: Grid, stopped: bool)
    requires KeepsValid(setColl) && GridValid(g) && WellFormed(p)
    ensures TileOut(g2, stopped) == TileHit(setColl, g, p)
  {
    var tx := PixelToTile(FxToInt(p.pos.x));
    var ty := PixelToTile(FxToInt(p.pos.y));
    var c := CodeAt(g, tx, ty);
    var solid := TileIsSolid(c);
    var shot := !solid && c == COLL_SPECIAL_SHOT && p.owner == OWNER_PLAYER;
    g2 := g;
    if shot {
      g2 := setColl(g, tx, ty, COLL_AIR);
    }
    stopped := solid || (shot && !PROJ_DEFS[p.ptype].enemyPass);
  }

  /** The entity tests of projectile_update_all for a projectile that survived the tiles. */
  method CheckHits(q: Proj, shakes: seq<Boss.Shake>, g: Grid, enemies: Enemy.Pool, boss: Boss.Boss, player: Player.Player)
    returns (keep: bool, shakes2: seq<Boss.Shake>)
    requires enemies.Valid() && GridValid(g) && WellFormed(q)
    modifies enemies.pool, boss, player
    ensures enemies.Valid()
    ensures var o := HitStep(old(WorldOf(g, shakes, enemies, boss, player)), q);
      WorldOf(g, shakes2, enemies, boss, player) == o.world && keep == o.kept.Some? && (keep ==> o.kept.value == q)
  {
    if q.owner == OWNER_PLAYER {
      var stopped := CheckEnemyHits(q, PROJ_DEFS[q.ptype].enemyPass, enemies);
      if stopped {
        return false, shakes;
      }
      var bossActive := boss.IsActive();
      if bossActive && BoxesOverlap(q.pos, q.hitbox, boss.body.pos, boss.body.hitbox) {
        var requested := boss.Damage(q.damage);
        return false, shakes + requested;
      }
      return true, shakes;
    } else {
      if BoxesOverlap(q.pos, q.hitbox, player.body.pos, player.body.hitbox) {
        player.ApplyDamage(q.damage);
        return false, shakes;
      }
      return true, shakes;
    }
  }

  /** A bomb's update: the fuse burns down, and at zero bomb_explode runs. */
  method BombUpdate(setColl: SetColl, p0: Proj, g: Grid, shakes: seq<Boss.Shake>,
                    enemies: Enemy.Pool, boss: Boss.Boss, player: Player.Player) returns (g2: Grid, next: Option<Proj>)
    requires enemies.Valid() && KeepsValid(setColl) && GridValid(g) && WellFormed(p0) && IsBomb(p0.ptype)
    modifies enemies.pool, player
    ensures enemies.Valid()
    ensures var o := BombStep(setColl, old(WorldOf(g, shakes, enemies, boss, player)), p0);
      WorldOf(g2, shakes, enemies, boss, player) == o.world && next == o.kept
  {
    var p := p0;
    if p.timer > 0 {
      p := p.(timer := p.timer - 1);
    }
    if p.timer == 0 {
      g2 := Detonate(setColl, p, g, shakes, enemies, boss, player);
      return g2, None;
    }
    return g, Some(p);
  }

  /** bomb_explode seen on the world: the world afterwards is Exploded of the world before. */
  method Detonate(setColl: SetColl, p: Proj, g: Grid, shakes: seq<Boss.Shake>,
                  enemies: Enemy.Pool, boss: Boss.Boss, player: Player.Player) returns (g2: Grid)
    requires enemies.Valid() && KeepsValid(setColl) && GridValid(g) && WellFormed(p)
    modifies enemies.pool, player
    ensures enemies.Valid()
    ensures WorldOf(g2, shakes, enemies, boss, player) == Exploded(setColl, old(WorldOf(g, shakes, enemies, boss, player)), p)
  {
    g2 := Explode(setColl, p, g, enemies, player);
  }

  /** Any other projectile's update: movement, lifetime, the tile it is in, then the entities. */
  method FlyUpdate(setColl: SetColl, p0: Proj, g: Grid, shakes: seq<Boss.Shake>,
                   enemies: Enemy.Pool, boss: Boss.Boss, player: Player.Player)
    returns (g2: Grid, shakes2: seq<Boss.Shake>, next: Option<Proj>)
    requires enemies.Valid() && KeepsValid(setColl) && GridValid(g) && WellFormed(p0) && !IsBomb(p0.ptype)
    modifies enemies.pool, boss, player
    ensures enemies.Valid()
    ensures var o := FlyStep(setColl, old(WorldOf(g, shakes, enemies, boss, player)), p0);
      WorldOf(g2, shakes2, enemies, boss, player) == o.world && next == o.kept
  {
    var a := Move(p0);
    if a.None? {
      return g, shakes, None;
    }
    var p := a.value;
    g2 := g;
    var stopped := false;
    if !PROJ_DEFS[p.ptype].wallPass {
      g2, stopped := TileCheck(setColl, g, p);
    }
    if stopped {
      return g2, shakes, None;
    }
    var keep;
    keep, shakes2 := CheckHits(p, shakes, g2, enemies, boss, player);
    next := if keep then Some(p) else None;
  }

  /** The update of one record: a spent record is left as it is, a bomb or a flying projectile takes its step. */
  method UpdateOne(setColl: SetColl, p: Proj, g: Grid, shakes: seq<Boss.Shake>,
                   enemies: Enemy.Pool, boss: Boss.Boss, player: Player.Player)
    returns (g2: Grid, shakes2: seq<Boss.Shake>, next: Option<Proj>)
    requires enemies.Valid() && KeepsValid(setColl) && GridValid(g) && WellFormed(p)
    modifies enemies.pool, boss, player
    ensures enemies.Valid()
    ensures var o := Step(setColl, old(WorldOf(g, shakes, enemies, boss, player)), p);
      WorldOf(g2, shakes2, enemies, boss, player) == o.world && next == o.kept
  {
    if !p.active {
      return g, shakes, None;
    }
    if IsBomb(p.ptype) {
      g2, next := BombUpdate(setColl, p, g, shakes, enemies, boss, player);
      shakes2 := shakes;
    } else {
      g2, shakes2, next := FlyUpdate(setColl, p, g, shakes, enemies, boss, player);
    }
  }

  /** The records still in the pool after slots i+1.. of s0 took their steps are those the pass keeps. */
  ghost predicate RestMatches(setColl: SetColl, s0: seq<Proj>, w0: World, i: int, rest: seq<Proj>)
    requires KeepsValid(setColl) && WorldOk(w0) && AllWellFormed(s0) && -1 <= i < |s0|
  {
    multiset(rest) == PassKept(setColl, s0[i + 1..], w0) && |rest| == PassCount(setColl, s0[i + 1..], w0)
  }

  /** The step of slot i of s0, in the world the later slots left. */
  function SlotStep(setColl: SetColl, s0: seq<Proj>, w0: World, i: int): StepOut
    requires KeepsValid(setColl) && WorldOk(w0) && AllWellFormed(s0) && 0 <= i < |s0|
  {
    Step(setColl, PassWorld(setColl, s0[i + 1..], w0), s0[i])
  }

  /** The slots and active count of the projectile pool. */
  class ProjPool {
    const pool: array<Proj>
    var activeCount: int

    /** The active records are packed in slots 0..activeCount-1; every other slot is zeroed. */
    predicate Valid()
      reads this, pool
    {
      pool.Length == MAX_PROJECTILES && 0 <= activeCount <= MAX_PROJECTILES &&
      (forall i :: activeCount <= i < MAX_PROJECTILES ==> pool[i] == ZERO_PROJ) &&
      AllWellFormed(pool[..])
    }

    /** projectile_pool_init. */
    constructor ()
      ensures Valid() && activeCount == 0
    {
      pool := new Proj[MAX_PROJECTILES](_ => ZERO_PROJ);
      activeCount := 0;
    }

    /** projectile_spawn: -1 for PROJ_NONE, an unknown type or a full pool; otherwise the new slot's index. */
    method Spawn(ptype: nat, owner: int, x: int, y: int, vx: int, vy: int) returns (idx: int)
      requires Valid()
      modifies this, pool
      ensures Valid()
      ensures idx == -1 <==> ptype == PROJ_NONE || ptype >= PROJ_TYPE_COUNT || old(activeCount) >= MAX_PROJECTILES
      ensures ptype == PROJ_NONE || ptype >= PROJ_TYPE_COUNT || old(activeCount) >= MAX_PROJECTILES ==>
        idx == -1 && activeCount == old(activeCount) && pool[..] == old(pool[..])
      ensures idx != -1 ==>
        ptype != PROJ_NONE && ptype < PROJ_TYPE_COUNT && idx == old(activeCount) &&
        activeCount == idx + 1 && pool[..] == old(pool[..])[idx := Spawned(ptype, owner, x, y, vx, vy)]
    {
      if ptype == PROJ_NONE || ptype >= PROJ_TYPE_COUNT {
        return -1;
      }
      if activeCount >= MAX_PROJECTILES {
        return -1;
      }
      pool[activeCount] := Spawned(ptype, owner, x, y, vx, vy);
      idx := activeCount;
      activeCount := activeCount + 1;
    }

    /** projectile_remove: an index outside the active range is ignored. */
    method Remove(index: int)
      requires Valid()
      modifies this, pool
      ensures Valid()
      ensures !(0 <= index < old(activeCount)) ==> activeCount == old(activeCount) && pool[..] == old(pool[..])
      ensures 0 <= index < old(activeCount) ==>
        activeCount == old(activeCount) - 1 && pool[..] == SwapRemoved(old(pool[..]), old(activeCount), index)
    {
      if index < 0 || index >= activeCount {
        return;
      }
      activeCount := activeCount - 1;
      if index < activeCount {
        pool[index] := pool[activeCount];
      }
      pool[activeCount] := ZERO_PROJ;
    }

    /** projectile_clear_all. */
    method ClearAll()
      requires Valid()
      modifies this, pool
      ensures Valid() && activeCount == 0
    {
      forall i | 0 <= i < MAX_PROJECTILES {
        pool[i] := ZERO_PROJ;
      }
      activeCount := 0;
    }

    /** The state of the update pass once slots i+1.. of the starting records s0 are done, from world w0. */
    ghost predicate PassDone(setColl: SetColl, s0: seq<Proj>, w0: World, i: int, g: Grid, shakes: seq<Boss.Shake>,
                             enemies: Enemy.Pool, boss: Boss.Boss, player: Player.Player)
      reads this, pool, enemies, enemies.pool, boss, player
    {
      Valid() && enemies.Valid() && KeepsValid(setColl) && WorldOk(w0) && AllWellFormed(s0) &&
      -1 <= i < activeCount <= |s0| &&
      pool[..i + 1] == s0[..i + 1] &&
      RestMatches(setColl, s0, w0, i, pool[i + 1..activeCount]) &&
      WorldOf(g, shakes, enemies, boss, player) == PassWorld(setColl, s0[i + 1..], w0)
    }

    /** Midway through a pass step at slot i: the world has taken the step of s0[i], whose kept record is next. */
    ghost predicate SlotDone(setColl: SetColl, s0: seq<Proj>, w0: World, i: int, g: Grid, shakes: seq<Boss.Shake>,
                             enemies: Enemy.Pool, boss: Boss.Boss, player: Player.Player, next: Option<Proj>)
      reads this, pool, enemies, enemies.pool, boss, player
    {
      Valid() && enemies.Valid() && KeepsValid(setColl) && WorldOk(w0) && AllWellFormed(s0) &&
      0 <= i < activeCount <= |s0| &&
      pool[..i + 1] == s0[..i + 1] &&
      RestMatches(setColl, s0, w0, i, pool[i + 1..activeCount]) &&
      var o := SlotStep(setColl, s0, w0, i);
      WorldOf(g, shakes, enemies, boss, player) == o.world && next == o.kept
    }

    /** The first half of a pass step: the slot's step. */
    method PassProcess(setColl: SetColl, ghost s0: seq<Proj>, ghost w0: World, i: int, g: Grid, shakes: seq<Boss.Shake>,
                       enemies: Enemy.Pool, boss: Boss.Boss, player: Player.Player)
      returns (g2: Grid, shakes2: seq<Boss.Shake>, next: Option<Proj>)
      requires PassDone(setColl, s0, w0, i, g, shakes, enemies, boss, player) && 0 <= i
      modifies enemies.pool, boss, player
      ensures SlotDone(setColl, s0, w0, i, g2, shakes2, enemies, boss, player, next)
    {
      assert pool[i] == s0[i] by {
        assert pool[..i + 1][i] == s0[..i + 1][i];
      }
      g2, shakes2, next := UpdateOne(setColl, pool[i], g, shakes, enemies, boss, player);
    }

    /** The second half of a pass step for a spent record: it is swap-removed. */
    method PassRemove(setColl: SetColl, ghost s0: seq<Proj>, ghost w0: World, i: int, g: Grid, shakes: seq<Boss.Shake>,
                      enemies: Enemy.Pool, boss: Boss.Boss, player: Player.Player)
      requires SlotDone(setColl, s0, w0, i, g, shakes, enemies, boss, player, None)
      modifies this, pool
      ensures PassDone(setColl, s0, w0, i - 1, g, shakes, enemies, boss, player)
    {
      ghost var before, count := pool[..], activeCount;
      RestAfterRemove(setColl, s0, w0, i, before, count);
      Remove(i);
    }

    /** The second half of a pass step for a record that stays: it is written back in place. */
    method PassKeep(setColl: SetColl, ghost s0: seq<Proj>, ghost w0: World, i: int, g: Grid, shakes: seq<Boss.Shake>,
                    enemies: Enemy.Pool, boss: Boss.Boss, player: Player.Player, x: Proj)
      requires SlotDone(setColl, s0, w0, i, g, shakes, enemies, boss, player, Some(x))
      modifies pool
      ensures PassDone(setColl, s0, w0, i - 1, g, shakes, enemies, boss, player)
    {
      ghost var before, count := pool[..], activeCount;
      RestAfterKeep(setColl, s0, w0, i, before, count, x);
      pool[i] := x;
      assert pool[..] == before[i := x];
    }

    /**
     * projectile_update_all: from the last active slot down to slot 0, each
     * projectile takes its step against the room, the enemies, the boss and
     * the player, and is swap-removed when it is spent. The room and the
     * camera-shake requests the boss made are returned.
     */
    method UpdateAll(setColl: SetColl, g: Grid, enemies: Enemy.Pool, boss: Boss.Boss, player: Player.Player)
      returns (g2: Grid, shakes: seq<Boss.Shake>)
      requires Valid() && enemies.Valid() && KeepsValid(setColl) && GridValid(g)
      modifies this, pool, enemies.pool, boss, player
      ensures Valid() && enemies.Valid()
      ensures multiset(pool[..activeCount]) ==
        PassKept(setColl, old(pool[..activeCount]), old(WorldOf(g, [], enemies, boss, player)))
      ensures activeCount == PassCount(setColl, old(pool[..activeCount]), old(WorldOf(g, [], enemies, boss, player)))
      ensures WorldOf(g2, shakes, enemies, boss, player) ==
        PassWorld(setColl, old(pool[..activeCount]), old(WorldOf(g, [], enemies, boss, player)))
    {
      ghost var s0, w0 := pool[..activeCount], WorldOf(g, [], enemies, boss, player);
      assert s0[activeCount..] == [];
      g2, shakes := RunPass(setColl, s0, w0, g, enemies, boss, player);
      assert s0[0..] == s0;
    }

    /** The loop of projectile_update_all, from the last active slot down to slot 0. */
    method RunPass(setColl: SetColl, ghost s0: seq<Proj>, ghost w0: World, g: Grid,
                   enemies: Enemy.Pool, boss: Boss.Boss, player: Player.Player)
      returns (g2: Grid, shakes: seq<Boss.Shake>)
      requires PassDone(setColl, s0, w0, activeCount - 1, g, [], enemies, boss, player)
      modifies this, pool, enemies.pool, boss, player
      ensures PassDone(setColl, s0, w0, -1, g2, shakes, enemies, boss, player)
    {
      g2, shakes := g, [];
      var i := activeCount - 1;
      while i >= 0
        invariant PassDone(setColl, s0, w0, i, g2, shakes, enemies, boss, player)
        decreases i
      {
        var next;
        g2, shakes, next := PassProcess(setColl, s0, w0, i, g2, shakes, enemies, boss, player);
        if next.None? {
          PassRemove(setColl, s0, w0, i, g2, shakes, enemies, boss, player);
        } else {
          PassKeep(setColl, s0, w0, i, g2, shakes, enemies, boss, player, next.value);
        }
        i := i - 1;
      }
    }
  }

  /** One more slot of the pass, taken from the back: how the pass functions unfold at slot i. */
  lemma UnfoldPass(setColl: SetColl, s: seq<Proj>, i: int, w: World)
    requires KeepsValid(setColl) && WorldOk(w) && AllWellFormed(s) && 0 <= i < |s|
    ensures var o := Step(setColl, PassWorld(setColl, s[i + 1..], w), s[i]);
      PassWorld(setColl, s[i..], w) == o.world &&
      PassKept(setColl, s[i..], w) == (if o.kept.Some? then multiset{o.kept.value} else multiset{}) + PassKept(setColl, s[i + 1..], w) &&
      PassCount(setColl, s[i..], w) == (if o.kept.Some? then 1 else 0) + PassCount(setColl, s[i + 1..], w)
  {
    assert s[i..][1..] == s[i + 1..];
  }

  /** After a spent slot i is swap-removed, the regions of the pool match the pass one slot further on. */
  lemma RestAfterRemove(setColl: SetColl, s0: seq<Proj>, w0: World, i: int, before: seq<Proj>, count: int)
    requires KeepsValid(setColl) && WorldOk(w0) && AllWellFormed(s0) && 0 <= i < count <= |s0| && count <= |before|
    requires before[..i + 1] == s0[..i + 1] && RestMatches(setColl, s0, w0, i, before[i + 1..count])
    requires SlotStep(setColl, s0, w0, i).kept == None
    ensures var r := SwapRemoved(before, count, i);
      r[..i] == s0[..i] && RestMatches(setColl, s0, w0, i - 1, r[i..count - 1]) &&
      PassWorld(setColl, s0[i..], w0) == SlotStep(setColl, s0, w0, i).world
  {
    RemoveKeepsRegions(before, count, i);
    DroppedStep(setColl, s0, w0, i, before[i + 1..count]);
    SameRest(setColl, s0, w0, i - 1, before[i + 1..count], SwapRemoved(before, count, i)[i..count - 1]);
    assert before[..i] == before[..i + 1][..i];
    assert s0[..i] == s0[..i + 1][..i];
  }

  /** After slot i is written back with its kept record, the regions match the pass one slot further on. */
  lemma RestAfterKeep(setColl: SetColl, s0: seq<Proj>, w0: World, i: int, before: seq<Proj>, count: int, x: Proj)
    requires KeepsValid(setColl) && WorldOk(w0) && AllWellFormed(s0) && 0 <= i < count <= |s0| && count <= |before|
    requires before[..i + 1] == s0[..i + 1] && RestMatches(setColl, s0, w0, i, before[i + 1..count])
    requires SlotStep(setColl, s0, w0, i).kept == Some(x)
    ensures var r := before[i := x];
      r[..i] == s0[..i] && RestMatches(setColl, s0, w0, i - 1, r[i..count]) &&
      PassWorld(setColl, s0[i..], w0) == SlotStep(setColl, s0, w0, i).world
  {
    UpdateKeepsRegions(before, i, count, x);
    KeptStep(setColl, s0, w0, i, before[i + 1..count], x);
    assert before[..i] == before[..i + 1][..i];
    assert s0[..i] == s0[..i + 1][..i];
  }

  /** A slot whose step keeps nothing leaves the kept records of the pass as they were. */
  lemma DroppedStep(setColl: SetColl, s0: seq<Proj>, w0: World, i: int, rest: seq<Proj>)
    requires KeepsValid(setColl) && WorldOk(w0) && AllWellFormed(s0) && 0 <= i < |s0|
    requires RestMatches(setColl, s0, w0, i, rest) && SlotStep(setColl, s0, w0, i).kept == None
    ensures RestMatches(setColl, s0, w0, i - 1, rest)
    ensures PassWorld(setColl, s0[i..], w0) == SlotStep(setColl, s0, w0, i).world
  {
    UnfoldPass(setColl, s0, i, w0);
  }

  /** A slot whose step keeps x adds x in front of the records kept so far. */
  lemma KeptStep(setColl: SetColl, s0: seq<Proj>, w0: World, i: int, rest: seq<Proj>, x: Proj)
    requires KeepsValid(setColl) && WorldOk(w0) && AllWellFormed(s0) && 0 <= i < |s0|
    requires RestMatches(setColl, s0, w0, i, rest) && SlotStep(setColl, s0, w0, i).kept == Some(x)
    ensures RestMatches(setColl, s0, w0, i - 1, [x] + rest)
    ensures PassWorld(setColl, s0[i..], w0) == SlotStep(setColl, s0, w0, i).world
  {
    UnfoldPass(setColl, s0, i, w0);
    assert multiset([x] + rest) == multiset{x} + multiset(rest);
  }

  /** Whether the rest matches depends only on its records and how many there are. */
  lemma SameRest(setColl: SetColl, s0: seq<Proj>, w0: World, i: int, a: seq<Proj>, b: seq<Proj>)
    requires KeepsValid(setColl) && WorldOk(w0) && AllWellFormed(s0) && -1 <= i < |s0|
    requires RestMatches(setColl, s0, w0, i, a) && multiset(a) == multiset(b) && |a| == |b|
    ensures RestMatches(setColl, s0, w0, i, b)
  {
  }

  /** The bookkeeping of one in-place update inside the update pass. */
  lemma UpdateKeepsRegions(s: seq<Proj>, i: int, n: int, x: Proj)
    requires 0 <= i < n <= |s|
    ensures s[i := x][..i] == s[..i]
    ensures s[i := x][i..n] == [x] + s[i + 1..n]
  {
  }

  /** The bookkeeping of one removal inside the update pass. */
  lemma RemoveKeepsRegions(s: seq<Proj>, n: int, i: int)
    requires 0 <= i < n <= |s|
    ensures SwapRemoved(s, n, i)[..i] == s[..i]
    ensures multiset(SwapRemoved(s, n, i)[i..n - 1]) == multiset(s[i + 1..n])
  {
    var r := SwapRemoved(s, n, i);
    if i < n - 1 {
      assert r[i..n - 1] == [s[n - 1]] + s[i + 1..n - 1];
      assert s[i + 1..n] == s[i + 1..n - 1] + [s[n - 1]];
    }
  }

  // ---------------------------------------------------------------------
  // Properties
  // ---------------------------------------------------------------------

  /** A spawned record takes damage, lifetime and hitbox from its row of proj_defs; only bombs start a fuse. */
  lemma SpawnUsesDefs(ptype: nat, owner: int, x: int, y: int, vx: int, vy: int)
    requires PROJ_NONE < ptype < PROJ_TYPE_COUNT
    ensures var p := Spawned(ptype, owner, x, y, vx, vy);
      WellFormed(p) && p.active && p.ptype == ptype && p.owner == owner &&
      p.damage == PROJ_DEFS[ptype].damage && p.lifetime == PROJ_DEFS[ptype].lifetime &&
      p.hitbox == Aabb(PROJ_DEFS[ptype].halfW, PROJ_DEFS[ptype].halfH) &&
      p.pos == Vec2(x, y) && p.vel == Vec2(vx, vy) &&
      (IsBomb(ptype) ==> p.timer == BOMB_TIMER_FRAMES) && (!IsBomb(ptype) ==> p.timer == 0)
  {
  }

  /**
   * projectile_remove keeps every other active record: the first n-1 slots
   * hold the records of the first n slots except slot i's, slot i receives
   * the former last record unless i was last, and the vacated slot is zeroed.
   */
  lemma SwapRemoveKeepsOthers(s: seq<Proj>, n: int, i: int)
    requires 0 <= i < n <= |s|
    ensures var r := SwapRemoved(s, n, i);
      multiset(r[..n - 1]) == multiset(s[..n]) - multiset{s[i]} &&
      (i < n - 1 ==> r[i] == s[n - 1]) &&
      r[n - 1] == ZERO_PROJ &&
      (forall j :: 0 <= j < |s| && j != i && j != n - 1 ==> r[j] == s[j])
  {
    SwapRemoveMultiset(s, n, i);
  }

  lemma SwapRemoveMultiset(s: seq<Proj>, n: int, i: int)
    requires 0 <= i < n <= |s|
    ensures multiset(SwapRemoved(s, n, i)[..n - 1]) == multiset(s[..n]) - multiset{s[i]}
  {
    var r := SwapRemoved(s, n, i);
    RemoveKeepsRegions(s, n, i);
    assert r[..n - 1] == r[..i] + r[i..n - 1];
    assert s[..n] == s[..i] + [s[i]] + s[i + 1..n];
  }

  /** Each pass keeps as many records as it counts. */
  lemma {:induction false} PassKeptSize(setColl: SetColl, s: seq<Proj>, w: World)
    requires KeepsValid(setColl) && WorldOk(w) && AllWellFormed(s)
    ensures |PassKept(setColl, s, w)| == PassCount(setColl, s, w)
    decreases |s|
  {
    if |s| > 0 {
      PassKeptSize(setColl, s[1..], w);
    }
  }

  /** tile_is_solid holds exactly for COLL_SOLID and the sixteen codes 0x20..0x2F, the shot block among them. */
  lemma TileIsSolidCodes(c: int)
    requires 0 <= c < 256
    ensures TileIsSolid(c) <==> c == COLL_SOLID || COLL_SPECIAL_BASE <= c < COLL_SPECIAL_BASE + 16
    ensures TileIsSolid(COLL_SPECIAL_SHOT) && TileIsSolid(COLL_SPECIAL_BOMB) && TileIsSolid(COLL_SPECIAL_CRUMBLE)
    ensures !TileIsSolid(COLL_AIR) && !TileIsSolid(COLL_HAZARD_SPIKE)
  {
  }

  /**
   * The shot-block branch never runs: tile_is_solid already covers
   * COLL_SPECIAL_SHOT, so the tile test never writes the room, and it
   * stops a projectile exactly when the tile it is in is solid.
   */
  lemma TileTestNeverBreaksShotBlocks(setColl: SetColl, g: Grid, q: Proj)
    requires KeepsValid(setColl) && GridValid(g) && WellFormed(q)
    ensures var t := TileHit(setColl, g, q);
      t.grid == g &&
      (t.stopped <==> TileIsSolid(CodeAt(g, PixelToTile(FxToInt(q.pos.x)), PixelToTile(FxToInt(q.pos.y)))))
  {
    var c := CodeAt(g, PixelToTile(FxToInt(q.pos.x)), PixelToTile(FxToInt(q.pos.y)));
    if c == COLL_SPECIAL_SHOT {
      TileIsSolidCodes(c);
    }
  }

  /** Only a bomb changes the room: no other projectile's update writes a collision cell. */
  lemma OnlyBombsChangeTheRoom(setColl: SetColl, w: World, p: Proj)
    requires KeepsValid(setColl) && WorldOk(w) && WellFormed(p) && !IsBomb(p.ptype)
    ensures Step(setColl, w, p).world.grid == w.grid
  {
    var a := Aged(p);
    if a.Some? && !PROJ_DEFS[a.value.ptype].wallPass {
      TileTestNeverBreaksShotBlocks(setColl, w.grid, a.value);
    }
  }

  /** An enemy's projectile is tested only against the player: it leaves the room, the enemies, the boss and the shakes alone. */
  lemma EnemyShotsTestOnlyThePlayer(w: World, q: Proj)
    requires WorldOk(w) && WellFormed(q) && q.owner != OWNER_PLAYER
    ensures var r := HitStep(w, q);
      var hit := BoxesOverlap(q.pos, q.hitbox, w.player.body.pos, w.player.body.hitbox);
      r.world.grid == w.grid && r.world.enemies == w.enemies && r.world.boss == w.boss && r.world.shakes == w.shakes &&
      (r.kept.None? <==> hit) && r.world.player == (if hit then Player.Damaged(w.player, q.damage) else w.player)
  {
  }

  /** A player's projectile never touches the player; if it overlaps an active boss it is always consumed. */
  lemma PlayerShotsSparePlayer(w: World, q: Proj)
    requires WorldOk(w) && WellFormed(q) && q.owner == OWNER_PLAYER
    ensures HitStep(w, q).world.player == w.player
    ensures w.boss.active && BoxesOverlap(q.pos, q.hitbox, w.boss.body.pos, w.boss.body.hitbox) ==> HitStep(w, q).kept.None?
  {
  }

  /** A player's projectile that strikes no enemy and overlaps the active boss deals its damage to the boss. */
  lemma BossHitConsumes(w: World, q: Proj)
    requires WorldOk(w) && WellFormed(q) && q.owner == OWNER_PLAYER
    requires forall j :: 0 <= j < w.enemyCount ==> !Struck(q, w.enemies[j])
    requires w.boss.active && BoxesOverlap(q.pos, q.hitbox, w.boss.body.pos, w.boss.body.hitbox)
    ensures var r := HitStep(w, q); var o := Boss.Damaged(w.boss, q.damage);
      r.kept.None? && r.world.boss == o.boss && r.world.shakes == w.shakes + o.shakes && r.world.enemies == w.enemies
  {
    NoStrikeNoChange(w.enemies, w.enemyCount, q, PROJ_DEFS[q.ptype].enemyPass);
  }

  /** When no enemy among slots 0..k-1 is struck, check_enemy_hits changes nothing. */
  lemma {:induction false} NoStrikeNoChange(es: seq<Enemy.EnemyRec>, k: int, q: Proj, pass: bool)
    requires 0 <= k <= |es|
    requires forall j :: 0 <= j < k ==> !Struck(q, es[j])
    ensures EnemyHits(es, k, q, pass) == Hits(es, false)
    decreases k
  {
    if k > 0 {
      NoStrikeNoChange(es, k - 1, q, pass);
    }
  }

  /**
   * A projectile that does not pass through enemies damages at most one:
   * it is stopped exactly when some enemy in slots 0..k-1 is struck, and
   * then only the highest such slot is damaged.
   */
  lemma {:induction false} StopsAtFirstHit(es: seq<Enemy.EnemyRec>, k: int, q: Proj)
    requires 0 <= k <= |es|
    ensures var h := EnemyHits(es, k, q, false);
      (h.stopped <==> exists j :: 0 <= j < k && Struck(q, es[j])) &&
      (!h.stopped ==> h.enemies == es) &&
      (h.stopped ==> exists j :: 0 <= j < k && Struck(q, es[j]) &&
                       h.enemies == es[j := Enemy.DamagedRec(es[j], q.damage)] &&
                       forall j2 :: j < j2 < k ==> !Struck(q, es[j2]))
    decreases k
  {
    if k > 0 {
      if !Struck(q, es[k - 1]) {
        StopsAtFirstHit(es, k - 1, q);
        var h := EnemyHits(es, k - 1, q, false);
        if h.stopped {
          var j :| 0 <= j < k - 1 && Struck(q, es[j]) &&
                   h.enemies == es[j := Enemy.DamagedRec(es[j], q.damage)] &&
                   forall j2 :: j < j2 < k - 1 ==> !Struck(q, es[j2]);
          assert forall j2 :: j < j2 < k ==> !Struck(q, es[j2]);
        }
      }
    }
  }

  /** A plasma shot damages every enemy it strikes in slots 0..k-1 and is never stopped by them. */
  lemma {:induction false} PlasmaHitsAll(es: seq<Enemy.EnemyRec>, k: int, q: Proj)
    requires 0 <= k <= |es|
    ensures var h := EnemyHits(es, k, q, true);
      !h.stopped &&
      forall j :: 0 <= j < |es| ==>
        h.enemies[j] == if j < k && Struck(q, es[j]) then Enemy.DamagedRec(es[j], q.damage) else es[j]
    decreases k
  {
    if k > 0 {
      var e := k - 1;
      var es1 := if Struck(q, es[e]) then es[e := Enemy.DamagedRec(es[e], q.damage)] else es;
      PlasmaHitsAll(es1, e, q);
      assert forall j :: 0 <= j < e ==> es1[j] == es[j];
    }
  }

  /** bomb_explode damages exactly the enemies of slots 0..k-1 that its blast box overlaps. */
  lemma {:induction false} BlastDamagesAllInBox(es: seq<Enemy.EnemyRec>, k: int, pos: Vec2, blast: Aabb, damage: int)
    requires 0 <= k <= |es|
    ensures var r := BlastEnemies(es, k, pos, blast, damage);
      forall j :: 0 <= j < |es| ==>
        r[j] == if j < k && BoxesOverlap(pos, blast, es[j].body.pos, es[j].body.hitbox)
                then Enemy.DamagedRec(es[j], damage) else es[j]
    decreases k
  {
    if k > 0 {
      var e := k - 1;
      var es1 := if BoxesOverlap(pos, blast, es[e].body.pos, es[e].body.hitbox)
                 then es[e := Enemy.DamagedRec(es[e], damage)] else es;
      BlastDamagesAllInBox(es1, e, pos, blast, damage);
      assert forall j :: 0 <= j < e ==> es1[j] == es[j];
    }
  }

  /** The record a bomb keeps through k updates, or nothing once it has gone off. */
  function Fuse(setColl: SetColl, w: World, p: Proj, k: nat): Option<Proj>
    requires KeepsValid(setColl) && WorldOk(w) && WellFormed(p) && IsBomb(p.ptype)
    decreases k
  {
    if k == 0 then Some(p)
    else
      var f := Fuse(setColl, w, p, k - 1);
      if f.None? || !WellFormed(f.value) || !IsBomb(f.value.ptype) then None
      else BombStep(setColl, w, f.value).kept
  }

  /**
   * Bombs never move: a bomb with t frames on its fuse stays where it is for
   * t-1 updates, with t-k left after k of them, and goes off on update t.
   * A freshly spawned bomb therefore explodes on its 87th update.
   */
  lemma {:induction false} BombTimer(setColl: SetColl, w: World, p: Proj, k: nat)
    requires KeepsValid(setColl) && WorldOk(w) && WellFormed(p) && IsBomb(p.ptype) && p.timer >= 1
    ensures var f := Fuse(setColl, w, p, k);
      (f.Some? <==> k < p.timer) && (f.Some? ==> f.value == p.(timer := p.timer - k))
    decreases k
  {
    if k > 0 {
      BombTimer(setColl, w, p, k - 1);
    }
  }

  /** A bomb whose fuse is at one or less explodes on this update and is removed in the same update. */
  lemma BombExplodesAtZero(setColl: SetColl, w: World, p: Proj)
    requires KeepsValid(setColl) && WorldOk(w) && WellFormed(p) && IsBomb(p.ptype) && p.active && p.timer <= 1
    ensures Step(setColl, w, p) == StepOut(Exploded(setColl, w, p.(timer := 0)), None)
  {
  }

  /** The record a flying projectile keeps through k updates of movement and lifetime alone. */
  function Flight(p: Proj, k: nat): Option<Proj>
    requires WellFormed(p)
    decreases k
  {
    if k == 0 then Some(p)
    else
      var f := Flight(p, k - 1);
      if f.None? || !WellFormed(f.value) then None else Aged(f.value)
  }

  /**
   * Movement and lifetime: a projectile with lifetime L >= 1 lasts L-1
   * updates, having moved k times its velocity after k of them, and is gone
   * on update L; with lifetime 0 it never expires.
   */
  lemma {:induction false} FlightPath(p: Proj, k: nat)
    requires WellFormed(p)
    ensures var f := Flight(p, k);
      (f.Some? <==> p.lifetime == 0 || k < p.lifetime) &&
      (f.Some? ==> f.value == p.(pos := Vec2(p.pos.x + k * p.vel.x, p.pos.y + k * p.vel.y),
                                 lifetime := if p.lifetime == 0 then 0 else p.lifetime - k))
    decreases k
  {
    if k > 0 {
      FlightPath(p, k - 1);
    }
  }

  // ---------------------------------------------------------------------
  // The bomb blast on a room whose room_set_collision writes one cell
  // ---------------------------------------------------------------------

  /** One natural room_set_collision: write the cell if it lies in the loaded room, else do nothing. */
  function SetCell(g: Grid, x: int, y: int, c: int): Grid
  {
    if GridValid(g) && InRoom(g, x, y) then
      CellIndexInRange(x, y, g.width, g.height);
      g.(collision := g.collision[y * g.width + x := c])
    else g
  }

  lemma SetCellKeepsValid()
    ensures KeepsValid(SetCell)
  {
    forall g, x, y, c | GridValid(g)
      ensures GridValid(SetCell(g, x, y, c))
    {
      if InRoom(g, x, y) {
        CellIndexInRange(x, y, g.width, g.height);
      }
    }
  }

  /** Two cells of a room with different coordinates have different row-major indices. */
  lemma CellIndexInjective(x1: int, y1: int, x2: int, y2: int, w: int)
    requires 0 <= x1 < w && 0 <= x2 < w && 0 <= y1 && 0 <= y2
    requires y1 * w + x1 == y2 * w + x2
    ensures x1 == x2 && y1 == y2
  {
    if y1 < y2 {
      assert (y1 + 1) * w == y1 * w + w;
      MulMono(y1 + 1, y2, w);
    } else if y2 < y1 {
      assert (y2 + 1) * w == y2 * w + w;
      MulMono(y2 + 1, y1, w);
    }
  }

  /** SetCell changes the collision code of its own cell, in the room, and of no other. */
  lemma SetCellReads(g: Grid, x: int, y: int, c: int, x2: int, y2: int)
    requires GridValid(g)
    ensures CollisionAt(SetCell(g, x, y, c), x2, y2) ==
      if x2 == x && y2 == y && InRoom(g, x, y) then c else CollisionAt(g, x2, y2)
  {
    SetCellKeepsValid();
    if InRoom(g, x, y) && InRoom(g, x2, y2) {
      CellIndexInRange(x, y, g.width, g.height);
      CellIndexInRange(x2, y2, g.width, g.height);
      if y2 * g.width + x2 == y * g.width + x {
        CellIndexInjective(x, y, x2, y2, g.width);
      }
    }
  }

  /** The blast along one row turns exactly its bomb blocks between tx and x1 into air. */
  lemma {:induction false} BlastRowCells(g: Grid, ty: int, tx: int, x1: int, x: int, y: int)
    requires GridValid(g)
    ensures (SetCellKeepsValid(); CollisionAt(BlastRow(SetCell, g, ty, tx, x1), x, y) ==
      if y == ty && tx <= x <= x1 && CodeAt(g, x, y) == COLL_SPECIAL_BOMB then COLL_AIR else CollisionAt(g, x, y))
    decreases x1 - tx + 1
  {
    SetCellKeepsValid();
    if tx <= x1 {
      var g1 := BlastCell(SetCell, g, tx, ty);
      BlastRowCells(g1, ty, tx + 1, x1, x, y);
      SetCellReads(g, tx, ty, COLL_AIR, x, y);
    }
  }

  /** The blast over rows y0..y1 turns exactly the bomb blocks of the rectangle into air. */
  lemma {:induction false} BlastRowsCells(g: Grid, y0: int, y1: int, x0: int, x1: int, x: int, y: int)
    requires GridValid(g)
    ensures (SetCellKeepsValid(); CollisionAt(BlastRows(SetCell, g, y0, y1, x0, x1), x, y) ==
      if y0 <= y <= y1 && x0 <= x <= x1 && CodeAt(g, x, y) == COLL_SPECIAL_BOMB then COLL_AIR else CollisionAt(g, x, y))
    decreases y1 - y0 + 1
  {
    SetCellKeepsValid();
    if y0 <= y1 {
      var g1 := BlastRow(SetCell, g, y0, x0, x1);
      BlastRowsCells(g1, y0 + 1, y1, x0, x1, x, y);
      BlastRowCells(g, y0, x0, x1, x, y);
    }
  }

  /**
   * bomb_explode on a room whose room_set_collision writes one cell: every
   * bomb block within the blast radius of the bomb's tile becomes air, and
   * no other cell changes. A bomb's radius is one tile, a power bomb's two.
   */
  lemma ExplosionBreaksBombBlocks(w: World, p: Proj, x: int, y: int)
    requires WorldOk(w) && WellFormed(p) && IsBomb(p.ptype)
    ensures (SetCellKeepsValid();
      var cx, cy := PixelToTile(FxToInt(p.pos.x)), PixelToTile(FxToInt(p.pos.y));
      var rad := if p.ptype == PROJ_BOMB then 1 else 2;
      CollisionAt(Exploded(SetCell, w, p).grid, x, y) ==
        if Abs(x - cx) <= rad && Abs(y - cy) <= rad && CodeAt(w.grid, x, y) == COLL_SPECIAL_BOMB
        then COLL_AIR else CollisionAt(w.grid, x, y))
  {
    SetCellKeepsValid();
    var def := PROJ_DEFS[p.ptype];
    assert BlastRadius(def) == if p.ptype == PROJ_BOMB then 1 else 2;
    var cx, cy, rad := PixelToTile(FxToInt(p.pos.x)), PixelToTile(FxToInt(p.pos.y)), BlastRadius(def);
    BlastRowsCells(w.grid, cy - rad, cy + rad, cx - rad, cx + rad, x, y);
  }
}
