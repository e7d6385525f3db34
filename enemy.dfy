/**
 * Enemies (source/enemy.c): a pool of at most sixteen records kept packed
 * at the front of a fixed array, the per-type AI routines, contact damage
 * against the player and a four-frame animation cycle.
 *
 * An enemy record is a value stored in the pool's array; each AI routine is
 * a function from the record before to the record after. The pool is a class
 * whose methods change the array and the active count as the C functions do.
 */
module Enemy {
  import opened CInt
  import opened SmTypes
  import opened PhysicsConstants
  import opened Physics
  import opened Room
  import opened FixedMath
  import Player

  const ENEMY_NONE: nat := 0
  const ENEMY_ZOOMER: nat := 1
  const ENEMY_GEEMER: nat := 2
  const ENEMY_WAVER: nat := 3
  const ENEMY_RINKA: nat := 4
  const ENEMY_SIDEHOPPER: nat := 5
  const ENEMY_KI_HUNTER: nat := 6
  const ENEMY_ZEBESIAN: nat := 7
  const ENEMY_TYPE_COUNT: nat := 8

  const RINKA_LIFETIME: int := 300
  const SIDEHOPPER_WAIT: int := 60
  const ANIM_PERIOD: int := 8

  /** One row of enemy_defs. */
  datatype EnemyDef = EnemyDef(hp: int, damage: int, speed: int, halfW: int, halfH: int)

  const ENEMY_DEFS: seq<EnemyDef> := [
    EnemyDef(0, 0, 0, 0, 0),
    EnemyDef(20, 8, 0x8000, 6 * FX_ONE, 6 * FX_ONE),
    EnemyDef(60, 20, 0xC000, 6 * FX_ONE, 6 * FX_ONE),
    EnemyDef(40, 16, 0x1_0000, 6 * FX_ONE, 6 * FX_ONE),
    EnemyDef(1, 16, 0x1_8000, 4 * FX_ONE, 4 * FX_ONE),
    EnemyDef(200, 40, 0x1_8000, 8 * FX_ONE, 12 * FX_ONE),
    EnemyDef(600, 48, 0x1_0000, 8 * FX_ONE, 8 * FX_ONE),
    EnemyDef(400, 32, 0x1_0000, 6 * FX_ONE, 10 * FX_ONE)]

  /** The Enemy struct. */
  datatype EnemyRec = EnemyRec(
    etype: nat, body: Body, facing: int, hp: int, hpMax: int, damageContact: int,
    aiTimer: int, aiState: int, animFrame: int, animTimer: int, active: bool)

  const ZERO_BODY: Body := Body(Vec2(0, 0), Vec2(0, 0), Vec2(0, 0), Aabb(0, 0), ENV_AIR, NO_CONTACT)

  /** A slot after memset(0). */
  const ZERO_ENEMY: EnemyRec := EnemyRec(0, ZERO_BODY, 0, 0, 0, 0, 0, 0, 0, 0, false)

  // ---------------------------------------------------------------------
  // AI routines
  // ---------------------------------------------------------------------

  function Flip(facing: int): int { if facing == DIR_RIGHT then DIR_LEFT else DIR_RIGHT }

  /** The signed speed of the facing direction. */
  function FacingSpeed(facing: int, speed: int): int { if facing == DIR_RIGHT then speed else -speed }

  /** The tile column just beyond the leading foot. */
  function LookTileX(b: Body, facing: int): int
  {
    PixelToTile(FxToInt(if facing == DIR_RIGHT then b.pos.x + b.hitbox.halfW + FX_ONE
                        else b.pos.x - b.hitbox.halfW - FX_ONE))
  }

  /** The tile row under the feet. */
  function FootTileY(b: Body): int { PixelToTile(FxToInt(b.pos.y + b.hitbox.halfH)) }

  /** The facing after the wall check of ai_crawler: a right wall wins over a left one. */
  function WallFacing(c: Contact, facing: int): int
  {
    if c.onWallRight then DIR_LEFT else if c.onWallLeft then DIR_RIGHT else facing
  }

  /** ai_crawler: walk, turn at walls, and turn at a floor edge. */
  function CrawlerStep(g: Grid, e: EnemyRec): (r: EnemyRec)
    requires GridValid(g) && e.etype < ENEMY_TYPE_COUNT
    ensures r == e.(body := r.body, facing := r.facing)
    ensures r.body == Updated(g, e.body.(vel := e.body.vel.(x := FacingSpeed(e.facing, ENEMY_DEFS[e.etype].speed))))
    ensures r.facing != e.facing ==> r.facing == DIR_LEFT || r.facing == DIR_RIGHT
    ensures r.facing != e.facing ==> r.body.contact.onWallLeft || r.body.contact.onWallRight || r.body.contact.onGround
  {
    var speed := ENEMY_DEFS[e.etype].speed;
    var b := Updated(g, e.body.(vel := e.body.vel.(x := FacingSpeed(e.facing, speed))));
    var f1 := WallFacing(b.contact, e.facing);
    var f2 := if b.contact.onGround && CollisionAt(g, LookTileX(b, f1), FootTileY(b)) != COLL_SOLID
              then Flip(f1) else f1;
    e.(body := b, facing := f2)
  }

  /** ai_waver: fly sideways on a sine wave, without gravity, turning near the room's side edges. */
  function WaverStep(g: Grid, e: EnemyRec): (r: EnemyRec)
    requires e.etype < ENEMY_TYPE_COUNT && e.aiTimer >= 0
    ensures r == e.(aiTimer := r.aiTimer, body := r.body, facing := r.facing)
    ensures r.aiTimer == (e.aiTimer + 1) % 0x1_0000
    ensures r.body.pos == Vec2(e.body.pos.x + r.body.vel.x, e.body.pos.y + r.body.vel.y)
    ensures Abs(r.body.vel.x) == ENEMY_DEFS[e.etype].speed
    ensures r.body.contact == e.body.contact && r.body.hitbox == e.body.hitbox
  {
    var t := ToUint16(e.aiTimer + 1);
    var v := Vec2(FacingSpeed(e.facing, ENEMY_DEFS[e.etype].speed), FxSin(t % 256) / 2);
    var pos := Vec2(e.body.pos.x + v.x, e.body.pos.y + v.y);
    var px := FxToInt(pos.x);
    var roomW := g.width * TILE_SIZE;
    e.(aiTimer := t, body := e.body.(vel := v, pos := pos),
       facing := if px <= TILE_SIZE || px >= roomW - TILE_SIZE then Flip(e.facing) else e.facing)
  }

  /** The speed toward a target on one axis: its sign times speed. */
  function Toward(delta: int, speed: int): int
  {
    if delta > 0 then speed else if delta < 0 then -speed else 0
  }

  /** ai_rinka: home on the player at constant speed, without collision, and expire after 300 frames. */
  function RinkaStep(target: Vec2, e: EnemyRec): (r: EnemyRec)
    requires e.etype < ENEMY_TYPE_COUNT
    ensures r == e.(body := r.body, aiTimer := r.aiTimer, active := r.active)
    ensures r.body.pos == Vec2(e.body.pos.x + r.body.vel.x, e.body.pos.y + r.body.vel.y)
    ensures r.body.contact == e.body.contact && r.body.hitbox == e.body.hitbox
    ensures (target.x > e.body.pos.x ==> r.body.vel.x >= 0) && (target.x < e.body.pos.x ==> r.body.vel.x <= 0)
    ensures (target.y > e.body.pos.y ==> r.body.vel.y >= 0) && (target.y < e.body.pos.y ==> r.body.vel.y <= 0)
    ensures (target.x == e.body.pos.x ==> r.body.vel.x == 0) && (target.y == e.body.pos.y ==> r.body.vel.y == 0)
    ensures r.active ==> e.active
  {
    var speed := ENEMY_DEFS[e.etype].speed;
    var v := Vec2(Toward(target.x - e.body.pos.x, speed), Toward(target.y - e.body.pos.y, speed));
    var t := ToUint16(e.aiTimer + 1);
    e.(body := e.body.(vel := v, pos := Vec2(e.body.pos.x + v.x, e.body.pos.y + v.y)),
       aiTimer := t, active := if t > RINKA_LIFETIME then false else e.active)
  }

  /** ai_sidehopper: wait on the ground for a second, then jump toward the player; landing restarts the wait. */
  function SidehopperStep(g: Grid, target: Vec2, e: EnemyRec): (r: EnemyRec)
    requires GridValid(g) && e.etype < ENEMY_TYPE_COUNT
    ensures r == e.(body := r.body, aiState := r.aiState, aiTimer := r.aiTimer, facing := r.facing)
    ensures e.aiState != 0 && e.aiState != 1 ==> r == e
    ensures e.aiState == 0 && r.aiState == 1 ==> r.aiTimer == 0 && r.body.vel.y < 0
    ensures e.aiState == 1 && r.body.contact.onGround ==> r.aiState == 0 && r.body.vel.x == 0
    ensures r.facing != e.facing ==> e.aiState == 0 && r.aiState == 1
  {
    var speed := ENEMY_DEFS[e.etype].speed;
    if e.aiState == 0 then
      var b := Updated(g, e.body.(vel := e.body.vel.(x := 0)));
      var t := ToUint16(e.aiTimer + 1);
      if t > SIDEHOPPER_WAIT then
        var right := target.x > b.pos.x;
        e.(aiState := 1, aiTimer := 0,
           facing := if right then DIR_RIGHT else DIR_LEFT,
           body := b.(vel := Vec2(if right then speed else -speed, -(JUMP_VEL_NORMAL / 2))))
      else e.(body := b, aiTimer := t)
    else if e.aiState == 1 then
      var b := Updated(g, e.body);
      if b.contact.onGround then e.(body := b.(vel := b.vel.(x := 0)), aiState := 0, aiTimer := 0)
      else e.(body := b)
    else e
  }

  /** ai_stub: physics only. */
  function StubStep(g: Grid, e: EnemyRec): (r: EnemyRec)
    requires GridValid(g)
    ensures r == e.(body := r.body)
  {
    e.(body := Updated(g, e.body))
  }

  /** The ai_fns dispatch by type. */
  function AiStep(g: Grid, target: Vec2, e: EnemyRec): (r: EnemyRec)
    requires GridValid(g) && e.etype < ENEMY_TYPE_COUNT && e.aiTimer >= 0
    ensures r.etype == e.etype && r.hp == e.hp && r.hpMax == e.hpMax && r.damageContact == e.damageContact
    ensures r.animFrame == e.animFrame && r.animTimer == e.animTimer
    ensures r.active ==> e.active
    ensures r.active != e.active ==> e.etype == ENEMY_RINKA
    ensures r.aiState != e.aiState ==> e.etype == ENEMY_SIDEHOPPER
    ensures r.aiTimer >= 0
  {
    if e.etype == ENEMY_ZOOMER || e.etype == ENEMY_GEEMER then CrawlerStep(g, e)
    else if e.etype == ENEMY_WAVER then WaverStep(g, e)
    else if e.etype == ENEMY_RINKA then RinkaStep(target, e)
    else if e.etype == ENEMY_SIDEHOPPER then SidehopperStep(g, target, e)
    else StubStep(g, e)
  }

  /** The animation counter of enemy_update_all: the frame advances (mod 4) on every eighth update. */
  function AnimStep(e: EnemyRec): EnemyRec
    requires e.animTimer >= 0
  {
    var t := ToUint16(e.animTimer + 1);
    if t >= ANIM_PERIOD then e.(animTimer := 0, animFrame := (e.animFrame + 1) % 4) else e.(animTimer := t)
  }

  /** enemy_aabb_overlap, on two bodies. */
  predicate Overlap(a: Body, b: Body)
  {
    BoxesOverlap(a.pos, a.hitbox, b.pos, b.hitbox)
  }

  /** A record a pool may hold: a known type and non-negative counters. */
  predicate WellFormed(e: EnemyRec)
  {
    e.etype < ENEMY_TYPE_COUNT && e.aiTimer >= 0 && e.animTimer >= 0
  }

  /** What one enemy_update_all pass does to an active enemy: its AI, then its animation counter. */
  function Processed(g: Grid, target: Vec2, e: EnemyRec): EnemyRec
    requires GridValid(g) && WellFormed(e)
  {
    AnimStep(AiStep(g, target, e))
  }

  /** The contact-damage check for one enemy, on the player as it is when the enemy is reached. */
  function ContactHit(g: Grid, target: Vec2, e: EnemyRec, p: Player.PlayerData): Player.PlayerData
    requires GridValid(g) && WellFormed(e)
  {
    if !e.active then p
    else
      var a := AiStep(g, target, e);
      if a.active && a.damageContact > 0 && p.alive && p.invulnTimer == 0 && Overlap(a.body, p.body)
      then Player.DamagedFrom(p, a.damageContact, a.body.pos.x)
      else p
  }

  /** enemy_damage on one record: hp drops with int16 wrap-around, and at hp <= 0 the enemy is only marked inactive. */
  function DamagedRec(e: EnemyRec, damage: int): (r: EnemyRec)
    ensures r.hp == ToInt16(e.hp - damage) && r.active == (e.active && r.hp > 0)
    ensures r == e.(hp := r.hp, active := r.active)
  {
    var hp := ToInt16(e.hp - damage);
    e.(hp := hp, active := if hp <= 0 then false else e.active)
  }

  /** enemy_spawn's new record. */
  function Spawned(etype: nat, x: int, y: int): EnemyRec
    requires etype < ENEMY_TYPE_COUNT
  {
    var def := ENEMY_DEFS[etype];
    ZERO_ENEMY.(etype := etype, active := true, hp := def.hp, hpMax := def.hp,
                damageContact := def.damage, facing := DIR_LEFT,
                body := ZERO_BODY.(pos := Vec2(x, y), hitbox := Aabb(def.halfW, def.halfH), env := ENV_AIR))
  }

  /** enemy_remove on the array: the last active record moves into slot i and its old slot is zeroed. */
  function SwapRemoved(s: seq<EnemyRec>, n: int, i: int): (r: seq<EnemyRec>)
    requires 0 <= i < n <= |s|
    ensures |r| == |s|
  {
    if i < n - 1 then s[i := s[n - 1]][n - 1 := ZERO_ENEMY] else s[n - 1 := ZERO_ENEMY]
  }

  // ---------------------------------------------------------------------
  // A whole update pass, as functions of the starting pool
  // ---------------------------------------------------------------------

  predicate AllWellFormed(s: seq<EnemyRec>) { forall j :: 0 <= j < |s| ==> WellFormed(s[j]) }

  /** The records one pass leaves for the enemies of s: the processed active ones, in some order. */
  ghost function ProcessAll(g: Grid, target: Vec2, s: seq<EnemyRec>): multiset<EnemyRec>
    requires GridValid(g) && AllWellFormed(s)
    decreases |s|
  {
    if |s| == 0 then multiset{}
    else (if s[0].active then multiset{Processed(g, target, s[0])} else multiset{}) + ProcessAll(g, target, s[1..])
  }

  function NumActive(s: seq<EnemyRec>): (r: nat)
    ensures r <= |s|
    decreases |s|
  {
    if |s| == 0 then 0 else (if s[0].active then 1 else 0) + NumActive(s[1..])
  }

  /** The player after the contact checks of the enemies of s, the last one checked first. */
  function Contacts(g: Grid, target: Vec2, s: seq<EnemyRec>, p: Player.PlayerData): Player.PlayerData
    requires GridValid(g) && AllWellFormed(s)
    decreases |s|
  {
    if |s| == 0 then p else ContactHit(g, target, s[0], Contacts(g, target, s[1..], p))
  }

  // ---------------------------------------------------------------------
  // The pool
  // ---------------------------------------------------------------------

  class Pool {
    const pool: array<EnemyRec>
    var activeCount: int

    /** The active records are packed in slots 0..activeCount-1; every other slot is zeroed. */
    predicate Valid()
      reads this, pool
    {
      pool.Length == MAX_ENEMIES && 0 <= activeCount <= MAX_ENEMIES &&
      (forall i :: activeCount <= i < MAX_ENEMIES ==> pool[i] == ZERO_ENEMY) &&
      AllWellFormed(pool[..])
    }

    /** enemy_pool_init. */
    constructor ()
      ensures Valid() && activeCount == 0
    {
      pool := new EnemyRec[MAX_ENEMIES](_ => ZERO_ENEMY);
      activeCount := 0;
    }

    /** enemy_spawn: -1 for ENEMY_NONE, an unknown type or a full pool; otherwise the new slot's index. */
    method Spawn(etype: nat, x: int, y: int) returns (idx: int)
      requires Valid()
      modifies this, pool
      ensures Valid()
      ensures idx == -1 <==> etype == ENEMY_NONE || etype >= ENEMY_TYPE_COUNT || old(activeCount) >= MAX_ENEMIES
      ensures etype == ENEMY_NONE || etype >= ENEMY_TYPE_COUNT || old(activeCount) >= MAX_ENEMIES ==>
        idx == -1 && activeCount == old(activeCount) && pool[..] == old(pool[..])
      ensures idx != -1 ==>
        etype != ENEMY_NONE && etype < ENEMY_TYPE_COUNT && idx == old(activeCount) &&
        activeCount == idx + 1 && pool[..] == old(pool[..])[idx := Spawned(etype, x, y)]
    {
      if etype == ENEMY_NONE || etype >= ENEMY_TYPE_COUNT {
        return -1;
      }
      if activeCount >= MAX_ENEMIES {
        return -1;
      }
      pool[activeCount] := Spawned(etype, x, y);
      idx := activeCount;
      activeCount := activeCount + 1;
    }

    /** enemy_remove: an index outside the active range is ignored. */
    method Remove(index: int)
      requires Valid()
      modifies this, pool
      ensures Valid()
      ensures !(0 <= index < old(activeCount)) ==> activeCount == old(activeCount) && pool[..] == old(pool[..])
      ensures 0 <= index < old(activeCount) ==>
        activeCount == old(activeCount) - 1 && pool[..] == SwapRemoved(old(pool[..]), old(activeCount), index)
    {
      if index < 0 || index >= activeCount {
        return;
      }
      activeCount := activeCount - 1;
      if index < activeCount {
        pool[index] := pool[activeCount];
      }
      pool[activeCount] := ZERO_ENEMY;
    }

    /** enemy_clear_all. */
    method ClearAll()
      requires Valid()
      modifies this, pool
      ensures Valid() && activeCount == 0
    {
      forall i | 0 <= i < MAX_ENEMIES {
        pool[i] := ZERO_ENEMY;
      }
      activeCount := 0;
    }

    /** enemy_get_count. */
    method GetCount() returns (n: int)
      requires Valid()
      ensures 0 <= n <= MAX_ENEMIES && n == activeCount
    {
      n := activeCount;
    }

    /** enemy_get: the record in an active slot, or nothing (NULL) for any other index. */
    method Get(index: int) returns (r: Option<EnemyRec>)
      requires Valid()
      ensures r.None? <==> !(0 <= index < activeCount)
      ensures r.Some? ==> r.value == pool[index]
    {
      if index < 0 || index >= activeCount {
        return None;
      }
      r := Some(pool[index]);
    }

    /** enemy_damage: a bad index is ignored. */
    method Damage(index: int, damage: int)
      requires Valid() && IsInt16(damage)
      modifies pool
      ensures Valid()
      ensures !(0 <= index < activeCount) ==> pool[..] == old(pool[..])
      ensures 0 <= index < activeCount ==> pool[..] == old(pool[..])[index := DamagedRec(old(pool[index]), damage)]
    {
      if index < 0 || index >= activeCount {
        return;
      }
      var e := pool[index];
      var hp := ToInt16(e.hp - damage);
      pool[index] := e.(hp := hp, active := if hp <= 0 then false else e.active);
    }

    /** The body of enemy_update_all for one active enemy: AI, contact damage, animation. */
    method ProcessActive(g: Grid, target: Vec2, i: int, player: Player.Player)
      requires Valid() && GridValid(g) && 0 <= i < activeCount && pool[i].active
      modifies pool, player
      ensures Valid()
      ensures pool[..] == old(pool[..])[i := Processed(g, target, old(pool[i]))]
      ensures player.body.pos == old(player.body.pos)
      ensures player.Data() == ContactHit(g, target, old(pool[i]), old(player.Data()))
    {
      assert WellFormed(pool[i]);
      var e := AiStep(g, target, pool[i]);
      ContactCheck(g, target, pool[i], e, player);
      pool[i] := AnimStep(e);
    }

    /** The contact test of enemy_update_all for an active enemy after its AI step e. */
    method ContactCheck(g: Grid, target: Vec2, e0: EnemyRec, e: EnemyRec, player: Player.Player)
      requires GridValid(g) && WellFormed(e0) && e0.active && e == AiStep(g, target, e0)
      modifies player
      ensures player.body.pos == old(player.body.pos)
      ensures player.Data() == ContactHit(g, target, e0, old(player.Data()))
    {
      if e.active && e.damageContact > 0 && player.alive && player.invulnTimer == 0 && Overlap(e.body, player.body) {
        player.ApplyDamageFrom(e.damageContact, e.body.pos.x);
      }
    }

    /** The state of the update pass once slots i+1.. of the starting records s0 are done. */
    ghost predicate PassDone(g: Grid, target: Vec2, s0: seq<EnemyRec>, p0: Player.PlayerData, i: int, player: Player.Player)
      reads this, pool, player
    {
      Valid() && PassState(g, target, s0, p0, i, pool[..], activeCount, player.Data(), player.body.pos)
    }

    /** A pass step at an inactive slot: the record is swap-removed. */
    method PassRemove(g: Grid, target: Vec2, ghost s0: seq<EnemyRec>, ghost p0: Player.PlayerData, i: int, player: Player.Player)
      requires PassDone(g, target, s0, p0, i, player) && 0 <= i && !pool[i].active
      modifies this, pool
      ensures PassDone(g, target, s0, p0, i - 1, player)
    {
      ghost var before, count := pool[..], activeCount;
      Remove(i);
      RemoveStep(g, target, s0, p0, i, before, count, player.Data(), player.body.pos);
    }

    /** A pass step at an active slot: AI, contact damage and animation. */
    method PassActive(g: Grid, target: Vec2, ghost s0: seq<EnemyRec>, ghost p0: Player.PlayerData, i: int, player: Player.Player)
      requires PassDone(g, target, s0, p0, i, player) && 0 <= i && pool[i].active
      modifies pool, player
      ensures PassDone(g, target, s0, p0, i - 1, player)
    {
      ghost var before, count, pd, pos := pool[..], activeCount, player.Data(), player.body.pos;
      ProcessActive(g, target, i, player);
      ActiveStep(g, target, s0, p0, i, before, count, pd, pos);
    }

    /**
     * enemy_update_all: from the last active slot down to slot 0, remove an
     * inactive enemy, or run an active one's AI, its contact check against
     * the player and its animation counter.
     */
    method UpdateAll(room: RoomData, player: Player.Player)
      requires Valid() && room.Valid()
      modifies this, pool, player
      ensures Valid()
      ensures multiset(pool[..activeCount]) ==
        ProcessAll(room.View(), old(player.body.pos), old(pool[..activeCount]))
      ensures activeCount == NumActive(old(pool[..activeCount]))
      ensures player.Data() ==
        Contacts(room.View(), old(player.body.pos), old(pool[..activeCount]), old(player.Data()))
    {
      ghost var s0, p0 := pool[..activeCount], player.Data();
      var g := room.View();
      var target := player.body.pos;
      var i := activeCount - 1;
      assert s0[activeCount..] == [];
      while i >= 0
        invariant PassDone(g, target, s0, p0, i, player)
        decreases i
      {
        if !pool[i].active {
          PassRemove(g, target, s0, p0, i, player);
        } else {
          PassActive(g, target, s0, p0, i, player);
        }
        i := i - 1;
      }
      assert s0[0..] == s0;
    }
  }

  /**
   * The update pass, on values: slots 0..i of the pool still hold the
   * starting records, slots i+1..count-1 hold the processed survivors of
   * the starting records above i, and the player has taken their contacts.
   */
  ghost predicate PassState(g: Grid, target: Vec2, s0: seq<EnemyRec>, p0: Player.PlayerData, i: int,
                            pool: seq<EnemyRec>, count: int, pd: Player.PlayerData, pos: Vec2)
  {
    GridValid(g) && AllWellFormed(s0) && -1 <= i < count <= |s0| && count <= |pool| &&
    pool[..i + 1] == s0[..i + 1] &&
    multiset(pool[i + 1..count]) == ProcessAll(g, target, s0[i + 1..]) &&
    count - (i + 1) == NumActive(s0[i + 1..]) &&
    pd == Contacts(g, target, s0[i + 1..], p0) &&
    pos == target
  }

  /** Removing the inactive record at slot i moves the pass one slot down. */
  lemma RemoveStep(g: Grid, target: Vec2, s0: seq<EnemyRec>, p0: Player.PlayerData, i: int,
                   before: seq<EnemyRec>, count: int, pd: Player.PlayerData, pos: Vec2)
    requires PassState(g, target, s0, p0, i, before, count, pd, pos) && 0 <= i && !before[i].active
    ensures PassState(g, target, s0, p0, i - 1, SwapRemoved(before, count, i), count - 1, pd, pos)
  {
    UnfoldPass(g, target, s0, i, p0);
    assert before[i] == s0[i];
    assert before[..i] == s0[..i] by {
      assert before[..i] == before[..i + 1][..i];
      assert s0[..i] == s0[..i + 1][..i];
    }
    RemoveKeepsRegions(before, count, i);
  }

  /** Processing the active record at slot i in place moves the pass one slot down. */
  lemma ActiveStep(g: Grid, target: Vec2, s0: seq<EnemyRec>, p0: Player.PlayerData, i: int,
                   before: seq<EnemyRec>, count: int, pd: Player.PlayerData, pos: Vec2)
    requires PassState(g, target, s0, p0, i, before, count, pd, pos) && 0 <= i && before[i].active
    ensures PassState(g, target, s0, p0, i - 1, before[i := Processed(g, target, before[i])], count,
                      ContactHit(g, target, before[i], pd), pos)
  {
    UnfoldPass(g, target, s0, i, p0);
    assert before[i] == s0[i];
    assert before[..i] == s0[..i] by {
      assert before[..i] == before[..i + 1][..i];
      assert s0[..i] == s0[..i + 1][..i];
    }
    UpdateKeepsRegions(before, i, count, Processed(g, target, s0[i]));
  }

  /** One more slot of the pass, taken from the back: how the pass functions unfold at slot i. */
  lemma UnfoldPass(g: Grid, target: Vec2, s: seq<EnemyRec>, i: int, p: Player.PlayerData)
    requires GridValid(g) && AllWellFormed(s) && 0 <= i < |s|
    ensures ProcessAll(g, target, s[i..]) ==
      (if s[i].active then multiset{Processed(g, target, s[i])} else multiset{}) + ProcessAll(g, target, s[i + 1..])
    ensures NumActive(s[i..]) == (if s[i].active then 1 else 0) + NumActive(s[i + 1..])
    ensures Contacts(g, target, s[i..], p) == ContactHit(g, target, s[i], Contacts(g, target, s[i + 1..], p))
  {
    assert s[i..][1..] == s[i + 1..];
  }

  /** The bookkeeping of one in-place update inside the update pass. */
  lemma UpdateKeepsRegions(s: seq<EnemyRec>, i: int, n: int, x: EnemyRec)
    requires 0 <= i < n <= |s|
    ensures s[i := x][..i] == s[..i]
    ensures s[i := x][i..n] == [x] + s[i + 1..n]
  {
  }

  /** The bookkeeping of one removal inside the update pass. */
  lemma RemoveKeepsRegions(s: seq<EnemyRec>, n: int, i: int)
    requires 0 <= i < n <= |s|
    ensures SwapRemoved(s, n, i)[..i] == s[..i]
    ensures multiset(SwapRemoved(s, n, i)[i..n - 1]) == multiset(s[i + 1..n])
  {
    var r := SwapRemoved(s, n, i);
    if i < n - 1 {
      assert r[i..n - 1] == [s[n - 1]] + s[i + 1..n - 1];
      assert s[i + 1..n] == s[i + 1..n - 1] + [s[n - 1]];
    }
  }

  // ---------------------------------------------------------------------
  // Properties
  // ---------------------------------------------------------------------

  /** A spawned record takes hp, contact damage and hitbox from its row of enemy_defs. */
  lemma SpawnUsesDefs(etype: nat, x: int, y: int)
    requires ENEMY_NONE < etype < ENEMY_TYPE_COUNT
    ensures var e := Spawned(etype, x, y);
      e.active && e.etype == etype && e.hp == e.hpMax == ENEMY_DEFS[etype].hp &&
      e.damageContact == ENEMY_DEFS[etype].damage && e.facing == DIR_LEFT &&
      e.body.pos == Vec2(x, y) && e.body.hitbox == Aabb(ENEMY_DEFS[etype].halfW, ENEMY_DEFS[etype].halfH) &&
      e.body.vel == Vec2(0, 0) && e.aiTimer == 0 && e.aiState == 0 && e.animFrame == 0
      && WellFormed(e)
  {
  }

  /**
   * Swap-remove keeps every other active record: the first n-1 slots hold
   * the records of the first n slots except slot i's, slot i receives the
   * former last record unless i was last, the vacated slot is zeroed, and
   * the slots past n are untouched.
   */
  lemma SwapRemoveKeepsOthers(s: seq<EnemyRec>, n: int, i: int)
    requires 0 <= i < n <= |s|
    ensures var r := SwapRemoved(s, n, i);
      multiset(r[..n - 1]) == multiset(s[..n]) - multiset{s[i]} &&
      (i < n - 1 ==> r[i] == s[n - 1]) &&
      r[n - 1] == ZERO_ENEMY &&
      (forall j :: 0 <= j < |s| && j != i && j != n - 1 ==> r[j] == s[j])
  {
    SwapRemoveMultiset(s, n, i);
  }

  lemma SwapRemoveMultiset(s: seq<EnemyRec>, n: int, i: int)
    requires 0 <= i < n <= |s|
    ensures multiset(SwapRemoved(s, n, i)[..n - 1]) == multiset(s[..n]) - multiset{s[i]}
  {
    var r := SwapRemoved(s, n, i);
    RemoveKeepsRegions(s, n, i);
    assert r[..n - 1] == r[..i] + r[i..n - 1];
    assert s[..n] == s[..i] + [s[i]] + s[i + 1..n];
  }

  /** Each pass leaves exactly as many records as there were active enemies. */
  lemma {:induction false} ProcessAllSize(g: Grid, target: Vec2, s: seq<EnemyRec>)
    requires GridValid(g) && AllWellFormed(s)
    ensures |ProcessAll(g, target, s)| == NumActive(s)
    decreases |s|
  {
    if |s| > 0 {
      ProcessAllSize(g, target, s[1..]);
    }
  }

  /** A Rinka expires on the update where its timer passes 300, and not before. */
  lemma RinkaExpires(target: Vec2, e: EnemyRec)
    requires e.etype == ENEMY_RINKA && 0 <= e.aiTimer < UINT16_LIMIT - 1
    ensures e.aiTimer >= RINKA_LIFETIME ==> !RinkaStep(target, e).active
    ensures e.aiTimer < RINKA_LIFETIME ==> RinkaStep(target, e).active == e.active
    ensures RinkaStep(target, e).aiTimer == e.aiTimer + 1
  {
  }

  /** The animation frame stays in 0..3 and advances exactly on the eighth step of its timer. */
  lemma AnimCycles(e: EnemyRec)
    requires 0 <= e.animFrame < 4 && 0 <= e.animTimer < ANIM_PERIOD
    ensures var a := AnimStep(e);
      0 <= a.animFrame < 4 && 0 <= a.animTimer < ANIM_PERIOD &&
      (e.animTimer == ANIM_PERIOD - 1 ==> a.animTimer == 0 && a.animFrame == (e.animFrame + 1) % 4) &&
      (e.animTimer < ANIM_PERIOD - 1 ==> a.animTimer == e.animTimer + 1 && a.animFrame == e.animFrame)
  {
  }

  /** AnimStep applied k times. */
  function AnimSteps(e: EnemyRec, k: nat): (r: EnemyRec)
    requires e.animTimer >= 0
    ensures r.animTimer >= 0
  {
    if k == 0 then e else AnimStep(AnimSteps(e, k - 1))
  }

  /** From a fresh counter the frame changes once every eight updates. */
  lemma {:induction false} AnimEightSteps(e: EnemyRec, k: nat)
    requires 0 <= e.animFrame < 4 && e.animTimer == 0 && k <= ANIM_PERIOD
    ensures AnimSteps(e, k).animTimer == k % ANIM_PERIOD
    ensures AnimSteps(e, k).animFrame == if k == ANIM_PERIOD then (e.animFrame + 1) % 4 else e.animFrame
  {
    if k > 0 {
      AnimEightSteps(e, k - 1);
    }
  }

  /** A crawler in the air keeps the physics body and turns only at a wall. */
  lemma CrawlerTurnsAtWalls(g: Grid, e: EnemyRec)
    requires GridValid(g) && e.etype < ENEMY_TYPE_COUNT
    ensures var r := CrawlerStep(g, e);
      (r.body.contact.onWallRight && !r.body.contact.onGround ==> r.facing == DIR_LEFT) &&
      (r.body.contact.onWallLeft && !r.body.contact.onWallRight && !r.body.contact.onGround ==> r.facing == DIR_RIGHT) &&
      r.hp == e.hp && r.active == e.active
  {
  }

  /**
   * The floor-edge turn: a grounded crawler reverses its post-wall facing
   * exactly when the tile below and ahead of its leading foot is not solid;
   * an airborne one keeps the post-wall facing.
   */
  lemma CrawlerTurnsAtFloorEdge(g: Grid, e: EnemyRec)
    requires GridValid(g) && e.etype < ENEMY_TYPE_COUNT
    ensures var r := CrawlerStep(g, e);
      var f1 := WallFacing(r.body.contact, e.facing);
      && (r.body.contact.onGround ==>
            (r.facing != f1 <==> CollisionAt(g, LookTileX(r.body, f1), FootTileY(r.body)) != COLL_SOLID))
      && (r.body.contact.onGround && r.facing != f1 ==> r.facing == Flip(f1))
      && (!r.body.contact.onGround ==> r.facing == f1)
  {
  }

  /** A sidehopper jumps toward the player after waiting 60 frames, and its state stays 0 or 1. */
  lemma SidehopperJumpsTowardPlayer(g: Grid, target: Vec2, e: EnemyRec)
    requires GridValid(g) && e.etype == ENEMY_SIDEHOPPER && e.aiState == 0 && SIDEHOPPER_WAIT <= e.aiTimer < UINT16_LIMIT - 1
    ensures var r := SidehopperStep(g, target, e);
      r.aiState == 1 && r.aiTimer == 0 && r.body.vel.y == -(JUMP_VEL_NORMAL / 2) &&
      (target.x > r.body.pos.x ==> r.facing == DIR_RIGHT && r.body.vel.x > 0) &&
      (target.x <= r.body.pos.x ==> r.facing == DIR_LEFT && r.body.vel.x < 0)
  {
  }

  lemma SidehopperStates(g: Grid, target: Vec2, e: EnemyRec)
    requires GridValid(g) && e.etype == ENEMY_SIDEHOPPER && (e.aiState == 0 || e.aiState == 1)
    ensures SidehopperStep(g, target, e).aiState == 0 || SidehopperStep(g, target, e).aiState == 1
  {
  }

  /** The player is hit by at most one enemy per pass: the first hit closes the gate for the rest. */
  lemma {:induction false} AtMostOneHit(g: Grid, target: Vec2, s: seq<EnemyRec>, p: Player.PlayerData)
    requires GridValid(g) && AllWellFormed(s)
    ensures var q := Contacts(g, target, s, p);
      q == p || (p.alive && p.invulnTimer == 0 && q.invulnTimer == INVULN_FRAMES &&
                 exists j :: 0 <= j < |s| && q == Player.DamagedFrom(p, AiStep(g, target, s[j]).damageContact,
                                                                     AiStep(g, target, s[j]).body.pos.x))
    decreases |s|
  {
    if |s| > 0 {
      var rest := Contacts(g, target, s[1..], p);
      AtMostOneHit(g, target, s[1..], p);
      var q := ContactHit(g, target, s[0], rest);
      if rest == p {
        if q != p {
          var a := AiStep(g, target, s[0]);
          Player.KnockbackAwayFromSource(p, a.damageContact, a.body.pos.x);
          assert q == Player.DamagedFrom(p, a.damageContact, a.body.pos.x);
        }
      } else {
        assert q == rest;
        var j :| 0 <= j < |s[1..]| && rest == Player.DamagedFrom(p, AiStep(g, target, s[1..][j]).damageContact,
                                                                 AiStep(g, target, s[1..][j]).body.pos.x);
        assert s[1..][j] == s[j + 1];
      }
    }
  }

  /** An invulnerable or dead player is never touched by a pass. */
  lemma {:induction false} GateClosedNoContact(g: Grid, target: Vec2, s: seq<EnemyRec>, p: Player.PlayerData)
    requires GridValid(g) && AllWellFormed(s) && (!p.alive || p.invulnTimer > 0)
    ensures Contacts(g, target, s, p) == p
    decreases |s|
  {
    if |s| > 0 {
      GateClosedNoContact(g, target, s[1..], p);
    }
  }

  /**
   * A waver flies: it moves by its new velocity without gravity or
   * collision, sideways at its type's speed and vertically at half the sine
   * of its timer's low byte, and it turns around exactly when it ends up
   * within a tile of the room's left or right edge.
   */
  lemma WaverFlies(g: Grid, e: EnemyRec)
    requires e.etype < ENEMY_TYPE_COUNT && e.aiTimer >= 0
    ensures var r := WaverStep(g, e);
      && r.body == e.body.(vel := r.body.vel, pos := Vec2(e.body.pos.x + r.body.vel.x, e.body.pos.y + r.body.vel.y))
      && Abs(r.body.vel.x) == Abs(ENEMY_DEFS[e.etype].speed)
      && r.body.vel.y == FxSin(r.aiTimer % 256) / 2 && -FX_ONE / 2 <= r.body.vel.y <= FX_ONE / 2
      && r.aiTimer == (e.aiTimer + 1) % 0x10000
      && (r.facing != e.facing <==>
            FxToInt(r.body.pos.x) <= TILE_SIZE || FxToInt(r.body.pos.x) >= g.width * TILE_SIZE - TILE_SIZE)
      && r == e.(aiTimer := r.aiTimer, body := r.body, facing := r.facing)
  {
  }

  /**
   * enemy_aabb_overlap is the strict box test: it is symmetric, and boxes
   * whose edges only touch on one axis do not overlap.
   */
  lemma OverlapIsStrict(a: Body, b: Body)
    ensures Overlap(a, b) == Overlap(b, a)
    ensures Abs(a.pos.x - b.pos.x) == a.hitbox.halfW + b.hitbox.halfW ==> !Overlap(a, b)
    ensures Abs(a.pos.y - b.pos.y) == a.hitbox.halfH + b.hitbox.halfH ==> !Overlap(a, b)
    ensures a.pos == b.pos ==> (Overlap(a, b) <==> a.hitbox.halfW + b.hitbox.halfW > 0 && a.hitbox.halfH + b.hitbox.halfH > 0)
  {
    BoxesOverlapSymmetric(a.pos, a.hitbox, b.pos, b.hitbox);
  }
}
