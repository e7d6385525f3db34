/**
 * Bosses (source/boss.c): one boss record, three switch-based state
 * machines (Spore Spawn, Crocomire, Bomb Torizo) selected by type, and one
 * damage gate shared by all of them.
 *
 * Each update is a function from the boss record (and the player's body) to
 * the new record plus what the C code hands to other modules: the bullet it
 * asks projectile_spawn for, the camera_shake request, and whether it calls
 * player_damage. The class Boss holds g_boss and applies those functions.
 */
module Boss {
  import opened CInt
  import opened SmTypes
  import opened Physics
  import opened FixedMath
  import Player

  const BOSS_NONE: int := 0
  const BOSS_SPORE_SPAWN: int := 1
  const BOSS_CROCOMIRE: int := 2
  const BOSS_BOMB_TORIZO: int := 3
  const BOSS_TYPE_COUNT: int := 11

  const BOSS_HIT_INVULN: int := 10

  // Spore Spawn
  const SS_SWING: int := 0
  const SS_DESCEND: int := 1
  const SS_OPEN: int := 2
  const SS_VULNERABLE: int := 3
  const SS_CLOSE: int := 4
  const SS_ASCEND: int := 5
  const SS_DEATH: int := 6

  const SS_HP: int := 960
  const SS_CONTACT_DAMAGE: int := 40
  const SS_HITBOX_HALF_W: int := 12 * FX_ONE
  const SS_HITBOX_HALF_H: int := 16 * FX_ONE
  const SS_SWING_RADIUS: int := 48 * FX_ONE
  const SS_SWING_SPEED: int := 3
  const SS_SWING_FRAMES: int := 300
  const SS_DESCEND_SPEED: int := FX_ONE
  const SS_DESCEND_DIST: int := 64 * FX_ONE
  const SS_ASCEND_SPEED: int := FX_ONE
  const SS_OPEN_FRAMES: int := 30
  const SS_VULN_FRAMES: int := 120
  const SS_CLOSE_FRAMES: int := 30
  const SS_SPORE_INTERVAL: int := 45
  const SS_SPORE_SPEED: int := 2 * FX_ONE
  const SS_DEATH_FRAMES: int := 60

  // Crocomire
  const CROC_ADVANCE: int := 0
  const CROC_SPIT: int := 1
  const CROC_FLINCH: int := 2
  const CROC_LUNGE: int := 3
  const CROC_FALLING: int := 4
  const CROC_DEATH: int := 5

  const CROC_HP_DUMMY: int := 9999
  const CROC_CONTACT_DAMAGE: int := 30
  const CROC_HITBOX_HALF_W: int := 16 * FX_ONE
  const CROC_HITBOX_HALF_H: int := 20 * FX_ONE
  const CROC_ADVANCE_SPEED: int := 0x4000
  const CROC_PUSH_PER_HIT: int := 8 * FX_ONE
  const CROC_PUSH_THRESHOLD: int := 160 * FX_ONE
  const CROC_FLINCH_FRAMES: int := 20
  const CROC_SPIT_FRAMES: int := 40
  const CROC_SPIT_SPEED: int := 3 * FX_ONE
  const CROC_LUNGE_SPEED: int := 3 * FX_ONE
  const CROC_LUNGE_FRAMES: int := 15
  const CROC_ADVANCE_DURATION: int := 180
  const CROC_LUNGE_EVERY: int := 3
  const CROC_DEATH_FRAMES: int := 90
  const CROC_FALL_SPEED: int := 2 * FX_ONE
  const CROC_FALL_FRAMES: int := 45

  // Bomb Torizo
  const BT_STATUE: int := 0
  const BT_WAKE: int := 1
  const BT_IDLE: int := 2
  const BT_BOMB: int := 3
  const BT_LUNGE: int := 4
  const BT_FLINCH: int := 5
  const BT_DEATH: int := 6

  const BT_HP: int := 800
  const BT_CONTACT_DAMAGE: int := 20
  const BT_HITBOX_HALF_W: int := 12 * FX_ONE
  const BT_HITBOX_HALF_H: int := 20 * FX_ONE
  const BT_WAKE_DIST: int := 80 * FX_ONE
  const BT_WAKE_FRAMES: int := 60
  const BT_IDLE_MIN: int := 30
  const BT_IDLE_RANGE: int := 60
  const BT_BOMB_VX: int := 2 * FX_ONE
  const BT_BOMB_VY: int := -3 * FX_ONE
  const BT_BOMB_FRAMES: int := 30
  const BT_LUNGE_SPEED: int := 2 * FX_ONE
  const BT_LUNGE_FRAMES: int := 20
  const BT_FLINCH_FRAMES: int := 10
  const BT_DEATH_FRAMES: int := 60
  const BT_LUNGE_EVERY: int := 2

  /** The Boss struct. */
  datatype BossData = BossData(
    btype: int, body: Body, hp: int, hpMax: int, phase: int,
    aiState: int, aiTimer: int, aiCounter: int, damageContact: int,
    active: bool, vulnerable: bool, invulnTimer: int,
    anchorX: int, anchorY: int, paramA: int, paramB: int, subTimer: int, attackCount: int)

  /** An enemy bullet requested from projectile_spawn: position and velocity. */
  datatype Shot = Shot(x: int, y: int, vx: int, vy: int)

  /** A camera_shake(frames, magnitude) request. */
  datatype Shake = Shake(frames: int, magnitude: int)

  /** One boss_update: the new record, the bullet and shake it requested, and whether it hit the player. */
  datatype UpdateOut = UpdateOut(boss: BossData, shot: Option<Shot>, shake: Option<Shake>, hit: bool)

  /** One boss_damage: the new record and the shake requests in call order. */
  datatype DamageOut = DamageOut(boss: BossData, shakes: seq<Shake>)

  const ZERO_BODY: Body := Body(Vec2(0, 0), Vec2(0, 0), Vec2(0, 0), Aabb(0, 0), ENV_AIR, NO_CONTACT)

  /** g_boss after memset(0). */
  const ZERO_BOSS: BossData := BossData(0, ZERO_BODY, 0, 0, 0, 0, 0, 0, 0, false, false, 0, 0, 0, 0, 0, 0, 0)

  /** A type with an entry in the init and update tables. */
  predicate Implemented(t: int) { t == BOSS_SPORE_SPAWN || t == BOSS_CROCOMIRE || t == BOSS_BOMB_TORIZO }

  /** The uint16 `x++`. */
  function Inc(x: int): int { ToUint16(x + 1) }

  // ---------------------------------------------------------------------
  // Spawn
  // ---------------------------------------------------------------------

  function SporeSpawnInit(b: BossData): BossData
  {
    b.(hp := SS_HP, hpMax := SS_HP, damageContact := SS_CONTACT_DAMAGE,
       body := b.body.(hitbox := Aabb(SS_HITBOX_HALF_W, SS_HITBOX_HALF_H)),
       vulnerable := false, aiState := SS_SWING, aiTimer := 0, aiCounter := 0, paramA := 0, subTimer := 0,
       anchorX := b.body.pos.x, anchorY := b.body.pos.y)
  }

  function CrocomireInit(b: BossData): BossData
  {
    b.(hp := CROC_HP_DUMMY, hpMax := CROC_HP_DUMMY, damageContact := CROC_CONTACT_DAMAGE,
       body := b.body.(hitbox := Aabb(CROC_HITBOX_HALF_W, CROC_HITBOX_HALF_H)),
       vulnerable := true, aiState := CROC_ADVANCE, aiTimer := 0, aiCounter := 0, subTimer := 0, attackCount := 0,
       anchorX := b.body.pos.x + CROC_PUSH_THRESHOLD, anchorY := b.body.pos.y)
  }

  function BombTorizoInit(b: BossData): BossData
  {
    b.(hp := BT_HP, hpMax := BT_HP, damageContact := BT_CONTACT_DAMAGE,
       body := b.body.(hitbox := Aabb(BT_HITBOX_HALF_W, BT_HITBOX_HALF_H)),
       vulnerable := false, aiState := BT_STATUE, aiTimer := 0, aiCounter := 0, subTimer := 0, attackCount := 0,
       paramA := b.body.pos.x)
  }

  /** boss_spawn: NONE and unknown types leave the record alone; other types start from a zeroed record. */
  function Spawned(b: BossData, t: int, x: int, y: int): BossData
  {
    if t == BOSS_NONE || t < 0 || t >= BOSS_TYPE_COUNT then b
    else
      var z := ZERO_BOSS.(btype := t, active := true, body := ZERO_BODY.(pos := Vec2(x, y), env := ENV_AIR));
      if t == BOSS_SPORE_SPAWN then SporeSpawnInit(z)
      else if t == BOSS_CROCOMIRE then CrocomireInit(z)
      else if t == BOSS_BOMB_TORIZO then BombTorizoInit(z)
      else z
  }

  // ---------------------------------------------------------------------
  // The three state machines
  // ---------------------------------------------------------------------

  function TickInvuln(b: BossData): BossData
  {
    if b.invulnTimer > 0 then b.(invulnTimer := b.invulnTimer - 1) else b
  }

  lemma SwingOffsetFits(s: int)
    requires -FX_ONE <= s <= FX_ONE
    ensures MulFits(s, SS_SWING_RADIUS) && FxMul(s, SS_SWING_RADIUS) == 48 * s
  {
    assert s * SS_SWING_RADIUS == (48 * s) * FX_ONE;
  }

  /** The pendulum's x offset at swing angle paramA: the sine of its integer part (as a byte) times 48 px. */
  function SwingOffset(paramA: int): (r: int)
    ensures -SS_SWING_RADIUS <= r <= SS_SWING_RADIUS
  {
    var s := FxSin(FxToInt(paramA) % 256);
    SwingOffsetFits(s);
    FxMul(s, SS_SWING_RADIUS)
  }

  /** The sign split of the spore and spit aim: positive delta gives +speed, anything else -speed. */
  function Aim(delta: int, speed: int): int { if delta > 0 then speed else -speed }

  /**
   * The fields no state machine touches: type, energy, invulnerability,
   * anchor, contact damage and hitbox.
   */
  predicate AiFrame(b: BossData, a: BossData)
  {
    a.btype == b.btype && a.hp == b.hp && a.hpMax == b.hpMax && a.phase == b.phase &&
    a.invulnTimer == b.invulnTimer && a.anchorX == b.anchorX && a.anchorY == b.anchorY &&
    a.damageContact == b.damageContact && a.body.hitbox == b.body.hitbox
  }

  /** spore_spawn_update: swing, descend, open, fire spores while vulnerable, close, ascend; die after the countdown. */
  function SporeSpawnAi(b: BossData, target: Vec2): (o: UpdateOut)
    ensures !o.hit
    ensures AiFrame(b, o.boss)
    ensures o.boss.active ==> b.active
    ensures o.boss.aiState != b.aiState ==> o.boss.aiTimer == 0
    ensures o.boss.active != b.active ==> b.aiState == SS_DEATH
    ensures o.shake == None
    ensures o.shot.Some? ==> b.aiState == SS_VULNERABLE
    ensures o.boss.vulnerable != b.vulnerable ==> (o.boss.vulnerable <==> o.boss.aiState == SS_VULNERABLE)
  {
    var s := b.aiState;
    if s == SS_SWING then
      var pa := b.paramA + SS_SWING_SPEED * FX_ONE;
      var t := Inc(b.aiTimer);
      var b1 := b.(paramA := pa, aiTimer := t,
                   body := b.body.(pos := Vec2(b.anchorX + SwingOffset(pa), b.anchorY)));
      UpdateOut(if t >= SS_SWING_FRAMES
                then b1.(aiState := SS_DESCEND, aiTimer := 0, body := b1.body.(pos := b1.body.pos.(x := b.anchorX)))
                else b1, None, None, false)
    else if s == SS_DESCEND then
      var y := b.body.pos.y + SS_DESCEND_SPEED;
      var ty := b.anchorY + SS_DESCEND_DIST;
      UpdateOut(if y >= ty then b.(body := b.body.(pos := b.body.pos.(y := ty)), aiState := SS_OPEN, aiTimer := 0)
                else b.(body := b.body.(pos := b.body.pos.(y := y))), None, None, false)
    else if s == SS_OPEN then
      var t := Inc(b.aiTimer);
      UpdateOut(if t >= SS_OPEN_FRAMES then b.(aiState := SS_VULNERABLE, aiTimer := 0, vulnerable := true, subTimer := 0)
                else b.(aiTimer := t), None, None, false)
    else if s == SS_VULNERABLE then
      var t := Inc(b.aiTimer);
      var st := Inc(b.subTimer);
      var fire := st >= SS_SPORE_INTERVAL;
      var shot := if fire then Some(Shot(b.body.pos.x, b.body.pos.y,
                                         Aim(target.x - b.body.pos.x, SS_SPORE_SPEED),
                                         Aim(target.y - b.body.pos.y, SS_SPORE_SPEED / 2)))
                  else None;
      var b1 := b.(aiTimer := t, subTimer := if fire then 0 else st);
      UpdateOut(if t >= SS_VULN_FRAMES then b1.(aiState := SS_CLOSE, aiTimer := 0, vulnerable := false) else b1,
                shot, None, false)
    else if s == SS_CLOSE then
      var t := Inc(b.aiTimer);
      UpdateOut(if t >= SS_CLOSE_FRAMES then b.(aiState := SS_ASCEND, aiTimer := 0) else b.(aiTimer := t), None, None, false)
    else if s == SS_ASCEND then
      var y := b.body.pos.y - SS_ASCEND_SPEED;
      UpdateOut(if y <= b.anchorY
                then b.(body := b.body.(pos := b.body.pos.(y := b.anchorY)), aiState := SS_SWING, aiTimer := 0, paramA := 0)
                else b.(body := b.body.(pos := b.body.pos.(y := y))), None, None, false)
    else if s == SS_DEATH then
      var t := Inc(b.aiTimer);
      UpdateOut(b.(aiTimer := t, active := if t >= SS_DEATH_FRAMES then false else b.active), None, None, false)
    else UpdateOut(b, None, None, false)
  }

  /** One step toward the player's x: a negative delta moves left, anything else right. */
  function StepToward(x: int, targetX: int, speed: int): int
  {
    if targetX - x < 0 then x - speed else x + speed
  }

  /** crocomire_update: advance, spit, lunge every third attack, flinch; fall and die once pushed into the pit. */
  function CrocomireAi(b: BossData, target: Vec2): (o: UpdateOut)
    ensures !o.hit
    ensures AiFrame(b, o.boss)
    ensures o.boss.active ==> b.active
    ensures o.boss.aiState != b.aiState ==> o.boss.aiTimer == 0
    ensures o.boss.active != b.active ==> b.aiState == CROC_DEATH
    ensures o.shake == None && o.boss.vulnerable == b.vulnerable
    ensures o.shot.Some? ==> b.aiState == CROC_SPIT && b.aiTimer == 0
    ensures o.boss.body.pos.y != b.body.pos.y ==> b.aiState == CROC_FALLING
  {
    var s := b.aiState;
    if s == CROC_ADVANCE then
      var b1 := b.(body := b.body.(pos := b.body.pos.(x := StepToward(b.body.pos.x, target.x, CROC_ADVANCE_SPEED))));
      var t := Inc(b.aiTimer);
      UpdateOut(if t >= CROC_ADVANCE_DURATION then
                  (if b.attackCount >= CROC_LUNGE_EVERY then b1.(aiState := CROC_LUNGE, attackCount := 0, aiTimer := 0)
                   else b1.(aiState := CROC_SPIT, aiTimer := 0))
                else b1.(aiTimer := t), None, None, false)
    else if s == CROC_SPIT then
      var fire := b.aiTimer == 0;
      var shot := if fire then Some(Shot(b.body.pos.x, b.body.pos.y,
                                         Aim(target.x - b.body.pos.x, CROC_SPIT_SPEED),
                                         Aim(target.y - b.body.pos.y, CROC_SPIT_SPEED / 4)))
                  else None;
      var b1 := if fire then b.(attackCount := Inc(b.attackCount)) else b;
      var t := Inc(b1.aiTimer);
      UpdateOut(if t >= CROC_SPIT_FRAMES then b1.(aiState := CROC_ADVANCE, aiTimer := 0) else b1.(aiTimer := t),
                shot, None, false)
    else if s == CROC_FLINCH then
      var t := Inc(b.aiTimer);
      UpdateOut(if t >= CROC_FLINCH_FRAMES then b.(aiState := CROC_ADVANCE, aiTimer := 0) else b.(aiTimer := t), None, None, false)
    else if s == CROC_LUNGE then
      var b1 := b.(body := b.body.(pos := b.body.pos.(x := StepToward(b.body.pos.x, target.x, CROC_LUNGE_SPEED))));
      var t := Inc(b.aiTimer);
      UpdateOut(if t >= CROC_LUNGE_FRAMES then b1.(aiState := CROC_ADVANCE, aiTimer := 0) else b1.(aiTimer := t), None, None, false)
    else if s == CROC_FALLING then
      var b1 := b.(body := b.body.(pos := b.body.pos.(y := b.body.pos.y + CROC_FALL_SPEED)));
      var t := Inc(b.aiTimer);
      UpdateOut(if t >= CROC_FALL_FRAMES then b1.(aiState := CROC_DEATH, aiTimer := 0) else b1.(aiTimer := t), None, None, false)
    else if s == CROC_DEATH then
      var t := Inc(b.aiTimer);
      UpdateOut(b.(aiTimer := t, active := if t >= CROC_DEATH_FRAMES then false else b.active), None, None, false)
    else UpdateOut(b, None, None, false)
  }

  /** The idle length Bomb Torizo picks: 30 frames plus its attack counter modulo 60. */
  function IdleDuration(counter: int): (d: int)
    ensures BT_IDLE_MIN <= d < BT_IDLE_MIN + BT_IDLE_RANGE
  {
    BT_IDLE_MIN + counter % BT_IDLE_RANGE
  }

  /** bomb_torizo_update: a statue until the player comes near, then idle, bomb or lunge; die after the countdown. */
  function BombTorizoAi(b: BossData, target: Vec2): (o: UpdateOut)
    ensures !o.hit
    ensures AiFrame(b, o.boss)
    ensures o.boss.active ==> b.active
    ensures o.boss.aiState != b.aiState ==> o.boss.aiTimer == 0
    ensures o.boss.active != b.active ==> b.aiState == BT_DEATH
    ensures o.shake.Some? ==> o.shake == Some(Shake(15, 2)) && b.aiState == BT_STATUE && o.boss.aiState == BT_WAKE
    ensures o.shot.Some? ==> b.aiState == BT_BOMB && b.aiTimer == 0
    ensures o.boss.vulnerable != b.vulnerable ==> b.aiState == BT_WAKE && o.boss.vulnerable
    ensures o.boss.aiState == BT_IDLE && b.aiState != BT_IDLE ==>
      BT_IDLE_MIN <= o.boss.subTimer < BT_IDLE_MIN + BT_IDLE_RANGE
  {
    var s := b.aiState;
    if s == BT_STATUE then
      if Abs(target.x - b.body.pos.x) < BT_WAKE_DIST && Abs(target.y - b.body.pos.y) < BT_WAKE_DIST
      then UpdateOut(b.(aiState := BT_WAKE, aiTimer := 0), None, Some(Shake(15, 2)), false)
      else UpdateOut(b, None, None, false)
    else if s == BT_WAKE then
      var t := Inc(b.aiTimer);
      UpdateOut(if t >= BT_WAKE_FRAMES
                then b.(aiState := BT_IDLE, aiTimer := 0, vulnerable := true, subTimer := IdleDuration(b.aiCounter))
                else b.(aiTimer := t), None, None, false)
    else if s == BT_IDLE then
      var t := Inc(b.aiTimer);
      UpdateOut(if t >= b.subTimer then
                  (if b.attackCount >= BT_LUNGE_EVERY then b.(aiState := BT_LUNGE, attackCount := 0, aiTimer := 0)
                   else b.(aiState := BT_BOMB, aiTimer := 0))
                else b.(aiTimer := t), None, None, false)
    else if s == BT_BOMB then
      var fire := b.aiTimer == 0;
      var shot := if fire then Some(Shot(b.body.pos.x, b.body.pos.y - 8 * FX_ONE,
                                         Aim(target.x - b.body.pos.x, BT_BOMB_VX), BT_BOMB_VY))
                  else None;
      var b1 := if fire then b.(attackCount := Inc(b.attackCount), aiCounter := Inc(b.aiCounter)) else b;
      var t := Inc(b1.aiTimer);
      UpdateOut(if t >= BT_BOMB_FRAMES then b1.(aiState := BT_IDLE, aiTimer := 0, subTimer := IdleDuration(b1.aiCounter))
                else b1.(aiTimer := t), shot, None, false)
    else if s == BT_LUNGE then
      var b1 := b.(body := b.body.(pos := b.body.pos.(x := StepToward(b.body.pos.x, target.x, BT_LUNGE_SPEED))));
      var t := Inc(b.aiTimer);
      UpdateOut(if t >= BT_LUNGE_FRAMES then b1.(aiState := BT_IDLE, aiTimer := 0, subTimer := IdleDuration(b1.aiCounter))
                else b1.(aiTimer := t), None, None, false)
    else if s == BT_FLINCH then
      var t := Inc(b.aiTimer);
      UpdateOut(if t >= BT_FLINCH_FRAMES then b.(aiState := BT_IDLE, aiTimer := 0, subTimer := IdleDuration(b.aiCounter))
                else b.(aiTimer := t), None, None, false)
    else if s == BT_DEATH then
      var t := Inc(b.aiTimer);
      UpdateOut(b.(aiTimer := t, active := if t >= BT_DEATH_FRAMES then false else b.active), None, None, false)
    else UpdateOut(b, None, None, false)
  }

  /** The states in which a boss of type t deals contact damage. */
  predicate Harmful(t: int, s: int)
  {
    if t == BOSS_SPORE_SPAWN then s != SS_DEATH
    else if t == BOSS_CROCOMIRE then s != CROC_FALLING && s != CROC_DEATH
    else s != BT_STATUE && s != BT_DEATH
  }

  /** boss_update on the record, with the player's body as it is before the call. */
  function Stepped(b: BossData, player: Body): (o: UpdateOut)
    ensures !b.active || !Implemented(b.btype) ==> o == UpdateOut(b, None, None, false)
    ensures o.boss.btype == b.btype && o.boss.hp == b.hp && o.boss.hpMax == b.hpMax
    ensures o.boss.active ==> b.active
    ensures b.active && Implemented(b.btype) ==>
      o.boss.invulnTimer == (if b.invulnTimer > 0 then b.invulnTimer - 1 else b.invulnTimer)
    ensures o.hit ==> o.boss.active && BoxesOverlap(o.boss.body.pos, o.boss.body.hitbox, player.pos, player.hitbox)
    ensures o.hit <==> b.active && Implemented(b.btype) && o.boss.active && Harmful(b.btype, o.boss.aiState)
                       && BoxesOverlap(o.boss.body.pos, o.boss.body.hitbox, player.pos, player.hitbox)
    ensures o.shake.Some? ==> b.btype == BOSS_BOMB_TORIZO
  {
    if !b.active || !Implemented(b.btype) then UpdateOut(b, None, None, false)
    else
      var b0 := TickInvuln(b);
      var o := if b.btype == BOSS_SPORE_SPAWN then SporeSpawnAi(b0, player.pos)
               else if b.btype == BOSS_CROCOMIRE then CrocomireAi(b0, player.pos)
               else BombTorizoAi(b0, player.pos);
      var a := o.boss;
      o.(hit := a.active && Harmful(b.btype, a.aiState) && BoxesOverlap(a.body.pos, a.body.hitbox, player.pos, player.hitbox))
  }

  // ---------------------------------------------------------------------
  // Damage
  // ---------------------------------------------------------------------

  /** boss_damage. */
  function Damaged(b: BossData, damage: int): (o: DamageOut)
    ensures !b.active || !b.vulnerable || b.invulnTimer > 0 ==> o == DamageOut(b, [])
    ensures o.boss.btype == b.btype && o.boss.hpMax == b.hpMax && o.boss.anchorX == b.anchorX
    ensures o.boss.active ==> b.active
    ensures b.btype == BOSS_CROCOMIRE ==> o.boss.hp == b.hp
    ensures b.active && b.vulnerable && b.invulnTimer <= 0 ==>
      o.boss.invulnTimer == BOSS_HIT_INVULN && 1 <= |o.shakes| <= 2 && o.shakes[0] == Shake(5, 2) &&
      (|o.shakes| == 2 <==> !o.boss.vulnerable)
  {
    if !b.active || !b.vulnerable || b.invulnTimer > 0 then DamageOut(b, [])
    else if b.btype == BOSS_CROCOMIRE then
      var x := b.body.pos.x + CROC_PUSH_PER_HIT;
      var b1 := b.(invulnTimer := BOSS_HIT_INVULN, aiState := CROC_FLINCH, aiTimer := 0,
                   body := b.body.(pos := b.body.pos.(x := x)));
      if x >= b.anchorX then
        DamageOut(b1.(body := b1.body.(pos := b1.body.pos.(x := b.anchorX)), vulnerable := false,
                      aiState := CROC_FALLING, aiTimer := 0), [Shake(5, 2), Shake(30, 4)])
      else DamageOut(b1, [Shake(5, 2)])
    else
      var hp := ToInt16(b.hp - damage);
      var b1 := b.(hp := hp, invulnTimer := BOSS_HIT_INVULN);
      if hp <= 0 then
        var b2 := b1.(hp := 0, vulnerable := false, aiTimer := 0);
        DamageOut(if b.btype == BOSS_SPORE_SPAWN then b2.(aiState := SS_DEATH)
                  else if b.btype == BOSS_BOMB_TORIZO then b2.(aiState := BT_DEATH)
                  else b2.(active := false), [Shake(5, 2), Shake(30, 4)])
      else DamageOut(b1, [Shake(5, 2)])
  }

  // ---------------------------------------------------------------------
  // g_boss
  // ---------------------------------------------------------------------

  class Boss {
    var btype: int
    var body: Body
    var hp: int
    var hpMax: int
    var phase: int
    var aiState: int
    var aiTimer: int
    var aiCounter: int
    var damageContact: int
    var active: bool
    var vulnerable: bool
    var invulnTimer: int
    var anchorX: int
    var anchorY: int
    var paramA: int
    var paramB: int
    var subTimer: int
    var attackCount: int

    function Data(): BossData
      reads this
    {
      BossData(btype, body, hp, hpMax, phase, aiState, aiTimer, aiCounter, damageContact, active, vulnerable,
               invulnTimer, anchorX, anchorY, paramA, paramB, subTimer, attackCount)
    }

    /** Stores a whole record, in three groups of six fields. */
    method Set(d: BossData)
      modifies this
      ensures Data() == d
    {
      SetHead(d);
      SetMiddle(d);
      SetTail(d);
    }

    method SetHead(d: BossData)
      modifies this
      ensures btype == d.btype && body == d.body && hp == d.hp && hpMax == d.hpMax && phase == d.phase && aiState == d.aiState
      ensures unchanged(this`aiTimer, this`aiCounter, this`damageContact, this`active, this`vulnerable, this`invulnTimer, this`anchorX, this`anchorY, this`paramA, this`paramB, this`subTimer, this`attackCount)
    {
      btype, body, hp, hpMax, phase, aiState := d.btype, d.body, d.hp, d.hpMax, d.phase, d.aiState;
    }

    method SetMiddle(d: BossData)
      modifies this
      ensures aiTimer == d.aiTimer && aiCounter == d.aiCounter && damageContact == d.damageContact && active == d.active && vulnerable == d.vulnerable && invulnTimer == d.invulnTimer
      ensures unchanged(this`btype, this`body, this`hp, this`hpMax, this`phase, this`aiState, this`anchorX, this`anchorY, this`paramA, this`paramB, this`subTimer, this`attackCount)
    {
      aiTimer, aiCounter, damageContact, active, vulnerable, invulnTimer := d.aiTimer, d.aiCounter, d.damageContact, d.active, d.vulnerable, d.invulnTimer;
    }

    method SetTail(d: BossData)
      modifies this
      ensures anchorX == d.anchorX && anchorY == d.anchorY && paramA == d.paramA && paramB == d.paramB && subTimer == d.subTimer && attackCount == d.attackCount
      ensures unchanged(this`btype, this`body, this`hp, this`hpMax, this`phase, this`aiState, this`aiTimer, this`aiCounter, this`damageContact, this`active, this`vulnerable, this`invulnTimer)
    {
      anchorX, anchorY, paramA, paramB, subTimer, attackCount := d.anchorX, d.anchorY, d.paramA, d.paramB, d.subTimer, d.attackCount;
    }

    /** boss_init. */
    constructor ()
      ensures Data() == ZERO_BOSS
    {
      btype, body, hp, hpMax, phase := 0, ZERO_BODY, 0, 0, 0;
      aiState, aiTimer, aiCounter, damageContact := 0, 0, 0, 0;
      active, vulnerable, invulnTimer := false, false, 0;
      anchorX, anchorY, paramA, paramB := 0, 0, 0, 0;
      subTimer, attackCount := 0, 0;
    }

    /** boss_spawn. */
    method Spawn(t: int, x: int, y: int)
      modifies this
      ensures Data() == Spawned(old(Data()), t, x, y)
    {
      if t == BOSS_NONE || t < 0 || t >= BOSS_TYPE_COUNT {
        return;
      }
      Set(Spawned(Data(), t, x, y));
    }

    /** boss_update: the AI runs on the record, then the contact test may call player_damage. */
    method Update(player: Player.Player) returns (shot: Option<Shot>, shake: Option<Shake>)
      modifies this, player
      ensures var o := Stepped(old(Data()), old(player.body));
        Data() == o.boss && shot == o.shot && shake == o.shake &&
        player.Data() == if o.hit then Player.Damaged(old(player.Data()), o.boss.damageContact) else old(player.Data())
    {
      var o := Stepped(Data(), player.body);
      Set(o.boss);
      shot, shake := o.shot, o.shake;
      if o.hit {
        player.ApplyDamage(o.boss.damageContact);
      }
    }

    /** boss_damage: the shake requests are returned in call order. */
    method Damage(damage: int) returns (shakes: seq<Shake>)
      modifies this
      ensures var o := Damaged(old(Data()), damage); Data() == o.boss && shakes == o.shakes
    {
      if !active || !vulnerable || invulnTimer > 0 {
        return [];
      }
      var o := Damaged(Data(), damage);
      Set(o.boss);
      shakes := o.shakes;
    }

    /** boss_is_active. */
    method IsActive() returns (r: bool)
      ensures r == active
    {
      r := active;
    }
  }

  // ---------------------------------------------------------------------
  // Properties
  // ---------------------------------------------------------------------

  /** The damage gate: an inactive, invulnerable-by-state or recently hit boss is not changed. */
  lemma DamageGate(b: BossData, damage: int)
    requires !b.active || !b.vulnerable || b.invulnTimer > 0
    ensures Damaged(b, damage) == DamageOut(b, [])
  {
  }

  /** A standard hit subtracts the damage (as int16) and starts ten frames of invulnerability, so a second hit right after does nothing. */
  lemma StandardHit(b: BossData, damage: int, second: int)
    requires b.active && b.vulnerable && b.invulnTimer == 0 && b.btype != BOSS_CROCOMIRE
    requires ToInt16(b.hp - damage) > 0
    ensures var r := Damaged(b, damage).boss;
      r == b.(hp := ToInt16(b.hp - damage), invulnTimer := BOSS_HIT_INVULN) &&
      Damaged(r, second) == DamageOut(r, [])
  {
  }

  /** A lethal hit clamps hp to 0, closes the window, and starts the death sequence or deactivates. */
  lemma LethalHit(b: BossData, damage: int)
    requires b.active && b.vulnerable && b.invulnTimer == 0 && b.btype != BOSS_CROCOMIRE
    requires ToInt16(b.hp - damage) <= 0
    ensures var r := Damaged(b, damage).boss;
      r.hp == 0 && !r.vulnerable && r.aiTimer == 0 && r.invulnTimer == BOSS_HIT_INVULN &&
      (b.btype == BOSS_SPORE_SPAWN ==> r.active && r.aiState == SS_DEATH) &&
      (b.btype == BOSS_BOMB_TORIZO ==> r.active && r.aiState == BT_DEATH) &&
      (b.btype != BOSS_SPORE_SPAWN && b.btype != BOSS_BOMB_TORIZO ==> !r.active)
  {
  }

  /** A hit on Crocomire never changes hp: it pushes 8 px toward the pit, clamped at the pit, where Crocomire falls. */
  lemma CrocomirePush(b: BossData, damage: int)
    requires b.active && b.vulnerable && b.invulnTimer == 0 && b.btype == BOSS_CROCOMIRE
    ensures var r := Damaged(b, damage).boss;
      r.hp == b.hp && r.invulnTimer == BOSS_HIT_INVULN && r.aiTimer == 0 &&
      r.body.pos.x == Min(b.body.pos.x + CROC_PUSH_PER_HIT, b.anchorX) &&
      (b.body.pos.x + CROC_PUSH_PER_HIT < b.anchorX ==> r.aiState == CROC_FLINCH && r.vulnerable) &&
      (b.body.pos.x + CROC_PUSH_PER_HIT >= b.anchorX ==> r.aiState == CROC_FALLING && !r.vulnerable)
  {
  }

  function Min(a: int, b: int): int { if a <= b then a else b }

  /** The boss after one update per entry of ps, ps[k] being the player's body at update k. */
  function Run(b: BossData, ps: seq<Body>): BossData
    decreases |ps|
  {
    if |ps| == 0 then b else Run(Stepped(b, ps[0]).boss, ps[1..])
  }

  /** An inactive boss is not updated at all. */
  lemma {:induction false} InactiveStays(b: BossData, ps: seq<Body>)
    requires !b.active
    ensures Run(b, ps) == b
    decreases |ps|
  {
    if |ps| > 0 {
      InactiveStays(b, ps[1..]);
    }
  }

  /** The death countdown shared by the three machines: in state s with timer t, n - t more updates deactivate the boss. */
  predicate InDeathCountdown(b: BossData, s: int, n: int)
  {
    b.active && b.aiState == s && 0 <= b.aiTimer < n &&
    ((b.btype == BOSS_SPORE_SPAWN && s == SS_DEATH && n == SS_DEATH_FRAMES) ||
     (b.btype == BOSS_CROCOMIRE && s == CROC_DEATH && n == CROC_DEATH_FRAMES) ||
     (b.btype == BOSS_BOMB_TORIZO && s == BT_DEATH && n == BT_DEATH_FRAMES))
  }

  lemma {:induction false} DeathCountdown(b: BossData, s: int, n: int, ps: seq<Body>)
    requires InDeathCountdown(b, s, n)
    ensures |ps| < n - b.aiTimer ==> InDeathCountdown(Run(b, ps), s, n) && Run(b, ps).aiTimer == b.aiTimer + |ps|
    ensures |ps| >= n - b.aiTimer ==> !Run(b, ps).active
    decreases |ps|
  {
    if |ps| > 0 {
      var b1 := Stepped(b, ps[0]).boss;
      if b.aiTimer + 1 < n {
        DeathCountdown(b1, s, n, ps[1..]);
      } else {
        InactiveStays(b1, ps[1..]);
      }
    }
  }

  /** Spore Spawn and Bomb Torizo vanish exactly 60 updates after entering their death state. */
  lemma SixtyFrameDeaths(b: BossData, ps: seq<Body>)
    requires b.active && b.aiTimer == 0
    requires (b.btype == BOSS_SPORE_SPAWN && b.aiState == SS_DEATH) || (b.btype == BOSS_BOMB_TORIZO && b.aiState == BT_DEATH)
    ensures |ps| < 60 ==> Run(b, ps).active
    ensures |ps| >= 60 ==> !Run(b, ps).active
  {
    if b.btype == BOSS_SPORE_SPAWN {
      DeathCountdown(b, SS_DEATH, SS_DEATH_FRAMES, ps);
    } else {
      DeathCountdown(b, BT_DEATH, BT_DEATH_FRAMES, ps);
    }
  }

  /** Crocomire falls for 45 updates, then enters its 90-update death. */
  lemma {:induction false} CrocomireFalls(b: BossData, ps: seq<Body>)
    requires b.active && b.btype == BOSS_CROCOMIRE && b.aiState == CROC_FALLING && 0 <= b.aiTimer < CROC_FALL_FRAMES
    requires |ps| <= CROC_FALL_FRAMES - b.aiTimer
    ensures var r := Run(b, ps);
      r.active && r.btype == BOSS_CROCOMIRE &&
      (|ps| < CROC_FALL_FRAMES - b.aiTimer ==> r.aiState == CROC_FALLING && r.aiTimer == b.aiTimer + |ps|) &&
      (|ps| == CROC_FALL_FRAMES - b.aiTimer ==> r.aiState == CROC_DEATH && r.aiTimer == 0)
    decreases |ps|
  {
    if |ps| > 0 {
      var b1 := Stepped(b, ps[0]).boss;
      if b.aiTimer + 1 < CROC_FALL_FRAMES {
        CrocomireFalls(b1, ps[1..]);
      }
    }
  }

  /** After its 45-update fall, Crocomire vanishes after 90 more updates. */
  lemma CrocomireDies(b: BossData, ps: seq<Body>)
    requires b.active && b.btype == BOSS_CROCOMIRE && b.aiState == CROC_DEATH && b.aiTimer == 0
    ensures |ps| < CROC_DEATH_FRAMES ==> Run(b, ps).active
    ensures |ps| >= CROC_DEATH_FRAMES ==> !Run(b, ps).active
  {
    DeathCountdown(b, CROC_DEATH, CROC_DEATH_FRAMES, ps);
  }

  /** The Spore Spawn cycle SWING, DESCEND, OPEN, VULNERABLE, CLOSE, ASCEND, SWING. */
  function SporeNext(s: int): int
  {
    if s == SS_ASCEND then SS_SWING else s + 1
  }

  /** Spore Spawn's invariant: a known state, and the window open exactly in VULNERABLE. */
  predicate SporeSpawnOk(b: BossData)
  {
    b.btype == BOSS_SPORE_SPAWN && SS_SWING <= b.aiState <= SS_DEATH &&
    (b.vulnerable <==> b.aiState == SS_VULNERABLE)
  }

  /** Each update keeps Spore Spawn's state or moves it one step along the cycle, keeping its invariant. */
  lemma SporeSpawnCycle(b: BossData, player: Body)
    requires SporeSpawnOk(b)
    ensures SporeSpawnOk(Stepped(b, player).boss)
    ensures var s := Stepped(b, player).boss.aiState;
      s == b.aiState || (b.aiState != SS_DEATH && s == SporeNext(b.aiState))
  {
  }

  /** A hit keeps Spore Spawn's invariant; the only state it can enter is DEATH. */
  lemma SporeSpawnDamage(b: BossData, damage: int)
    requires SporeSpawnOk(b)
    ensures SporeSpawnOk(Damaged(b, damage).boss)
    ensures Damaged(b, damage).boss.aiState == b.aiState || Damaged(b, damage).boss.aiState == SS_DEATH
  {
  }

  lemma SporeSpawnStartsSwinging(x: int, y: int)
    ensures var b := Spawned(ZERO_BOSS, BOSS_SPORE_SPAWN, x, y);
      SporeSpawnOk(b) && b.active && b.aiState == SS_SWING && b.hp == SS_HP && b.anchorX == x && b.anchorY == y
  {
  }

  /** Bomb Torizo's invariant: never in FLINCH, and an idle length in [30, 89] whenever idle. */
  predicate BombTorizoOk(b: BossData)
  {
    b.btype == BOSS_BOMB_TORIZO && b.aiState != BT_FLINCH &&
    (b.aiState == BT_IDLE ==> BT_IDLE_MIN <= b.subTimer < BT_IDLE_MIN + BT_IDLE_RANGE)
  }

  /** Updates keep Bomb Torizo's invariant: FLINCH is never entered and every idle length lies in [30, 89]. */
  lemma BombTorizoUpdateKeepsOk(b: BossData, player: Body)
    requires BombTorizoOk(b)
    ensures BombTorizoOk(Stepped(b, player).boss)
  {
    if b.active {
      BombTorizoAiKeepsOk(TickInvuln(b), player.pos);
    }
  }

  lemma BombTorizoAiKeepsOk(b: BossData, target: Vec2)
    requires BombTorizoOk(b)
    ensures BombTorizoOk(BombTorizoAi(b, target).boss)
  {
  }

  /** Hits keep Bomb Torizo's invariant too. */
  lemma BombTorizoDamageKeepsOk(b: BossData, damage: int)
    requires BombTorizoOk(b)
    ensures BombTorizoOk(Damaged(b, damage).boss)
  {
  }

  lemma BombTorizoStartsAsStatue(x: int, y: int)
    ensures var b := Spawned(ZERO_BOSS, BOSS_BOMB_TORIZO, x, y);
      BombTorizoOk(b) && b.aiState == BT_STATUE && !b.vulnerable && b.hp == BT_HP
  {
  }

  /** When idling ends, Bomb Torizo lunges iff it has made at least two attacks, and lunging resets the count. */
  lemma BombTorizoChoosesAttack(b: BossData, player: Body)
    requires b.active && b.btype == BOSS_BOMB_TORIZO && b.aiState == BT_IDLE && Inc(b.aiTimer) >= b.subTimer
    ensures var r := Stepped(b, player).boss;
      r.aiTimer == 0 &&
      (b.attackCount >= BT_LUNGE_EVERY ==> r.aiState == BT_LUNGE && r.attackCount == 0) &&
      (b.attackCount < BT_LUNGE_EVERY ==> r.aiState == BT_BOMB && r.attackCount == b.attackCount)
  {
  }

  /** Types without a table entry are spawned active with zeroed fields, and updates leave them alone. */
  lemma UnimplementedBosses(b: BossData, t: int, x: int, y: int, player: Body, damage: int)
    requires 4 <= t < BOSS_TYPE_COUNT
    ensures var r := Spawned(b, t, x, y);
      r.active && r.btype == t && r.hp == 0 && !r.vulnerable && r.body.pos == Vec2(x, y) &&
      Stepped(r, player) == UpdateOut(r, None, None, false) &&
      Damaged(r, damage) == DamageOut(r, [])
  {
  }

  /** NONE and out-of-range types are ignored by boss_spawn. */
  lemma SpawnIgnoresBadTypes(b: BossData, t: int, x: int, y: int)
    requires t == BOSS_NONE || t < 0 || t >= BOSS_TYPE_COUNT
    ensures Spawned(b, t, x, y) == b
  {
  }

  /**
   * crocomire_init: Crocomire is spawned advancing, always vulnerable, with
   * its dummy hp, and the pit edge it is pushed toward lies 160 pixels right
   * of its spawn point, on its spawn row.
   */
  lemma CrocomireStartsAdvancing(x: int, y: int)
    ensures var b := Spawned(ZERO_BOSS, BOSS_CROCOMIRE, x, y);
      && b.active && b.aiState == CROC_ADVANCE && b.vulnerable
      && b.hp == CROC_HP_DUMMY && b.hpMax == CROC_HP_DUMMY && b.body.pos == Vec2(x, y)
      && b.anchorX == x + 160 * FX_ONE && b.anchorY == y
  {
  }

  /**
   * Contact damage needs a live boss whose box, after its AI step, strictly
   * overlaps the player's (boss_aabb_overlap), in either order of operands.
   */
  /**
   * The states without contact damage: Spore Spawn dying, Crocomire falling
   * or dying, and Bomb Torizo as a statue or dying. In every other state a
   * live boss whose box overlaps the player's hits her.
   */
  lemma HarmlessStates(b: BossData, player: Body)
    ensures var o := Stepped(b, player);
      var s := o.boss.aiState;
      && (b.btype == BOSS_SPORE_SPAWN && s == SS_DEATH ==> !o.hit)
      && (b.btype == BOSS_CROCOMIRE && (s == CROC_FALLING || s == CROC_DEATH) ==> !o.hit)
      && (b.btype == BOSS_BOMB_TORIZO && (s == BT_STATUE || s == BT_DEATH) ==> !o.hit)
      && (b.active && Implemented(b.btype) && o.boss.active
          && BoxesOverlap(o.boss.body.pos, o.boss.body.hitbox, player.pos, player.hitbox)
          && (b.btype == BOSS_SPORE_SPAWN ==> s != SS_DEATH)
          && (b.btype == BOSS_CROCOMIRE ==> s != CROC_FALLING && s != CROC_DEATH)
          && (b.btype == BOSS_BOMB_TORIZO ==> s != BT_STATUE && s != BT_DEATH)
          ==> o.hit)
  {
  }

  lemma ContactNeedsOverlap(b: BossData, player: Body)
    ensures var o := Stepped(b, player);
      o.hit ==> (b.active && o.boss.active
        && Abs(o.boss.body.pos.x - player.pos.x) < o.boss.body.hitbox.halfW + player.hitbox.halfW
        && Abs(o.boss.body.pos.y - player.pos.y) < o.boss.body.hitbox.halfH + player.hitbox.halfH
        && BoxesOverlap(player.pos, player.hitbox, o.boss.body.pos, o.boss.body.hitbox))
  {
    var o := Stepped(b, player);
    BoxesOverlapSymmetric(o.boss.body.pos, o.boss.body.hitbox, player.pos, player.hitbox);
  }
}
