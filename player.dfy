/**
 * The player (source/player.c): one record updated once per frame by the
 * handler of its current state, then by physics, then by the landing,
 * edge and apex corrections, the hazard response, the crumble probe and
 * the timers.
 *
 * Each operation of the class is specified by a function from the record
 * before (`Data()`) to the record after; the properties the game relies on
 * are lemmas about those functions.
 */
module Player {
  import opened CInt
  import opened SmTypes
  import opened PhysicsConstants
  import opened Physics
  import opened Room
  import opened Input

  /** PlayerStateID, in the order of the handler table. */
  datatype PState =
    | Standing | Running | Jumping | SpinJumping | Falling | Crouching | MorphBall
    | SpringBall | WallJump | Damage | Death | ShinesparkCharge | Shinespark | Grapple

  /** The fields of g_player as one value. */
  datatype PlayerData = PlayerData(
    body: Body, state: PState, facing: int, hp: int, hpMax: int, alive: bool,
    frameIndex: int, frameTimer: int, equipment: Equipment, invulnTimer: int, shinesparkTimer: int,
    missiles: int, missilesMax: int, supers: int, supersMax: int,
    powerBombs: int, powerBombsMax: int, reserveHpMax: int)

  const DEATH_FREEZE_FRAMES: int := 120
  const CRUMBLE_FRAMES: int := 30
  const SPIKE_DAMAGE: int := 60
  const LAVA_DAMAGE: int := 10

  // ---------------------------------------------------------------------
  // The steps, as functions of the record
  // ---------------------------------------------------------------------

  /** The hitbox half-height that change_state gives each state. */
  function HalfHeightFor(s: PState): int
  {
    if s == Crouching then SAMUS_CROUCH_H
    else if s == MorphBall || s == SpringBall then SAMUS_MORPH_H
    else SAMUS_HALF_H
  }

  /** change_state. */
  function ChangedState(d: PlayerData, s: PState): PlayerData
  {
    d.(state := s, frameIndex := 0, frameTimer := 0,
       body := d.body.(hitbox := d.body.hitbox.(halfH := HalfHeightFor(s))))
  }

  function WithVelX(d: PlayerData, vx: int): PlayerData { d.(body := d.body.(vel := d.body.vel.(x := vx))) }
  function WithVelY(d: PlayerData, vy: int): PlayerData { d.(body := d.body.(vel := d.body.vel.(y := vy))) }

  predicate HorizontalHeld(k: KeyState) { KeyHeld(k, KEY_LEFT) || KeyHeld(k, KEY_RIGHT) }

  /** The horizontal speed of the running and air-control code: Y runs, otherwise walk. */
  function MoveSpeed(k: KeyState): int { if KeyHeld(k, KEY_Y) then RUN_SPEED else WALK_SPEED }

  /** Air control: left or right sets facing and a horizontal speed; with neither the record is kept. */
  function AirControl(d: PlayerData, k: KeyState): PlayerData
  {
    if KeyHeld(k, KEY_LEFT) then WithVelX(d, -MoveSpeed(k)).(facing := DIR_LEFT)
    else if KeyHeld(k, KEY_RIGHT) then WithVelX(d, MoveSpeed(k)).(facing := DIR_RIGHT)
    else d
  }

  /** Variable jump height: with B released, an ascent faster than 1 px per frame is cut to 1 px per frame. */
  function JumpCut(d: PlayerData, k: KeyState): PlayerData
  {
    if !KeyHeld(k, KEY_B) && d.body.vel.y < -FX_ONE then WithVelY(d, -FX_ONE) else d
  }

  /**
   * The fields no state handler or post-physics correction touches: energy,
   * life and both timers.
   */
  predicate SameVitals(a: PlayerData, b: PlayerData)
  {
    a.hp == b.hp && a.alive == b.alive && a.invulnTimer == b.invulnTimer && a.shinesparkTimer == b.shinesparkTimer
  }

  /** state_standing: the body stops; a direction starts a run, B a jump, down a crouch, in that order. */
  function StandingStep(d: PlayerData, k: KeyState): (r: PlayerData)
    ensures SameVitals(r, d) && r.body.pos == d.body.pos && r.body.contact == d.body.contact && r.body.env == d.body.env
    ensures r.body.vel.x == 0
    ensures HorizontalHeld(k) ==> r.state == Running
    ensures r.state == Jumping && d.state != Jumping ==> r.body.vel.y == -JUMP_VEL_NORMAL && KeyPressed(k, KEY_B)
    ensures r.state == d.state || r.state == Running || r.state == Jumping || r.state == Crouching
  {
    var d0 := WithVelX(d, 0);
    if HorizontalHeld(k) then ChangedState(d0, Running)
    else if KeyPressed(k, KEY_B) then ChangedState(WithVelY(d0, -JUMP_VEL_NORMAL), Jumping)
    else if KeyHeld(k, KEY_DOWN) then ChangedState(d0, Crouching)
    else d0
  }

  /** state_running: steer at walk or run speed, stand when no direction is held, spin-jump on B. */
  function RunningStep(d: PlayerData, k: KeyState): (r: PlayerData)
    ensures SameVitals(r, d) && r.body.pos == d.body.pos && r.body.contact == d.body.contact && r.body.env == d.body.env
    ensures !HorizontalHeld(k) ==> r.state == Standing
    ensures HorizontalHeld(k) ==>
      (r.facing == DIR_LEFT && r.body.vel.x == -MoveSpeed(k)) || (r.facing == DIR_RIGHT && r.body.vel.x == MoveSpeed(k))
    ensures KeyHeld(k, KEY_LEFT) ==> r.facing == DIR_LEFT
    ensures r.state == SpinJumping && d.state != SpinJumping ==> r.body.vel.y == -JUMP_VEL_SPIN && KeyPressed(k, KEY_B)
  {
    if !HorizontalHeld(k) then ChangedState(d, Standing)
    else
      var d1 := AirControl(d, k);
      if KeyPressed(k, KEY_B) then ChangedState(WithVelY(d1, -JUMP_VEL_SPIN), SpinJumping) else d1
  }

  /** state_jumping and state_spin_jumping, which are the same code: air control and the jump cut, never a state change. */
  function JumpingStep(d: PlayerData, k: KeyState): (r: PlayerData)
    ensures SameVitals(r, d) && r.body.pos == d.body.pos && r.body.contact == d.body.contact && r.body.env == d.body.env
    ensures r.state == d.state
    ensures r.body.vel.y == d.body.vel.y || r.body.vel.y == -FX_ONE
    ensures r.body.vel.y >= d.body.vel.y
  {
    JumpCut(AirControl(d, k), k)
  }

  /** state_crouching: the body stops; releasing down stands, B jumps, A curls into the morph ball if it is equipped. */
  function CrouchingStep(d: PlayerData, k: KeyState): (r: PlayerData)
    ensures SameVitals(r, d) && r.body.pos == d.body.pos && r.body.contact == d.body.contact && r.body.env == d.body.env
    ensures r.body.vel.x == 0
    ensures !KeyHeld(k, KEY_DOWN) ==> r.state == Standing
    ensures r.state == MorphBall && d.state != MorphBall ==> KeyPressed(k, KEY_A) && d.equipment & EQUIP_MORPH_BALL != 0
  {
    var d0 := WithVelX(d, 0);
    if !KeyHeld(k, KEY_DOWN) then ChangedState(d0, Standing)
    else if KeyPressed(k, KEY_B) then ChangedState(WithVelY(d0, -JUMP_VEL_NORMAL), Jumping)
    else if KeyPressed(k, KEY_A) && d.equipment & EQUIP_MORPH_BALL != 0 then ChangedState(d0, MorphBall)
    else d0
  }

  /** state_morphball: roll at morph-ball speed or stop; A stands up into a crouch. */
  function MorphBallStep(d: PlayerData, k: KeyState): (r: PlayerData)
    ensures SameVitals(r, d) && r.body.pos == d.body.pos && r.body.contact == d.body.contact && r.body.env == d.body.env
    ensures Abs(r.body.vel.x) <= MORPH_BALL_SPEED
    ensures r.state != d.state ==> r.state == Crouching && KeyPressed(k, KEY_A)
  {
    var d1 :=
      if KeyHeld(k, KEY_LEFT) then WithVelX(d, -MORPH_BALL_SPEED).(facing := DIR_LEFT)
      else if KeyHeld(k, KEY_RIGHT) then WithVelX(d, MORPH_BALL_SPEED).(facing := DIR_RIGHT)
      else WithVelX(d, 0);
    if KeyPressed(k, KEY_A) then ChangedState(d1, Crouching) else d1
  }

  /** state_damage: input is locked while knockback lasts, then the player falls. */
  function DamageStep(d: PlayerData): (r: PlayerData)
    ensures SameVitals(r, d) && r.body.pos == d.body.pos && r.body.vel == d.body.vel
    ensures r.state == (if d.invulnTimer > INVULN_FRAMES - KNOCKBACK_FRAMES then d.state else Falling)
  {
    if d.invulnTimer > INVULN_FRAMES - KNOCKBACK_FRAMES then d else ChangedState(d, Falling)
  }

  /** state_death: the body stops and the frame timer counts down. */
  function DeathStep(d: PlayerData): (r: PlayerData)
    ensures SameVitals(r, d) && r.state == d.state && r.body.pos == d.body.pos
    ensures r.body.vel == Vec2(0, 0)
    ensures d.frameTimer > 0 ==> r.frameTimer == d.frameTimer - 1
    ensures d.frameTimer >= 0 ==> 0 <= r.frameTimer <= d.frameTimer
  {
    var d0 := d.(body := d.body.(vel := Vec2(0, 0)));
    if d0.frameTimer > 0 then d0.(frameTimer := d0.frameTimer - 1) else d0
  }

  /** The handler table of player_init, applied to the current state; unimplemented states are stubs. */
  function Handled(d: PlayerData, k: KeyState): (r: PlayerData)
    ensures SameVitals(r, d) && r.body.pos == d.body.pos && r.body.contact == d.body.contact && r.body.env == d.body.env
    ensures Rising(d.state) ==> r.state == d.state
  {
    match d.state
    case Standing => StandingStep(d, k)
    case Running => RunningStep(d, k)
    case Jumping => JumpingStep(d, k)
    case SpinJumping => JumpingStep(d, k)
    case Falling => AirControl(d, k)
    case Crouching => CrouchingStep(d, k)
    case MorphBall => MorphBallStep(d, k)
    case Damage => DamageStep(d)
    case Death => DeathStep(d)
    case _ => d
  }

  predicate Airborne(s: PState) { s == Jumping || s == SpinJumping || s == Falling }
  predicate Grounded(s: PState) { s == Standing || s == Running || s == Crouching }
  predicate Rising(s: PState) { s == Jumping || s == SpinJumping }

  /** post_physics_check: landing, falling off an edge, and the end of a jump's ascent. */
  function PostPhysics(d: PlayerData, k: KeyState): (r: PlayerData)
    ensures SameVitals(r, d) && r.body.pos == d.body.pos && r.body.vel == d.body.vel && r.body.contact == d.body.contact
    ensures r.body.env == d.body.env
    ensures d.body.contact.onGround ==> !Airborne(r.state)
    ensures !d.body.contact.onGround ==> !Grounded(r.state)
  {
    var d1 :=
      if d.body.contact.onGround then
        (if Airborne(d.state) then ChangedState(d, if HorizontalHeld(k) then Running else Standing) else d)
      else
        (if Grounded(d.state) then ChangedState(d, Falling) else d);
    if Rising(d1.state) && d1.body.vel.y >= 0 && !d1.body.contact.onGround then ChangedState(d1, Falling) else d1
  }

  /** player_damage. */
  function Damaged(d: PlayerData, damage: int): (r: PlayerData)
    ensures !d.alive || d.invulnTimer > 0 ==> r == d
    ensures r.body.pos == d.body.pos && r.body.vel == d.body.vel && r.body.contact == d.body.contact
    ensures r.body.env == d.body.env
    ensures r.alive ==> d.alive
    ensures d.alive && d.invulnTimer <= 0 ==> r.invulnTimer == INVULN_FRAMES && (r.alive <==> r.hp > 0)
    ensures d.hp >= 0 && damage >= 0 ==> 0 <= r.hp <= d.hp
  {
    if !d.alive || d.invulnTimer > 0 then d
    else
      var d1 := d.(hp := d.hp - damage, invulnTimer := INVULN_FRAMES);
      if d1.hp <= 0 then ChangedState(d1.(hp := 0, alive := false), Death).(frameTimer := DEATH_FREEZE_FRAMES)
      else ChangedState(d1, Damage)
  }

  /** The knockback velocity of player_damage_from: away from source_x, and upward. */
  function Knockback(d: PlayerData, sourceX: int): Vec2
  {
    Vec2(if sourceX < d.body.pos.x then KNOCKBACK_VEL_X else -KNOCKBACK_VEL_X, -KNOCKBACK_VEL_Y)
  }

  /** player_damage_from. */
  function DamagedFrom(d: PlayerData, damage: int, sourceX: int): (r: PlayerData)
    ensures !d.alive || d.invulnTimer > 0 ==> r == d
    ensures d.alive && d.invulnTimer <= 0 ==> r.body.vel == Knockback(d, sourceX) && r.invulnTimer == INVULN_FRAMES
    ensures r.body.pos == d.body.pos && (r.alive ==> d.alive)
    ensures d.hp >= 0 && damage >= 0 ==> 0 <= r.hp <= d.hp
  {
    if !d.alive || d.invulnTimer > 0 then d
    else Damaged(d.(body := d.body.(vel := Knockback(d, sourceX))), damage)
  }

  /** Step 4 of player_update: spikes bounce and hurt, lava hurts and sets the environment, which is restored off lava. */
  function HazardStep(d: PlayerData): (r: PlayerData)
    ensures r.body.pos == d.body.pos && r.body.contact == d.body.contact
    ensures r.state != d.state ==> d.body.contact.onHazard && d.invulnTimer == 0
    ensures !d.body.contact.onHazard || d.invulnTimer != 0 ==> SameVitals(r, d)
    ensures !r.body.contact.onHazard ==> r.body.env != ENV_LAVA
    ensures r.alive ==> d.alive
  {
    var c := d.body.contact;
    var d1 :=
      if c.onHazard && d.invulnTimer == 0 then
        (if c.hazardType == COLL_HAZARD_SPIKE then Damaged(WithVelY(d, -KNOCKBACK_VEL_Y), SPIKE_DAMAGE)
         else if c.hazardType == COLL_HAZARD_LAVA then Damaged(d.(body := d.body.(env := ENV_LAVA)), LAVA_DAMAGE)
         else d)
      else d;
    if !d1.body.contact.onHazard && d1.body.env == ENV_LAVA then d1.(body := d1.body.(env := ENV_AIR)) else d1
  }

  /** Step 6 of player_update: both timers count down to 0. */
  function TimersStep(d: PlayerData): PlayerData
  {
    d.(invulnTimer := if d.invulnTimer > 0 then d.invulnTimer - 1 else d.invulnTimer,
       shinesparkTimer := if d.shinesparkTimer > 0 then d.shinesparkTimer - 1 else d.shinesparkTimer)
  }

  /** Steps 1 to 4 of player_update for a living player. */
  function BeforeTimers(g: Grid, d: PlayerData, k: KeyState): PlayerData
    requires GridValid(g)
  {
    var h := Handled(d, k);
    HazardStep(PostPhysics(h.(body := Updated(g, h.body)), k))
  }

  /** player_update. */
  function Stepped(g: Grid, d: PlayerData, k: KeyState): (r: PlayerData)
    requires GridValid(g)
    ensures !d.alive ==> r == d
    ensures r.alive ==> d.alive
    ensures d.invulnTimer > 0 ==> r.hp == d.hp
  {
    if !d.alive then d else TimersStep(BeforeTimers(g, d, k))
  }

  /** The cell under the feet whose crumble timer step 5 arms: a crumble block touched while on the ground. */
  function CrumbleCell(g: Grid, d: PlayerData): (r: int)
    requires GridValid(g)
    ensures r == -1 || 0 <= r < ROOM_CELLS
  {
    var fx := PixelToTile(FxToInt(d.body.pos.x));
    var fy := PixelToTile(FxToInt(d.body.pos.y + d.body.hitbox.halfH));
    if d.body.contact.onGround && CollisionAt(g, fx, fy) == COLL_SPECIAL_CRUMBLE then
      CellIndexInRange(fx, fy, g.width, g.height);
      fy * g.width + fx
    else -1
  }

  /** The crumble cell of one player_update, or -1. */
  function CrumbleArmed(g: Grid, d: PlayerData, k: KeyState): (r: int)
    requires GridValid(g)
    ensures r == -1 || 0 <= r < ROOM_CELLS
  {
    if !d.alive then -1 else CrumbleCell(g, BeforeTimers(g, d, k))
  }

  /** The record player_init builds. */
  const INITIAL: PlayerData := PlayerData(
    Body(Vec2(128 * FX_ONE, 120 * FX_ONE), Vec2(0, 0), Vec2(0, 0), Aabb(SAMUS_HALF_W, SAMUS_HALF_H), ENV_AIR, NO_CONTACT),
    Falling, DIR_RIGHT, PLAYER_START_HP, PLAYER_START_HP, true, 0, 0, 0, 0, 0, 0, 0, 0, 0, 0, 0, 0)

  // ---------------------------------------------------------------------
  // g_player and its operations
  // ---------------------------------------------------------------------

  class Player {
    var body: Body
    var state: PState
    var facing: int
    var hp: int
    var hpMax: int
    var alive: bool
    var frameIndex: int
    var frameTimer: int
    var equipment: Equipment
    var invulnTimer: int
    var shinesparkTimer: int
    var missiles: int
    var missilesMax: int
    var supers: int
    var supersMax: int
    var powerBombs: int
    var powerBombsMax: int
    var reserveHpMax: int

    function Data(): PlayerData
      reads this
    {
      PlayerData(body, state, facing, hp, hpMax, alive, frameIndex, frameTimer, equipment,
                 invulnTimer, shinesparkTimer, missiles, missilesMax, supers, supersMax,
                 powerBombs, powerBombsMax, reserveHpMax)
    }

    /** player_init: a zeroed record placed in the test room, falling, facing right, with 99 energy. */
    constructor ()
      ensures Data() == INITIAL
    {
      body := Body(Vec2(128 * FX_ONE, 120 * FX_ONE), Vec2(0, 0), Vec2(0, 0), Aabb(SAMUS_HALF_W, SAMUS_HALF_H), ENV_AIR, NO_CONTACT);
      state := Falling;
      facing := DIR_RIGHT;
      hp, hpMax := PLAYER_START_HP, PLAYER_START_HP;
      alive := true;
      frameIndex, frameTimer := 0, 0;
      equipment := 0;
      invulnTimer, shinesparkTimer := 0, 0;
      missiles, missilesMax, supers, supersMax := 0, 0, 0, 0;
      powerBombs, powerBombsMax, reserveHpMax := 0, 0, 0;
    }

    /** player_init on the existing record, as gameplay_enter calls it. */
    method Init()
      modifies this
      ensures Data() == INITIAL
    {
      ResetMotion();
      ResetVitals();
      ResetAmmo();
      ResetPacks();
    }

    method ResetMotion()
      modifies this
      ensures Data() == old(Data()).(body := INITIAL.body, state := Falling, facing := DIR_RIGHT, frameIndex := 0, frameTimer := 0)
    {
      body := INITIAL.body;
      state, facing := Falling, DIR_RIGHT;
      frameIndex, frameTimer := 0, 0;
    }

    method ResetVitals()
      modifies this
      ensures Data() == old(Data()).(hp := PLAYER_START_HP, hpMax := PLAYER_START_HP, alive := true, invulnTimer := 0, shinesparkTimer := 0)
    {
      hp, hpMax, alive := PLAYER_START_HP, PLAYER_START_HP, true;
      invulnTimer, shinesparkTimer := 0, 0;
    }

    method ResetAmmo()
      modifies this
      ensures Data() == old(Data()).(missiles := 0, missilesMax := 0, supers := 0, supersMax := 0)
    {
      missiles, missilesMax, supers, supersMax := 0, 0, 0, 0;
    }

    method ResetPacks()
      modifies this
      ensures Data() == old(Data()).(equipment := 0, powerBombs := 0, powerBombsMax := 0, reserveHpMax := 0)
    {
      equipment := 0;
      powerBombs, powerBombsMax, reserveHpMax := 0, 0, 0;
    }

    method ChangeState(s: PState)
      modifies this
      ensures Data() == ChangedState(old(Data()), s)
    {
      state := s;
      frameIndex := 0;
      frameTimer := 0;
      if s == Crouching {
        body := body.(hitbox := body.hitbox.(halfH := SAMUS_CROUCH_H));
      } else if s == MorphBall || s == SpringBall {
        body := body.(hitbox := body.hitbox.(halfH := SAMUS_MORPH_H));
      } else {
        body := body.(hitbox := body.hitbox.(halfH := SAMUS_HALF_H));
      }
    }

    method SetVelX(vx: int)
      modifies this
      ensures Data() == WithVelX(old(Data()), vx)
    {
      body := body.(vel := body.vel.(x := vx));
    }

    method SetVelY(vy: int)
      modifies this
      ensures Data() == WithVelY(old(Data()), vy)
    {
      body := body.(vel := body.vel.(y := vy));
    }

    /** The left/right code shared by the running and airborne handlers. */
    method AirSteer(inp: InputSystem)
      modifies this
      ensures Data() == AirControl(old(Data()), inp.State())
    {
      var speed := if inp.Held(KEY_Y) then RUN_SPEED else WALK_SPEED;
      if inp.Held(KEY_LEFT) {
        facing := DIR_LEFT;
        SetVelX(-speed);
      } else if inp.Held(KEY_RIGHT) {
        facing := DIR_RIGHT;
        SetVelX(speed);
      }
    }

    method StateStanding(inp: InputSystem)
      modifies this
      ensures Data() == StandingStep(old(Data()), inp.State())
    {
      SetVelX(0);
      if inp.Held(KEY_LEFT) || inp.Held(KEY_RIGHT) {
        ChangeState(Running);
        return;
      }
      if inp.Pressed(KEY_B) {
        SetVelY(-JUMP_VEL_NORMAL);
        ChangeState(Jumping);
        return;
      }
      if inp.Held(KEY_DOWN) {
        ChangeState(Crouching);
        return;
      }
    }

    method StateRunning(inp: InputSystem)
      modifies this
      ensures Data() == RunningStep(old(Data()), inp.State())
    {
      if !(inp.Held(KEY_LEFT) || inp.Held(KEY_RIGHT)) {
        ChangeState(Standing);
        return;
      }
      AirSteer(inp);
      if inp.Pressed(KEY_B) {
        SetVelY(-JUMP_VEL_SPIN);
        ChangeState(SpinJumping);
        return;
      }
    }

    /** state_jumping, which state_spin_jumping repeats line for line. */
    method StateJumping(inp: InputSystem)
      modifies this
      ensures Data() == JumpingStep(old(Data()), inp.State())
    {
      AirSteer(inp);
      if !inp.Held(KEY_B) && body.vel.y < -FX_ONE {
        SetVelY(-FX_ONE);
      }
    }

    method StateCrouching(inp: InputSystem)
      modifies this
      ensures Data() == CrouchingStep(old(Data()), inp.State())
    {
      SetVelX(0);
      if !inp.Held(KEY_DOWN) {
        ChangeState(Standing);
        return;
      }
      if inp.Pressed(KEY_B) {
        SetVelY(-JUMP_VEL_NORMAL);
        ChangeState(Jumping);
        return;
      }
      if inp.Pressed(KEY_A) && equipment & EQUIP_MORPH_BALL != 0 {
        ChangeState(MorphBall);
        return;
      }
    }

    method StateMorphBall(inp: InputSystem)
      modifies this
      ensures Data() == MorphBallStep(old(Data()), inp.State())
    {
      if inp.Held(KEY_LEFT) {
        facing := DIR_LEFT;
        SetVelX(-MORPH_BALL_SPEED);
      } else if inp.Held(KEY_RIGHT) {
        facing := DIR_RIGHT;
        SetVelX(MORPH_BALL_SPEED);
      } else {
        SetVelX(0);
      }
      if inp.Pressed(KEY_A) {
        ChangeState(Crouching);
        return;
      }
    }

    method StateDamage()
      modifies this
      ensures Data() == DamageStep(old(Data()))
    {
      if invulnTimer > INVULN_FRAMES - KNOCKBACK_FRAMES {
        return;
      }
      ChangeState(Falling);
    }

    method StateDeath()
      modifies this
      ensures Data() == DeathStep(old(Data()))
    {
      body := body.(vel := Vec2(0, 0));
      if frameTimer > 0 {
        frameTimer := frameTimer - 1;
      }
    }

    /** The dispatch through state_fns. */
    method RunHandler(inp: InputSystem)
      modifies this
      ensures Data() == Handled(old(Data()), inp.State())
    {
      match state
      case Standing => StateStanding(inp);
      case Running => StateRunning(inp);
      case Jumping => StateJumping(inp);
      case SpinJumping => StateJumping(inp);
      case Falling => AirSteer(inp);
      case Crouching => StateCrouching(inp);
      case MorphBall => StateMorphBall(inp);
      case Damage => StateDamage();
      case Death => StateDeath();
      case _ =>
    }

    method PostPhysicsCheck(inp: InputSystem)
      modifies this
      ensures Data() == PostPhysics(old(Data()), inp.State())
    {
      if body.contact.onGround {
        if state == Jumping || state == SpinJumping || state == Falling {
          if inp.Held(KEY_LEFT) || inp.Held(KEY_RIGHT) {
            ChangeState(Running);
          } else {
            ChangeState(Standing);
          }
        }
      } else {
        if state == Standing || state == Running || state == Crouching {
          ChangeState(Falling);
        }
      }
      if state == Jumping || state == SpinJumping {
        if body.vel.y >= 0 && !body.contact.onGround {
          ChangeState(Falling);
        }
      }
    }

    /** player_damage. */
    method ApplyDamage(damage: int)
      modifies this
      ensures Data() == Damaged(old(Data()), damage)
    {
      if !alive {
        return;
      }
      if invulnTimer > 0 {
        return;
      }
      TakeHit(damage);
    }

    /** The part of player_damage past the gate: energy lost, invulnerability, then death or the damage state. */
    method TakeHit(damage: int)
      requires alive && invulnTimer <= 0
      modifies this
      ensures Data() == Damaged(old(Data()), damage)
    {
      hp, invulnTimer := hp - damage, INVULN_FRAMES;
      if hp <= 0 {
        Die();
      } else {
        ChangeState(Damage);
      }
    }

    /** The fatal branch of player_damage: no energy, not alive, the death state frozen for a while. */
    method Die()
      modifies this
      ensures Data() == ChangedState(old(Data()).(hp := 0, alive := false), Death).(frameTimer := DEATH_FREEZE_FRAMES)
    {
      hp, alive := 0, false;
      ChangeState(Death);
      frameTimer := DEATH_FREEZE_FRAMES;
    }

    /** player_damage_from. */
    method ApplyDamageFrom(damage: int, sourceX: int)
      modifies this
      ensures Data() == DamagedFrom(old(Data()), damage, sourceX)
    {
      if !alive {
        return;
      }
      if invulnTimer > 0 {
        return;
      }
      var kbX := if sourceX < body.pos.x then KNOCKBACK_VEL_X else -KNOCKBACK_VEL_X;
      body := body.(vel := Vec2(kbX, -KNOCKBACK_VEL_Y));
      ApplyDamage(damage);
    }

    /** Step 4 of player_update. */
    method HazardResponse()
      modifies this
      ensures Data() == HazardStep(old(Data()))
    {
      if body.contact.onHazard && invulnTimer == 0 {
        if body.contact.hazardType == COLL_HAZARD_SPIKE {
          SetVelY(-KNOCKBACK_VEL_Y);
          ApplyDamage(SPIKE_DAMAGE);
        } else if body.contact.hazardType == COLL_HAZARD_LAVA {
          body := body.(env := ENV_LAVA);
          ApplyDamage(LAVA_DAMAGE);
        }
      }
      if !body.contact.onHazard && body.env == ENV_LAVA {
        body := body.(env := ENV_AIR);
      }
    }

    /** Step 5 of player_update: arm the crumble timer of the block under the feet if it is idle. */
    method ProbeCrumble(room: RoomData)
      requires room.Valid()
      modifies room.crumbleTimer
      ensures var c := CrumbleCell(room.View(), Data());
        forall i :: 0 <= i < ROOM_CELLS ==>
          room.crumbleTimer[i] == if i == c && old(room.crumbleTimer[i]) == 0 then CRUMBLE_FRAMES else old(room.crumbleTimer[i])
    {
      if body.contact.onGround {
        var fx := FxToInt(body.pos.x) / TILE_SIZE;
        var fy := FxToInt(body.pos.y + body.hitbox.halfH) / TILE_SIZE;
        if CollisionAt(room.View(), fx, fy) == COLL_SPECIAL_CRUMBLE {
          var w := room.width;
          CellIndexInRange(fx, fy, w, room.height);
          var idx := fy * w + fx;
          if room.crumbleTimer[idx] == 0 {
            room.crumbleTimer[idx] := CRUMBLE_FRAMES;
          }
        }
      }
    }

    /** Steps 1 to 4 of player_update: handler, physics, post-physics corrections, hazards. */
    method HandlerPhysicsHazard(room: RoomData, inp: InputSystem)
      requires room.Valid()
      modifies this
      ensures Data() == BeforeTimers(room.View(), old(Data()), inp.State())
    {
      ghost var d0, g, k := Data(), room.View(), inp.State();
      RunHandler(inp);
      ghost var h := Handled(d0, k);
      body := UpdateBody(room.View(), body);
      assert Data() == h.(body := Updated(g, h.body));
      PostPhysicsCheck(inp);
      HazardResponse();
    }

    /** player_update. */
    method Update(room: RoomData, inp: InputSystem)
      requires room.Valid()
      modifies this, room.crumbleTimer
      ensures Data() == Stepped(old(room.View()), old(Data()), inp.State())
      ensures var c := CrumbleArmed(old(room.View()), old(Data()), inp.State());
        forall i :: 0 <= i < ROOM_CELLS ==>
          room.crumbleTimer[i] == if i == c && old(room.crumbleTimer[i]) == 0 then CRUMBLE_FRAMES else old(room.crumbleTimer[i])
    {
      if !alive {
        return;
      }
      ghost var g := room.View();
      HandlerPhysicsHazard(room, inp);
      ProbeCrumble(room);
      assert room.View() == g;
      TickTimers();
    }

    /** Step 6 of player_update: the invulnerability and shinespark countdowns. */
    method TickTimers()
      modifies this
      ensures Data() == TimersStep(old(Data()))
    {
      if invulnTimer > 0 {
        invulnTimer := invulnTimer - 1;
      }
      if shinesparkTimer > 0 {
        shinesparkTimer := shinesparkTimer - 1;
      }
    }
  }

  // ---------------------------------------------------------------------
  // Properties
  // ---------------------------------------------------------------------

  /** change_state restarts the animation and sizes the hitbox for the new state; nothing else moves. */
  lemma ChangeStateSetsHitbox(d: PlayerData, s: PState)
    ensures var r := ChangedState(d, s);
      r.state == s && r.frameIndex == 0 && r.frameTimer == 0 &&
      (s == Crouching ==> r.body.hitbox.halfH == SAMUS_CROUCH_H) &&
      (s == MorphBall || s == SpringBall ==> r.body.hitbox.halfH == SAMUS_MORPH_H) &&
      (s != Crouching && s != MorphBall && s != SpringBall ==> r.body.hitbox.halfH == SAMUS_HALF_H) &&
      r.body.pos == d.body.pos && r.body.vel == d.body.vel && r.hp == d.hp && r.alive == d.alive &&
      r.invulnTimer == d.invulnTimer
  {
  }

  /** The damage gate: a dead or invulnerable player is not touched by either damage entry point. */
  lemma DamageGate(d: PlayerData, damage: int, sourceX: int)
    requires !d.alive || d.invulnTimer > 0
    ensures Damaged(d, damage) == d && DamagedFrom(d, damage, sourceX) == d
  {
  }

  /** A hit through the gate: energy drops (stopping at 0), invulnerability starts, and the state follows. */
  lemma DamageOutcome(d: PlayerData, damage: int)
    requires d.alive && d.invulnTimer <= 0
    ensures var r := Damaged(d, damage);
      r.invulnTimer == INVULN_FRAMES &&
      r.hp == (if d.hp - damage <= 0 then 0 else d.hp - damage) &&
      (r.alive <==> d.hp - damage > 0) &&
      (r.alive ==> r.state == Damage && r.frameTimer == 0) &&
      (!r.alive ==> r.state == Death && r.frameTimer == DEATH_FREEZE_FRAMES) &&
      r.body.vel == d.body.vel && r.body.pos == d.body.pos
  {
  }

  /** A second hit right after the first changes nothing: invulnerability (or death) blocks it. */
  lemma SecondHitIgnored(d: PlayerData, first: int, second: int, sourceX: int)
    requires d.alive && d.invulnTimer <= 0
    ensures Damaged(Damaged(d, first), second) == Damaged(d, first)
    ensures DamagedFrom(Damaged(d, first), second, sourceX) == Damaged(d, first)
  {
    DamageOutcome(d, first);
  }

  /** player_damage_from pushes away from the source and upward, then applies player_damage. */
  lemma KnockbackAwayFromSource(d: PlayerData, damage: int, sourceX: int)
    requires d.alive && d.invulnTimer <= 0
    ensures var r := DamagedFrom(d, damage, sourceX);
      (sourceX < d.body.pos.x ==> r.body.vel.x == KNOCKBACK_VEL_X) &&
      (sourceX >= d.body.pos.x ==> r.body.vel.x == -KNOCKBACK_VEL_X) &&
      r.body.vel.y == -KNOCKBACK_VEL_Y &&
      r.hp == Damaged(d, damage).hp && r.state == Damaged(d, damage).state &&
      r.invulnTimer == INVULN_FRAMES
  {
  }

  /** Landing ends an airborne state: in RUNNING when a direction is held, otherwise STANDING. */
  lemma LandingCorrection(d: PlayerData, k: KeyState)
    requires d.body.contact.onGround && Airborne(d.state)
    ensures PostPhysics(d, k).state == (if HorizontalHeld(k) then Running else Standing)
  {
  }

  /** Leaving the ground in a grounded state, or reaching the apex of a jump, starts a fall. */
  lemma FallingCorrections(d: PlayerData, k: KeyState)
    requires !d.body.contact.onGround
    ensures Grounded(d.state) ==> PostPhysics(d, k).state == Falling
    ensures Rising(d.state) && d.body.vel.y >= 0 ==> PostPhysics(d, k).state == Falling
    ensures Rising(d.state) && d.body.vel.y < 0 ==> PostPhysics(d, k).state == d.state
  {
  }

  /** The corrections leave the states they do not name alone, and only change state and animation. */
  lemma PostPhysicsKeepsOtherStates(d: PlayerData, k: KeyState)
    requires !Airborne(d.state) && !Grounded(d.state)
    ensures PostPhysics(d, k) == d
  {
  }

  /** Variable jump height: releasing B while rising faster than 1 px per frame clamps to exactly 1 px per frame. */
  lemma {:induction false} JumpReleaseCap(d: PlayerData, k: KeyState)
    requires Rising(d.state)
    ensures !KeyHeld(k, KEY_B) && d.body.vel.y < -FX_ONE ==> Handled(d, k).body.vel.y == -FX_ONE
    ensures KeyHeld(k, KEY_B) || d.body.vel.y >= -FX_ONE ==> Handled(d, k).body.vel.y == d.body.vel.y
    ensures Handled(d, k).state == d.state
  {
    RisingHandled(d, k);
    AirControlKeepsVertical(d, k);
  }

  lemma RisingHandled(d: PlayerData, k: KeyState)
    requires Rising(d.state)
    ensures Handled(d, k) == JumpCut(AirControl(d, k), k)
  {
  }

  /** Steering in the air touches only the horizontal speed and the facing. */
  lemma AirControlKeepsVertical(d: PlayerData, k: KeyState)
    ensures AirControl(d, k).body.vel.y == d.body.vel.y && AirControl(d, k).state == d.state
  {
  }

  /** The physics step never leaves on_hazard raised. */
  lemma PhysicsClearsHazard(g: Grid, h: PlayerData)
    requires GridValid(g)
    ensures !Updated(g, h.body).contact.onHazard
  {
    UpdateContactsComeFromThisStep(g, h.body);
  }

  /** Every hazard branch is dead after physics: step 4 only restores a lava environment to air. */
  lemma {:induction false} HazardInert(g: Grid, d: PlayerData, k: KeyState)
    requires GridValid(g)
    ensures var h := Handled(d, k);
      var p := PostPhysics(h.(body := Updated(g, h.body)), k);
      BeforeTimers(g, d, k) == (if p.body.env == ENV_LAVA then p.(body := p.body.(env := ENV_AIR)) else p)
  {
    var h := Handled(d, k);
    PhysicsClearsHazard(g, h);
    var p := PostPhysics(h.(body := Updated(g, h.body)), k);
    assert p.body.contact == Updated(g, h.body).contact;
  }

  /** A dead player is frozen: player_update returns at once, so the death countdown never runs. */
  lemma DeadPlayerFrozen(g: Grid, d: PlayerData, k: KeyState)
    requires GridValid(g) && !d.alive
    ensures Stepped(g, d, k) == d && CrumbleArmed(g, d, k) == -1
  {
  }

  /** After a fatal hit the frame timer stays at 120 for every later update. */
  lemma DeathFreezeStays(g: Grid, d: PlayerData, damage: int, k: KeyState)
    requires GridValid(g) && d.alive && d.invulnTimer <= 0 && d.hp - damage <= 0
    ensures Stepped(g, Damaged(d, damage), k).frameTimer == DEATH_FREEZE_FRAMES
  {
    DamageOutcome(d, damage);
    DeadPlayerFrozen(g, Damaged(d, damage), k);
  }

  /**
   * player_update with the death countdown running: a dead player in DEATH
   * still gets state_death, so the 120-frame freeze counts down to 0.
   */
  function SteppedCorrected(g: Grid, d: PlayerData, k: KeyState): (r: PlayerData)
    requires GridValid(g)
    ensures d.alive ==> r == Stepped(g, d, k)
    ensures !d.alive ==> !r.alive && r.state == d.state && r.body.pos == d.body.pos && r.hp == d.hp
    ensures !d.alive && d.state == Death && d.frameTimer > 0 ==> r.frameTimer == d.frameTimer - 1
  {
    if !d.alive then (if d.state == Death then DeathStep(d) else d) else Stepped(g, d, k)
  }

  /** n updates of the corrected player_update with the same keys. */
  function CorrectedRun(g: Grid, d: PlayerData, k: KeyState, n: nat): PlayerData
    requires GridValid(g)
    decreases n
  {
    if n == 0 then d else CorrectedRun(g, SteppedCorrected(g, d, k), k, n - 1)
  }

  /** In DEATH the corrected update takes the frame timer down by one per update. */
  lemma {:induction false} CorrectedCountdown(g: Grid, d: PlayerData, k: KeyState, n: nat)
    requires GridValid(g) && !d.alive && d.state == Death && n <= d.frameTimer
    decreases n
    ensures var r := CorrectedRun(g, d, k, n);
      !r.alive && r.state == Death && r.frameTimer == d.frameTimer - n
  {
    if n > 0 {
      CorrectedCountdown(g, SteppedCorrected(g, d, k), k, n - 1);
    }
  }

  /** With the correction, 120 updates after a fatal hit the freeze has ended and the death screen is due. */
  lemma CorrectedDeathCountdown(g: Grid, d: PlayerData, damage: int, k: KeyState)
    requires GridValid(g) && d.alive && d.invulnTimer <= 0 && d.hp - damage <= 0
    ensures var r := CorrectedRun(g, Damaged(d, damage), k, DEATH_FREEZE_FRAMES);
      !r.alive && r.state == Death && r.frameTimer == 0
  {
    DamageOutcome(d, damage);
    CorrectedCountdown(g, Damaged(d, damage), k, DEATH_FREEZE_FRAMES);
  }

  /** The invulnerability timer of a living player drops by one per update and stays non-negative. */
  lemma {:induction false} InvulnCountsDown(g: Grid, d: PlayerData, k: KeyState)
    requires GridValid(g) && d.alive && d.invulnTimer >= 0
    ensures Stepped(g, d, k).invulnTimer == (if d.invulnTimer > 0 then d.invulnTimer - 1 else 0)
  {
    HazardInert(g, d, k);
    assert BeforeTimers(g, d, k).invulnTimer == d.invulnTimer;
  }

  /** The handler reaches MORPHBALL only from CROUCHING with A pressed and the morph ball equipped. */
  lemma {:induction false} MorphOnlyFromCrouch(d: PlayerData, k: KeyState)
    requires Handled(d, k).state == MorphBall && d.state != MorphBall
    ensures d.state == Crouching && KeyPressed(k, KEY_A) && d.equipment & EQUIP_MORPH_BALL != 0
  {
    match d.state
    case Standing =>
    case Running =>
    case Jumping =>
    case SpinJumping =>
    case Falling =>
    case Crouching =>
    case Damage =>
    case Death =>
    case _ =>
  }

  /** Over a whole update, morph ball is entered only from a crouch with the morph ball equipped. */
  lemma {:induction false} MorphBallReachability(g: Grid, d: PlayerData, k: KeyState)
    requires GridValid(g) && d.alive
    requires Stepped(g, d, k).state == MorphBall && d.state != MorphBall
    ensures d.state == Crouching && KeyPressed(k, KEY_A) && d.equipment & EQUIP_MORPH_BALL != 0
  {
    HazardInert(g, d, k);
    var h := Handled(d, k);
    var p := PostPhysics(h.(body := Updated(g, h.body)), k);
    assert p.state == MorphBall ==> h.state == MorphBall;
    MorphOnlyFromCrouch(d, k);
  }
}
