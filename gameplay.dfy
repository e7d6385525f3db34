/**
 * The gameplay glue of source/gameplay.c: the handlers of the title, file
 * select, gameplay, pause, death and ending states, the door fade machine,
 * firing, pickups, the save station and the boss-defeat edge.
 *
 * The statics of the file (progress, transition machine, cursor) are the
 * fields of a `GameFlow` object; g_player is a `Player.Player` and the save
 * image a `Save.Sram`, which the methods change in place. Every other
 * routine the handlers call (graphics, enemy and projectile pools, room
 * loading, camera, state_set) is recorded as an `Effect`, in call order.
 * Each method is specified by a function of the old state, and the
 * properties are lemmas about those functions.
 */
module Gameplay {
  import opened CInt
  import opened SmTypes
  import opened PhysicsConstants
  import opened Physics
  import opened Room
  import opened Input
  import opened Player
  import Projectile
  import Save
  import State
  import Boss

  // ---------------------------------------------------------------------
  // Statics and requests
  // ---------------------------------------------------------------------

  datatype TransState = TransNone | FadeOut | Load | FadeIn

  const FADE_FRAMES: int := 8

  /** The fields of a door record that gameplay.c reads. */
  datatype Door = Door(destArea: int, destRoom: int, direction: int, spawnX: int, spawnY: int)

  const NO_DOOR: Door := Door(0, 0, 0, 0, 0)

  /** The statics of gameplay.c as one value. */
  datatype Flow = Flow(
    timeFrames: int, bossFlags: bv16, activeSlot: int, bossWasActive: bool,
    trans: TransState, timer: int, door: Door,
    initialized: bool, pausing: bool, cursor: int)

  /** The zero-initialised statics. */
  const ZERO_FLOW: Flow := Flow(0, 0, 0, false, TransNone, 0, NO_DOOR, false, false, 0)

  /** A call into a routine outside gameplay.c. */
  datatype Effect =
    | Brightness(level: int)          // graphics_set_brightness and graphics_set_brightness_sub
    | MainBrightness(level: int)      // graphics_set_brightness alone
    | ClearEntities                   // enemy_clear_all, projectile_clear_all, boss_init
    | InitPools                       // enemy_pool_init, projectile_pool_init, boss_init
    | LoadRoom(area: int, room: int)  // room_load
    | InitCamera                      // camera_init
    | SpawnRoomEnemies                // enemy_spawn for each spawn point of the loaded room
    | SpawnBoss(btype: int, x: int, y: int)
    | ShakeCamera(frames: int, magnitude: int)
    | Fire(ptype: nat, x: int, y: int, vx: int, vy: int)   // projectile_spawn, owned by the player
    | RequestState(id: int)           // state_set
    | RunWorld                        // crumble blocks, enemies, boss, projectiles, camera
    | ShowPlayTime(hours: int, minutes: int, seconds: int)

  /** The transition machine never sits in a fade with a timer outside 1..FADE_FRAMES, and the clock is a uint32. */
  predicate TransOk(f: Flow)
  {
    (f.trans == FadeOut || f.trans == FadeIn) ==> 1 <= f.timer <= FADE_FRAMES
  }

  predicate FlowOk(f: Flow)
  {
    TransOk(f) && IsUint32(f.timeFrames)
  }

  /** Every brightness written lies in the hardware range [-16, 0]. */
  predicate BrightnessIn(effs: seq<Effect>)
  {
    forall i :: 0 <= i < |effs| ==> (effs[i].Brightness? ==> -16 <= effs[i].level <= 0)
  }

  // ---------------------------------------------------------------------
  // Weapons
  // ---------------------------------------------------------------------

  /** The equipment bit that gives a beam projectile type (0 for the power beam and non-beams). */
  function BeamFlag(t: nat): Equipment
  {
    if t == Projectile.PROJ_ICE_BEAM then EQUIP_ICE_BEAM
    else if t == Projectile.PROJ_WAVE_BEAM then EQUIP_WAVE_BEAM
    else if t == Projectile.PROJ_SPAZER_BEAM then EQUIP_SPAZER_BEAM
    else if t == Projectile.PROJ_PLASMA_BEAM then EQUIP_PLASMA_BEAM
    else 0
  }

  /** get_beam_type: the highest-numbered beam the player owns, the power beam when none. */
  function BeamType(e: Equipment): (r: nat)
    ensures Projectile.PROJ_POWER_BEAM <= r <= Projectile.PROJ_PLASMA_BEAM
    ensures r > Projectile.PROJ_POWER_BEAM ==> e & BeamFlag(r) != 0
    ensures forall t: nat :: r < t <= Projectile.PROJ_PLASMA_BEAM ==> e & BeamFlag(t) == 0
  {
    if e & EQUIP_PLASMA_BEAM != 0 then Projectile.PROJ_PLASMA_BEAM
    else if e & EQUIP_SPAZER_BEAM != 0 then Projectile.PROJ_SPAZER_BEAM
    else if e & EQUIP_WAVE_BEAM != 0 then Projectile.PROJ_WAVE_BEAM
    else if e & EQUIP_ICE_BEAM != 0 then Projectile.PROJ_ICE_BEAM
    else Projectile.PROJ_POWER_BEAM
  }

  /** can_fire. */
  function CanFire(s: PState): (r: bool)
    ensures r <==> s in {Standing, Running, Jumping, SpinJumping, Falling, Crouching}
  {
    match s
    case Standing => true
    case Running => true
    case Jumping => true
    case SpinJumping => true
    case Falling => true
    case Crouching => true
    case _ => false
  }

  /** A player shot from Samus's position, `px` pixels per frame in the facing direction. */
  function Shot(p: PlayerData, ptype: nat, px: int): Effect
  {
    var speed := px * FX_ONE;
    Fire(ptype, p.body.pos.x, p.body.pos.y, if p.facing == DIR_RIGHT then speed else -speed, 0)
  }

  /** No effect in the sequence is a state_set request. */
  predicate NoRequests(effs: seq<Effect>)
  {
    forall i :: 0 <= i < |effs| ==> !effs[i].RequestState?
  }

  /** The firing and bomb code of gameplay_update: the player afterwards and the shots, in order. */
  function Fired(p: PlayerData, k: KeyState): (r: (PlayerData, seq<Effect>))
    ensures r.0 == p.(missiles := r.0.missiles, supers := r.0.supers)
    ensures forall i :: 0 <= i < |r.1| ==> r.1[i].Fire?
    ensures |r.1| <= 4
    ensures r.0.missiles == p.missiles || (p.missiles > 0 && r.0.missiles == p.missiles - 1)
    ensures r.0.supers == p.supers || (p.supers > 0 && r.0.supers == p.supers - 1)
    ensures !CanFire(p.state) ==> r.0 == p
  {
    var armed := CanFire(p.state);
    var beam := armed && KeyPressed(k, KEY_X);
    var missile := armed && KeyPressed(k, KEY_R) && p.missiles > 0;
    var superMissile := armed && KeyPressed(k, KEY_L) && p.supers > 0;
    var bomb := p.state == MorphBall && p.equipment & EQUIP_BOMBS != 0 && KeyPressed(k, KEY_B);
    (p.(missiles := if missile then p.missiles - 1 else p.missiles,
        supers := if superMissile then p.supers - 1 else p.supers),
     (if beam then [Shot(p, BeamType(p.equipment), 4)] else []) +
     (if missile then [Shot(p, Projectile.PROJ_MISSILE, 5)] else []) +
     (if superMissile then [Shot(p, Projectile.PROJ_SUPER_MISSILE, 5)] else []) +
     (if bomb then [Fire(Projectile.PROJ_BOMB, p.body.pos.x, p.body.pos.y, 0, 0)] else []))
  }

  /** The number of shots of type `t` among the effects. */
  function ShotCount(effs: seq<Effect>, t: nat): nat
  {
    if |effs| == 0 then 0
    else (if effs[0].Fire? && effs[0].ptype == t then 1 else 0) + ShotCount(effs[1..], t)
  }

  // ---------------------------------------------------------------------
  // Pickups
  // ---------------------------------------------------------------------

  /** The equipment bit an item grants, 0 for tanks and unknown items. */
  function ItemBit(item: int): Equipment
  {
    if item == ITEM_MORPH_BALL then EQUIP_MORPH_BALL
    else if item == ITEM_BOMBS then EQUIP_BOMBS
    else if item == ITEM_HI_JUMP then EQUIP_HI_JUMP
    else if item == ITEM_SPEED_BOOST then EQUIP_SPEED_BOOST
    else if item == ITEM_VARIA_SUIT then EQUIP_VARIA_SUIT
    else if item == ITEM_GRAVITY_SUIT then EQUIP_GRAVITY_SUIT
    else if item == ITEM_SPACE_JUMP then EQUIP_SPACE_JUMP
    else if item == ITEM_SCREW_ATTACK then EQUIP_SCREW_ATTACK
    else if item == ITEM_CHARGE_BEAM then EQUIP_CHARGE_BEAM
    else if item == ITEM_ICE_BEAM then EQUIP_ICE_BEAM
    else if item == ITEM_WAVE_BEAM then EQUIP_WAVE_BEAM
    else if item == ITEM_SPAZER_BEAM then EQUIP_SPAZER_BEAM
    else if item == ITEM_PLASMA_BEAM then EQUIP_PLASMA_BEAM
    else if item == ITEM_GRAPPLE then EQUIP_GRAPPLE
    else if item == ITEM_XRAY then EQUIP_XRAY
    else 0
  }

  /** The items that raise a capacity rather than grant an equipment bit. */
  predicate IsTank(item: int)
  {
    item == ITEM_ENERGY_TANK || item == ITEM_MISSILE_TANK || item == ITEM_SUPER_TANK ||
    item == ITEM_PB_TANK || item == ITEM_RESERVE_TANK
  }

  /**
   * The pickup switch of gameplay_update. An item outside the switch has
   * ItemBit 0, so setting its bit is the switch's empty default.
   */
  function PickedUp(p: PlayerData, item: int): (r: PlayerData)
    ensures r.body == p.body && r.state == p.state && r.facing == p.facing && r.alive == p.alive
    ensures r.invulnTimer == p.invulnTimer && r.frameTimer == p.frameTimer
    ensures r.hpMax >= p.hpMax && r.missilesMax >= p.missilesMax && r.supersMax >= p.supersMax
    ensures r.powerBombsMax >= p.powerBombsMax && r.reserveHpMax >= p.reserveHpMax
    ensures IsTank(item) ==> r.equipment == p.equipment
    ensures !IsTank(item) ==> r == p.(equipment := r.equipment)
  {
    if IsTank(item) then TankFilled(p, item) else p.(equipment := p.equipment | ItemBit(item))
  }

  /** The tank cases of the pickup switch. */
  function TankFilled(p: PlayerData, item: int): PlayerData
    requires IsTank(item)
  {
    if item == ITEM_ENERGY_TANK then
      p.(hpMax := p.hpMax + ENERGY_TANK_VALUE, hp := p.hpMax + ENERGY_TANK_VALUE)
    else if item == ITEM_MISSILE_TANK then p.(missilesMax := p.missilesMax + 5, missiles := p.missiles + 5)
    else if item == ITEM_SUPER_TANK then p.(supersMax := p.supersMax + 5, supers := p.supers + 5)
    else if item == ITEM_PB_TANK then p.(powerBombsMax := p.powerBombsMax + 5, powerBombs := p.powerBombs + 5)
    else p.(reserveHpMax := p.reserveHpMax + RESERVE_TANK_VALUE)
  }

  // ---------------------------------------------------------------------
  // Play time
  // ---------------------------------------------------------------------

  const FRAMES_PER_SECOND: int := 60
  const FRAMES_PER_MINUTE: int := 3600
  const FRAMES_PER_HOUR: int := 216000

  datatype PlayTime = PlayTime(hours: int, minutes: int, seconds: int, frames: int)

  /** The split the save station stores. */
  function SplitTime(t: nat): (r: PlayTime)
    ensures 0 <= r.minutes < 60 && 0 <= r.seconds < 60 && 0 <= r.frames < 60 && 0 <= r.hours
  {
    PlayTime(t / FRAMES_PER_HOUR, (t / FRAMES_PER_MINUTE) % 60, (t / FRAMES_PER_SECOND) % 60, t % FRAMES_PER_SECOND)
  }

  /** file_select_update's reconstruction, in uint32 arithmetic. */
  function JoinTime(pt: PlayTime): (r: int)
    ensures IsUint32(r)
  {
    (pt.hours * FRAMES_PER_HOUR + pt.minutes * FRAMES_PER_MINUTE + pt.seconds * FRAMES_PER_SECOND + pt.frames)
      % UINT32_LIMIT
  }

  /** g_game_time_frames++ on a uint32. */
  function Tick(t: int): (r: int)
    requires IsUint32(t)
    ensures IsUint32(r) && (t < UINT32_LIMIT - 1 ==> r == t + 1)
  {
    (t + 1) % UINT32_LIMIT
  }

  /** ending_enter's hours, minutes and seconds, computed from whole seconds. */
  function EndingTime(t: nat): (int, int, int)
  {
    var totalSecs := t / 60;
    (totalSecs / 3600, (totalSecs / 60) % 60, totalSecs % 60)
  }

  // ---------------------------------------------------------------------
  // Door transitions
  // ---------------------------------------------------------------------

  /** The outcome of a step on the statics and the player. */
  datatype Step = Step(flow: Flow, player: PlayerData, effects: seq<Effect>)

  /** start_door_transition. */
  function DoorStarted(f: Flow, d: Door): (r: Flow)
    ensures TransOk(r) && r.trans == FadeOut && r.door == d
  {
    f.(door := d, trans := FadeOut, timer := FADE_FRAMES)
  }

  function FadeOutLevel(timer: int): int { -16 + TruncDiv(timer * 16, FADE_FRAMES) }

  function FadeInLevel(timer: int): int { -16 + TruncDiv((FADE_FRAMES - timer) * 16, FADE_FRAMES) }

  /** Samus moved to the door's spawn point, at rest. */
  function Placed(p: PlayerData, d: Door): PlayerData
  {
    p.(body := p.body.(pos := Vec2(d.spawnX * FX_ONE, d.spawnY * FX_ONE), vel := Vec2(0, 0)))
  }

  predicate SporeRoom(area: int, room: int) { area == 0 && room == 3 }

  /** Whether entering room area:room spawns Spore Spawn: its room, and not yet defeated. */
  predicate BossAutoSpawn(area: int, room: int, flags: bv16)
  {
    SporeRoom(area, room) && flags & Save.BOSS_FLAG_SPORE_SPAWN == 0
  }

  /** The enemy and boss spawns that follow a room load. */
  function RoomEntry(area: int, room: int, flags: bv16): seq<Effect>
  {
    [SpawnRoomEnemies] +
    (if BossAutoSpawn(area, room, flags) then [SpawnBoss(Boss.BOSS_SPORE_SPAWN, 128 * FX_ONE, 48 * FX_ONE)] else [])
  }

  /** The FADEOUT case: dim one step; at the end go fully dark and load. */
  function FadeOutStep(f: Flow): (Flow, seq<Effect>)
  {
    var level := FadeOutLevel(f.timer);
    if f.timer - 1 <= 0 then (f.(timer := f.timer - 1, trans := Load), [Brightness(level), Brightness(-16)])
    else (f.(timer := f.timer - 1), [Brightness(level)])
  }

  /** The LOAD case: clear, load the destination, place Samus at the door's spawn point, spawn, fade in. */
  function LoadStep(f: Flow, p: PlayerData): Step
  {
    var d := f.door;
    Step(f.(trans := FadeIn, timer := FADE_FRAMES, bossWasActive := BossAutoSpawn(d.destArea, d.destRoom, f.bossFlags)),
         Placed(p, d),
         [ClearEntities, LoadRoom(d.destArea, d.destRoom), InitCamera] + RoomEntry(d.destArea, d.destRoom, f.bossFlags))
  }

  /** The FADEIN case: brighten one step; at the end restore full brightness and finish. */
  function FadeInStep(f: Flow): (Flow, seq<Effect>)
  {
    var level := FadeInLevel(f.timer);
    if f.timer - 1 <= 0 then (f.(timer := f.timer - 1, trans := TransNone), [Brightness(level), Brightness(0)])
    else (f.(timer := f.timer - 1), [Brightness(level)])
  }

  /** update_door_transition, apart from its result, which is `f.trans != TransNone`. */
  function TransitionStep(f: Flow, p: PlayerData): (s: Step)
    ensures f.trans == TransNone ==> s == Step(f, p, [])
    ensures s.flow.timeFrames == f.timeFrames && s.flow.bossFlags == f.bossFlags
    ensures s.flow.activeSlot == f.activeSlot && s.flow.door == f.door
    ensures s.player == (if f.trans == Load then Placed(p, f.door) else p)
    ensures NoRequests(s.effects)
  {
    match f.trans
    case TransNone => Step(f, p, [])
    case FadeOut => Step(FadeOutStep(f).0, p, FadeOutStep(f).1)
    case Load => LoadStep(f, p)
    case FadeIn => Step(FadeInStep(f).0, p, FadeInStep(f).1)
  }

  /**
   * One call of update_door_transition keeps the timer in range, emits only
   * brightness levels in [-16, 0], leaves the clock, the boss flags and the
   * save slot alone, and moves Samus only in the LOAD step.
   */
  lemma {:induction false} TransitionKeepsOk(f: Flow, p: PlayerData)
    requires TransOk(f)
    ensures var s := TransitionStep(f, p);
      TransOk(s.flow) && BrightnessIn(s.effects) &&
      s.flow.timeFrames == f.timeFrames && s.flow.bossFlags == f.bossFlags && s.flow.activeSlot == f.activeSlot &&
      s.flow.door == f.door && s.player == (if f.trans == Load then Placed(p, f.door) else p)
  {
    match f.trans
    case TransNone =>
    case FadeOut => FadeOutKeepsOk(f);
    case Load => LoadKeepsOk(f, p);
    case FadeIn => FadeInKeepsOk(f);
  }

  lemma FadeOutKeepsOk(f: Flow)
    requires TransOk(f) && f.trans == FadeOut
    ensures var s := FadeOutStep(f);
      TransOk(s.0) && BrightnessIn(s.1) && s.0 == f.(trans := s.0.trans, timer := f.timer - 1)
  {
    FadeLevelExact(f.timer);
  }

  lemma FadeInKeepsOk(f: Flow)
    requires TransOk(f) && f.trans == FadeIn
    ensures var s := FadeInStep(f);
      TransOk(s.0) && BrightnessIn(s.1) && s.0 == f.(trans := s.0.trans, timer := f.timer - 1)
  {
    FadeLevelExact(FADE_FRAMES - f.timer);
  }

  lemma LoadKeepsOk(f: Flow, p: PlayerData)
    requires f.trans == Load
    ensures var s := LoadStep(f, p);
      TransOk(s.flow) && BrightnessIn(s.effects) && s.flow.door == f.door &&
      s.flow.timeFrames == f.timeFrames && s.flow.bossFlags == f.bossFlags && s.flow.activeSlot == f.activeSlot
  {
    var s := LoadStep(f, p);
    assert forall i :: 0 <= i < |s.effects| ==> !s.effects[i].Brightness?;
  }

  /** The fade arithmetic is exact: for 0 <= t <= 8, t * 16 / 8 is 2t. */
  lemma FadeLevelExact(t: int)
    requires 0 <= t <= FADE_FRAMES
    ensures TruncDiv(t * 16, FADE_FRAMES) == 2 * t
  {
    var q := TruncDiv(t * 16, FADE_FRAMES);
    assert q >= 0;
    assert q * 8 <= t * 16 < q * 8 + 8;
  }

  /** n consecutive calls of update_door_transition. */
  function Run(f: Flow, p: PlayerData, n: nat): Step
  {
    if n == 0 then Step(f, p, [])
    else
      var s := Run(f, p, n - 1);
      var t := TransitionStep(s.flow, s.player);
      Step(t.flow, t.player, s.effects + t.effects)
  }

  /** The phase of the k-th call after start_door_transition. */
  function Scheduled(k: nat): TransState
  {
    if k < 8 then FadeOut else if k == 8 then Load else if k < 17 then FadeIn else TransNone
  }

  /** The timer after the k-th call. */
  function ScheduledTimer(k: nat): int
  {
    if k < 8 then 8 - k else if k == 8 then 0 else if k < 17 then 17 - k else 0
  }

  // ---------------------------------------------------------------------
  // gameplay_update
  // ---------------------------------------------------------------------

  /** The key a door of the given direction needs held; none for an unknown direction. */
  function DoorKey(dir: int): KeyMask
  {
    if dir == DIR_RIGHT then KEY_RIGHT
    else if dir == DIR_LEFT then KEY_LEFT
    else if dir == DIR_UP then KEY_UP
    else if dir == DIR_DOWN then KEY_DOWN
    else 0
  }

  /**
   * The door gate: `touching` is what room_check_door_collision answers
   * for the player's body. It is not asked while a boss is active.
   */
  function DoorEntered(bossActive: bool, touching: Option<Door>, k: KeyState): (r: Option<Door>)
    ensures bossActive ==> r == None
    ensures r.Some? <==> !bossActive && touching.Some? && KeyHeld(k, DoorKey(touching.value.direction))
    ensures r.Some? ==> r == touching
  {
    if bossActive then None
    else match touching
      case None => None
      case Some(d) => if KeyHeld(k, DoorKey(d.direction)) then Some(d) else None
  }

  /** The save-station test: UP pressed, on the ground, on a save tile under the feet. */
  predicate AtSaveStation(g: Grid, p: PlayerData, k: KeyState)
    requires GridValid(g)
  {
    KeyPressed(k, KEY_UP) && p.body.contact.onGround &&
    CollisionAt(g, PixelToTile(FxToInt(p.body.pos.x)), PixelToTile(FxToInt(p.body.pos.y + p.body.hitbox.halfH)))
      == COLL_SPECIAL_SAVE
  }

  /** The SaveData the station fills: a zeroed record with the player's stats, the room, the flags and the split clock. */
  function StationRecord(p: PlayerData, area: int, room: int, flags: bv16, t: nat): Save.SaveRecord
  {
    var pt := SplitTime(t);
    Save.SaveRecord(p.hp, p.hpMax, p.missiles, p.missilesMax, p.supers, p.supersMax,
                    p.powerBombs, p.powerBombsMax, 0, 0, p.equipment,
                    pt.frames, pt.seconds, pt.minutes, pt.hours, flags, area, room)
  }

  /** The boss-death detection. */
  function BossEdge(f: Flow, bossActive: bool, area: int, room: int): (r: (Flow, seq<Effect>))
    ensures NoRequests(r.1) && r.0.activeSlot == f.activeSlot
  {
    if f.bossWasActive && !bossActive then
      (f.(bossWasActive := false,
          bossFlags := if SporeRoom(area, room) then f.bossFlags | Save.BOSS_FLAG_SPORE_SPAWN else f.bossFlags),
       [ShakeCamera(30, 4)])
    else (f, [])
  }

  /** What the routines outside gameplay.c answer during one gameplay_update. */
  datatype Frame = Frame(keys: KeyState, bossActive: bool, touching: Option<Door>, pickup: int)

  /** The outcome of gameplay_update: statics, player, the record handed to save_write if any, and the calls. */
  datatype Outcome = Outcome(flow: Flow, player: PlayerData, save: Option<Save.SaveRecord>, effects: seq<Effect>)

  /** The update reaches the timer and player_update: no transition, no death and no pause this frame. */
  predicate Reaches(f: Flow, p: PlayerData, k: KeyState)
  {
    f.trans == TransNone && !(p.state == Death && p.frameTimer == 0) && !(KeyPressed(k, KEY_START) && p.alive)
  }

  /** The part of gameplay_update after the early exits: clock, player_update, then the rest. */
  function PlayStep(f: Flow, p: PlayerData, g: Grid, area: int, room: int, fr: Frame): (o: Outcome)
    requires GridValid(g) && IsUint32(f.timeFrames)
    ensures NoRequests(o.effects) && o.flow.activeSlot == f.activeSlot
  {
    AfterMove(f.(timeFrames := Tick(f.timeFrames)), Stepped(g, p, fr.keys), g, area, room, fr)
  }

  /** What follows player_update: the station save, the boss edge, then the door, weapons and pickup. */
  function AfterMove(f: Flow, p: PlayerData, g: Grid, area: int, room: int, fr: Frame): (o: Outcome)
    requires GridValid(g) && f.timeFrames >= 0
    ensures NoRequests(o.effects) && o.flow.activeSlot == f.activeSlot
  {
    var save := if AtSaveStation(g, p, fr.keys) then Some(StationRecord(p, area, room, f.bossFlags, f.timeFrames)) else None;
    var edge := BossEdge(f, fr.bossActive, area, room);
    var tail := PlayTail(edge.0, p, fr);
    Outcome(tail.flow, tail.player, save, edge.1 + tail.effects)
  }

  /** The end of gameplay_update: a door entered starts a transition; otherwise weapons, the pickup, the world update. */
  function PlayTail(f: Flow, p: PlayerData, fr: Frame): (s: Step)
    ensures NoRequests(s.effects) && s.flow.activeSlot == f.activeSlot
  {
    match DoorEntered(fr.bossActive, fr.touching, fr.keys)
    case Some(d) => Step(DoorStarted(f, d), p, [])
    case None =>
      var fired := Fired(p, fr.keys);
      Step(f, PickedUp(fired.0, fr.pickup), fired.1 + [RunWorld])
  }

  /** gameplay_update in the current room area:room of grid g. */
  function GameplayStep(f: Flow, p: PlayerData, g: Grid, area: int, room: int, fr: Frame): (o: Outcome)
    requires GridValid(g) && FlowOk(f)
    ensures f.trans != TransNone ==> o.save == None && o.flow.timeFrames == f.timeFrames
    ensures o.flow.activeSlot == f.activeSlot
    ensures RequestState(STATE_DEATH) in o.effects ==> p.state == Death && p.frameTimer == 0
    ensures RequestState(STATE_PAUSE) in o.effects ==> p.alive && KeyPressed(fr.keys, KEY_START)
  {
    if f.trans != TransNone then
      var s := TransitionStep(f, p);
      Outcome(s.flow, s.player, None, s.effects)
    else Settled(f, p, g, area, room, fr)
  }

  /** gameplay_update with no transition running: the death and pause exits, else a frame of play. */
  function Settled(f: Flow, p: PlayerData, g: Grid, area: int, room: int, fr: Frame): (o: Outcome)
    requires GridValid(g) && IsUint32(f.timeFrames)
    ensures o.flow.activeSlot == f.activeSlot
    ensures RequestState(STATE_DEATH) in o.effects ==> p.state == Death && p.frameTimer == 0
    ensures RequestState(STATE_PAUSE) in o.effects ==> p.alive && KeyPressed(fr.keys, KEY_START)
  {
    if p.state == Death && p.frameTimer == 0 then
      Outcome(f, p, None, [RequestState(STATE_DEATH)])
    else if KeyPressed(fr.keys, KEY_START) && p.alive then
      Outcome(f.(pausing := true), p, None, [RequestState(STATE_PAUSE)])
    else PlayStep(f, p, g, area, room, fr)
  }

  /** save_write's effect on the image, as far as gameplay_update asks for one. */
  function Saved(img: seq<Save.byte>, slot: int, save: Option<Save.SaveRecord>): (r: seq<Save.byte>)
    requires Save.ImageOk(img)
    ensures Save.ImageOk(r)
  {
    match save
    case None => img
    case Some(d) => if Save.ValidSlot(slot) then Save.Written(img, slot, d) else img
  }

  // ---------------------------------------------------------------------
  // The other handlers
  // ---------------------------------------------------------------------

  /** gameplay_enter: a resume from pause keeps everything; otherwise a fresh start. */
  function Entered(f: Flow, p: PlayerData, roomLoaded: bool, area: int, room: int): Step
  {
    if f.initialized && roomLoaded then Step(f, p, [])
    else
      var a := if roomLoaded then area else 0;
      var rm := if roomLoaded then room else 0;
      Step(f.(trans := TransNone, bossWasActive := BossAutoSpawn(a, rm, f.bossFlags), initialized := true),
           INITIAL,
           [InitCamera, InitPools] + (if roomLoaded then [] else [LoadRoom(0, 0)]) + RoomEntry(a, rm, f.bossFlags))
  }

  /** gameplay_exit: a pause keeps everything; a real exit tears the entities down. */
  function Exited(f: Flow): (Flow, seq<Effect>)
  {
    if f.pausing then (f.(pausing := false), []) else (f.(initialized := false), [ClearEntities])
  }

  /** title_enter: dark screens and a fade-in through the transition machine. */
  function TitleEntered(f: Flow): (Flow, seq<Effect>)
  {
    (f.(trans := FadeIn, timer := FADE_FRAMES), [Brightness(-16)])
  }

  /** title_update. */
  function TitleStep(f: Flow, p: PlayerData, k: KeyState): Step
  {
    if f.trans != TransNone then TransitionStep(f, p)
    else Step(f, p, if KeyPressed(k, KEY_START) then [RequestState(STATE_FILE_SELECT)] else [])
  }

  /** The file-select cursor after DOWN then UP, in C's remainder. */
  function CursorMoved(c: int, k: KeyState): int
  {
    var c1 := if KeyPressed(k, KEY_DOWN) then TruncRem(c + 1, Save.SAVE_SLOT_COUNT) else c;
    if KeyPressed(k, KEY_UP) then TruncRem(c1 + Save.SAVE_SLOT_COUNT - 1, Save.SAVE_SLOT_COUNT) else c1
  }

  /** The progress A loads for a slot, given what save_read finds there: the stored flags and clock, or zero. */
  function LoadedProgress(f: Flow, slot: int, read: Option<Save.SaveRecord>): Flow
  {
    match read
    case Some(sd) =>
      f.(activeSlot := slot, bossFlags := sd.bossFlags,
         timeFrames := JoinTime(PlayTime(sd.timeHours, sd.timeMinutes, sd.timeSeconds, sd.timeFrames)))
    case None => f.(activeSlot := slot, bossFlags := 0, timeFrames := 0)
  }

  /** file_select_update, with `read` the result of save_read for the slot under the moved cursor. */
  function FileSelectStep(f: Flow, k: KeyState, read: Option<Save.SaveRecord>): (Flow, seq<Effect>)
  {
    var f1 := f.(cursor := CursorMoved(f.cursor, k));
    (if KeyPressed(k, KEY_A) then LoadedProgress(f1, f1.cursor, read) else f1,
     (if KeyPressed(k, KEY_A) then [RequestState(STATE_GAMEPLAY)] else []) +
     (if KeyPressed(k, KEY_B) then [RequestState(STATE_TITLE)] else []))
  }

  /** The update of a screen that leaves for `target` when `key` is pressed. */
  function MenuStep(k: KeyState, key: KeyMask, target: int): seq<Effect>
  {
    if KeyPressed(k, key) then [RequestState(target)] else []
  }

  /** gameplay_register_states: the six implemented states get their own hooks. */
  function Registrations(m: State.Manager): State.Manager
    requires State.ManagerOk(m)
  {
    var m1 := State.WithHandlers(m, STATE_TITLE, State.Registered(STATE_TITLE));
    var m2 := State.WithHandlers(m1, STATE_FILE_SELECT, State.Registered(STATE_FILE_SELECT));
    var m3 := State.WithHandlers(m2, STATE_GAMEPLAY, State.Registered(STATE_GAMEPLAY));
    var m4 := State.WithHandlers(m3, STATE_PAUSE, State.Registered(STATE_PAUSE));
    var m5 := State.WithHandlers(m4, STATE_DEATH, State.Registered(STATE_DEATH));
    State.WithHandlers(m5, STATE_ENDING, State.Registered(STATE_ENDING))
  }

  // ---------------------------------------------------------------------
  // The statics as an object
  // ---------------------------------------------------------------------

  class GameFlow {
    var timeFrames: int
    var bossFlags: bv16
    var activeSlot: int
    var bossWasActive: bool
    var trans: TransState
    var timer: int
    var door: Door
    var initialized: bool
    var pausing: bool
    var cursor: int

    function Data(): Flow
      reads this
    {
      Flow(timeFrames, bossFlags, activeSlot, bossWasActive, trans, timer, door, initialized, pausing, cursor)
    }

    ghost predicate Valid()
      reads this
    {
      FlowOk(Data())
    }

    constructor ()
      ensures Data() == ZERO_FLOW && Valid()
    {
      timeFrames, bossFlags, activeSlot, bossWasActive := 0, 0, 0, false;
      trans, timer, door := TransNone, 0, NO_DOOR;
      initialized, pausing, cursor := false, false, 0;
    }

    method StartDoorTransition(d: Door)
      modifies this
      ensures Data() == DoorStarted(old(Data()), d)
    {
      door := d;
      trans := FadeOut;
      timer := FADE_FRAMES;
    }

    /** update_door_transition: true while a transition runs. */
    method UpdateDoorTransition(player: Player) returns (active: bool, effects: seq<Effect>)
      modifies this, player
      ensures active == (old(trans) != TransNone)
      ensures Step(Data(), player.Data(), effects) == TransitionStep(old(Data()), old(player.Data()))
    {
      if trans == TransNone {
        return false, [];
      }
      match trans {
        case FadeOut => effects := FadeOutTick();
        case Load => effects := LoadDestination(player);
        case FadeIn => effects := FadeInTick();
      }
      return true, effects;
    }

    method FadeOutTick() returns (effects: seq<Effect>)
      modifies this
      ensures Data() == FadeOutStep(old(Data())).0 && effects == FadeOutStep(old(Data())).1
    {
      var level := -16 + TruncDiv(timer * 16, FADE_FRAMES);
      effects := [Brightness(level)];
      timer := timer - 1;
      if timer <= 0 {
        effects := effects + [Brightness(-16)];
        trans := Load;
      }
    }

    method FadeInTick() returns (effects: seq<Effect>)
      modifies this
      ensures Data() == FadeInStep(old(Data())).0 && effects == FadeInStep(old(Data())).1
    {
      var level := -16 + TruncDiv((FADE_FRAMES - timer) * 16, FADE_FRAMES);
      effects := [Brightness(level)];
      timer := timer - 1;
      if timer <= 0 {
        effects := effects + [Brightness(0)];
        trans := TransNone;
      }
    }

    method LoadDestination(player: Player) returns (effects: seq<Effect>)
      modifies this, player
      ensures Step(Data(), player.Data(), effects) == LoadStep(old(Data()), old(player.Data()))
    {
      player.body := player.body.(pos := Vec2(door.spawnX * FX_ONE, door.spawnY * FX_ONE), vel := Vec2(0, 0));
      effects := [ClearEntities, LoadRoom(door.destArea, door.destRoom), InitCamera, SpawnRoomEnemies];
      bossWasActive := false;
      if door.destArea == 0 && door.destRoom == 3 {
        if bossFlags & Save.BOSS_FLAG_SPORE_SPAWN == 0 {
          effects := effects + [SpawnBoss(Boss.BOSS_SPORE_SPAWN, 128 * FX_ONE, 48 * FX_ONE)];
          bossWasActive := true;
        }
      }
      trans := FadeIn;
      timer := FADE_FRAMES;
    }

    /** The firing and bomb code of gameplay_update. */
    method FireWeapons(player: Player, k: KeyState) returns (shots: seq<Effect>)
      modifies player
      ensures (player.Data(), shots) == Fired(old(player.Data()), k)
    {
      var p := player.Data();
      var armed := CanFire(player.state);
      var missile := armed && KeyPressed(k, KEY_R) && player.missiles > 0;
      var superMissile := armed && KeyPressed(k, KEY_L) && player.supers > 0;
      var bomb := player.state == MorphBall && player.equipment & EQUIP_BOMBS != 0 && KeyPressed(k, KEY_B);
      shots := (if armed && KeyPressed(k, KEY_X) then [Shot(p, BeamType(player.equipment), 4)] else []) +
               (if missile then [Shot(p, Projectile.PROJ_MISSILE, 5)] else []) +
               (if superMissile then [Shot(p, Projectile.PROJ_SUPER_MISSILE, 5)] else []) +
               (if bomb then [Fire(Projectile.PROJ_BOMB, player.body.pos.x, player.body.pos.y, 0, 0)] else []);
      if missile {
        player.missiles := player.missiles - 1;
      }
      if superMissile {
        player.supers := player.supers - 1;
      }
    }

    /** The pickup switch of gameplay_update. */
    method ApplyPickup(player: Player, item: int)
      modifies player
      ensures player.Data() == PickedUp(old(player.Data()), item)
    {
      if IsTank(item) {
        FillTank(player, item);
      } else {
        GrantEquipment(player, item);
      }
    }

    /** The equipment cases of the pickup switch; an unknown item changes nothing. */
    method GrantEquipment(player: Player, item: int)
      requires !IsTank(item)
      modifies player
      ensures player.Data() == old(player.Data()).(equipment := old(player.equipment) | ItemBit(item))
    {
      var bit := ItemBit(item);
      if bit != 0 {
        player.equipment := player.equipment | bit;
      }
    }

    /** The tank cases of the pickup switch. */
    method FillTank(player: Player, item: int)
      requires IsTank(item)
      modifies player
      ensures player.Data() == TankFilled(old(player.Data()), item)
    {
      if item == ITEM_ENERGY_TANK {
        player.hpMax := player.hpMax + ENERGY_TANK_VALUE;
        player.hp := player.hpMax;
      } else if item == ITEM_MISSILE_TANK {
        player.missilesMax := player.missilesMax + 5;
        player.missiles := player.missiles + 5;
      } else if item == ITEM_SUPER_TANK {
        player.supersMax := player.supersMax + 5;
        player.supers := player.supers + 5;
      } else if item == ITEM_PB_TANK {
        player.powerBombsMax := player.powerBombsMax + 5;
        player.powerBombs := player.powerBombs + 5;
      } else {
        player.reserveHpMax := player.reserveHpMax + RESERVE_TANK_VALUE;
      }
    }

    /** gameplay_enter. */
    method Enter(player: Player, roomLoaded: bool, area: int, room: int) returns (effects: seq<Effect>)
      modifies this, player
      ensures Step(Data(), player.Data(), effects) == Entered(old(Data()), old(player.Data()), roomLoaded, area, room)
    {
      if initialized && roomLoaded {
        return [];
      }
      player.Init();
      effects := [InitCamera, InitPools];
      trans := TransNone;
      bossWasActive := false;
      var a, rm := area, room;
      if !roomLoaded {
        effects := effects + [LoadRoom(0, 0)];
        a, rm := 0, 0;
      }
      effects := effects + [SpawnRoomEnemies];
      if a == 0 && rm == 3 {
        if bossFlags & Save.BOSS_FLAG_SPORE_SPAWN == 0 {
          effects := effects + [SpawnBoss(Boss.BOSS_SPORE_SPAWN, 128 * FX_ONE, 48 * FX_ONE)];
          bossWasActive := true;
        }
      }
      initialized := true;
    }

    /** gameplay_exit. */
    method Exit() returns (effects: seq<Effect>)
      modifies this
      ensures (Data(), effects) == Exited(old(Data()))
    {
      if pausing {
        pausing := false;
        return [];
      }
      initialized := false;
      effects := [ClearEntities];
    }

    /** gameplay_update in the room `room` holds; the last three parameters answer the unmodelled queries. */
    method Update(player: Player, room: RoomData, inp: InputSystem, sram: Save.Sram,
                  bossActive: bool, touching: Option<Door>, pickup: int) returns (effects: seq<Effect>)
      requires Valid() && room.Valid() && sram.Valid()
      modifies this, player, room.crumbleTimer, sram.image, sram.slotBuf
      ensures Valid()
      ensures var r := GameplayStep(old(Data()), old(player.Data()), old(room.View()), room.areaId, room.roomId,
                                    Frame(inp.State(), bossActive, touching, pickup));
        Data() == r.flow && player.Data() == r.player && effects == r.effects &&
        sram.image[..] == Saved(old(sram.image[..]), old(activeSlot), r.save)
      ensures var c := if Reaches(old(Data()), old(player.Data()), inp.State())
                       then CrumbleArmed(old(room.View()), old(player.Data()), inp.State()) else -1;
        forall i :: 0 <= i < ROOM_CELLS ==>
          room.crumbleTimer[i] == if i == c && old(room.crumbleTimer[i]) == 0 then CRUMBLE_FRAMES else old(room.crumbleTimer[i])
    {
      TransitionKeepsOk(Data(), player.Data());
      var active;
      active, effects := UpdateDoorTransition(player);
      if !active {
        effects := Settle(player, room, inp, sram, bossActive, touching, pickup);
      }
    }

    /** gameplay_update after update_door_transition returned false. */
    method Settle(player: Player, room: RoomData, inp: InputSystem, sram: Save.Sram,
                  bossActive: bool, touching: Option<Door>, pickup: int) returns (effects: seq<Effect>)
      requires Valid() && room.Valid() && sram.Valid()
      modifies this, player, room.crumbleTimer, sram.image, sram.slotBuf
      ensures Valid()
      ensures var r := Settled(old(Data()), old(player.Data()), old(room.View()), room.areaId, room.roomId,
                               Frame(inp.State(), bossActive, touching, pickup));
        Data() == r.flow && player.Data() == r.player && effects == r.effects &&
        sram.image[..] == Saved(old(sram.image[..]), old(activeSlot), r.save)
      ensures var c := if !(old(player.state) == Death && old(player.frameTimer) == 0) && !(KeyPressed(inp.State(), KEY_START) && old(player.alive))
                       then CrumbleArmed(old(room.View()), old(player.Data()), inp.State()) else -1;
        forall i :: 0 <= i < ROOM_CELLS ==>
          room.crumbleTimer[i] == if i == c && old(room.crumbleTimer[i]) == 0 then CRUMBLE_FRAMES else old(room.crumbleTimer[i])
    {
      if player.state == Death && player.frameTimer == 0 {
        return [RequestState(STATE_DEATH)];
      }
      if inp.Pressed(KEY_START) && player.alive {
        pausing := true;
        return [RequestState(STATE_PAUSE)];
      }
      effects := Play(player, room, inp, sram, bossActive, touching, pickup);
    }

    /** The rest of gameplay_update once no early exit was taken. */
    method Play(player: Player, room: RoomData, inp: InputSystem, sram: Save.Sram,
                bossActive: bool, touching: Option<Door>, pickup: int) returns (effects: seq<Effect>)
      requires Valid() && room.Valid() && sram.Valid()
      modifies this, player, room.crumbleTimer, sram.image, sram.slotBuf
      ensures Valid()
      ensures var r := PlayStep(old(Data()), old(player.Data()), old(room.View()), room.areaId, room.roomId,
                                Frame(inp.State(), bossActive, touching, pickup));
        Data() == r.flow && player.Data() == r.player && effects == r.effects &&
        sram.image[..] == Saved(old(sram.image[..]), old(activeSlot), r.save)
      ensures var c := CrumbleArmed(old(room.View()), old(player.Data()), inp.State());
        forall i :: 0 <= i < ROOM_CELLS ==>
          room.crumbleTimer[i] == if i == c && old(room.crumbleTimer[i]) == 0 then CRUMBLE_FRAMES else old(room.crumbleTimer[i])
    {
      var fr := Frame(inp.State(), bossActive, touching, pickup);
      var g := room.View();
      ghost var img := sram.image[..];
      timeFrames := Tick(timeFrames);
      player.Update(room, inp);
      ghost var f1, p1 := Data(), player.Data();
      ghost var timers := room.crumbleTimer[..];
      assert sram.image[..] == img && activeSlot == old(activeSlot);
      assert PlayStep(old(Data()), old(player.Data()), g, room.areaId, room.roomId, fr) ==
             AfterMove(f1, p1, g, room.areaId, room.roomId, fr);
      effects := Rest(player, g, room.areaId, room.roomId, sram, fr);
      assert room.crumbleTimer[..] == timers;
    }

    /** AfterMove as a sequence of calls. */
    method Rest(player: Player, g: Grid, area: int, room: int, sram: Save.Sram, fr: Frame) returns (effects: seq<Effect>)
      requires Valid() && GridValid(g) && sram.Valid()
      modifies this, player, sram.image, sram.slotBuf
      ensures Valid()
      ensures var r := AfterMove(old(Data()), old(player.Data()), g, area, room, fr);
        Data() == r.flow && player.Data() == r.player && effects == r.effects &&
        sram.image[..] == Saved(old(sram.image[..]), old(activeSlot), r.save)
    {
      StationSave(player, g, area, room, fr.keys, sram);
      effects := DefeatCheck(fr.bossActive, area, room);
      var tail := Finish(player, fr);
      effects := effects + tail;
    }

    /** The door check, then weapons, the pickup and the world update. */
    method Finish(player: Player, fr: Frame) returns (effects: seq<Effect>)
      modifies this, player
      ensures Step(Data(), player.Data(), effects) == PlayTail(old(Data()), old(player.Data()), fr)
    {
      var entered := DoorEntered(fr.bossActive, fr.touching, fr.keys);
      if entered.Some? {
        StartDoorTransition(entered.value);
        return [];
      }
      var shots := FireWeapons(player, fr.keys);
      ApplyPickup(player, fr.pickup);
      effects := shots + [RunWorld];
    }

    /** The save-station interaction: UP on a save tile writes the current progress to the active slot. */
    method StationSave(player: Player, g: Grid, area: int, room: int, k: KeyState, sram: Save.Sram)
      requires Valid() && GridValid(g) && sram.Valid()
      modifies sram.image, sram.slotBuf
      ensures sram.image[..] == Saved(old(sram.image[..]), activeSlot,
        if AtSaveStation(g, player.Data(), k)
        then Some(StationRecord(player.Data(), area, room, bossFlags, timeFrames)) else None)
    {
      if AtSaveStation(g, player.Data(), k) {
        var rec := StationRecord(player.Data(), area, room, bossFlags, timeFrames);
        var _ := sram.Write(activeSlot, rec);
      }
    }

    /** The boss-death detection of gameplay_update. */
    method DefeatCheck(bossActive: bool, area: int, room: int) returns (effects: seq<Effect>)
      modifies this
      ensures Data() == BossEdge(old(Data()), bossActive, area, room).0 && effects == BossEdge(old(Data()), bossActive, area, room).1
    {
      effects := [];
      if bossWasActive && !bossActive {
        var flags := if area == 0 && room == 3 then bossFlags | Save.BOSS_FLAG_SPORE_SPAWN else bossFlags;
        bossWasActive, bossFlags := false, flags;
        effects := [ShakeCamera(30, 4)];
      }
    }

    /** title_enter. */
    method TitleEnter() returns (effects: seq<Effect>)
      modifies this
      ensures (Data(), effects) == TitleEntered(old(Data()))
    {
      effects := [Brightness(-16)];
      trans := FadeIn;
      timer := FADE_FRAMES;
    }

    /** title_exit. */
    method TitleExit() returns (effects: seq<Effect>)
      ensures effects == [Brightness(0)]
    {
      effects := [Brightness(0)];
    }

    /** title_update. */
    method TitleUpdate(player: Player, inp: InputSystem) returns (effects: seq<Effect>)
      modifies this, player
      ensures Step(Data(), player.Data(), effects) == TitleStep(old(Data()), old(player.Data()), inp.State())
    {
      if trans != TransNone {
        var active;
        active, effects := UpdateDoorTransition(player);
        return;
      }
      effects := MenuStep(inp.State(), KEY_START, STATE_FILE_SELECT);
    }

    /** file_select_enter: the cursor starts on the first file. */
    method FileSelectEnter()
      modifies this
      ensures Data() == old(Data()).(cursor := 0)
    {
      cursor := 0;
    }

    /** file_select_update. */
    method FileSelectUpdate(inp: InputSystem, sram: Save.Sram) returns (effects: seq<Effect>)
      requires sram.Valid()
      modifies this, sram.slotBuf
      ensures sram.image[..] == old(sram.image[..])
      ensures (Data(), effects) ==
        FileSelectStep(old(Data()), inp.State(), Save.ReadOf(old(sram.image[..]), CursorMoved(old(cursor), inp.State())))
    {
      var k := inp.State();
      MoveCursor(k);
      var loads, leaves := [], [];
      if KeyPressed(k, KEY_A) {
        LoadSlot(sram);
        loads := [RequestState(STATE_GAMEPLAY)];
      }
      if KeyPressed(k, KEY_B) {
        leaves := [RequestState(STATE_TITLE)];
      }
      effects := loads + leaves;
    }

    /** The cursor code of file_select_update: DOWN, then UP, each wrapping round the slots. */
    method MoveCursor(k: KeyState)
      modifies this
      ensures Data() == old(Data()).(cursor := CursorMoved(old(cursor), k))
    {
      if KeyPressed(k, KEY_DOWN) {
        cursor := TruncRem(cursor + 1, Save.SAVE_SLOT_COUNT);
      }
      if KeyPressed(k, KEY_UP) {
        cursor := TruncRem(cursor + Save.SAVE_SLOT_COUNT - 1, Save.SAVE_SLOT_COUNT);
      }
    }

    /** The A branch of file_select_update: the cursor's slot becomes active and its progress is loaded. */
    method LoadSlot(sram: Save.Sram)
      requires sram.Valid()
      modifies this, sram.slotBuf
      ensures sram.image[..] == old(sram.image[..])
      ensures Data() == LoadedProgress(old(Data()), old(cursor), Save.ReadOf(old(sram.image[..]), old(cursor)))
    {
      activeSlot := cursor;
      var ok := sram.SlotValid(cursor);
      if ok {
        var sd := sram.Read(cursor);
        bossFlags := sd.value.bossFlags;
        timeFrames := JoinTime(PlayTime(sd.value.timeHours, sd.value.timeMinutes, sd.value.timeSeconds, sd.value.timeFrames));
      } else {
        bossFlags := 0;
        timeFrames := 0;
      }
    }

    /** pause_enter and pause_exit dim and restore the main screen. */
    method PauseEnter() returns (effects: seq<Effect>)
      ensures effects == [MainBrightness(-8)]
    {
      effects := [MainBrightness(-8)];
    }

    method PauseExit() returns (effects: seq<Effect>)
      ensures effects == [MainBrightness(0)]
    {
      effects := [MainBrightness(0)];
    }

    /** pause_update, death_update and ending_update: one key leaves the screen. */
    method PauseUpdate(inp: InputSystem) returns (effects: seq<Effect>)
      ensures effects == MenuStep(inp.State(), KEY_START, STATE_GAMEPLAY)
    {
      effects := [];
      if inp.Pressed(KEY_START) {
        effects := [RequestState(STATE_GAMEPLAY)];
      }
    }

    method DeathUpdate(inp: InputSystem) returns (effects: seq<Effect>)
      ensures effects == MenuStep(inp.State(), KEY_A, STATE_FILE_SELECT)
    {
      effects := [];
      if inp.Pressed(KEY_A) {
        effects := [RequestState(STATE_FILE_SELECT)];
      }
    }

    method EndingUpdate(inp: InputSystem) returns (effects: seq<Effect>)
      ensures effects == MenuStep(inp.State(), KEY_A, STATE_TITLE)
    {
      effects := [];
      if inp.Pressed(KEY_A) {
        effects := [RequestState(STATE_TITLE)];
      }
    }

    /** ending_enter: full brightness and the play time in whole seconds. */
    method EndingEnter() returns (effects: seq<Effect>)
      requires Valid()
      ensures var (h, m, s) := EndingTime(timeFrames); effects == [Brightness(0), ShowPlayTime(h, m, s)]
    {
      var totalSecs := timeFrames / 60;
      effects := [Brightness(0), ShowPlayTime(totalSecs / 3600, (totalSecs / 60) % 60, totalSecs % 60)];
    }
  }

  /** gameplay_register_states. */
  method RegisterStates(sm: State.StateManager)
    requires sm.Valid()
    modifies sm
    ensures sm.Valid() && sm.Data() == Registrations(old(sm.Data()))
  {
    sm.SetHandlers(STATE_TITLE, State.Registered(STATE_TITLE));
    sm.SetHandlers(STATE_FILE_SELECT, State.Registered(STATE_FILE_SELECT));
    sm.SetHandlers(STATE_GAMEPLAY, State.Registered(STATE_GAMEPLAY));
    sm.SetHandlers(STATE_PAUSE, State.Registered(STATE_PAUSE));
    sm.SetHandlers(STATE_DEATH, State.Registered(STATE_DEATH));
    sm.SetHandlers(STATE_ENDING, State.Registered(STATE_ENDING));
  }

  // ---------------------------------------------------------------------
  // Properties
  // ---------------------------------------------------------------------

  lemma BrightnessConcat(a: seq<Effect>, b: seq<Effect>)
    requires BrightnessIn(a) && BrightnessIn(b)
    ensures BrightnessIn(a + b)
  {
    forall i | 0 <= i < |a + b| && (a + b)[i].Brightness?
      ensures -16 <= (a + b)[i].level <= 0
    {
      if i >= |a| {
        assert (a + b)[i] == b[i - |a|];
      }
    }
  }

  /** One call of update_door_transition on the phase and the timer. */
  lemma PhaseAdvance(fl: Flow, p: PlayerData)
    ensures var t := TransitionStep(fl, p).flow;
      match fl.trans
      case TransNone => t.trans == TransNone && t.timer == fl.timer
      case FadeOut => t.timer == fl.timer - 1 && t.trans == (if fl.timer - 1 <= 0 then Load else FadeOut)
      case Load => t.trans == FadeIn && t.timer == FADE_FRAMES
      case FadeIn => t.timer == fl.timer - 1 && t.trans == (if fl.timer - 1 <= 0 then TransNone else FadeIn)
  {
  }

  /**
   * A door transition runs 8 fade-out frames, one load frame and 8 fade-in
   * frames: k calls after start_door_transition the machine is in phase
   * Scheduled(k) with timer ScheduledTimer(k).
   */
  lemma {:induction false} DoorPhases(f: Flow, p: PlayerData, k: nat)
    requires f.trans == FadeOut && f.timer == FADE_FRAMES
    ensures Run(f, p, k).flow.trans == Scheduled(k) && Run(f, p, k).flow.timer == ScheduledTimer(k)
  {
    if k > 0 {
      DoorPhases(f, p, k - 1);
      var s := Run(f, p, k - 1);
      PhaseAdvance(s.flow, s.player);
    }
  }

  /**
   * During a door transition Samus moves only at the load, to the door's
   * spawn point; the clock, the boss flags, the slot and the door stay;
   * every brightness written lies in range.
   */
  lemma {:induction false} DoorSchedule(f: Flow, p: PlayerData, k: nat)
    requires f.trans == FadeOut && f.timer == FADE_FRAMES
    ensures DoorScheduled(f, p, Run(f, p, k), k)
  {
    if k > 0 {
      DoorSchedule(f, p, k - 1);
      DoorPhases(f, p, k - 1);
      DoorScheduleStep(f, p, Run(f, p, k - 1), k);
    }
  }

  /** What DoorSchedule promises of the state k calls after the door was entered. */
  predicate DoorScheduled(f: Flow, p: PlayerData, s: Step, k: nat)
  {
    s.flow.door == f.door && s.flow.timeFrames == f.timeFrames && s.flow.bossFlags == f.bossFlags &&
    s.flow.activeSlot == f.activeSlot &&
    s.player == (if k <= 8 then p else Placed(p, f.door)) && BrightnessIn(s.effects)
  }

  /** One call of the door schedule, on the state reached after k - 1 calls. */
  lemma DoorScheduleStep(f: Flow, p: PlayerData, s: Step, k: nat)
    requires k > 0 && DoorScheduled(f, p, s, k - 1)
    requires s.flow.trans == Scheduled(k - 1) && s.flow.timer == ScheduledTimer(k - 1)
    ensures var t := TransitionStep(s.flow, s.player);
      DoorScheduled(f, p, Step(t.flow, t.player, s.effects + t.effects), k)
  {
    var t := TransitionStep(s.flow, s.player);
    TransitionKeepsOk(s.flow, s.player);
    BrightnessConcat(s.effects, t.effects);
  }

  /** So gameplay_update is frozen in the transition for exactly 17 frames after a door is entered. */
  lemma {:induction false} DoorTransitionLength(f: Flow, p: PlayerData, k: nat)
    requires f.trans == FadeOut && f.timer == FADE_FRAMES
    ensures (Run(f, p, k).flow.trans != TransNone) <==> k < 17
  {
    DoorPhases(f, p, k);
  }

  /** title_enter's fade-in: k frames later the machine is still fading iff k < 8, and nothing else changes. */
  lemma {:induction false} TitleFadeIn(f: Flow, p: PlayerData, k: nat)
    requires f.trans == FadeIn && f.timer == FADE_FRAMES
    ensures TitleFading(f, p, Run(f, p, k), k)
  {
    if k > 0 {
      TitleFadeIn(f, p, k - 1);
      TitleFadeStep(f, p, Run(f, p, k - 1), k);
    }
  }

  /** What TitleFadeIn promises of the state k frames after title_enter. */
  predicate TitleFading(f: Flow, p: PlayerData, s: Step, k: nat)
  {
    s.flow.trans == (if k < 8 then FadeIn else TransNone) && s.flow.timer == (if k < 8 then 8 - k else 0) &&
    s.flow == f.(trans := s.flow.trans, timer := s.flow.timer) && s.player == p && BrightnessIn(s.effects)
  }

  /** One frame of the title fade-in, on the state reached after k - 1 frames. */
  lemma TitleFadeStep(f: Flow, p: PlayerData, s: Step, k: nat)
    requires k > 0 && TitleFading(f, p, s, k - 1)
    ensures var t := TransitionStep(s.flow, s.player);
      TitleFading(f, p, Step(t.flow, t.player, s.effects + t.effects), k)
  {
    assert TransOk(s.flow) by {
      assert s.flow.trans == FadeIn ==> k - 1 < 8;
    }
    TransitionKeepsOk(s.flow, s.player);
    PhaseAdvance(s.flow, s.player);
    var t := TransitionStep(s.flow, s.player);
    BrightnessConcat(s.effects, t.effects);
  }

  /** While the title is fading in, START is ignored; once it has finished, START and only START leaves for file select. */
  lemma TitleStartGate(f: Flow, p: PlayerData, k: KeyState)
    ensures f.trans != TransNone ==> forall i :: 0 <= i < |TitleStep(f, p, k).effects| ==> !TitleStep(f, p, k).effects[i].RequestState?
    ensures f.trans == TransNone ==>
      TitleStep(f, p, k) == Step(f, p, if KeyPressed(k, KEY_START) then [RequestState(STATE_FILE_SELECT)] else [])
  {
  }

  /** The digits of a frame count in base 60. */
  lemma TimeDigits(t: nat)
    ensures t / 3600 == t / 60 / 60 && t / 216000 == t / 3600 / 60 && t / 216000 == t / 60 / 3600
    ensures t == (t / 216000) * 216000 + (t / 3600 % 60) * 3600 + (t / 60 % 60) * 60 + t % 60
  {
    var a, b, c := t / 60, t / 3600, t / 216000;
    assert t == 60 * a + t % 60;
    assert a == 60 * (a / 60) + a % 60;
    assert a / 60 == b;
    assert b == 60 * (b / 60) + b % 60;
    assert b / 60 == c;
  }

  /** The split clock the save station stores rebuilds the uint32 frame counter exactly. */
  lemma {:induction false} TimeRoundTrip(t: int)
    requires IsUint32(t)
    ensures JoinTime(SplitTime(t)) == t
  {
    TimeDigits(t);
  }

  /** ending_enter's hours, minutes and seconds are those of the stored split. */
  lemma {:induction false} EndingAgreesWithSplit(t: nat)
    ensures EndingTime(t) == (SplitTime(t).hours, SplitTime(t).minutes, SplitTime(t).seconds)
  {
    TimeDigits(t);
  }

  /**
   * A save at a station, then A on that slot in file select, restores the
   * boss flags of the ten known bosses and the clock exactly. (Samus's
   * stats are written too, but the file select does not read them back.)
   */
  lemma {:induction false} StationSaveRestoresProgress(img: seq<Save.byte>, slot: int, p: PlayerData, area: int, room: int,
                                                       flags: bv16, t: int, f: Flow)
    requires Save.ImageOk(img) && Save.ValidSlot(slot) && IsUint32(t)
    ensures var img2 := Saved(img, slot, Some(StationRecord(p, area, room, flags, t)));
      LoadedProgress(f, slot, Save.ReadOf(img2, slot)) ==
      f.(activeSlot := slot, bossFlags := flags & Save.BOSS_FLAG_MASK, timeFrames := t)
  {
    var rec := StationRecord(p, area, room, flags, t);
    Save.WriteThenRead(img, slot, rec);
    StationClockFits(p, area, room, flags, t);
  }

  /** The split clock of a uint32 counter fits the record's uint16 fields, so save_read gives it back unchanged. */
  lemma {:induction false} StationClockFits(p: PlayerData, area: int, room: int, flags: bv16, t: int)
    requires IsUint32(t)
    ensures var rec := StationRecord(p, area, room, flags, t); var n := Save.Normalised(rec);
      n.bossFlags == flags & Save.BOSS_FLAG_MASK &&
      JoinTime(PlayTime(n.timeHours, n.timeMinutes, n.timeSeconds, n.timeFrames)) == t
  {
    var pt := SplitTime(t);
    assert pt.hours < UINT16_LIMIT;
    TimeRoundTrip(t);
  }

  lemma {:induction false} ShotCountAppend(a: seq<Effect>, b: seq<Effect>, t: nat)
    ensures ShotCount(a + b, t) == ShotCount(a, t) + ShotCount(b, t)
  {
    if |a| > 0 {
      assert (a + b)[0] == a[0];
      assert (a + b)[1..] == a[1..] + b;
      ShotCountAppend(a[1..], b, t);
    } else {
      assert a + b == b;
    }
  }

  /** How many shots of type t the weapons code fires: one per trigger that fires that type. */
  lemma {:induction false} FiredCount(p: PlayerData, k: KeyState, t: nat)
    ensures var armed := CanFire(p.state);
      ShotCount(Fired(p, k).1, t) ==
        (if armed && KeyPressed(k, KEY_X) && BeamType(p.equipment) == t then 1 else 0) +
        (if armed && KeyPressed(k, KEY_R) && p.missiles > 0 && t == Projectile.PROJ_MISSILE then 1 else 0) +
        (if armed && KeyPressed(k, KEY_L) && p.supers > 0 && t == Projectile.PROJ_SUPER_MISSILE then 1 else 0) +
        (if p.state == MorphBall && p.equipment & EQUIP_BOMBS != 0 && KeyPressed(k, KEY_B) && t == Projectile.PROJ_BOMB then 1 else 0)
  {
    var armed := CanFire(p.state);
    CountOfFour(armed && KeyPressed(k, KEY_X), armed && KeyPressed(k, KEY_R) && p.missiles > 0,
                armed && KeyPressed(k, KEY_L) && p.supers > 0,
                p.state == MorphBall && p.equipment & EQUIP_BOMBS != 0 && KeyPressed(k, KEY_B),
                Shot(p, BeamType(p.equipment), 4), Shot(p, Projectile.PROJ_MISSILE, 5), Shot(p, Projectile.PROJ_SUPER_MISSILE, 5),
                Fire(Projectile.PROJ_BOMB, p.body.pos.x, p.body.pos.y, 0, 0), t);
  }

  /** Four optional effects in a row: the shots of type t among them, one by one. */
  lemma {:induction false} CountOfFour(c1: bool, c2: bool, c3: bool, c4: bool, e1: Effect, e2: Effect, e3: Effect, e4: Effect, t: nat)
    ensures ShotCount((if c1 then [e1] else []) + (if c2 then [e2] else []) + (if c3 then [e3] else []) + (if c4 then [e4] else []), t) ==
      (if c1 && e1.Fire? && e1.ptype == t then 1 else 0) + (if c2 && e2.Fire? && e2.ptype == t then 1 else 0) +
      (if c3 && e3.Fire? && e3.ptype == t then 1 else 0) + (if c4 && e4.Fire? && e4.ptype == t then 1 else 0)
  {
    var s1: seq<Effect> := if c1 then [e1] else [];
    var s2: seq<Effect> := if c2 then [e2] else [];
    var s3: seq<Effect> := if c3 then [e3] else [];
    var s4: seq<Effect> := if c4 then [e4] else [];
    ShotCountAppend(s1 + s2 + s3, s4, t);
    ShotCountAppend(s1 + s2, s3, t);
    ShotCountAppend(s1, s2, t);
    OneShotCount(c1, e1, t);
    OneShotCount(c2, e2, t);
    OneShotCount(c3, e3, t);
    OneShotCount(c4, e4, t);
  }

  /** At most one effect: it counts when it is there and is a shot of type t. */
  lemma OneShotCount(c: bool, e: Effect, t: nat)
    ensures ShotCount(if c then [e] else [], t) == (if c && e.Fire? && e.ptype == t then 1 else 0)
  {
    if c {
      assert [e][1..] == [];
    }
  }

  /**
   * Each missile or super missile fired costs exactly one of its
   * ammunition, and one is fired only when some is left.
   */
  lemma {:induction false} AmmoSpent(p: PlayerData, k: KeyState)
    ensures Fired(p, k).0.missiles == p.missiles - ShotCount(Fired(p, k).1, Projectile.PROJ_MISSILE)
    ensures Fired(p, k).0.supers == p.supers - ShotCount(Fired(p, k).1, Projectile.PROJ_SUPER_MISSILE)
    ensures ShotCount(Fired(p, k).1, Projectile.PROJ_MISSILE) > 0 ==> p.missiles > 0
    ensures ShotCount(Fired(p, k).1, Projectile.PROJ_SUPER_MISSILE) > 0 ==> p.supers > 0
  {
    FiredCount(p, k, Projectile.PROJ_MISSILE);
    FiredCount(p, k, Projectile.PROJ_SUPER_MISSILE);
  }

  /** Firing changes nothing about Samus but the two ammunition counts. */
  lemma FiredKeepsRest(p: PlayerData, k: KeyState)
    ensures var q := Fired(p, k).0; q == p.(missiles := q.missiles, supers := q.supers)
  {
  }

  /**
   * The beam is the best one owned and comes out on X in any firing state;
   * a bomb comes out only in morph ball with the bombs upgrade, on B.
   */
  lemma {:induction false} BeamAndBombTriggers(p: PlayerData, k: KeyState)
    ensures ShotCount(Fired(p, k).1, BeamType(p.equipment)) > 0 <==> CanFire(p.state) && KeyPressed(k, KEY_X)
    ensures ShotCount(Fired(p, k).1, Projectile.PROJ_BOMB) > 0 <==>
      p.state == MorphBall && p.equipment & EQUIP_BOMBS != 0 && KeyPressed(k, KEY_B)
  {
    FiredCount(p, k, BeamType(p.equipment));
    FiredCount(p, k, Projectile.PROJ_BOMB);
  }

  /** In morph ball the only thing that comes out is a bomb at Samus's position. */
  lemma MorphBallOnlyBombs(p: PlayerData, k: KeyState)
    requires p.state == MorphBall
    ensures Fired(p, k).0 == p
    ensures var shots := Fired(p, k).1;
      |shots| <= 1 && forall i :: 0 <= i < |shots| ==> shots[i] == Fire(Projectile.PROJ_BOMB, p.body.pos.x, p.body.pos.y, 0, 0)
  {
  }

  /** An energy tank raises the maximum by 100 and refills; a reserve tank raises the reserve maximum by 100. */
  lemma EnergyTanks(p: PlayerData)
    ensures PickedUp(p, ITEM_ENERGY_TANK) == p.(hpMax := p.hpMax + ENERGY_TANK_VALUE, hp := p.hpMax + ENERGY_TANK_VALUE)
    ensures PickedUp(p, ITEM_RESERVE_TANK) == p.(reserveHpMax := p.reserveHpMax + RESERVE_TANK_VALUE)
  {
  }

  /** The ammunition tanks raise count and maximum by 5 alike. */
  lemma AmmoTanks(p: PlayerData)
    ensures var q := PickedUp(p, ITEM_MISSILE_TANK); q.missiles - p.missiles == q.missilesMax - p.missilesMax == 5
    ensures var q := PickedUp(p, ITEM_SUPER_TANK); q.supers - p.supers == q.supersMax - p.supersMax == 5
    ensures var q := PickedUp(p, ITEM_PB_TANK); q.powerBombs - p.powerBombs == q.powerBombsMax - p.powerBombsMax == 5
  {
  }

  /** An equipment item only sets its bit, and the others stay; collecting it twice is collecting it once. */
  lemma {:induction false} EquipmentPickup(p: PlayerData, item: int)
    requires !IsTank(item)
    ensures PickedUp(p, item) == p.(equipment := p.equipment | ItemBit(item))
  {
  }

  lemma {:induction false} EquipmentKept(p: PlayerData, item: int)
    ensures PickedUp(p, item).equipment & p.equipment == p.equipment
  {
    if !IsTank(item) {
      EquipmentPickup(p, item);
      OrKeeps(p.equipment, ItemBit(item));
    } else {
      assert PickedUp(p, item).equipment == p.equipment;
    }
  }

  lemma {:induction false} EquipmentPickupIdempotent(p: PlayerData, item: int)
    requires !IsTank(item)
    ensures PickedUp(PickedUp(p, item), item) == PickedUp(p, item)
  {
    var q := PickedUp(p, item);
    EquipmentPickup(p, item);
    OrKeeps(p.equipment, ItemBit(item));
    BitAlreadySet(q, item);
  }

  /** An equipment pickup whose bit is already set changes nothing. */
  lemma {:induction false} BitAlreadySet(q: PlayerData, item: int)
    requires !IsTank(item) && q.equipment | ItemBit(item) == q.equipment
    ensures PickedUp(q, item) == q
  {
    EquipmentPickup(q, item);
  }

  /** Setting bits keeps the ones already set and is idempotent. */
  lemma OrKeeps(e: Equipment, b: Equipment)
    ensures (e | b) & e == e && (e | b) | b == e | b && e | 0 == e
  {
  }

  /** Every equipment item has a bit of its own; ids outside the item table give nothing. */
  lemma ItemBits(item: int)
    ensures ITEM_MORPH_BALL <= item <= ITEM_XRAY ==> ItemBit(item) != 0
    ensures (item <= ITEM_NONE || item >= ITEM_TYPE_COUNT) ==> ItemBit(item) == 0 && !IsTank(item)
  {
  }

  /** So a pickup of an unknown id leaves the player record unchanged. */
  lemma {:induction false} UnknownItemIgnored(p: PlayerData, item: int)
    requires item <= ITEM_NONE || item >= ITEM_TYPE_COUNT
    ensures PickedUp(p, item) == p
  {
    ItemBits(item);
    OrKeeps(p.equipment, 0);
  }

  /** The file-select cursor stays on a slot, wraps at both ends, and DOWN with UP in one frame cancels out. */
  lemma {:induction false} CursorLaws(c: int, k: KeyState)
    requires 0 <= c < Save.SAVE_SLOT_COUNT
    ensures 0 <= CursorMoved(c, k) < Save.SAVE_SLOT_COUNT
    ensures KeyPressed(k, KEY_DOWN) && !KeyPressed(k, KEY_UP) ==> CursorMoved(c, k) == (if c == 2 then 0 else c + 1)
    ensures KeyPressed(k, KEY_UP) && !KeyPressed(k, KEY_DOWN) ==> CursorMoved(c, k) == (if c == 0 then 2 else c - 1)
    ensures KeyPressed(k, KEY_UP) == KeyPressed(k, KEY_DOWN) ==> CursorMoved(c, k) == c
  {
    TruncRemSmall(c + 1);
    var c1 := if KeyPressed(k, KEY_DOWN) then TruncRem(c + 1, Save.SAVE_SLOT_COUNT) else c;
    TruncRemSmall(c1 + 2);
  }

  /** C's remainder by the slot count on small non-negative values. */
  lemma TruncRemSmall(n: int)
    requires 0 <= n < 6
    ensures TruncRem(n, Save.SAVE_SLOT_COUNT) == n % 3
  {
  }

  /** An empty or corrupt slot starts a new game: no bosses, the clock at zero. */
  lemma EmptySlotStartsFresh(f: Flow, k: KeyState)
    requires KeyPressed(k, KEY_A)
    ensures var r := FileSelectStep(f, k, None);
      r.0 == f.(cursor := CursorMoved(f.cursor, k), activeSlot := CursorMoved(f.cursor, k), bossFlags := 0, timeFrames := 0) &&
      r.1[0] == RequestState(STATE_GAMEPLAY)
  {
  }

  /** While a boss is alive no door opens, whatever Samus touches and holds. */
  lemma {:induction false} DoorsLockedWhileBossActive(f: Flow, p: PlayerData, g: Grid, area: int, room: int, fr: Frame)
    requires GridValid(g) && FlowOk(f) && fr.bossActive && f.trans == TransNone
    ensures GameplayStep(f, p, g, area, room, fr).flow.trans == TransNone
  {
    assert DoorEntered(fr.bossActive, fr.touching, fr.keys) == None;
  }

  /** The flow after a played frame: the edge's, unless a door starts a transition. */
  lemma PlayedFlow(f: Flow, p: PlayerData, g: Grid, area: int, room: int, fr: Frame)
    requires GridValid(g) && IsUint32(f.timeFrames)
    ensures var f1 := f.(timeFrames := Tick(f.timeFrames)); var e := BossEdge(f1, fr.bossActive, area, room).0;
      var r := PlayStep(f, p, g, area, room, fr).flow;
      r == (match DoorEntered(fr.bossActive, fr.touching, fr.keys) case Some(d) => DoorStarted(e, d) case None => e)
  {
  }

  /** The clock ticks exactly on the frames that are played, and the transition machine stays consistent. */
  lemma {:induction false} ClockTicksWhenPlayed(f: Flow, p: PlayerData, g: Grid, area: int, room: int, fr: Frame)
    requires GridValid(g) && FlowOk(f)
    ensures var r := GameplayStep(f, p, g, area, room, fr);
      FlowOk(r.flow) && r.flow.timeFrames == (if Reaches(f, p, fr.keys) then Tick(f.timeFrames) else f.timeFrames)
  {
    if f.trans != TransNone {
      TransitionKeepsOk(f, p);
    } else if Reaches(f, p, fr.keys) {
      PlayedFlow(f, p, g, area, room, fr);
    }
  }

  /**
   * The boss flags change only on the falling edge of the boss on a played
   * frame in Spore Spawn's room, and then only gain its bit.
   */
  lemma {:induction false} BossFlagOnlyOnEdge(f: Flow, p: PlayerData, g: Grid, area: int, room: int, fr: Frame)
    requires GridValid(g) && FlowOk(f)
    ensures var r := GameplayStep(f, p, g, area, room, fr);
      r.flow.bossFlags == (if Reaches(f, p, fr.keys) && f.bossWasActive && !fr.bossActive && SporeRoom(area, room)
                           then f.bossFlags | Save.BOSS_FLAG_SPORE_SPAWN else f.bossFlags)
  {
    if f.trans != TransNone {
      TransitionKeepsOk(f, p);
    } else if Reaches(f, p, fr.keys) {
      PlayedFlags(f, p, g, area, room, fr);
    }
  }

  /** On a played frame the flags are those of the boss edge. */
  lemma {:induction false} PlayedFlags(f: Flow, p: PlayerData, g: Grid, area: int, room: int, fr: Frame)
    requires GridValid(g) && IsUint32(f.timeFrames)
    ensures PlayStep(f, p, g, area, room, fr).flow.bossFlags ==
      (if f.bossWasActive && !fr.bossActive && SporeRoom(area, room) then f.bossFlags | Save.BOSS_FLAG_SPORE_SPAWN else f.bossFlags)
  {
    var f1 := f.(timeFrames := Tick(f.timeFrames));
    var p1 := Stepped(g, p, fr.keys);
    AfterMoveFlags(f1, p1, g, area, room, fr);
  }

  /** What follows player_update keeps the flags of the boss edge. */
  lemma AfterMoveFlags(f: Flow, p: PlayerData, g: Grid, area: int, room: int, fr: Frame)
    requires GridValid(g) && f.timeFrames >= 0
    ensures AfterMove(f, p, g, area, room, fr).flow.bossFlags == BossEdge(f, fr.bossActive, area, room).0.bossFlags
  {
  }

  /** So boss flags are never lost during play. */
  lemma {:induction false} BossFlagsMonotone(f: Flow, p: PlayerData, g: Grid, area: int, room: int, fr: Frame)
    requires GridValid(g) && FlowOk(f)
    ensures GameplayStep(f, p, g, area, room, fr).flow.bossFlags & f.bossFlags == f.bossFlags
  {
    BossFlagOnlyOnEdge(f, p, g, area, room, fr);
    FlagKept(f.bossFlags);
  }

  lemma FlagKept(b: bv16)
    ensures (b | Save.BOSS_FLAG_SPORE_SPAWN) & b == b && b & b == b
  {
  }

  /**
   * The save station writes exactly when the stepped Samus presses UP on a
   * save tile in a played frame, and stores the flags and the ticked clock.
   */
  lemma {:induction false} SaveOnlyAtStation(f: Flow, p: PlayerData, g: Grid, area: int, room: int, fr: Frame)
    requires GridValid(g) && FlowOk(f)
    ensures var r := GameplayStep(f, p, g, area, room, fr);
      (r.save.Some? <==> Reaches(f, p, fr.keys) && AtSaveStation(g, Stepped(g, p, fr.keys), fr.keys)) &&
      (r.save.Some? ==> r.save.value.bossFlags == f.bossFlags &&
                        JoinTime(PlayTime(r.save.value.timeHours, r.save.value.timeMinutes,
                                          r.save.value.timeSeconds, r.save.value.timeFrames)) == Tick(f.timeFrames))
  {
    if f.trans == TransNone && Reaches(f, p, fr.keys) {
      TimeRoundTrip(Tick(f.timeFrames));
    }
  }

  /**
   * As written, the death screen is never reached: after a fatal hit the
   * freeze stays at 120 (player_update returns before state_death), no
   * gameplay_update changes that, and none requests STATE_DEATH.
   */
  lemma DeathScreenNeverRequested(f: Flow, p: PlayerData, g: Grid, area: int, room: int, fr: Frame)
    requires GridValid(g) && FlowOk(f) && !p.alive && p.frameTimer == DEATH_FREEZE_FRAMES
    ensures var o := GameplayStep(f, p, g, area, room, fr);
      !o.player.alive && o.player.frameTimer == DEATH_FREEZE_FRAMES && RequestState(STATE_DEATH) !in o.effects
  {
    if f.trans == TransNone && !(KeyPressed(fr.keys, KEY_START) && p.alive) {
      DeadPlayerFrozen(g, p, fr.keys);
    }
  }

  /** A dying Samus goes to the death screen before anything else is looked at, START included. */
  lemma DeathBeforePause(f: Flow, p: PlayerData, g: Grid, area: int, room: int, fr: Frame)
    requires GridValid(g) && FlowOk(f) && f.trans == TransNone && p.state == Death && p.frameTimer == 0
    ensures GameplayStep(f, p, g, area, room, fr) == Outcome(f, p, None, [RequestState(STATE_DEATH)])
  {
  }

  /**
   * Pausing and resuming leaves the world as it was: START in gameplay
   * sets the pausing flag; gameplay_exit then only clears it, and
   * gameplay_enter with the room still loaded keeps Samus, the statics
   * and the entities.
   */
  lemma {:induction false} PauseResumeKeepsWorld(f: Flow, p: PlayerData, g: Grid, area: int, room: int, fr: Frame)
    requires GridValid(g) && FlowOk(f) && f.trans == TransNone && f.initialized && !f.pausing
    requires !(p.state == Death && p.frameTimer == 0) && KeyPressed(fr.keys, KEY_START) && p.alive
    ensures var r := GameplayStep(f, p, g, area, room, fr);
      r.effects == [RequestState(STATE_PAUSE)] &&
      Exited(r.flow) == (f, []) &&
      Entered(Exited(r.flow).0, r.player, true, area, room) == Step(f, p, [])
  {
    assert GameplayStep(f, p, g, area, room, fr).flow == f.(pausing := true);
  }

  /** A real exit followed by an enter is a fresh start: Samus re-initialised, Spore Spawn back unless defeated. */
  lemma FreshEnter(f: Flow, p: PlayerData, area: int, room: int)
    requires !f.pausing
    ensures var s := Entered(Exited(f).0, p, true, area, room);
      s.player == INITIAL && s.flow.initialized && s.flow.trans == TransNone &&
      s.flow.bossFlags == f.bossFlags && s.flow.timeFrames == f.timeFrames &&
      (s.flow.bossWasActive <==> SporeRoom(area, room) && f.bossFlags & Save.BOSS_FLAG_SPORE_SPAWN == 0) &&
      (SpawnBoss(Boss.BOSS_SPORE_SPAWN, 128 * FX_ONE, 48 * FX_ONE) in s.effects <==> s.flow.bossWasActive)
  {
  }

  /** gameplay_register_states registers the six implemented states and leaves the map screen and the manager's state alone. */
  lemma {:induction false} RegistersSixStates(m: State.Manager)
    requires State.ManagerOk(m)
    ensures var r := Registrations(m);
      State.ManagerOk(r) && r.current == m.current && r.pending == m.pending && r.transitionPending == m.transitionPending &&
      r.table[STATE_MAP] == m.table[STATE_MAP] &&
      forall s :: 0 <= s < STATE_COUNT && s != STATE_MAP ==> r.table[s] == State.Registered(s)
  {
    var m1 := State.WithHandlers(m, STATE_TITLE, State.Registered(STATE_TITLE));
    State.SetHandlersOnlyThatEntry(m, STATE_TITLE, State.Registered(STATE_TITLE));
    var m2 := State.WithHandlers(m1, STATE_FILE_SELECT, State.Registered(STATE_FILE_SELECT));
    State.SetHandlersOnlyThatEntry(m1, STATE_FILE_SELECT, State.Registered(STATE_FILE_SELECT));
    var m3 := State.WithHandlers(m2, STATE_GAMEPLAY, State.Registered(STATE_GAMEPLAY));
    State.SetHandlersOnlyThatEntry(m2, STATE_GAMEPLAY, State.Registered(STATE_GAMEPLAY));
    var m4 := State.WithHandlers(m3, STATE_PAUSE, State.Registered(STATE_PAUSE));
    State.SetHandlersOnlyThatEntry(m3, STATE_PAUSE, State.Registered(STATE_PAUSE));
    var m5 := State.WithHandlers(m4, STATE_DEATH, State.Registered(STATE_DEATH));
    State.SetHandlersOnlyThatEntry(m4, STATE_DEATH, State.Registered(STATE_DEATH));
    State.SetHandlersOnlyThatEntry(m5, STATE_ENDING, State.Registered(STATE_ENDING));
  }
}
