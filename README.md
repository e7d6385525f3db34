# SMetroidDSiPort core, modelled in Dafny

This project models the integer-only core of SMetroidDSiPort, the Super Metroid port for the Nintendo DSi. It proves properties of that model. The repository holds three separate code bases, and each one is kept in its own modules here:

- **The game simulation** (`source/` with `include/sm_types.h`, `include/sm_physics_constants.h`, `include/boss.h`, `include/enemy.h` and `include/projectile.h`). It covers:
  - 16.16 fixed point and the sine table;
  - tile-collision physics;
  - the room;
  - the enemy and projectile pools;
  - three bosses;
  - the player state machine;
  - the gameplay glue (doors, firing, pickups, play time);
  - the camera;
  - the deferred state manager;
  - the input ring buffer;
  - the SNES-compatible SRAM save image.

  Modules: `SmTypes`, `PhysicsConstants`, `FixedMath`, `Physics`, `Room`, `Enemy`, `Projectile`, `Boss`, `Player`, `Gameplay`, `Camera`, `State`, `Input`, `Save`.
- **The older scaffold** (`src/`). It covers the state manager with its four-entry stack, the file-select, pause, map, death and ending screens, its input ring buffer, and its own save format. Modules: `ScaffoldStateManager`, `ScaffoldFileSelect`, `ScaffoldPause`, `ScaffoldMap`, `ScaffoldDeath`, `ScaffoldEnding`, `ScaffoldInput`, `ScaffoldSave`.
- **The asset tools** (`tools/`). They are the LC_LZ2 decompressor, the tile, tilemap and palette converters, LoROM address conversion, and the ROM reading helpers. Modules: `ToolsBytes`, `ToolsLz`, `ToolsTiles`, `ToolsTilemap`, `ToolsPalette`, `ToolsRomAddresses`, `ToolsRomExtract`.

`CInt` holds the C integer helpers both C trees use: the fixed-width ranges and C's truncating division and remainder.

**How the code is modelled.** Where the C code changes globals in place, the model uses a class. Examples are the pools, `g_player`, `g_boss`, `g_camera`, the state managers, the input statics and the SRAM image. Each method is specified by a function of the state before the call, and the properties are proved about those functions.

Records embedded by value are datatypes: `PhysicsBody`, enemies, projectiles and the boss record. The pure C helpers and the Python expressions are functions. Loops stay loops, with their invariants.

Integers are mathematical. Every C conversion to a narrower type is written out (`ToUint16`, `ToInt16`, `ToUint8`), except those listed under "## Left out", and so is each division that truncates.

Routines the core calls but that are not part of this model are handled in one of two ways:
- they are parameters, such as the room's cell write and the door and item queries;
- they are recorded as requests that the operation returns, in call order, such as graphics, room loading, camera shakes, `projectile_spawn` from the bosses, `state_set` and a screen's hooks.

## Model

| member | source | states |
|---|---|---|
| Boss.SwingOffset | source/boss.c:166-171 | the pendulum offset of Spore Spawn never leaves [-48 px, 48 px], so the 16.16 product cannot overflow |
| Boss.SwingOffsetFits | source/boss.c:170 | for a sine value in [-1, 1] the fixed-point product with the 48 px radius fits and equals 48 times the sine |
| Boss.IdleDuration | source/boss.c:527 | every idle length Bomb Torizo picks lies in [30, 89] |
| Boss.Boss.constructor | source/boss.c:636-639 | boss_init leaves the record all zero |
| Boss.Boss.Spawn | source/boss.c:641-657 | the record after boss_spawn is the spawn function of the old record: unchanged for NONE and out-of-range types, otherwise zeroed, placed and initialised for its type |
| Boss.Boss.Update | source/boss.c:659-665 | the record, the requested shot and shake after boss_update are those of the update function, and the player is damaged by the contact damage exactly when the update reports a hit |
| Boss.Boss.Damage | source/boss.c:695-745 | the record after boss_damage and the camera shakes it requests, in call order, are those of the damage function |
| Boss.Boss.IsActive | source/boss.c:747-749 | the answer is the active flag |
| Boss.DamageGate | source/boss.c:696-698 | an inactive, invulnerable-by-state or recently hit boss is left exactly as it was, with no shake |
| Boss.StandardHit | source/boss.c:720-723 | a non-lethal hit on a non-Crocomire boss subtracts the damage as an int16 and starts the invulnerability timer, and a second hit straight after changes nothing |
| Boss.LethalHit | source/boss.c:725-744 | a lethal hit sets hp to 0, closes the window and resets the timer; Spore Spawn and Bomb Torizo enter their death states, any other type is deactivated |
| Boss.CrocomirePush | source/boss.c:700-717 | a hit on Crocomire never changes hp; it pushes Crocomire 8 px right, clamped at the pit edge; short of the edge it flinches and stays vulnerable, at the edge it starts falling and closes the window |
| Boss.InactiveStays | source/boss.c:659-660 | any number of updates leave an inactive boss unchanged |
| Boss.DeathCountdown | source/boss.c:252-257 | in a death state with timer t < n the boss is still active, with timer t + k, after k < n - t updates, and is inactive after n - t or more |
| Boss.SixtyFrameDeaths | source/boss.c:252-257 | from the start of their death states, Spore Spawn and Bomb Torizo stay active for 59 updates and are inactive after 60 |
| Boss.CrocomireFalls | source/boss.c:409-418 | Crocomire falls for 45 updates and then enters its death state with the timer reset |
| Boss.CrocomireDies | source/boss.c:420-426 | from the start of its death state Crocomire stays active for 89 updates and is inactive after 90 |
| Boss.SporeSpawnCycle | source/boss.c:159-268 | an update keeps Spore Spawn's invariant (a known state, vulnerable exactly in VULNERABLE) and either keeps the state or moves one step along SWING, DESCEND, OPEN, VULNERABLE, CLOSE, ASCEND, SWING |
| Boss.SporeSpawnDamage | source/boss.c:695-745 | a hit keeps Spore Spawn's invariant, and the only state a hit can move it to is DEATH |
| Boss.SporeSpawnStartsSwinging | source/boss.c:141-157 | a spawned Spore Spawn satisfies its invariant, swings, has 960 hp and is anchored at its spawn point |
| Boss.BombTorizoUpdateKeepsOk | source/boss.c:500-612 | updates never put Bomb Torizo in FLINCH, and every idle length it enters lies in [30, 89] |
| Boss.BombTorizoAiKeepsOk | source/boss.c:504-604 | the same for the Bomb Torizo state machine alone |
| Boss.BombTorizoDamageKeepsOk | source/boss.c:695-745 | hits keep Bomb Torizo's invariant |
| Boss.BombTorizoStartsAsStatue | source/boss.c:483-498 | a spawned Bomb Torizo satisfies its invariant, starts as a statue, is not vulnerable and has its full hp |
| Boss.BombTorizoChoosesAttack | source/boss.c:532-545 | when idling ends, Bomb Torizo lunges and resets its attack count iff it has made at least two attacks, and otherwise drops bombs, keeping the count |
| Boss.UnimplementedBosses | source/boss.c:641-665 | a type without init and update entries is spawned active with zeroed fields at its position, and updates and hits leave it unchanged |
| Boss.SpawnIgnoresBadTypes | source/boss.c:642 | boss_spawn ignores BOSS_NONE and out-of-range types |
| Boss.CrocomireStartsAdvancing | source/boss.c:314-330 | a spawned Crocomire is active, advancing and always vulnerable with its dummy hp, and the pit edge lies 160 px right of its spawn point on its spawn row |
| Boss.HarmlessStates | source/boss.c:261-267 | Spore Spawn dying, Crocomire falling or dying, and Bomb Torizo as a statue or dying never hit; in any other state a live, overlapping boss does |
| Boss.ContactNeedsOverlap | source/boss.c:81-89 | contact damage needs a live boss whose box after its AI step is closer to the player's than the summed half-extents on both axes, strictly, in either order of operands |
| Boss.SporeSpawnAi | source/boss.c:159-261 | the Spore Spawn machine keeps type, energy, invulnerability, anchor, contact damage and hitbox; it never requests a shake or reports a hit; spores come out only while vulnerable; vulnerability switches only on entering or leaving VULNERABLE; every state change restarts the timer; only DEATH deactivates |
| Boss.CrocomireAi | source/boss.c:332-429 | the Crocomire machine keeps the same fields and its vulnerability; it requests no shake; it spits only on the first frame of SPIT; it moves vertically only while FALLING; every state change restarts the timer; only DEATH deactivates |
| Boss.BombTorizoAi | source/boss.c:500-605 | the Bomb Torizo machine keeps the same fields; its only shake is the 15-frame, magnitude-2 one when the statue wakes; bombs come out only on the first frame of BOMB; vulnerability switches on only at the end of WAKE; every entry into IDLE draws a length in [30, 89]; only DEATH deactivates |
| Boss.Stepped | source/boss.c:659-665 | boss_update leaves an inactive or unimplemented boss unchanged; it keeps type and energy; it counts invulnerability down by one; it never revives a boss; a hit happens exactly when the boss is live after its AI step, in a harmful state, and overlaps the player; only Bomb Torizo shakes the camera |
| Boss.Damaged | source/boss.c:695-745 | boss_damage leaves a gated boss unchanged; it keeps type, maximum and anchor; it never revives; it never changes Crocomire's energy; past the gate it sets ten frames of invulnerability and shakes (5, 2), followed by (30, 4) exactly when the fight ends and the weak spot closes |
| Camera.Shaken | source/camera.c:79-82 | camera_shake sets the shake length and magnitude and leaves position and target alone |
| Camera.RandOf | source/camera.c:29 | the value shake_rand returns is the low 15 bits of the seed, within [0, 0x7FFF] |
| Camera.Jitter | source/camera.c:92-93 | a shake offset drawn from a non-negative generator value lies within [-mag, mag] |
| Camera.CameraSystem.constructor | source/camera.c:20-23 | the static camera record starts zeroed and the generator seed starts at 7919 |
| Camera.CameraSystem.Init | source/camera.c:32-39 | camera_init zeroes every field and does not reset the generator seed |
| Camera.CameraSystem.Update | source/camera.c:41-77 | the new camera is the dead-zone follow clamped to the room's scroll maxima, with one shake frame used up; the seed is untouched |
| Camera.CameraSystem.FollowAxis | source/camera.c:47-71 | one axis of the follow: move only by the excess beyond the dead zone, then clamp to 0 .. scrollMax pixels in 16.16 |
| Camera.CameraSystem.Shake | source/camera.c:79-82 | the camera after camera_shake is Shaken of the old camera |
| Camera.CameraSystem.Rand | source/camera.c:25-30 | the seed advances by one 32-bit xorshift (13, 17, 5) step and the result is its low 15 bits |
| Camera.CameraSystem.Apply | source/camera.c:84-105 | the three layer scrolls and the new seed are those of Applied: whole-pixel camera position, shaken by two generator draws only while shaking with a positive magnitude |
| Camera.FollowedInBounds | source/camera.c:63-71 | after an update the camera lies within 0 .. scroll maximum on both axes |
| Camera.DeadZoneHoldsStill | source/camera.c:50-61 | a player inside the 32 x 24 px dead zone does not move an in-bounds camera |
| Camera.FollowReachesDeadZone | source/camera.c:50-61 | after following, the target is inside the dead zone, and a camera that moved leaves it exactly on the edge it crossed |
| Camera.PlayerStaysInDeadZone | source/camera.c:41-71 | when the clamp does not bite, the player is inside the dead zone after every update |
| Camera.ShakeCountsDown | source/camera.c:73-76 | over n updates a shake of f frames falls to max(f - n, 0) and keeps its magnitude |
| Camera.LastShakeWins | source/camera.c:79-82 | a second camera_shake replaces the first completely |
| Camera.XorshiftNonZero | source/camera.c:25-28 | the xorshift step maps a non-zero seed to a non-zero seed, so the generator never sticks at zero |
| Camera.LayerScrolls | source/camera.c:84-105 | the level scroll is within the shake magnitude of the camera's pixel position (exact when not shaking), the foreground equals it and the parallax is its half, rounded down |
| Camera.ApplyDrawsTwice | source/camera.c:88-95 | camera_apply advances the generator by exactly two steps while shaking and not at all otherwise |
| Enemy.DamagedRec | source/enemy.c:379-382 | enemy_damage on a record: hp falls by the damage with int16 wrap-around, the enemy stays active only while hp is positive, and nothing else changes |
| Enemy.SwapRemoved | source/enemy.c:280-285 | swap-removing slot i keeps the array length (the whole content is stated by SwapRemoveKeepsOthers) |
| Enemy.Pool.constructor | source/enemy.c:243-247 | enemy_pool_init leaves a valid pool with no active enemy |
| Enemy.Pool.Spawn | source/enemy.c:249-275 | -1 exactly for ENEMY_NONE, an unknown type or a full pool, and then no change; otherwise the new record from enemy_defs goes into the first free slot, whose index is returned, and the count grows by one |
| Enemy.Pool.Remove | source/enemy.c:277-286 | an index outside the active range changes nothing; otherwise the last active record moves into the slot, its old slot is zeroed and the count drops by one |
| Enemy.Pool.ClearAll | source/enemy.c:288-291 | enemy_clear_all empties the pool |
| Enemy.Pool.GetCount | source/enemy.c:367-369 | enemy_get_count returns the active count, which is between 0 and 16 |
| Enemy.Pool.Get | source/enemy.c:371-374 | enemy_get yields nothing (NULL) exactly for an index outside the active range, otherwise the record in that slot |
| Enemy.Pool.Damage | source/enemy.c:376-383 | a bad index changes nothing; otherwise only that slot changes, to DamagedRec of its record |
| Enemy.Pool.ProcessActive | source/enemy.c:316-334 | one active enemy: its slot becomes AI step plus animation step, the player takes the contact check, and no other slot changes |
| Enemy.Pool.ContactCheck | source/enemy.c:321-327 | contact damage is applied exactly when the enemy is still active, deals damage, the player is alive and not invulnerable, and the hitboxes overlap |
| Enemy.Pool.PassRemove | source/enemy.c:311-313 | an inactive slot in the update pass is swap-removed and the pass moves one slot down |
| Enemy.Pool.PassActive | source/enemy.c:316-334 | an active slot in the update pass is processed in place and the pass moves one slot down |
| Enemy.Pool.UpdateAll | source/enemy.c:307-336 | after the backward pass the pool holds exactly the processed active enemies (as a multiset), their number is the old active count minus the inactive ones, and the player is the result of every contact check in slot order from the last |
| Enemy.SpawnUsesDefs | source/enemy.c:255-270 | a spawned enemy is active, has its type's hp (as hp and hp_max), contact damage and hitbox from enemy_defs, faces left, stands still at the spawn point, with zeroed AI and animation counters |
| Enemy.SwapRemoveKeepsOthers | source/enemy.c:277-286 | swap-remove keeps every other active record (as a multiset), puts the last one in slot i, zeroes the freed slot and leaves all other slots alone |
| Enemy.SwapRemoveMultiset | source/enemy.c:280-285 | the active records after a removal are those before minus the removed one |
| Enemy.ProcessAllSize | source/enemy.c:309-314 | a pass leaves as many records as there were active enemies |
| Enemy.RinkaExpires | source/enemy.c:170-174 | a Rinka turns inactive on the update where its timer passes 300, and not before; the timer counts up by one |
| Enemy.AnimCycles | source/enemy.c:329-334 | the animation frame stays in 0..3 and advances (mod 4) exactly when the timer reaches 8, which resets it |
| Enemy.AnimEightSteps | source/enemy.c:329-334 | starting from a zero timer the frame changes once in eight updates |
| Enemy.CrawlerTurnsAtWalls | source/enemy.c:96-101 | an airborne crawler turns left at a right wall and right at a left wall, and its hp and active flag do not change |
| Enemy.SidehopperJumpsTowardPlayer | source/enemy.c:192-205 | after the one-second wait a sidehopper jumps, at half the normal jump speed, toward the player's side |
| Enemy.SidehopperStates | source/enemy.c:188-216 | the sidehopper's state stays 0 (idle) or 1 (airborne) |
| Enemy.AtMostOneHit | source/enemy.c:321-327 | in one pass the player is either untouched or hit exactly once, by one enemy, which leaves them invulnerable |
| Enemy.GateClosedNoContact | source/enemy.c:322-323 | a dead or invulnerable player is left unchanged by a whole pass |
| Enemy.WaverFlies | source/enemy.c:129-149 | a waver moves by its new velocity with no gravity or collision: sideways at its type's speed, vertically at half the sine of its timer's low byte (within half a unit); the uint16 timer advances by one; it turns around exactly when it ends within a tile of the room's left or right edge; nothing else changes |
| Enemy.OverlapIsStrict | source/enemy.c:298-305 | the contact test is symmetric; boxes that only touch on one axis do not overlap; boxes with the same centre overlap exactly when both summed half-extents are positive |
| Enemy.CrawlerStep | source/enemy.c:87-120 | ai_crawler changes only the body and the facing; the body is one physics update of the old body moving at the type's speed in its facing direction; a crawler turns only to face left or right, and only when physics reports a wall or ground contact |
| Enemy.CrawlerTurnsAtFloorEdge | source/enemy.c:96-118 | a grounded crawler reverses its post-wall facing exactly when the tile below and ahead of its leading foot is not COLL_SOLID; an airborne one keeps the post-wall facing |
| Enemy.WaverStep | source/enemy.c:129-149 | ai_waver changes only the timer, body and facing; the timer is a uint16 counting up by one; the waver moves by exactly its new velocity, at its type's horizontal speed, with contacts and hitbox untouched |
| Enemy.RinkaStep | source/enemy.c:158-175 | ai_rinka changes only the body, timer and active flag; on each axis it moves by exactly its new velocity, never away from the player, and not at all on an axis where it is level with the player; a Rinka never comes back to life |
| Enemy.SidehopperStep | source/enemy.c:185-217 | ai_sidehopper changes only the body, state, timer and facing; an unknown state changes nothing; the jump restarts the timer and goes upward; landing returns to idle at rest; facing changes only when a jump starts |
| Enemy.StubStep | source/enemy.c:220-223 | ai_stub changes only the body |
| Enemy.AiStep | source/enemy.c:228-237 | the ai_fns dispatch keeps type, energy, contact damage and animation; only a Rinka can deactivate and only a sidehopper changes its AI state; no enemy comes back to life; the AI timer stays non-negative |
| FixedMath.FxAbs | source/fixed_math.c:14-16 | the result is non-negative and is the argument or its negation (INT32_MIN, whose negation overflows, is excluded) |
| FixedMath.FxMin | source/fixed_math.c:18-20 | the result is one of the arguments and at most both |
| FixedMath.FxMax | source/fixed_math.c:22-24 | the result is one of the arguments and at least both |
| FixedMath.MinBelowMax | source/fixed_math.c:18-24 | fx_min of two values never exceeds their fx_max |
| FixedMath.FxClamp | source/fixed_math.c:26-30 | a value inside [lo, hi] is kept; below lo gives lo and above hi gives hi; with lo <= hi the result lies in [lo, hi], and with lo > hi the lower test wins |
| FixedMath.FxLerp | source/fixed_math.c:32-34 | t = 0 gives a, t = 1.0 gives b, and the result is a plus t times (b - a) rounded down to 16.16 |
| FixedMath.AngleIndex | source/fixed_math.c:82 | `angle & 0xFF` is the angle modulo 256, in 0..255 |
| FixedMath.FxSin | source/fixed_math.c:81-83 | every table value lies in [-1.0, 1.0] |
| FixedMath.FxCos | source/fixed_math.c:85-87 | every cosine value lies in [-1.0, 1.0] |
| FixedMath.LutInRange | source/fixed_math.c:46-79 | all 256 entries of sin_lut lie in [-0x10000, 0x10000] |
| FixedMath.LutAntisymmetric | source/fixed_math.c:46-79 | the second half-turn of the table negates the first: entry i + 128 is minus entry i |
| FixedMath.SinIsPeriodic | source/fixed_math.c:81-83 | fx_sin has period 256 |
| FixedMath.SinQuadrants | source/fixed_math.c:40-41 | sine of 0, 64, 128 and 192 is 0, 1.0, 0 and -1.0 |
| FixedMath.CosIsShiftedSin | source/fixed_math.c:85-87 | fx_cos(a) equals fx_sin(a + 64) |
| FixedMath.NewtonStepStaysAbove | source/fixed_math.c:119 | a Newton step never lands below the integer square root of the radicand |
| FixedMath.NoProgressMeansRoot | source/fixed_math.c:120 | when the step does not decrease the guess, the guess squared is at most the radicand |
| FixedMath.InitialGuessAbove | source/fixed_math.c:108-115 | the starting guess of fx_sqrt is at least the integer root of a << 16 |
| FixedMath.FxSqrt | source/fixed_math.c:97-125 | 0 for a <= 0; otherwise the result is positive, never below the integer root of a << 16, the guesses strictly decrease from the initial one, and when the loop converges before its cap of 16 the result is exactly the integer root |
| FixedMath.FxFromSnes | source/fixed_math.c:135-137 | the result's whole part is the pixel and its fraction the subpixel |
| Gameplay.BeamType | source/gameplay.c:47-53 | the beam is the highest-numbered one whose equipment bit is set (plasma over spazer over wave over ice), the power beam when none is |
| Gameplay.CanFire | source/gameplay.c:55-67 | firing is possible exactly in the standing, running, jumping, spin-jumping, falling and crouching states |
| Gameplay.SplitTime | source/gameplay.c:275-278 | the split clock the save station stores has minutes, seconds and frames in 0..59 |
| Gameplay.JoinTime | source/gameplay.c:503-506 | file select rebuilds the frame counter in uint32 arithmetic, so the result is a uint32 |
| Gameplay.Tick | source/gameplay.c:252 | the play clock counts up by one and wraps at 2^32 |
| Gameplay.DoorStarted | source/gameplay.c:88-92 | start_door_transition stores the door and begins the 8-frame fade-out |
| Gameplay.TransitionKeepsOk | source/gameplay.c:95-169 | one call of update_door_transition keeps the timer in range, sets only brightness levels in [-16, 0], keeps the clock, the boss flags, the save slot and the door, and moves Samus only in the load step, to the door's spawn point |
| Gameplay.FadeLevelExact | source/gameplay.c:100 | the fade arithmetic is exact: for 0 <= t <= 8, t * 16 / 8 is 2t |
| Gameplay.DoorEntered | source/gameplay.c:294-311 | a door is entered exactly when no boss is active, Samus touches it and holds the direction key of that door; then it is the touched door |
| Gameplay.Saved | source/gameplay.c:279 | a save-station write leaves the save image well formed |
| Gameplay.GameFlow.constructor | source/gameplay.c:38-41 | the module's static state starts zeroed |
| Gameplay.GameFlow.StartDoorTransition | source/gameplay.c:88-92 | the state after the call is DoorStarted of the old state |
| Gameplay.GameFlow.UpdateDoorTransition | source/gameplay.c:95-169 | returns true exactly when a transition was running; the new state, Samus and the effects are one TransitionStep of the old ones |
| Gameplay.GameFlow.FadeOutTick | source/gameplay.c:99-110 | the fade-out frame: level -16 + 2t, the timer counts down, and at zero the screen goes black and the load step follows |
| Gameplay.GameFlow.FadeInTick | source/gameplay.c:152-163 | the fade-in frame: level -16 + 2(8 - t), the timer counts down, and at zero full brightness and the transition ends |
| Gameplay.GameFlow.LoadDestination | source/gameplay.c:112-150 | the load frame: pools cleared, the destination room loaded, Samus placed at rest on the spawn point, the room's enemies spawned, Spore Spawn spawned in room 0:3 unless defeated, then the fade-in begins |
| Gameplay.GameFlow.FireWeapons | source/gameplay.c:313-347 | Samus and the shots after the firing code are Fired of Samus and the keys |
| Gameplay.GameFlow.ApplyPickup | source/gameplay.c:349-390 | Samus after the pickup switch is PickedUp of Samus and the item |
| Gameplay.GameFlow.GrantEquipment | source/gameplay.c:369-383 | an equipment item only ORs in its bit; an unknown item changes nothing |
| Gameplay.GameFlow.FillTank | source/gameplay.c:353-368 | the tank cases of the pickup switch, as TankFilled |
| Gameplay.GameFlow.Enter | source/gameplay.c:178-216 | gameplay_enter: a resume from pause keeps everything, otherwise a fresh start as Entered |
| Gameplay.GameFlow.Exit | source/gameplay.c:218-230 | gameplay_exit: while pausing only the flag is cleared, otherwise the pools are cleared and the module is marked uninitialised |
| Gameplay.GameFlow.Update | source/gameplay.c:232-399 | one gameplay_update call: flow, Samus, effects and the save image are those of GameplayStep, and a crumble block is armed only if the frame reaches the world update |
| Gameplay.GameFlow.Settle | source/gameplay.c:238-399 | gameplay_update once no transition runs: death first, then pause, then the played frame |
| Gameplay.GameFlow.Play | source/gameplay.c:251-399 | a played frame: clock tick, the player update, the save station, the boss edge, the door check, weapons, pickup and the world update |
| Gameplay.GameFlow.Rest | source/gameplay.c:256-399 | what follows player_update on a played frame |
| Gameplay.GameFlow.Finish | source/gameplay.c:299-399 | the door check, weapons, pickup and the world update, as PlayTail |
| Gameplay.GameFlow.StationSave | source/gameplay.c:256-282 | UP on the ground on a save tile writes the current progress to the active slot; otherwise the image is unchanged |
| Gameplay.GameFlow.DefeatCheck | source/gameplay.c:284-292 | on the falling edge of the boss the flag is cleared, Spore Spawn's bit is set in room 0:3, and a 30-frame shake of 4 px follows |
| Gameplay.GameFlow.TitleEnter | source/gameplay.c:414-428 | title_enter blacks out both screens and starts the 8-frame fade-in |
| Gameplay.GameFlow.TitleExit | source/gameplay.c:430-434 | title_exit restores full brightness |
| Gameplay.GameFlow.TitleUpdate | source/gameplay.c:436-445 | title_update runs the fade while one is active, otherwise START requests file select |
| Gameplay.GameFlow.FileSelectEnter | source/gameplay.c:457-478 | file_select_enter puts the cursor on the first file and changes nothing else |
| Gameplay.GameFlow.FileSelectUpdate | source/gameplay.c:484-517 | file_select_update moves the cursor, loads the slot on A and goes back to the title on B; the save image is only read |
| Gameplay.GameFlow.MoveCursor | source/gameplay.c:485-490 | DOWN, then UP, each wrapping round the three slots |
| Gameplay.GameFlow.LoadSlot | source/gameplay.c:497-510 | A makes the cursor's slot active and loads its boss flags and clock, or zeroes them for an empty or corrupt slot |
| Gameplay.GameFlow.PauseEnter | source/gameplay.c:527-539 | pause_enter dims the main screen to -8 |
| Gameplay.GameFlow.PauseExit | source/gameplay.c:541-544 | pause_exit restores the main screen |
| Gameplay.GameFlow.PauseUpdate | source/gameplay.c:546-550 | START requests gameplay, and nothing else happens |
| Gameplay.GameFlow.DeathUpdate | source/gameplay.c:572-576 | A requests file select, and nothing else happens |
| Gameplay.GameFlow.EndingUpdate | source/gameplay.c:611-615 | A requests the title, and nothing else happens |
| Gameplay.GameFlow.EndingEnter | source/gameplay.c:586-605 | ending_enter restores brightness and shows the play time in hours, minutes and seconds |
| Gameplay.RegisterStates | source/gameplay.c:625-644 | the manager's table after gameplay_register_states is Registrations of the old one |
| Gameplay.PhaseAdvance | source/gameplay.c:98-167 | one call moves FADEOUT to LOAD when its timer runs out, LOAD to FADEIN with a fresh timer, FADEIN to NONE when its timer runs out, and leaves NONE alone |
| Gameplay.DoorPhases | source/gameplay.c:88-169 | k calls after start_door_transition the phase and timer are those of the 8 + 1 + 8 frame schedule |
| Gameplay.DoorSchedule | source/gameplay.c:95-169 | during a door transition the door, clock, boss flags and save slot stay, Samus moves only at the load (to the spawn point), and every brightness level set lies in [-16, 0] |
| Gameplay.DoorTransitionLength | source/gameplay.c:232-236 | gameplay_update is frozen in the transition for exactly 17 frames after a door is entered |
| Gameplay.TitleFadeIn | source/gameplay.c:426-440 | k frames after title_enter the machine is still fading iff k < 8, with timer 8 - k, and nothing else changes |
| Gameplay.TitleStartGate | source/gameplay.c:436-445 | while the title fades in no state is requested; afterwards START and only START requests file select |
| Gameplay.TimeRoundTrip | source/gameplay.c:275-278 | the split clock the save station stores rebuilds the uint32 frame counter exactly in file select |
| Gameplay.EndingAgreesWithSplit | source/gameplay.c:591-594 | ending_enter's hours, minutes and seconds equal those of the stored split |
| Gameplay.StationSaveRestoresProgress | source/gameplay.c:261-279 | a save at a station, then A on that slot in file select, restores the known boss flags and the exact clock |
| Gameplay.StationClockFits | source/gameplay.c:275-278 | the split of a uint32 counter fits the record's uint16 fields, so save_read gives it back unchanged |
| Gameplay.FiredCount | source/gameplay.c:313-347 | the weapons code fires one shot of a type per trigger that fires that type: X the owned beam, R a missile, L a super missile, B a bomb |
| Gameplay.AmmoSpent | source/gameplay.c:323-332 | each missile or super missile fired costs exactly one, and one is fired only when some is left |
| Gameplay.FiredKeepsRest | source/gameplay.c:313-347 | firing changes nothing about Samus but the two ammunition counts |
| Gameplay.BeamAndBombTriggers | source/gameplay.c:314-347 | the best owned beam comes out exactly on X in a firing state; a bomb exactly on B in morph ball with bombs |
| Gameplay.MorphBallOnlyBombs | source/gameplay.c:341-347 | in morph ball nothing is spent, and the only thing that comes out is a bomb at Samus's position |
| Gameplay.EnergyTanks | source/gameplay.c:353-356 | an energy tank raises the maximum by 100 and refills; a reserve tank raises the reserve maximum by 100 |
| Gameplay.AmmoTanks | source/gameplay.c:357-368 | missile, super and power-bomb tanks raise count and maximum by 5 alike |
| Gameplay.EquipmentPickup | source/gameplay.c:369-383 | an equipment item only sets its bit |
| Gameplay.EquipmentKept | source/gameplay.c:349-390 | no pickup removes equipment |
| Gameplay.EquipmentPickupIdempotent | source/gameplay.c:369-383 | collecting an equipment item twice is collecting it once |
| Gameplay.ItemBits | source/gameplay.c:369-387 | every equipment item has a bit; ids outside the item table give none and are no tank |
| Gameplay.UnknownItemIgnored | source/gameplay.c:387 | a pickup of an unknown id leaves Samus unchanged |
| Gameplay.CursorLaws | source/gameplay.c:485-490 | the cursor stays on a slot, wraps at both ends, and DOWN with UP in one frame cancels out |
| Gameplay.EmptySlotStartsFresh | source/gameplay.c:507-511 | an empty or corrupt slot starts a new game: no bosses, the clock at zero, and gameplay is requested |
| Gameplay.DoorsLockedWhileBossActive | source/gameplay.c:294-298 | while a boss is alive no door transition starts, whatever Samus touches and holds |
| Gameplay.PlayedFlow | source/gameplay.c:251-311 | the flow after a played frame is the boss edge of the ticked flow, plus a door start if a door is entered |
| Gameplay.ClockTicksWhenPlayed | source/gameplay.c:232-252 | the clock ticks exactly on the frames that pass the transition, death and pause exits |
| Gameplay.BossFlagOnlyOnEdge | source/gameplay.c:284-292 | boss flags change only on the boss's falling edge on a played frame in Spore Spawn's room, by setting its bit |
| Gameplay.BossFlagsMonotone | source/gameplay.c:284-292 | no frame clears a boss flag |
| Gameplay.SaveOnlyAtStation | source/gameplay.c:256-282 | a save happens exactly when a played frame's stepped Samus presses UP on a save tile, and it stores the current flags and the ticked clock |
| Gameplay.DeathBeforePause | source/gameplay.c:238-249 | a dying Samus whose animation has ended goes to the death screen before START is looked at |
| Gameplay.PauseResumeKeepsWorld | source/gameplay.c:244-249 | START pauses; the following exit and the resume's enter give back the exact flow and Samus |
| Gameplay.FreshEnter | source/gameplay.c:178-230 | a real exit followed by an enter re-initialises Samus and keeps clock and flags; Spore Spawn is spawned exactly in its room while undefeated |
| Gameplay.RegistersSixStates | source/gameplay.c:625-644 | the six implemented states get their handlers, the map screen's entry and the manager's state stay as they were |
| Gameplay.Fired | source/gameplay.c:313-347 | the weapons code changes Samus only in the two ammunition counts; each count stays or drops by one, and drops only from a positive count; every effect is a projectile spawn, at most four; outside the firing states Samus is unchanged |
| Gameplay.PickedUp | source/gameplay.c:349-390 | the pickup switch keeps Samus's body, state, facing, life and timers; no capacity goes down; a tank keeps the equipment; any other item changes only the equipment |
| Gameplay.TransitionStep | source/gameplay.c:95-169 | with no transition nothing happens; otherwise the clock, boss flags, slot and door are kept, Samus moves only on the LOAD step, to the door's spawn point, and no state is requested |
| Gameplay.GameplayStep | source/gameplay.c:232-399 | during a transition the clock stands still and nothing is saved; the save slot is never changed; the death screen is requested only for a dying Samus whose frame timer is 0; the pause only for a living Samus pressing START |
| Gameplay.DeathScreenNeverRequested | source/gameplay.c:238-242 | as written, a dead Samus whose freeze is at 120 stays dead with the freeze at 120 after any gameplay_update, and no update requests STATE_DEATH |
| Input.NextHold | source/input.c:37-45 | a hold counter counts up while its key is held, stops at 0xFFFF, and resets to 0 when released |
| Input.HoldAfter | source/input.c:19 | a hold counter stays a uint16 over any run of frames |
| Input.HoldCountsHeldFrames | source/input.c:37-45 | a counter at h that sees its key held for n frames reads min(h + n, 0xFFFF) |
| Input.ReleaseResetsHold | source/input.c:42-44 | a frame without the key resets the counter, whatever it read before |
| Input.RecentSlot | source/input.c:62 | the ring position of the i-th newest entry always lies inside the 8-entry ring |
| Input.LowestKeyBit | source/input.c:72-76 | the bit searched for is -1 or within from..15 |
| Input.LowestKeyBitIsLowest | source/input.c:70-78 | the bit found is set and no lower bit of the range is; -1 exactly when bits from..15 are all clear |
| Input.InputSystem.constructor | source/input.c:14-24 | the module's statics start at zero |
| Input.InputSystem.Update | source/input.c:26-46 | the frame's masks are cached, the pressed mask is stored at the ring index, the index advances mod 8, and every hold counter takes one NextHold step on its bit of the held mask |
| Input.InputSystem.Buffered | source/input.c:60-68 | the result is true exactly when one of the 5 newest ring entries has a bit of the key |
| Input.InputSystem.HeldFrames | source/input.c:70-78 | the counter of the key's lowest bit in 0..15, or 0 when none of those bits is set |
| Input.RingShiftsByOne | source/input.c:33-34 | after storing a frame, the newest ring entry is that frame and the i-th newest is the previous (i-1)-th newest |
| Input.PressIsBuffered | source/input.c:33-34 | a key pressed in the frame just stored is buffered |
| Input.WindowAfterQuietFrame | source/input.c:60-68 | after one more frame without the key, the key is buffered exactly when it was among the 4 newest frames before |
| Input.PressedMatchesAnyKey | source/input.c:48-50 | input_pressed of a key combination is true exactly when one of its keys is pressed; the empty mask is never pressed |
| Input.HeldMatchesAnyKey | source/input.c:52-54 | the same for input_held |
| Input.ReleasedMatchesAnyKey | source/input.c:56-58 | the same for input_released |
| Physics.FxToTile | source/physics.c:26-28 | the tile of a 16.16 coordinate is the floor: the coordinate lies in [t * 16 px, (t + 1) * 16 px) |
| Physics.TileEdgeTiles | source/physics.c:71-75 | a tile's low edge lies in that tile and the subpixel before it in the previous one, which is why the snaps use `right - 1` and `bottom - 1` |
| Physics.RowHasSolid | source/physics.c:31-38 | true exactly when some tile of the row between the two columns (inclusive) is COLL_SOLID |
| Physics.ColHasSolid | source/physics.c:41-48 | true exactly when some tile of the column between the two rows (inclusive) is COLL_SOLID |
| Physics.ApplyGravity | source/physics.c:158-183 | gravity changes only the vertical velocity |
| Physics.Integrate | source/physics.c:185-189 | physics_integrate changes only the position |
| Physics.ResolveHorizontal | source/physics.c:60-91 | the body after resolve_horizontal is ResolvedHorizontal of the body |
| Physics.ResolveVertical | source/physics.c:100-131 | the body after resolve_vertical is ResolvedVertical of the body |
| Physics.CheckGroundSensor | source/physics.c:140-152 | the body after check_ground_sensor is SensedGround of the body |
| Physics.ResolveCollisions | source/physics.c:191-198 | contacts cleared, then the horizontal, vertical and ground-sensor steps, as Resolved |
| Physics.UpdateBody | source/physics.c:200-221 | gravity, acceleration, contacts cleared, move and resolve X, move and resolve Y, ground sensor, as Updated |
| Physics.GravityCapsAtTerminal | source/physics.c:177-182 | the new fall speed is at most the environment's terminal velocity and at most old speed plus gravity; the cap acts only downward, so a rising body or one below the cap gets the full gravity |
| Physics.NoMotionNoResolution | source/physics.c:68-90 | a body at rest on an axis is left alone by that axis's resolution |
| Physics.WallSnap | source/physics.c:68-90 | moving into a solid column puts the leading edge on the tile's edge, in the free tile next to it, stops horizontal motion, raises the wall flag and leaves the vertical state alone |
| Physics.FloorAndCeilingSnap | source/physics.c:108-130 | landing puts the feet on the solid row's top edge and raises on_ground; a ceiling hit puts the head under its bottom edge and raises on_ceiling; vertical motion stops and the horizontal state is kept |
| Physics.GroundSensorOnlyRaisesGround | source/physics.c:140-152 | check_ground_sensor changes only on_ground, and only from false to true |
| Physics.UpdateContactsComeFromThisStep | source/physics.c:208-220 | every contact flag after physics_update_body comes from this update: a wall flag exactly from a blocked horizontal move, a ceiling flag only from upward motion, and no hazard flag |
| Physics.OnlySolidBlocks | source/physics.c:33-43 | two rooms that agree on which tiles are solid give the same update, so special, hazard and slope tiles never block |
| Physics.FxToTileMonotone | source/physics.c:26-28 | fx_to_tile is monotone |
| Physics.UnloadedRoomStopsMotion | source/room.c:167-168 | with no room loaded every tile reads solid, so a body with a hitbox is stopped on both axes |
| Player.CrumbleCell | source/player.c:355-366 | the cell step 5 arms is -1 or a cell of the room |
| Player.CrumbleArmed | source/player.c:319-371 | the crumble cell of one player_update is -1 or a cell of the room |
| Player.Player.constructor | source/player.c:281-296 | player_init: a zeroed record at (128, 120) with the standing hitbox, falling, facing right, alive with 99 of 99 energy |
| Player.Player.Init | source/player.c:281-296 | player_init on the existing record gives the same initial record |
| Player.Player.ResetMotion | source/player.c:282-292 | the body, state, facing and animation of player_init |
| Player.Player.ResetVitals | source/player.c:282-295 | energy, life and timers of player_init |
| Player.Player.ResetAmmo | source/player.c:282 | ammunition zeroed by player_init's memset |
| Player.Player.ResetPacks | source/player.c:282 | equipment, power bombs and reserve zeroed by player_init's memset |
| Player.Player.ChangeState | source/player.c:51-69 | the record after change_state is ChangedState of the old one |
| Player.Player.AirSteer | source/player.c:116-123 | the shared left/right steering, as AirControl |
| Player.Player.StateStanding | source/player.c:75-91 | state_standing, as StandingStep |
| Player.Player.StateRunning | source/player.c:93-112 | state_running, as RunningStep |
| Player.Player.StateJumping | source/player.c:114-145 | state_jumping and state_spin_jumping, as JumpingStep |
| Player.Player.StateCrouching | source/player.c:158-174 | state_crouching, as CrouchingStep |
| Player.Player.StateMorphBall | source/player.c:176-192 | state_morphball, as MorphBallStep |
| Player.Player.StateDamage | source/player.c:194-202 | state_damage, as DamageStep |
| Player.Player.StateDeath | source/player.c:204-214 | state_death, as DeathStep |
| Player.Player.RunHandler | source/player.c:298-325 | the dispatch through state_fns, stubs included, as Handled |
| Player.Player.PostPhysicsCheck | source/player.c:224-261 | post_physics_check, as PostPhysics |
| Player.Player.ApplyDamage | source/player.c:399-414 | player_damage, as Damaged |
| Player.Player.TakeHit | source/player.c:403-413 | past the gate, player_damage gives Damaged |
| Player.Player.Die | source/player.c:406-410 | the fatal branch: no energy, not alive, the death state with a 120-frame freeze |
| Player.Player.ApplyDamageFrom | source/player.c:416-426 | player_damage_from, as DamagedFrom |
| Player.Player.HazardResponse | source/player.c:333-353 | step 4 of player_update, as HazardStep |
| Player.Player.ProbeCrumble | source/player.c:355-366 | only the crumble block under the feet of a grounded Samus is armed, to 30 frames, and only if its timer was idle; every other timer stays |
| Player.Player.HandlerPhysicsHazard | source/player.c:322-353 | steps 1 to 4 of player_update, as BeforeTimers |
| Player.Player.Update | source/player.c:319-371 | the record after player_update is Stepped of the old one, and only the crumble cell CrumbleArmed selects is armed |
| Player.Player.TickTimers | source/player.c:368-370 | the invulnerability and shinespark countdowns, as TimersStep |
| Player.ChangeStateSetsHitbox | source/player.c:51-69 | change_state sets the state, restarts the animation and sizes the hitbox (crouch, morph for both balls, standing otherwise); position, speed, energy and invulnerability stay |
| Player.DamageGate | source/player.c:399-418 | a dead or invulnerable player is left unchanged by both damage entry points |
| Player.DamageOutcome | source/player.c:403-413 | a hit through the gate starts 60 frames of invulnerability, drops energy stopping at 0, and leads to the damage state or, at 0, the death state with the 120-frame freeze |
| Player.SecondHitIgnored | source/player.c:400-401 | a second hit right after the first changes nothing |
| Player.KnockbackAwayFromSource | source/player.c:416-426 | player_damage_from pushes away from the source's side and upward, then damages as player_damage |
| Player.LandingCorrection | source/player.c:226-240 | landing ends an airborne state, in RUNNING when a direction is held and STANDING otherwise |
| Player.FallingCorrections | source/player.c:241-260 | leaving the ground in a grounded state starts a fall, and so does a jump at its apex; a jump still rising keeps its state |
| Player.PostPhysicsKeepsOtherStates | source/player.c:224-261 | the corrections leave every state they do not name alone |
| Player.JumpReleaseCap | source/player.c:125-128 | releasing B while rising faster than 1 px per frame sets exactly 1 px per frame; otherwise the vertical speed is kept, and the state is kept in both |
| Player.AirControlKeepsVertical | source/player.c:116-123 | steering in the air touches neither the vertical speed nor the state |
| Player.PhysicsClearsHazard | source/physics.c:209 | the physics step never leaves on_hazard raised |
| Player.HazardInert | source/player.c:333-353 | every hazard branch of step 4 is dead after physics: it only restores a lava environment to air |
| Player.DeadPlayerFrozen | source/player.c:320 | a dead player is left unchanged by player_update and arms no crumble block |
| Player.DeathFreezeStays | source/player.c:320 | after a fatal hit the death freeze stays at 120 for every later update, since the countdown in state_death is never reached |
| Player.InvulnCountsDown | source/player.c:368-369 | the invulnerability timer of a living player drops by one per update and stops at 0 |
| Player.MorphOnlyFromCrouch | source/player.c:170-173 | a handler reaches MORPHBALL only from CROUCHING with A pressed and the morph ball equipped |
| Player.MorphBallReachability | source/player.c:319-371 | over a whole update, morph ball is entered only from a crouch with A pressed and the morph ball equipped |
| Player.StandingStep | source/player.c:75-91 | state_standing keeps vitals, position, contacts and environment; it stops horizontal motion; a held direction always starts a run; a jump starts only on B and with the normal jump speed; it goes only to RUNNING, JUMPING or CROUCHING |
| Player.RunningStep | source/player.c:93-112 | state_running keeps vitals, position, contacts and environment; with no direction held it stands; otherwise it faces the held direction at walk or Y-run speed (left wins); a spin jump starts only on B and with the spin-jump speed |
| Player.JumpingStep | source/player.c:114-145 | the jump handlers keep vitals, position, contacts, environment and the state; the vertical speed is either kept or cut to -1 px per frame, and never made faster upward |
| Player.CrouchingStep | source/player.c:158-174 | state_crouching keeps vitals, position, contacts and environment; it stops horizontal motion; releasing down stands; morph ball needs A pressed and the morph ball equipped |
| Player.MorphBallStep | source/player.c:176-192 | state_morphball keeps vitals, position, contacts and environment; it rolls no faster than the morph-ball speed; it leaves the ball only for CROUCHING, on A |
| Player.DamageStep | source/player.c:194-202 | state_damage keeps vitals, position and the knockback velocity; it keeps the state while knockback lasts (invulnerability above 60 - 15 frames) and falls afterwards |
| Player.DeathStep | source/player.c:204-214 | state_death keeps vitals, state and position; it stops the body; it counts the frame timer down by one until 0 |
| Player.Handled | source/player.c:298-325 | the state_fns dispatch, stubs included, keeps vitals, position, contacts and environment; a rising state stays rising |
| Player.PostPhysics | source/player.c:224-261 | post_physics_check keeps vitals and the body (but the hitbox height); on the ground no airborne state remains; off the ground no grounded state remains |
| Player.Damaged | source/player.c:399-414 | player_damage leaves a dead or invulnerable player unchanged; it keeps position, velocity, contacts and environment; it never revives; past the gate it starts 60 frames of invulnerability, and Samus stays alive exactly when energy remains; energy never rises and never goes below 0 |
| Player.DamagedFrom | source/player.c:416-426 | player_damage_from leaves a dead or invulnerable player unchanged; past the gate it sets the knockback velocity and 60 frames of invulnerability; it keeps the position and never revives; energy never rises and never goes below 0 |
| Player.HazardStep | source/player.c:333-353 | step 4 keeps position and contacts; it changes the state only on a hazard with no invulnerability; off a hazard, or while invulnerable, it keeps the vitals; off a hazard the environment is never lava; it never revives |
| Player.Stepped | source/player.c:319-371 | player_update leaves a dead player unchanged and never revives; while Samus is invulnerable an update costs no energy |
| Player.SteppedCorrected | source/player.c:319-324 | the corrected update is player_update for a living player; a dead player keeps life, state, position and energy, and in DEATH its frame timer drops by one |
| Player.CorrectedCountdown | source/player.c:204-214 | with the correction, n updates in DEATH take the frame timer down by n |
| Player.CorrectedDeathCountdown | source/player.c:406-410 | with the correction, 120 updates after a fatal hit the freeze has run out, so the death screen is due |
| Projectile.SwapRemoved | source/projectile.c:245-253 | removing slot i of n keeps the pool's length (the last live slot moves into i and is zeroed) |
| Projectile.CodeAt | source/room.c:167-172 | the collision code a projectile reads is a uint8_t, 0-255 |
| Projectile.BlastCell | source/projectile.c:128-130 | breaking one bomb block keeps the room well formed |
| Projectile.BlastRow | source/projectile.c:127-131 | one row of the blast keeps the room well formed |
| Projectile.BlastRows | source/projectile.c:126-132 | the whole blast square keeps the room well formed |
| Projectile.BlastRadius | source/projectile.c:124-125 | the blast radius in tiles is at least one |
| Projectile.EnemyHits | source/projectile.c:150-168 | the enemy pass keeps the number of enemy records |
| Projectile.BlastEnemies | source/projectile.c:112-118 | the blast's enemy pass keeps the number of enemy records |
| Projectile.Exploded | source/projectile.c:107-144 | an explosion keeps the world well formed |
| Projectile.BombStep | source/projectile.c:273-284 | a bomb's frame keeps the world well formed, and a bomb that lives on is still well formed |
| Projectile.HitStep | source/projectile.c:323-341 | the entity tests keep the world well formed and, when the projectile survives, do not change it |
| Projectile.Aged | source/projectile.c:288-299 | a projectile that survives moving and ageing is still well formed |
| Projectile.TileHit | source/projectile.c:301-321 | the tile test keeps the room well formed |
| Projectile.FlyStep | source/projectile.c:287-341 | a flying projectile's frame keeps the world well formed, and a survivor is still well formed |
| Projectile.Step | source/projectile.c:266-341 | one slot's frame keeps the world well formed, and a survivor is still well formed |
| Projectile.PassWorld | source/projectile.c:264-343 | the whole pass keeps the world well formed |
| Projectile.PassCount | source/projectile.c:264-343 | no more projectiles survive the pass than were live before it |
| Projectile.CheckEnemyHits | source/projectile.c:150-168 | the loop from the last enemy down damages enemies as EnemyHits says, and reports whether the projectile stopped |
| Projectile.BlastEnemyPool | source/projectile.c:112-118 | the blast loop damages the enemy pool as BlastEnemies says |
| Projectile.BlastTiles | source/projectile.c:121-133 | the two nested tile loops give the room BlastRows describes |
| Projectile.BombJump | source/projectile.c:136-143 | the player is launched upward exactly as BombJumped says (within 16 pixels on both axes) |
| Projectile.Explode | source/projectile.c:107-144 | bomb_explode: enemies damaged, bomb blocks in the radius broken, and the bomb jump, in that order |
| Projectile.Move | source/projectile.c:288-299 | movement and lifetime give Aged's result: gone exactly when the lifetime runs out |
| Projectile.TileCheck | source/projectile.c:301-321 | the tile test gives TileHit's room and stop flag |
| Projectile.CheckHits | source/projectile.c:323-341 | the entity tests give HitStep's world, and a survivor is unchanged |
| Projectile.BombUpdate | source/projectile.c:273-284 | a bomb's frame gives BombStep's world and survivor |
| Projectile.Detonate | source/projectile.c:277-281 | exploding a bomb gives the world Exploded describes |
| Projectile.FlyUpdate | source/projectile.c:287-341 | a flying projectile's frame gives FlyStep's world and survivor |
| Projectile.UpdateOne | source/projectile.c:266-341 | one slot's frame gives Step's world and survivor |
| Projectile.ProjPool.constructor | source/projectile.c:205-209 | projectile_pool_init: an empty, well-formed pool |
| Projectile.ProjPool.Spawn | source/projectile.c:211-243 | -1 exactly for an invalid type or a full pool, and then no change; otherwise the record built from the type's table entry goes in slot active_count, whose index is returned |
| Projectile.ProjPool.Remove | source/projectile.c:245-253 | an index out of range changes nothing; otherwise one fewer live slot, by swap-remove |
| Projectile.ProjPool.ClearAll | source/projectile.c:255-258 | no live projectiles remain |
| Projectile.ProjPool.PassProcess | source/projectile.c:266-341 | processing slot i keeps the pass invariant, with the slot's outcome known |
| Projectile.ProjPool.PassRemove | source/projectile.c:267-270 | removing a finished slot keeps the pass invariant one slot lower |
| Projectile.ProjPool.PassKeep | source/projectile.c:264-343 | writing back a surviving slot keeps the pass invariant one slot lower |
| Projectile.ProjPool.UpdateAll | source/projectile.c:264-343 | projectile_update_all: the survivors are, as a multiset, those PassKept describes, their number is PassCount, and the world is PassWorld |
| Projectile.ProjPool.RunPass | source/projectile.c:265-342 | the downward loop carries the pass invariant from the last live slot to the end |
| Projectile.SpawnUsesDefs | source/projectile.c:69-81 | a spawned projectile takes damage, lifetime and hitbox from its type's table row, keeps position, velocity and owner, and only bombs get a fuse timer |
| Projectile.SwapRemoveKeepsOthers | source/projectile.c:245-253 | swap-remove drops exactly the removed record, moves the last one into its slot, zeroes the old last slot, and leaves every other slot alone |
| Projectile.SwapRemoveMultiset | source/projectile.c:245-253 | the live records after a removal are those before it minus the removed one |
| Projectile.PassKeptSize | source/projectile.c:264-343 | the survivor multiset has exactly PassCount elements |
| Projectile.TileIsSolidCodes | source/projectile.c:84-88 | solid exactly for COLL_SOLID and the sixteen special codes, so shot, bomb and crumble blocks are solid and air and spikes are not |
| Projectile.TileTestNeverBreaksShotBlocks | source/projectile.c:301-321 | the tile test never changes the room, because the solid test already stops shots at shot blocks; it stops a projectile exactly on a solid tile |
| Projectile.OnlyBombsChangeTheRoom | source/projectile.c:287-341 | a frame of any non-bomb projectile leaves the room's collision map unchanged |
| Projectile.EnemyShotsTestOnlyThePlayer | source/projectile.c:191-199 | an enemy shot touches only the player: on overlap it deals its damage and disappears, otherwise nothing changes |
| Projectile.PlayerShotsSparePlayer | source/projectile.c:174-185 | a player shot never damages the player, and one overlapping an active boss is always consumed |
| Projectile.BossHitConsumes | source/projectile.c:174-185 | a player shot that missed every enemy and overlaps the active boss damages it once (adding its shakes) and disappears |
| Projectile.NoStrikeNoChange | source/projectile.c:155-167 | a shot that overlaps no enemy changes no enemy and is not stopped |
| Projectile.StopsAtFirstHit | source/projectile.c:155-167 | a non-plasma shot stops exactly when it overlaps some enemy, and then damages only the highest-indexed one it overlaps |
| Projectile.PlasmaHitsAll | source/projectile.c:155-167 | a plasma shot is never stopped and damages every enemy it overlaps |
| Projectile.BlastDamagesAllInBox | source/projectile.c:112-118 | a blast damages every enemy overlapping its box, and no other |
| Projectile.BombTimer | source/projectile.c:273-284 | a bomb with fuse t survives exactly k < t frames, each one frame shorter |
| Projectile.BombExplodesAtZero | source/projectile.c:273-281 | a bomb whose fuse is at most one explodes this frame and leaves the pool |
| Projectile.FlightPath | source/projectile.c:287-299 | after k frames a shot with lifetime L is alive exactly when L is 0 or k < L, and sits at pos + k * vel with L - k left |
| Projectile.SetCellReads | source/projectile.c:128-129 | the concrete room write taken for room_set_collision changes exactly the tile it names, and only inside the room |
| Projectile.BlastRowCells | source/projectile.c:127-131 | one blast row turns exactly its bomb blocks into air |
| Projectile.BlastRowsCells | source/projectile.c:126-132 | the blast square turns exactly its bomb blocks into air |
| Projectile.ExplosionBreaksBombBlocks | source/projectile.c:120-133 | a bomb breaks the bomb blocks within 1 tile (a power bomb within 2) of its tile, and no other tile |
| Room.CollisionAt | source/room.c:167-172 | outside a loaded room (unloaded, or either coordinate out of range) every tile is COLL_SOLID |
| Room.BtsAt | source/room.c:174-179 | outside a loaded room every BTS byte is 0 |
| Room.LookupReadsRowMajorCell | source/room.c:171-178 | inside the room both lookups read cell y * width + x, which lies within the arrays |
| Room.UnloadedRoomIsSolid | source/room.c:167-179 | an unloaded room is solid, with BTS 0, at every coordinate |
| Room.TestRoomLayout | source/room.c:91-115 | the test room's collision map is solid exactly on the two floor rows, the side walls and the platform row 6, columns 5-10, and air elsewhere |
| Room.ScrollMax | source/room.c:118-121 | the scroll bound is the room's excess over the screen, clamped at 0 |
| Room.BgMapOffsetInverse | source/room.c:233-237 | a BG-map cell's offset lies in the 4096-entry map and the cell is recovered from it |
| Room.OffsetCellInverse | source/room.c:233-237 | every BG-map entry is the offset of exactly one 64x64 cell |
| Room.BgMapOffsetInjective | source/room.c:233-237 | distinct cells never share a BG-map entry |
| Room.RoomData.View | source/room.c:167-179 | the collision view of a well-formed room is well formed |
| Room.RoomData.constructor | source/room.c:131-133 | room_init: every field and cell zero, so no room is loaded |
| Room.RoomData.LoadTestRoom | source/room.c:70-125 | load_test_room: the 16x12 header, the three spawn points, the test layout in the collision and metatile layers, BTS zero, the scroll bounds, loaded, and true |
| Room.RoomData.SetTestHeader | source/room.c:71-82 | the header fields and spawn list load_test_room writes first |
| Room.RoomData.FillTestRows | source/room.c:91-115 | the row loop turns the cleared layers into the test layout |
| Room.RoomData.ClearLayers | source/room.c:84-86 | the three memsets: all cells air, BTS 0, metatile 0 |
| Room.RoomData.FillTestRow | source/room.c:92-114 | one inner loop gives the cells of row y their code and metatile and leaves the other rows alone |
| Room.RoomData.Load | source/room.c:135-157 | room_load: whatever the area and room, the test room is loaded with its BG map built, and true is returned |
| Room.RoomData.Unload | source/room.c:159-165 | room_unload: not loaded, zero size, no doors and no spawns; the other fields and the arrays are kept |
| Room.RoomData.UploadToVram | source/room.c:200-248 | an unloaded room leaves the BG map alone; a loaded one gives each cell the 10-bit tile index of its metatile inside the 32x32-metatile window and 0 elsewhere |
| Room.RoomData.WriteRow | source/room.c:218-244 | one row of the upload writes the 2x2 cells of its metatiles and nothing else |
| Room.RoomData.WriteBlock | source/room.c:228-241 | the 2x2 loops write the four cells of one metatile and nothing else |
| Room.RoomData.WriteCell | source/room.c:230-240 | one store writes the entry of exactly the cell it names |
| Save.Zeros | source/save.c:159-161 | sram_zero's bytes: n bytes, all zero |
| Save.PutU16 | source/save.c:175-178 | buf_put_u16 changes only the two bytes at the offset |
| Save.GetU16 | source/save.c:180-182 | buf_get_u16 gives a uint16_t |
| Save.PutGetU16 | source/save.c:175-182 | a stored word reads back as the value modulo 2^16, low byte first, and no other byte changes |
| Save.PutU16Elsewhere | source/save.c:175-182 | storing a word leaves every non-overlapping word as it was |
| Save.ChecksumStep | source/save.c:195-207 | one turn keeps both accumulators a byte, except a final carry into low on an odd length |
| Save.ChecksumAcc | source/save.c:193-207 | the accumulators after n turns stay bytes (with the same odd-length exception) |
| Save.ZeroBlockChecksum | source/save.c:191-211 | an all-zero block has checksum (0, 0) |
| Save.ChecksumSeesFirstByte | source/save.c:191-211 | for any slot-sized region, another value in byte 0 changes the high checksum byte, since byte 0 enters only the even-byte sum modulo 256 |
| Save.ComplementIsBitFlip | source/save.c:215-216 | the stored complement `b ^ 0xFF` of a byte is 0xFF - b |
| Save.ItemsLowRoundTrip | source/save.c:289-336 | the equipment bits of the item word's low byte survive equip_to_snes then snes_to_equip |
| Save.ItemsHighRoundTrip | source/save.c:289-336 | the equipment bits of the item word's high byte survive the round trip |
| Save.BeamsRoundTrip | source/save.c:289-336 | the beam bits survive the round trip |
| Save.EquipRoundTrip | source/save.c:289-336 | snes_to_equip(equip_to_snes(e)) keeps all sixteen equipment bits and drops bits 16-31 |
| Save.BossBytes | source/save.c:350-369 | boss_flags_to_snes fills exactly the fourteen per-area bytes |
| Save.EarlyBossesRoundTrip | source/save.c:350-386 | the Crateria and Brinstar boss flags survive the per-area bytes |
| Save.NorfairBossesRoundTrip | source/save.c:350-386 | the Norfair boss flags survive the per-area bytes |
| Save.LateBossesRoundTrip | source/save.c:350-386 | the Wrecked Ship, Maridia and Tourian boss flags survive the per-area bytes |
| Save.BossFlagsRoundTrip | source/save.c:350-386 | snes_to_boss_flags(boss_flags_to_snes(f)) keeps the ten boss flags and drops the other six bits |
| Save.Spliced | source/save.c:155-157 | a memcpy into the buffer: the copied bytes in their range, every other byte as it was |
| Save.WithControls | source/save.c:401-409 | the seven control words hold the SNES default mapping and nothing else changes |
| Save.WithEquipment | source/save.c:443-451 | the equipped and collected words both hold the item word and the beam word, and nothing else changes |
| Save.ItemWords | source/save.c:448-451 | the four item and beam words hold the given words, and nothing else changes |
| Save.WithStats | source/save.c:459-469 | the ten health and ammunition words hold the fields modulo 2^16, and nothing else changes |
| Save.WithTime | source/save.c:471-475 | the four play-time words hold the fields modulo 2^16, and nothing else changes |
| Save.WithPosition | source/save.c:482-485 | the game-state word is 5 and the station and area words hold the fields, and nothing else changes |
| Save.Encoded | source/save.c:440-489 | the slot buffer save_write builds has the slot size |
| Save.EncodedEquipment | source/save.c:443-451 | the built buffer's collected item and beam words are equip_to_snes of the equipment |
| Save.EncodedNumbers | source/save.c:459-485 | the built buffer's stats, time, station and area words hold the record's fields modulo 2^16 |
| Save.EncodedBosses | source/save.c:477-480 | the built buffer's fourteen boss bytes are boss_flags_to_snes of the flags |
| Save.DecodeEncoded | source/save.c:436-547 | decoding the buffer save_write builds gives back the record as the layout holds it (numbers modulo 2^16, sixteen equipment bits, ten boss flags) |
| Save.SlotBytes | source/save.c:233 | a slot's bytes are a slot-sized region |
| Save.WithRawChecksums | source/save.c:214-229 | the eight checksum bytes of the slot hold the given pair and complement twice, and no other byte changes |
| Save.WithChecksums | source/save.c:214-229 | write_checksums keeps the image well formed |
| Save.Stored | source/save.c:492-497 | copying a buffer into a slot with its checksum keeps the image well formed |
| Save.Written | source/save.c:436-505 | save_write's image is well formed |
| Save.Deleted | source/save.c:554-569 | save_delete's image (as written) is well formed |
| Save.Erased | source/save.c:554-569 | save_delete's image, as its comment intends, is well formed |
| Save.Sram.constructor | source/save.c:415-416 | the zeroed image and buffer save_init leaves when there is no save file |
| Save.Sram.BufPutU16 | source/save.c:175-178 | buf_put_u16 on the slot buffer |
| Save.Sram.BufGetU16 | source/save.c:180-182 | buf_get_u16 on the slot buffer |
| Save.Sram.SlotChecksum | source/save.c:191-211 | the loop computes ChecksumOf the slot buffer |
| Save.Sram.WriteChecksums | source/save.c:214-229 | the image gets the pair and its complement in both places |
| Save.Sram.CopyBufToImage | source/save.c:155-157 | sram_write_bytes of the slot buffer |
| Save.Sram.CopyImageToBuf | source/save.c:151-153 | sram_read_bytes of one slot into the buffer |
| Save.Sram.ValidateChecksum | source/save.c:232-263 | leaves the slot's bytes in the buffer and is true exactly when the primary or the redundant pair matches the computed checksum and its complement |
| Save.Sram.WriteDefaultControls | source/save.c:401-409 | the default control words |
| Save.Sram.PutStatsAndTime | source/save.c:459-475 | the stats and time words |
| Save.Sram.BuildSlot | source/save.c:440-489 | the slot buffer becomes Encoded of the record |
| Save.Sram.PutEquipment | source/save.c:443-451 | the item and beam words |
| Save.Sram.PutBosses | source/save.c:477-480 | the fourteen boss bytes |
| Save.Sram.PutPosition | source/save.c:482-485 | the game-state, station and area words |
| Save.Sram.Write | source/save.c:436-505 | save_write: false and no change for a bad slot; otherwise the image becomes Written |
| Save.Sram.StoreSlot | source/save.c:440-497 | build, copy and checksum give the image Written describes |
| Save.Sram.Read | source/save.c:507-547 | save_read: None for a bad slot or a failing checksum, else the decoded record; the image is unchanged |
| Save.Sram.SlotValid | source/save.c:549-552 | save_slot_valid: true exactly for a slot number in range whose checksum validates |
| Save.Sram.Delete | source/save.c:554-569 | save_delete as written: the slot zeroed and checksum (0, 0) stored with its complement |
| Save.Sram.DeleteCorrected | source/save.c:554-569 | save_delete as its comment intends: the slot zeroed and 0 stored for checksum and complement |
| Save.Sram.ZeroSlot | source/save.c:159-161 | sram_zero of one slot |
| Save.ChecksumsKeepSlot | source/save.c:214-229 | storing checksums changes no slot's bytes |
| Save.SpliceSlot | source/save.c:155-157 | copying a buffer over slot s puts it there and leaves every other slot alone |
| Save.ValidityFromOwnBytes | source/save.c:232-263 | whether a slot validates, and what it reads, depends on its own bytes and checksum bytes only |
| Save.StoreThenRead | source/save.c:492-497 | a stored buffer is what the slot holds and the slot then validates |
| Save.StoreKeepsOtherSlots | source/save.c:492-497 | storing one slot changes no other slot's bytes, validity or read |
| Save.WriteThenRead | source/save.c:436-547 | after save_write the slot holds Encoded(d), validates, and save_read gives the normalised record |
| Save.WriteKeepsOtherSlots | source/save.c:436-505 | save_write to one slot changes no other slot's bytes, validity or read |
| Save.StoredPairDecides | source/save.c:232-263 | a pair stored in both places validates exactly when it is the slot's checksum |
| Save.ZeroSlotChecksum | source/save.c:191-211 | a zeroed slot region has checksum (0, 0) |
| Save.DeletedSlotStillValid | source/save.c:554-569 | as written, a deleted slot still validates and still reads as a record |
| Save.ErasedSlotInvalid | source/save.c:554-569 | deleting as intended leaves a slot that fails validation and reads as absent |
| Save.DeleteKeepsOtherSlots | source/save.c:554-569 | deleting a slot either way leaves every other slot's read unchanged |
| SmTypes.FracBits | include/sm_types.h:26 | the fraction of an fx32 is in [0, FX_ONE) |
| SmTypes.IntToFx | include/sm_types.h:28 | INT_TO_FX of a 16-bit integer has that integer part and no fraction |
| SmTypes.FxToInt | include/sm_types.h:29 | FX_TO_INT is the floor: r * FX_ONE <= f < (r + 1) * FX_ONE, and an int32 gives an int16 |
| SmTypes.FxToIntRound | include/sm_types.h:30 | FX_TO_INT_ROUND is within half a unit of f, halves rounding up |
| SmTypes.FxMul | include/sm_types.h:34-36 | fx_mul is the floor of a * b / FX_ONE |
| SmTypes.FxDiv | include/sm_types.h:39-41 | fx_div truncates toward zero: the remainder of a * FX_ONE by b is smaller than b in magnitude |
| SmTypes.RoundTripIntFx | include/sm_types.h:28-29 | FX_TO_INT(INT_TO_FX(i)) == i |
| SmTypes.RoundIsShiftedTruncation | include/sm_types.h:29-30 | rounding is truncation after adding FX_HALF |
| SmTypes.MulByOne | include/sm_types.h:34-36 | FX_ONE is the identity of fx_mul |
| SmTypes.MulCommutes | include/sm_types.h:34-36 | fx_mul is commutative |
| SmTypes.DivByOne | include/sm_types.h:39-41 | dividing by FX_ONE gives the value back |
| SmTypes.BoxesOverlapSymmetric | source/projectile.c:94-101 | the box test does not depend on the order of its operands |
| SmTypes.PixelToTile | include/sm_types.h:120-121 | `px >> TILE_SHIFT` is the tile holding the pixel: t * 16 <= px < t * 16 + 16 |
| SmTypes.TileSizeIsPowerOfShift | include/sm_types.h:120-121 | TILE_SIZE is 2^TILE_SHIFT |
| SmTypes.EquipFlagsAreBits0To15 | include/sm_types.h:175-190 | the sixteen equipment flags are the distinct single bits 0-15 |
| SmTypes.EquipFlagsCoverLowWord | include/sm_types.h:175-190 | together the flags cover exactly bits 0-15 |
| State.Initialised | source/state.c:40-55 | state_init: every state gets its stubs, the title state is current and no transition is pending |
| State.StateManager.constructor | source/state.c:12-18 | the zero-initialised statics: null handlers, state 0, nothing pending |
| State.StateManager.Init | source/state.c:40-55 | state_init on the statics |
| State.StateManager.Set | source/state.c:57-62 | state_set on the statics |
| State.StateManager.Update | source/state.c:64-83 | state_update: the new statics and the hooks called, in order |
| State.StateManager.RenderCall | source/state.c:85-89 | state_render calls the current state's render hook, if any |
| State.StateManager.Current | source/state.c:91-93 | state_current returns the current state, a valid id |
| State.StateManager.SetHandlers | source/state.c:95-99 | state_set_handlers on the statics |
| State.SetChecksRange | source/state.c:57-62 | an out-of-range request is ignored; a valid one is recorded as pending without touching the current state or the table |
| State.LastSetWins | source/state.c:57-62 | of two requests before an update, the last valid one wins |
| State.UpdateSwitchesOnce | source/state.c:64-83 | with a request pending, one update calls the old state's exit, the new one's enter and then its update, and clears the request; without one it only calls update |
| State.SecondUpdateOnlyDispatches | source/state.c:64-83 | a second update with no request in between makes no transition |
| State.ReEnteringCurrent | source/state.c:57-83 | requesting the current state again exits and re-enters it |
| State.SetHandlersOnlyThatEntry | source/state.c:95-99 | registering handlers changes exactly the named, valid entry |
| State.StartupEntersTitle | source/state.c:40-83 | state_init, state_set(TITLE) and one update call the stub exit, the title's stub enter and the stub update |
| ScaffoldDeath.PlayerEnergy.constructor | src/game/state_death.c:39-46 | the three uint16_t energy fields the death screen reads and writes |
| ScaffoldDeath.Death.constructor | src/game/state_death.c:14 | the counter starts at 0 |
| ScaffoldDeath.Death.Enter | src/game/state_death.c:20-26 | state_death_enter resets the counter |
| ScaffoldDeath.Death.Exit | src/game/state_death.c:76-80 | state_death_exit resets the counter |
| ScaffoldDeath.Death.Update | src/game/state_death.c:31-60 | the counter goes up by one modulo 2^16; after the animation a reserve moves min(reserve, maximum) into health; with no reserve a successful quick load sets health, maximum and reserve from the current slot's record; otherwise energy is untouched; the request is Requests of the counter, the reserve and whether the last save loads |
| ScaffoldDeath.ApplySave | src/game/save.c:188-202 | save_data_to_game_state sets health, maximum health and reserve from the record's energy, max_energy and reserve_energy fields |
| ScaffoldDeath.RevivalMovesReserve | src/game/state_death.c:39-46 | a revival moves energy from the reserve to health without creating or losing any, giving min(reserve, maximum) |
| ScaffoldDeath.ZeroMaximumRevivesEmpty | src/game/state_death.c:41-49 | with maximum health 0 a reserve "revives" the player with 0 health and keeps all its energy |
| ScaffoldDeath.AnimationThenOneTransition | src/game/state_death.c:37-59 | no request before 180 frames, exactly one after |
| ScaffoldDeath.ReloadOrTitle | src/game/state_death.c:50-57 | with no reserve the player returns to gameplay exactly when the last save loads, else goes to the title |
| ScaffoldDeath.CounterReachesDuration | src/game/state_death.c:20-37 | counting from entry, the animation is over exactly from the 180th update on |
| ScaffoldDeath.Counted | src/game/state_death.c:14-32 | the counter after n updates stays a uint16_t |
| ScaffoldEnding.Ending.constructor | src/game/state_ending.c:13-14 | both counters start at 0 |
| ScaffoldEnding.Ending.Enter | src/game/state_ending.c:19-31 | state_ending_enter resets both counters |
| ScaffoldEnding.Ending.Exit | src/game/state_ending.c:74-80 | state_ending_exit resets both counters |
| ScaffoldEnding.Ending.Update | src/game/state_ending.c:36-56 | state_ending_update: one Frame, skipping on START or A pressed, then the title request once the scroll is past 2000 |
| ScaffoldEnding.Ending.Step | src/game/state_ending.c:37-55 | the body of the update for a given skip flag |
| ScaffoldEnding.FrameKeepsRanges | src/game/state_ending.c:13-48 | a frame keeps the timer a uint32_t and the scroll a uint16_t |
| ScaffoldEnding.ScrollNeverDecreases | src/game/state_ending.c:39-49 | while the credits run the scroll never goes back: +0 or +1 a frame, +100 more on a skip |
| ScaffoldEnding.RunAdvancesHalf | src/game/state_ending.c:37-42 | from an even timer, n frames without a skip advance the scroll by n / 2 |
| ScaffoldEnding.CreditsLastWithoutSkipping | src/game/state_ending.c:19-55 | without skipping, the title is first requested on frame 4002 after entry |
| ScaffoldFileSelect.FileSelect.constructor | src/game/state_file_select.c:12-13 | the cursor on slot 0 and no metadata |
| ScaffoldFileSelect.FileSelect.Enter | src/game/state_file_select.c:18-28 | state_file_select_enter: the cursor goes to slot 0 and each slot's metadata is what save_get_metadata reports for it |
| ScaffoldFileSelect.FileSelect.Select | src/game/state_file_select.c:43-59 | A: the slot becomes current; an existing save is loaded and gameplay starts only if the load succeeds; an empty slot gets a fresh save written (when the directory is ready), and gameplay always starts |
| ScaffoldFileSelect.FileSelect.Update | src/game/state_file_select.c:33-67 | state_file_select_update: the cursor moves as SlotAfter says, saves change only on A, and the transitions are those of Requests |
| ScaffoldFileSelect.FileSelect.Navigate | src/game/state_file_select.c:35-40 | UP and DOWN move the cursor as SlotAfter says |
| ScaffoldFileSelect.FileSelect.Choose | src/game/state_file_select.c:43-64 | A and B give the Requests transitions, in that order |
| ScaffoldFileSelect.SlotStaysInRange | src/game/state_file_select.c:35-40 | the cursor never leaves slots 0-2 |
| ScaffoldFileSelect.SlotClampsAtEnds | src/game/state_file_select.c:35-40 | UP on the first slot and DOWN on the last stay put: the cursor clamps and does not wrap |
| ScaffoldFileSelect.ExistingSlotNeedsLoad | src/game/state_file_select.c:46-50 | on an existing save A reaches gameplay exactly when the load succeeds |
| ScaffoldFileSelect.NewGameAlwaysStarts | src/game/state_file_select.c:51-58 | on an empty slot A always reaches gameplay |
| ScaffoldFileSelect.BackGoesToTitle | src/game/state_file_select.c:62-64 | B asks for the title, after whatever A asked for |
| ScaffoldInput.RingSlot | src/input/input.c:135 | the ring slot `back` frames before the index is (index - back + 8) % 8, inside the ring |
| ScaffoldInput.WindowWidens | src/input/input.c:125-142 | a wider window sees everything a narrower one does |
| ScaffoldInput.StoredEntryInWindow | src/input/input.c:42-43 | after storing v, the one-frame window sees a button exactly when v meets its low byte |
| ScaffoldInput.LatestFrameInWindow | src/input/input.c:42-43 | after a frame is stored, the one-frame window sees exactly that frame's held low byte |
| ScaffoldInput.LatestFrameAlwaysInWindow | src/input/input.c:42-43 | the same for every button at once |
| ScaffoldInput.EntryWitnessesWindow | src/input/input.c:134-138 | one meeting entry inside the window makes input_buffered true |
| ScaffoldInput.ZeroRingSeesNothing | src/input/input.c:148-151 | an all-zero ring sees no button in any window |
| ScaffoldInput.HighButtonsNeverBuffered | src/input/input.c:131 | buttons above the low byte (R, L, X, Y) are never seen by the ring |
| ScaffoldInput.InputSystem.constructor | src/input/input.c:18-22 | input_init: every mask and ring entry zero, index 0, no touch |
| ScaffoldInput.InputSystem.Update | src/input/input.c:28-48 | input_update: previous takes the old held mask; the masks are the frame's truncated to 16 bits; the held low byte is stored at the index, which advances modulo 8; and the one-frame window then sees exactly this frame |
| ScaffoldInput.InputSystem.Shutdown | src/input/input.c:53-55 | input_shutdown: everything back to zero |
| ScaffoldInput.InputSystem.CheckAny | src/input/input.c:84-95 | an unknown check type and an empty mask match nothing |
| ScaffoldInput.InputSystem.Check | src/input/input.c:64-75 | input_check of a button is input_check_any of it |
| ScaffoldInput.InputSystem.CheckAll | src/input/input.c:104-115 | an unknown type matches nothing, an empty mask always matches, and "all" of a non-empty mask implies "any" |
| ScaffoldInput.InputSystem.Buffered | src/input/input.c:125-142 | input_buffered is false for 0 or 8+ frames, and true exactly when some ring entry 1..frames_back before the index meets the button's low byte |
| ScaffoldInput.InputSystem.ClearBuffer | src/input/input.c:148-151 | input_clear_buffer zeroes the ring and the index and keeps the masks, so no window sees any button |
| ScaffoldInput.SingleButtonAllIsAny | src/input/input.c:84-115 | for a one-bit mask "all" and "any" agree |
| ScaffoldMap.MapScreen.constructor | src/game/state_map.c:12-14 | area 0 and the cursor at (0, 0) |
| ScaffoldMap.MapScreen.Enter | src/game/state_map.c:19-28 | state_map_enter: area 0 (Crateria) and the cursor at (0, 0) |
| ScaffoldMap.MapScreen.Update | src/game/state_map.c:33-64 | START or SELECT pops the state and changes nothing; otherwise the held directions move the cursor and L and R switch the area, as CursorAfter and AreaAfter say |
| ScaffoldMap.MapScreen.Move | src/game/state_map.c:41-53 | the four held directions move the cursor in int16_t arithmetic |
| ScaffoldMap.MapScreen.SwitchArea | src/game/state_map.c:55-61 | L and R move the area index, clamped to 0-5 |
| ScaffoldMap.CursorMovesByOne | src/game/state_map.c:41-53 | one held direction moves the cursor by exactly one away from the ends of the int16_t range |
| ScaffoldMap.CursorWrapsAtEnds | src/game/state_map.c:41-63 | the cursor has no bound: past either end of the int16_t range it wraps to the other |
| ScaffoldMap.OppositeDirectionsCancel | src/game/state_map.c:42-47 | UP and DOWN held together leave the cursor where it was, even across the wrap |
| ScaffoldMap.AreaStaysInRange | src/game/state_map.c:55-61 | the area stays among the six areas, moves by at most one, and clamps at both ends |
| ScaffoldPause.Pause.constructor | src/game/state_pause.c:18 | the equipment tab |
| ScaffoldPause.Pause.Enter | src/game/state_pause.c:23-29 | state_pause_enter: back to the equipment tab |
| ScaffoldPause.Pause.Update | src/game/state_pause.c:34-56 | START pops and leaves the tab alone; otherwise L and R move the tab and SELECT asks for the map |
| ScaffoldPause.Pause.Step | src/game/state_pause.c:41-52 | the tab and request after the START check |
| ScaffoldPause.TabStaysInRange | src/game/state_pause.c:42-47 | the tab stays a valid PauseTab |
| ScaffoldPause.ShouldersCycleTabs | src/game/state_pause.c:42-47 | one shoulder button flips between the two tabs, and both together cancel out |
| ScaffoldPause.StartPopsFirst | src/game/state_pause.c:36-52 | START pops whatever else is pressed; SELECT reaches the map by a set, never a push |
| ScaffoldSave.Zeros | src/game/save.c:106 | the memset record: SIZE (544) bytes, all zero |
| ScaffoldSave.PutU16 | include/save.h:15-60 | a 16-bit field store changes only its two bytes and keeps the record's length |
| ScaffoldSave.PutU32 | include/save.h:15-60 | a 32-bit field store changes only its four bytes and keeps the record's length |
| ScaffoldSave.U16RoundTrip | include/save.h:15-60 | a 16-bit field reads back, little-endian, the value stored into it |
| ScaffoldSave.U32RoundTrip | include/save.h:15-60 | a 32-bit field reads back, little-endian, the value stored into it |
| ScaffoldSave.ChecksumIgnoresField | src/game/save.c:66-67 | whatever the checksum field holds, the checksum over any prefix is the same (bytes 6 and 7 are skipped) |
| ScaffoldSave.ChecksumDetectsByteChange | src/game/save.c:59-73 | changing any single byte outside the checksum field changes the rotate-xor checksum |
| ScaffoldSave.CorruptedByteRejected | src/game/save.c:81-96 | a record that validates stops validating once any one byte outside the checksum field is changed |
| ScaffoldSave.WithChecksum | src/game/save.c:135 | storing the computed checksum keeps the record's length |
| ScaffoldSave.WithChecksumMatches | src/game/save.c:133-135 | after the store the checksum field equals the checksum of the record, and no other byte changed |
| ScaffoldSave.SaveSystem.Seal | src/game/save.c:230-233 | the caller's record becomes the sealed record: both magic numbers set and the checksum recomputed |
| ScaffoldSave.Sealed | src/game/save.c:230-233 | the record save_write stores keeps the record's length |
| ScaffoldSave.SealedValidIffVersion | src/game/save.c:81-96 | a record with both magics set and its checksum recomputed validates exactly when its version is at most SAVE_VERSION |
| ScaffoldSave.SealedValidUnchanged | src/game/save.c:230-233 | sealing a record that already validates changes none of its bytes |
| ScaffoldSave.Defaults | src/game/save.c:106-132 | the default record has the record's length |
| ScaffoldSave.Initialised | src/game/save.c:103-136 | the initialised record has the record's length |
| ScaffoldSave.InitFields | src/game/save.c:106-132 | the defaults hold both magics, version 1, 99 of 99 energy, position (128, 128), area and room 0, zero playtime and empty collection bitsets |
| ScaffoldSave.InitValidates | src/game/save.c:103-136 | a freshly initialised record validates, with 99 of 99 energy at (128, 128) in area 0, room 0, no playtime and nothing collected |
| ScaffoldSave.StoreU16 | include/save.h:15-60 | writing a 16-bit field into the record array is the PutU16 store |
| ScaffoldSave.StoreU32 | include/save.h:15-60 | writing a 32-bit field into the record array is the PutU32 store |
| ScaffoldSave.CalculateChecksum | src/game/save.c:59-73 | 0 for NULL, otherwise the rotate-xor checksum of every byte outside the checksum field |
| ScaffoldSave.Validate | src/game/save.c:81-96 | true exactly when the record is non-NULL, both magics match, the version is supported and the checksum matches |
| ScaffoldSave.InitData | src/game/save.c:103-136 | on a non-NULL record the bytes become the initialised record; NULL is left alone |
| ScaffoldSave.SetBit | src/game/save.c:388 | setting one bit of a bitset keeps the record's length |
| ScaffoldSave.SetBitEffect | src/game/save.c:388 | after OR-ing in `1 << bit` that bit is set, the other bits of the byte are as before, and every other byte is unchanged |
| ScaffoldSave.WithItem | src/game/save.c:383-390 | marking an item keeps the record's length |
| ScaffoldSave.WithBoss | src/game/save.c:398-405 | marking a boss keeps the record's length |
| ScaffoldSave.WithDoorAsWritten | src/game/save.c:413-420 | marking a door, with the byte index truncated to uint8_t, keeps the record's length |
| ScaffoldSave.WithDoor | src/game/save.c:413-420 | marking a door with an untruncated byte index keeps the record's length |
| ScaffoldSave.WithMapTile | src/game/save.c:428-435 | marking a map tile keeps the record's length |
| ScaffoldSave.MarkItemCollected | src/game/save.c:383-390 | on a non-NULL record the bytes become those of the record with the item marked |
| ScaffoldSave.MarkBossDefeated | src/game/save.c:398-405 | on a non-NULL record the bytes become those of the record with the boss marked |
| ScaffoldSave.MarkDoorOpened | src/game/save.c:413-420 | on a non-NULL record the bytes become those of the record with the door marked through the truncated byte index |
| ScaffoldSave.MarkDoorOpenedCorrected | src/game/save.c:413-420 | the same with a 16-bit byte index, so that ids of 512 and more change nothing |
| ScaffoldSave.MarkMapRevealed | src/game/save.c:428-435 | on a non-NULL record the bytes become those of the record with the map tile marked |
| ScaffoldSave.MarkItemThenCollected | src/game/save.c:383-390 | after marking, save_is_item_collected reports the item; every other item reads as before and only the item's own byte changed |
| ScaffoldSave.MarkBossThenDefeated | src/game/save.c:398-405 | an id below 64 then reads as defeated; an id of 64 or more changes nothing and never reads as defeated; other bosses read as before |
| ScaffoldSave.MarkDoorThenOpened | src/game/save.c:413-420 | with the corrected index, an id below 512 then reads as opened, an id of 512 or more changes nothing and never reads as opened, and other doors read as before |
| ScaffoldSave.MarkMapThenRevealed | src/game/save.c:428-435 | an id below 2048 then reads as revealed; an id of 2048 or more changes nothing and never reads as revealed; other tiles read as before |
| ScaffoldSave.DoorIdsAlias | src/game/save.c:413-420 | as written, door id d + 2048 marks and reads exactly the bit of door d |
| ScaffoldSave.DoorAliasOpensDoorZero | src/game/save.c:413-420 | as written, marking door 2048 opens door 0 on every record, which the corrected index never does |
| ScaffoldSave.DoorAsWrittenAgreesBelow2048 | src/game/save.c:474-480 | below id 2048 the as-written and the corrected door bitsets mark and read alike |
| ScaffoldSave.UpdatePlaytime | src/game/save.c:502-505 | the 32-bit frame counter goes up by one, wrapping at 2^32, and every other byte is unchanged |
| ScaffoldSave.ClockRecombines | src/game/save.c:517-520 | hours * 3600 + minutes * 60 + seconds is the whole seconds of the frame count, with minutes and seconds below 60 |
| ScaffoldSave.Decimal | src/game/save.c:522 | `%u` prints at least one digit |
| ScaffoldSave.Pad2 | src/game/save.c:522 | `%02u` prints at least two characters |
| ScaffoldSave.DecimalRoundTrip | src/game/save.c:522 | the printed digits are all decimal digits and read back as the number |
| ScaffoldSave.DecimalTwoDigits | src/game/save.c:522 | a number below 100 prints in at most two digits |
| ScaffoldSave.PlaytimeTextShape | src/game/save.c:517-522 | below 100 hours the text is 8 characters, HH:MM:SS, with ':' at positions 2 and 5 |
| ScaffoldSave.Printed | src/game/save.c:522 | snprintf's result keeps the buffer's length |
| ScaffoldSave.PrintedTerminated | src/game/save.c:522 | the text is NUL-terminated inside the buffer size, its first characters are the text's, and it is whole exactly when shorter than the size |
| ScaffoldSave.GetPlaytimeString | src/game/save.c:514-523 | with a NULL record or buffer or a size below 9 the buffer is untouched; otherwise it holds the HH:MM:SS text printed into `buffer_size` bytes |
| ScaffoldSave.Print | src/game/save.c:522 | copying a text into the buffer is snprintf's result |
| ScaffoldSave.Ones | src/game/save.c:539-542 | a byte has at most 8 set bits |
| ScaffoldSave.ItemsCount | src/game/save.c:535-543 | items_collected holds at most 256 set bits |
| ScaffoldSave.MarkItemCounts | src/game/save.c:535-543 | marking an item adds one to the count exactly when it was not collected before |
| ScaffoldSave.CalculateItemPercentage | src/game/save.c:531-549 | 0 for NULL, otherwise ItemPercentage of the record: the set bits of items_collected, times 100 over 100 items, truncated to uint8_t |
| ScaffoldSave.PercentageOfCount | src/game/save.c:531-549 | for every record the percentage is the collected-item count modulo 256: the count itself up to 100 items, and 0 when all 256 item bits are set |
| ScaffoldSave.MetadataOf | src/game/save.c:574-579 | metadata read from a file always says the file exists |
| ScaffoldSave.SaveSystem.constructor | src/game/save.c:19-23 | the system starts down, on slot 0, with the files the card already holds |
| ScaffoldSave.SaveSystem.Init | src/game/save.c:29-43 | the directory flag becomes whether the FAT came up; the slot resets to 0 only then; no file changes |
| ScaffoldSave.SaveSystem.Shutdown | src/game/save.c:48-50 | the system goes down; the files and the slot are kept |
| ScaffoldSave.SaveSystem.Write | src/game/save.c:225-248 | succeeds exactly when the system is up, the slot is below 3 and the record is non-NULL; then the record is sealed and becomes the slot's file; otherwise nothing changes |
| ScaffoldSave.SaveSystem.Read | src/game/save.c:257-278 | the slot's file is copied into the record when there is one to read; true exactly when that file also validates; otherwise the record is untouched |
| ScaffoldSave.SaveSystem.Delete | src/game/save.c:286-294 | true exactly when the system is up, the slot is in range and its file existed; then that file and no other is gone |
| ScaffoldSave.SaveSystem.Exists | src/game/save.c:319-331 | true exactly when the system is up, the slot is in range and a file is there |
| ScaffoldSave.SaveSystem.Copy | src/game/save.c:303-311 | an out-of-range slot or copying a slot onto itself fails; otherwise it succeeds exactly when the source file validates, and then the destination holds it |
| ScaffoldSave.SaveSystem.QuickLoad | src/game/save.c:350-355 | succeeds exactly when the current slot's file validates, and returns that file |
| ScaffoldSave.SaveSystem.SetCurrentSlot | src/game/save.c:362-366 | the current slot becomes the given slot when it is below 3, otherwise it stays |
| ScaffoldSave.SaveSystem.GetMetadata | src/game/save.c:558-582 | an absent file gives the empty metadata and success; an invalid file, the empty metadata and failure; a valid file, its energy, area, playtime and percentage |
| ScaffoldSave.IsItemCollected | src/game/save.c:444-450 | an item reads as collected exactly when marking it again would change nothing |
| ScaffoldSave.IsBossDefeated | src/game/save.c:459-465 | a boss reads as defeated exactly when its id is below 64 and marking it again would change nothing |
| ScaffoldSave.IsDoorOpened | src/game/save.c:474-480 | with the 16-bit byte index, a door reads as opened exactly when its id is below 512 and marking it again would change nothing |
| ScaffoldSave.IsMapRevealed | src/game/save.c:489-495 | a map tile reads as revealed exactly when its id is below 2048 and marking it again would change nothing |
| ScaffoldStateManager.StateManager.constructor | src/game/state_manager.c:11-21 | before initialisation, an empty all-boot stack, boot current and previous, and no hooks registered |
| ScaffoldStateManager.StateManager.Init | src/game/state_manager.c:75-147 | the stack is zeroed and empty, every hook is registered, and boot is current and previous |
| ScaffoldStateManager.StateManager.Set | src/game/state_manager.c:198-221 | the new statics and the hooks called are those of the set transition (see SetTransition) |
| ScaffoldStateManager.StateManager.Push | src/game/state_manager.c:229-239 | the new statics and the hooks called are those of the guarded push (see PushGuards) |
| ScaffoldStateManager.StateManager.Pop | src/game/state_manager.c:245-254 | the new statics and the hooks called are those of the guarded pop (see PopEmptyIgnored, PushThenPopRestores) |
| ScaffoldStateManager.StateManager.Shutdown | src/game/state_manager.c:178-190 | the current state's exit hook runs; boot becomes current and previous and the stack height zero |
| ScaffoldStateManager.StateManager.Update | src/game/state_manager.c:153-160 | the current update hook runs; for boot it also switches to the title screen |
| ScaffoldStateManager.StateManager.Render | src/game/state_manager.c:166-173 | the current render hook runs, when hooks are registered; nothing changes |
| ScaffoldStateManager.StateManager.Apply | src/game/state_manager.c:198-254 | a screen's set, push or pop request is carried out as that operation |
| ScaffoldStateManager.StateManager.GetCurrent | src/game/state_manager.c:261-263 | the current state, always a valid id |
| ScaffoldStateManager.StateManager.GetPrevious | src/game/state_manager.c:270-272 | the previous state, always a valid id |
| ScaffoldStateManager.StateManager.IsGameplay | src/game/state_manager.c:279-281 | true exactly when gameplay is current |
| ScaffoldStateManager.StateManager.IsPaused | src/game/state_manager.c:288-290 | true exactly when the pause or the map screen is current |
| ScaffoldStateManager.SetTransition | src/game/state_manager.c:198-221 | an invalid id or the current state changes nothing and calls nothing; otherwise current becomes previous, the new state current, the stack is kept, and exit is called before enter |
| ScaffoldStateManager.SetIdempotent | src/game/state_manager.c:199-200 | asking for the same state a second time changes nothing and calls nothing |
| ScaffoldStateManager.StackOperationsKeepManagerOk | src/game/state_manager.c:198-254 | set, push and pop keep every state id valid and the stack height within 0-4 |
| ScaffoldStateManager.OtherOperationsKeepManagerOk | src/game/state_manager.c:75-190 | init, shutdown, update and any screen request keep the statics well formed |
| ScaffoldStateManager.PushGuards | src/game/state_manager.c:229-239 | an invalid id or a full stack refuses the push outright; otherwise the old current state is saved at the top and the new state becomes current |
| ScaffoldStateManager.PopEmptyIgnored | src/game/state_manager.c:246 | a pop on an empty stack changes nothing and calls nothing |
| ScaffoldStateManager.PushThenPopRestores | src/game/state_manager.c:229-254 | a push of another state followed by a pop restores the current state and the stack height, leaves the pushed state as previous, and exits and enters in both directions |
| ScaffoldStateManager.PushSameStateGrowsStack | src/game/state_manager.c:198-239 | pushing the current state still takes a stack slot although no hook runs, and the pop after it is equally silent |
| ScaffoldStateManager.FullStackRefusesPush | src/game/state_manager.c:231 | with four saved states a further push changes nothing |
| ScaffoldStateManager.PauseMapPopReturnsToGameplay | src/game/state_manager.c:229-254 | pause pushed over gameplay, then a plain set to the map, then a pop returns to gameplay at the original stack height |
| ScaffoldStateManager.ShutdownEmptiesStack | src/game/state_manager.c:178-190 | after shutdown boot is current and previous, the stack is empty, and a pop does nothing |
| ScaffoldStateManager.BootUpdateGoesToTitle | src/game/state_manager.c:144-160 | the first update after init runs boot's update, exits boot and enters the title screen |
| ScaffoldStateManager.UnregisteredCallsNothing | src/game/state_manager.c:20-21 | before init every hook pointer is NULL, so no operation calls a hook |
| ToolsRomAddresses.SnesToRom | tools/rom_addresses.py:16-18 | for a window address the offset lies in the 32 KB block of the bank without bit 7, at the address's place in the window; an address below $8000 lands before that block |
| ToolsRomAddresses.SnesLongToRom | tools/rom_addresses.py:20-24 | with bit 15 set, the offset's bank block is bits 16-22 of the long address and its place in the block is bits 0-14 |
| ToolsRomAddresses.DocumentedExamples | tools/rom_addresses.py:10-67 | bank $80 maps to offset 0 and bank $81 to $8000; the room headers, palette data and level data regions land at $0791F8, $210000 and $218000-$277FFF |
| ToolsRomAddresses.BankBitSevenIgnored | tools/rom_addresses.py:16-18 | the FastROM mirror bit of the bank is masked off: banks b and b + $80 give the same offset |
| ToolsRomAddresses.InsideBankWindow | tools/rom_addresses.py:10-18 | an address in $8000-$FFFF lands inside its bank's 32 KB of the file, below 4 MB |
| ToolsRomAddresses.WindowAddressesDistinct | tools/rom_addresses.py:16-18 | two window addresses give the same offset exactly when they name the same bank (bit 7 aside) and the same address |
| ToolsRomAddresses.OffsetRoundTrip | tools/rom_addresses.py:16-18 | every offset below 4 MB is the image of a bank $80-$FF window address computed back from it |
| ToolsRomAddresses.AddressRoundTrip | tools/rom_addresses.py:16-18 | converting a bank $80-$FF window address to an offset and back gives the same bank and address |
| ToolsRomAddresses.LongAddressSplits | tools/rom_addresses.py:20-24 | a 24-bit long address converts as its bank (bits 16-23) and its 16-bit address |
| ToolsPalette.InvalidColors | tools/palette_converter.py:42-46 | at most one count per colour |
| ToolsPalette.CountInvalidColors | tools/palette_converter.py:39-46 | the counting loop counts the colours whose bit 15 is set |
| ToolsPalette.ConvertPalette | tools/palette_converter.py:19-56 | the size warning, the ValueError on an odd length, the bit-15 warning and the byte-for-byte copy, as Convert defines them |
| ToolsPalette.ReservedIsHighBit | tools/palette_converter.py:44-45 | bit 15 of the little-endian colour word is bit 7 of its second byte |
| ToolsPalette.OddLengthRaises | tools/palette_converter.py:36-54 | the tool raises exactly on an odd length, and otherwise writes its input unchanged |
| ToolsPalette.SizeOnlyWarns | tools/palette_converter.py:32-34 | the expected size never changes what is written; a mismatch warning comes first exactly when the sizes differ |
| ToolsPalette.ReservedWarning | tools/palette_converter.py:42-50 | the bit-15 warning is printed exactly when some colour has bit 15 set, and reports that count out of the colour count |
| ToolsPalette.NoneInvalid | tools/palette_converter.py:42-46 | the count is zero exactly when no colour has bit 15 set |
| ToolsPalette.AllInvalid | tools/palette_converter.py:42-46 | the count equals the number of colours exactly when every colour has bit 15 set |
| ToolsPalette.CountsAdd | tools/palette_converter.py:42-46 | the count over two palettes one after the other is the sum of their counts |
| ToolsTilemap.BgMap | tools/tilemap_converter.py:24-65 | a converted map has the length of its input |
| ToolsTilemap.SnesTilemapToDsBgmap | tools/tilemap_converter.py:24-65 | the loop over entries, writing into a zeroed buffer, returns the converted map, or ValueError on an odd length |
| ToolsTilemap.ConvertEntry | tools/tilemap_converter.py:44-59 | the field extraction, range check and packing of one entry build the DS entry for those two bytes |
| ToolsTilemap.StoreEntry | tools/tilemap_converter.py:61-63 | an entry is written low byte first at its offset, and the buffer's bytes before it are kept |
| ToolsTilemap.OddLengthRaises | tools/tilemap_converter.py:34-38 | the converter raises exactly on an odd length, and otherwise keeps the length |
| ToolsTilemap.TileNumberFits | tools/tilemap_converter.py:48-56 | a SNES tile number has 10 bits, so the truncation branch and its warning never happen |
| ToolsTilemap.EntryLayout | tools/tilemap_converter.py:48-59 | tile number in bits 0-9, H-flip in bit 10, V-flip in bit 11, palette in bits 12-14, and bit 15 clear |
| ToolsTilemap.EntryKeepsAllButPriority | tools/tilemap_converter.py:47-59 | decoding a DS entry gives back the SNES bytes with only the priority bit cleared |
| ToolsTilemap.PriorityIsDropped | tools/tilemap_converter.py:52-59 | two SNES entries convert alike exactly when they differ at most in the priority bit |
| ToolsTilemap.PriorityBitIgnored | tools/tilemap_converter.py:52 | clearing the priority bit does not change the converted entry |
| ToolsTilemap.EntryWrittenInPlace | tools/tilemap_converter.py:40-63 | output bytes 2i and 2i + 1, read little-endian, are the DS entry of input bytes 2i and 2i + 1 |
| ToolsLz.CommandStep | tools/lz_decompress.py:61-100 | every command that carries on has consumed at least one argument byte, so decoding moves forward |
| ToolsLz.StepAt | tools/lz_decompress.py:41-100 | one loop iteration that carries on always moves the position past its header byte |
| ToolsLz.Decompress | tools/lz_decompress.py:24-106 | the decoding loop returns what Decode defines: the output at 0xFF, an unknown command, the end of input or max_output, and IndexError when an argument is cut off |
| ToolsLz.RunCommand | tools/lz_decompress.py:61-100 | the command bodies, including the loops of the word fill, increasing fill and back reference, append the chunk CommandStep defines |
| ToolsLz.HeaderFields | tools/lz_decompress.py:49-59 | normal commands and lengths are 0-7 and 1-32, extended lengths 1-1024; headers 0xE0 and up are extended; the fields recompose the header byte |
| ToolsLz.EndMarkerStops | tools/lz_decompress.py:45-46 | a 0xFF header ends decoding with the output as it is |
| ToolsLz.UnknownCommandsStop | tools/lz_decompress.py:98-100 | commands 5 and 6, and 5-7 in the extended form, end decoding with the output as it is |
| ToolsLz.TruncatedArgumentsRaise | tools/lz_decompress.py:58-90 | a final header byte of a fill, back reference or extended command raises IndexError when its argument is read |
| ToolsLz.FillChunks | tools/lz_decompress.py:67-86 | the byte fill repeats its byte, the word fill alternates its two bytes starting with the first, and the increasing fill counts up modulo 256, each for exactly `length` bytes after the old output |
| ToolsLz.LiteralChunk | tools/lz_decompress.py:61-65 | a direct copy appends the next `length` input bytes, fewer only at the end of the input, and always advances by `length` |
| ToolsLz.BackRefPastEndIsZeros | tools/lz_decompress.py:92-96 | a back reference that starts at or past the end of the output appends only zeros |
| ToolsLz.BackRefInsideCopies | tools/lz_decompress.py:88-94 | a back reference that starts inside the output copies from a fixed distance back, reading the bytes it appends itself, so a short pattern repeats |
| ToolsLz.OutputOnlyGrows | tools/lz_decompress.py:36-106 | decoding only appends: the output produced so far stays a prefix of the result |
| ToolsLz.StepExtends | tools/lz_decompress.py:61-96 | one chunk keeps the output as a prefix and appends at most 1024 bytes |
| ToolsLz.OvershootAtMostOneChunk | tools/lz_decompress.py:102-104 | since max_output is checked after each chunk, the result exceeds max(start, max_output - 1) by at most one chunk of 1024 bytes |
| ToolsLz.SmallStreamDecodes | tools/lz_decompress.py:24-106 | a literal chunk, a byte fill, a back reference over both and 0xFF decode to [7, 8, 9, 5, 5, 8, 9] |
| ToolsRomExtract.PyIndex | tools/rom_extract.py:64-65 | a successful index yields a byte value 0-255 |
| ToolsRomExtract.LoadRom | tools/rom_extract.py:41-56 | the image load_rom returns, with or without the copier header stripped, and whether the size warning is printed, as Load defines them |
| ToolsRomExtract.ExtractPalettes | tools/rom_extract.py:78-107 | the blocks written, in order, are the kept 512-byte blocks of the 16 KB window from bank $C2:$8000 |
| ToolsRomExtract.ScanPalettes | tools/rom_extract.py:89-105 | the scan loop from any start writes exactly the kept blocks of its window, in order |
| ToolsRomExtract.IsPaletteBlock | tools/rom_extract.py:98 | a block is kept exactly when it is neither all 0x00 nor all 0xFF |
| ToolsRomExtract.ReadU8 | tools/rom_extract.py:64-65 | read_u8 gives the byte at a non-negative index, counts a negative one from the end, and raises IndexError outside those |
| ToolsRomExtract.ReadU16 | tools/rom_extract.py:67-68 | read_u16 succeeds exactly when both byte reads do; its low byte is the first and its high byte the second, below 65536 |
| ToolsRomExtract.ReadU24 | tools/rom_extract.py:70-71 | read_u24 succeeds exactly when read_u16 and the third byte read do; its low 16 bits are read_u16 and its top byte the third, below 2^24 |
| ToolsRomExtract.ReadRoomHeader | tools/rom_extract.py:180-207 | a header is kept exactly when width and height are 1-15 and the area at most 7; the kept record holds the offset, the six read_u8 fields and the read_u16 door pointer |
| ToolsRomExtract.ReadU8Range | tools/rom_extract.py:64-65 | read_u8 succeeds exactly on Python's valid indices, negative ones included, and reads the byte at a non-negative one |
| ToolsRomExtract.ReadU16LittleEndian | tools/rom_extract.py:67-68 | read_u16 is the low byte plus 256 times the next, below 65536, and raises IndexError once the second byte is past the end |
| ToolsRomExtract.ReadU24LittleEndian | tools/rom_extract.py:70-71 | read_u24 is read_u16 plus 65536 times the third byte, below 2^24, and raises IndexError once the third byte is past the end |
| ToolsRomExtract.U16RoundTrip | tools/rom_extract.py:67-68 | a 16-bit value written low byte first reads back as itself |
| ToolsRomExtract.U24RoundTrip | tools/rom_extract.py:70-71 | a 24-bit value written low byte first reads back as itself |
| ToolsRomExtract.HeaderStripRule | tools/rom_extract.py:46-54 | the first 512 bytes are dropped exactly when the length is 512 past a multiple of 32 KB, leaving whole banks; otherwise the file is kept; the warning says the result is not 3 MB |
| ToolsRomExtract.FullRomLoadsClean | tools/rom_extract.py:46-54 | a 3 MB image loads unchanged and without warning, and the same image behind a copier header loads as that image |
| ToolsRomExtract.RoomChecksAgree | tools/rom_extract.py:190-233 | the header loop's stop test and the forward scan's search test are complements of each other |
| ToolsRomExtract.RoomHeaderAccepted | tools/rom_extract.py:180-208 | a header is recorded exactly when width and height are 1-15 and the area at most 7, with its offset, sizes, area and little-endian door pointer |
| ToolsRomExtract.PaletteBlockRule | tools/rom_extract.py:97-98 | a block is kept exactly when some byte is not 0x00 and some byte is not 0xFF |
| ToolsRomExtract.KeptBlocksValid | tools/rom_extract.py:94-104 | every file the scan writes holds one 512-byte block that passes the check |
| ToolsRomExtract.KeptBlocksCount | tools/rom_extract.py:94-104 | from step k of the window at most 32 - k further blocks are written |
| ToolsRomExtract.AtMostThirtyTwoPalettes | tools/rom_extract.py:94-107 | extract_palettes writes, and counts, at most 32 palette files |
| ToolsTiles.Bit | tools/tile_converter.py:43-46 | `(b >> p) & 1` is 0 or 1 |
| ToolsTiles.Pixel | tools/tile_converter.py:41-48 | a converted pixel is a 4-bit colour index |
| ToolsTiles.Pixels | tools/tile_converter.py:39-48 | a tile has 64 pixels, each a 4-bit colour index |
| ToolsTiles.Pack | tools/tile_converter.py:50-54 | packing 64 pixels gives 32 bytes |
| ToolsTiles.Partial | tools/tile_converter.py:37-54 | the buffer part-way through the pixel loops is always 32 bytes |
| ToolsTiles.ConvertTile | tools/tile_converter.py:28-56 | ValueError unless the tile is 32 bytes; otherwise the packed pixels, with plane k of row y read from byte y + 8k |
| ToolsTiles.ConvertTileCorrected | tools/tile_converter.py:28-56 | the same conversion with plane k of row y read where the SNES 4bpp layout stores it |
| ToolsTiles.ConvertTileIn | tools/tile_converter.py:34-56 | the nested pixel loops over a zeroed 32-byte buffer produce the packed tile for the given layout |
| ToolsTiles.ConvertRow | tools/tile_converter.py:40-54 | one pass of the inner loop stores the eight pixels of row y and leaves the other bytes as the invariant says |
| ToolsTiles.ConvertPixel | tools/tile_converter.py:41-54 | the loop body computes pixel (x, y) and stores it into its nibble |
| ToolsTiles.PixelValue | tools/tile_converter.py:41-48 | the four plane bits, ORed together, are the pixel's colour index |
| ToolsTiles.StorePixel | tools/tile_converter.py:50-54 | an even pixel sets the low nibble of its byte and an odd one ORs in the high nibble |
| ToolsTiles.PartialStep | tools/tile_converter.py:50-54 | storing pixel n changes byte n / 2 and nothing else: the low nibble for even n, the whole byte for odd n |
| ToolsTiles.ConvertTiles | tools/tile_converter.py:66-75 | the chunk loop of convert_tiles_from_file: ValueError for a zero step, nothing for a negative one, otherwise the converted full chunks with a trailing partial one skipped |
| ToolsTiles.LayoutIsOneToOne | tools/tile_converter.py:31-46 | both the layout read and the SNES layout place the 32 (row, plane) pairs one-to-one onto the 32 bytes |
| ToolsTiles.PixelBits | tools/tile_converter.py:41-48 | bit k of a converted pixel is bit 7 - x of the plane-k byte of its row, and nothing is above bit 3 |
| ToolsTiles.NibblesReadBack | tools/tile_converter.py:50-56 | the output is 32 bytes, and byte j holds pixel 2j in its low nibble and pixel 2j + 1 in its high nibble |
| ToolsTiles.PackReadBack | tools/tile_converter.py:50-54 | both nibbles of a packed byte read back as the two pixels |
| ToolsTiles.PlaneRow | tools/tile_converter.py:43-46 | plane k of a pixel row is eight bits |
| ToolsTiles.Planes | tools/tile_converter.py:31 | the planar encoding of 64 pixels is 32 bytes |
| ToolsTiles.PlaneBitOfEncoding | tools/tile_converter.py:41-46 | bit k of pixel (x, y) of an encoding, read where the layout stores it, is bit k of that pixel |
| ToolsTiles.DecodeInvertsPlanes | tools/tile_converter.py:39-48 | with matching layouts, converting an encoded tile gives back every pixel |
| ToolsTiles.InterleavedRoundTrip | tools/tile_converter.py:31-56 | reading the SNES layout, converting the SNES encoding of any tile gives back its 64 pixels, packed in order |
| ToolsTiles.RowPlanesReadsPlaneOneAsRowOne | tools/tile_converter.py:43-44 | as written, the low bit of pixel 8 is read from the byte holding plane 1 of row 0 in an SNES tile |
| ToolsTiles.PlaneOnePixel | tools/tile_converter.py:31 | the witness tile: 64 pixels of colour index at most 15 |
| ToolsTiles.RowPlanesMisreadsSnesTiles | tools/tile_converter.py:43-46 | as written, a tile whose only coloured pixel is pixel 0 (colour 2) converts with pixel 8 coloured |
| ToolsTiles.ThirtyTwoNeverRaises | tools/tile_converter.py:66-75 | with 32-byte tiles the loop never raises, converts the full tiles and skips a trailing partial one |
| ToolsTiles.WholeTilesLength | tools/tile_converter.py:66-75 | the output is 32 bytes for each full 32-byte chunk of the input |
| ToolsTiles.WholeTileAt | tools/tile_converter.py:68-73 | output tile n is the conversion of input bytes 32n to 32n + 32 |
| ToolsTiles.ConvertChunk | tools/tile_converter.py:69-73 | a full 32-byte chunk converts to 32 bytes |
| ToolsTiles.TilesSkipPartial | tools/tile_converter.py:70-75 | a chunk start past the last full chunk contributes nothing |
| ToolsTiles.OtherTileSizes | tools/tile_converter.py:68-75 | any other positive tile size raises ValueError once a full chunk exists, and converts nothing otherwise |

## Left out

Hardware, I/O and presentation:
- Hardware plumbing (source/graphics.c, source/main.c, src/main.c, src/geminiPutStuffIn_main.c) is VRAM, OAM, register and VBlank setup with no game logic.
- Rendering is left out: every `*_render` function, `player_render`, `boss_render`, the sprite loaders and the DMA part of `room_upload_to_vram`. Only that function's BG-map offset arithmetic is modelled.
- source/audio.c (a logging stub) and source/hud.c (a text UI) are left out. Calls to them are not recorded, and neither is any `iprintf`/`fprintf` except one: the play-time line that `ending_enter` prints (source/gameplay.c:596-597) is recorded as the effect `ShowPlayTime(h, m, s)` of `Gameplay.GameFlow.EndingEnter`. Handlers that only print, such as `death_enter` and `death_exit` in source/gameplay.c, are not modelled.
- Hardware input (`scanKeys`, `keysDown`, `keysHeld`, `keysUp`, `touchRead`) is left out in both trees. Each frame's masks are parameters of `Update`. The scaffold's touch getters only read the touch fields back.
- FAT and SD-card I/O is left out:
  - in source/save.c: `save_init`, `sram_load_from_file` and `sram_flush_to_file`; the SRAM image is the state;
  - in src/game/save.c: the `fopen`/`fread`/`fwrite`/`remove`/`mkdir` paths and the `snprintf` of file names; the card is an abstract map from slot number to the bytes last written.
- The file reads and writes and `main` of every tool are left out, and so is tools/build_assets.py, which is subprocess orchestration. So are `find_rom`, `ensure_dir`, `decompress_from_file` and `convert_tilemap`. Warnings that a tool prints are kept as values only where this model records them.
- tools/rom_extract.py: only the ROM reads, the header-strip rule, the room-header check and the palette scan are modelled. `extract_rooms`' forward scan and its file writes are left out, and so are `extract_tilesets`, `extract_sprites` and `extract_audio`.
- `FLOAT_TO_FX` (include/sm_types.h:31) is build-time floating point.

Behaviour the source does not define:
- Boss types Kraid through Mother Brain have no dispatch entry. They are modelled as the source leaves them: spawned active with zeroed fields and never updated. The `phase` field is never used.
- There is no slope or water handling. `contact.on_hazard` is never set by source/physics.c, so the player's hazard response is modelled but never triggered by physics.
- The src/ title and gameplay screens (src/game/state_title.c, src/game/state_gameplay.c) are TODO stubs. Only the boot screen's hook is composed into the scaffold state manager.

Types and routines of source/ that no shown header defines, reconstructed from their use:
- `PhysicsBody`, `RoomData`, the source/ `SaveData`, the order of `PlayerStateID`, and the `BOSS_FLAG_*` bits. The bosses' flags are assumed to be distinct single bits.
- `room_set_collision`, called at source/projectile.c:129 and 313, is not defined in the source files modelled. `Projectile` takes it as a parameter that keeps rooms well formed. The `ExplosionBreaksBombBlocks` lemma uses the plain cell write `SetCell`.
- `room_check_door_collision`, `room_check_item_pickup`, `room_update_crumble_blocks`, `room_load`, `camera_shake` as seen from other modules, `projectile_spawn` as called from boss.c, and `state_set`/`game_state_set` as called from the screens are parameters or recorded requests. What they do is not composed into the caller's result.
- The end of a played frame (source/gameplay.c:392-398: `room_update_crumble_blocks`, `enemy_update_all`, `boss_update`, `projectile_update_all` and `camera_update`) is the single recorded effect `RunWorld` of `Gameplay.PlayTail`. The gameplay frame does not compose the Enemy, Boss, Projectile and Camera models into its result, so contact damage from enemies and the boss is not part of `Gameplay.GameplayStep`.
- `boss_is_active()` (source/gameplay.c:285 and 296) is the `bossActive` field of the frame's inputs. It is not tied to the Boss model's active flag.
- The player's `projectile_spawn` calls (source/gameplay.c:319-346) are recorded as `Fire` effects. They are not passed to the Projectile pool.
- A screen hook that switches state (for example the pause screen asking for the map) is recorded as a request. The hooks that the switch then runs are not composed.
- SaveData fields in source/save.c are read back as uint16, because their declared widths are not shown.

Arithmetic:
- Positions, velocities and hit points are mathematical integers. int32 wrap-around is not modelled. The conversions to narrower types that the code writes out (uint8, int16, uint16) are modelled.
- Samus's energy, reserve and ammunition (missiles, super missiles, power bombs and their maxima, uint16_t in the C) are mathematical integers too, so the tank pickups of `Gameplay.TankFilled` (source/gameplay.c) never wrap at 2^16.
- `FxAbs` requires its argument to differ from INT32_MIN, where the C negation is undefined.
- The spawn positions of doors and bosses are converted to fixed point without the int16 range check of `INT_TO_FX`.
- `sram_read_u8` and `sram_write_u8` (source/save.c:163-169) are modelled as direct accesses to the image array.
- ToolsLz.Decompress: the start offset is a `nat`. Python's negative indexing for a negative offset is not modelled.
- ToolsTiles.ConvertTiles: the "Partial tile" warning printed at tools/tile_converter.py:75 is not recorded. The skipped chunk contributes nothing to the output.
- ScaffoldSave.IsItemCollected, ScaffoldSave.IsBossDefeated, ScaffoldSave.IsDoorOpened and ScaffoldSave.IsMapRevealed take the record's bytes, so the `if (!data) return false;` NULL check of each `save_is_*` query is not modelled.
- ScaffoldSave.CalculateItemPercentage: the result is the number of collected item bits truncated to uint8, as the code computes it. The range 0-100 stated in the comment at src/game/save.c:529 is not proved, because it does not hold above 100 collected bits.

Scaffold operations around the game state:
- `save_data_from_game_state`, `save_quick_save` and `save_get_current_slot` copy between the save record and game globals this model does not hold. They are left out.
- ScaffoldDeath.ApplySave: `save_data_to_game_state` is modelled only for the three energy fields the death screen holds. The ammunition, reserve maximum, equipment and position it also copies (src/game/save.c:196-211) are g_player fields this model does not hold. After a quick load, the file-select screen keeps only the load's success.

## Findings

| source | as written | input that shows it | evidently intended | confidence | as-written member | corrected member |
|---|---|---|---|---|---|---|
| source/save.c:554-569 | `save_delete` zeroes the slot and calls `write_checksums(slot, 0, 0)`. That function computes the complements itself, so it stores checksum bytes 0, 0 with complements 0xFF, 0xFF. The checksum of an all-zero slot is 0, 0, so the deleted slot still validates. | any valid slot number, for example `save_delete(0)` followed by `save_slot_valid(0)`, which returns true | its comment says that 0 is stored for both the checksum and its complement, so that the deleted slot fails validation | not executed | `Save.DeletedSlotStillValid` (on `Save.Sram.Delete`) | `Save.ErasedSlotInvalid` (on `Save.Sram.DeleteCorrected`) |
| src/game/save.c:413-420 | `save_mark_door_opened` and `save_is_door_opened` (lines 474-480) keep `door_id / 8` in a `uint8_t`, so the index wraps at 256 before the `byte < 64` test | door id 2048: byte 256 becomes 0, so marking door 2048 sets the bit of door 0 | every id from 512 up is ignored, as for bosses and map tiles | not executed | `ScaffoldSave.DoorAliasOpensDoorZero` (on `ScaffoldSave.MarkDoorOpened`) | `ScaffoldSave.MarkDoorThenOpened` (on `ScaffoldSave.MarkDoorOpenedCorrected`) |
| tools/tile_converter.py:43-46 | bit plane k of row y is read from byte `y + 8k`. The SNES 4bpp format named at line 31 stores planes 0 and 1 of row y interleaved at bytes 2y and 2y+1, and planes 2 and 3 at bytes 16+2y and 17+2y. | the SNES encoding of a tile whose only set pixel is pixel 0 with colour 2: pixel 8 comes out coloured | each pixel's colour is read from the SNES layout | not executed | `ToolsTiles.RowPlanesMisreadsSnesTiles` (on `ToolsTiles.ConvertTile`) | `ToolsTiles.InterleavedRoundTrip` (on `ToolsTiles.ConvertTileCorrected`) |
| source/player.c:319-324 | `player_update` returns at once when `g_player.alive` is false. `player_damage` clears `alive` on a fatal hit and sets the death freeze `frame_timer` to 120 (source/player.c:406-410), so the countdown in `state_death` (source/player.c:209-211) never runs. `gameplay_update` waits for `frame_timer == 0` before it calls `state_set(STATE_DEATH)` (source/gameplay.c:238-242). | any fatal hit, for example `player_damage(99)` on a Samus with 99 energy and no invulnerability: every later `gameplay_update` leaves the freeze at 120 and never requests the death screen | the death state keeps running its handler, so that the 120-frame freeze counts down and the death screen follows | not executed | `Gameplay.DeathScreenNeverRequested` (on `Player.Stepped`) | `Player.CorrectedDeathCountdown` (on `Player.SteppedCorrected`) |

Two branches of the source cannot run. They are not bugs with an evident intended behaviour, so they are not in the table above:
- The shot-block branch of a projectile's tile test (source/projectile.c:311-319) is dead. `tile_is_solid` already counts COLL_SPECIAL_SHOT as solid, so the projectile is removed by the solid test at lines 306-310 first. `Projectile.TileTestNeverBreaksShotBlocks` proves that the tile test never changes the room. No other code clears a shot block, so shot blocks can never be broken.
- The spike and lava responses of `player_update` (source/player.c:333-349) are dead. The physics step never leaves `on_hazard` raised (`Player.PhysicsClearsHazard`). `Player.HazardInert` proves that step 4 does nothing but switch a lava environment back to air.
