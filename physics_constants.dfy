/**
 * The NTSC movement constants of include/sm_physics_constants.h, as 16.16
 * fixed-point values where the header gives them as fx32.
 */
module PhysicsConstants {

  const GRAVITY_AIR: int := 0x0000_125C
  const GRAVITY_WATER: int := 0x0000_053F
  const GRAVITY_LAVA: int := 0x0000_05E6

  const TERMINAL_VEL_AIR: int := 0x0005_0000
  const TERMINAL_VEL_WATER: int := 0x0005_0000
  const TERMINAL_VEL_LAVA: int := 0x0005_0000

  const JUMP_VEL_NORMAL: int := 0x0004_9000
  const JUMP_VEL_SPIN: int := 0x0004_8000
  const JUMP_VEL_HI_JUMP: int := 0x0005_8000
  const JUMP_VEL_WALLJUMP: int := 0x0004_8000
  const JUMP_VEL_SPRING_BALL: int := 0x0003_A000

  const WALK_SPEED: int := 0x0001_8000
  const RUN_SPEED: int := 0x0002_0000
  const SPEED_BOOST_CHARGE: int := 0x0003_0000
  const SPEED_BOOST_ACTIVE: int := 0x0004_0000
  const MOONWALK_SPEED: int := 0x0001_8000
  const MORPH_BALL_SPEED: int := 0x0002_0000

  const SHINESPARK_SPEED: int := 0x000E_0000
  const SHINESPARK_FIRST_FRAME: int := 0x0007_0000
  const SHINESPARK_CHARGE_TIME: int := 180
  const SHINESPARK_MIN_ENERGY: int := 29

  const SPEED_BOOST_THRESH_1: int := 25
  const SPEED_BOOST_THRESH_2: int := 50
  const SPEED_BOOST_THRESH_3: int := 70
  const SPEED_BOOST_THRESH_4: int := 85

  const BOMB_TIMER_FRAMES: int := 87
  const BOMB_JUMP_VEL: int := 0x0002_8000
  const IBJ_TIMING_FRAMES: int := 7

  const KNOCKBACK_VEL_X: int := 0x0002_0000
  const KNOCKBACK_VEL_Y: int := 0x0003_0000
  const KNOCKBACK_FRAMES: int := 24
  const INVULN_FRAMES: int := 60

  const WALLJUMP_DISTANCE: int := 0x0006_0000
  const WALLJUMP_WINDOW_FRAMES: int := 6

  const SAMUS_HALF_W: int := 0x0008_0000
  const SAMUS_HALF_H: int := 0x0014_0000
  const SAMUS_CROUCH_H: int := 0x000E_0000
  const SAMUS_MORPH_H: int := 0x0004_0000

  const PLAYER_START_HP: int := 99
  const PLAYER_START_MISSILES: int := 0
  const PLAYER_START_SUPERS: int := 0
  const PLAYER_START_PB: int := 0
  const PLAYER_MAX_HP: int := 1499
  const PLAYER_MAX_MISSILES: int := 230
  const PLAYER_MAX_SUPERS: int := 50
  const PLAYER_MAX_PB: int := 50
  const ENERGY_TANK_VALUE: int := 100
  const RESERVE_TANK_VALUE: int := 100
}
