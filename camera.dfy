/**
 * The camera (source/camera.c): a dead-zone follower clamped to the room's
 * scroll bounds, a screen-shake timer, and the scroll offsets it hands to the
 * three background layers.
 *
 * g_camera and the shake generator's seed are the fields of one object; the
 * player position and the room's scroll maxima it reads are parameters, and
 * the three layer scrolls it writes to the graphics module are its result.
 */
module Camera {
  import opened CInt
  import opened SmTypes
  import opened Room

  /** The half-extents of the dead zone around the screen centre. */
  const DEAD_ZONE_HALF_X: int := 32 * FX_ONE
  const DEAD_ZONE_HALF_Y: int := 24 * FX_ONE
  /** The screen centre's offset from the camera's top-left corner. */
  const CENTER_X: int := (SCREEN_WIDTH / 2) * FX_ONE
  const CENTER_Y: int := (SCREEN_HEIGHT / 2) * FX_ONE
  /** The generator's starting seed. */
  const SHAKE_SEED_INIT: bv32 := 7919

  /** The fields of g_camera. */
  datatype CameraData = CameraData(x: int, y: int, targetX: int, targetY: int, shakeFrames: int, shakeMag: int)

  const ZERO_CAMERA: CameraData := CameraData(0, 0, 0, 0, 0, 0)

  /** A background layer's scroll, in whole pixels. */
  datatype Offset = Offset(x: int, y: int)

  /** The scrolls camera_apply gives the level, parallax and foreground layers. */
  datatype Layers = Layers(level: Offset, parallax: Offset, fg: Offset)

  // ---------------------------------------------------------------------
  // camera_update
  // ---------------------------------------------------------------------

  /** One axis of the follow: the camera moves by exactly how far the target is outside the dead zone. */
  function Follow(cam: int, target: int, center: int, half: int): int
  {
    var d := target - (cam + center);
    if d > half then cam + (d - half)
    else if d < -half then cam + (d + half)
    else cam
  }

  /** The clamp: first to zero, then to the maximum. */
  function Clamp(v: int, maxV: int): int
  {
    var a := if v < 0 then 0 else v;
    if a > maxV then maxV else a
  }

  /** camera_update for a player at `pos` in a room whose scroll maxima are `maxX`, `maxY` pixels. */
  function Followed(c: CameraData, pos: Vec2, maxX: int, maxY: int): CameraData
  {
    c.(x := Clamp(Follow(c.x, pos.x, CENTER_X, DEAD_ZONE_HALF_X), maxX * FX_ONE),
       y := Clamp(Follow(c.y, pos.y, CENTER_Y, DEAD_ZONE_HALF_Y), maxY * FX_ONE),
       shakeFrames := if c.shakeFrames > 0 then c.shakeFrames - 1 else c.shakeFrames)
  }

  /** camera_shake. */
  function Shaken(c: CameraData, frames: int, magnitude: int): (r: CameraData)
    ensures r.shakeFrames == frames && r.shakeMag == magnitude
    ensures r.x == c.x && r.y == c.y && r.targetX == c.targetX && r.targetY == c.targetY
  {
    c.(shakeFrames := frames, shakeMag := magnitude)
  }

  /** `n` frames of camera_update with the player standing still. */
  function FollowedN(c: CameraData, pos: Vec2, maxX: int, maxY: int, n: nat): CameraData
  {
    if n == 0 then c else Followed(FollowedN(c, pos, maxX, maxY, n - 1), pos, maxX, maxY)
  }

  // ---------------------------------------------------------------------
  // shake_rand and camera_apply
  // ---------------------------------------------------------------------

  /** The xorshift step of shake_rand on the 32-bit seed. */
  function Xorshift(s: bv32): bv32
  {
    var a := s ^ (s << 13);
    var b := a ^ (a >> 17);
    b ^ (b << 5)
  }

  /** The value shake_rand returns after stepping the seed to `s`. */
  function RandOf(s: bv32): (r: int)
    ensures 0 <= r <= 0x7FFF
  {
    // The mask with 0x7FFF keeps the low 15 bits: the seed modulo 2^15.
    (s as int) % 0x8000
  }

  /** The shake offset drawn from a generator value: in -mag .. mag. */
  function Jitter(rand: int, mag: int): (r: int)
    requires 0 <= rand && mag > 0
    ensures -mag <= r <= mag
  {
    rand % (mag * 2 + 1) - mag
  }

  /** camera_apply: the layer scrolls and the seed afterwards. */
  function Applied(c: CameraData, seed: bv32): (Layers, bv32)
  {
    var sx := FxToInt(c.x);
    var sy := FxToInt(c.y);
    var shaking := c.shakeFrames > 0 && c.shakeMag > 0;
    var s1 := if shaking then Xorshift(seed) else seed;
    var s2 := if shaking then Xorshift(s1) else seed;
    var lx := if shaking then sx + Jitter(RandOf(s1), c.shakeMag) else sx;
    var ly := if shaking then sy + Jitter(RandOf(s2), c.shakeMag) else sy;
    (Layers(Offset(lx, ly), Offset(lx / 2, ly / 2), Offset(lx, ly)), s2)
  }

  // ---------------------------------------------------------------------
  // g_camera
  // ---------------------------------------------------------------------

  class CameraSystem {
    var x: int
    var y: int
    var targetX: int
    var targetY: int
    var shakeFrames: int
    var shakeMag: int
    var shakeSeed: bv32

    function Data(): CameraData
      reads this
    {
      CameraData(x, y, targetX, targetY, shakeFrames, shakeMag)
    }

    /** The zeroed static record and the seed's initialiser. */
    constructor ()
      ensures Data() == ZERO_CAMERA && shakeSeed == SHAKE_SEED_INIT
    {
      x, y, targetX, targetY, shakeFrames, shakeMag := 0, 0, 0, 0, 0, 0;
      shakeSeed := SHAKE_SEED_INIT;
    }

    /** camera_init: every field zero; the generator keeps running. */
    method Init()
      modifies this
      ensures Data() == ZERO_CAMERA && shakeSeed == old(shakeSeed)
    {
      x, y, targetX, targetY, shakeFrames, shakeMag := 0, 0, 0, 0, 0, 0;
    }

    method Update(pos: Vec2, scrollMaxX: int, scrollMaxY: int)
      modifies this
      ensures Data() == Followed(old(Data()), pos, scrollMaxX, scrollMaxY) && shakeSeed == old(shakeSeed)
    {
      var nx := FollowAxis(x, pos.x, CENTER_X, DEAD_ZONE_HALF_X, scrollMaxX);
      var ny := FollowAxis(y, pos.y, CENTER_Y, DEAD_ZONE_HALF_Y, scrollMaxY);
      x, y := nx, ny;
      if shakeFrames > 0 {
        shakeFrames := shakeFrames - 1;
      }
    }

    /** One axis of camera_update: the dead-zone follow, then the clamp to 0 .. scrollMax pixels. */
    static method FollowAxis(cam: int, target: int, center: int, half: int, scrollMax: int) returns (v: int)
      ensures v == Clamp(Follow(cam, target, center, half), scrollMax * FX_ONE)
    {
      var d := target - (cam + center);
      v := cam;
      if d > half {
        v := v + (d - half);
      } else if d < -half {
        v := v + (d + half);
      }
      if v < 0 { v := 0; }
      var maxV := scrollMax * FX_ONE;
      if v > maxV { v := maxV; }
    }

    method Shake(frames: int, magnitude: int)
      modifies this
      ensures Data() == Shaken(old(Data()), frames, magnitude) && shakeSeed == old(shakeSeed)
    {
      shakeFrames := frames;
      shakeMag := magnitude;
    }

    /** shake_rand. */
    method Rand() returns (r: int)
      modifies this
      ensures shakeSeed == Xorshift(old(shakeSeed)) && r == RandOf(shakeSeed)
      ensures Data() == old(Data())
    {
      shakeSeed := Xorshift(shakeSeed);
      r := (shakeSeed as int) % 0x8000;
    }

    method Apply() returns (layers: Layers)
      modifies this
      ensures (layers, shakeSeed) == Applied(old(Data()), old(shakeSeed))
      ensures Data() == old(Data())
    {
      var sx := FxToInt(x);
      var sy := FxToInt(y);
      if shakeFrames > 0 {
        var mag := shakeMag;
        if mag > 0 {
          var r1 := Rand();
          sx := sx + (r1 % (mag * 2 + 1) - mag);
          var r2 := Rand();
          sy := sy + (r2 % (mag * 2 + 1) - mag);
        }
      }
      layers := Layers(Offset(sx, sy), Offset(sx / 2, sy / 2), Offset(sx, sy));
    }
  }

  // ---------------------------------------------------------------------
  // Properties
  // ---------------------------------------------------------------------

  /** After an update the camera lies within the room's scroll bounds. */
  lemma FollowedInBounds(c: CameraData, pos: Vec2, maxX: int, maxY: int)
    requires maxX >= 0 && maxY >= 0
    ensures var r := Followed(c, pos, maxX, maxY);
      0 <= r.x <= maxX * FX_ONE && 0 <= r.y <= maxY * FX_ONE
  {
  }

  /** A player inside the dead zone does not move a camera that is already within bounds. */
  lemma DeadZoneHoldsStill(c: CameraData, pos: Vec2, maxX: int, maxY: int)
    requires Abs(pos.x - (c.x + CENTER_X)) <= DEAD_ZONE_HALF_X
    requires Abs(pos.y - (c.y + CENTER_Y)) <= DEAD_ZONE_HALF_Y
    requires 0 <= c.x <= maxX * FX_ONE && 0 <= c.y <= maxY * FX_ONE
    ensures var r := Followed(c, pos, maxX, maxY); r.x == c.x && r.y == c.y
  {
  }

  /**
   * Following puts the target back inside the dead zone, and a camera that
   * moved leaves the target exactly on the zone's edge, on the side it left by.
   */
  lemma FollowReachesDeadZone(cam: int, target: int, center: int, half: int)
    requires half >= 0
    ensures var n := Follow(cam, target, center, half);
      Abs(target - (n + center)) <= half &&
      (n > cam ==> target - (n + center) == half) &&
      (n < cam ==> target - (n + center) == -half)
  {
  }

  /** Without clamping the update keeps the player inside the dead zone on both axes. */
  lemma PlayerStaysInDeadZone(c: CameraData, pos: Vec2, maxX: int, maxY: int)
    requires var fx := Follow(c.x, pos.x, CENTER_X, DEAD_ZONE_HALF_X); 0 <= fx <= maxX * FX_ONE
    requires var fy := Follow(c.y, pos.y, CENTER_Y, DEAD_ZONE_HALF_Y); 0 <= fy <= maxY * FX_ONE
    ensures var r := Followed(c, pos, maxX, maxY);
      Abs(pos.x - (r.x + CENTER_X)) <= DEAD_ZONE_HALF_X && Abs(pos.y - (r.y + CENTER_Y)) <= DEAD_ZONE_HALF_Y
  {
    FollowReachesDeadZone(c.x, pos.x, CENTER_X, DEAD_ZONE_HALF_X);
    FollowReachesDeadZone(c.y, pos.y, CENTER_Y, DEAD_ZONE_HALF_Y);
  }

  /** A shake of `f` frames counts down one per update and then stays at zero; the magnitude is kept. */
  lemma {:induction false} ShakeCountsDown(c: CameraData, pos: Vec2, maxX: int, maxY: int, n: nat)
    requires c.shakeFrames >= 0
    ensures var r := FollowedN(c, pos, maxX, maxY, n);
      r.shakeFrames == (if n <= c.shakeFrames then c.shakeFrames - n else 0) && r.shakeMag == c.shakeMag
  {
    if n > 0 {
      ShakeCountsDown(c, pos, maxX, maxY, n - 1);
    }
  }

  /** camera_shake replaces any shake in progress: only the last call counts. */
  lemma LastShakeWins(c: CameraData, f1: int, m1: int, f2: int, m2: int)
    ensures Shaken(Shaken(c, f1, m1), f2, m2) == Shaken(c, f2, m2)
  {
  }

  /** The xorshift step never reaches the zero seed from a non-zero one, so the generator never sticks. */
  lemma XorshiftNonZero(s: bv32)
    requires s != 0
    ensures Xorshift(s) != 0
  {
    var a := s ^ (s << 13);
    assert a != 0;
    var b := a ^ (a >> 17);
    assert b != 0;
  }

  /**
   * The level scroll is the camera's whole-pixel position displaced by at most
   * the shake magnitude on each axis, and exactly that position when not shaking;
   * the foreground follows the level and the parallax layer moves at half its rate.
   */
  lemma LayerScrolls(c: CameraData, seed: bv32)
    ensures var (l, _) := Applied(c, seed);
      var m := if c.shakeFrames > 0 && c.shakeMag > 0 then c.shakeMag else 0;
      FxToInt(c.x) - m <= l.level.x <= FxToInt(c.x) + m &&
      FxToInt(c.y) - m <= l.level.y <= FxToInt(c.y) + m &&
      l.fg == l.level &&
      2 * l.parallax.x <= l.level.x <= 2 * l.parallax.x + 1 &&
      2 * l.parallax.y <= l.level.y <= 2 * l.parallax.y + 1
  {
  }

  /** Without a shake the generator is left alone; with one it advances by exactly two steps. */
  lemma ApplyDrawsTwice(c: CameraData, seed: bv32)
    ensures var (_, s) := Applied(c, seed);
      s == (if c.shakeFrames > 0 && c.shakeMag > 0 then Xorshift(Xorshift(seed)) else seed)
  {
  }
}
