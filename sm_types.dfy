/**
 * Shared types of the game simulation: 16.16 fixed point (`fx32`), tile and
 * collision codes, item identifiers, equipment bits, directions, game-state
 * identifiers and pool sizes (include/sm_types.h).
 *
 * An `fx32` is a mathematical integer kept inside the int32 range; each
 * operation states the range its C counterpart needs instead of wrapping.
 */
module SmTypes {
  import opened CInt

  // ---------------------------------------------------------------------
  // 16.16 fixed point
  // ---------------------------------------------------------------------

  type fx32 = v: int | -0x8000_0000 <= v <= 0x7FFF_FFFF

  const FX_SHIFT: nat := 16
  const FX_ONE: int := 0x1_0000
  const FX_HALF: int := 0x8000
  const FX_FRAC_MASK: int := 0xFFFF

  /** The low 16 bits of an fx32 (its fraction). */
  function FracBits(f: int): (r: int)
    ensures 0 <= r < FX_ONE
  {
    f % FX_ONE
  }

  /** INT_TO_FX: the fixed-point value with integer part i and zero fraction. */
  function IntToFx(i: int): (r: fx32)
    requires IsInt16(i)
    ensures r / FX_ONE == i && FracBits(r) == 0
  {
    i * FX_ONE
  }

  /** FX_TO_INT: arithmetic shift right by 16, i.e. division rounded toward minus infinity. */
  function FxToInt(f: int): (r: int)
    ensures r * FX_ONE <= f < r * FX_ONE + FX_ONE
    ensures IsInt32(f) ==> IsInt16(r)
  {
    f / FX_ONE
  }

  /** FX_TO_INT_ROUND: the nearest integer, halves rounded up. */
  function FxToIntRound(f: int): (r: int)
    ensures r * FX_ONE - FX_HALF <= f < r * FX_ONE + FX_HALF
  {
    FxToInt(f + FX_HALF)
  }

  /** The value range of fx_mul's 64-bit product shifted back, before the cast to fx32. */
  predicate MulFits(a: int, b: int) { IsInt32(a * b / FX_ONE) }

  /** fx_mul: the 64-bit product shifted right by 16 (rounded toward minus infinity). */
  function FxMul(a: fx32, b: fx32): (r: fx32)
    requires MulFits(a, b)
    ensures r * FX_ONE <= a * b < r * FX_ONE + FX_ONE
  {
    FxToInt(a * b)
  }

  /** The value range of fx_div's 64-bit quotient, before the cast to fx32. */
  predicate DivFits(a: int, b: int) { b != 0 && IsInt32(TruncDiv(a * FX_ONE, b)) }

  /** fx_div: the numerator shifted up by 16, divided with C's truncating division. */
  function FxDiv(a: fx32, b: fx32): (r: fx32)
    requires DivFits(a, b)
    ensures Abs(r * b) <= Abs(a * FX_ONE) < Abs(r * b) + Abs(b)
    ensures r == 0 || ((r < 0) <==> ((a < 0) != (b < 0)))
  {
    TruncDiv(a * FX_ONE, b)
  }

  lemma RoundTripIntFx(i: int)
    requires IsInt16(i)
    ensures FxToInt(IntToFx(i)) == i
  {
  }

  lemma RoundIsShiftedTruncation(f: int)
    ensures FxToIntRound(f) == FxToInt(f + FX_HALF)
  {
  }

  lemma MulByOne(a: fx32)
    ensures MulFits(a, FX_ONE) && FxMul(a, FX_ONE) == a
  {
    assert a * FX_ONE / FX_ONE == a;
  }

  lemma MulCommutes(a: fx32, b: fx32)
    requires MulFits(a, b)
    ensures MulFits(b, a) && FxMul(a, b) == FxMul(b, a)
  {
    assert a * b == b * a;
  }

  lemma DivByOne(a: fx32)
    ensures DivFits(a, FX_ONE) && FxDiv(a, FX_ONE) == a
  {
    var q := TruncDiv(a * FX_ONE, FX_ONE);
    assert Abs(q * FX_ONE) <= Abs(a * FX_ONE) < Abs(q * FX_ONE) + FX_ONE;
    assert q == 0 || (q < 0) == (a < 0);
    if a >= 0 {
      assert q >= 0;
    } else {
      assert q <= 0;
    }
  }

  /** Vec2fx: a fixed-point vector (positions in 16.16 pixels, y growing downward). */
  datatype Vec2 = Vec2(x: int, y: int)

  /** AABBfx: half-extents of a box centred on a position. */
  datatype Aabb = Aabb(halfW: int, halfH: int)

  /**
   * The box test that enemy.c, projectile.c and boss.c each carry a copy of:
   * the centres are closer than the summed half-extents on both axes, strictly.
   */
  predicate BoxesOverlap(pa: Vec2, ba: Aabb, pb: Vec2, bb: Aabb)
  {
    Abs(pa.x - pb.x) < ba.halfW + bb.halfW && Abs(pa.y - pb.y) < ba.halfH + bb.halfH
  }

  /** The box test does not depend on the order of its operands. */
  lemma BoxesOverlapSymmetric(pa: Vec2, ba: Aabb, pb: Vec2, bb: Aabb)
    ensures BoxesOverlap(pa, ba, pb, bb) == BoxesOverlap(pb, bb, pa, ba)
  {
  }

  // ---------------------------------------------------------------------
  // Tiles and collision codes
  // ---------------------------------------------------------------------

  const TILE_SIZE: int := 16
  const TILE_SHIFT: nat := 4

  /** `px >> TILE_SHIFT`: the index of the tile holding pixel px. */
  function PixelToTile(px: int): (t: int)
    ensures t * TILE_SIZE <= px < t * TILE_SIZE + TILE_SIZE
  {
    px / 16
  }

  lemma TileSizeIsPowerOfShift()
    ensures TILE_SIZE == Pow2(TILE_SHIFT)
  {
  }

  function Pow2(k: nat): (r: nat)
    ensures r >= 1
  {
    if k == 0 then 1 else 2 * Pow2(k - 1)
  }

  const COLL_AIR: int := 0x00
  const COLL_SOLID: int := 0x01
  const COLL_SLOPE_BASE: int := 0x10
  const COLL_SPECIAL_BASE: int := 0x20
  const COLL_SPECIAL_SHOT: int := 0x21
  const COLL_SPECIAL_BOMB: int := 0x22
  const COLL_SPECIAL_CRUMBLE: int := 0x23
  const COLL_SPECIAL_SAVE: int := 0x24
  const COLL_HAZARD_BASE: int := 0x30
  const COLL_HAZARD_SPIKE: int := 0x31
  const COLL_HAZARD_LAVA: int := 0x32

  // ---------------------------------------------------------------------
  // Directions, game states, pools
  // ---------------------------------------------------------------------

  const DIR_LEFT: int := 0
  const DIR_RIGHT: int := 1
  const DIR_UP: int := 2
  const DIR_DOWN: int := 3

  const STATE_TITLE: int := 0
  const STATE_FILE_SELECT: int := 1
  const STATE_GAMEPLAY: int := 2
  const STATE_PAUSE: int := 3
  const STATE_MAP: int := 4
  const STATE_DEATH: int := 5
  const STATE_ENDING: int := 6
  const STATE_COUNT: int := 7

  const MAX_ENEMIES: int := 16
  const MAX_PROJECTILES: int := 32

  // ---------------------------------------------------------------------
  // Items and equipment
  // ---------------------------------------------------------------------

  const ITEM_NONE: int := 0
  const ITEM_ENERGY_TANK: int := 1
  const ITEM_MISSILE_TANK: int := 2
  const ITEM_SUPER_TANK: int := 3
  const ITEM_PB_TANK: int := 4
  const ITEM_MORPH_BALL: int := 5
  const ITEM_BOMBS: int := 6
  const ITEM_HI_JUMP: int := 7
  const ITEM_SPEED_BOOST: int := 8
  const ITEM_VARIA_SUIT: int := 9
  const ITEM_GRAVITY_SUIT: int := 10
  const ITEM_SPACE_JUMP: int := 11
  const ITEM_SCREW_ATTACK: int := 12
  const ITEM_CHARGE_BEAM: int := 13
  const ITEM_ICE_BEAM: int := 14
  const ITEM_WAVE_BEAM: int := 15
  const ITEM_SPAZER_BEAM: int := 16
  const ITEM_PLASMA_BEAM: int := 17
  const ITEM_GRAPPLE: int := 18
  const ITEM_XRAY: int := 19
  const ITEM_RESERVE_TANK: int := 20
  const ITEM_TYPE_COUNT: int := 21

  /** The player's equipment word (a uint32 in the game, of which bits 0..15 are used). */
  type Equipment = bv32

  const EQUIP_MORPH_BALL: Equipment := 1 << 0
  const EQUIP_BOMBS: Equipment := 1 << 1
  const EQUIP_SPRING_BALL: Equipment := 1 << 2
  const EQUIP_HI_JUMP: Equipment := 1 << 3
  const EQUIP_SPACE_JUMP: Equipment := 1 << 4
  const EQUIP_SPEED_BOOST: Equipment := 1 << 5
  const EQUIP_SCREW_ATTACK: Equipment := 1 << 6
  const EQUIP_VARIA_SUIT: Equipment := 1 << 7
  const EQUIP_GRAVITY_SUIT: Equipment := 1 << 8
  const EQUIP_CHARGE_BEAM: Equipment := 1 << 9
  const EQUIP_ICE_BEAM: Equipment := 1 << 10
  const EQUIP_WAVE_BEAM: Equipment := 1 << 11
  const EQUIP_SPAZER_BEAM: Equipment := 1 << 12
  const EQUIP_PLASMA_BEAM: Equipment := 1 << 13
  const EQUIP_GRAPPLE: Equipment := 1 << 14
  const EQUIP_XRAY: Equipment := 1 << 15

  /** The sixteen equipment flags in declaration order. */
  const EQUIP_FLAGS: seq<Equipment> := [
    EQUIP_MORPH_BALL, EQUIP_BOMBS, EQUIP_SPRING_BALL, EQUIP_HI_JUMP,
    EQUIP_SPACE_JUMP, EQUIP_SPEED_BOOST, EQUIP_SCREW_ATTACK, EQUIP_VARIA_SUIT,
    EQUIP_GRAVITY_SUIT, EQUIP_CHARGE_BEAM, EQUIP_ICE_BEAM, EQUIP_WAVE_BEAM,
    EQUIP_SPAZER_BEAM, EQUIP_PLASMA_BEAM, EQUIP_GRAPPLE, EQUIP_XRAY]

  /** The flags OR-ed together from index k on. */
  function UnionFrom(flags: seq<Equipment>, k: nat): Equipment
    requires k <= |flags|
    decreases |flags| - k
  {
    if k == |flags| then 0 else flags[k] | UnionFrom(flags, k + 1)
  }

  /** Flag k is bit k, so the sixteen flags are distinct single bits. */
  lemma EquipFlagsAreBits0To15()
    ensures |EQUIP_FLAGS| == 16
    ensures forall k :: 0 <= k < 16 ==> EQUIP_FLAGS[k] == (1 as bv32) << k
    ensures forall j, k :: 0 <= j < k < 16 ==> EQUIP_FLAGS[j] & EQUIP_FLAGS[k] == 0
  {
  }

  /** Together the sixteen flags cover bits 0..15 and nothing else. */
  lemma EquipFlagsCoverLowWord()
    ensures UnionFrom(EQUIP_FLAGS, 0) == 0xFFFF
  {
    assert UnionFrom(EQUIP_FLAGS, 16) == 0;
    assert UnionFrom(EQUIP_FLAGS, 15) == 0x8000;
    assert UnionFrom(EQUIP_FLAGS, 14) == 0xC000;
    assert UnionFrom(EQUIP_FLAGS, 13) == 0xE000;
    assert UnionFrom(EQUIP_FLAGS, 12) == 0xF000;
    assert UnionFrom(EQUIP_FLAGS, 11) == 0xF800;
    assert UnionFrom(EQUIP_FLAGS, 10) == 0xFC00;
    assert UnionFrom(EQUIP_FLAGS, 9) == 0xFE00;
    assert UnionFrom(EQUIP_FLAGS, 8) == 0xFF00;
    assert UnionFrom(EQUIP_FLAGS, 7) == 0xFF80;
    assert UnionFrom(EQUIP_FLAGS, 6) == 0xFFC0;
    assert UnionFrom(EQUIP_FLAGS, 5) == 0xFFE0;
    assert UnionFrom(EQUIP_FLAGS, 4) == 0xFFF0;
    assert UnionFrom(EQUIP_FLAGS, 3) == 0xFFF8;
    assert UnionFrom(EQUIP_FLAGS, 2) == 0xFFFC;
    assert UnionFrom(EQUIP_FLAGS, 1) == 0xFFFE;
    assert UnionFrom(EQUIP_FLAGS, 0) == 0xFFFF;
  }
}
