/**
 * The physics step of source/physics.c: gravity with a terminal-velocity
 * cap, external acceleration, and axis-separated tile collision (move along
 * x and resolve, then move along y and resolve, then probe the row under the
 * feet).
 *
 * A `Body` is PhysicsBody, a record embedded by value in the player, enemy
 * and boss records. Each step is specified by a function from the body
 * before to the body after; the methods that walk tile ranges with loops are
 * proved to compute those functions. Positions are mathematical integers:
 * the model does not wrap at the int32 bound.
 */
module Physics {
  import opened SmTypes
  import opened PhysicsConstants
  import opened Room

  const ENV_AIR: int := 0
  const ENV_WATER: int := 1
  const ENV_LAVA: int := 2

  /** The contact flags, all cleared together at the start of a step. */
  datatype Contact = Contact(onGround: bool, onCeiling: bool, onWallLeft: bool, onWallRight: bool,
                             onHazard: bool, hazardType: int)

  const NO_CONTACT: Contact := Contact(false, false, false, false, false, 0)

  datatype Body = Body(pos: Vec2, vel: Vec2, accel: Vec2, hitbox: Aabb, env: int, contact: Contact)

  // ---------------------------------------------------------------------
  // Tile arithmetic
  // ---------------------------------------------------------------------

  /** fx_to_tile: the tile holding a fixed-point coordinate (two arithmetic shifts, so a floor). */
  function FxToTile(p: int): (t: int)
    ensures t * TILE_SIZE * FX_ONE <= p < (t + 1) * TILE_SIZE * FX_ONE
  {
    FxToInt(p) / TILE_SIZE
  }

  /** INT_TO_FX(t * TILE_SIZE): the fixed-point coordinate of tile t's low edge. */
  function TileToFx(t: int): int
  {
    t * TILE_SIZE * FX_ONE
  }

  /** A tile edge lies in its own tile, and the last subpixel before it in the previous tile. */
  lemma TileEdgeTiles(t: int)
    ensures FxToTile(TileToFx(t)) == t
    ensures FxToTile(TileToFx(t) - 1) == t - 1
  {
    assert TileToFx(t) == (t * TILE_SIZE) * FX_ONE;
    assert FxToInt(TileToFx(t)) == t * TILE_SIZE;
    assert FxToInt(TileToFx(t) - 1) == t * TILE_SIZE - 1;
  }

  function TopTile(b: Body): int { FxToTile(b.pos.y - b.hitbox.halfH) }
  function BottomTile(b: Body): int { FxToTile(b.pos.y + b.hitbox.halfH - 1) }
  function LeftTile(b: Body): int { FxToTile(b.pos.x - b.hitbox.halfW) }
  function RightTile(b: Body): int { FxToTile(b.pos.x + b.hitbox.halfW - 1) }

  /** Some tile of column tx between rows yMin and yMax (inclusive) is COLL_SOLID. */
  predicate ColSolid(g: Grid, tx: int, yMin: int, yMax: int)
    requires GridValid(g)
  {
    exists ty :: yMin <= ty <= yMax && CollisionAt(g, tx, ty) == COLL_SOLID
  }

  /** Some tile of row ty between columns xMin and xMax (inclusive) is COLL_SOLID. */
  predicate RowSolid(g: Grid, xMin: int, xMax: int, ty: int)
    requires GridValid(g)
  {
    exists tx :: xMin <= tx <= xMax && CollisionAt(g, tx, ty) == COLL_SOLID
  }

  /** row_has_solid: scans the row from xMin to xMax and stops at the first solid tile. */
  method RowHasSolid(g: Grid, xMin: int, xMax: int, ty: int) returns (found: bool)
    requires GridValid(g)
    ensures found <==> RowSolid(g, xMin, xMax, ty)
  {
    var tx := xMin;
    while tx <= xMax
      invariant tx <= xMax + 1 || xMax < xMin
      invariant forall t :: xMin <= t < tx ==> CollisionAt(g, t, ty) != COLL_SOLID
      decreases xMax - tx
    {
      if CollisionAt(g, tx, ty) == COLL_SOLID {
        return true;
      }
      tx := tx + 1;
    }
    return false;
  }

  /** col_has_solid: scans the column from yMin to yMax and stops at the first solid tile. */
  method ColHasSolid(g: Grid, tx: int, yMin: int, yMax: int) returns (found: bool)
    requires GridValid(g)
    ensures found <==> ColSolid(g, tx, yMin, yMax)
  {
    var ty := yMin;
    while ty <= yMax
      invariant ty <= yMax + 1 || yMax < yMin
      invariant forall t :: yMin <= t < ty ==> CollisionAt(g, tx, t) != COLL_SOLID
      decreases yMax - ty
    {
      if CollisionAt(g, tx, ty) == COLL_SOLID {
        return true;
      }
      ty := ty + 1;
    }
    return false;
  }

  // ---------------------------------------------------------------------
  // The steps, as functions of the body
  // ---------------------------------------------------------------------

  function Gravity(env: int): int
  {
    if env == ENV_WATER then GRAVITY_WATER else if env == ENV_LAVA then GRAVITY_LAVA else GRAVITY_AIR
  }

  function TerminalVelocity(env: int): int
  {
    if env == ENV_WATER then TERMINAL_VEL_WATER else if env == ENV_LAVA then TERMINAL_VEL_LAVA else TERMINAL_VEL_AIR
  }

  /** physics_apply_gravity: add the environment's gravity to vel.y, then cap it at terminal velocity. */
  function ApplyGravity(b: Body): (r: Body)
    ensures r == b.(vel := r.vel) && r.vel.x == b.vel.x
  {
    var vy := b.vel.y + Gravity(b.env);
    b.(vel := b.vel.(y := if vy > TerminalVelocity(b.env) then TerminalVelocity(b.env) else vy))
  }

  /** physics_integrate: position plus velocity, without collision. */
  function Integrate(b: Body): (r: Body)
    ensures r == b.(pos := r.pos)
  {
    b.(pos := Vec2(b.pos.x + b.vel.x, b.pos.y + b.vel.y))
  }

  /** resolve_horizontal: a body moving into a solid column snaps against it and stops. */
  function ResolvedHorizontal(g: Grid, b: Body): Body
    requires GridValid(g)
  {
    if b.vel.x > 0 && ColSolid(g, RightTile(b), TopTile(b), BottomTile(b)) then
      b.(pos := b.pos.(x := TileToFx(RightTile(b)) - b.hitbox.halfW),
         vel := b.vel.(x := 0),
         contact := b.contact.(onWallRight := true))
    else if b.vel.x < 0 && ColSolid(g, LeftTile(b), TopTile(b), BottomTile(b)) then
      b.(pos := b.pos.(x := TileToFx(LeftTile(b) + 1) + b.hitbox.halfW),
         vel := b.vel.(x := 0),
         contact := b.contact.(onWallLeft := true))
    else b
  }

  /** resolve_vertical: a falling body lands on a solid row, a rising one hits the ceiling. */
  function ResolvedVertical(g: Grid, b: Body): Body
    requires GridValid(g)
  {
    if b.vel.y > 0 && RowSolid(g, LeftTile(b), RightTile(b), BottomTile(b)) then
      b.(pos := b.pos.(y := TileToFx(BottomTile(b)) - b.hitbox.halfH),
         vel := b.vel.(y := 0),
         contact := b.contact.(onGround := true))
    else if b.vel.y < 0 && RowSolid(g, LeftTile(b), RightTile(b), TopTile(b)) then
      b.(pos := b.pos.(y := TileToFx(TopTile(b) + 1) + b.hitbox.halfH),
         vel := b.vel.(y := 0),
         contact := b.contact.(onCeiling := true))
    else b
  }

  /** The row of tiles directly under the feet. */
  function SensorTile(b: Body): int { FxToTile(b.pos.y + b.hitbox.halfH) }

  /** check_ground_sensor: on_ground is raised when the row under the feet holds a solid tile. */
  function SensedGround(g: Grid, b: Body): Body
    requires GridValid(g)
  {
    if b.contact.onGround then b
    else if RowSolid(g, LeftTile(b), RightTile(b), SensorTile(b)) then
      b.(contact := b.contact.(onGround := true))
    else b
  }

  /** Gravity, then the external acceleration, then cleared contacts, as at the start of physics_update_body. */
  function Prepared(b: Body): Body
  {
    var a := ApplyGravity(b);
    a.(vel := Vec2(a.vel.x + a.accel.x, a.vel.y + a.accel.y), contact := NO_CONTACT)
  }

  function MovedX(b: Body): Body { b.(pos := b.pos.(x := b.pos.x + b.vel.x)) }
  function MovedY(b: Body): Body { b.(pos := b.pos.(y := b.pos.y + b.vel.y)) }

  /** physics_update_body: prepare, move x and resolve, move y and resolve, then probe the ground. */
  function Updated(g: Grid, b: Body): Body
    requires GridValid(g)
  {
    SensedGround(g, ResolvedVertical(g, MovedY(ResolvedHorizontal(g, MovedX(Prepared(b))))))
  }

  /** physics_resolve_collisions: clear the contacts and resolve the current position in place. */
  function Resolved(g: Grid, b: Body): Body
    requires GridValid(g)
  {
    SensedGround(g, ResolvedVertical(g, ResolvedHorizontal(g, b.(contact := NO_CONTACT))))
  }

  // ---------------------------------------------------------------------
  // The methods of physics.c
  // ---------------------------------------------------------------------

  method ResolveHorizontal(g: Grid, b: Body) returns (r: Body)
    requires GridValid(g)
    ensures r == ResolvedHorizontal(g, b)
  {
    r := b;
    var tileT := FxToTile(b.pos.y - b.hitbox.halfH);
    var tileB := FxToTile(b.pos.y + b.hitbox.halfH - 1);
    if b.vel.x > 0 {
      var tileX := FxToTile(b.pos.x + b.hitbox.halfW - 1);
      var hit := ColHasSolid(g, tileX, tileT, tileB);
      if hit {
        r := r.(pos := r.pos.(x := TileToFx(tileX) - b.hitbox.halfW));
        r := r.(vel := r.vel.(x := 0));
        r := r.(contact := r.contact.(onWallRight := true));
      }
    } else if b.vel.x < 0 {
      var tileX := FxToTile(b.pos.x - b.hitbox.halfW);
      var hit := ColHasSolid(g, tileX, tileT, tileB);
      if hit {
        r := r.(pos := r.pos.(x := TileToFx(tileX + 1) + b.hitbox.halfW));
        r := r.(vel := r.vel.(x := 0));
        r := r.(contact := r.contact.(onWallLeft := true));
      }
    }
  }

  method ResolveVertical(g: Grid, b: Body) returns (r: Body)
    requires GridValid(g)
    ensures r == ResolvedVertical(g, b)
  {
    r := b;
    var tileL := FxToTile(b.pos.x - b.hitbox.halfW);
    var tileR := FxToTile(b.pos.x + b.hitbox.halfW - 1);
    if b.vel.y > 0 {
      var tileY := FxToTile(b.pos.y + b.hitbox.halfH - 1);
      var hit := RowHasSolid(g, tileL, tileR, tileY);
      if hit {
        r := r.(pos := r.pos.(y := TileToFx(tileY) - b.hitbox.halfH));
        r := r.(vel := r.vel.(y := 0));
        r := r.(contact := r.contact.(onGround := true));
      }
    } else if b.vel.y < 0 {
      var tileY := FxToTile(b.pos.y - b.hitbox.halfH);
      var hit := RowHasSolid(g, tileL, tileR, tileY);
      if hit {
        r := r.(pos := r.pos.(y := TileToFx(tileY + 1) + b.hitbox.halfH));
        r := r.(vel := r.vel.(y := 0));
        r := r.(contact := r.contact.(onCeiling := true));
      }
    }
  }

  method CheckGroundSensor(g: Grid, b: Body) returns (r: Body)
    requires GridValid(g)
    ensures r == SensedGround(g, b)
  {
    r := b;
    if b.contact.onGround {
      return;
    }
    var tileY := FxToTile(b.pos.y + b.hitbox.halfH);
    var tileL := FxToTile(b.pos.x - b.hitbox.halfW);
    var tileR := FxToTile(b.pos.x + b.hitbox.halfW - 1);
    var hit := RowHasSolid(g, tileL, tileR, tileY);
    if hit {
      r := r.(contact := r.contact.(onGround := true));
    }
  }

  method ResolveCollisions(g: Grid, b: Body) returns (r: Body)
    requires GridValid(g)
    ensures r == Resolved(g, b)
  {
    r := b.(contact := NO_CONTACT);
    r := ResolveHorizontal(g, r);
    r := ResolveVertical(g, r);
    r := CheckGroundSensor(g, r);
  }

  method UpdateBody(g: Grid, b: Body) returns (r: Body)
    requires GridValid(g)
    ensures r == Updated(g, b)
  {
    r := ApplyGravity(b);
    r := r.(vel := Vec2(r.vel.x + r.accel.x, r.vel.y + r.accel.y));
    r := r.(contact := NO_CONTACT);
    assert r == Prepared(b);
    r := r.(pos := r.pos.(x := r.pos.x + r.vel.x));
    ghost var h := MovedX(Prepared(b));
    assert r == h;
    r := ResolveHorizontal(g, r);
    r := r.(pos := r.pos.(y := r.pos.y + r.vel.y));
    ghost var v := MovedY(ResolvedHorizontal(g, h));
    assert r == v;
    r := ResolveVertical(g, r);
    r := CheckGroundSensor(g, r);
  }

  // ---------------------------------------------------------------------
  // Properties
  // ---------------------------------------------------------------------

  /** Gravity caps only from above: a body slower than terminal velocity minus gravity is not clamped. */
  lemma GravityCapsAtTerminal(b: Body)
    ensures ApplyGravity(b).vel.y <= TerminalVelocity(b.env)
    ensures ApplyGravity(b).vel.y <= b.vel.y + Gravity(b.env)
    ensures b.vel.y + Gravity(b.env) <= TerminalVelocity(b.env) ==>
      ApplyGravity(b).vel.y == b.vel.y + Gravity(b.env)
    ensures b.vel.y < 0 ==> ApplyGravity(b).vel.y == b.vel.y + Gravity(b.env)
    ensures b.vel.y <= TerminalVelocity(b.env) ==> ApplyGravity(b).vel.y >= b.vel.y
  {
  }

  /** A body at rest horizontally is left alone by resolve_horizontal, and likewise vertically. */
  lemma NoMotionNoResolution(g: Grid, b: Body)
    requires GridValid(g)
    ensures b.vel.x == 0 ==> ResolvedHorizontal(g, b) == b
    ensures b.vel.y == 0 ==> ResolvedVertical(g, b) == b
  {
  }

  /**
   * Moving right into a solid column: the right edge is put on the tile's left
   * edge, so the hitbox ends in the column before it; the body stops and
   * touches the right wall. Moving left is the mirror image.
   */
  lemma {:induction false} WallSnap(g: Grid, b: Body)
    requires GridValid(g)
    ensures b.vel.x > 0 && ColSolid(g, RightTile(b), TopTile(b), BottomTile(b)) ==>
      var r := ResolvedHorizontal(g, b);
      r.pos.x + r.hitbox.halfW == TileToFx(RightTile(b)) && RightTile(r) == RightTile(b) - 1 &&
      r.vel.x == 0 && r.contact.onWallRight && r.pos.y == b.pos.y && r.vel.y == b.vel.y
    ensures b.vel.x < 0 && ColSolid(g, LeftTile(b), TopTile(b), BottomTile(b)) ==>
      var r := ResolvedHorizontal(g, b);
      r.pos.x - r.hitbox.halfW == TileToFx(LeftTile(b) + 1) && LeftTile(r) == LeftTile(b) + 1 &&
      r.vel.x == 0 && r.contact.onWallLeft && r.pos.y == b.pos.y && r.vel.y == b.vel.y
  {
    TileEdgeTiles(RightTile(b));
    TileEdgeTiles(LeftTile(b) + 1);
  }

  /** Landing puts the feet on the solid row's top edge; a ceiling hit puts the head under its bottom edge. */
  lemma {:induction false} FloorAndCeilingSnap(g: Grid, b: Body)
    requires GridValid(g)
    ensures b.vel.y > 0 && RowSolid(g, LeftTile(b), RightTile(b), BottomTile(b)) ==>
      var r := ResolvedVertical(g, b);
      r.pos.y + r.hitbox.halfH == TileToFx(BottomTile(b)) && BottomTile(r) == BottomTile(b) - 1 &&
      r.vel.y == 0 && r.contact.onGround && r.pos.x == b.pos.x && r.vel.x == b.vel.x
    ensures b.vel.y < 0 && RowSolid(g, LeftTile(b), RightTile(b), TopTile(b)) ==>
      var r := ResolvedVertical(g, b);
      r.pos.y - r.hitbox.halfH == TileToFx(TopTile(b) + 1) && TopTile(r) == TopTile(b) + 1 &&
      r.vel.y == 0 && r.contact.onCeiling && r.pos.x == b.pos.x && r.vel.x == b.vel.x
  {
    TileEdgeTiles(BottomTile(b));
    TileEdgeTiles(TopTile(b) + 1);
  }

  /** check_ground_sensor changes only on_ground, and only from false to true. */
  lemma GroundSensorOnlyRaisesGround(g: Grid, b: Body)
    requires GridValid(g)
    ensures SensedGround(g, b) == b.(contact := b.contact.(onGround := SensedGround(g, b).contact.onGround))
    ensures b.contact.onGround ==> SensedGround(g, b).contact.onGround
  {
  }

  /**
   * Every contact flag after physics_update_body was raised by this update:
   * a wall flag only by a blocked horizontal move, ground and ceiling only by
   * the vertical step or the sensor, and on_hazard/hazard_type stay cleared.
   */
  lemma {:induction false} UpdateContactsComeFromThisStep(g: Grid, b: Body)
    requires GridValid(g)
    ensures var p := MovedX(Prepared(b));
      var h := ResolvedHorizontal(g, p);
      var r := Updated(g, b);
      !r.contact.onHazard && r.contact.hazardType == 0 &&
      r.contact.onWallRight == (p.vel.x > 0 && ColSolid(g, RightTile(p), TopTile(p), BottomTile(p))) &&
      r.contact.onWallLeft == (p.vel.x < 0 && ColSolid(g, LeftTile(p), TopTile(p), BottomTile(p))) &&
      (r.contact.onCeiling ==> MovedY(h).vel.y < 0)
  {
    var p := MovedX(Prepared(b));
    assert p.contact == NO_CONTACT;
    var h := ResolvedHorizontal(g, p);
    var v := ResolvedVertical(g, MovedY(h));
    assert v.contact.onWallLeft == h.contact.onWallLeft && v.contact.onWallRight == h.contact.onWallRight;
  }

  /** The two grids agree on which tiles are COLL_SOLID. */
  ghost predicate SameSolidity(g1: Grid, g2: Grid)
    requires GridValid(g1) && GridValid(g2)
  {
    forall x, y :: (CollisionAt(g1, x, y) == COLL_SOLID) == (CollisionAt(g2, x, y) == COLL_SOLID)
  }

  lemma ColSolidAgrees(g1: Grid, g2: Grid, tx: int, yMin: int, yMax: int)
    requires GridValid(g1) && GridValid(g2) && SameSolidity(g1, g2)
    ensures ColSolid(g1, tx, yMin, yMax) == ColSolid(g2, tx, yMin, yMax)
  {
    if ColSolid(g1, tx, yMin, yMax) {
      var ty :| yMin <= ty <= yMax && CollisionAt(g1, tx, ty) == COLL_SOLID;
      assert CollisionAt(g2, tx, ty) == COLL_SOLID;
    }
    if ColSolid(g2, tx, yMin, yMax) {
      var ty :| yMin <= ty <= yMax && CollisionAt(g2, tx, ty) == COLL_SOLID;
      assert CollisionAt(g1, tx, ty) == COLL_SOLID;
    }
  }

  lemma RowSolidAgrees(g1: Grid, g2: Grid, xMin: int, xMax: int, ty: int)
    requires GridValid(g1) && GridValid(g2) && SameSolidity(g1, g2)
    ensures RowSolid(g1, xMin, xMax, ty) == RowSolid(g2, xMin, xMax, ty)
  {
    if RowSolid(g1, xMin, xMax, ty) {
      var tx :| xMin <= tx <= xMax && CollisionAt(g1, tx, ty) == COLL_SOLID;
      assert CollisionAt(g2, tx, ty) == COLL_SOLID;
    }
    if RowSolid(g2, xMin, xMax, ty) {
      var tx :| xMin <= tx <= xMax && CollisionAt(g2, tx, ty) == COLL_SOLID;
      assert CollisionAt(g1, tx, ty) == COLL_SOLID;
    }
  }

  lemma StepsAgree(g1: Grid, g2: Grid, b: Body)
    requires GridValid(g1) && GridValid(g2) && SameSolidity(g1, g2)
    ensures ResolvedHorizontal(g1, b) == ResolvedHorizontal(g2, b)
    ensures ResolvedVertical(g1, b) == ResolvedVertical(g2, b)
    ensures SensedGround(g1, b) == SensedGround(g2, b)
  {
    ColSolidAgrees(g1, g2, RightTile(b), TopTile(b), BottomTile(b));
    ColSolidAgrees(g1, g2, LeftTile(b), TopTile(b), BottomTile(b));
    RowSolidAgrees(g1, g2, LeftTile(b), RightTile(b), BottomTile(b));
    RowSolidAgrees(g1, g2, LeftTile(b), RightTile(b), TopTile(b));
    RowSolidAgrees(g1, g2, LeftTile(b), RightTile(b), SensorTile(b));
  }

  /**
   * Only COLL_SOLID blocks: grids that agree on which tiles are solid give the
   * same update, so special and hazard codes behave like air here.
   */
  lemma {:induction false} OnlySolidBlocks(g1: Grid, g2: Grid, b: Body)
    requires GridValid(g1) && GridValid(g2) && SameSolidity(g1, g2)
    ensures Updated(g1, b) == Updated(g2, b)
    ensures Resolved(g1, b) == Resolved(g2, b)
  {
    var p := MovedX(Prepared(b));
    StepsAgree(g1, g2, p);
    var q := MovedY(ResolvedHorizontal(g1, p));
    StepsAgree(g1, g2, q);
    StepsAgree(g1, g2, ResolvedVertical(g1, q));
    var c := b.(contact := NO_CONTACT);
    StepsAgree(g1, g2, c);
    StepsAgree(g1, g2, ResolvedHorizontal(g1, c));
    StepsAgree(g1, g2, ResolvedVertical(g1, ResolvedHorizontal(g1, c)));
  }

  lemma FxToTileMonotone(p: int, q: int)
    requires p <= q
    ensures FxToTile(p) <= FxToTile(q)
  {
  }

  /** In an unloaded room every tile is solid, so a body with a hitbox is stopped whichever way it moves. */
  lemma UnloadedRoomStopsMotion(g: Grid, b: Body)
    requires GridValid(g) && !g.loaded && b.hitbox.halfW > 0 && b.hitbox.halfH > 0
    ensures ResolvedHorizontal(g, b).vel.x == 0
    ensures ResolvedVertical(g, b).vel.y == 0
  {
    FxToTileMonotone(b.pos.y - b.hitbox.halfH, b.pos.y + b.hitbox.halfH - 1);
    FxToTileMonotone(b.pos.x - b.hitbox.halfW, b.pos.x + b.hitbox.halfW - 1);
    assert CollisionAt(g, RightTile(b), TopTile(b)) == COLL_SOLID;
    assert CollisionAt(g, LeftTile(b), TopTile(b)) == COLL_SOLID;
    assert CollisionAt(g, LeftTile(b), BottomTile(b)) == COLL_SOLID;
  }
}
