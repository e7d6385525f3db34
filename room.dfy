/**
 * The current room (source/room.c): collision and BTS lookups, the
 * hard-coded test room, unloading, and the 8x8 BG map that the upload step
 * builds from the metatile map.
 *
 * `Grid` is the read-only view of the room that the physics, enemy and
 * projectile code query through `CollisionAt`; `RoomData` is the global room
 * record that loading and unloading change in place.
 */
module Room {
  import opened CInt
  import opened SmTypes

  const MAX_ROOM_WIDTH_TILES: int := 64
  const MAX_ROOM_HEIGHT_TILES: int := 32
  /** Cells of the collision, BTS and metatile arrays (the largest room). */
  const ROOM_CELLS: int := 2048
  const SCREEN_WIDTH: int := 256
  const SCREEN_HEIGHT: int := 192
  /** Entries of the 512x512-pixel BG map: 64x64 cells in four 32x32 blocks. */
  const BG_MAP_CELLS: int := 4096

  /** What collision queries see of the current room. */
  datatype Grid = Grid(loaded: bool, width: int, height: int, collision: seq<int>, bts: seq<int>)

  predicate GridValid(g: Grid)
  {
    0 <= g.width <= MAX_ROOM_WIDTH_TILES && 0 <= g.height <= MAX_ROOM_HEIGHT_TILES &&
    |g.collision| == ROOM_CELLS && |g.bts| == ROOM_CELLS
  }

  /** Tile (x, y) lies inside a loaded room. */
  predicate InRoom(g: Grid, x: int, y: int)
  {
    g.loaded && 0 <= x < g.width && 0 <= y < g.height
  }

  lemma CellIndexInRange(x: int, y: int, w: int, h: int)
    requires 0 <= x < w <= MAX_ROOM_WIDTH_TILES && 0 <= y < h <= MAX_ROOM_HEIGHT_TILES
    ensures 0 <= y * w + x < h * w <= ROOM_CELLS
  {
    MulMono(y, h - 1, w);
    assert (h - 1) * w == h * w - w;
    MulMono(h, MAX_ROOM_HEIGHT_TILES, w);
    assert MAX_ROOM_HEIGHT_TILES * w <= MAX_ROOM_HEIGHT_TILES * MAX_ROOM_WIDTH_TILES;
  }

  /** room_get_collision: the tile's collision code, COLL_SOLID outside a loaded room. */
  function CollisionAt(g: Grid, x: int, y: int): (c: int)
    requires GridValid(g)
    ensures !InRoom(g, x, y) ==> c == COLL_SOLID
  {
    if !InRoom(g, x, y) then COLL_SOLID
    else
      CellIndexInRange(x, y, g.width, g.height);
      g.collision[y * g.width + x]
  }

  /** room_get_bts: the tile's BTS byte, 0 outside a loaded room. */
  function BtsAt(g: Grid, x: int, y: int): (b: int)
    requires GridValid(g)
    ensures !InRoom(g, x, y) ==> b == 0
  {
    if !InRoom(g, x, y) then 0
    else
      CellIndexInRange(x, y, g.width, g.height);
      g.bts[y * g.width + x]
  }

  /** Inside the room both lookups read the row-major cell y * width + x. */
  lemma LookupReadsRowMajorCell(g: Grid, x: int, y: int)
    requires GridValid(g) && InRoom(g, x, y)
    ensures 0 <= y * g.width + x < ROOM_CELLS
    ensures CollisionAt(g, x, y) == g.collision[y * g.width + x]
    ensures BtsAt(g, x, y) == g.bts[y * g.width + x]
  {
    CellIndexInRange(x, y, g.width, g.height);
  }

  /** An unloaded room is solid everywhere and has BTS 0 everywhere. */
  lemma UnloadedRoomIsSolid(g: Grid, x: int, y: int)
    requires GridValid(g) && !g.loaded
    ensures CollisionAt(g, x, y) == COLL_SOLID && BtsAt(g, x, y) == 0
  {
  }

  // ---------------------------------------------------------------------
  // The test room
  // ---------------------------------------------------------------------

  const TEST_WIDTH: int := 16
  const TEST_HEIGHT: int := 12

  /** The solid tiles of the test room: the two floor rows, the side walls and the platform. */
  predicate TestSolid(x: int, y: int)
  {
    y >= TEST_HEIGHT - 2 || x == 0 || x == TEST_WIDTH - 1 || (y == 6 && 5 <= x <= 10)
  }

  /** Collision code of array cell i after load_test_room (cells past the room stay air). */
  function TestCollisionCell(i: int): int
  {
    if 0 <= i < TEST_WIDTH * TEST_HEIGHT && TestSolid(i % TEST_WIDTH, i / TEST_WIDTH) then COLL_SOLID
    else COLL_AIR
  }

  /** Metatile of array cell i after load_test_room: 1 floor and walls, 2 platform, 0 air. */
  function TestMetatileCell(i: int): bv16
  {
    if !(0 <= i < TEST_WIDTH * TEST_HEIGHT) then 0
    else
      var x := i % TEST_WIDTH;
      var y := i / TEST_WIDTH;
      if y >= TEST_HEIGHT - 2 || x == 0 || x == TEST_WIDTH - 1 then 1
      else if y == 6 && 5 <= x <= 10 then 2
      else 0
  }

  /** A spawn point of the room's spawn list: enemy type, pixel position and two parameters. */
  datatype SpawnPoint = SpawnPoint(enemyType: int, x: int, y: int, param1: int, param2: int)

  const TEST_SPAWNS: seq<SpawnPoint> := [
    SpawnPoint(1, 64, 148, 0, 0),
    SpawnPoint(1, 192, 148, 0, 0),
    SpawnPoint(3, 128, 48, 0, 0)]

  /** The test room's collision map, read through `CollisionAt`, is exactly the listed layout. */
  lemma {:induction false} TestRoomLayout(g: Grid, x: int, y: int)
    requires GridValid(g) && g.loaded && g.width == TEST_WIDTH && g.height == TEST_HEIGHT
    requires forall i :: 0 <= i < ROOM_CELLS ==> g.collision[i] == TestCollisionCell(i)
    requires 0 <= x < TEST_WIDTH && 0 <= y < TEST_HEIGHT
    ensures CollisionAt(g, x, y) == (if TestSolid(x, y) then COLL_SOLID else COLL_AIR)
  {
    var i := y * TEST_WIDTH + x;
    assert i % TEST_WIDTH == x && i / TEST_WIDTH == y;
    assert g.collision[i] == TestCollisionCell(i);
  }

  /** The scroll bound of a room extent: how far it exceeds the screen, never negative. */
  function ScrollMax(tiles: int, screen: int): (m: int)
    ensures m >= 0
    ensures m >= tiles * TILE_SIZE - screen
    ensures m == 0 || m == tiles * TILE_SIZE - screen
  {
    var m := tiles * TILE_SIZE - screen;
    if m < 0 then 0 else m
  }

  // ---------------------------------------------------------------------
  // BG map layout
  // ---------------------------------------------------------------------

  /** The BG-map entry of 8x8 cell (tx, ty): four 32x32 blocks, row-major inside a block. */
  function BgMapOffset(tx: int, ty: int): int
    requires 0 <= tx < 64 && 0 <= ty < 64
  {
    var block := (if tx >= 32 then 1 else 0) + (if ty >= 32 then 2 else 0);
    block * 1024 + (ty % 32) * 32 + tx % 32
  }

  /** The cell column stored at BG-map entry o. */
  function OffsetTx(o: int): int
  {
    ((o / 1024) % 2) * 32 + o % 32
  }

  /** The cell row stored at BG-map entry o. */
  function OffsetTy(o: int): int
  {
    (o / 2048) * 32 + (o / 32) % 32
  }

  /** The layout is a bijection between the 64x64 cells and the 4096 entries. */
  lemma BgMapOffsetInverse(tx: int, ty: int)
    requires 0 <= tx < 64 && 0 <= ty < 64
    ensures 0 <= BgMapOffset(tx, ty) < BG_MAP_CELLS
    ensures OffsetTx(BgMapOffset(tx, ty)) == tx && OffsetTy(BgMapOffset(tx, ty)) == ty
  {
    var lx, ly := tx % 32, ty % 32;
    var bx := if tx >= 32 then 1 else 0;
    var byy := if ty >= 32 then 1 else 0;
    var o := BgMapOffset(tx, ty);
    assert o == byy * 2048 + bx * 1024 + ly * 32 + lx;
    BlockColumn(o, byy, bx, ly * 32 + lx);
    CellInBlock(o, byy * 64 + bx * 32 + ly, lx);
    CellInBlock(o / 32, byy * 2 + bx, ly);
    BlockRow(o, byy, bx * 1024 + ly * 32 + lx);
  }

  lemma BlockColumn(o: int, a: int, b: int, rest: int)
    requires 0 <= a < 2 && 0 <= b < 2 && 0 <= rest < 1024 && o == a * 2048 + b * 1024 + rest
    ensures (o / 1024) % 2 == b
  {
    assert o / 1024 == a * 2 + b;
  }

  lemma CellInBlock(o: int, q: int, r: int)
    requires 0 <= r < 32 && q >= 0 && o == q * 32 + r
    ensures o % 32 == r && o / 32 == q
  {
  }

  lemma BlockRow(o: int, a: int, rest: int)
    requires 0 <= a < 2 && 0 <= rest < 2048 && o == a * 2048 + rest
    ensures o / 2048 == a
  {
  }

  /** Entry o splits into block row a, block column b, row c and column d inside the block. */
  lemma DecomposeOffset(o: int) returns (a: int, b: int, c: int, d: int)
    requires 0 <= o < BG_MAP_CELLS
    ensures 0 <= a < 2 && 0 <= b < 2 && 0 <= c < 32 && 0 <= d < 32
    ensures o == a * 2048 + b * 1024 + c * 32 + d
    ensures OffsetTx(o) == b * 32 + d && OffsetTy(o) == a * 32 + c
  {
    a := o / 2048;
    var r1 := o % 2048;
    b := r1 / 1024;
    var r2 := r1 % 1024;
    c := r2 / 32;
    d := r2 % 32;
    assert o / 1024 == a * 2 + b;
    assert o / 32 == a * 64 + b * 32 + c;
  }

  lemma OffsetCellInverse(o: int)
    requires 0 <= o < BG_MAP_CELLS
    ensures 0 <= OffsetTx(o) < 64 && 0 <= OffsetTy(o) < 64
    ensures BgMapOffset(OffsetTx(o), OffsetTy(o)) == o
  {
    var a, b, c, d := DecomposeOffset(o);
    SplitCoordinate(b * 32 + d, b, d);
    SplitCoordinate(a * 32 + c, a, c);
  }

  lemma SplitCoordinate(t: int, blk: int, local: int)
    requires 0 <= blk < 2 && 0 <= local < 32 && t == blk * 32 + local
    ensures t % 32 == local && (if t >= 32 then 1 else 0) == blk
  {
  }

  /** Distinct cells never share an entry, so each write touches a single cell. */
  lemma BgMapOffsetInjective(tx1: int, ty1: int, tx2: int, ty2: int)
    requires 0 <= tx1 < 64 && 0 <= ty1 < 64 && 0 <= tx2 < 64 && 0 <= ty2 < 64
    requires BgMapOffset(tx1, ty1) == BgMapOffset(tx2, ty2)
    ensures tx1 == tx2 && ty1 == ty2
  {
    BgMapOffsetInverse(tx1, ty1);
    BgMapOffsetInverse(tx2, ty2);
  }

  // ---------------------------------------------------------------------
  // The global room
  // ---------------------------------------------------------------------

  /** g_current_room together with the static BG-map buffer of the upload step. */
  class RoomData {
    var loaded: bool
    var areaId: int
    var roomId: int
    var width: int
    var height: int
    var tilesetId: int
    var doorCount: int
    var spawns: seq<SpawnPoint>
    var spawnCount: int
    var scrollMaxX: int
    var scrollMaxY: int
    const collision: array<int>
    const bts: array<int>
    const tilemap: array<bv16>
    const bgmap: array<bv16>
    /** Per-cell countdown of crumble blocks; the player starts it, an unshown room routine runs it. */
    const crumbleTimer: array<int>

    predicate Valid()
      reads this
    {
      collision.Length == ROOM_CELLS && bts.Length == ROOM_CELLS &&
      tilemap.Length == ROOM_CELLS && bgmap.Length == BG_MAP_CELLS &&
      collision != bts && tilemap != bgmap &&
      collision as object != tilemap && collision as object != bgmap &&
      bts as object != tilemap && bts as object != bgmap &&
      crumbleTimer.Length == ROOM_CELLS && crumbleTimer != collision && crumbleTimer != bts &&
      crumbleTimer as object != tilemap && crumbleTimer as object != bgmap &&
      0 <= width <= MAX_ROOM_WIDTH_TILES && 0 <= height <= MAX_ROOM_HEIGHT_TILES
    }

    /** The view that collision queries see. */
    function View(): (g: Grid)
      requires Valid()
      reads this, collision, bts
      ensures GridValid(g)
    {
      Grid(loaded, width, height, collision[..], bts[..])
    }

    /** room_init: the whole record zeroed, so no room is loaded. */
    constructor ()
      ensures Valid() && !loaded && width == 0 && height == 0
      ensures doorCount == 0 && spawnCount == 0 && scrollMaxX == 0 && scrollMaxY == 0
      ensures forall i :: 0 <= i < ROOM_CELLS ==> collision[i] == 0 && bts[i] == 0 && tilemap[i] == 0
      ensures forall o :: 0 <= o < BG_MAP_CELLS ==> bgmap[o] == 0
      ensures forall i :: 0 <= i < ROOM_CELLS ==> crumbleTimer[i] == 0
      ensures fresh(collision) && fresh(bts) && fresh(tilemap) && fresh(bgmap) && fresh(crumbleTimer)
    {
      loaded := false;
      areaId, roomId := 0, 0;
      width, height := 0, 0;
      tilesetId, doorCount := 0, 0;
      spawns, spawnCount := [], 0;
      scrollMaxX, scrollMaxY := 0, 0;
      collision := new int[ROOM_CELLS](_ => 0);
      bts := new int[ROOM_CELLS](_ => 0);
      tilemap := new bv16[ROOM_CELLS](_ => 0);
      bgmap := new bv16[BG_MAP_CELLS](_ => 0);
      crumbleTimer := new int[ROOM_CELLS](_ => 0);
    }

    /** load_test_room: a 16x12 room with floor, walls and one platform. */
    method LoadTestRoom(area: int, room: int) returns (ok: bool)
      requires Valid()
      modifies this, collision, bts, tilemap
      ensures Valid() && ok && loaded
      ensures areaId == area && roomId == room && tilesetId == 0 && doorCount == 0
      ensures width == TEST_WIDTH && height == TEST_HEIGHT
      ensures spawns == TEST_SPAWNS && spawnCount == 3
      ensures scrollMaxX == ScrollMax(TEST_WIDTH, SCREEN_WIDTH) && scrollMaxY == ScrollMax(TEST_HEIGHT, SCREEN_HEIGHT)
      ensures forall i :: 0 <= i < ROOM_CELLS ==> collision[i] == TestCollisionCell(i)
      ensures forall i :: 0 <= i < ROOM_CELLS ==> bts[i] == 0
      ensures forall i :: 0 <= i < ROOM_CELLS ==> tilemap[i] == TestMetatileCell(i)
    {
      SetTestHeader(area, room);
      ClearLayers();
      FillTestRows();
      scrollMaxX := ScrollMax(TEST_WIDTH, SCREEN_WIDTH);
      scrollMaxY := ScrollMax(TEST_HEIGHT, SCREEN_HEIGHT);
      loaded := true;
      ok := true;
    }

    /** The header fields load_test_room sets before filling the layers. */
    method SetTestHeader(area: int, room: int)
      requires Valid()
      modifies this
      ensures Valid() && loaded == old(loaded)
      ensures areaId == area && roomId == room && tilesetId == 0 && doorCount == 0
      ensures width == TEST_WIDTH && height == TEST_HEIGHT
      ensures spawns == TEST_SPAWNS && spawnCount == 3
    {
      areaId, roomId := area, room;
      width, height := TEST_WIDTH, TEST_HEIGHT;
      tilesetId, doorCount := 0, 0;
      spawns, spawnCount := TEST_SPAWNS, 3;
    }

    /** The row loop of load_test_room over the cleared layers. */
    method FillTestRows()
      requires Valid()
      requires forall i :: 0 <= i < ROOM_CELLS ==> collision[i] == COLL_AIR && bts[i] == 0 && tilemap[i] == 0
      modifies collision, tilemap
      ensures forall i :: 0 <= i < ROOM_CELLS ==> collision[i] == TestCollisionCell(i)
      ensures forall i :: 0 <= i < ROOM_CELLS ==> bts[i] == 0
      ensures forall i :: 0 <= i < ROOM_CELLS ==> tilemap[i] == TestMetatileCell(i)
    {
      // The room is TEST_WIDTH wide and TEST_HEIGHT high.
      var y := 0;
      while y < TEST_HEIGHT
        invariant 0 <= y <= TEST_HEIGHT
        modifies collision, tilemap
        invariant forall i :: 0 <= i < ROOM_CELLS ==>
          collision[i] == (if i < y * TEST_WIDTH then TestCollisionCell(i) else COLL_AIR)
        invariant forall i :: 0 <= i < ROOM_CELLS ==>
          tilemap[i] == (if i < y * TEST_WIDTH then TestMetatileCell(i) else 0)
        invariant forall i :: 0 <= i < ROOM_CELLS ==> bts[i] == 0
      {
        FillTestRow(y);
        y := y + 1;
      }
    }

    /** The three memsets of load_test_room: every cell becomes air with no BTS and no metatile. */
    method ClearLayers()
      requires Valid()
      modifies collision, bts, tilemap
      ensures forall i :: 0 <= i < ROOM_CELLS ==> collision[i] == COLL_AIR && bts[i] == 0 && tilemap[i] == 0
    {
      forall i | 0 <= i < ROOM_CELLS { collision[i] := COLL_AIR; }
      forall i | 0 <= i < ROOM_CELLS { bts[i] := 0; }
      forall i | 0 <= i < ROOM_CELLS { tilemap[i] := 0; }
    }

    /** One pass of load_test_room's inner loop: the cells of row y get their codes and metatiles. */
    method FillTestRow(y: int)
      requires Valid() && 0 <= y < TEST_HEIGHT
      requires forall i :: 0 <= i < ROOM_CELLS ==>
        collision[i] == (if i < y * TEST_WIDTH then TestCollisionCell(i) else COLL_AIR)
      requires forall i :: 0 <= i < ROOM_CELLS ==>
        tilemap[i] == (if i < y * TEST_WIDTH then TestMetatileCell(i) else 0)
      modifies collision, tilemap
      ensures forall i :: 0 <= i < ROOM_CELLS ==>
        collision[i] == (if i < (y + 1) * TEST_WIDTH then TestCollisionCell(i) else COLL_AIR)
      ensures forall i :: 0 <= i < ROOM_CELLS ==>
        tilemap[i] == (if i < (y + 1) * TEST_WIDTH then TestMetatileCell(i) else 0)
    {
      var x := 0;
      while x < TEST_WIDTH
        invariant 0 <= x <= TEST_WIDTH
        invariant forall i :: 0 <= i < ROOM_CELLS ==>
          collision[i] == (if i < y * TEST_WIDTH + x then TestCollisionCell(i) else COLL_AIR)
        invariant forall i :: 0 <= i < ROOM_CELLS ==>
          tilemap[i] == (if i < y * TEST_WIDTH + x then TestMetatileCell(i) else 0)
      {
        var idx := y * TEST_WIDTH + x;
        assert idx % TEST_WIDTH == x && idx / TEST_WIDTH == y;
        if y >= TEST_HEIGHT - 2 {
          collision[idx] := COLL_SOLID;
          tilemap[idx] := 1;
        } else if x == 0 || x == TEST_WIDTH - 1 {
          collision[idx] := COLL_SOLID;
          tilemap[idx] := 1;
        } else if y == 6 && x >= 5 && x <= 10 {
          collision[idx] := COLL_SOLID;
          tilemap[idx] := 2;
        } else {
          tilemap[idx] := 0;
        }
        x := x + 1;
      }
    }

    /** room_load: every (area, room) currently produces the test room, whose BG map is then built. */
    method Load(area: int, room: int) returns (ok: bool)
      requires Valid()
      modifies this, collision, bts, tilemap, bgmap
      ensures Valid() && ok && loaded && areaId == area && roomId == room
      ensures width == TEST_WIDTH && height == TEST_HEIGHT && spawns == TEST_SPAWNS && spawnCount == 3
      ensures forall i :: 0 <= i < ROOM_CELLS ==> collision[i] == TestCollisionCell(i) && bts[i] == 0
      ensures forall i :: 0 <= i < ROOM_CELLS ==> tilemap[i] == TestMetatileCell(i)
      ensures forall o :: 0 <= o < BG_MAP_CELLS ==> bgmap[o] == BgCell(o)
    {
      if loaded {
        Unload();
      }
      ok := LoadTestRoom(area, room);
      if !ok {
        return;
      }
      UploadToVram();
    }

    /** room_unload: the room becomes unloaded and empty; the arrays are left as they are. */
    method Unload()
      requires Valid()
      modifies this
      ensures Valid() && !loaded && width == 0 && height == 0 && doorCount == 0 && spawnCount == 0
      ensures areaId == old(areaId) && roomId == old(roomId) && spawns == old(spawns)
      ensures scrollMaxX == old(scrollMaxX) && scrollMaxY == old(scrollMaxY) && tilesetId == old(tilesetId)
    {
      loaded := false;
      width := 0;
      height := 0;
      doorCount := 0;
      spawnCount := 0;
    }

    /**
     * The BG-map entry that the upload step gives to the cell stored at entry o:
     * the tile index of its metatile when the metatile lies in the room and
     * in the 32x32-metatile window, 0 otherwise.
     */
    function BgCell(o: int): bv16
      requires Valid()
      reads this, tilemap
    {
      var mx := OffsetTx(o) / 2;
      var my := OffsetTy(o) / 2;
      if 0 <= mx < width && 0 <= my < height && mx < 32 && my < 32 then
        CellIndexInRange(mx, my, width, height);
        tilemap[my * width + mx] & 0x3FF
      else 0
    }

    /** The BG-map part of room_upload_to_vram: each metatile fills its 2x2 block of cells. */
    method UploadToVram()
      requires Valid()
      modifies bgmap
      ensures !loaded ==> bgmap[..] == old(bgmap[..])
      ensures loaded ==> forall o :: 0 <= o < BG_MAP_CELLS ==> bgmap[o] == BgCell(o)
    {
      if !loaded {
        return;
      }
      var w := width;
      var h := height;
      forall o | 0 <= o < BG_MAP_CELLS { bgmap[o] := 0; }
      var my := 0;
      while my < h && my * 2 < 64
        invariant 0 <= my <= h && my <= 32
        invariant forall o :: 0 <= o < BG_MAP_CELLS ==>
          bgmap[o] == (if OffsetTy(o) / 2 < my then BgCell(o) else 0)
      {
        WriteRow(my);
        my := my + 1;
      }
    }

    /** One pass of the upload's row loop: the metatiles of row my, left to right. */
    method WriteRow(my: int)
      requires Valid() && 0 <= my < height && my < 32
      modifies bgmap
      ensures forall o :: 0 <= o < BG_MAP_CELLS ==>
        bgmap[o] == (if OffsetTy(o) / 2 == my && OffsetTx(o) / 2 < width then BgCell(o) else old(bgmap[o]))
    {
      var w := width;
      var mx := 0;
      while mx < w && mx * 2 < 64
        invariant 0 <= mx <= w && mx <= 32
        invariant forall o :: 0 <= o < BG_MAP_CELLS ==>
          bgmap[o] == (if OffsetTy(o) / 2 == my && OffsetTx(o) / 2 < mx then BgCell(o) else old(bgmap[o]))
      {
        CellIndexInRange(mx, my, w, height);
        var entry := tilemap[my * w + mx] & 0x3FF;
        WriteBlock(mx, my, entry);
        mx := mx + 1;
      }
    }

    /** The 2x2 inner loops of the upload: the four cells of metatile (mx, my) receive entry. */
    method WriteBlock(mx: int, my: int, entry: bv16)
      requires Valid() && 0 <= mx < 32 && 0 <= my < 32
      modifies bgmap
      ensures forall o :: 0 <= o < BG_MAP_CELLS ==>
        bgmap[o] == (if OffsetTx(o) / 2 == mx && OffsetTy(o) / 2 == my then entry else old(bgmap[o]))
    {
      var dy := 0;
      while dy < 2
        invariant 0 <= dy <= 2
        invariant forall o :: 0 <= o < BG_MAP_CELLS ==>
          bgmap[o] == (if OffsetTx(o) / 2 == mx && OffsetTy(o) / 2 == my && OffsetTy(o) % 2 < dy
                       then entry else old(bgmap[o]))
      {
        var dx := 0;
        while dx < 2
          invariant 0 <= dx <= 2
          invariant forall o :: 0 <= o < BG_MAP_CELLS ==>
            bgmap[o] == (if OffsetTx(o) / 2 == mx && OffsetTy(o) / 2 == my &&
                            (OffsetTy(o) % 2 < dy || (OffsetTy(o) % 2 == dy && OffsetTx(o) % 2 < dx))
                         then entry else old(bgmap[o]))
        {
          WriteCell(mx * 2 + dx, my * 2 + dy, entry);
          dx := dx + 1;
        }
        dy := dy + 1;
      }
    }

    /** One store of the upload: the BG-map entry of cell (tx, ty) receives entry. */
    method WriteCell(tx: int, ty: int, entry: bv16)
      requires Valid() && 0 <= tx < 64 && 0 <= ty < 64
      modifies bgmap
      ensures forall o :: 0 <= o < BG_MAP_CELLS ==>
        bgmap[o] == (if OffsetTx(o) == tx && OffsetTy(o) == ty then entry else old(bgmap[o]))
    {
      var offset := BgMapOffset(tx, ty);
      BgMapOffsetInverse(tx, ty);
      forall o | 0 <= o < BG_MAP_CELLS && o != offset
        ensures OffsetTx(o) != tx || OffsetTy(o) != ty
      {
        OffsetCellInverse(o);
      }
      bgmap[offset] := entry;
    }
  }
}
