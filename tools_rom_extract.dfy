/**
 * The ROM reading side of the extraction script (tools/rom_extract.py):
 * little-endian reads with Python's indexing, the copier-header rule of
 * load_rom, the plausibility check for room headers, and the palette
 * block check with the scan that applies it. The files those scans write
 * are recorded as the sequence of byte blocks written.
 */
module ToolsRomExtract {
  import opened ToolsBytes
  import opened ToolsRomAddresses

  datatype Option<T> = None | Some(value: T)

  const ROOM_HDR_INDEX: int := 0x00
  const ROOM_HDR_AREA: int := 0x01
  const ROOM_HDR_MAP_X: int := 0x02
  const ROOM_HDR_MAP_Y: int := 0x03
  const ROOM_HDR_WIDTH: int := 0x04
  const ROOM_HDR_HEIGHT: int := 0x05
  const ROOM_HDR_DOORLIST: int := 0x09
  const ROOM_HDR_SIZE: int := 0x0B

  const PALETTE_BLOCK: int := 512
  const PALETTE_SCAN: int := 0x4000

  /** `data[k]` in Python: a negative k counts from the end; anything else out of range raises IndexError. */
  function PyIndex(data: seq<Byte>, k: int): (r: Outcome<int>)
    ensures r.Ok? ==> 0 <= r.value < 0x100
  {
    if 0 <= k < |data| then Ok(data[k] as int)
    else if -|data| <= k < 0 then Ok(data[|data| + k] as int)
    else Raised(IndexError)
  }

  /** read_u8: a byte at any index Python accepts, counting negative ones from the end; IndexError otherwise. */
  function ReadU8(data: seq<Byte>, offset: int): (r: Outcome<int>)
    ensures r.Ok? <==> -|data| <= offset < |data|
    ensures r.Ok? ==> 0 <= r.value < 0x100
    ensures 0 <= offset < |data| ==> r == Ok(data[offset] as int)
    ensures -|data| <= offset < 0 ==> r == Ok(data[|data| + offset] as int)
    ensures !r.Ok? ==> r == Raised(IndexError)
  {
    PyIndex(data, offset)
  }

  /** read_u16: `data[offset] | (data[offset + 1] << 8)`; the byte ranges are disjoint, so `|` is `+`. */
  function ReadU16(data: seq<Byte>, offset: int): (r: Outcome<int>)
    ensures r.Ok? <==> ReadU8(data, offset).Ok? && ReadU8(data, offset + 1).Ok?
    ensures r.Ok? ==> 0 <= r.value < 0x10000
    ensures r.Ok? ==> r.value % 0x100 == ReadU8(data, offset).value && r.value / 0x100 == ReadU8(data, offset + 1).value
    ensures !r.Ok? ==> r == Raised(IndexError)
  {
    match PyIndex(data, offset)
    case Raised(e) => Raised(e)
    case Ok(lo) =>
      match PyIndex(data, offset + 1)
      case Raised(e) => Raised(e)
      case Ok(hi) => Ok(lo + hi * 0x100)
  }

  /** read_u24: three bytes, least significant first. */
  function ReadU24(data: seq<Byte>, offset: int): (r: Outcome<int>)
    ensures r.Ok? <==> ReadU16(data, offset).Ok? && ReadU8(data, offset + 2).Ok?
    ensures r.Ok? ==> 0 <= r.value < 0x1000000
    ensures r.Ok? ==>
      r.value % 0x10000 == ReadU16(data, offset).value && r.value / 0x10000 == ReadU8(data, offset + 2).value
    ensures !r.Ok? ==> r == Raised(IndexError)
  {
    match PyIndex(data, offset)
    case Raised(e) => Raised(e)
    case Ok(b0) =>
      match PyIndex(data, offset + 1)
      case Raised(e) => Raised(e)
      case Ok(b1) =>
        match PyIndex(data, offset + 2)
        case Raised(e) => Raised(e)
        case Ok(b2) => Ok(b0 + b1 * 0x100 + b2 * 0x10000)
  }

  /** The ROM image load_rom returns, with the two messages it may print. */
  datatype LoadedRom = LoadedRom(data: seq<Byte>, stripped: bool, sizeWarning: bool)

  /** load_rom on the bytes of the file. */
  function Load(file: seq<Byte>): LoadedRom
  {
    var stripped := |file| % ROM_BANK_SIZE == SM_HEADER_SIZE;
    var data := if stripped then file[SM_HEADER_SIZE..] else file;
    LoadedRom(data, stripped, |data| != SM_ROM_SIZE)
  }

  /** load_rom: drop a copier header, then check the size. */
  method LoadRom(file: seq<Byte>) returns (rom: LoadedRom)
    ensures rom == Load(file)
  {
    var data := file;
    var stripped := false;
    if |data| % ROM_BANK_SIZE == SM_HEADER_SIZE {
      stripped := true;
      data := data[SM_HEADER_SIZE..];
    }
    rom := LoadedRom(data, stripped, |data| != SM_ROM_SIZE);
  }

  /** The stop test of extract_rooms' header loop. */
  predicate RoomHeaderRejected(width: int, height: int, area: int)
  {
    width == 0 || width > 15 || height == 0 || height > 15 || area > 7
  }

  /** The test extract_rooms' forward scan looks for. */
  predicate LooksLikeRoomHeader(width: int, height: int, area: int)
  {
    1 <= width <= 15 && 1 <= height <= 15 && area <= 7
  }

  /** The fields extract_rooms records for one header. */
  datatype RoomHeader = RoomHeader(offset: int, index: int, area: int, mapX: int, mapY: int,
                                   width: int, height: int, doorPtr: int)

  /** One header as extract_rooms reads it at an offset its loop allows, or None where the loop stops. */
  function ReadRoomHeader(rom: seq<Byte>, offset: int): (r: Option<RoomHeader>)
    requires 0 <= offset && offset + ROOM_HDR_SIZE <= |rom|
    ensures r.Some? <==>
      LooksLikeRoomHeader(rom[offset + ROOM_HDR_WIDTH], rom[offset + ROOM_HDR_HEIGHT], rom[offset + ROOM_HDR_AREA])
    ensures r.Some? ==>
      && r.value.offset == offset
      && Ok(r.value.index) == ReadU8(rom, offset + ROOM_HDR_INDEX)
      && Ok(r.value.area) == ReadU8(rom, offset + ROOM_HDR_AREA)
      && Ok(r.value.mapX) == ReadU8(rom, offset + ROOM_HDR_MAP_X)
      && Ok(r.value.mapY) == ReadU8(rom, offset + ROOM_HDR_MAP_Y)
      && Ok(r.value.width) == ReadU8(rom, offset + ROOM_HDR_WIDTH)
      && Ok(r.value.height) == ReadU8(rom, offset + ROOM_HDR_HEIGHT)
      && Ok(r.value.doorPtr) == ReadU16(rom, offset + ROOM_HDR_DOORLIST)
  {
    var width, height, area := rom[offset + ROOM_HDR_WIDTH], rom[offset + ROOM_HDR_HEIGHT], rom[offset + ROOM_HDR_AREA];
    if RoomHeaderRejected(width, height, area) then None
    else Some(RoomHeader(offset, rom[offset + ROOM_HDR_INDEX], area, rom[offset + ROOM_HDR_MAP_X],
      rom[offset + ROOM_HDR_MAP_Y], width, height,
      rom[offset + ROOM_HDR_DOORLIST] as int + (rom[offset + ROOM_HDR_DOORLIST + 1] as int) * 0x100))
  }

  /** `bytes(512)` and `bytes([0xFF] * 512)`. */
  function Filled(value: Byte, n: nat): (r: seq<Byte>)
    ensures |r| == n
  {
    seq(n, _ => value)
  }

  /** The validity check of extract_palettes: neither all 0x00 nor all 0xFF. */
  predicate PaletteBlockKept(block: seq<Byte>)
  {
    block != Filled(0x00, PALETTE_BLOCK) && block != Filled(0xFF, PALETTE_BLOCK)
  }

  /** The blocks extract_palettes writes, scanning from `offset` in 512-byte steps. */
  function KeptBlocks(rom: seq<Byte>, start: nat, offset: nat): seq<seq<Byte>>
    decreases start + PALETTE_SCAN - offset
  {
    if offset < start + PALETTE_SCAN && offset + PALETTE_BLOCK <= |rom| then
      var block := rom[offset..offset + PALETTE_BLOCK];
      (if PaletteBlockKept(block) then [block] else []) + KeptBlocks(rom, start, offset + PALETTE_BLOCK)
    else []
  }

  /** The scan loop of extract_palettes: the blocks written, in order (their number is the count it returns). */
  method ExtractPalettes(rom: seq<Byte>) returns (written: seq<seq<Byte>>)
    ensures written == KeptBlocks(rom, PALETTE_DATA_START, PALETTE_DATA_START)
  {
    written := ScanPalettes(rom, PALETTE_DATA_START);
  }

  /** The loop itself, from a start offset. */
  method ScanPalettes(rom: seq<Byte>, palStart: nat) returns (written: seq<seq<Byte>>)
    ensures written == KeptBlocks(rom, palStart, palStart)
  {
    written := [];
    var offset := palStart;
    while offset < palStart + PALETTE_SCAN && offset + PALETTE_BLOCK <= |rom|
      invariant palStart <= offset
      invariant KeptBlocks(rom, palStart, palStart) == written + KeptBlocks(rom, palStart, offset)
      decreases palStart + PALETTE_SCAN - offset
    {
      var palData := rom[offset..offset + PALETTE_BLOCK];
      var kept := IsPaletteBlock(palData);
      ghost var before, head := written, if kept then [palData] else [];
      ghost var rest := KeptBlocks(rom, palStart, offset + PALETTE_BLOCK);
      assert KeptBlocks(rom, palStart, offset) == head + rest;
      if kept {
        written := written + [palData];
      }
      assert written == before + head;
      Associate(before, head, rest);
      offset := offset + PALETTE_BLOCK;
    }
  }

  /** The loop's test of one block. */
  method IsPaletteBlock(palData: seq<Byte>) returns (kept: bool)
    ensures kept == PaletteBlockKept(palData)
  {
    kept := palData != Filled(0x00, PALETTE_BLOCK) && palData != Filled(0xFF, PALETTE_BLOCK);
  }

  lemma Associate<T>(a: seq<T>, b: seq<T>, c: seq<T>)
    ensures a + (b + c) == (a + b) + c
  {
  }

  // ---------------------------------------------------------------------
  // Properties
  // ---------------------------------------------------------------------

  /** read_u8 succeeds exactly on Python's valid indices. */
  lemma ReadU8Range(data: seq<Byte>, offset: int)
    ensures ReadU8(data, offset).Ok? <==> -|data| <= offset < |data|
    ensures 0 <= offset < |data| ==> ReadU8(data, offset) == Ok(data[offset] as int)
  {
  }

  /** read_u16 is little-endian, and raises IndexError once the second byte is past the end. */
  lemma ReadU16LittleEndian(data: seq<Byte>, offset: int)
    requires 0 <= offset
    ensures offset + 1 < |data| ==> ReadU16(data, offset) == Ok(data[offset] as int + (data[offset + 1] as int) * 0x100)
    ensures offset + 1 >= |data| ==> ReadU16(data, offset) == Raised(IndexError)
    ensures ReadU16(data, offset).Ok? ==> 0 <= ReadU16(data, offset).value < 0x10000
  {
  }

  /** read_u24 is little-endian: its low 16 bits are read_u16 at the same offset, its top byte the third. */
  lemma ReadU24LittleEndian(data: seq<Byte>, offset: int)
    requires 0 <= offset
    ensures offset + 2 < |data| ==>
      ReadU24(data, offset) == Ok(ReadU16(data, offset).value + (data[offset + 2] as int) * 0x10000)
    ensures offset + 2 >= |data| ==> ReadU24(data, offset) == Raised(IndexError)
    ensures ReadU24(data, offset).Ok? ==> 0 <= ReadU24(data, offset).value < 0x1000000
  {
  }

  /** Writing a 16-bit value low byte first and reading it back gives the value. */
  lemma U16RoundTrip(v: int)
    requires 0 <= v < 0x10000
    ensures ReadU16([v % 0x100, v / 0x100], 0) == Ok(v)
  {
  }

  lemma U24RoundTrip(v: int)
    requires 0 <= v < 0x1000000
    ensures ReadU24([v % 0x100, (v / 0x100) % 0x100, v / 0x10000], 0) == Ok(v)
  {
  }

  /**
   * load_rom drops exactly the first 512 bytes exactly when the length is
   * 512 past a multiple of 32 KB, which leaves a whole number of banks.
   */
  lemma HeaderStripRule(file: seq<Byte>)
    ensures Load(file).stripped <==> |file| % ROM_BANK_SIZE == SM_HEADER_SIZE
    ensures Load(file).stripped ==> Load(file).data == file[SM_HEADER_SIZE..] && |Load(file).data| % ROM_BANK_SIZE == 0
    ensures !Load(file).stripped ==> Load(file).data == file
    ensures Load(file).sizeWarning <==> |Load(file).data| != SM_ROM_SIZE
  {
  }

  /** A 3 MB ROM loads as is, and with a copier header in front it loads as the same image. */
  lemma FullRomLoadsClean(image: seq<Byte>, header: seq<Byte>)
    requires |image| == SM_ROM_SIZE && |header| == SM_HEADER_SIZE
    ensures Load(image) == LoadedRom(image, false, false)
    ensures Load(header + image) == LoadedRom(image, true, false)
  {
    assert (header + image)[SM_HEADER_SIZE..] == image;
  }

  /** The loop's stop test and the scan's search test are complements on byte values. */
  lemma RoomChecksAgree(width: Byte, height: Byte, area: Byte)
    ensures RoomHeaderRejected(width, height, area) <==> !LooksLikeRoomHeader(width, height, area)
  {
  }

  /** A header is accepted iff 1 <= width <= 15, 1 <= height <= 15 and area <= 7; its door pointer is read little-endian. */
  lemma RoomHeaderAccepted(rom: seq<Byte>, offset: int)
    requires 0 <= offset && offset + ROOM_HDR_SIZE <= |rom|
    ensures ReadRoomHeader(rom, offset).Some? <==>
      LooksLikeRoomHeader(rom[offset + ROOM_HDR_WIDTH], rom[offset + ROOM_HDR_HEIGHT], rom[offset + ROOM_HDR_AREA])
    ensures ReadRoomHeader(rom, offset).Some? ==>
      var h := ReadRoomHeader(rom, offset).value;
      && h.offset == offset && h.width == rom[offset + ROOM_HDR_WIDTH] && h.height == rom[offset + ROOM_HDR_HEIGHT]
      && h.area == rom[offset + ROOM_HDR_AREA]
      && Ok(h.doorPtr) == ReadU16(rom, offset + ROOM_HDR_DOORLIST)
  {
  }

  /** A 512-byte block is kept exactly when some byte is not 0x00 and some byte is not 0xFF. */
  lemma PaletteBlockRule(block: seq<Byte>)
    requires |block| == PALETTE_BLOCK
    ensures PaletteBlockKept(block) <==>
      (exists i :: 0 <= i < PALETTE_BLOCK && block[i] != 0x00) && (exists j :: 0 <= j < PALETTE_BLOCK && block[j] != 0xFF)
  {
    if forall i :: 0 <= i < PALETTE_BLOCK ==> block[i] == 0x00 {
      assert block == Filled(0x00, PALETTE_BLOCK);
    }
    if forall j :: 0 <= j < PALETTE_BLOCK ==> block[j] == 0xFF {
      assert block == Filled(0xFF, PALETTE_BLOCK);
    }
  }

  /** What every written file holds: one 512-byte block that passes the check. */
  predicate WrittenBlock(b: seq<Byte>)
  {
    |b| == PALETTE_BLOCK && PaletteBlockKept(b)
  }

  /** The scan writes only 512-byte blocks that pass the check. */
  lemma {:induction false} KeptBlocksValid(rom: seq<Byte>, start: nat, offset: nat)
    ensures forall i :: 0 <= i < |KeptBlocks(rom, start, offset)| ==> WrittenBlock(KeptBlocks(rom, start, offset)[i])
    decreases start + PALETTE_SCAN - offset
  {
    if offset < start + PALETTE_SCAN && offset + PALETTE_BLOCK <= |rom| {
      KeptBlocksValid(rom, start, offset + PALETTE_BLOCK);
      var block := rom[offset..offset + PALETTE_BLOCK];
      var head := if PaletteBlockKept(block) then [block] else [];
      assert forall i :: 0 <= i < |head| ==> WrittenBlock(head[i]);
      assert KeptBlocks(rom, start, offset) == head + KeptBlocks(rom, start, offset + PALETTE_BLOCK);
    }
  }

  /** At most one block per 512-byte step of the 16 KB window. */
  lemma {:induction false} KeptBlocksCount(rom: seq<Byte>, start: nat, k: nat)
    requires k <= PALETTE_SCAN / PALETTE_BLOCK
    ensures |KeptBlocks(rom, start, start + PALETTE_BLOCK * k)| <= PALETTE_SCAN / PALETTE_BLOCK - k
    decreases PALETTE_SCAN / PALETTE_BLOCK - k
  {
    var offset := start + PALETTE_BLOCK * k;
    if offset < start + PALETTE_SCAN && offset + PALETTE_BLOCK <= |rom| {
      KeptBlocksCount(rom, start, k + 1);
      assert start + PALETTE_BLOCK * (k + 1) == offset + PALETTE_BLOCK;
    }
  }

  /** extract_palettes writes at most 32 blocks. */
  lemma AtMostThirtyTwoPalettes(rom: seq<Byte>)
    ensures |KeptBlocks(rom, PALETTE_DATA_START, PALETTE_DATA_START)| <= 32
  {
    KeptBlocksCount(rom, PALETTE_DATA_START, 0);
  }
}
