/**
 * The tilemap converter of the asset tools (tools/tilemap_converter.py):
 * each two-byte SNES BG map entry (tile number, palette, flips, priority)
 * becomes a 16-bit little-endian DS BG map entry at the same offset.
 *
 * Bytes are 8-bit vectors and entries 16-bit vectors; every field the
 * converter builds is below bit 15, so the Python integer arithmetic is
 * exact in 16 bits (EntryLayout proves it).
 */
module ToolsTilemap {
  import opened ToolsBytes

  /** The largest tile number a DS BG map entry holds (10 bits). */
  const DS_TILE_MAX: bv16 := 1023

  /** The fields of a SNES entry, from its two bytes (widened to 16 bits). */
  function TileNumber(w0: bv16, w1: bv16): bv16
  {
    ((w1 & 0x03) << 8) | w0
  }

  function HFlip(w1: bv16): bv16 { (w1 >> 6) & 1 }

  function VFlip(w1: bv16): bv16 { (w1 >> 7) & 1 }

  function PaletteNumber(w1: bv16): bv16 { (w1 >> 2) & 0x07 }

  /** The tile index after the converter's range check, which masks it to 10 bits. */
  function Checked(tile: bv16): bv16
  {
    if tile > DS_TILE_MAX then tile & 0x3FF else tile
  }

  /** The DS entry built from SNES bytes b0, b1. */
  function Entry(b0: bv8, b1: bv8): bv16
  {
    EntryOf(b0 as bv16, b1 as bv16)
  }

  function EntryOf(w0: bv16, w1: bv16): bv16
  {
    Compose(Checked(TileNumber(w0, w1)), HFlip(w1), VFlip(w1), PaletteNumber(w1))
  }

  /** `(palette << 12) | (v_flip << 11) | (h_flip << 10) | tile_index`. */
  function Compose(tile: bv16, hFlip: bv16, vFlip: bv16, palette: bv16): bv16
  {
    (palette << 12) | (vFlip << 11) | (hFlip << 10) | tile
  }

  /** The two bytes of an entry as they are written: low byte first. */
  function LowByte(e: bv16): bv8 { (e & 0xFF) as bv8 }

  function HighByte(e: bv16): bv8 { ((e >> 8) & 0xFF) as bv8 }

  /** Output byte k of an even-length map: a byte of the entry read from the same two offsets. */
  function MapByte(data: seq<bv8>, k: int): bv8
    requires |data| % 2 == 0 && 0 <= k < |data|
  {
    if k % 2 == 0 then LowByte(Entry(data[k], data[k + 1])) else HighByte(Entry(data[k - 1], data[k]))
  }

  /** snes_tilemap_to_ds_bgmap: ValueError on an odd length, else one DS entry per SNES entry. */
  function BgMap(data: seq<bv8>): (r: Outcome<seq<bv8>>)
    ensures r.Ok? ==> |r.value| == |data|
  {
    if |data| % 2 != 0 then Raised(ValueError)
    else Ok(seq(|data|, k requires 0 <= k < |data| => MapByte(data, k)))
  }

  /** The preallocated buffer once the bytes below n are written: target bytes, then zeros. */
  function Written(target: seq<bv8>, n: int): (r: seq<bv8>)
    ensures |r| == |target|
  {
    seq(|target|, k requires 0 <= k < |target| => if k < n then target[k] else 0)
  }

  /** snes_tilemap_to_ds_bgmap: a loop over the entries writing two bytes each into a zeroed buffer. */
  method SnesTilemapToDsBgmap(data: seq<bv8>) returns (r: Outcome<seq<bv8>>)
    ensures r == BgMap(data)
  {
    if |data| % 2 != 0 {
      return Raised(ValueError);
    }
    ghost var target := BgMap(data).value;
    var entryCount := |data| / 2;
    var dsData := new bv8[|data|](_ => 0);
    assert dsData[..] == Written(target, 0);
    for i := 0 to entryCount
      invariant dsData[..] == Written(target, 2 * i)
    {
      var offset := i * 2;
      var dsEntry := ConvertEntry(data[offset], data[offset + 1]);
      MapBytesAt(data, i);
      StoreEntry(dsData, target, offset, dsEntry);
    }
    WrittenComplete(target);
    return Ok(dsData[..]);
  }

  /** The loop body's field arithmetic for one entry, range check included. */
  method ConvertEntry(byte0: bv8, byte1: bv8) returns (dsEntry: bv16)
    ensures dsEntry == Entry(byte0, byte1)
  {
    var w0, w1 := byte0 as bv16, byte1 as bv16;
    var tileIndex := ((w1 & 0x03) << 8) | w0;
    var hFlip := (w1 >> 6) & 1;
    var vFlip := (w1 >> 7) & 1;
    var palette := (w1 >> 2) & 0x07;
    if tileIndex > DS_TILE_MAX {
      tileIndex := tileIndex & 0x3FF;
    }
    dsEntry := (palette << 12) | (vFlip << 11) | (hFlip << 10) | tileIndex;
  }

  /** Writing entry e at offset: its low byte at offset, its high byte right after. */
  method StoreEntry(out: array<bv8>, ghost target: seq<bv8>, offset: int, e: bv16)
    requires out.Length == |target| && 0 <= offset && offset + 1 < |target|
    requires target[offset] == LowByte(e) && target[offset + 1] == HighByte(e)
    requires out[..] == Written(target, offset)
    modifies out
    ensures out[..] == Written(target, offset + 2)
  {
    out[offset] := (e & 0xFF) as bv8;
    out[offset + 1] := ((e >> 8) & 0xFF) as bv8;
  }

  // ---------------------------------------------------------------------
  // Helpers
  // ---------------------------------------------------------------------

  /** The two output bytes of entry i are those of the entry built from input bytes 2i and 2i + 1. */
  lemma MapBytesAt(data: seq<bv8>, i: int)
    requires |data| % 2 == 0 && 0 <= i < |data| / 2
    ensures BgMap(data).Ok? && |BgMap(data).value| == |data|
    ensures BgMap(data).value[2 * i] == LowByte(Entry(data[2 * i], data[2 * i + 1]))
    ensures BgMap(data).value[2 * i + 1] == HighByte(Entry(data[2 * i], data[2 * i + 1]))
  {
    assert (2 * i) % 2 == 0 && (2 * i + 1) % 2 == 1;
  }

  /** A byte widened to 16 bits stays below 256, and masking commutes with widening. */
  lemma Widened(b: bv8)
    ensures (b as bv16) < 256
    ensures (b & 0xDF) as bv16 == (b as bv16) & 0xDF
  {
  }

  lemma WrittenComplete(target: seq<bv8>)
    ensures Written(target, |target|) == target
  {
  }

  /** The bytes of one entry, read back little-endian. */
  lemma BytesReadBack(e: bv16)
    ensures (LowByte(e) as bv16) | ((HighByte(e) as bv16) << 8) == e
  {
  }

  // ---------------------------------------------------------------------
  // Properties
  // ---------------------------------------------------------------------

  /** The converter raises exactly on an odd length, and otherwise keeps the length. */
  lemma OddLengthRaises(data: seq<bv8>)
    ensures BgMap(data) == Raised(ValueError) <==> |data| % 2 != 0
    ensures BgMap(data).Ok? ==> |BgMap(data).value| == |data|
  {
  }

  /** A SNES tile number has 10 bits, so the range check never changes it. */
  lemma TileNumberFits(b0: bv8, b1: bv8)
    ensures TileNumber(b0 as bv16, b1 as bv16) <= DS_TILE_MAX
    ensures Checked(TileNumber(b0 as bv16, b1 as bv16)) == TileNumber(b0 as bv16, b1 as bv16)
  {
    Widened(b0);
    Widened(b1);
  }

  /**
   * Where each field lands: tile number in bits 0-9, H-flip (bit 6 of the
   * second byte) in bit 10, V-flip (bit 7) in bit 11, palette (bits 4-2) in
   * bits 12-14, and bit 15 is always clear.
   */
  lemma EntryLayout(b0: bv8, b1: bv8)
    ensures Entry(b0, b1) & 0x3FF == (((b1 as bv16) & 0x03) << 8) | (b0 as bv16)
    ensures (Entry(b0, b1) >> 10) & 1 == ((b1 as bv16) >> 6) & 1
    ensures (Entry(b0, b1) >> 11) & 1 == ((b1 as bv16) >> 7) & 1
    ensures (Entry(b0, b1) >> 12) & 0x7 == ((b1 as bv16) >> 2) & 0x07
    ensures Entry(b0, b1) >> 15 == 0
  {
    Widened(b0);
    Widened(b1);
  }

  /** The SNES bytes an entry came from, with the priority bit (which the DS entry has no room for) clear. */
  function SnesBytes(e: bv16): (bv8, bv8)
  {
    ((e & 0xFF) as bv8,
     ((((e >> 11) & 1) << 7) | (((e >> 10) & 1) << 6) | (((e >> 12) & 0x7) << 2) | ((e >> 8) & 0x3)) as bv8)
  }

  /** Every field but the priority bit survives: decoding an entry gives the bytes back with bit 5 cleared. */
  lemma EntryKeepsAllButPriority(b0: bv8, b1: bv8)
    ensures SnesBytes(Entry(b0, b1)) == (b0, b1 & 0xDF)
  {
    EntryLayout(b0, b1);
  }

  /** Two entries convert alike exactly when they differ at most in their priority bit. */
  lemma PriorityIsDropped(b0: bv8, b1: bv8, c0: bv8, c1: bv8)
    ensures Entry(b0, b1) == Entry(c0, c1) <==> b0 == c0 && b1 & 0xDF == c1 & 0xDF
  {
    EntryKeepsAllButPriority(b0, b1);
    EntryKeepsAllButPriority(c0, c1);
    if b0 == c0 && b1 & 0xDF == c1 & 0xDF {
      PriorityBitIgnored(b0, b1);
      PriorityBitIgnored(c0, c1);
    }
  }

  lemma PriorityBitIgnored(b0: bv8, b1: bv8)
    ensures Entry(b0, b1) == Entry(b0, b1 & 0xDF)
  {
    Widened(b0);
    Widened(b1);
    EntryOfIgnoresPriority(b0 as bv16, b1 as bv16);
  }

  lemma EntryOfIgnoresPriority(w0: bv16, w1: bv16)
    requires w0 < 256 && w1 < 256
    ensures EntryOf(w0, w1) == EntryOf(w0, w1 & 0xDF)
  {
    assert TileNumber(w0, w1) == TileNumber(w0, w1 & 0xDF);
    assert HFlip(w1) == HFlip(w1 & 0xDF);
    assert VFlip(w1) == VFlip(w1 & 0xDF);
    assert PaletteNumber(w1) == PaletteNumber(w1 & 0xDF);
  }

  /** Each entry is written little-endian at the offset it was read from. */
  lemma EntryWrittenInPlace(data: seq<bv8>, i: int)
    requires |data| % 2 == 0 && 0 <= i < |data| / 2
    ensures BgMap(data).Ok? && |BgMap(data).value| == |data|
    ensures (BgMap(data).value[2 * i] as bv16) | ((BgMap(data).value[2 * i + 1] as bv16) << 8)
      == Entry(data[2 * i], data[2 * i + 1])
  {
    MapBytesAt(data, i);
    BytesReadBack(Entry(data[2 * i], data[2 * i + 1]));
  }
}
