/**
 * The tile converter of the asset tools (tools/tile_converter.py): an 8x8
 * tile of four bit planes (32 bytes) becomes a DS 4bpp tile, two pixels per
 * byte with the even pixel in the low nibble.
 *
 * Bytes are 8-bit vectors, so the converter's shifts, masks and ORs are
 * written as they are in Python.
 */
module ToolsTiles {
  import opened ToolsBytes

  const SNES_TILE_BYTES: int := 32
  const DS_TILE_BYTES: int := 32
  const TILE_PIXELS: int := 64

  /**
   * Where the bits of plane k of pixel row y are stored. RowPlanes is the
   * layout the converter reads (byte y + 8k); Interleaved is the SNES 4bpp
   * layout its documentation names (planes 0 and 1 of row y in bytes 2y and
   * 2y + 1, planes 2 and 3 sixteen bytes further on).
   */
  datatype Layout = RowPlanes | Interleaved

  function PlaneByte(l: Layout, y: int, k: int): int
  {
    match l
    case RowPlanes => y + 8 * k
    case Interleaved => 16 * (k / 2) + 2 * y + k % 2
  }

  /** The row and plane stored in byte b: the inverse of PlaneByte. */
  function PlaneOf(l: Layout, b: int): (int, int)
  {
    match l
    case RowPlanes => (b % 8, b / 8)
    case Interleaved => ((b % 16) / 2, 2 * (b / 16) + b % 2)
  }

  /** `(b >> p) & 1`, for the bit positions of a byte. */
  function Bit(b: bv8, p: int): (r: bv8)
    requires 0 <= p < 8
    ensures r <= 1
  {
    (b >> p) & 1
  }

  /** Four plane bits combined into a colour index, bit k from plane k. */
  function Combine(b0: bv8, b1: bv8, b2: bv8, b3: bv8): bv8
  {
    (b3 << 3) | (b2 << 2) | (b1 << 1) | b0
  }

  /** Pixel (x, y): bit k is bit 7 - x of the byte holding plane k of row y. */
  function Pixel(l: Layout, t: seq<bv8>, y: int, x: int): (p: bv8)
    requires |t| == SNES_TILE_BYTES && 0 <= y < 8 && 0 <= x < 8
    ensures p < 16
  {
    Combine(Bit(t[PlaneByte(l, y, 0)], 7 - x), Bit(t[PlaneByte(l, y, 1)], 7 - x),
      Bit(t[PlaneByte(l, y, 2)], 7 - x), Bit(t[PlaneByte(l, y, 3)], 7 - x))
  }

  /** The 64 pixels of a tile, row by row: pixel i is (i % 8, i / 8). */
  function Pixels(l: Layout, t: seq<bv8>): (px: seq<bv8>)
    requires |t| == SNES_TILE_BYTES
    ensures |px| == TILE_PIXELS && forall i :: 0 <= i < TILE_PIXELS ==> px[i] < 16
  {
    seq(TILE_PIXELS, i requires 0 <= i < TILE_PIXELS => Pixel(l, t, i / 8, i % 8))
  }

  /** Two pixels in one byte: the first in the low nibble, the second in the high one. */
  function Nibbles(low: bv8, high: bv8): bv8
  {
    (low & 0xF) | ((high & 0xF) << 4)
  }

  function Pack(px: seq<bv8>): (r: seq<bv8>)
    requires |px| == TILE_PIXELS
    ensures |r| == DS_TILE_BYTES
  {
    seq(DS_TILE_BYTES, j requires 0 <= j < DS_TILE_BYTES => Nibbles(px[2 * j], px[2 * j + 1]))
  }

  function DsTile(l: Layout, t: seq<bv8>): seq<bv8>
    requires |t| == SNES_TILE_BYTES
  {
    Pack(Pixels(l, t))
  }

  /** The buffer after the first n pixels are stored: whole bytes, then a low nibble alone, then zeros. */
  function Partial(px: seq<bv8>, n: int): (r: seq<bv8>)
    requires |px| == TILE_PIXELS
    ensures |r| == DS_TILE_BYTES
  {
    seq(DS_TILE_BYTES, j requires 0 <= j < DS_TILE_BYTES =>
      if 2 * j + 1 < n then Nibbles(px[2 * j], px[2 * j + 1]) else if 2 * j < n then px[2 * j] & 0xF else 0)
  }

  /** snes_4bpp_to_4bpp_dsi_tile, or the result it would have with the given layout. */
  function TileOutcome(l: Layout, t: seq<bv8>): Outcome<seq<bv8>>
  {
    if |t| != SNES_TILE_BYTES then Raised(ValueError) else Ok(DsTile(l, t))
  }

  /** snes_4bpp_to_4bpp_dsi_tile, as written. */
  method ConvertTile(t: seq<bv8>) returns (r: Outcome<seq<bv8>>)
    ensures r == TileOutcome(RowPlanes, t)
  {
    r := ConvertTileIn(RowPlanes, t);
  }

  /** snes_4bpp_to_4bpp_dsi_tile reading the SNES interleaved layout its documentation names. */
  method ConvertTileCorrected(t: seq<bv8>) returns (r: Outcome<seq<bv8>>)
    ensures r == TileOutcome(Interleaved, t)
  {
    r := ConvertTileIn(Interleaved, t);
  }

  /** The nested pixel loops over a 32-byte buffer, reading the planes as `l` places them. */
  method ConvertTileIn(l: Layout, t: seq<bv8>) returns (r: Outcome<seq<bv8>>)
    ensures r == TileOutcome(l, t)
  {
    if |t| != SNES_TILE_BYTES {
      return Raised(ValueError);
    }
    ghost var px := Pixels(l, t);
    var out := new bv8[DS_TILE_BYTES](_ => 0);
    assert out[..] == Partial(px, 0);
    for y := 0 to 8
      invariant out[..] == Partial(px, 8 * y)
    {
      ConvertRow(out, l, t, px, y);
    }
    PartialComplete(px);
    return Ok(out[..]);
  }

  /** The inner loop: the eight pixels of row y, left to right. */
  method ConvertRow(out: array<bv8>, l: Layout, t: seq<bv8>, ghost px: seq<bv8>, y: int)
    requires out.Length == DS_TILE_BYTES && |t| == SNES_TILE_BYTES && px == Pixels(l, t)
    requires 0 <= y < 8 && out[..] == Partial(px, 8 * y)
    modifies out
    ensures out[..] == Partial(px, 8 * y + 8)
  {
    for x := 0 to 8
      invariant out[..] == Partial(px, 8 * y + x)
    {
      PixelsAt(l, t, y, x);
      ConvertPixel(out, l, t, px, y, x);
    }
  }

  /** Once all 64 pixels are stored the buffer is the packed tile. */
  lemma PartialComplete(px: seq<bv8>)
    requires |px| == TILE_PIXELS
    ensures Partial(px, TILE_PIXELS) == Pack(px)
  {
  }

  /** The body of the inner loop: pixel (x, y) computed and stored. */
  method ConvertPixel(out: array<bv8>, l: Layout, t: seq<bv8>, ghost px: seq<bv8>, y: int, x: int)
    requires out.Length == DS_TILE_BYTES && |t| == SNES_TILE_BYTES && |px| == TILE_PIXELS
    requires 0 <= y < 8 && 0 <= x < 8 && px[8 * y + x] == Pixel(l, t, y, x)
    requires out[..] == Partial(px, 8 * y + x)
    modifies out
    ensures out[..] == Partial(px, 8 * y + x + 1)
  {
    var pixel := PixelValue(l, t, y, x);
    StorePixel(out, px, 8 * y + x, pixel);
  }

  lemma PixelsAt(l: Layout, t: seq<bv8>, y: int, x: int)
    requires |t| == SNES_TILE_BYTES && 0 <= y < 8 && 0 <= x < 8
    ensures Pixels(l, t)[8 * y + x] == Pixel(l, t, y, x)
  {
    assert (8 * y + x) / 8 == y && (8 * y + x) % 8 == x;
  }

  /** The four plane bits of pixel (x, y), ORed together. */
  method PixelValue(l: Layout, t: seq<bv8>, y: int, x: int) returns (pixel: bv8)
    requires |t| == SNES_TILE_BYTES && 0 <= y < 8 && 0 <= x < 8
    ensures pixel == Pixel(l, t, y, x)
  {
    var bitPos := 7 - x;
    var b0 := Bit(t[PlaneByte(l, y, 0)], bitPos);
    var b1 := Bit(t[PlaneByte(l, y, 1)], bitPos);
    var b2 := Bit(t[PlaneByte(l, y, 2)], bitPos);
    var b3 := Bit(t[PlaneByte(l, y, 3)], bitPos);
    pixel := (b3 << 3) | (b2 << 2) | (b1 << 1) | b0;
    assert pixel == Combine(b0, b1, b2, b3);
  }

  /** Pixel n into the buffer: an even pixel sets the low nibble, an odd one ORs in the high nibble. */
  method StorePixel(out: array<bv8>, ghost px: seq<bv8>, n: int, pixel: bv8)
    requires out.Length == DS_TILE_BYTES && |px| == TILE_PIXELS && 0 <= n < TILE_PIXELS
    requires pixel == px[n] && out[..] == Partial(px, n)
    modifies out
    ensures out[..] == Partial(px, n + 1)
  {
    PartialStep(px, n);
    if n % 2 == 0 {
      out[n / 2] := pixel & 0xF;
    } else {
      out[n / 2] := out[n / 2] | ((pixel & 0xF) << 4);
    }
  }

  /** Storing pixel n changes byte n / 2 of the buffer and nothing else. */
  lemma PartialStep(px: seq<bv8>, n: int)
    requires |px| == TILE_PIXELS && 0 <= n < TILE_PIXELS
    ensures n % 2 == 0 ==> Partial(px, n + 1) == Partial(px, n)[n / 2 := px[n] & 0xF]
    ensures n % 2 == 1 ==> Partial(px, n)[n / 2] == px[n - 1] & 0xF
    ensures n % 2 == 1 ==> Partial(px, n + 1) == Partial(px, n)[n / 2 := Nibbles(px[n - 1], px[n])]
  {
  }

  /** The chunks of a loop over `range(i, len, tile_size)`: full ones converted, a trailing partial one skipped. */
  function TilesFrom(data: seq<bv8>, tileSize: int, i: nat): Outcome<seq<bv8>>
    requires tileSize > 0
    decreases |data| - i
  {
    if i >= |data| then Ok([])
    else if i + tileSize > |data| then TilesFrom(data, tileSize, i + tileSize)
    else match TileOutcome(RowPlanes, data[i..i + tileSize])
      case Raised(e) => Raised(e)
      case Ok(tile) =>
        match TilesFrom(data, tileSize, i + tileSize)
        case Raised(e) => Raised(e)
        case Ok(rest) => Ok(tile + rest)
  }

  /** The conversion loop of convert_tiles_from_file, on the bytes read. */
  function Tiles(data: seq<bv8>, tileSize: int): Outcome<seq<bv8>>
  {
    if tileSize == 0 then Raised(ValueError)
    else if tileSize < 0 then Ok([])
    else TilesFrom(data, tileSize, 0)
  }

  /** What is left of the loop from offset i on, after `done` has been produced. */
  function After(done: seq<bv8>, rest: Outcome<seq<bv8>>): Outcome<seq<bv8>>
  {
    match rest
    case Raised(e) => Raised(e)
    case Ok(s) => Ok(done + s)
  }

  /**
   * The loop of convert_tiles_from_file over `range(0, len, tile_size)`: a
   * zero step raises ValueError, a negative one runs no iteration.
   */
  method ConvertTiles(data: seq<bv8>, tileSize: int) returns (r: Outcome<seq<bv8>>)
    ensures r == Tiles(data, tileSize)
  {
    if tileSize == 0 {
      return Raised(ValueError);
    }
    var dsData: seq<bv8> := [];
    if tileSize < 0 {
      return Ok(dsData);
    }
    var i := 0;
    AfterNothing(TilesFrom(data, tileSize, 0));
    while i < |data|
      invariant TilesFrom(data, tileSize, 0) == After(dsData, TilesFrom(data, tileSize, i))
      decreases |data| - i
    {
      if i + tileSize <= |data| {
        var tile := ConvertTile(data[i..i + tileSize]);
        match tile
        case Raised(e) => return Raised(e);
        case Ok(bytes) =>
          assert TilesFrom(data, tileSize, i) == After(bytes, TilesFrom(data, tileSize, i + tileSize));
          AfterAssociates(dsData, bytes, TilesFrom(data, tileSize, i + tileSize));
          dsData := dsData + bytes;
      }
      i := i + tileSize;
    }
    assert dsData + [] == dsData;
    return Ok(dsData);
  }

  // ---------------------------------------------------------------------
  // Helpers
  // ---------------------------------------------------------------------

  lemma AfterNothing(rest: Outcome<seq<bv8>>)
    ensures After([], rest) == rest
  {
    if rest.Ok? {
      assert [] + rest.value == rest.value;
    }
  }

  lemma AfterAssociates(done: seq<bv8>, bytes: seq<bv8>, rest: Outcome<seq<bv8>>)
    ensures After(done, After(bytes, rest)) == After(done + bytes, rest)
  {
    if rest.Ok? {
      assert done + (bytes + rest.value) == (done + bytes) + rest.value;
    }
  }

  /** The bits of a combined colour index are the four plane bits. */
  lemma CombineBits(b0: bv8, b1: bv8, b2: bv8, b3: bv8)
    requires b0 <= 1 && b1 <= 1 && b2 <= 1 && b3 <= 1
    ensures var p := Combine(b0, b1, b2, b3);
      p < 16 && Bit(p, 0) == b0 && Bit(p, 1) == b1 && Bit(p, 2) == b2 && Bit(p, 3) == b3
  {
  }

  /** A colour index is the combination of its own four bits. */
  lemma CombineOwnBits(v: bv8)
    requires v < 16
    ensures Combine(Bit(v, 0), Bit(v, 1), Bit(v, 2), Bit(v, 3)) == v
  {
  }

  /** Both nibbles of a packed byte read back. */
  lemma NibblesSplit(low: bv8, high: bv8)
    requires low < 16 && high < 16
    ensures Nibbles(low, high) & 0xF == low && Nibbles(low, high) >> 4 == high
  {
  }

  // ---------------------------------------------------------------------
  // Properties
  // ---------------------------------------------------------------------

  /** Both layouts place the 32 (row, plane) pairs one-to-one onto the 32 bytes. */
  lemma LayoutIsOneToOne(l: Layout, y: int, k: int, b: int)
    requires 0 <= y < 8 && 0 <= k < 4 && 0 <= b < SNES_TILE_BYTES
    ensures 0 <= PlaneByte(l, y, k) < SNES_TILE_BYTES
    ensures PlaneOf(l, PlaneByte(l, y, k)) == (y, k)
    ensures var (y', k') := PlaneOf(l, b); 0 <= y' < 8 && 0 <= k' < 4 && PlaneByte(l, y', k') == b
  {
    PlaneByteInverse(l, y, k);
    PlaneOfInverse(l, b);
  }

  lemma PlaneByteInverse(l: Layout, y: int, k: int)
    requires 0 <= y < 8 && 0 <= k < 4
    ensures 0 <= PlaneByte(l, y, k) < SNES_TILE_BYTES
    ensures PlaneOf(l, PlaneByte(l, y, k)) == (y, k)
  {
    if l.Interleaved? {
      var b := 16 * (k / 2) + 2 * y + k % 2;
      assert b / 16 == k / 2 && b % 16 == 2 * y + k % 2;
      assert b % 2 == k % 2;
    }
  }

  lemma PlaneOfInverse(l: Layout, b: int)
    requires 0 <= b < SNES_TILE_BYTES
    ensures var (y, k) := PlaneOf(l, b); 0 <= y < 8 && 0 <= k < 4 && PlaneByte(l, y, k) == b
  {
    if l.Interleaved? {
      var y, k := (b % 16) / 2, 2 * (b / 16) + b % 2;
      assert k / 2 == b / 16 && k % 2 == b % 2;
    }
  }

  /** Bit k of a converted pixel is bit 7 - x of the plane-k byte of row y, and nothing is above bit 3. */
  lemma PixelBits(l: Layout, t: seq<bv8>, y: int, x: int)
    requires |t| == SNES_TILE_BYTES && 0 <= y < 8 && 0 <= x < 8
    ensures var p := Pixel(l, t, y, x);
      && p < 16
      && Bit(p, 0) == Bit(t[PlaneByte(l, y, 0)], 7 - x)
      && Bit(p, 1) == Bit(t[PlaneByte(l, y, 1)], 7 - x)
      && Bit(p, 2) == Bit(t[PlaneByte(l, y, 2)], 7 - x)
      && Bit(p, 3) == Bit(t[PlaneByte(l, y, 3)], 7 - x)
  {
    CombineBits(Bit(t[PlaneByte(l, y, 0)], 7 - x), Bit(t[PlaneByte(l, y, 1)], 7 - x),
      Bit(t[PlaneByte(l, y, 2)], 7 - x), Bit(t[PlaneByte(l, y, 3)], 7 - x));
  }

  /** The output is 32 bytes, and reading its nibbles back gives the 64 pixels: pixel 2j low, 2j + 1 high. */
  lemma NibblesReadBack(l: Layout, t: seq<bv8>, j: int)
    requires |t| == SNES_TILE_BYTES && 0 <= j < DS_TILE_BYTES
    ensures |DsTile(l, t)| == DS_TILE_BYTES
    ensures DsTile(l, t)[j] & 0xF == Pixels(l, t)[2 * j]
    ensures DsTile(l, t)[j] >> 4 == Pixels(l, t)[2 * j + 1]
  {
    PackReadBack(Pixels(l, t), j);
  }

  /** Byte j of a packed tile holds pixel 2j in its low nibble and pixel 2j + 1 in its high one. */
  lemma PackReadBack(px: seq<bv8>, j: int)
    requires |px| == TILE_PIXELS && forall i :: 0 <= i < TILE_PIXELS ==> px[i] < 16
    requires 0 <= j < DS_TILE_BYTES
    ensures Pack(px)[j] & 0xF == px[2 * j] && Pack(px)[j] >> 4 == px[2 * j + 1]
  {
    NibblesSplit(px[2 * j], px[2 * j + 1]);
  }

  /** The eight bits of a pixel row packed into a byte, the leftmost pixel in bit 7. */
  function RowByte(c: seq<bv8>): bv8
    requires |c| == 8
  {
    (c[0] << 7) | (c[1] << 6) | (c[2] << 5) | (c[3] << 4) | (c[4] << 3) | (c[5] << 2) | (c[6] << 1) | c[7]
  }

  /** Plane k of pixel row y of 64 pixels. */
  function PlaneRow(pixels: seq<bv8>, y: int, k: int): (c: seq<bv8>)
    requires |pixels| == TILE_PIXELS && 0 <= y < 8 && 0 <= k < 4
    ensures |c| == 8 && forall x :: 0 <= x < 8 ==> c[x] <= 1
  {
    var c := seq(8, x requires 0 <= x < 8 => Bit(pixels[8 * y + x], k));
    assert forall x :: 0 <= x < 8 ==> c[x] == Bit(pixels[8 * y + x], k);
    c
  }

  /** Planar encoding of 64 pixels in the given layout: what the converter is meant to undo. */
  function Planes(l: Layout, pixels: seq<bv8>): (t: seq<bv8>)
    requires |pixels| == TILE_PIXELS
    ensures |t| == SNES_TILE_BYTES
  {
    seq(SNES_TILE_BYTES, b requires 0 <= b < SNES_TILE_BYTES =>
      var yk := PlaneOf(l, b);
      LayoutIsOneToOne(l, 0, 0, b);
      RowByte(PlaneRow(pixels, yk.0, yk.1)))
  }

  lemma RowBits(c0: bv8, c1: bv8, c2: bv8, c3: bv8, c4: bv8, c5: bv8, c6: bv8, c7: bv8)
    requires c0 <= 1 && c1 <= 1 && c2 <= 1 && c3 <= 1 && c4 <= 1 && c5 <= 1 && c6 <= 1 && c7 <= 1
    ensures var b := RowByte([c0, c1, c2, c3, c4, c5, c6, c7]);
      && Bit(b, 7) == c0 && Bit(b, 6) == c1 && Bit(b, 5) == c2 && Bit(b, 4) == c3
      && Bit(b, 3) == c4 && Bit(b, 2) == c5 && Bit(b, 1) == c6 && Bit(b, 0) == c7
  {
  }

  lemma RowByteBits(c: seq<bv8>, x: int)
    requires |c| == 8 && forall x :: 0 <= x < 8 ==> c[x] <= 1
    requires 0 <= x < 8
    ensures Bit(RowByte(c), 7 - x) == c[x]
  {
    assert c == [c[0], c[1], c[2], c[3], c[4], c[5], c[6], c[7]];
    RowBits(c[0], c[1], c[2], c[3], c[4], c[5], c[6], c[7]);
  }

  /** Bit k of pixel (x, y) of an encoding, read where the layout stores it, is bit k of the pixel. */
  lemma PlaneBitOfEncoding(l: Layout, pixels: seq<bv8>, y: int, x: int, k: int)
    requires |pixels| == TILE_PIXELS
    requires 0 <= y < 8 && 0 <= x < 8 && 0 <= k < 4
    ensures 0 <= PlaneByte(l, y, k) < SNES_TILE_BYTES
    ensures Bit(Planes(l, pixels)[PlaneByte(l, y, k)], 7 - x) == Bit(pixels[8 * y + x], k)
  {
    LayoutIsOneToOne(l, y, k, 0);
    var c := PlaneRow(pixels, y, k);
    assert Planes(l, pixels)[PlaneByte(l, y, k)] == RowByte(c);
    RowByteBits(c, x);
    assert c[x] == Bit(pixels[8 * y + x], k);
  }

  /**
   * The converter inverts the planar encoding in the layout it reads: in
   * either layout, converting an encoded tile gives back every pixel.
   */
  lemma DecodeInvertsPlanes(l: Layout, pixels: seq<bv8>, i: int)
    requires |pixels| == TILE_PIXELS && forall i :: 0 <= i < TILE_PIXELS ==> pixels[i] < 16
    requires 0 <= i < TILE_PIXELS
    ensures Pixels(l, Planes(l, pixels))[i] == pixels[i]
  {
    var y, x := i / 8, i % 8;
    assert Pixels(l, Planes(l, pixels))[i] == Pixel(l, Planes(l, pixels), y, x);
    assert 8 * y + x == i;
    PlaneBitOfEncoding(l, pixels, y, x, 0);
    PlaneBitOfEncoding(l, pixels, y, x, 1);
    PlaneBitOfEncoding(l, pixels, y, x, 2);
    PlaneBitOfEncoding(l, pixels, y, x, 3);
    CombineOwnBits(pixels[i]);
  }

  /** With the SNES layout, converting the SNES encoding of any tile gives back its pixels, packed in order. */
  lemma InterleavedRoundTrip(pixels: seq<bv8>)
    requires |pixels| == TILE_PIXELS && forall i :: 0 <= i < TILE_PIXELS ==> pixels[i] < 16
    ensures Pixels(Interleaved, Planes(Interleaved, pixels)) == pixels
    ensures DsTile(Interleaved, Planes(Interleaved, pixels)) == Pack(pixels)
  {
    var t := Planes(Interleaved, pixels);
    forall i | 0 <= i < TILE_PIXELS
      ensures Pixels(Interleaved, t)[i] == pixels[i]
    {
      DecodeInvertsPlanes(Interleaved, pixels, i);
    }
  }

  /**
   * Read as written, an SNES-layout tile is scrambled: byte 1 holds plane 1
   * of row 0, which the converter reads as plane 0 of row 1, so the low bit
   * of pixel 8 is the second bit of pixel 0.
   */
  lemma RowPlanesReadsPlaneOneAsRowOne(pixels: seq<bv8>)
    requires |pixels| == TILE_PIXELS
    ensures Bit(Pixels(RowPlanes, Planes(Interleaved, pixels))[8], 0) == Bit(pixels[0], 1)
  {
    var t := Planes(Interleaved, pixels);
    assert Pixels(RowPlanes, t)[8] == Pixel(RowPlanes, t, 1, 0);
    PixelBits(RowPlanes, t, 1, 0);
    PlaneBitOfEncoding(Interleaved, pixels, 0, 0, 1);
  }

  /** A tile whose only set pixel is pixel 0, with colour 2 (plane 1 alone). */
  function PlaneOnePixel(): (pixels: seq<bv8>)
    ensures |pixels| == TILE_PIXELS && forall i :: 0 <= i < TILE_PIXELS ==> pixels[i] < 16
  {
    seq(TILE_PIXELS, i => if i == 0 then 2 else 0)
  }

  /** So converting the SNES encoding of that tile as written colours pixel 8, which is blank. */
  lemma RowPlanesMisreadsSnesTiles()
    ensures PlaneOnePixel()[8] == 0
    ensures Pixels(RowPlanes, Planes(Interleaved, PlaneOnePixel()))[8] != 0
  {
    RowPlanesReadsPlaneOneAsRowOne(PlaneOnePixel());
  }

  /** The full 32-byte chunks from offset i on, each converted as written. */
  function WholeTiles(data: seq<bv8>, i: nat): seq<bv8>
    decreases |data| - i
  {
    if i + SNES_TILE_BYTES > |data| then []
    else DsTile(RowPlanes, data[i..i + SNES_TILE_BYTES]) + WholeTiles(data, i + SNES_TILE_BYTES)
  }

  /** With 32-byte tiles the loop never raises: it yields the whole tiles and skips a partial one. */
  lemma {:induction false} ThirtyTwoNeverRaises(data: seq<bv8>, i: nat)
    ensures TilesFrom(data, SNES_TILE_BYTES, i) == Ok(WholeTiles(data, i))
    decreases |data| - i
  {
    if i + SNES_TILE_BYTES <= |data| {
      ThirtyTwoNeverRaises(data, i + SNES_TILE_BYTES);
    } else if i < |data| {
      TilesSkipPartial(data, SNES_TILE_BYTES, i);
    }
  }

  /** The whole tiles from offset i on take DS_TILE_BYTES for each full 32-byte chunk: floor((len - i) / 32) of them. */
  lemma {:induction false} WholeTilesLength(data: seq<bv8>, i: nat)
    ensures |WholeTiles(data, i)| == if i >= |data| then 0 else DS_TILE_BYTES * ((|data| - i) / SNES_TILE_BYTES)
    decreases |data| - i
  {
    if i + SNES_TILE_BYTES <= |data| {
      WholeTilesLength(data, i + SNES_TILE_BYTES);
    }
  }

  /** Tile n of the output is converted from input bytes i + 32n to i + 32n + 32. */
  lemma WholeTileAt(data: seq<bv8>, i: nat, n: nat)
    requires i + SNES_TILE_BYTES * (n + 1) <= |data|
    ensures DS_TILE_BYTES * (n + 1) <= |WholeTiles(data, i)|
    ensures WholeTiles(data, i)[DS_TILE_BYTES * n..DS_TILE_BYTES * (n + 1)]
      == DsTile(RowPlanes, data[i + SNES_TILE_BYTES * n..i + SNES_TILE_BYTES * (n + 1)])
  {
    WholeTilesMapChunks(data, i);
    MapChunksAt(ConvertChunk, data, i, n);
  }

  /** One chunk as the loop converts it; only full chunks reach it. */
  function ConvertChunk(s: seq<bv8>): (r: seq<bv8>)
    ensures |s| == SNES_TILE_BYTES ==> |r| == DS_TILE_BYTES
  {
    if |s| == SNES_TILE_BYTES then DsTile(RowPlanes, s) else []
  }

  /** Any chunk conversion applied to the full 32-byte chunks from offset i on, outputs concatenated. */
  function MapChunks(f: seq<bv8> -> seq<bv8>, data: seq<bv8>, i: nat): seq<bv8>
    decreases |data| - i
  {
    if i + SNES_TILE_BYTES > |data| then []
    else f(data[i..i + SNES_TILE_BYTES]) + MapChunks(f, data, i + SNES_TILE_BYTES)
  }

  lemma {:induction false} WholeTilesMapChunks(data: seq<bv8>, i: nat)
    ensures WholeTiles(data, i) == MapChunks(ConvertChunk, data, i)
    decreases |data| - i
  {
    if i + SNES_TILE_BYTES <= |data| {
      WholeTilesMapChunks(data, i + SNES_TILE_BYTES);
    }
  }

  /** With a conversion that maps 32 bytes to 32 bytes, output chunk n is the conversion of input chunk n. */
  lemma {:induction false} MapChunksAt(f: seq<bv8> -> seq<bv8>, data: seq<bv8>, i: nat, n: nat)
    requires forall s: seq<bv8> :: |s| == SNES_TILE_BYTES ==> |f(s)| == DS_TILE_BYTES
    requires i + SNES_TILE_BYTES * (n + 1) <= |data|
    ensures DS_TILE_BYTES * (n + 1) <= |MapChunks(f, data, i)|
    ensures MapChunks(f, data, i)[DS_TILE_BYTES * n..DS_TILE_BYTES * (n + 1)]
      == f(data[i + SNES_TILE_BYTES * n..i + SNES_TILE_BYTES * (n + 1)])
    decreases n
  {
    var tile := f(data[i..i + SNES_TILE_BYTES]);
    var rest := MapChunks(f, data, i + SNES_TILE_BYTES);
    assert MapChunks(f, data, i) == tile + rest;
    if n == 0 {
      ChunkSlices(tile, rest, 0);
    } else {
      var j, m := i + SNES_TILE_BYTES, n - 1;
      MapChunksAt(f, data, j, m);
      assert j + SNES_TILE_BYTES * m == i + SNES_TILE_BYTES * n;
      assert j + SNES_TILE_BYTES * (m + 1) == i + SNES_TILE_BYTES * (n + 1);
      ChunkSlices(tile, rest, n);
    }
  }

  /** Slicing past a leading 32-byte chunk. */
  lemma ChunkSlices(tile: seq<bv8>, rest: seq<bv8>, n: nat)
    requires |tile| == DS_TILE_BYTES && (n > 0 ==> DS_TILE_BYTES * n <= |rest|)
    ensures n == 0 ==> (tile + rest)[0..DS_TILE_BYTES] == tile
    ensures n > 0 ==>
      (tile + rest)[DS_TILE_BYTES * n..DS_TILE_BYTES * (n + 1)] == rest[DS_TILE_BYTES * (n - 1)..DS_TILE_BYTES * n]
  {
  }

  /** A chunk start past the last full chunk contributes nothing. */
  lemma {:induction false} TilesSkipPartial(data: seq<bv8>, tileSize: int, i: nat)
    requires tileSize > 0 && i + tileSize > |data|
    ensures TilesFrom(data, tileSize, i) == Ok([])
    decreases |data| - i
  {
    if i < |data| {
      TilesSkipPartial(data, tileSize, i + tileSize);
    }
  }

  /** Any other positive tile size raises ValueError as soon as one full chunk exists, and converts nothing otherwise. */
  lemma OtherTileSizes(data: seq<bv8>, tileSize: int)
    requires tileSize > 0 && tileSize != SNES_TILE_BYTES
    ensures |data| >= tileSize ==> Tiles(data, tileSize) == Raised(ValueError)
    ensures |data| < tileSize ==> Tiles(data, tileSize) == Ok([])
  {
    if |data| < tileSize {
      TilesSkipPartial(data, tileSize, 0);
    }
  }
}
