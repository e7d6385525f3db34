/**
 * The scaffold's save system (src/game/save.c): a SaveData record kept as
 * its 544-byte little-endian object representation, with its rotate-xor
 * checksum, validation and defaults, the collection bitsets, the playtime
 * counter and text, the item percentage, and the three save files with the
 * current quick-save slot.
 *
 * The layout is the one the ARM EABI gives `SaveData` (include/save.h:15-60):
 * every field at its natural alignment, so there are two bytes of padding
 * before `equipped_items`, before `playtime_frames` and before `end_magic`,
 * and the record is 544 bytes long. The SD card is a map from slot number to the bytes last
 * written there.
 */
module ScaffoldSave {
  import opened CInt

  const SAVE_MAGIC: bv32 := 0x534D4453
  const SAVE_VERSION: bv16 := 0x0001
  const SAVE_SLOT_COUNT: int := 3

  // ---------------------------------------------------------------------
  // Layout
  // ---------------------------------------------------------------------

  const SIZE: nat := 544

  const OFF_MAGIC: nat := 0
  const OFF_VERSION: nat := 4
  const OFF_CHECKSUM: nat := 6
  const OFF_AREA: nat := 8
  const OFF_ROOM: nat := 9
  const OFF_PLAYER_X: nat := 10
  const OFF_PLAYER_Y: nat := 12
  const OFF_ENERGY: nat := 14
  const OFF_MAX_ENERGY: nat := 16
  const OFF_RESERVE_ENERGY: nat := 30
  const OFF_ITEMS: nat := 42
  const OFF_BOSSES: nat := 74
  const OFF_DOORS: nat := 82
  const OFF_MAP: nat := 146
  const OFF_PLAYTIME: nat := 404
  const OFF_PERCENT: nat := 408
  const OFF_END_MAGIC: nat := 540

  const ITEM_BYTES: nat := 32
  const BOSS_BYTES: nat := 8
  const DOOR_BYTES: nat := 64
  const MAP_BYTES: nat := 256

  /** `1 << bit` for bit = 0..7. */
  const BIT: seq<bv8> := [1, 2, 4, 8, 16, 32, 64, 128]

  function Zeros(): (z: seq<bv8>)
    ensures |z| == SIZE && forall k :: 0 <= k < SIZE ==> z[k] == 0
  {
    seq(SIZE, _ => 0)
  }

  function U16At(b: seq<bv8>, off: nat): bv16
    requires off + 2 <= |b|
  {
    (b[off] as bv16) | ((b[off + 1] as bv16) << 8)
  }

  function U32At(b: seq<bv8>, off: nat): bv32
    requires off + 4 <= |b|
  {
    (b[off] as bv32) | ((b[off + 1] as bv32) << 8)
      | ((b[off + 2] as bv32) << 16) | ((b[off + 3] as bv32) << 24)
  }

  /** A 16-bit field stored little-endian at `off`. */
  function PutU16(b: seq<bv8>, off: nat, v: bv16): (r: seq<bv8>)
    requires off + 2 <= |b|
    ensures |r| == |b|
    ensures forall k :: 0 <= k < |b| && k != off && k != off + 1 ==> r[k] == b[k]
  {
    b[off := (v & 0xFF) as bv8][off + 1 := (v >> 8) as bv8]
  }

  /** A 32-bit field stored little-endian at `off`. */
  function PutU32(b: seq<bv8>, off: nat, v: bv32): (r: seq<bv8>)
    requires off + 4 <= |b|
    ensures |r| == |b|
    ensures forall k :: 0 <= k < |b| && !(off <= k < off + 4) ==> r[k] == b[k]
  {
    b[off := (v & 0xFF) as bv8][off + 1 := ((v >> 8) & 0xFF) as bv8]
     [off + 2 := ((v >> 16) & 0xFF) as bv8][off + 3 := (v >> 24) as bv8]
  }

  lemma U16RoundTrip(b: seq<bv8>, off: nat, v: bv16)
    requires off + 2 <= |b|
    ensures U16At(PutU16(b, off, v), off) == v
  {
  }

  lemma U32RoundTrip(b: seq<bv8>, off: nat, v: bv32)
    requires off + 4 <= |b|
    ensures U32At(PutU32(b, off, v), off) == v
  {
  }

  /** Storing back the value a 16-bit field already holds changes nothing. */
  lemma PutU16Same(b: seq<bv8>, off: nat)
    requires off + 2 <= |b|
    ensures PutU16(b, off, U16At(b, off)) == b
  {
    var r := PutU16(b, off, U16At(b, off));
    assert r[off] == b[off];
    assert r[off + 1] == b[off + 1];
  }

  lemma PutU32Same(b: seq<bv8>, off: nat)
    requires off + 4 <= |b|
    ensures PutU32(b, off, U32At(b, off)) == b
  {
    BytesOfU32(b[off], b[off + 1], b[off + 2], b[off + 3]);
    var r := PutU32(b, off, U32At(b, off));
    assert r[off] == b[off] && r[off + 1] == b[off + 1];
    assert r[off + 2] == b[off + 2] && r[off + 3] == b[off + 3];
  }

  /** Splitting a little-endian 32-bit value gives back its four bytes. */
  lemma BytesOfU32(x0: bv8, x1: bv8, x2: bv8, x3: bv8)
    ensures var v := (x0 as bv32) | ((x1 as bv32) << 8) | ((x2 as bv32) << 16) | ((x3 as bv32) << 24);
      && (v & 0xFF) as bv8 == x0 && ((v >> 8) & 0xFF) as bv8 == x1
      && ((v >> 16) & 0xFF) as bv8 == x2 && (v >> 24) as bv8 == x3
  {
  }

  // ---------------------------------------------------------------------
  // Checksum and validation
  // ---------------------------------------------------------------------

  function Rotl1(c: bv16): bv16 { (c << 1) | (c >> 15) }

  /**
   * The checksum over the first n bytes: each byte outside the checksum
   * field is xored in and the sum rotated left by one.
   */
  function ChecksumOf(b: seq<bv8>, n: nat): bv16
    requires n <= |b|
  {
    if n == 0 then 0
    else if n - 1 == OFF_CHECKSUM || n - 1 == OFF_CHECKSUM + 1 then ChecksumOf(b, n - 1)
    else Rotl1(ChecksumOf(b, n - 1) ^ (b[n - 1] as bv16))
  }

  function Checksum(b: seq<bv8>): bv16
    requires |b| == SIZE
  {
    ChecksumOf(b, SIZE)
  }

  /** What save_data_validate accepts. */
  predicate IsValidSave(b: seq<bv8>)
    requires |b| == SIZE
  {
    && U32At(b, OFF_MAGIC) == SAVE_MAGIC
    && U32At(b, OFF_END_MAGIC) == SAVE_MAGIC
    && U16At(b, OFF_VERSION) <= SAVE_VERSION
    && Checksum(b) == U16At(b, OFF_CHECKSUM)
  }

  /** The checksum field itself does not take part in the checksum. */
  lemma {:induction false} ChecksumIgnoresField(b: seq<bv8>, v: bv16, n: nat)
    requires OFF_CHECKSUM + 2 <= |b| && n <= |b|
    ensures ChecksumOf(PutU16(b, OFF_CHECKSUM, v), n) == ChecksumOf(b, n)
  {
    if n > 0 {
      ChecksumIgnoresField(b, v, n - 1);
    }
  }

  lemma Rotl1Injective(x: bv16, y: bv16)
    requires x != y
    ensures Rotl1(x) != Rotl1(y)
  {
  }

  lemma {:induction false} ChecksumPrefixSame(b: seq<bv8>, i: nat, v: bv8, n: nat)
    requires i < |b| && n <= i
    ensures ChecksumOf(b[i := v], n) == ChecksumOf(b, n)
  {
    if n > 0 {
      ChecksumPrefixSame(b, i, v, n - 1);
    }
  }

  /** One checksum step from equal sums over different bytes gives different sums. */
  lemma StepSeparates(x: bv16, k: bv8, l: bv8)
    requires k != l
    ensures Rotl1(x ^ (k as bv16)) != Rotl1(x ^ (l as bv16))
  {
  }

  /** One checksum step over the same byte keeps different sums different. */
  lemma StepKeepsApart(x: bv16, y: bv16, k: bv8)
    requires x != y
    ensures Rotl1(x ^ (k as bv16)) != Rotl1(y ^ (k as bv16))
  {
  }

  lemma {:induction false} ChecksumSuffixDiffers(b: seq<bv8>, i: nat, v: bv8, n: nat)
    requires i < n <= |b| && i != OFF_CHECKSUM && i != OFF_CHECKSUM + 1 && v != b[i]
    ensures ChecksumOf(b[i := v], n) != ChecksumOf(b, n)
  {
    var b' := b[i := v];
    if n - 1 == i {
      ChecksumPrefixSame(b, i, v, i);
      StepSeparates(ChecksumOf(b, i), v, b[i]);
    } else {
      ChecksumSuffixDiffers(b, i, v, n - 1);
      var x, y := ChecksumOf(b', n - 1), ChecksumOf(b, n - 1);
      if n - 1 != OFF_CHECKSUM && n - 1 != OFF_CHECKSUM + 1 {
        assert b'[n - 1] == b[n - 1];
        StepKeepsApart(x, y, b[n - 1]);
      }
    }
  }

  /** Changing any one byte outside the checksum field changes the checksum. */
  lemma ChecksumDetectsByteChange(b: seq<bv8>, i: nat, v: bv8)
    requires |b| == SIZE && i < SIZE && i != OFF_CHECKSUM && i != OFF_CHECKSUM + 1 && v != b[i]
    ensures Checksum(b[i := v]) != Checksum(b)
  {
    ChecksumSuffixDiffers(b, i, v, SIZE);
  }

  /** A valid record with one byte outside the checksum field corrupted no longer validates. */
  lemma CorruptedByteRejected(b: seq<bv8>, i: nat, v: bv8)
    requires |b| == SIZE && IsValidSave(b)
    requires i < SIZE && i != OFF_CHECKSUM && i != OFF_CHECKSUM + 1 && v != b[i]
    ensures !IsValidSave(b[i := v])
  {
    ChecksumDetectsByteChange(b, i, v);
    assert U16At(b[i := v], OFF_CHECKSUM) == U16At(b, OFF_CHECKSUM);
  }

  /** The record with its checksum field filled in. */
  function WithChecksum(b: seq<bv8>): (r: seq<bv8>)
    requires |b| == SIZE
    ensures |r| == SIZE
  {
    PutU16(b, OFF_CHECKSUM, Checksum(b))
  }

  lemma WithChecksumMatches(b: seq<bv8>)
    requires |b| == SIZE
    ensures Checksum(WithChecksum(b)) == U16At(WithChecksum(b), OFF_CHECKSUM)
    ensures forall k :: 0 <= k < SIZE && k != OFF_CHECKSUM && k != OFF_CHECKSUM + 1 ==> WithChecksum(b)[k] == b[k]
  {
    ChecksumIgnoresField(b, Checksum(b), SIZE);
    U16RoundTrip(b, OFF_CHECKSUM, Checksum(b));
  }

  /** What save_write stores: both magic numbers set and the checksum recomputed. */
  function Sealed(b: seq<bv8>): (r: seq<bv8>)
    requires |b| == SIZE
    ensures |r| == SIZE
  {
    WithChecksum(PutU32(PutU32(b, OFF_MAGIC, SAVE_MAGIC), OFF_END_MAGIC, SAVE_MAGIC))
  }

  /** A sealed record validates exactly when its version is supported. */
  lemma SealedValidIffVersion(b: seq<bv8>)
    requires |b| == SIZE
    ensures IsValidSave(Sealed(b)) <==> U16At(b, OFF_VERSION) <= SAVE_VERSION
  {
    var m1 := PutU32(b, OFF_MAGIC, SAVE_MAGIC);
    var m := PutU32(m1, OFF_END_MAGIC, SAVE_MAGIC);
    U32RoundTrip(b, OFF_MAGIC, SAVE_MAGIC);
    U32RoundTrip(m1, OFF_END_MAGIC, SAVE_MAGIC);
    WithChecksumMatches(m);
    var s := Sealed(b);
    assert U32At(s, OFF_MAGIC) == U32At(m, OFF_MAGIC) == U32At(m1, OFF_MAGIC);
    assert U32At(s, OFF_END_MAGIC) == U32At(m, OFF_END_MAGIC);
    assert U16At(s, OFF_VERSION) == U16At(b, OFF_VERSION);
  }

  /** Sealing a record that already validates leaves it as it is. */
  lemma SealedValidUnchanged(b: seq<bv8>)
    requires |b| == SIZE && IsValidSave(b)
    ensures Sealed(b) == b
  {
    PutU32Same(b, OFF_MAGIC);
    PutU32Same(b, OFF_END_MAGIC);
    PutU16Same(b, OFF_CHECKSUM);
  }

  /** The record save_data_init leaves, before its checksum is stored. */
  function Defaults(): (r: seq<bv8>)
    ensures |r| == SIZE
  {
    var z := Zeros();
    var m := PutU32(PutU32(z, OFF_MAGIC, SAVE_MAGIC), OFF_END_MAGIC, SAVE_MAGIC);
    var v := PutU16(m, OFF_VERSION, SAVE_VERSION);
    var e := PutU16(PutU16(v, OFF_ENERGY, 99), OFF_MAX_ENERGY, 99);
    PutU16(PutU16(e, OFF_PLAYER_X, 128), OFF_PLAYER_Y, 128)
  }

  function Initialised(): (r: seq<bv8>)
    ensures |r| == SIZE
  {
    WithChecksum(Defaults())
  }

  /** A fresh record validates and starts with 99 energy, at (128, 128), in area 0, with nothing collected. */
  lemma InitValidates()
    ensures IsValidSave(Initialised())
    ensures U16At(Initialised(), OFF_ENERGY) == 99 && U16At(Initialised(), OFF_MAX_ENERGY) == 99
    ensures U16At(Initialised(), OFF_PLAYER_X) == 128 && U16At(Initialised(), OFF_PLAYER_Y) == 128
    ensures Initialised()[OFF_AREA] == 0 && Initialised()[OFF_ROOM] == 0
    ensures U32At(Initialised(), OFF_PLAYTIME) == 0
    ensures forall k :: OFF_ITEMS <= k < OFF_MAP + MAP_BYTES ==> Initialised()[k] == 0
  {
    var d := Defaults();
    WithChecksumMatches(d);
    InitFields();
    var r := Initialised();
    assert U32At(r, OFF_MAGIC) == U32At(d, OFF_MAGIC);
    assert U32At(r, OFF_END_MAGIC) == U32At(d, OFF_END_MAGIC);
    assert U16At(r, OFF_VERSION) == U16At(d, OFF_VERSION);
    assert U16At(r, OFF_ENERGY) == U16At(d, OFF_ENERGY);
    assert U16At(r, OFF_MAX_ENERGY) == U16At(d, OFF_MAX_ENERGY);
    assert U16At(r, OFF_PLAYER_X) == U16At(d, OFF_PLAYER_X);
    assert U16At(r, OFF_PLAYER_Y) == U16At(d, OFF_PLAYER_Y);
    assert U32At(r, OFF_PLAYTIME) == U32At(d, OFF_PLAYTIME);
  }

  lemma InitFields()
    ensures U32At(Defaults(), OFF_MAGIC) == SAVE_MAGIC && U32At(Defaults(), OFF_END_MAGIC) == SAVE_MAGIC
    ensures U16At(Defaults(), OFF_VERSION) == SAVE_VERSION
    ensures U16At(Defaults(), OFF_ENERGY) == 99 && U16At(Defaults(), OFF_MAX_ENERGY) == 99
    ensures U16At(Defaults(), OFF_PLAYER_X) == 128 && U16At(Defaults(), OFF_PLAYER_Y) == 128
    ensures Defaults()[OFF_AREA] == 0 && Defaults()[OFF_ROOM] == 0
    ensures U32At(Defaults(), OFF_PLAYTIME) == 0
    ensures forall k :: OFF_ITEMS <= k < OFF_MAP + MAP_BYTES ==> Defaults()[k] == 0
  {
    var z := Zeros();
    var m1 := PutU32(z, OFF_MAGIC, SAVE_MAGIC);
    var m := PutU32(m1, OFF_END_MAGIC, SAVE_MAGIC);
    var v := PutU16(m, OFF_VERSION, SAVE_VERSION);
    var e1 := PutU16(v, OFF_ENERGY, 99);
    var e := PutU16(e1, OFF_MAX_ENERGY, 99);
    var x := PutU16(e, OFF_PLAYER_X, 128);
    U32RoundTrip(z, OFF_MAGIC, SAVE_MAGIC);
    U32RoundTrip(m1, OFF_END_MAGIC, SAVE_MAGIC);
    U16RoundTrip(m, OFF_VERSION, SAVE_VERSION);
    U16RoundTrip(v, OFF_ENERGY, 99);
    U16RoundTrip(e1, OFF_MAX_ENERGY, 99);
    U16RoundTrip(e, OFF_PLAYER_X, 128);
    U16RoundTrip(x, OFF_PLAYER_Y, 128);
  }

  // ---------------------------------------------------------------------
  // SaveData operations on a record in memory (NULL pointers included)
  // ---------------------------------------------------------------------

  /** A 16-bit store into the record. */
  method StoreU16(data: array<bv8>, off: nat, v: bv16)
    requires off + 2 <= data.Length
    modifies data
    ensures data[..] == PutU16(old(data[..]), off, v)
  {
    data[off] := (v & 0xFF) as bv8;
    data[off + 1] := (v >> 8) as bv8;
  }

  /** A 32-bit store into the record. */
  method StoreU32(data: array<bv8>, off: nat, v: bv32)
    requires off + 4 <= data.Length
    modifies data
    ensures data[..] == PutU32(old(data[..]), off, v)
  {
    data[off] := (v & 0xFF) as bv8;
    data[off + 1] := ((v >> 8) & 0xFF) as bv8;
    data[off + 2] := ((v >> 16) & 0xFF) as bv8;
    data[off + 3] := (v >> 24) as bv8;
  }

  /** save_data_calculate_checksum: 0 for NULL. */
  method CalculateChecksum(data: array?<bv8>) returns (c: bv16)
    requires data != null ==> data.Length == SIZE
    ensures data == null ==> c == 0
    ensures data != null ==> c == Checksum(data[..])
  {
    if data == null {
      return 0;
    }
    c := 0;
    var i := 0;
    while i < SIZE
      invariant 0 <= i <= SIZE
      invariant c == ChecksumOf(data[..], i)
    {
      if !(OFF_CHECKSUM <= i < OFF_CHECKSUM + 2) {
        c := c ^ (data[i] as bv16);
        c := (c << 1) | (c >> 15);
      }
      i := i + 1;
    }
  }

  /** save_data_validate: false for NULL, otherwise the four checks in order. */
  method Validate(data: array?<bv8>) returns (ok: bool)
    requires data != null ==> data.Length == SIZE
    ensures ok <==> data != null && IsValidSave(data[..])
  {
    if data == null {
      return false;
    }
    var d := data[..];
    if U32At(d, OFF_MAGIC) != SAVE_MAGIC {
      return false;
    }
    if U32At(d, OFF_END_MAGIC) != SAVE_MAGIC {
      return false;
    }
    if U16At(d, OFF_VERSION) > SAVE_VERSION {
      return false;
    }
    var calculated := CalculateChecksum(data);
    ok := calculated == U16At(d, OFF_CHECKSUM);
  }

  /** save_data_init: no change for NULL. */
  method InitData(data: array?<bv8>)
    requires data != null ==> data.Length == SIZE
    modifies data
    ensures data != null ==> data[..] == Initialised()
  {
    if data == null {
      return;
    }
    forall k | 0 <= k < data.Length {
      data[k] := 0;
    }
    assert data[..] == Zeros();
    StoreU32(data, OFF_MAGIC, SAVE_MAGIC);
    StoreU32(data, OFF_END_MAGIC, SAVE_MAGIC);
    StoreU16(data, OFF_VERSION, SAVE_VERSION);
    StoreU16(data, OFF_ENERGY, 99);
    StoreU16(data, OFF_MAX_ENERGY, 99);
    StoreU16(data, OFF_PLAYER_X, 128);
    StoreU16(data, OFF_PLAYER_Y, 128);
    assert data[..] == Defaults();
    var c := CalculateChecksum(data);
    StoreU16(data, OFF_CHECKSUM, c);
  }

  // ---------------------------------------------------------------------
  // Collection bitsets
  // ---------------------------------------------------------------------

  predicate BitAt(b: seq<bv8>, base: nat, byteIdx: nat, bit: nat)
    requires base + byteIdx < |b| && bit < 8
  {
    b[base + byteIdx] & BIT[bit] != 0
  }

  function SetBit(b: seq<bv8>, base: nat, byteIdx: nat, bit: nat): (r: seq<bv8>)
    requires base + byteIdx < |b| && bit < 8
    ensures |r| == |b|
  {
    b[base + byteIdx := b[base + byteIdx] | BIT[bit]]
  }

  lemma OrBit(x: bv8, i: nat, k: nat)
    requires i < 8 && k < 8
    ensures ((x | BIT[i]) & BIT[k] != 0) == (i == k || x & BIT[k] != 0)
  {
  }

  /**
   * After setting one bit, that bit is set, the other bits of its byte are
   * as they were, and no other byte changes.
   */
  lemma SetBitEffect(b: seq<bv8>, base: nat, byteIdx: nat, bit: nat)
    requires base + byteIdx < |b| && bit < 8
    ensures BitAt(SetBit(b, base, byteIdx, bit), base, byteIdx, bit)
    ensures forall k: nat :: k < 8 && k != bit ==>
      BitAt(SetBit(b, base, byteIdx, bit), base, byteIdx, k) == BitAt(b, base, byteIdx, k)
    ensures forall p :: 0 <= p < |b| && p != base + byteIdx ==> SetBit(b, base, byteIdx, bit)[p] == b[p]
  {
    var x := b[base + byteIdx];
    OrBit(x, bit, bit);
    forall k: nat | k < 8 && k != bit
      ensures ((x | BIT[bit]) & BIT[k] != 0) == (x & BIT[k] != 0)
    {
      OrBit(x, bit, k);
    }
  }

  /** Within a bitset of n bytes, an id's bit is set exactly when setting it again changes nothing. */
  lemma SetBitNoop(b: seq<bv8>, base: nat, n: nat, id: int)
    requires base + n <= |b| && id >= 0
    ensures id / 8 < n ==> (BitAt(b, base, id / 8, id % 8) <==> SetBit(b, base, id / 8, id % 8) == b)
  {
    var byteIdx, bit := id / 8, id % 8;
    if byteIdx < n {
      UpdateNoop(b, base + byteIdx, b[base + byteIdx] | BIT[bit]);
      OrNoop(b[base + byteIdx], bit);
    }
  }

  /** Storing into one element leaves a sequence alone exactly when the element already holds the value. */
  lemma UpdateNoop(b: seq<bv8>, i: nat, v: bv8)
    requires i < |b|
    ensures (b[i := v] == b) <==> (v == b[i])
  {
    if b[i := v] == b {
      assert b[i := v][i] == v;
    }
  }

  /** OR-ing in one bit leaves a byte alone exactly when that bit was already set. */
  lemma OrNoop(x: bv8, k: nat)
    requires k < 8
    ensures (x | BIT[k] == x) <==> (x & BIT[k] != 0)
  {
  }

  /** Distinct ids name distinct (byte, bit) pairs. */
  lemma DistinctIds(id: int, j: int)
    requires id >= 0 && j >= 0 && id != j
    ensures j / 8 != id / 8 || j % 8 != id % 8
  {
  }

  /** save_is_item_collected: an item reads as collected exactly when marking it again would change nothing. */
  function IsItemCollected(b: seq<bv8>, id: int): (r: bool)
    requires |b| == SIZE && IsUint8(id)
    ensures r <==> WithItem(b, id) == b
  {
    SetBitNoop(b, OFF_ITEMS, ITEM_BYTES, id);
    id / 8 < ITEM_BYTES && BitAt(b, OFF_ITEMS, id / 8, id % 8)
  }

  function WithItem(b: seq<bv8>, id: int): (r: seq<bv8>)
    requires |b| == SIZE && IsUint8(id)
    ensures |r| == SIZE
  {
    if id / 8 < ITEM_BYTES then SetBit(b, OFF_ITEMS, id / 8, id % 8) else b
  }

  /** save_is_boss_defeated: ids of 64 and more are never defeated; the others read as their bit. */
  function IsBossDefeated(b: seq<bv8>, id: int): (r: bool)
    requires |b| == SIZE && IsUint8(id)
    ensures r <==> id < 8 * BOSS_BYTES && WithBoss(b, id) == b
  {
    SetBitNoop(b, OFF_BOSSES, BOSS_BYTES, id);
    id / 8 < BOSS_BYTES && BitAt(b, OFF_BOSSES, id / 8, id % 8)
  }

  function WithBoss(b: seq<bv8>, id: int): (r: seq<bv8>)
    requires |b| == SIZE && IsUint8(id)
    ensures |r| == SIZE
  {
    if id / 8 < BOSS_BYTES then SetBit(b, OFF_BOSSES, id / 8, id % 8) else b
  }

  /** The door byte index as save.c computes it: `door_id / 8` stored in a uint8_t. */
  function DoorByteAsWritten(id: int): int
    requires IsUint16(id)
  {
    (id / 8) % 0x100
  }

  predicate IsDoorOpenedAsWritten(b: seq<bv8>, id: int)
    requires |b| == SIZE && IsUint16(id)
  {
    DoorByteAsWritten(id) < DOOR_BYTES && BitAt(b, OFF_DOORS, DoorByteAsWritten(id), id % 8)
  }

  function WithDoorAsWritten(b: seq<bv8>, id: int): (r: seq<bv8>)
    requires |b| == SIZE && IsUint16(id)
    ensures |r| == SIZE
  {
    if DoorByteAsWritten(id) < DOOR_BYTES then SetBit(b, OFF_DOORS, DoorByteAsWritten(id), id % 8) else b
  }

  /** The door bitset with the byte index kept in 16 bits, so ids of 512 and more are out of range. */
  function IsDoorOpened(b: seq<bv8>, id: int): (r: bool)
    requires |b| == SIZE && IsUint16(id)
    ensures r <==> id < 8 * DOOR_BYTES && WithDoor(b, id) == b
  {
    SetBitNoop(b, OFF_DOORS, DOOR_BYTES, id);
    id / 8 < DOOR_BYTES && BitAt(b, OFF_DOORS, id / 8, id % 8)
  }

  function WithDoor(b: seq<bv8>, id: int): (r: seq<bv8>)
    requires |b| == SIZE && IsUint16(id)
    ensures |r| == SIZE
  {
    if id / 8 < DOOR_BYTES then SetBit(b, OFF_DOORS, id / 8, id % 8) else b
  }

  /** save_is_map_revealed: ids of 2048 and more are never revealed; the others read as their bit. */
  function IsMapRevealed(b: seq<bv8>, id: int): (r: bool)
    requires |b| == SIZE && IsUint16(id)
    ensures r <==> id < 8 * MAP_BYTES && WithMapTile(b, id) == b
  {
    SetBitNoop(b, OFF_MAP, MAP_BYTES, id);
    id / 8 < MAP_BYTES && BitAt(b, OFF_MAP, id / 8, id % 8)
  }

  function WithMapTile(b: seq<bv8>, id: int): (r: seq<bv8>)
    requires |b| == SIZE && IsUint16(id)
    ensures |r| == SIZE
  {
    if id / 8 < MAP_BYTES then SetBit(b, OFF_MAP, id / 8, id % 8) else b
  }

  /** save_mark_item_collected. */
  method MarkItemCollected(data: array?<bv8>, id: int)
    requires data != null ==> data.Length == SIZE
    requires IsUint8(id)
    modifies data
    ensures data != null ==> data[..] == WithItem(old(data[..]), id)
  {
    if data == null {
      return;
    }
    var byte := id / 8;
    var bit := id % 8;
    if byte < ITEM_BYTES {
      data[OFF_ITEMS + byte] := data[OFF_ITEMS + byte] | BIT[bit];
    }
  }

  /** save_mark_boss_defeated. */
  method MarkBossDefeated(data: array?<bv8>, id: int)
    requires data != null ==> data.Length == SIZE
    requires IsUint8(id)
    modifies data
    ensures data != null ==> data[..] == WithBoss(old(data[..]), id)
  {
    if data == null {
      return;
    }
    var byte := id / 8;
    var bit := id % 8;
    if byte < BOSS_BYTES {
      data[OFF_BOSSES + byte] := data[OFF_BOSSES + byte] | BIT[bit];
    }
  }

  /** save_mark_door_opened as written, with the byte index truncated to 8 bits. */
  method MarkDoorOpened(data: array?<bv8>, id: int)
    requires data != null ==> data.Length == SIZE
    requires IsUint16(id)
    modifies data
    ensures data != null ==> data[..] == WithDoorAsWritten(old(data[..]), id)
  {
    if data == null {
      return;
    }
    var byte := ToUint8(id / 8);
    var bit := id % 8;
    if byte < DOOR_BYTES {
      data[OFF_DOORS + byte] := data[OFF_DOORS + byte] | BIT[bit];
    }
  }

  /** save_mark_door_opened with a 16-bit byte index. */
  method MarkDoorOpenedCorrected(data: array?<bv8>, id: int)
    requires data != null ==> data.Length == SIZE
    requires IsUint16(id)
    modifies data
    ensures data != null ==> data[..] == WithDoor(old(data[..]), id)
  {
    if data == null {
      return;
    }
    var byte := id / 8;
    var bit := id % 8;
    if byte < DOOR_BYTES {
      data[OFF_DOORS + byte] := data[OFF_DOORS + byte] | BIT[bit];
    }
  }

  /** save_mark_map_revealed. */
  method MarkMapRevealed(data: array?<bv8>, id: int)
    requires data != null ==> data.Length == SIZE
    requires IsUint16(id)
    modifies data
    ensures data != null ==> data[..] == WithMapTile(old(data[..]), id)
  {
    if data == null {
      return;
    }
    var byte := id / 8;
    var bit := id % 8;
    if byte < MAP_BYTES {
      data[OFF_MAP + byte] := data[OFF_MAP + byte] | BIT[bit];
    }
  }

  /** Marking an item makes it collected and leaves every other item, and every byte outside its own, alone. */
  lemma MarkItemThenCollected(b: seq<bv8>, id: int)
    requires |b| == SIZE && IsUint8(id)
    ensures IsItemCollected(WithItem(b, id), id)
    ensures forall j :: IsUint8(j) && j != id ==> IsItemCollected(WithItem(b, id), j) == IsItemCollected(b, j)
    ensures forall p :: 0 <= p < SIZE && p != OFF_ITEMS + id / 8 ==> WithItem(b, id)[p] == b[p]
  {
    SetBitEffect(b, OFF_ITEMS, id / 8, id % 8);
    forall j | IsUint8(j) && j != id
      ensures IsItemCollected(WithItem(b, id), j) == IsItemCollected(b, j)
    {
      DistinctIds(id, j);
    }
  }

  lemma MarkBossThenDefeated(b: seq<bv8>, id: int)
    requires |b| == SIZE && IsUint8(id)
    ensures id < 64 ==> IsBossDefeated(WithBoss(b, id), id)
    ensures id >= 64 ==> WithBoss(b, id) == b && !IsBossDefeated(b, id)
    ensures forall j :: IsUint8(j) && j != id ==> IsBossDefeated(WithBoss(b, id), j) == IsBossDefeated(b, j)
    ensures forall p :: 0 <= p < SIZE && p != OFF_BOSSES + id / 8 ==> WithBoss(b, id)[p] == b[p]
  {
    if id / 8 < BOSS_BYTES {
      SetBitEffect(b, OFF_BOSSES, id / 8, id % 8);
      forall j | IsUint8(j) && j != id
        ensures IsBossDefeated(WithBoss(b, id), j) == IsBossDefeated(b, j)
      {
        DistinctIds(id, j);
      }
    }
  }

  lemma MarkDoorThenOpened(b: seq<bv8>, id: int)
    requires |b| == SIZE && IsUint16(id)
    ensures id < 512 ==> IsDoorOpened(WithDoor(b, id), id)
    ensures id >= 512 ==> WithDoor(b, id) == b && !IsDoorOpened(b, id)
    ensures forall j :: IsUint16(j) && j != id ==> IsDoorOpened(WithDoor(b, id), j) == IsDoorOpened(b, j)
    ensures forall p :: 0 <= p < SIZE && p != OFF_DOORS + id / 8 ==> WithDoor(b, id)[p] == b[p]
  {
    if id / 8 < DOOR_BYTES {
      SetBitEffect(b, OFF_DOORS, id / 8, id % 8);
      forall j | IsUint16(j) && j != id
        ensures IsDoorOpened(WithDoor(b, id), j) == IsDoorOpened(b, j)
      {
        DistinctIds(id, j);
      }
    }
  }

  lemma MarkMapThenRevealed(b: seq<bv8>, id: int)
    requires |b| == SIZE && IsUint16(id)
    ensures id < 2048 ==> IsMapRevealed(WithMapTile(b, id), id)
    ensures id >= 2048 ==> WithMapTile(b, id) == b && !IsMapRevealed(b, id)
    ensures forall j :: IsUint16(j) && j != id ==> IsMapRevealed(WithMapTile(b, id), j) == IsMapRevealed(b, j)
    ensures forall p :: 0 <= p < SIZE && p != OFF_MAP + id / 8 ==> WithMapTile(b, id)[p] == b[p]
  {
    if id / 8 < MAP_BYTES {
      SetBitEffect(b, OFF_MAP, id / 8, id % 8);
      forall j | IsUint16(j) && j != id
        ensures IsMapRevealed(WithMapTile(b, id), j) == IsMapRevealed(b, j)
      {
        DistinctIds(id, j);
      }
    }
  }

  /**
   * As written, door ids wrap every 2048: marking door 2048 + d marks door d
   * and querying it reads door d's bit, so ids 2048 and up are not all ignored.
   */
  lemma DoorIdsAlias(b: seq<bv8>, id: int)
    requires |b| == SIZE && 0 <= id < 2048
    ensures WithDoorAsWritten(b, id + 2048) == WithDoorAsWritten(b, id)
    ensures IsDoorOpenedAsWritten(b, id + 2048) == IsDoorOpenedAsWritten(b, id)
  {
    assert (id + 2048) / 8 == id / 8 + 256 && (id + 2048) % 8 == id % 8;
    assert DoorByteAsWritten(id + 2048) == DoorByteAsWritten(id);
  }

  /** Marking door 2048 opens door 0, on every record. */
  lemma DoorAliasOpensDoorZero(b: seq<bv8>)
    requires |b| == SIZE
    ensures IsDoorOpenedAsWritten(WithDoorAsWritten(b, 2048), 0)
    ensures !IsDoorOpened(b, 0) ==> !IsDoorOpened(WithDoor(b, 2048), 0)
  {
    DoorIdsAlias(b, 0);
    SetBitEffect(b, OFF_DOORS, 0, 0);
  }

  /** Below id 2048 the as-written door bitset agrees with the corrected one. */
  lemma DoorAsWrittenAgreesBelow2048(b: seq<bv8>, id: int)
    requires |b| == SIZE && 0 <= id < 2048
    ensures WithDoorAsWritten(b, id) == WithDoor(b, id)
    ensures IsDoorOpenedAsWritten(b, id) == IsDoorOpened(b, id)
  {
  }

  // ---------------------------------------------------------------------
  // Playtime
  // ---------------------------------------------------------------------

  /** save_update_playtime: the 32-bit frame counter goes up by one, wrapping at 2^32. */
  method UpdatePlaytime(data: array?<bv8>)
    requires data != null ==> data.Length == SIZE
    modifies data
    ensures data != null ==> U32At(data[..], OFF_PLAYTIME) == old(U32At(data[..], OFF_PLAYTIME)) + 1
    ensures data != null ==> forall p :: 0 <= p < SIZE && !(OFF_PLAYTIME <= p < OFF_PLAYTIME + 4) ==> data[p] == old(data[p])
  {
    if data == null {
      return;
    }
    var frames := U32At(data[..], OFF_PLAYTIME);
    ghost var before := data[..];
    StoreU32(data, OFF_PLAYTIME, frames + 1);
    U32RoundTrip(before, OFF_PLAYTIME, frames + 1);
  }

  /** Hours, minutes and seconds of a frame count at 60 frames a second. */
  datatype Clock = Clock(hours: int, minutes: int, seconds: int)

  function ClockOf(frames: int): (c: Clock)
    requires frames >= 0
  {
    var total := frames / 60;
    Clock(total / 3600, (total % 3600) / 60, total % 60)
  }

  /** The split is exact: recombining it gives back the whole seconds, and minutes and seconds are below 60. */
  lemma ClockRecombines(frames: int)
    requires frames >= 0
    ensures var c := ClockOf(frames);
      c.hours * 3600 + c.minutes * 60 + c.seconds == frames / 60
      && 0 <= c.minutes < 60 && 0 <= c.seconds < 60 && c.hours >= 0
  {
    var total := frames / 60;
    assert total == (total / 3600) * 3600 + total % 3600;
    assert total % 3600 == ((total % 3600) / 60) * 60 + (total % 3600) % 60;
    assert (total % 3600) % 60 == total % 60;
  }

  function DigitChar(d: int): char
    requires 0 <= d < 10
  {
    "0123456789"[d]
  }

  /** The decimal digits of n, as `%u` prints them. */
  function Decimal(n: nat): (s: string)
    ensures |s| >= 1
    decreases n
  {
    if n < 10 then [DigitChar(n)] else Decimal(n / 10) + [DigitChar(n % 10)]
  }

  /** `%02u`: at least two digits, padded with a leading zero. */
  function Pad2(n: nat): (s: string)
    ensures |s| >= 2
  {
    if n < 10 then "0" + Decimal(n) else Decimal(n)
  }

  function PlaytimeText(frames: int): string
    requires frames >= 0
  {
    var c := ClockOf(frames);
    Pad2(c.hours) + ":" + Pad2(c.minutes) + ":" + Pad2(c.seconds)
  }

  function DigitValue(ch: char): int
  {
    if '0' <= ch <= '9' then ch as int - '0' as int else 0
  }

  /** Reads a string of digits back as a number. */
  function DecimalValue(s: string): int
  {
    if |s| == 0 then 0 else DecimalValue(s[..|s| - 1]) * 10 + DigitValue(s[|s| - 1])
  }

  /** The digits printed for n read back as n. */
  lemma {:induction false} DecimalRoundTrip(n: nat)
    ensures DecimalValue(Decimal(n)) == n
    ensures forall k :: 0 <= k < |Decimal(n)| ==> '0' <= Decimal(n)[k] <= '9'
    decreases n
  {
    if n >= 10 {
      DecimalRoundTrip(n / 10);
      var s := Decimal(n);
      assert s[..|s| - 1] == Decimal(n / 10);
    }
  }

  lemma DecimalTwoDigits(n: nat)
    requires n < 100
    ensures |Decimal(n)| <= 2
  {
    if n >= 10 {
      assert Decimal(n / 10) == [DigitChar(n / 10)];
    }
  }

  /**
   * Below 100 hours the text is exactly "HH:MM:SS", eight characters, so it
   * fits whole in the nine-byte buffer with its terminator.
   */
  lemma PlaytimeTextShape(frames: int)
    requires frames >= 0 && ClockOf(frames).hours < 100
    ensures |PlaytimeText(frames)| == 8
    ensures PlaytimeText(frames)[2] == ':' && PlaytimeText(frames)[5] == ':'
  {
    var c := ClockOf(frames);
    ClockRecombines(frames);
    DecimalTwoDigits(c.hours);
    DecimalTwoDigits(c.minutes);
    DecimalTwoDigits(c.seconds);
  }

  /**
   * What snprintf leaves in a buffer of `size` bytes: as much of the text as
   * fits before the terminating NUL, the rest of the buffer untouched.
   */
  function Printed(buf: seq<char>, t: string, size: int): (r: seq<char>)
    requires 1 <= size <= |buf|
    ensures |r| == |buf|
  {
    var n := if |t| < size then |t| else size - 1;
    t[..n] + ['\0'] + buf[n + 1..]
  }

  /** The text always ends in a NUL inside the buffer, and fits whole exactly when it is shorter than the buffer. */
  lemma PrintedTerminated(buf: seq<char>, t: string, size: int)
    requires 1 <= size <= |buf|
    ensures var n := if |t| < size then |t| else size - 1;
      Printed(buf, t, size)[n] == '\0' && n < size
      && (forall k :: 0 <= k < n ==> Printed(buf, t, size)[k] == t[k])
      && (|t| < size <==> n == |t|)
  {
  }

  /**
   * save_get_playtime_string: nothing is written for a NULL record or
   * buffer or a buffer shorter than 9; otherwise the "HH:MM:SS" text of the
   * playtime is printed into it.
   */
  method GetPlaytimeString(data: array?<bv8>, buffer: array?<char>, bufferSize: int)
    requires data != null ==> data.Length == SIZE
    requires IsUint8(bufferSize) && (buffer != null ==> bufferSize <= buffer.Length)
    modifies buffer
    ensures data == null || buffer == null || bufferSize < 9 ==> buffer == null || buffer[..] == old(buffer[..])
    ensures data != null && buffer != null && bufferSize >= 9 ==>
      buffer[..] == Printed(old(buffer[..]), PlaytimeText(old(U32At(data[..], OFF_PLAYTIME)) as int), bufferSize)
  {
    if data == null || buffer == null || bufferSize < 9 {
      return;
    }
    var t := PlaytimeText(U32At(data[..], OFF_PLAYTIME) as int);
    Print(buffer, t, bufferSize);
  }

  /** snprintf of a finished text into a buffer of `size` bytes. */
  method Print(buffer: array<char>, t: string, size: int)
    requires 1 <= size <= buffer.Length
    modifies buffer
    ensures buffer[..] == Printed(old(buffer[..]), t, size)
  {
    var n := if |t| < size then |t| else size - 1;
    ghost var before := buffer[..];
    var i := 0;
    while i < n
      invariant 0 <= i <= n
      invariant forall k :: 0 <= k < i ==> buffer[k] == t[k]
      invariant forall k :: i <= k < buffer.Length ==> buffer[k] == before[k]
    {
      buffer[i] := t[i];
      i := i + 1;
    }
    buffer[n] := '\0';
    assert buffer[..] == t[..n] + ['\0'] + before[n + 1..];
  }

  // ---------------------------------------------------------------------
  // Item percentage
  // ---------------------------------------------------------------------

  /** The number of set bits of a byte. */
  function Ones(x: bv8): (r: nat)
    ensures r <= 8
  {
    (if x & 1 != 0 then 1 else 0) + (if x & 2 != 0 then 1 else 0)
    + (if x & 4 != 0 then 1 else 0) + (if x & 8 != 0 then 1 else 0)
    + (if x & 16 != 0 then 1 else 0) + (if x & 32 != 0 then 1 else 0)
    + (if x & 64 != 0 then 1 else 0) + (if x & 128 != 0 then 1 else 0)
  }

  lemma OnesShift(x: bv8)
    ensures Ones(x) == (if x & 1 != 0 then 1 else 0) + Ones(x >> 1)
  {
  }

  /** The set bits in the first n bytes of items_collected. */
  function ItemsBelow(b: seq<bv8>, n: nat): (r: nat)
    requires |b| == SIZE && n <= ITEM_BYTES
    ensures r <= 8 * n
  {
    if n == 0 then 0 else ItemsBelow(b, n - 1) + Ones(b[OFF_ITEMS + n - 1])
  }

  /** The set bits of items_collected. */
  function ItemsCount(b: seq<bv8>): (r: nat)
    requires |b| == SIZE
    ensures r <= 256
  {
    ItemsBelow(b, ITEM_BYTES)
  }

  lemma OnesAddBit(x: bv8, k: nat)
    requires k < 8
    ensures Ones(x | BIT[k]) == Ones(x) + (if x & BIT[k] != 0 then 0 else 1)
  {
  }

  lemma {:induction false} ItemsBelowOneByte(b: seq<bv8>, j: nat, v: bv8, n: nat)
    requires |b| == SIZE && j < ITEM_BYTES && n <= ITEM_BYTES
    ensures ItemsBelow(b[OFF_ITEMS + j := v], n)
      == ItemsBelow(b, n) + (if j < n then Ones(v) - Ones(b[OFF_ITEMS + j]) else 0)
  {
    if n > 0 {
      ItemsBelowOneByte(b, j, v, n - 1);
    }
  }

  /**
   * Marking an item that was not yet collected adds one to the count the
   * percentage is computed from; marking a collected one changes nothing.
   */
  lemma MarkItemCounts(b: seq<bv8>, id: int)
    requires |b| == SIZE && IsUint8(id)
    ensures ItemsCount(WithItem(b, id)) == ItemsCount(b) + (if IsItemCollected(b, id) then 0 else 1)
  {
    SetItemBitCounts(b, id / 8, id % 8);
  }

  lemma SetItemBitCounts(b: seq<bv8>, j: nat, k: nat)
    requires |b| == SIZE && j < ITEM_BYTES && k < 8
    ensures ItemsCount(SetBit(b, OFF_ITEMS, j, k)) == ItemsCount(b) + (if BitAt(b, OFF_ITEMS, j, k) then 0 else 1)
  {
    var x := b[OFF_ITEMS + j];
    OnesAddBit(x, k);
    ItemsBelowOneByte(b, j, x | BIT[k], ITEM_BYTES);
  }

  /**
   * save_calculate_item_percentage: the collected items counted bit by bit,
   * times 100 over a total of 100, truncated to a uint8; 0 for NULL.
   */
  method CalculateItemPercentage(data: array?<bv8>) returns (p: int)
    requires data != null ==> data.Length == SIZE
    ensures data == null ==> p == 0
    ensures data != null ==> p == ItemsCount(data[..]) % 256
    ensures data != null ==> p == ItemPercentage(data[..])
  {
    if data == null {
      return 0;
    }
    var collected := 0;
    var i := 0;
    while i < ITEM_BYTES
      invariant 0 <= i <= ITEM_BYTES
      invariant collected == ItemsBelow(data[..], i)
    {
      var byte := data[OFF_ITEMS + i];
      ghost var start := collected;
      while byte != 0
        invariant collected + Ones(byte) == start + Ones(data[OFF_ITEMS + i])
        decreases byte
      {
        OnesShift(byte);
        collected := collected + (byte & 1) as int;
        byte := byte >> 1;
      }
      i := i + 1;
    }
    p := ToUint8((collected * 100) / 100);
  }

  /** The percentage save_calculate_item_percentage reports for a record. */
  function ItemPercentage(b: seq<bv8>): (p: int)
    requires |b| == SIZE
    ensures IsUint8(p)
  {
    ToUint8((ItemsCount(b) * 100) / 100)
  }

  /** Every one of the 256 item ids is marked collected. */
  predicate AllItemsCollected(b: seq<bv8>)
    requires |b| == SIZE
  {
    forall k :: OFF_ITEMS <= k < OFF_ITEMS + ITEM_BYTES ==> b[k] == 0xFF
  }

  /**
   * Up to 100 collected items the percentage is the item count itself;
   * above that it wraps modulo 256, so a record with all 256 ids collected
   * reports 0.
   */
  lemma PercentageOfCount(b: seq<bv8>)
    requires |b| == SIZE
    ensures ItemsCount(b) <= 100 ==> ItemPercentage(b) == ItemsCount(b)
    ensures ItemPercentage(b) == ItemsCount(b) % 256
    ensures AllItemsCollected(b) ==> ItemsCount(b) == 256 && ItemPercentage(b) == 0
  {
    if AllItemsCollected(b) {
      FullBytesCount(b, ITEM_BYTES);
    }
  }

  lemma {:induction false} FullBytesCount(b: seq<bv8>, n: nat)
    requires |b| == SIZE && n <= ITEM_BYTES && AllItemsCollected(b)
    ensures ItemsBelow(b, n) == 8 * n
  {
    if n > 0 {
      FullBytesCount(b, n - 1);
      assert b[OFF_ITEMS + n - 1] == 0xFF;
    }
  }

  // ---------------------------------------------------------------------
  // Save files and the quick-save slot
  // ---------------------------------------------------------------------

  /** What save_get_metadata reports for the file select screen. */
  datatype Metadata = Metadata(exists_: bool, energy: bv16, maxEnergy: bv16, area: bv8, playtime: bv32, itemsPercent: bv8)

  const NO_METADATA := Metadata(false, 0, 0, 0, 0, 0)

  function MetadataOf(b: seq<bv8>): (m: Metadata)
    requires |b| == SIZE
    ensures m.exists_
  {
    Metadata(true, U16At(b, OFF_ENERGY), U16At(b, OFF_MAX_ENERGY), b[OFF_AREA],
      U32At(b, OFF_PLAYTIME), b[OFF_PERCENT])
  }

  predicate InSlotRange(slot: int) { 0 <= slot < SAVE_SLOT_COUNT }

  class SaveSystem {
    /** current_slot and save_dir_initialized. */
    var currentSlot: int
    var dirInitialized: bool
    /** The save files present on the card, by slot. */
    var files: map<int, seq<bv8>>

    ghost predicate Valid()
      reads this
    {
      && InSlotRange(currentSlot)
      && forall s :: s in files ==> InSlotRange(s) && |files[s]| == SIZE
    }

    /** The statics at start-up, with whatever files the card already holds. */
    constructor (card: map<int, seq<bv8>>)
      requires forall s :: s in card ==> InSlotRange(s) && |card[s]| == SIZE
      ensures Valid()
      ensures currentSlot == 0 && !dirInitialized && files == card
    {
      currentSlot := 0;
      dirInitialized := false;
      files := card;
    }

    /** save_init, given whether the FAT file system came up. */
    method Init(fatOk: bool)
      requires Valid()
      modifies this
      ensures Valid() && files == old(files)
      ensures dirInitialized == fatOk
      ensures currentSlot == (if fatOk then 0 else old(currentSlot))
    {
      if !fatOk {
        dirInitialized := false;
        return;
      }
      dirInitialized := true;
      currentSlot := 0;
    }

    /** save_shutdown. */
    method Shutdown()
      requires Valid()
      modifies this
      ensures Valid() && !dirInitialized
      ensures files == old(files) && currentSlot == old(currentSlot)
    {
      dirInitialized := false;
    }

    predicate CanAccess(slot: int)
      reads this
    {
      dirInitialized && InSlotRange(slot)
    }

    /**
     * save_write: sets both magic numbers and the checksum in the caller's
     * record and stores it, unless the system is down, the slot is out of
     * range or the record is NULL.
     */
    method Write(slot: int, data: array?<bv8>) returns (ok: bool)
      requires Valid() && IsUint8(slot) && (data != null ==> data.Length == SIZE)
      modifies this, data
      ensures Valid() && currentSlot == old(currentSlot) && dirInitialized == old(dirInitialized)
      ensures ok <==> old(CanAccess(slot)) && data != null
      ensures ok ==> data[..] == Sealed(old(data[..])) && files == old(files)[slot := data[..]]
      ensures !ok ==> files == old(files) && (data != null ==> data[..] == old(data[..]))
    {
      if !dirInitialized || slot >= SAVE_SLOT_COUNT || data == null {
        return false;
      }
      Seal(data);
      files := files[slot := data[..]];
      ok := true;
    }

    /** The part of save_write that fills in the record. */
    static method Seal(data: array<bv8>)
      requires data.Length == SIZE
      modifies data
      ensures data[..] == Sealed(old(data[..]))
    {
      StoreU32(data, OFF_MAGIC, SAVE_MAGIC);
      StoreU32(data, OFF_END_MAGIC, SAVE_MAGIC);
      var c := CalculateChecksum(data);
      StoreU16(data, OFF_CHECKSUM, c);
    }

    /**
     * save_read: copies the slot's file into the caller's record and
     * returns whether it validates; nothing is copied when the system is
     * down, the slot is out of range, the record is NULL or there is no file.
     */
    method Read(slot: int, data: array?<bv8>) returns (ok: bool)
      requires Valid() && IsUint8(slot) && (data != null ==> data.Length == SIZE)
      modifies data
      ensures ok <==> CanAccess(slot) && data != null && slot in files && IsValidSave(files[slot])
      ensures CanAccess(slot) && data != null && slot in files ==> data[..] == files[slot]
      ensures !(CanAccess(slot) && slot in files) && data != null ==> data[..] == old(data[..])
    {
      if !dirInitialized || slot >= SAVE_SLOT_COUNT || data == null {
        return false;
      }
      if slot !in files {
        return false;
      }
      var f := files[slot];
      forall k | 0 <= k < data.Length {
        data[k] := f[k];
      }
      assert data[..] == f;
      ok := Validate(data);
    }

    /** save_delete: removes the slot's file; false when there was none to remove. */
    method Delete(slot: int) returns (ok: bool)
      requires Valid() && IsUint8(slot)
      modifies this
      ensures Valid() && currentSlot == old(currentSlot) && dirInitialized == old(dirInitialized)
      ensures ok <==> old(CanAccess(slot)) && slot in old(files)
      ensures files == (if ok then old(files) - {slot} else old(files))
    {
      if !dirInitialized || slot >= SAVE_SLOT_COUNT {
        return false;
      }
      if slot !in files {
        return false;
      }
      files := files - {slot};
      ok := true;
    }

    /** save_exists. */
    method Exists(slot: int) returns (r: bool)
      requires Valid() && IsUint8(slot)
      ensures r <==> CanAccess(slot) && slot in files
    {
      if !dirInitialized || slot >= SAVE_SLOT_COUNT {
        return false;
      }
      r := slot in files;
    }

    /**
     * save_copy: rejects an out-of-range slot or copying a slot onto
     * itself; otherwise the destination receives the source's file when
     * that file validates.
     */
    method Copy(src: int, dst: int) returns (ok: bool)
      requires Valid() && IsUint8(src) && IsUint8(dst)
      modifies this
      ensures Valid() && currentSlot == old(currentSlot) && dirInitialized == old(dirInitialized)
      ensures !InSlotRange(src) || !InSlotRange(dst) || src == dst ==> !ok
      ensures ok <==> InSlotRange(dst) && src != dst && old(CanAccess(src)) && src in old(files) && IsValidSave(old(files)[src])
      ensures files == (if ok then old(files)[dst := old(files)[src]] else old(files))
    {
      if src >= SAVE_SLOT_COUNT || dst >= SAVE_SLOT_COUNT || src == dst {
        return false;
      }
      var data := new bv8[SIZE];
      var read := Read(src, data);
      if !read {
        return false;
      }
      SealedValidUnchanged(data[..]);
      ok := Write(dst, data);
    }

    /**
     * save_quick_load: reads the current slot. On success `loaded` is the
     * record that save_data_to_game_state applies to the player.
     */
    predicate CanQuickLoad()
      reads this
    {
      dirInitialized && currentSlot in files && |files[currentSlot]| == SIZE && IsValidSave(files[currentSlot])
    }

    method QuickLoad() returns (ok: bool, loaded: seq<bv8>)
      requires Valid()
      ensures ok <==> CanQuickLoad()
      ensures ok ==> loaded == files[currentSlot]
    {
      var data := new bv8[SIZE];
      ok := Read(currentSlot, data);
      loaded := data[..];
    }

    /** save_set_current_slot: out-of-range slots are ignored. */
    method SetCurrentSlot(slot: int)
      requires Valid() && IsUint8(slot)
      modifies this
      ensures Valid() && files == old(files) && dirInitialized == old(dirInitialized)
      ensures currentSlot == (if InSlotRange(slot) then slot else old(currentSlot))
    {
      if slot < SAVE_SLOT_COUNT {
        currentSlot := slot;
      }
    }

    /** The metadata save_get_metadata reports for a slot. */
    function SlotMetadata(slot: int): Metadata
      reads this
      requires Valid()
    {
      if CanAccess(slot) && slot in files && IsValidSave(files[slot]) then MetadataOf(files[slot]) else NO_METADATA
    }

    /**
     * save_get_metadata: an absent file gives `exists == false` and success;
     * a file that does not validate gives `exists == false` and failure.
     */
    method GetMetadata(slot: int) returns (ok: bool, meta: Metadata)
      requires Valid() && IsUint8(slot)
      ensures meta == SlotMetadata(slot)
      ensures !(CanAccess(slot) && slot in files) ==> ok && meta == NO_METADATA
      ensures CanAccess(slot) && slot in files && !IsValidSave(files[slot]) ==> !ok && meta == NO_METADATA
      ensures CanAccess(slot) && slot in files && IsValidSave(files[slot]) ==> ok && meta == MetadataOf(files[slot])
    {
      var present := Exists(slot);
      if !present {
        return true, NO_METADATA;
      }
      var data := new bv8[SIZE];
      var read := Read(slot, data);
      if !read {
        return false, NO_METADATA;
      }
      meta := Metadata(true, U16At(data[..], OFF_ENERGY), U16At(data[..], OFF_MAX_ENERGY),
        data[OFF_AREA], U32At(data[..], OFF_PLAYTIME), data[OFF_PERCENT]);
      ok := true;
    }
  }
}
