/**
 * The game's save serialiser (source/save.c): an in-memory image of the 8 KB
 * SNES SRAM holding three slots of 0x065C bytes, each guarded by an
 * alternating-byte checksum stored with its complement twice (a primary and a
 * redundant pair), and the conversions between the game's equipment and boss
 * flags and the SNES bit layouts.
 *
 * `sram_image` and `slot_buf` are arrays written in place; every operation on
 * them is specified by a function on their contents. Loading from and
 * flushing to the FAT file system are left out: the image is the state.
 */
module Save {
  import opened CInt
  import opened SmTypes

  type byte = b: int | 0 <= b < 0x100

  // ---------------------------------------------------------------------
  // Geometry
  // ---------------------------------------------------------------------

  const SRAM_SIZE: nat := 0x2000
  const SLOT_SIZE: nat := 0x065C
  const SAVE_SLOT_COUNT: nat := 3
  const SLOT_OFFSETS: seq<nat> := [0x0010, 0x066C, 0x0CC8]

  const CHK_PRIMARY: nat := 0x0000
  const COMP_PRIMARY: nat := 0x0008
  const CHK_REDUNDANT: nat := 0x1FF0
  const COMP_REDUNDANT: nat := 0x1FF8

  /** Offsets within a slot. */
  const S_EQUIPPED_ITEMS: nat := 0x00
  const S_COLLECTED_ITEMS: nat := 0x02
  const S_EQUIPPED_BEAMS: nat := 0x04
  const S_COLLECTED_BEAMS: nat := 0x06
  const S_CTRL_SHOT: nat := 0x10
  const S_CTRL_JUMP: nat := 0x12
  const S_CTRL_DASH: nat := 0x14
  const S_CTRL_ITEM_CANCEL: nat := 0x16
  const S_CTRL_ITEM_SELECT: nat := 0x18
  const S_CTRL_ANGLE_DOWN: nat := 0x1A
  const S_CTRL_ANGLE_UP: nat := 0x1C
  const S_RESERVE_MODE: nat := 0x1E
  const S_HP: nat := 0x20
  const S_HP_MAX: nat := 0x22
  const S_MISSILES: nat := 0x24
  const S_MISSILES_MAX: nat := 0x26
  const S_SUPERS: nat := 0x28
  const S_SUPERS_MAX: nat := 0x2A
  const S_PB: nat := 0x2C
  const S_PB_MAX: nat := 0x2E
  const S_RESERVE_MAX: nat := 0x32
  const S_RESERVE_HP: nat := 0x34
  const S_TIME_FRAMES: nat := 0x38
  const S_TIME_SECONDS: nat := 0x3A
  const S_TIME_MINUTES: nat := 0x3C
  const S_TIME_HOURS: nat := 0x3E
  const S_BOSSES: nat := 0x68
  const S_GAME_STATE: nat := 0x154
  const S_SAVE_STATION: nat := 0x156
  const S_AREA_ID: nat := 0x158

  const AREA_BOSS_BYTES: nat := 14

  /** SNES joypad bits of the default controller mapping. */
  const SNES_BTN_A: int := 0x0080
  const SNES_BTN_B: int := 0x8000
  const SNES_BTN_X: int := 0x0040
  const SNES_BTN_Y: int := 0x4000
  const SNES_BTN_L: int := 0x0020
  const SNES_BTN_R: int := 0x0010
  const SNES_BTN_SELECT: int := 0x2000

  /** SNES item bits. */
  const SNES_ITEM_VARIA: bv16 := 0x0001
  const SNES_ITEM_SPRING: bv16 := 0x0002
  const SNES_ITEM_MORPH: bv16 := 0x0004
  const SNES_ITEM_SCREW: bv16 := 0x0008
  const SNES_ITEM_GRAVITY: bv16 := 0x0020
  const SNES_ITEM_HIJUMP: bv16 := 0x0100
  const SNES_ITEM_SPACE: bv16 := 0x0200
  const SNES_ITEM_BOMBS: bv16 := 0x1000
  const SNES_ITEM_SPEED: bv16 := 0x2000
  const SNES_ITEM_GRAPPLE: bv16 := 0x4000
  const SNES_ITEM_XRAY: bv16 := 0x8000

  /** SNES beam bits. */
  const SNES_BEAM_WAVE: bv16 := 0x0001
  const SNES_BEAM_ICE: bv16 := 0x0002
  const SNES_BEAM_SPAZER: bv16 := 0x0004
  const SNES_BEAM_PLASMA: bv16 := 0x0008
  const SNES_BEAM_CHARGE: bv16 := 0x1000

  /** The game's boss-defeat flags, one bit per boss in BossTypeID order (their header is not part of this model). */
  const BOSS_FLAG_SPORE_SPAWN: bv16 := 1 << 0
  const BOSS_FLAG_CROCOMIRE: bv16 := 1 << 1
  const BOSS_FLAG_BOMB_TORIZO: bv16 := 1 << 2
  const BOSS_FLAG_KRAID: bv16 := 1 << 3
  const BOSS_FLAG_BOTWOON: bv16 := 1 << 4
  const BOSS_FLAG_PHANTOON: bv16 := 1 << 5
  const BOSS_FLAG_DRAYGON: bv16 := 1 << 6
  const BOSS_FLAG_GOLDEN_TORIZO: bv16 := 1 << 7
  const BOSS_FLAG_RIDLEY: bv16 := 1 << 8
  const BOSS_FLAG_MOTHER_BRAIN: bv16 := 1 << 9
  const BOSS_FLAG_MASK: bv16 := 0x03FF

  /** The fields of the game's SaveData that save_write stores and save_read fills. */
  datatype SaveRecord = SaveRecord(
    hp: int, hpMax: int, missiles: int, missilesMax: int, supers: int, supersMax: int,
    powerBombs: int, powerBombsMax: int, reserveHp: int, reserveHpMax: int,
    equipment: Equipment,
    timeFrames: int, timeSeconds: int, timeMinutes: int, timeHours: int,
    bossFlags: bv16, areaId: int, saveStationId: int)

  predicate ValidSlot(slot: int) { 0 <= slot < SAVE_SLOT_COUNT }

  function Zeros(n: nat): (r: seq<byte>)
    ensures |r| == n && forall k :: 0 <= k < n ==> r[k] == 0
  {
    seq(n, _ => 0)
  }

  // ---------------------------------------------------------------------
  // Little-endian words
  // ---------------------------------------------------------------------

  /** buf_put_u16: the value, converted to uint16, low byte first. */
  function PutU16(buf: seq<byte>, off: nat, val: int): (r: seq<byte>)
    requires off + 1 < |buf|
    ensures SameOutside(buf, r, off, off + 2)
  {
    var v := ToUint16(val);
    buf[off := v % 0x100][off + 1 := v / 0x100]
  }

  /** buf_get_u16. */
  function GetU16(buf: seq<byte>, off: nat): (r: int)
    requires off + 1 < |buf|
    ensures IsUint16(r)
  {
    buf[off] as int + buf[off + 1] as int * 0x100
  }

  /** Every byte outside [lo, hi) is as it was. */
  predicate SameOutside(a: seq<byte>, b: seq<byte>, lo: nat, hi: nat)
  {
    |a| == |b| && forall k :: 0 <= k < |a| && !(lo <= k < hi) ==> b[k] == a[k]
  }

  /** Reading a word back gives the value stored, modulo 2^16, and the bytes are stored low first. */
  lemma PutGetU16(buf: seq<byte>, off: nat, val: int)
    requires off + 1 < |buf|
    ensures GetU16(PutU16(buf, off, val), off) == ToUint16(val)
    ensures PutU16(buf, off, val)[off] == ToUint16(val) % 0x100
    ensures PutU16(buf, off, val)[off + 1] == ToUint16(val) / 0x100
    ensures forall k :: 0 <= k < |buf| && k != off && k != off + 1 ==> PutU16(buf, off, val)[k] == buf[k]
  {
  }

  /** Storing a word leaves every word that does not overlap it as it was. */
  lemma PutU16Elsewhere(buf: seq<byte>, off: nat, val: int, other: nat)
    requires off + 1 < |buf| && other + 1 < |buf|
    requires other + 1 < off || off + 1 < other
    ensures GetU16(PutU16(buf, off, val), other) == GetU16(buf, other)
  {
  }

  // ---------------------------------------------------------------------
  // The alternating-byte checksum
  // ---------------------------------------------------------------------

  /** The two accumulators of snes_checksum. */
  datatype Acc = Acc(high: int, low: int)

  datatype Checksum = Checksum(hi: byte, lo: byte)

  /** One turn of the loop, at the even index `i`: high takes data[i] and carries into low; low takes data[i+1]. */
  function ChecksumStep(a: Acc, data: seq<byte>, i: nat): (r: Acc)
    requires 0 <= a.high <= 0xFF && 0 <= a.low <= 0xFF && i < |data|
    ensures 0 <= r.high <= 0xFF && 0 <= r.low <= 0x100
    ensures i + 1 < |data| ==> r.low <= 0xFF
  {
    var h := a.high + data[i];
    var h1 := if h > 0xFF then h % 0x100 else h;
    var l1 := if h > 0xFF then a.low + 1 else a.low;
    if i + 1 < |data| then
      var l2 := l1 + data[i + 1];
      Acc(h1, if l2 > 0xFF then l2 % 0x100 else l2)
    else
      Acc(h1, l1)
  }

  /** The accumulators after the first `n` turns of the loop. */
  function ChecksumAcc(data: seq<byte>, n: nat): (r: Acc)
    requires 2 * n <= |data| + 1
    ensures 0 <= r.high <= 0xFF && 0 <= r.low <= 0x100
    ensures 2 * n <= |data| ==> r.low <= 0xFF
  {
    if n == 0 then Acc(0, 0) else ChecksumStep(ChecksumAcc(data, n - 1), data, 2 * (n - 1))
  }

  /** snes_checksum: the accumulators after the whole loop, cast to uint8. */
  function ChecksumOf(data: seq<byte>): Checksum
  {
    var a := ChecksumAcc(data, (|data| + 1) / 2);
    Checksum(a.high, a.low % 0x100)
  }

  /** An all-zero block has checksum (0, 0). */
  lemma {:induction false} ZeroBlockChecksum(data: seq<byte>, n: nat)
    requires 2 * n <= |data| + 1
    requires forall k :: 0 <= k < |data| ==> data[k] == 0
    ensures ChecksumAcc(data, n) == Acc(0, 0)
  {
    if n > 0 {
      ZeroBlockChecksum(data, n - 1);
    }
  }

  /**
   * The checksum of every slot region sees a change of its first byte:
   * byte 0 enters only the even-byte sum, which the high checksum byte
   * holds modulo 256, so any other value there changes that byte.
   */
  lemma ChecksumSeesFirstByte(data: seq<byte>, b: byte)
    requires |data| == SLOT_SIZE
    requires b != data[0]
    ensures ChecksumOf(data[0 := b]).hi != ChecksumOf(data).hi
    ensures ChecksumOf(data[0 := b]) != ChecksumOf(data)
  {
    var n := (|data| + 1) / 2;
    FirstByteShiftsHigh(data, b, n);
    var h, h' := ChecksumAcc(data, n).high, ChecksumAcc(data[0 := b], n).high;
    DifferentBytesDifferMod(data[0], b);
    assert h' != h;
  }

  /** Two different bytes are different modulo 256. */
  lemma DifferentBytesDifferMod(a: byte, b: byte)
    requires a != b
    ensures (b - a) % 0x100 != 0
  {
  }

  /** After n >= 1 turns the high accumulators differ by the change of byte 0, modulo 256. */
  lemma {:induction false} FirstByteShiftsHigh(data: seq<byte>, b: byte, n: nat)
    requires 1 <= n && 2 * n <= |data| + 1
    ensures (ChecksumAcc(data[0 := b], n).high - ChecksumAcc(data, n).high) % 0x100
      == (b - data[0]) % 0x100
  {
    var d := data[0 := b];
    if n > 1 {
      FirstByteShiftsHigh(data, b, n - 1);
      var i := 2 * (n - 1);
      var a, a' := ChecksumAcc(data, n - 1), ChecksumAcc(d, n - 1);
      assert d[i] == data[i];
      StepHigh(a, data, i);
      StepHigh(a', d, i);
      AddKeepsDifference(a.high, a'.high, data[i]);
    }
  }

  /** One turn adds the even byte to the high accumulator, modulo 256. */
  lemma StepHigh(a: Acc, data: seq<byte>, i: nat)
    requires 0 <= a.high <= 0xFF && 0 <= a.low <= 0xFF && i < |data|
    ensures ChecksumStep(a, data, i).high == (a.high + data[i]) % 0x100
  {
  }

  /** Adding the same byte to two accumulators keeps their difference modulo 256. */
  lemma AddKeepsDifference(x: int, x': int, c: int)
    requires 0 <= x <= 0xFF && 0 <= x' <= 0xFF && 0 <= c <= 0xFF
    ensures ((x' + c) % 0x100 - (x + c) % 0x100) % 0x100 == (x' - x) % 0x100
  {
    var u := if x + c > 0xFF then x + c - 0x100 else x + c;
    var u' := if x' + c > 0xFF then x' + c - 0x100 else x' + c;
    assert (x + c) % 0x100 == u;
    assert (x' + c) % 0x100 == u';
  }

  /** The stored complement of a checksum byte, `b ^ 0xFF` on a uint8. */
  function Complement(b: byte): byte
  {
    0xFF - b
  }

  /** Inverting the bits of a byte is subtracting it from 0xFF. */
  lemma ComplementIsBitFlip(b: bv8)
    ensures Complement(b as int) == (b ^ 0xFF) as int
  {
  }

  // ---------------------------------------------------------------------
  // Equipment and boss flags in the SNES layout
  // ---------------------------------------------------------------------

  function Has(e: Equipment, flag: Equipment): bool { e & flag != 0 }

  /** equip_to_snes: the bits of the item word's low byte. */
  function SnesItemsLow(e: Equipment): bv16
  {
    (if Has(e, EQUIP_VARIA_SUIT) then SNES_ITEM_VARIA else 0) |
    (if Has(e, EQUIP_SPRING_BALL) then SNES_ITEM_SPRING else 0) |
    (if Has(e, EQUIP_MORPH_BALL) then SNES_ITEM_MORPH else 0) |
    (if Has(e, EQUIP_SCREW_ATTACK) then SNES_ITEM_SCREW else 0) |
    (if Has(e, EQUIP_GRAVITY_SUIT) then SNES_ITEM_GRAVITY else 0)
  }

  /** equip_to_snes: the bits of the item word's high byte. */
  function SnesItemsHigh(e: Equipment): bv16
  {
    (if Has(e, EQUIP_HI_JUMP) then SNES_ITEM_HIJUMP else 0) |
    (if Has(e, EQUIP_SPACE_JUMP) then SNES_ITEM_SPACE else 0) |
    (if Has(e, EQUIP_BOMBS) then SNES_ITEM_BOMBS else 0) |
    (if Has(e, EQUIP_SPEED_BOOST) then SNES_ITEM_SPEED else 0) |
    (if Has(e, EQUIP_GRAPPLE) then SNES_ITEM_GRAPPLE else 0) |
    (if Has(e, EQUIP_XRAY) then SNES_ITEM_XRAY else 0)
  }

  /** equip_to_snes: the item word. */
  function SnesItems(e: Equipment): bv16
  {
    SnesItemsLow(e) | SnesItemsHigh(e)
  }

  /** equip_to_snes: the beam word. */
  function SnesBeams(e: Equipment): bv16
  {
    (if Has(e, EQUIP_WAVE_BEAM) then SNES_BEAM_WAVE else 0) |
    (if Has(e, EQUIP_ICE_BEAM) then SNES_BEAM_ICE else 0) |
    (if Has(e, EQUIP_SPAZER_BEAM) then SNES_BEAM_SPAZER else 0) |
    (if Has(e, EQUIP_PLASMA_BEAM) then SNES_BEAM_PLASMA else 0) |
    (if Has(e, EQUIP_CHARGE_BEAM) then SNES_BEAM_CHARGE else 0)
  }

  /** snes_to_equip: the equipment named by the item word's low byte. */
  function EquipFromItemsLow(items: bv16): Equipment
  {
    (if items & SNES_ITEM_VARIA != 0 then EQUIP_VARIA_SUIT else 0) |
    (if items & SNES_ITEM_SPRING != 0 then EQUIP_SPRING_BALL else 0) |
    (if items & SNES_ITEM_MORPH != 0 then EQUIP_MORPH_BALL else 0) |
    (if items & SNES_ITEM_SCREW != 0 then EQUIP_SCREW_ATTACK else 0) |
    (if items & SNES_ITEM_GRAVITY != 0 then EQUIP_GRAVITY_SUIT else 0)
  }

  /** snes_to_equip: the equipment named by the item word's high byte. */
  function EquipFromItemsHigh(items: bv16): Equipment
  {
    (if items & SNES_ITEM_HIJUMP != 0 then EQUIP_HI_JUMP else 0) |
    (if items & SNES_ITEM_SPACE != 0 then EQUIP_SPACE_JUMP else 0) |
    (if items & SNES_ITEM_BOMBS != 0 then EQUIP_BOMBS else 0) |
    (if items & SNES_ITEM_SPEED != 0 then EQUIP_SPEED_BOOST else 0) |
    (if items & SNES_ITEM_GRAPPLE != 0 then EQUIP_GRAPPLE else 0) |
    (if items & SNES_ITEM_XRAY != 0 then EQUIP_XRAY else 0)
  }

  /** snes_to_equip: the equipment named by the beam word. */
  function EquipFromBeams(beams: bv16): Equipment
  {
    (if beams & SNES_BEAM_WAVE != 0 then EQUIP_WAVE_BEAM else 0) |
    (if beams & SNES_BEAM_ICE != 0 then EQUIP_ICE_BEAM else 0) |
    (if beams & SNES_BEAM_SPAZER != 0 then EQUIP_SPAZER_BEAM else 0) |
    (if beams & SNES_BEAM_PLASMA != 0 then EQUIP_PLASMA_BEAM else 0) |
    (if beams & SNES_BEAM_CHARGE != 0 then EQUIP_CHARGE_BEAM else 0)
  }

  /** snes_to_equip. */
  function EquipFromSnes(items: bv16, beams: bv16): Equipment
  {
    EquipFromItemsLow(items) | EquipFromItemsHigh(items) | EquipFromBeams(beams)
  }

  /** The equipment stored in each byte of the item word, and in the beam word. */
  const ITEM_LOW_EQUIPMENT: Equipment := EQUIP_VARIA_SUIT | EQUIP_SPRING_BALL | EQUIP_MORPH_BALL | EQUIP_SCREW_ATTACK | EQUIP_GRAVITY_SUIT
  const ITEM_HIGH_EQUIPMENT: Equipment := EQUIP_HI_JUMP | EQUIP_SPACE_JUMP | EQUIP_BOMBS | EQUIP_SPEED_BOOST | EQUIP_GRAPPLE | EQUIP_XRAY
  const BEAM_EQUIPMENT: Equipment := EQUIP_WAVE_BEAM | EQUIP_ICE_BEAM | EQUIP_SPAZER_BEAM | EQUIP_PLASMA_BEAM | EQUIP_CHARGE_BEAM

  lemma ItemsLowRoundTrip(e: Equipment)
    ensures EquipFromItemsLow(SnesItems(e)) == e & ITEM_LOW_EQUIPMENT
  {
  }

  lemma ItemsHighRoundTrip(e: Equipment)
    ensures EquipFromItemsHigh(SnesItems(e)) == e & ITEM_HIGH_EQUIPMENT
  {
  }

  lemma BeamsRoundTrip(e: Equipment)
    ensures EquipFromBeams(SnesBeams(e)) == e & BEAM_EQUIPMENT
  {
  }

  /** All sixteen equipment bits survive the trip through the SNES layout; bits 16-31 are dropped. */
  lemma {:induction false} EquipRoundTrip(e: Equipment)
    ensures EquipFromSnes(SnesItems(e), SnesBeams(e)) == e & 0xFFFF
  {
    ItemsLowRoundTrip(e);
    ItemsHighRoundTrip(e);
    BeamsRoundTrip(e);
    assert ITEM_LOW_EQUIPMENT | ITEM_HIGH_EQUIPMENT | BEAM_EQUIPMENT == 0xFFFF;
  }

  /** A bit test on a stored byte: `mask` is a power of two. */
  function ByteHas(b: byte, mask: nat): bool
    requires mask > 0
  {
    (b / mask) % 2 == 1
  }

  function FlagBit(flags: bv16, flag: bv16, bit: byte): byte { if flags & flag != 0 then bit else 0 }

  /** boss_flags_to_snes: the fourteen per-area bytes (distinct bits of one byte add up as an OR). */
  function BossBytes(flags: bv16): (r: seq<byte>)
    ensures |r| == AREA_BOSS_BYTES
  {
    [FlagBit(flags, BOSS_FLAG_BOMB_TORIZO, 0x04), 0,
     FlagBit(flags, BOSS_FLAG_KRAID, 0x01) + FlagBit(flags, BOSS_FLAG_SPORE_SPAWN, 0x02), 0,
     FlagBit(flags, BOSS_FLAG_RIDLEY, 0x01) + FlagBit(flags, BOSS_FLAG_CROCOMIRE, 0x02) + FlagBit(flags, BOSS_FLAG_GOLDEN_TORIZO, 0x04), 0,
     FlagBit(flags, BOSS_FLAG_PHANTOON, 0x01), 0,
     FlagBit(flags, BOSS_FLAG_DRAYGON, 0x01) + FlagBit(flags, BOSS_FLAG_BOTWOON, 0x02), 0,
     FlagBit(flags, BOSS_FLAG_MOTHER_BRAIN, 0x02), 0, 0, 0]
  }

  /** snes_to_boss_flags: Crateria and Brinstar. */
  function EarlyBossFlags(a: seq<byte>): bv16
    requires |a| >= AREA_BOSS_BYTES
  {
    (if ByteHas(a[0], 0x04) then BOSS_FLAG_BOMB_TORIZO else 0) |
    (if ByteHas(a[2], 0x01) then BOSS_FLAG_KRAID else 0) |
    (if ByteHas(a[2], 0x02) then BOSS_FLAG_SPORE_SPAWN else 0)
  }

  /** snes_to_boss_flags: Norfair. */
  function NorfairBossFlags(a: seq<byte>): bv16
    requires |a| >= AREA_BOSS_BYTES
  {
    (if ByteHas(a[4], 0x01) then BOSS_FLAG_RIDLEY else 0) |
    (if ByteHas(a[4], 0x02) then BOSS_FLAG_CROCOMIRE else 0) |
    (if ByteHas(a[4], 0x04) then BOSS_FLAG_GOLDEN_TORIZO else 0)
  }

  /** snes_to_boss_flags: Wrecked Ship, Maridia and Tourian. */
  function LateBossFlags(a: seq<byte>): bv16
    requires |a| >= AREA_BOSS_BYTES
  {
    (if ByteHas(a[6], 0x01) then BOSS_FLAG_PHANTOON else 0) |
    (if ByteHas(a[8], 0x01) then BOSS_FLAG_DRAYGON else 0) |
    (if ByteHas(a[8], 0x02) then BOSS_FLAG_BOTWOON else 0) |
    (if ByteHas(a[10], 0x02) then BOSS_FLAG_MOTHER_BRAIN else 0)
  }

  /** snes_to_boss_flags. */
  function BossFlagsFromSnes(a: seq<byte>): bv16
    requires |a| >= AREA_BOSS_BYTES
  {
    EarlyBossFlags(a) | NorfairBossFlags(a) | LateBossFlags(a)
  }

  const EARLY_BOSSES: bv16 := BOSS_FLAG_BOMB_TORIZO | BOSS_FLAG_KRAID | BOSS_FLAG_SPORE_SPAWN
  const NORFAIR_BOSSES: bv16 := BOSS_FLAG_RIDLEY | BOSS_FLAG_CROCOMIRE | BOSS_FLAG_GOLDEN_TORIZO
  const LATE_BOSSES: bv16 := BOSS_FLAG_PHANTOON | BOSS_FLAG_DRAYGON | BOSS_FLAG_BOTWOON | BOSS_FLAG_MOTHER_BRAIN

  lemma EarlyBossesRoundTrip(flags: bv16)
    ensures EarlyBossFlags(BossBytes(flags)) == flags & EARLY_BOSSES
  {
  }

  lemma NorfairBossesRoundTrip(flags: bv16)
    ensures NorfairBossFlags(BossBytes(flags)) == flags & NORFAIR_BOSSES
  {
  }

  lemma LateBossesRoundTrip(flags: bv16)
    ensures LateBossFlags(BossBytes(flags)) == flags & LATE_BOSSES
  {
  }

  /** The ten boss flags survive the trip through the per-area bytes; the other six bits are dropped. */
  lemma {:induction false} BossFlagsRoundTrip(flags: bv16)
    ensures BossFlagsFromSnes(BossBytes(flags)) == flags & BOSS_FLAG_MASK
  {
    EarlyBossesRoundTrip(flags);
    NorfairBossesRoundTrip(flags);
    LateBossesRoundTrip(flags);
    assert EARLY_BOSSES | NORFAIR_BOSSES | LATE_BOSSES == BOSS_FLAG_MASK;
  }

  // ---------------------------------------------------------------------
  // The slot image save_write builds and save_read decodes
  // ---------------------------------------------------------------------

  /** `buf` with `part` copied over it at `off` (memcpy). */
  function Spliced(buf: seq<byte>, off: nat, part: seq<byte>): (r: seq<byte>)
    requires off + |part| <= |buf|
    ensures |r| == |buf|
    ensures forall k :: 0 <= k < |buf| ==> r[k] == if off <= k < off + |part| then part[k - off] else buf[k]
  {
    buf[..off] + part + buf[off + |part|..]
  }

  /** write_default_controls: the SNES default mapping, in the seven control words and nowhere else. */
  function WithControls(b: seq<byte>): (r: seq<byte>)
    requires |b| == SLOT_SIZE
    ensures SameOutside(b, r, S_CTRL_SHOT, S_CTRL_ANGLE_UP + 2)
    ensures GetU16(r, S_CTRL_SHOT) == SNES_BTN_Y && GetU16(r, S_CTRL_JUMP) == SNES_BTN_A && GetU16(r, S_CTRL_DASH) == SNES_BTN_B
    ensures GetU16(r, S_CTRL_ITEM_CANCEL) == SNES_BTN_X && GetU16(r, S_CTRL_ITEM_SELECT) == SNES_BTN_SELECT
    ensures GetU16(r, S_CTRL_ANGLE_DOWN) == SNES_BTN_L && GetU16(r, S_CTRL_ANGLE_UP) == SNES_BTN_R
  {
    var b1 := PutU16(PutU16(PutU16(b, S_CTRL_SHOT, SNES_BTN_Y), S_CTRL_JUMP, SNES_BTN_A), S_CTRL_DASH, SNES_BTN_B);
    var b2 := PutU16(PutU16(b1, S_CTRL_ITEM_CANCEL, SNES_BTN_X), S_CTRL_ITEM_SELECT, SNES_BTN_SELECT);
    PutU16(PutU16(b2, S_CTRL_ANGLE_DOWN, SNES_BTN_L), S_CTRL_ANGLE_UP, SNES_BTN_R)
  }

  /** The equipped and collected item and beam words (the game keeps no separate "equipped" set). */
  function WithEquipment(b: seq<byte>, e: Equipment): (r: seq<byte>)
    requires |b| == SLOT_SIZE
    ensures SameOutside(b, r, S_EQUIPPED_ITEMS, S_COLLECTED_BEAMS + 2)
    ensures GetU16(r, S_EQUIPPED_ITEMS) == GetU16(r, S_COLLECTED_ITEMS) == SnesItems(e) as int
    ensures GetU16(r, S_EQUIPPED_BEAMS) == GetU16(r, S_COLLECTED_BEAMS) == SnesBeams(e) as int
  {
    ItemWords(b, SnesItems(e) as int, SnesBeams(e) as int)
  }

  /** The four words WithEquipment stores, given the item and beam words. */
  function ItemWords(b: seq<byte>, items: int, beams: int): (r: seq<byte>)
    requires |b| == SLOT_SIZE && IsUint16(items) && IsUint16(beams)
    ensures SameOutside(b, r, S_EQUIPPED_ITEMS, S_COLLECTED_BEAMS + 2)
    ensures GetU16(r, S_EQUIPPED_ITEMS) == GetU16(r, S_COLLECTED_ITEMS) == items
    ensures GetU16(r, S_EQUIPPED_BEAMS) == GetU16(r, S_COLLECTED_BEAMS) == beams
  {
    PutU16(PutU16(PutU16(PutU16(b, S_EQUIPPED_ITEMS, items), S_COLLECTED_ITEMS, items), S_EQUIPPED_BEAMS, beams), S_COLLECTED_BEAMS, beams)
  }

  /** The health and ammunition words, each the field modulo 2^16. */
  function WithStats(b: seq<byte>, d: SaveRecord): (r: seq<byte>)
    requires |b| == SLOT_SIZE
    ensures SameOutside(b, r, S_HP, S_RESERVE_HP + 2)
    ensures GetU16(r, S_HP) == ToUint16(d.hp) && GetU16(r, S_HP_MAX) == ToUint16(d.hpMax)
    ensures GetU16(r, S_MISSILES) == ToUint16(d.missiles) && GetU16(r, S_MISSILES_MAX) == ToUint16(d.missilesMax)
    ensures GetU16(r, S_SUPERS) == ToUint16(d.supers) && GetU16(r, S_SUPERS_MAX) == ToUint16(d.supersMax)
    ensures GetU16(r, S_PB) == ToUint16(d.powerBombs) && GetU16(r, S_PB_MAX) == ToUint16(d.powerBombsMax)
    ensures GetU16(r, S_RESERVE_MAX) == ToUint16(d.reserveHpMax) && GetU16(r, S_RESERVE_HP) == ToUint16(d.reserveHp)
  {
    var b1 := PutU16(PutU16(PutU16(PutU16(b, S_HP, d.hp), S_HP_MAX, d.hpMax), S_MISSILES, d.missiles), S_MISSILES_MAX, d.missilesMax);
    var b2 := PutU16(PutU16(PutU16(PutU16(b1, S_SUPERS, d.supers), S_SUPERS_MAX, d.supersMax), S_PB, d.powerBombs), S_PB_MAX, d.powerBombsMax);
    PutU16(PutU16(b2, S_RESERVE_MAX, d.reserveHpMax), S_RESERVE_HP, d.reserveHp)
  }

  /** The four play-time words. */
  function WithTime(b: seq<byte>, d: SaveRecord): (r: seq<byte>)
    requires |b| == SLOT_SIZE
    ensures SameOutside(b, r, S_TIME_FRAMES, S_TIME_HOURS + 2)
    ensures GetU16(r, S_TIME_FRAMES) == ToUint16(d.timeFrames) && GetU16(r, S_TIME_SECONDS) == ToUint16(d.timeSeconds)
    ensures GetU16(r, S_TIME_MINUTES) == ToUint16(d.timeMinutes) && GetU16(r, S_TIME_HOURS) == ToUint16(d.timeHours)
  {
    PutU16(PutU16(PutU16(PutU16(b, S_TIME_FRAMES, d.timeFrames), S_TIME_SECONDS, d.timeSeconds), S_TIME_MINUTES, d.timeMinutes), S_TIME_HOURS, d.timeHours)
  }

  /** The game-state word (5, in a save room), the save station and the area. */
  function WithPosition(b: seq<byte>, d: SaveRecord): (r: seq<byte>)
    requires |b| == SLOT_SIZE
    ensures SameOutside(b, r, S_GAME_STATE, S_AREA_ID + 2)
    ensures GetU16(r, S_GAME_STATE) == 5
    ensures GetU16(r, S_SAVE_STATION) == ToUint16(d.saveStationId) && GetU16(r, S_AREA_ID) == ToUint16(d.areaId)
  {
    PutU16(PutU16(PutU16(b, S_GAME_STATE, 5), S_SAVE_STATION, d.saveStationId), S_AREA_ID, d.areaId)
  }

  /** The slot buffer save_write builds from a record. */
  function Encoded(d: SaveRecord): (r: seq<byte>)
    ensures |r| == SLOT_SIZE
  {
    var b1 := WithEquipment(Zeros(SLOT_SIZE), d.equipment);
    var b2 := PutU16(WithControls(b1), S_RESERVE_MODE, 1);
    var b3 := WithTime(WithStats(b2, d), d);
    WithPosition(Spliced(b3, S_BOSSES, BossBytes(d.bossFlags)), d)
  }

  /** The record save_read fills from a validated slot buffer. */
  function Decoded(b: seq<byte>): SaveRecord
    requires |b| == SLOT_SIZE
  {
    SaveRecord(
      GetU16(b, S_HP), GetU16(b, S_HP_MAX), GetU16(b, S_MISSILES), GetU16(b, S_MISSILES_MAX),
      GetU16(b, S_SUPERS), GetU16(b, S_SUPERS_MAX), GetU16(b, S_PB), GetU16(b, S_PB_MAX),
      GetU16(b, S_RESERVE_HP), GetU16(b, S_RESERVE_MAX),
      EquipFromSnes(GetU16(b, S_COLLECTED_ITEMS) as bv16, GetU16(b, S_COLLECTED_BEAMS) as bv16),
      GetU16(b, S_TIME_FRAMES), GetU16(b, S_TIME_SECONDS), GetU16(b, S_TIME_MINUTES), GetU16(b, S_TIME_HOURS),
      BossFlagsFromSnes(b[S_BOSSES..S_BOSSES + AREA_BOSS_BYTES]),
      GetU16(b, S_AREA_ID), GetU16(b, S_SAVE_STATION))
  }

  /** What survives a write and a read: every number modulo 2^16, the sixteen equipment bits, the ten boss flags. */
  function Normalised(d: SaveRecord): SaveRecord
  {
    SaveRecord(
      ToUint16(d.hp), ToUint16(d.hpMax), ToUint16(d.missiles), ToUint16(d.missilesMax),
      ToUint16(d.supers), ToUint16(d.supersMax), ToUint16(d.powerBombs), ToUint16(d.powerBombsMax),
      ToUint16(d.reserveHp), ToUint16(d.reserveHpMax),
      d.equipment & 0xFFFF,
      ToUint16(d.timeFrames), ToUint16(d.timeSeconds), ToUint16(d.timeMinutes), ToUint16(d.timeHours),
      d.bossFlags & BOSS_FLAG_MASK,
      ToUint16(d.areaId), ToUint16(d.saveStationId))
  }

  /** A word neither of whose bytes changed reads the same. */
  lemma SameWord(a: seq<byte>, b: seq<byte>, lo: nat, hi: nat, off: nat)
    requires SameOutside(a, b, lo, hi) && off + 1 < |a|
    requires off + 2 <= lo || hi <= off
    ensures GetU16(b, off) == GetU16(a, off)
  {
  }

  /** Layout of the buffer save_write builds: the equipment words. */
  lemma {:induction false} EncodedEquipment(d: SaveRecord)
    ensures GetU16(Encoded(d), S_COLLECTED_ITEMS) == SnesItems(d.equipment) as int
    ensures GetU16(Encoded(d), S_COLLECTED_BEAMS) == SnesBeams(d.equipment) as int
  {
    var b1 := WithEquipment(Zeros(SLOT_SIZE), d.equipment);
    var b2c := WithControls(b1);
    var b2 := PutU16(b2c, S_RESERVE_MODE, 1);
    var b3s := WithStats(b2, d);
    var b3 := WithTime(b3s, d);
    var b4 := Spliced(b3, S_BOSSES, BossBytes(d.bossFlags));
    var b := WithPosition(b4, d);
    assert b == Encoded(d);
    assert SameOutside(b3, b4, S_BOSSES, S_BOSSES + AREA_BOSS_BYTES);
    SameWord(b1, b2c, S_CTRL_SHOT, S_CTRL_ANGLE_UP + 2, S_COLLECTED_ITEMS);
    SameWord(b2c, b2, S_RESERVE_MODE, S_RESERVE_MODE + 2, S_COLLECTED_ITEMS);
    SameWord(b2, b3s, S_HP, S_RESERVE_HP + 2, S_COLLECTED_ITEMS);
    SameWord(b3s, b3, S_TIME_FRAMES, S_TIME_HOURS + 2, S_COLLECTED_ITEMS);
    SameWord(b3, b4, S_BOSSES, S_BOSSES + AREA_BOSS_BYTES, S_COLLECTED_ITEMS);
    SameWord(b4, b, S_GAME_STATE, S_AREA_ID + 2, S_COLLECTED_ITEMS);
    SameWord(b1, b2c, S_CTRL_SHOT, S_CTRL_ANGLE_UP + 2, S_COLLECTED_BEAMS);
    SameWord(b2c, b2, S_RESERVE_MODE, S_RESERVE_MODE + 2, S_COLLECTED_BEAMS);
    SameWord(b2, b3s, S_HP, S_RESERVE_HP + 2, S_COLLECTED_BEAMS);
    SameWord(b3s, b3, S_TIME_FRAMES, S_TIME_HOURS + 2, S_COLLECTED_BEAMS);
    SameWord(b3, b4, S_BOSSES, S_BOSSES + AREA_BOSS_BYTES, S_COLLECTED_BEAMS);
    SameWord(b4, b, S_GAME_STATE, S_AREA_ID + 2, S_COLLECTED_BEAMS);
  }

  /** Layout of the buffer save_write builds: the statistics, time and position words. */
  lemma {:induction false} EncodedNumbers(d: SaveRecord)
    ensures var b := Encoded(d);
      GetU16(b, S_HP) == ToUint16(d.hp) && GetU16(b, S_HP_MAX) == ToUint16(d.hpMax) &&
      GetU16(b, S_MISSILES) == ToUint16(d.missiles) && GetU16(b, S_MISSILES_MAX) == ToUint16(d.missilesMax) &&
      GetU16(b, S_SUPERS) == ToUint16(d.supers) && GetU16(b, S_SUPERS_MAX) == ToUint16(d.supersMax) &&
      GetU16(b, S_PB) == ToUint16(d.powerBombs) && GetU16(b, S_PB_MAX) == ToUint16(d.powerBombsMax) &&
      GetU16(b, S_RESERVE_MAX) == ToUint16(d.reserveHpMax) && GetU16(b, S_RESERVE_HP) == ToUint16(d.reserveHp) &&
      GetU16(b, S_TIME_FRAMES) == ToUint16(d.timeFrames) && GetU16(b, S_TIME_SECONDS) == ToUint16(d.timeSeconds) &&
      GetU16(b, S_TIME_MINUTES) == ToUint16(d.timeMinutes) && GetU16(b, S_TIME_HOURS) == ToUint16(d.timeHours) &&
      GetU16(b, S_SAVE_STATION) == ToUint16(d.saveStationId) && GetU16(b, S_AREA_ID) == ToUint16(d.areaId)
  {
    var b1 := WithEquipment(Zeros(SLOT_SIZE), d.equipment);
    var b2 := PutU16(WithControls(b1), S_RESERVE_MODE, 1);
    var b3s := WithStats(b2, d);
    var b3 := WithTime(b3s, d);
    var b4 := Spliced(b3, S_BOSSES, BossBytes(d.bossFlags));
    var b := WithPosition(b4, d);
    assert b == Encoded(d);
    assert SameOutside(b3, b4, S_BOSSES, S_BOSSES + AREA_BOSS_BYTES);
    StatsSurvive(b3s, b3, b4, b, d);
    TimeSurvives(b3, b4, b, d);
  }

  /** Layout of the buffer save_write builds: the fourteen boss bytes. */
  lemma {:induction false} EncodedBosses(d: SaveRecord)
    ensures Encoded(d)[S_BOSSES..S_BOSSES + AREA_BOSS_BYTES] == BossBytes(d.bossFlags)
  {
    var b1 := WithEquipment(Zeros(SLOT_SIZE), d.equipment);
    var b2 := PutU16(WithControls(b1), S_RESERVE_MODE, 1);
    var b3 := WithTime(WithStats(b2, d), d);
    var bosses := BossBytes(d.bossFlags);
    var b4 := Spliced(b3, S_BOSSES, bosses);
    var b := WithPosition(b4, d);
    assert b == Encoded(d);
    forall k | 0 <= k < AREA_BOSS_BYTES ensures b[S_BOSSES + k] == bosses[k] {
      assert b[S_BOSSES + k] == b4[S_BOSSES + k];
    }
  }

  /** Decoding the buffer save_write builds gives back the record, as far as the layout holds it. */
  lemma {:induction false} DecodeEncoded(d: SaveRecord)
    ensures Decoded(Encoded(d)) == Normalised(d)
  {
    EncodedEquipment(d);
    EncodedNumbers(d);
    EncodedBosses(d);
    EquipRoundTrip(d.equipment);
    BossFlagsRoundTrip(d.bossFlags);
  }

  lemma StatsSurvive(b3s: seq<byte>, b3: seq<byte>, b4: seq<byte>, b: seq<byte>, d: SaveRecord)
    requires |b3s| == SLOT_SIZE && b3 == WithTime(b3s, d)
    requires SameOutside(b3, b4, S_BOSSES, S_BOSSES + AREA_BOSS_BYTES) && b == WithPosition(b4, d)
    requires GetU16(b3s, S_HP) == ToUint16(d.hp) && GetU16(b3s, S_HP_MAX) == ToUint16(d.hpMax)
    requires GetU16(b3s, S_MISSILES) == ToUint16(d.missiles) && GetU16(b3s, S_MISSILES_MAX) == ToUint16(d.missilesMax)
    requires GetU16(b3s, S_SUPERS) == ToUint16(d.supers) && GetU16(b3s, S_SUPERS_MAX) == ToUint16(d.supersMax)
    requires GetU16(b3s, S_PB) == ToUint16(d.powerBombs) && GetU16(b3s, S_PB_MAX) == ToUint16(d.powerBombsMax)
    requires GetU16(b3s, S_RESERVE_MAX) == ToUint16(d.reserveHpMax) && GetU16(b3s, S_RESERVE_HP) == ToUint16(d.reserveHp)
    ensures GetU16(b, S_HP) == ToUint16(d.hp) && GetU16(b, S_HP_MAX) == ToUint16(d.hpMax)
    ensures GetU16(b, S_MISSILES) == ToUint16(d.missiles) && GetU16(b, S_MISSILES_MAX) == ToUint16(d.missilesMax)
    ensures GetU16(b, S_SUPERS) == ToUint16(d.supers) && GetU16(b, S_SUPERS_MAX) == ToUint16(d.supersMax)
    ensures GetU16(b, S_PB) == ToUint16(d.powerBombs) && GetU16(b, S_PB_MAX) == ToUint16(d.powerBombsMax)
    ensures GetU16(b, S_RESERVE_MAX) == ToUint16(d.reserveHpMax) && GetU16(b, S_RESERVE_HP) == ToUint16(d.reserveHp)
  {
  }

  lemma TimeSurvives(b3: seq<byte>, b4: seq<byte>, b: seq<byte>, d: SaveRecord)
    requires |b3| == SLOT_SIZE
    requires SameOutside(b3, b4, S_BOSSES, S_BOSSES + AREA_BOSS_BYTES) && b == WithPosition(b4, d)
    requires GetU16(b3, S_TIME_FRAMES) == ToUint16(d.timeFrames) && GetU16(b3, S_TIME_SECONDS) == ToUint16(d.timeSeconds)
    requires GetU16(b3, S_TIME_MINUTES) == ToUint16(d.timeMinutes) && GetU16(b3, S_TIME_HOURS) == ToUint16(d.timeHours)
    ensures GetU16(b, S_TIME_FRAMES) == ToUint16(d.timeFrames) && GetU16(b, S_TIME_SECONDS) == ToUint16(d.timeSeconds)
    ensures GetU16(b, S_TIME_MINUTES) == ToUint16(d.timeMinutes) && GetU16(b, S_TIME_HOURS) == ToUint16(d.timeHours)
  {
  }

  // ---------------------------------------------------------------------
  // The SRAM image
  // ---------------------------------------------------------------------

  predicate ImageOk(img: seq<byte>) { |img| == SRAM_SIZE }

  /** The bytes of slot `s`. */
  function SlotBytes(img: seq<byte>, s: int): (r: seq<byte>)
    requires ImageOk(img) && ValidSlot(s)
    ensures |r| == SLOT_SIZE
  {
    img[SLOT_OFFSETS[s]..SLOT_OFFSETS[s] + SLOT_SIZE]
  }

  /** The eight bytes write_checksums stores (a checksum pair and its complement, twice). */
  function ChecksumBytes(s: int): set<nat>
    requires ValidSlot(s)
  {
    {CHK_PRIMARY + s * 2, CHK_PRIMARY + s * 2 + 1, COMP_PRIMARY + s * 2, COMP_PRIMARY + s * 2 + 1,
     CHK_REDUNDANT + s * 2, CHK_REDUNDANT + s * 2 + 1, COMP_REDUNDANT + s * 2, COMP_REDUNDANT + s * 2 + 1}
  }

  /** The eight checksum bytes stored as given. */
  function WithRawChecksums(img: seq<byte>, s: int, hi: byte, lo: byte, chi: byte, clo: byte): (r: seq<byte>)
    requires ImageOk(img) && ValidSlot(s)
    ensures ImageOk(r)
    ensures forall k :: 0 <= k < SRAM_SIZE && k !in ChecksumBytes(s) ==> r[k] == img[k]
    ensures r[CHK_PRIMARY + s * 2] == hi && r[CHK_PRIMARY + s * 2 + 1] == lo
    ensures r[COMP_PRIMARY + s * 2] == chi && r[COMP_PRIMARY + s * 2 + 1] == clo
    ensures r[CHK_REDUNDANT + s * 2] == hi && r[CHK_REDUNDANT + s * 2 + 1] == lo
    ensures r[COMP_REDUNDANT + s * 2] == chi && r[COMP_REDUNDANT + s * 2 + 1] == clo
  {
    img[CHK_PRIMARY + s * 2 := hi][CHK_PRIMARY + s * 2 + 1 := lo]
       [COMP_PRIMARY + s * 2 := chi][COMP_PRIMARY + s * 2 + 1 := clo]
       [CHK_REDUNDANT + s * 2 := hi][CHK_REDUNDANT + s * 2 + 1 := lo]
       [COMP_REDUNDANT + s * 2 := chi][COMP_REDUNDANT + s * 2 + 1 := clo]
  }

  /** write_checksums: a pair and its complement, in both places. */
  function WithChecksums(img: seq<byte>, s: int, c: Checksum): (r: seq<byte>)
    requires ImageOk(img) && ValidSlot(s)
    ensures ImageOk(r)
  {
    WithRawChecksums(img, s, c.hi, c.lo, Complement(c.hi), Complement(c.lo))
  }

  /** One stored pair matches a computed checksum. */
  predicate PairMatches(img: seq<byte>, chk: nat, comp: nat, s: int, c: Checksum)
    requires ImageOk(img) && ValidSlot(s) && comp + s * 2 + 1 < SRAM_SIZE && chk + s * 2 + 1 < SRAM_SIZE
  {
    img[chk + s * 2] == c.hi && img[chk + s * 2 + 1] == c.lo &&
    img[comp + s * 2] == Complement(c.hi) && img[comp + s * 2 + 1] == Complement(c.lo)
  }

  /** validate_checksum: the primary pair or the redundant pair matches the slot's checksum. */
  predicate SlotChecksumOk(img: seq<byte>, s: int)
    requires ImageOk(img) && ValidSlot(s)
  {
    var c := ChecksumOf(SlotBytes(img, s));
    PairMatches(img, CHK_PRIMARY, COMP_PRIMARY, s, c) || PairMatches(img, CHK_REDUNDANT, COMP_REDUNDANT, s, c)
  }

  /** A slot buffer copied into slot `s`, with its checksum stored. */
  function Stored(img: seq<byte>, s: int, buf: seq<byte>): (r: seq<byte>)
    requires ImageOk(img) && ValidSlot(s) && |buf| == SLOT_SIZE
    ensures ImageOk(r)
  {
    WithChecksums(Spliced(img, SLOT_OFFSETS[s], buf), s, ChecksumOf(buf))
  }

  /** save_write's effect on the image. */
  function Written(img: seq<byte>, s: int, d: SaveRecord): (r: seq<byte>)
    requires ImageOk(img) && ValidSlot(s)
    ensures ImageOk(r)
  {
    Stored(img, s, Encoded(d))
  }

  /** save_read's result. */
  function ReadOf(img: seq<byte>, s: int): Option<SaveRecord>
    requires ImageOk(img)
  {
    if ValidSlot(s) && SlotChecksumOk(img, s) then Some(Decoded(SlotBytes(img, s))) else None
  }

  /** save_delete's effect on the image, as written: a zeroed slot and a written (0, 0) checksum. */
  function Deleted(img: seq<byte>, s: int): (r: seq<byte>)
    requires ImageOk(img) && ValidSlot(s)
    ensures ImageOk(r)
  {
    WithChecksums(Spliced(img, SLOT_OFFSETS[s], Zeros(SLOT_SIZE)), s, Checksum(0, 0))
  }

  /** save_delete as its comment intends: zero stored for the checksum and for its complement. */
  function Erased(img: seq<byte>, s: int): (r: seq<byte>)
    requires ImageOk(img) && ValidSlot(s)
    ensures ImageOk(r)
  {
    WithRawChecksums(Spliced(img, SLOT_OFFSETS[s], Zeros(SLOT_SIZE)), s, 0, 0, 0, 0)
  }

  // ---------------------------------------------------------------------
  // sram_image and slot_buf
  // ---------------------------------------------------------------------

  class Sram {
    const image: array<byte>
    const slotBuf: array<byte>

    ghost predicate Valid()
      reads this
    {
      image.Length == SRAM_SIZE && slotBuf.Length == SLOT_SIZE && image != slotBuf
    }

    /** The zero-initialised statics (what save_init leaves when there is no file). */
    constructor ()
      ensures Valid() && fresh(image) && fresh(slotBuf)
      ensures image[..] == Zeros(SRAM_SIZE) && slotBuf[..] == Zeros(SLOT_SIZE)
    {
      image := new byte[SRAM_SIZE](_ => 0);
      slotBuf := new byte[SLOT_SIZE](_ => 0);
    }

    method BufPutU16(off: nat, val: int)
      requires Valid() && off + 1 < SLOT_SIZE
      modifies slotBuf
      ensures slotBuf[..] == PutU16(old(slotBuf[..]), off, val)
    {
      var v := ToUint16(val);
      slotBuf[off] := v % 0x100;
      slotBuf[off + 1] := v / 0x100;
    }

    method BufGetU16(off: nat) returns (v: int)
      requires Valid() && off + 1 < SLOT_SIZE
      ensures v == GetU16(slotBuf[..], off)
    {
      v := slotBuf[off] as int + slotBuf[off + 1] as int * 0x100;
    }

    /** snes_checksum over slot_buf. */
    method SlotChecksum() returns (c: Checksum)
      requires Valid()
      ensures c == ChecksumOf(slotBuf[..])
    {
      var len := slotBuf.Length;
      var high: int, low: int := 0, 0;
      var i := 0;
      ghost var turns := 0;
      while i < len
        invariant i == 2 * turns && i <= len + 1
        invariant Acc(high, low) == ChecksumAcc(slotBuf[..], turns)
      {
        high := high + slotBuf[i];
        if high > 0xFF {
          high := high % 0x100;
          low := low + 1;
        }
        if i + 1 < len {
          low := low + slotBuf[i + 1];
          if low > 0xFF {
            low := low % 0x100;
          }
        }
        i := i + 2;
        turns := turns + 1;
      }
      assert turns == (len + 1) / 2;
      c := Checksum(high, low % 0x100);
    }

    method WriteChecksums(slot: int, hi: byte, lo: byte)
      requires Valid() && ValidSlot(slot)
      modifies image
      ensures image[..] == WithChecksums(old(image[..]), slot, Checksum(hi, lo))
    {
      var compHi := Complement(hi);
      var compLo := Complement(lo);
      image[CHK_PRIMARY + slot * 2] := hi;
      image[CHK_PRIMARY + slot * 2 + 1] := lo;
      image[COMP_PRIMARY + slot * 2] := compHi;
      image[COMP_PRIMARY + slot * 2 + 1] := compLo;
      image[CHK_REDUNDANT + slot * 2] := hi;
      image[CHK_REDUNDANT + slot * 2 + 1] := lo;
      image[COMP_REDUNDANT + slot * 2] := compHi;
      image[COMP_REDUNDANT + slot * 2 + 1] := compLo;
    }

    /** sram_write_bytes of the whole slot buffer. */
    method CopyBufToImage(off: nat)
      requires Valid() && off + SLOT_SIZE <= SRAM_SIZE
      modifies image
      ensures image[..] == Spliced(old(image[..]), off, slotBuf[..])
    {
      forall k | 0 <= k < SLOT_SIZE {
        image[off + k] := slotBuf[k];
      }
    }

    /** sram_read_bytes of a whole slot into the buffer. */
    method CopyImageToBuf(off: nat)
      requires Valid() && off + SLOT_SIZE <= SRAM_SIZE
      modifies slotBuf
      ensures slotBuf[..] == image[off..off + SLOT_SIZE]
    {
      forall k | 0 <= k < SLOT_SIZE {
        slotBuf[k] := image[off + k];
      }
    }

    /** validate_checksum: also leaves the slot's bytes in the buffer. */
    method ValidateChecksum(slot: int) returns (ok: bool)
      requires Valid() && ValidSlot(slot)
      modifies slotBuf
      ensures slotBuf[..] == SlotBytes(image[..], slot)
      ensures ok == SlotChecksumOk(image[..], slot)
    {
      SlotInImage(slot);
      CopyImageToBuf(SLOT_OFFSETS[slot]);
      var c := SlotChecksum();
      var chkHi := image[CHK_PRIMARY + slot * 2];
      var chkLo := image[CHK_PRIMARY + slot * 2 + 1];
      var compHi := image[COMP_PRIMARY + slot * 2];
      var compLo := image[COMP_PRIMARY + slot * 2 + 1];
      if chkHi == c.hi && chkLo == c.lo && compHi == Complement(c.hi) && compLo == Complement(c.lo) {
        return true;
      }
      chkHi := image[CHK_REDUNDANT + slot * 2];
      chkLo := image[CHK_REDUNDANT + slot * 2 + 1];
      compHi := image[COMP_REDUNDANT + slot * 2];
      compLo := image[COMP_REDUNDANT + slot * 2 + 1];
      if chkHi == c.hi && chkLo == c.lo && compHi == Complement(c.hi) && compLo == Complement(c.lo) {
        return true;
      }
      return false;
    }

    method WriteDefaultControls()
      requires Valid()
      modifies slotBuf
      ensures slotBuf[..] == WithControls(old(slotBuf[..]))
    {
      BufPutU16(S_CTRL_SHOT, SNES_BTN_Y);
      BufPutU16(S_CTRL_JUMP, SNES_BTN_A);
      BufPutU16(S_CTRL_DASH, SNES_BTN_B);
      BufPutU16(S_CTRL_ITEM_CANCEL, SNES_BTN_X);
      BufPutU16(S_CTRL_ITEM_SELECT, SNES_BTN_SELECT);
      BufPutU16(S_CTRL_ANGLE_DOWN, SNES_BTN_L);
      BufPutU16(S_CTRL_ANGLE_UP, SNES_BTN_R);
    }

    /** The stats, reserve and time words of save_write. */
    method PutStatsAndTime(d: SaveRecord)
      requires Valid()
      modifies slotBuf
      ensures slotBuf[..] == WithTime(WithStats(old(slotBuf[..]), d), d)
    {
      BufPutU16(S_HP, d.hp);
      BufPutU16(S_HP_MAX, d.hpMax);
      BufPutU16(S_MISSILES, d.missiles);
      BufPutU16(S_MISSILES_MAX, d.missilesMax);
      BufPutU16(S_SUPERS, d.supers);
      BufPutU16(S_SUPERS_MAX, d.supersMax);
      BufPutU16(S_PB, d.powerBombs);
      BufPutU16(S_PB_MAX, d.powerBombsMax);
      BufPutU16(S_RESERVE_MAX, d.reserveHpMax);
      BufPutU16(S_RESERVE_HP, d.reserveHp);
      BufPutU16(S_TIME_FRAMES, d.timeFrames);
      BufPutU16(S_TIME_SECONDS, d.timeSeconds);
      BufPutU16(S_TIME_MINUTES, d.timeMinutes);
      BufPutU16(S_TIME_HOURS, d.timeHours);
    }

    /** The slot buffer save_write fills. */
    method BuildSlot(d: SaveRecord)
      requires Valid()
      modifies slotBuf
      ensures slotBuf[..] == Encoded(d)
    {
      forall k | 0 <= k < SLOT_SIZE {
        slotBuf[k] := 0;
      }
      assert slotBuf[..] == Zeros(SLOT_SIZE);
      PutEquipment(d.equipment);
      WriteDefaultControls();
      BufPutU16(S_RESERVE_MODE, 1);
      PutStatsAndTime(d);
      PutBosses(d.bossFlags);
      PutPosition(d);
    }

    /** The item and beam words, each stored twice. */
    method PutEquipment(e: Equipment)
      requires Valid()
      modifies slotBuf
      ensures slotBuf[..] == WithEquipment(old(slotBuf[..]), e)
    {
      var items := SnesItems(e) as int;
      var beams := SnesBeams(e) as int;
      BufPutU16(S_EQUIPPED_ITEMS, items);
      BufPutU16(S_COLLECTED_ITEMS, items);
      BufPutU16(S_EQUIPPED_BEAMS, beams);
      BufPutU16(S_COLLECTED_BEAMS, beams);
    }

    /** The per-area boss bytes. */
    method PutBosses(flags: bv16)
      requires Valid()
      modifies slotBuf
      ensures slotBuf[..] == Spliced(old(slotBuf[..]), S_BOSSES, BossBytes(flags))
    {
      var bosses := BossBytes(flags);
      forall k | 0 <= k < AREA_BOSS_BYTES {
        slotBuf[S_BOSSES + k] := bosses[k];
      }
    }

    /** The game-state, save-station and area words. */
    method PutPosition(d: SaveRecord)
      requires Valid()
      modifies slotBuf
      ensures slotBuf[..] == WithPosition(old(slotBuf[..]), d)
    {
      BufPutU16(S_GAME_STATE, 5);
      BufPutU16(S_SAVE_STATION, d.saveStationId);
      BufPutU16(S_AREA_ID, d.areaId);
    }

    /** save_write: false for a bad slot number; otherwise the slot and its checksums are stored. */
    method Write(slot: int, d: SaveRecord) returns (ok: bool)
      requires Valid()
      modifies image, slotBuf
      ensures ok == ValidSlot(slot)
      ensures image[..] == if ok then Written(old(image[..]), slot, d) else old(image[..])
    {
      if slot < 0 || slot >= SAVE_SLOT_COUNT {
        return false;
      }
      StoreSlot(slot, d);
      return true;
    }

    /** The body of save_write past the slot check: build, copy, checksum. */
    method StoreSlot(slot: int, d: SaveRecord)
      requires Valid() && ValidSlot(slot)
      modifies image, slotBuf
      ensures image[..] == Written(old(image[..]), slot, d)
    {
      ghost var img := image[..];
      SlotInImage(slot);
      BuildSlot(d);
      CopyBufToImage(SLOT_OFFSETS[slot]);
      ghost var copied := image[..];
      assert copied == Spliced(img, SLOT_OFFSETS[slot], Encoded(d));
      var c := SlotChecksum();
      WriteChecksums(slot, c.hi, c.lo);
      assert image[..] == WithChecksums(copied, slot, ChecksumOf(Encoded(d)));
    }

    /** save_read: the decoded record of a slot whose checksum validates. */
    method Read(slot: int) returns (r: Option<SaveRecord>)
      requires Valid()
      modifies slotBuf
      ensures r == ReadOf(image[..], slot)
      ensures image[..] == old(image[..])
    {
      if slot < 0 || slot >= SAVE_SLOT_COUNT {
        return None;
      }
      var ok := ValidateChecksum(slot);
      if !ok {
        return None;
      }
      var items := BufGetU16(S_COLLECTED_ITEMS);
      var beams := BufGetU16(S_COLLECTED_BEAMS);
      var hp := BufGetU16(S_HP);
      var hpMax := BufGetU16(S_HP_MAX);
      var missiles := BufGetU16(S_MISSILES);
      var missilesMax := BufGetU16(S_MISSILES_MAX);
      var supers := BufGetU16(S_SUPERS);
      var supersMax := BufGetU16(S_SUPERS_MAX);
      var pb := BufGetU16(S_PB);
      var pbMax := BufGetU16(S_PB_MAX);
      var reserveHp := BufGetU16(S_RESERVE_HP);
      var reserveMax := BufGetU16(S_RESERVE_MAX);
      var frames := BufGetU16(S_TIME_FRAMES);
      var seconds := BufGetU16(S_TIME_SECONDS);
      var minutes := BufGetU16(S_TIME_MINUTES);
      var hours := BufGetU16(S_TIME_HOURS);
      var bosses := BossFlagsFromSnes(slotBuf[S_BOSSES..S_BOSSES + AREA_BOSS_BYTES]);
      var area := BufGetU16(S_AREA_ID);
      var station := BufGetU16(S_SAVE_STATION);
      r := Some(SaveRecord(hp, hpMax, missiles, missilesMax, supers, supersMax, pb, pbMax, reserveHp, reserveMax,
                           EquipFromSnes(items as bv16, beams as bv16), frames, seconds, minutes, hours,
                           bosses, area, station));
    }

    /** save_slot_valid. */
    method SlotValid(slot: int) returns (ok: bool)
      requires Valid()
      modifies slotBuf
      ensures ok == (ValidSlot(slot) && SlotChecksumOk(image[..], slot))
      ensures image[..] == old(image[..])
    {
      if slot < 0 || slot >= SAVE_SLOT_COUNT {
        return false;
      }
      ok := ValidateChecksum(slot);
    }

    /** save_delete, as written. */
    method Delete(slot: int)
      requires Valid()
      modifies image
      ensures image[..] == if ValidSlot(slot) then Deleted(old(image[..]), slot) else old(image[..])
    {
      if slot < 0 || slot >= SAVE_SLOT_COUNT {
        return;
      }
      SlotInImage(slot);
      ZeroSlot(SLOT_OFFSETS[slot]);
      WriteChecksums(slot, 0, 0);
    }

    /** save_delete as intended: the slot zeroed and all eight checksum bytes set to zero. */
    method DeleteCorrected(slot: int)
      requires Valid()
      modifies image
      ensures image[..] == if ValidSlot(slot) then Erased(old(image[..]), slot) else old(image[..])
    {
      if slot < 0 || slot >= SAVE_SLOT_COUNT {
        return;
      }
      SlotInImage(slot);
      ZeroSlot(SLOT_OFFSETS[slot]);
      image[CHK_PRIMARY + slot * 2] := 0;
      image[CHK_PRIMARY + slot * 2 + 1] := 0;
      image[COMP_PRIMARY + slot * 2] := 0;
      image[COMP_PRIMARY + slot * 2 + 1] := 0;
      image[CHK_REDUNDANT + slot * 2] := 0;
      image[CHK_REDUNDANT + slot * 2 + 1] := 0;
      image[COMP_REDUNDANT + slot * 2] := 0;
      image[COMP_REDUNDANT + slot * 2 + 1] := 0;
    }

    /** sram_zero of one slot. */
    method ZeroSlot(off: nat)
      requires Valid() && off + SLOT_SIZE <= SRAM_SIZE
      modifies image
      ensures image[..] == Spliced(old(image[..]), off, Zeros(SLOT_SIZE))
    {
      forall k | 0 <= k < SLOT_SIZE {
        image[off + k] := 0;
      }
    }
  }

  // ---------------------------------------------------------------------
  // Properties of the image
  // ---------------------------------------------------------------------

  /** Slot `t`'s bytes are none of slot `s`'s checksum bytes. */
  lemma SlotByteNotChecksum(s: int, t: int, k: nat)
    requires ValidSlot(s) && ValidSlot(t) && k < SLOT_SIZE
    ensures SLOT_OFFSETS[t] + k < SRAM_SIZE && SLOT_OFFSETS[t] + k !in ChecksumBytes(s)
  {
  }

  /** Every slot lies inside the image. */
  lemma SlotInImage(s: int)
    requires ValidSlot(s)
    ensures SLOT_OFFSETS[s] + SLOT_SIZE <= SRAM_SIZE
  {
  }

  /** Two different slots occupy disjoint regions. */
  lemma SlotsApart(s: int, t: int)
    requires ValidSlot(s) && ValidSlot(t) && s != t
    ensures SLOT_OFFSETS[s] + SLOT_SIZE <= SLOT_OFFSETS[t] || SLOT_OFFSETS[t] + SLOT_SIZE <= SLOT_OFFSETS[s]
  {
  }

  /** A checksum byte of slot `t` is in no slot region and is not a checksum byte of another slot. */
  lemma ChecksumByteApart(s: int, t: int, k: nat)
    requires ValidSlot(s) && ValidSlot(t) && s != t && k in ChecksumBytes(t)
    ensures k < SRAM_SIZE && k !in ChecksumBytes(s)
    ensures k < SLOT_OFFSETS[s] || SLOT_OFFSETS[s] + SLOT_SIZE <= k
  {
  }

  /** Storing checksums leaves every slot's bytes as they were. */
  lemma {:induction false} ChecksumsKeepSlot(img: seq<byte>, s: int, t: int, hi: byte, lo: byte, chi: byte, clo: byte)
    requires ImageOk(img) && ValidSlot(s) && ValidSlot(t)
    ensures SlotBytes(WithRawChecksums(img, s, hi, lo, chi, clo), t) == SlotBytes(img, t)
  {
    var r := WithRawChecksums(img, s, hi, lo, chi, clo);
    forall k | 0 <= k < SLOT_SIZE ensures SlotBytes(r, t)[k] == SlotBytes(img, t)[k] {
      SlotByteNotChecksum(s, t, k);
    }
  }

  /** Copying a buffer over slot `s` puts it there and leaves every other slot as it was. */
  lemma {:induction false} SpliceSlot(img: seq<byte>, s: int, t: int, buf: seq<byte>)
    requires ImageOk(img) && ValidSlot(s) && ValidSlot(t) && |buf| == SLOT_SIZE
    ensures SlotBytes(Spliced(img, SLOT_OFFSETS[s], buf), t) == if s == t then buf else SlotBytes(img, t)
  {
    var r := Spliced(img, SLOT_OFFSETS[s], buf);
    if s != t {
      SlotsApart(s, t);
    }
    forall k | 0 <= k < SLOT_SIZE ensures SlotBytes(r, t)[k] == (if s == t then buf else SlotBytes(img, t))[k] {
    }
  }

  /** Whether slot `t` validates depends on its bytes and its checksum bytes only. */
  lemma {:induction false} ValidityFromOwnBytes(a: seq<byte>, b: seq<byte>, t: int)
    requires ImageOk(a) && ImageOk(b) && ValidSlot(t)
    requires SlotBytes(a, t) == SlotBytes(b, t)
    requires forall k :: k in ChecksumBytes(t) ==> k < SRAM_SIZE && a[k] == b[k]
    ensures SlotChecksumOk(a, t) == SlotChecksumOk(b, t)
    ensures ReadOf(a, t) == ReadOf(b, t)
  {
    assert CHK_PRIMARY + t * 2 in ChecksumBytes(t) && CHK_PRIMARY + t * 2 + 1 in ChecksumBytes(t);
    assert COMP_PRIMARY + t * 2 in ChecksumBytes(t) && COMP_PRIMARY + t * 2 + 1 in ChecksumBytes(t);
    assert CHK_REDUNDANT + t * 2 in ChecksumBytes(t) && CHK_REDUNDANT + t * 2 + 1 in ChecksumBytes(t);
    assert COMP_REDUNDANT + t * 2 in ChecksumBytes(t) && COMP_REDUNDANT + t * 2 + 1 in ChecksumBytes(t);
  }

  /** A stored buffer is what the slot then holds, and the slot validates. */
  lemma {:induction false} StoreThenRead(img: seq<byte>, s: int, buf: seq<byte>)
    requires ImageOk(img) && ValidSlot(s) && |buf| == SLOT_SIZE
    ensures SlotBytes(Stored(img, s, buf), s) == buf
    ensures SlotChecksumOk(Stored(img, s, buf), s)
    ensures ReadOf(Stored(img, s, buf), s) == Some(Decoded(buf))
  {
    var c := ChecksumOf(buf);
    SlotInImage(s);
    var sp := Spliced(img, SLOT_OFFSETS[s], buf);
    SpliceSlot(img, s, s, buf);
    ChecksumsKeepSlot(sp, s, s, c.hi, c.lo, Complement(c.hi), Complement(c.lo));
  }

  /** Storing into one slot leaves every other slot's bytes and checksum bytes as they were. */
  lemma {:induction false} StoreKeepsOtherSlots(img: seq<byte>, s: int, t: int, buf: seq<byte>)
    requires ImageOk(img) && ValidSlot(s) && ValidSlot(t) && s != t && |buf| == SLOT_SIZE
    ensures SlotBytes(Stored(img, s, buf), t) == SlotBytes(img, t)
    ensures SlotChecksumOk(Stored(img, s, buf), t) == SlotChecksumOk(img, t)
    ensures ReadOf(Stored(img, s, buf), t) == ReadOf(img, t)
  {
    var c := ChecksumOf(buf);
    SlotInImage(s);
    var sp := Spliced(img, SLOT_OFFSETS[s], buf);
    var w := Stored(img, s, buf);
    SpliceSlot(img, s, t, buf);
    ChecksumsKeepSlot(sp, s, t, c.hi, c.lo, Complement(c.hi), Complement(c.lo));
    forall k | k in ChecksumBytes(t) ensures k < SRAM_SIZE && w[k] == img[k] {
      ChecksumByteApart(s, t, k);
    }
    ValidityFromOwnBytes(w, img, t);
  }

  /** A write stores exactly the encoded record and a matching checksum, so the slot validates and reads back. */
  lemma {:induction false} WriteThenRead(img: seq<byte>, s: int, d: SaveRecord)
    requires ImageOk(img) && ValidSlot(s)
    ensures SlotBytes(Written(img, s, d), s) == Encoded(d)
    ensures SlotChecksumOk(Written(img, s, d), s)
    ensures ReadOf(Written(img, s, d), s) == Some(Normalised(d))
  {
    StoreThenRead(img, s, Encoded(d));
    DecodeEncoded(d);
  }

  /** Writing one slot leaves another slot's validity and contents as they were. */
  lemma {:induction false} WriteKeepsOtherSlots(img: seq<byte>, s: int, t: int, d: SaveRecord)
    requires ImageOk(img) && ValidSlot(s) && ValidSlot(t) && s != t
    ensures SlotBytes(Written(img, s, d), t) == SlotBytes(img, t)
    ensures SlotChecksumOk(Written(img, s, d), t) == SlotChecksumOk(img, t)
    ensures ReadOf(Written(img, s, d), t) == ReadOf(img, t)
  {
    StoreKeepsOtherSlots(img, s, t, Encoded(d));
  }

  /** A stored pair validates only when it is the slot's checksum: any other pair in both places is refused. */
  lemma {:induction false} StoredPairDecides(img: seq<byte>, s: int, c: Checksum)
    requires ImageOk(img) && ValidSlot(s)
    ensures SlotChecksumOk(WithChecksums(img, s, c), s) <==> c == ChecksumOf(SlotBytes(img, s))
  {
    ChecksumsKeepSlot(img, s, s, c.hi, c.lo, Complement(c.hi), Complement(c.lo));
  }

  /** A slot region of zeros has checksum (0, 0). */
  lemma {:induction false} ZeroSlotChecksum(img: seq<byte>, s: int)
    requires ImageOk(img) && ValidSlot(s)
    ensures ChecksumOf(SlotBytes(Spliced(img, SLOT_OFFSETS[s], Zeros(SLOT_SIZE)), s)) == Checksum(0, 0)
  {
    SpliceSlot(img, s, s, Zeros(SLOT_SIZE));
    ZeroBlockChecksum(Zeros(SLOT_SIZE), (SLOT_SIZE + 1) / 2);
  }

  /** As written, a deleted slot still validates: its bytes are zero, their checksum is (0, 0), and (0, 0) was stored with its complement. */
  lemma {:induction false} DeletedSlotStillValid(img: seq<byte>, s: int)
    requires ImageOk(img) && ValidSlot(s)
    ensures SlotChecksumOk(Deleted(img, s), s)
    ensures ReadOf(Deleted(img, s), s).Some?
  {
    SlotInImage(s);
    var z := Spliced(img, SLOT_OFFSETS[s], Zeros(SLOT_SIZE));
    ZeroSlotChecksum(img, s);
    ChecksumsKeepSlot(z, s, s, 0, 0, Complement(0), Complement(0));
  }

  /** Deleting as intended leaves a slot that no longer validates and reads as absent. */
  lemma {:induction false} ErasedSlotInvalid(img: seq<byte>, s: int)
    requires ImageOk(img) && ValidSlot(s)
    ensures !SlotChecksumOk(Erased(img, s), s)
    ensures ReadOf(Erased(img, s), s) == None
  {
    ErasedChecksumFails(img, s);
  }

  lemma {:induction false} ErasedChecksumFails(img: seq<byte>, s: int)
    requires ImageOk(img) && ValidSlot(s)
    ensures !SlotChecksumOk(Erased(img, s), s)
  {
    SlotInImage(s);
    var z := Spliced(img, SLOT_OFFSETS[s], Zeros(SLOT_SIZE));
    ZeroSlotChecksum(img, s);
    ChecksumsKeepSlot(z, s, s, 0, 0, 0, 0);
  }

  /** Deleting either way touches no other slot. */
  lemma {:induction false} DeleteKeepsOtherSlots(img: seq<byte>, s: int, t: int)
    requires ImageOk(img) && ValidSlot(s) && ValidSlot(t) && s != t
    ensures ReadOf(Deleted(img, s), t) == ReadOf(img, t)
    ensures ReadOf(Erased(img, s), t) == ReadOf(img, t)
  {
    SlotInImage(s);
    var z := Spliced(img, SLOT_OFFSETS[s], Zeros(SLOT_SIZE));
    var del := Deleted(img, s);
    var e := Erased(img, s);
    SpliceSlot(img, s, t, Zeros(SLOT_SIZE));
    ChecksumsKeepSlot(z, s, t, 0, 0, Complement(0), Complement(0));
    ChecksumsKeepSlot(z, s, t, 0, 0, 0, 0);
    forall k | k in ChecksumBytes(t) ensures k < SRAM_SIZE && del[k] == img[k] && e[k] == img[k] {
      ChecksumByteApart(s, t, k);
    }
    ValidityFromOwnBytes(del, img, t);
    ValidityFromOwnBytes(e, img, t);
  }
}
