/**
 * LoROM address conversion of the asset tools (tools/rom_addresses.py):
 * a SNES bank:address in banks $80-$FF, address $8000-$FFFF, maps to the
 * file offset (bank & 0x7F) * 0x8000 + (address - 0x8000).
 *
 * Python integers are unbounded, like Dafny's. For the positive masks and
 * shifts used here Python's `x & (2^k - 1)` is `x % 2^k` and `x >> k` is
 * `x / 2^k` with Dafny's operators, for negative x as well.
 */
module ToolsRomAddresses {
  const ROM_BANK_SIZE: int := 0x8000
  const BANK_WINDOW_START: int := 0x8000
  const SM_ROM_SIZE: int := 0x300000
  const SM_HEADER_SIZE: int := 512

  /**
   * snes_to_rom: for an address in the $8000-$FFFF window, the offset lies
   * in the 32 KB block of the bank without its mirror bit, at the address's
   * place in the window.
   */
  function SnesToRom(bank: int, addr: int): (r: int)
    ensures InWindow(addr) ==> r / ROM_BANK_SIZE == bank % 0x80 && r % ROM_BANK_SIZE == addr - BANK_WINDOW_START
    ensures !InWindow(addr) && addr < BANK_WINDOW_START ==> r < (bank % 0x80) * ROM_BANK_SIZE
  {
    (bank % 0x80) * ROM_BANK_SIZE + (addr - BANK_WINDOW_START)
  }

  /**
   * snes_long_to_rom: bank from bits 16-23, address from bits 0-15. When
   * bit 15 of the long address is set, the offset's bank block is bits
   * 16-22 and its place in the block is bits 0-14.
   */
  function SnesLongToRom(longAddr: int): (r: int)
    ensures InWindow(longAddr % 0x10000) ==>
      r / ROM_BANK_SIZE == (longAddr / 0x10000) % 0x80 && r % ROM_BANK_SIZE == longAddr % ROM_BANK_SIZE
  {
    var bank := (longAddr / 0x10000) % 0x100;
    var addr := longAddr % 0x10000;
    MirrorBitOfLongBank(longAddr);
    LowBitsOfWindow(longAddr);
    SnesToRom(bank, addr)
  }

  lemma MirrorBitOfLongBank(longAddr: int)
    ensures ((longAddr / 0x10000) % 0x100) % 0x80 == (longAddr / 0x10000) % 0x80
  {
    var q := longAddr / 0x10000;
    assert q % 0x100 == q - (q / 0x100) * 0x100;
    assert (q % 0x100) % 0x80 == (q - (q / 0x100) * 0x100) % 0x80;
  }

  lemma LowBitsOfWindow(longAddr: int)
    ensures InWindow(longAddr % 0x10000) ==> longAddr % 0x10000 - BANK_WINDOW_START == longAddr % ROM_BANK_SIZE
  {
  }

  /** The bank:address (bank in $80-$FF) that a file offset of the 4 MB LoROM range is read through. */
  function RomToSnes(offset: int): (int, int)
  {
    (0x80 + offset / ROM_BANK_SIZE, BANK_WINDOW_START + offset % ROM_BANK_SIZE)
  }

  predicate InWindow(addr: int) { BANK_WINDOW_START <= addr <= 0xFFFF }

  // Some of the named regions, as the module computes them.
  const ROOM_HEADERS_START: int := SnesToRom(0x8F, 0x91F8)
  const PALETTE_DATA_START: int := SnesToRom(0xC2, 0x8000)
  const LEVEL_DATA_START: int := SnesToRom(0xC3, 0x8000)
  const LEVEL_DATA_END: int := SnesToRom(0xCE, 0xFFFF)

  // ---------------------------------------------------------------------
  // Properties
  // ---------------------------------------------------------------------

  /** The two examples of the module's own description. */
  lemma DocumentedExamples()
    ensures SnesToRom(0x80, 0x8000) == 0
    ensures SnesToRom(0x81, 0x8000) == 0x8000
    ensures PALETTE_DATA_START == 0x210000 && ROOM_HEADERS_START == 0x0791F8
    ensures LEVEL_DATA_START == 0x218000 && LEVEL_DATA_END == 0x277FFF
  {
  }

  /** Bit 7 of the bank (the FastROM mirror bit) is ignored. */
  lemma BankBitSevenIgnored(bank: int, addr: int)
    ensures SnesToRom(bank, addr) == SnesToRom(bank % 0x80, addr)
    ensures SnesToRom(bank + 0x80, addr) == SnesToRom(bank, addr)
  {
  }

  /** An address in $8000-$FFFF lands inside its bank's 32 KB of the file. */
  lemma InsideBankWindow(bank: int, addr: int)
    requires InWindow(addr)
    ensures (bank % 0x80) * ROM_BANK_SIZE <= SnesToRom(bank, addr) < (bank % 0x80 + 1) * ROM_BANK_SIZE
    ensures 0 <= SnesToRom(bank, addr) < 0x80 * ROM_BANK_SIZE
  {
  }

  /** So two window addresses share an offset exactly when they name the same bank (bit 7 aside) and address. */
  lemma WindowAddressesDistinct(b1: int, a1: int, b2: int, a2: int)
    requires InWindow(a1) && InWindow(a2)
    ensures SnesToRom(b1, a1) == SnesToRom(b2, a2) <==> b1 % 0x80 == b2 % 0x80 && a1 == a2
  {
    InsideBankWindow(b1, a1);
    InsideBankWindow(b2, a2);
  }

  /** Every offset below 4 MB is reached from exactly one bank $80-$FF window address, and back. */
  lemma OffsetRoundTrip(offset: int)
    requires 0 <= offset < 0x80 * ROM_BANK_SIZE
    ensures var (bank, addr) := RomToSnes(offset);
      0x80 <= bank <= 0xFF && InWindow(addr) && SnesToRom(bank, addr) == offset
  {
  }

  lemma AddressRoundTrip(bank: int, addr: int)
    requires 0x80 <= bank <= 0xFF && InWindow(addr)
    ensures RomToSnes(SnesToRom(bank, addr)) == (bank, addr)
  {
    var offset := SnesToRom(bank, addr);
    assert offset == (bank - 0x80) * ROM_BANK_SIZE + (addr - BANK_WINDOW_START);
  }

  /** A long address is its bank shifted above its 16-bit address: `(b << 16) | a`, that is b * 0x10000 + a. */
  lemma LongAddressSplits(bank: int, addr: int)
    requires 0 <= bank < 0x100 && 0 <= addr < 0x10000
    ensures SnesLongToRom(bank * 0x10000 + addr) == SnesToRom(bank, addr)
  {
    var l := bank * 0x10000 + addr;
    assert l / 0x10000 == bank && l % 0x10000 == addr;
  }
}
