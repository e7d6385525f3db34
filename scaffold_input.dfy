/**
 * The scaffold's input layer (src/input/input.c): the key masks of the
 * current frame, the previous frame's held mask, and an eight-entry ring of
 * the low bytes of the held masks for buffered technique windows. The
 * hardware scan (scanKeys, keysDown, keysHeld, keysUp, touchRead) is outside
 * the model: each frame's masks are parameters of `Update`.
 */
module ScaffoldInput {
  type KeyMask = bv16

  // The libnds key bits.
  const KEY_A: KeyMask := 1 << 0
  const KEY_B: KeyMask := 1 << 1
  const KEY_SELECT: KeyMask := 1 << 2
  const KEY_START: KeyMask := 1 << 3
  const KEY_RIGHT: KeyMask := 1 << 4
  const KEY_LEFT: KeyMask := 1 << 5
  const KEY_UP: KeyMask := 1 << 6
  const KEY_DOWN: KeyMask := 1 << 7
  const KEY_R: KeyMask := 1 << 8
  const KEY_L: KeyMask := 1 << 9
  const KEY_X: KeyMask := 1 << 10
  const KEY_Y: KeyMask := 1 << 11
  const KEY_TOUCH: bv32 := 1 << 12

  /** InputCheckType; any other value is accepted by the C functions and matches nothing. */
  const INPUT_PRESSED: int := 0
  const INPUT_HELD: int := 1
  const INPUT_RELEASED: int := 2

  const INPUT_BUFFER_SIZE: int := 8

  predicate KnownType(t: int) { t == INPUT_PRESSED || t == INPUT_HELD || t == INPUT_RELEASED }

  /** The low byte of a key mask, which is all the ring keeps. */
  function LowByte(m: KeyMask): bv8 { (m & 0xFF) as bv8 }

  /** The ring position `back` frames before `index`. */
  function RingSlot(index: int, back: int): (slot: int)
    requires 0 <= index < INPUT_BUFFER_SIZE && 1 <= back < INPUT_BUFFER_SIZE
    ensures 0 <= slot < INPUT_BUFFER_SIZE && slot == (index - back + INPUT_BUFFER_SIZE) % INPUT_BUFFER_SIZE
  {
    if index >= back then index - back else index - back + INPUT_BUFFER_SIZE
  }

  /** The ring entry `back` frames before `index`, for back in 1..7. */
  function EntryBefore(buf: seq<bv8>, index: int, back: int): bv8
    requires |buf| == INPUT_BUFFER_SIZE && 0 <= index < INPUT_BUFFER_SIZE && 1 <= back < INPUT_BUFFER_SIZE
  {
    buf[RingSlot(index, back)]
  }

  /**
   * What input_buffered answers: a window of 1..7 frames in which one of
   * the stored low bytes meets the button's low byte.
   */
  predicate InWindow(buf: seq<bv8>, index: int, button: KeyMask, framesBack: int)
    requires |buf| == INPUT_BUFFER_SIZE && 0 <= index < INPUT_BUFFER_SIZE
  {
    && 1 <= framesBack < INPUT_BUFFER_SIZE
    && exists back :: 1 <= back <= framesBack && EntryBefore(buf, index, back) & LowByte(button) != 0
  }

  /** A wider window sees everything a narrower one does. */
  lemma WindowWidens(buf: seq<bv8>, index: int, button: KeyMask, f1: int, f2: int)
    requires |buf| == INPUT_BUFFER_SIZE && 0 <= index < INPUT_BUFFER_SIZE
    requires f1 <= f2 < INPUT_BUFFER_SIZE && InWindow(buf, index, button, f1)
    ensures InWindow(buf, index, button, f2)
  {
    var back :| 1 <= back <= f1 && EntryBefore(buf, index, back) & LowByte(button) != 0;
    assert 1 <= back <= f2;
  }

  /** The one-frame window after storing `v` at `index` sees exactly `v`. */
  lemma StoredEntryInWindow(buf: seq<bv8>, index: int, v: bv8, button: KeyMask)
    requires |buf| == INPUT_BUFFER_SIZE && 0 <= index < INPUT_BUFFER_SIZE
    ensures InWindow(buf[index := v], if index == 7 then 0 else index + 1, button, 1)
      <==> v & LowByte(button) != 0
  {
    assert EntryBefore(buf[index := v], if index == 7 then 0 else index + 1, 1) == v;
  }

  /**
   * Right after a frame is stored at `index`, the one-frame window sees
   * exactly that frame's low byte.
   */
  lemma LatestFrameInWindow(buf: seq<bv8>, index: int, held: KeyMask, button: KeyMask)
    requires |buf| == INPUT_BUFFER_SIZE && 0 <= index < INPUT_BUFFER_SIZE
    ensures InWindow(buf[index := LowByte(held)], (index + 1) % INPUT_BUFFER_SIZE, button, 1)
      <==> LowByte(held) & LowByte(button) != 0
  {
    assert (index + 1) % INPUT_BUFFER_SIZE == if index == 7 then 0 else index + 1;
    StoredEntryInWindow(buf, index, LowByte(held), button);
  }

  /** The same for every button, stated about the ring and index after the store. */
  lemma LatestFrameAlwaysInWindow(buf: seq<bv8>, index: int, held: KeyMask, after: seq<bv8>, next: int)
    requires |buf| == INPUT_BUFFER_SIZE && 0 <= index < INPUT_BUFFER_SIZE
    requires after == buf[index := LowByte(held)] && next == (index + 1) % INPUT_BUFFER_SIZE
    ensures forall button: KeyMask ::
      InWindow(after, next, button, 1) <==> LowByte(held) & LowByte(button) != 0
  {
    forall button: KeyMask
      ensures InWindow(after, next, button, 1) <==> LowByte(held) & LowByte(button) != 0
    {
      LatestFrameInWindow(buf, index, held, button);
    }
  }

  /** One meeting entry inside the window is enough. */
  lemma EntryWitnessesWindow(buf: seq<bv8>, index: int, button: KeyMask, framesBack: int, back: int)
    requires |buf| == INPUT_BUFFER_SIZE && 0 <= index < INPUT_BUFFER_SIZE
    requires 1 <= back <= framesBack < INPUT_BUFFER_SIZE
    requires EntryBefore(buf, index, back) & LowByte(button) != 0
    ensures InWindow(buf, index, button, framesBack)
  {
  }

  /** An all-zero ring sees no button in any window. */
  lemma ZeroRingSeesNothing(buf: seq<bv8>)
    requires |buf| == INPUT_BUFFER_SIZE && forall k :: 0 <= k < INPUT_BUFFER_SIZE ==> buf[k] == 0
    ensures forall b: KeyMask, f :: !InWindow(buf, 0, b, f)
  {
    forall b: KeyMask, back: int | 1 <= back < INPUT_BUFFER_SIZE
      ensures EntryBefore(buf, 0, back) & LowByte(b) == 0
    {
      assert EntryBefore(buf, 0, back) == 0;
    }
  }

  /** Buttons above the low byte are never seen by the ring. */
  lemma HighButtonsNeverBuffered(buf: seq<bv8>, index: int, button: KeyMask, framesBack: int)
    requires |buf| == INPUT_BUFFER_SIZE && 0 <= index < INPUT_BUFFER_SIZE
    requires button & 0xFF == 0
    ensures !InWindow(buf, index, button, framesBack)
  {
    assert LowByte(button) == 0;
  }

  class InputSystem {
    var pressed: KeyMask
    var held: KeyMask
    var released: KeyMask
    var previous: KeyMask
    const buffer: array<bv8>
    var bufferIndex: int
    var touchActive: bool

    ghost predicate Valid()
      reads this
    {
      buffer.Length == INPUT_BUFFER_SIZE && 0 <= bufferIndex < INPUT_BUFFER_SIZE
    }

    /** input_init: every mask and ring entry zero. */
    constructor ()
      ensures Valid() && fresh(buffer)
      ensures pressed == 0 && held == 0 && released == 0 && previous == 0
      ensures buffer[..] == seq(INPUT_BUFFER_SIZE, _ => 0) && bufferIndex == 0 && !touchActive
    {
      pressed, held, released, previous := 0, 0, 0, 0;
      buffer := new bv8[INPUT_BUFFER_SIZE](_ => 0);
      bufferIndex := 0;
      touchActive := false;
    }

    /**
     * input_update, given the frame's keysDown, keysHeld and keysUp masks:
     * the masks are cached (truncated to 16 bits), the held mask's low byte
     * is stored at the ring index and the index advances modulo 8.
     */
    method Update(keysDown: bv32, keysHeld: bv32, keysUp: bv32)
      requires Valid()
      modifies this, buffer
      ensures Valid()
      ensures previous == old(held)
      ensures pressed == (keysDown & 0xFFFF) as KeyMask && held == (keysHeld & 0xFFFF) as KeyMask
      ensures released == (keysUp & 0xFFFF) as KeyMask
      ensures buffer[..] == old(buffer[..])[old(bufferIndex) := LowByte(held)]
      ensures bufferIndex == (old(bufferIndex) + 1) % INPUT_BUFFER_SIZE
      ensures touchActive == (keysHeld & KEY_TOUCH != 0)
      ensures forall b: KeyMask :: InWindow(buffer[..], bufferIndex, b, 1) <==> LowByte(held) & LowByte(b) != 0
    {
      previous := held;
      var current := (keysHeld & 0xFFFF) as KeyMask;
      pressed := (keysDown & 0xFFFF) as KeyMask;
      held := current;
      released := (keysUp & 0xFFFF) as KeyMask;
      ghost var before, index := buffer[..], bufferIndex;
      buffer[bufferIndex] := LowByte(current);
      bufferIndex := (bufferIndex + 1) % INPUT_BUFFER_SIZE;
      touchActive := keysHeld & KEY_TOUCH != 0;
      LatestFrameAlwaysInWindow(before, index, held, buffer[..], bufferIndex);
    }

    /** input_shutdown: everything back to zero. */
    method Shutdown()
      requires Valid()
      modifies this, buffer
      ensures Valid()
      ensures pressed == 0 && held == 0 && released == 0 && previous == 0
      ensures buffer[..] == seq(INPUT_BUFFER_SIZE, _ => 0) && bufferIndex == 0 && !touchActive
    {
      pressed, held, released, previous := 0, 0, 0, 0;
      ClearBuffer();
      touchActive := false;
    }

    /** input_check_any: some key of the mask is in the selected state. */
    function CheckAny(mask: KeyMask, t: int): (r: bool)
      reads this
      ensures !KnownType(t) ==> !r
      ensures mask == 0 ==> !r
    {
      if t == INPUT_PRESSED then pressed & mask != 0
      else if t == INPUT_HELD then held & mask != 0
      else if t == INPUT_RELEASED then released & mask != 0
      else false
    }

    /**
     * input_check: the same switch as input_check_any, applied to a single
     * button.
     */
    function Check(button: KeyMask, t: int): (r: bool)
      reads this
      ensures r == CheckAny(button, t)
    {
      if t == INPUT_PRESSED then pressed & button != 0
      else if t == INPUT_HELD then held & button != 0
      else if t == INPUT_RELEASED then released & button != 0
      else false
    }

    /** input_check_all: every key of the mask is in the selected state. */
    function CheckAll(mask: KeyMask, t: int): (r: bool)
      reads this
      ensures !KnownType(t) ==> !r
      ensures KnownType(t) && mask == 0 ==> r
      ensures r && mask != 0 ==> CheckAny(mask, t)
    {
      if t == INPUT_PRESSED then pressed & mask == mask
      else if t == INPUT_HELD then held & mask == mask
      else if t == INPUT_RELEASED then released & mask == mask
      else false
    }

    /** input_buffered: a read-only scan of the last framesBack ring entries. */
    method Buffered(button: KeyMask, framesBack: int) returns (r: bool)
      requires Valid() && 0 <= framesBack < 0x100
      ensures framesBack == 0 || framesBack >= INPUT_BUFFER_SIZE ==> !r
      ensures r <==> InWindow(buffer[..], bufferIndex, button, framesBack)
    {
      if framesBack == 0 || framesBack >= INPUT_BUFFER_SIZE {
        return false;
      }
      var buttonByte := LowByte(button);
      ghost var ring := buffer[..];
      var i := 1;
      while i <= framesBack
        invariant 1 <= i <= framesBack + 1
        invariant forall back :: 1 <= back < i ==> EntryBefore(ring, bufferIndex, back) & buttonByte == 0
      {
        var index := (bufferIndex - i + INPUT_BUFFER_SIZE) % INPUT_BUFFER_SIZE;
        assert index == RingSlot(bufferIndex, i);
        if buffer[index] & buttonByte != 0 {
          EntryWitnessesWindow(ring, bufferIndex, button, framesBack, i);
          return true;
        }
        i := i + 1;
      }
      return false;
    }

    /** input_clear_buffer: the ring is zeroed and the index reset, so no window sees any button. */
    method ClearBuffer()
      requires Valid()
      modifies this, buffer
      ensures Valid()
      ensures buffer[..] == seq(INPUT_BUFFER_SIZE, _ => 0) && bufferIndex == 0
      ensures pressed == old(pressed) && held == old(held) && released == old(released)
      ensures previous == old(previous) && touchActive == old(touchActive)
      ensures forall b: KeyMask, f :: !InWindow(buffer[..], bufferIndex, b, f)
    {
      forall k | 0 <= k < INPUT_BUFFER_SIZE {
        buffer[k] := 0;
      }
      bufferIndex := 0;
      assert buffer[..] == seq(INPUT_BUFFER_SIZE, _ => 0);
      ZeroRingSeesNothing(buffer[..]);
    }
  }

  /** For a single-button mask, "all" and "any" agree. */
  lemma SingleButtonAllIsAny(inp: InputSystem, button: KeyMask, t: int)
    requires button != 0 && button & (button - 1) == 0
    ensures inp.CheckAll(button, t) == inp.CheckAny(button, t)
  {
  }
}
