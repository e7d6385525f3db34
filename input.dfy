/**
 * The game's input layer (source/input.c): the cached key masks of the
 * current frame, a ring of the pressed masks of the last eight frames and a
 * saturating hold counter per key bit. The hardware scan is outside the
 * model: each frame's pressed, held and released masks are parameters of
 * `Update`.
 */
module Input {
  import opened CInt

  type KeyMask = bv32

  // The libnds key bits.
  const KEY_A: KeyMask := 1 << 0
  const KEY_B: KeyMask := 1 << 1
  const KEY_SELECT: KeyMask := 1 << 2
  const KEY_START: KeyMask := 1 << 3
  const KEY_RIGHT: KeyMask := 1 << 4
  const KEY_LEFT: KeyMask := 1 << 5
  const KEY_UP: KeyMask := 1 << 6
  const KEY_DOWN: KeyMask := 1 << 7
  const KEY_R: KeyMask := 1 << 8
  const KEY_L: KeyMask := 1 << 9
  const KEY_X: KeyMask := 1 << 10
  const KEY_Y: KeyMask := 1 << 11

  const INPUT_BUFFER_FRAMES: int := 8
  const INPUT_BUFFER_WINDOW: int := 5
  const HOLD_COUNTERS: int := 16
  const HOLD_MAX: int := 0xFFFF

  /** The three masks cached by the last update. */
  datatype KeyState = KeyState(pressed: KeyMask, held: KeyMask, released: KeyMask)

  /** A mask has a bit of the key. */
  predicate Meets(m: KeyMask, key: KeyMask) { m & key != 0 }

  predicate KeyPressed(k: KeyState, key: KeyMask) { Meets(k.pressed, key) }
  predicate KeyHeld(k: KeyState, key: KeyMask) { Meets(k.held, key) }
  predicate KeyReleased(k: KeyState, key: KeyMask) { Meets(k.released, key) }

  /** Bit b of a mask, for b in 0..15. */
  predicate BitSet(m: KeyMask, b: int)
    requires 0 <= b < 16
  {
    m & ((1 as bv32) << b) != 0
  }

  /** One frame of a hold counter: count up while held, stop at 0xFFFF, reset when released. */
  function NextHold(h: int, held: bool): (r: int)
    requires IsUint16(h)
    ensures IsUint16(r)
    ensures held ==> r == (if h < HOLD_MAX then h + 1 else HOLD_MAX)
    ensures !held ==> r == 0
  {
    if held then (if h < HOLD_MAX then h + 1 else h) else 0
  }

  /** A hold counter after a sequence of frames, the oldest first. */
  function HoldAfter(h: int, frames: seq<bool>): (r: int)
    requires IsUint16(h)
    ensures IsUint16(r)
    decreases |frames|
  {
    if |frames| == 0 then h else HoldAfter(NextHold(h, frames[0]), frames[1..])
  }

  function Min(a: int, b: int): int { if a <= b then a else b }

  /**
   * A counter that starts at h and sees its key held on n consecutive frames
   * reads min(h + n, 0xFFFF).
   */
  lemma {:induction false} HoldCountsHeldFrames(h: int, frames: seq<bool>)
    requires IsUint16(h)
    requires forall i :: 0 <= i < |frames| ==> frames[i]
    ensures HoldAfter(h, frames) == Min(h + |frames|, HOLD_MAX)
    decreases |frames|
  {
    if |frames| > 0 {
      HoldCountsHeldFrames(NextHold(h, frames[0]), frames[1..]);
    }
  }

  /** A frame without the key resets the counter, whatever it read before. */
  lemma {:induction false} ReleaseResetsHold(h: int, frames: seq<bool>)
    requires IsUint16(h) && |frames| > 0 && !frames[|frames| - 1]
    ensures HoldAfter(h, frames) == 0
    decreases |frames|
  {
    if |frames| > 1 {
      ReleaseResetsHold(NextHold(h, frames[0]), frames[1..]);
    }
  }

  /** The position of the i-th most recent entry of the ring whose next write goes to index. */
  function RecentSlot(index: int, i: int): (r: int)
    requires 0 <= index < INPUT_BUFFER_FRAMES && 0 <= i < INPUT_BUFFER_FRAMES
    ensures 0 <= r < INPUT_BUFFER_FRAMES
  {
    (index - 1 - i + INPUT_BUFFER_FRAMES) % INPUT_BUFFER_FRAMES
  }

  /** The i-th most recent pressed mask holds the key. */
  predicate RecentHit(buf: seq<KeyMask>, index: int, i: int, key: KeyMask)
    requires |buf| == INPUT_BUFFER_FRAMES && 0 <= index < INPUT_BUFFER_FRAMES && 0 <= i < INPUT_BUFFER_FRAMES
  {
    buf[RecentSlot(index, i)] & key != 0
  }

  /** The key appears in one of the INPUT_BUFFER_WINDOW most recent pressed masks. */
  predicate InWindow(buf: seq<KeyMask>, index: int, key: KeyMask)
    requires |buf| == INPUT_BUFFER_FRAMES && 0 <= index < INPUT_BUFFER_FRAMES
  {
    exists i :: 0 <= i < INPUT_BUFFER_WINDOW && RecentHit(buf, index, i, key)
  }

  /** The lowest of bits from..15 of key that is set, or -1. */
  function LowestKeyBit(key: KeyMask, from: int): (r: int)
    requires 0 <= from <= 16
    ensures r == -1 || from <= r < 16
    decreases 16 - from
  {
    if from == 16 then -1 else if BitSet(key, from) then from else LowestKeyBit(key, from + 1)
  }

  /** LowestKeyBit finds a set bit with no set bit below it, or reports that bits from..15 are clear. */
  lemma {:induction false} LowestKeyBitIsLowest(key: KeyMask, from: int)
    requires 0 <= from <= 16
    ensures var r := LowestKeyBit(key, from);
      (r == -1 <==> forall b :: from <= b < 16 ==> !BitSet(key, b)) &&
      (r >= 0 ==> BitSet(key, r) && forall b :: from <= b < r ==> !BitSet(key, b))
    decreases 16 - from
  {
    if from < 16 && !BitSet(key, from) {
      LowestKeyBitIsLowest(key, from + 1);
    }
  }

  class InputSystem {
    var curPressed: KeyMask
    var curHeld: KeyMask
    var curReleased: KeyMask
    var bufferIndex: int
    const pressBuffer: array<KeyMask>
    const holdDuration: array<int>

    predicate Valid()
      reads this, holdDuration
    {
      pressBuffer.Length == INPUT_BUFFER_FRAMES && holdDuration.Length == HOLD_COUNTERS &&
      pressBuffer as object != holdDuration &&
      0 <= bufferIndex < INPUT_BUFFER_FRAMES &&
      forall b :: 0 <= b < HOLD_COUNTERS ==> IsUint16(holdDuration[b])
    }

    function State(): KeyState
      reads this
    {
      KeyState(curPressed, curHeld, curReleased)
    }

    /** The module's statics before the first update: everything zero. */
    constructor ()
      ensures Valid() && State() == KeyState(0, 0, 0) && bufferIndex == 0
      ensures forall i :: 0 <= i < INPUT_BUFFER_FRAMES ==> pressBuffer[i] == 0
      ensures forall b :: 0 <= b < HOLD_COUNTERS ==> holdDuration[b] == 0
    {
      curPressed, curHeld, curReleased := 0, 0, 0;
      bufferIndex := 0;
      pressBuffer := new KeyMask[INPUT_BUFFER_FRAMES](_ => 0);
      holdDuration := new int[HOLD_COUNTERS](_ => 0);
    }

    /**
     * input_update: cache the frame's masks, store the pressed mask at the
     * current ring index and advance it, and step every hold counter.
     */
    method Update(down: KeyMask, held: KeyMask, up: KeyMask)
      requires Valid()
      modifies this, pressBuffer, holdDuration
      ensures Valid() && State() == KeyState(down, held, up)
      ensures pressBuffer[..] == old(pressBuffer[..])[old(bufferIndex) := down]
      ensures bufferIndex == (old(bufferIndex) + 1) % INPUT_BUFFER_FRAMES
      ensures forall b :: 0 <= b < HOLD_COUNTERS ==>
        holdDuration[b] == NextHold(old(holdDuration[b]), BitSet(held, b))
    {
      curPressed, curHeld, curReleased := down, held, up;
      pressBuffer[bufferIndex] := down;
      bufferIndex := (bufferIndex + 1) % INPUT_BUFFER_FRAMES;
      var bit := 0;
      while bit < HOLD_COUNTERS
        invariant 0 <= bit <= HOLD_COUNTERS
        modifies holdDuration
        invariant forall b :: 0 <= b < HOLD_COUNTERS ==>
          holdDuration[b] == if b < bit then NextHold(old(holdDuration[b]), BitSet(held, b)) else old(holdDuration[b])
      {
        if held & ((1 as bv32) << bit) != 0 {
          if holdDuration[bit] < HOLD_MAX {
            holdDuration[bit] := holdDuration[bit] + 1;
          }
        } else {
          holdDuration[bit] := 0;
        }
        bit := bit + 1;
      }
    }

    /** input_pressed. */
    predicate Pressed(key: KeyMask) reads this { KeyPressed(State(), key) }
    /** input_held. */
    predicate Held(key: KeyMask) reads this { KeyHeld(State(), key) }
    /** input_released. */
    predicate Released(key: KeyMask) reads this { KeyReleased(State(), key) }

    /** input_buffered: scan the INPUT_BUFFER_WINDOW newest ring entries, newest first. */
    method Buffered(key: KeyMask) returns (r: bool)
      requires Valid()
      ensures r <==> InWindow(pressBuffer[..], bufferIndex, key)
    {
      var i := 0;
      while i < INPUT_BUFFER_WINDOW
        invariant 0 <= i <= INPUT_BUFFER_WINDOW
        invariant forall j :: 0 <= j < i ==> !RecentHit(pressBuffer[..], bufferIndex, j, key)
      {
        var idx := (bufferIndex - 1 - i + INPUT_BUFFER_FRAMES) % INPUT_BUFFER_FRAMES;
        assert idx == RecentSlot(bufferIndex, i);
        if pressBuffer[idx] & key != 0 {
          assert RecentHit(pressBuffer[..], bufferIndex, i, key);
          return true;
        }
        i := i + 1;
      }
      r := false;
    }

    /** input_held_frames: the counter of the lowest key bit in 0..15, or 0 when there is none. */
    method HeldFrames(key: KeyMask) returns (r: int)
      requires Valid()
      ensures var b := LowestKeyBit(key, 0); r == if b < 0 then 0 else holdDuration[b]
    {
      var bit := 0;
      while bit < HOLD_COUNTERS
        invariant 0 <= bit <= HOLD_COUNTERS
        invariant LowestKeyBit(key, 0) == LowestKeyBit(key, bit)
      {
        if key & ((1 as bv32) << bit) != 0 {
          return holdDuration[bit];
        }
        bit := bit + 1;
      }
      r := 0;
    }
  }

  /**
   * After the update that stores mask down, the newest ring entry is down
   * and the i-th newest is the (i-1)-th newest from before: the ring keeps
   * the last eight pressed masks in order.
   */
  lemma RingShiftsByOne(buf: seq<KeyMask>, index: int, down: KeyMask, i: int)
    requires |buf| == INPUT_BUFFER_FRAMES && 0 <= index < INPUT_BUFFER_FRAMES
    requires 0 <= i < INPUT_BUFFER_FRAMES
    ensures var nb := buf[index := down];
      var ni := (index + 1) % INPUT_BUFFER_FRAMES;
      nb[RecentSlot(ni, 0)] == down &&
      (i > 0 ==> nb[RecentSlot(ni, i)] == buf[RecentSlot(index, i - 1)])
  {
  }

  /** A key pressed in the frame just stored is buffered. */
  lemma PressIsBuffered(buf: seq<KeyMask>, index: int, down: KeyMask, key: KeyMask)
    requires |buf| == INPUT_BUFFER_FRAMES && 0 <= index < INPUT_BUFFER_FRAMES
    requires down & key != 0
    ensures InWindow(buf[index := down], (index + 1) % INPUT_BUFFER_FRAMES, key)
  {
    RingShiftsByOne(buf, index, down, 0);
    assert RecentHit(buf[index := down], (index + 1) % INPUT_BUFFER_FRAMES, 0, key);
  }

  /**
   * The window moves with the ring: after one more stored frame without the
   * key, the key is buffered exactly when it was among the four newest before.
   */
  lemma {:induction false} WindowAfterQuietFrame(buf: seq<KeyMask>, index: int, down: KeyMask, key: KeyMask)
    requires |buf| == INPUT_BUFFER_FRAMES && 0 <= index < INPUT_BUFFER_FRAMES
    requires down & key == 0
    ensures InWindow(buf[index := down], (index + 1) % INPUT_BUFFER_FRAMES, key) <==>
      exists i :: 0 <= i < INPUT_BUFFER_WINDOW - 1 && RecentHit(buf, index, i, key)
  {
    var nb := buf[index := down];
    var ni := (index + 1) % INPUT_BUFFER_FRAMES;
    RingShiftsByOne(buf, index, down, 0);
    assert !RecentHit(nb, ni, 0, key);
    if InWindow(nb, ni, key) {
      var i :| 0 <= i < INPUT_BUFFER_WINDOW && RecentHit(nb, ni, i, key);
      HitShifts(buf, index, down, key, i - 1);
    }
    if exists i :: 0 <= i < INPUT_BUFFER_WINDOW - 1 && RecentHit(buf, index, i, key) {
      var i :| 0 <= i < INPUT_BUFFER_WINDOW - 1 && RecentHit(buf, index, i, key);
      HitShifts(buf, index, down, key, i);
    }
  }

  lemma HitShifts(buf: seq<KeyMask>, index: int, down: KeyMask, key: KeyMask, i: int)
    requires |buf| == INPUT_BUFFER_FRAMES && 0 <= index < INPUT_BUFFER_FRAMES
    requires 0 <= i < INPUT_BUFFER_FRAMES - 1
    ensures RecentHit(buf[index := down], (index + 1) % INPUT_BUFFER_FRAMES, i + 1, key) ==
      RecentHit(buf, index, i, key)
  {
    RingShiftsByOne(buf, index, down, i + 1);
    var x := buf[index := down][RecentSlot((index + 1) % INPUT_BUFFER_FRAMES, i + 1)];
    assert x == buf[RecentSlot(index, i)];
  }

  /**
   * input_pressed, input_held and input_released test for any bit of the
   * mask: a combination of keys reads true exactly when one of its keys
   * does, and the empty mask never does.
   */
  lemma PressedMatchesAnyKey(k: KeyState, a: KeyMask, b: KeyMask)
    ensures KeyPressed(k, a | b) <==> KeyPressed(k, a) || KeyPressed(k, b)
    ensures !KeyPressed(k, 0)
  {
    MeetsUnion(k.pressed, a, b);
  }

  lemma HeldMatchesAnyKey(k: KeyState, a: KeyMask, b: KeyMask)
    ensures KeyHeld(k, a | b) <==> KeyHeld(k, a) || KeyHeld(k, b)
    ensures !KeyHeld(k, 0)
  {
    MeetsUnion(k.held, a, b);
  }

  lemma ReleasedMatchesAnyKey(k: KeyState, a: KeyMask, b: KeyMask)
    ensures KeyReleased(k, a | b) <==> KeyReleased(k, a) || KeyReleased(k, b)
    ensures !KeyReleased(k, 0)
  {
    MeetsUnion(k.released, a, b);
  }

  /** A mask meets a union of keys exactly when it meets one of them. */
  lemma MeetsUnion(m: KeyMask, a: KeyMask, b: KeyMask)
    ensures Meets(m, a | b) <==> Meets(m, a) || Meets(m, b)
  {
    var x, y := m & a, m & b;
    assert m & (a | b) == x | y;
    OrNonZero(x, y);
  }

  lemma OrNonZero(x: KeyMask, y: KeyMask)
    ensures x | y != 0 <==> x != 0 || y != 0
  {
  }

}
