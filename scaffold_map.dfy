/**
 * The scaffold's full-screen map (src/game/state_map.c): an area index
 * over the six areas and a 16-bit signed cursor that moves one unit per
 * held direction, wrapping as int16_t arithmetic does.
 */
module ScaffoldMap {
  import opened CInt
  import opened ScaffoldInput
  import opened ScaffoldStateManager

  /** The last of the six areas. */
  const LAST_AREA: int := 5

  /** One cursor coordinate after the decrementing and then the incrementing direction, each stored back into an int16_t. */
  function CursorAfter(c: int, minus: bool, plus: bool): int
  {
    var c1 := if minus then ToInt16(c - 1) else c;
    if plus then ToInt16(c1 + 1) else c1
  }

  /** The area after L (one back, not below 0) and then R (one forward, not above 5). */
  function AreaAfter(area: int, l: bool, r: bool): int
  {
    var a := if l && area > 0 then area - 1 else area;
    if r && a < LAST_AREA then a + 1 else a
  }

  class MapScreen {
    var area: int
    var cursorX: int
    var cursorY: int

    ghost predicate Valid()
      reads this
    {
      0 <= area <= LAST_AREA && IsInt16(cursorX) && IsInt16(cursorY)
    }

    constructor ()
      ensures Valid() && area == 0 && cursorX == 0 && cursorY == 0
    {
      area, cursorX, cursorY := 0, 0, 0;
    }

    /** state_map_enter. */
    method Enter()
      modifies this
      ensures Valid() && area == 0 && cursorX == 0 && cursorY == 0
    {
      area := 0;
      cursorX := 0;
      cursorY := 0;
    }

    /** state_map_update: START or SELECT pops and returns; otherwise the cursor and the area move. */
    method Update(input: InputSystem) returns (requests: seq<Request>)
      requires Valid()
      modifies this
      ensures Valid()
      ensures input.Check(KEY_START, INPUT_PRESSED) || input.Check(KEY_SELECT, INPUT_PRESSED) ==>
        requests == [PopState] && area == old(area) && cursorX == old(cursorX) && cursorY == old(cursorY)
      ensures !(input.Check(KEY_START, INPUT_PRESSED) || input.Check(KEY_SELECT, INPUT_PRESSED)) ==>
        && requests == []
        && cursorY == CursorAfter(old(cursorY), input.Check(KEY_UP, INPUT_HELD), input.Check(KEY_DOWN, INPUT_HELD))
        && cursorX == CursorAfter(old(cursorX), input.Check(KEY_LEFT, INPUT_HELD), input.Check(KEY_RIGHT, INPUT_HELD))
        && area == AreaAfter(old(area), input.Check(KEY_L, INPUT_PRESSED), input.Check(KEY_R, INPUT_PRESSED))
    {
      if input.Check(KEY_START, INPUT_PRESSED) || input.Check(KEY_SELECT, INPUT_PRESSED) {
        return [PopState];
      }
      Move(input.Check(KEY_UP, INPUT_HELD), input.Check(KEY_DOWN, INPUT_HELD),
        input.Check(KEY_LEFT, INPUT_HELD), input.Check(KEY_RIGHT, INPUT_HELD));
      SwitchArea(input.Check(KEY_L, INPUT_PRESSED), input.Check(KEY_R, INPUT_PRESSED));
      requests := [];
    }

    /** The cursor part of Update, given what input_check answers for the four held directions. */
    method Move(up: bool, down: bool, left: bool, right: bool)
      requires Valid()
      modifies this
      ensures Valid() && area == old(area)
      ensures cursorY == CursorAfter(old(cursorY), up, down) && cursorX == CursorAfter(old(cursorX), left, right)
    {
      if up {
        cursorY := ToInt16(cursorY - 1);
      }
      if down {
        cursorY := ToInt16(cursorY + 1);
      }
      if left {
        cursorX := ToInt16(cursorX - 1);
      }
      if right {
        cursorX := ToInt16(cursorX + 1);
      }
    }

    /** The area part of Update, given what input_check answers for L and R. */
    method SwitchArea(l: bool, r: bool)
      requires Valid()
      modifies this
      ensures Valid() && cursorX == old(cursorX) && cursorY == old(cursorY)
      ensures area == AreaAfter(old(area), l, r)
    {
      if l {
        if area > 0 {
          area := area - 1;
        }
      }
      if r {
        if area < LAST_AREA {
          area := area + 1;
        }
      }
    }
  }

  /** One held direction moves the cursor by exactly one, away from the ends of the int16_t range. */
  lemma CursorMovesByOne(c: int)
    requires IsInt16(c)
    ensures c > INT16_MIN ==> CursorAfter(c, true, false) == c - 1
    ensures c < INT16_MAX ==> CursorAfter(c, false, true) == c + 1
    ensures CursorAfter(c, false, false) == c
  {
  }

  /** There is no bound: past either end the cursor wraps to the other. */
  lemma CursorWrapsAtEnds()
    ensures CursorAfter(INT16_MIN, true, false) == INT16_MAX
    ensures CursorAfter(INT16_MAX, false, true) == INT16_MIN
  {
  }

  /** Opposite directions held together cancel out, even across the wrap. */
  lemma OppositeDirectionsCancel(c: int)
    requires IsInt16(c)
    ensures CursorAfter(c, true, true) == c
  {
    if c == INT16_MIN {
      assert ToInt16(c - 1) == INT16_MAX;
    }
  }

  /** The area index stays among the six areas and moves by at most one. */
  lemma AreaStaysInRange(area: int, l: bool, r: bool)
    requires 0 <= area <= LAST_AREA
    ensures 0 <= AreaAfter(area, l, r) <= LAST_AREA
    ensures l && !r && area > 0 ==> AreaAfter(area, l, r) == area - 1
    ensures r && !l && area < LAST_AREA ==> AreaAfter(area, l, r) == area + 1
    ensures AreaAfter(0, true, false) == 0 && AreaAfter(LAST_AREA, false, true) == LAST_AREA
  {
  }
}
