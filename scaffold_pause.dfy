/**
 * The scaffold's pause screen (src/game/state_pause.c): two tabs, an exit
 * back to whatever was paused, and a switch to the full map.
 */
module ScaffoldPause {
  import opened ScaffoldInput
  import opened ScaffoldStateManager

  /** PauseTab. */
  const PAUSE_TAB_EQUIPMENT: int := 0
  const PAUSE_TAB_MAP: int := 1
  const PAUSE_TAB_COUNT: int := 2

  /** The tab after L (one back) and then R (one forward), modulo the tab count. */
  function TabAfter(tab: int, l: bool, r: bool): int
  {
    var t := if l then (tab + PAUSE_TAB_COUNT - 1) % PAUSE_TAB_COUNT else tab;
    if r then (t + 1) % PAUSE_TAB_COUNT else t
  }

  /** START pops before anything else is looked at; otherwise SELECT switches to the map. */
  function Requests(start: bool, select: bool): seq<Request>
  {
    if start then [PopState] else if select then [SetState(STATE_MAP)] else []
  }

  class Pause {
    var tab: int

    ghost predicate Valid()
      reads this
    {
      0 <= tab < PAUSE_TAB_COUNT
    }

    constructor ()
      ensures Valid() && tab == PAUSE_TAB_EQUIPMENT
    {
      tab := PAUSE_TAB_EQUIPMENT;
    }

    /** state_pause_enter. */
    method Enter()
      modifies this
      ensures Valid() && tab == PAUSE_TAB_EQUIPMENT
    {
      tab := PAUSE_TAB_EQUIPMENT;
    }

    /** state_pause_update. */
    method Update(input: InputSystem) returns (requests: seq<Request>)
      requires Valid()
      modifies this
      ensures Valid()
      ensures requests == Requests(input.Check(KEY_START, INPUT_PRESSED), input.Check(KEY_SELECT, INPUT_PRESSED))
      ensures tab == if input.Check(KEY_START, INPUT_PRESSED) then old(tab)
        else TabAfter(old(tab), input.Check(KEY_L, INPUT_PRESSED), input.Check(KEY_R, INPUT_PRESSED))
    {
      if input.Check(KEY_START, INPUT_PRESSED) {
        return [PopState];
      }
      requests := Step(input.Check(KEY_L, INPUT_PRESSED), input.Check(KEY_R, INPUT_PRESSED),
        input.Check(KEY_SELECT, INPUT_PRESSED));
    }

    /** The part of Update after the START check, given what input_check answers for L, R and SELECT. */
    method Step(l: bool, r: bool, select: bool) returns (requests: seq<Request>)
      requires Valid()
      modifies this
      ensures Valid() && tab == TabAfter(old(tab), l, r)
      ensures requests == Requests(false, select)
    {
      if l {
        tab := (tab + PAUSE_TAB_COUNT - 1) % PAUSE_TAB_COUNT;
      }
      if r {
        tab := (tab + 1) % PAUSE_TAB_COUNT;
      }
      requests := if select then [SetState(STATE_MAP)] else [];
    }
  }

  /** The tab stays a valid PauseTab. */
  lemma TabStaysInRange(tab: int, l: bool, r: bool)
    requires 0 <= tab < PAUSE_TAB_COUNT
    ensures 0 <= TabAfter(tab, l, r) < PAUSE_TAB_COUNT
  {
  }

  /** One shoulder button flips between the two tabs; both together cancel out. */
  lemma ShouldersCycleTabs(tab: int, l: bool, r: bool)
    requires 0 <= tab < PAUSE_TAB_COUNT
    ensures l != r ==> TabAfter(tab, l, r) == 1 - tab
    ensures l == r ==> TabAfter(tab, l, r) == tab
  {
  }

  /** START pops whatever else is pressed, and the map is reached by a set, never a push. */
  lemma StartPopsFirst(select: bool)
    ensures Requests(true, select) == [PopState]
    ensures Requests(false, true) == [SetState(STATE_MAP)]
    ensures Requests(false, false) == []
  {
  }
}
