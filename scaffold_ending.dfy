/**
 * The scaffold's ending screen (src/game/state_ending.c): a 32-bit frame
 * counter and a 16-bit credits scroll that advances every other frame,
 * jumps on START or A, and hands back to the title screen past 2000.
 */
module ScaffoldEnding {
  import opened CInt
  import opened ScaffoldInput
  import opened ScaffoldStateManager

  const CREDITS_END: int := 2000
  const SKIP_STEP: int := 100

  /** The counter and scroll the screen keeps. */
  datatype Credits = Credits(timer: int, scroll: int)

  predicate CreditsOk(c: Credits) { IsUint32(c.timer) && IsUint16(c.scroll) }

  /** One frame of state_ending_update, with `skip` for START or A pressed. */
  function Frame(c: Credits, skip: bool): Credits
  {
    var t := (c.timer + 1) % UINT32_LIMIT;
    var s := if t % 2 == 0 then ToUint16(c.scroll + 1) else c.scroll;
    Credits(t, if skip then ToUint16(s + SKIP_STEP) else s)
  }

  /** The transition asked for once the scroll is past the end; checked after the frame. */
  function Requests(c: Credits): seq<Request>
  {
    if c.scroll > CREDITS_END then [SetState(STATE_TITLE)] else []
  }

  /** n frames without skipping. */
  function Run(c: Credits, n: nat): Credits
    decreases n
  {
    if n == 0 then c else Run(Frame(c, false), n - 1)
  }

  class Ending {
    var timer: int
    var scroll: int

    function Data(): Credits
      reads this
    {
      Credits(timer, scroll)
    }

    ghost predicate Valid()
      reads this
    {
      CreditsOk(Data())
    }

    constructor ()
      ensures Valid() && Data() == Credits(0, 0)
    {
      timer, scroll := 0, 0;
    }

    /** state_ending_enter. */
    method Enter()
      modifies this
      ensures Valid() && Data() == Credits(0, 0)
    {
      timer := 0;
      scroll := 0;
    }

    /** state_ending_exit. */
    method Exit()
      modifies this
      ensures Valid() && Data() == Credits(0, 0)
    {
      timer := 0;
      scroll := 0;
    }

    /** state_ending_update. */
    method Update(input: InputSystem) returns (requests: seq<Request>)
      requires Valid()
      modifies this
      ensures Valid()
      ensures Data() == Frame(old(Data()), input.Check(KEY_START, INPUT_PRESSED) || input.Check(KEY_A, INPUT_PRESSED))
      ensures requests == Requests(Data())
    {
      requests := Step(input.Check(KEY_START, INPUT_PRESSED) || input.Check(KEY_A, INPUT_PRESSED));
    }

    /** The body of Update, given whether START or A was pressed. */
    method Step(skip: bool) returns (requests: seq<Request>)
      requires Valid()
      modifies this
      ensures Valid() && Data() == Frame(old(Data()), skip)
      ensures requests == Requests(Data())
    {
      timer := (timer + 1) % UINT32_LIMIT;
      if timer % 2 == 0 {
        scroll := ToUint16(scroll + 1);
      }
      if skip {
        scroll := ToUint16(scroll + SKIP_STEP);
      }
      requests := if scroll > CREDITS_END then [SetState(STATE_TITLE)] else [];
    }
  }

  /** A frame keeps both counters in their C ranges. */
  lemma FrameKeepsRanges(c: Credits, skip: bool)
    requires CreditsOk(c)
    ensures CreditsOk(Frame(c, skip))
  {
  }

  /**
   * While the credits run (scroll at most 2000) a frame never moves the
   * scroll back: it advances by 0, 1, 100 or 101, so the 16-bit value
   * cannot wrap.
   */
  lemma ScrollNeverDecreases(c: Credits, skip: bool)
    requires CreditsOk(c) && c.scroll <= CREDITS_END
    ensures c.scroll <= Frame(c, skip).scroll <= c.scroll + SKIP_STEP + 1
    ensures !skip ==> Frame(c, skip).scroll <= c.scroll + 1
    ensures skip ==> Frame(c, skip).scroll >= c.scroll + SKIP_STEP
  {
  }

  /** From an even counter, n frames without skipping advance the scroll by n / 2. */
  lemma {:induction false} RunAdvancesHalf(c: Credits, n: nat)
    requires CreditsOk(c) && c.timer % 2 == 0
    requires c.timer + n < UINT32_LIMIT && c.scroll + n / 2 < UINT16_LIMIT
    ensures Run(c, n) == Credits(c.timer + n, c.scroll + n / 2)
    decreases n
  {
    if n >= 2 {
      var c1 := Frame(c, false);
      assert c1 == Credits(c.timer + 1, c.scroll);
      var c2 := Frame(c1, false);
      assert c2 == Credits(c.timer + 2, c.scroll + 1);
      assert Run(c, n) == Run(c2, n - 2);
      RunAdvancesHalf(c2, n - 2);
    } else if n == 1 {
      assert Run(c, 1) == Run(Frame(c, false), 0);
    }
  }

  /**
   * Without skipping, the credits entered at (0, 0) last exactly 4002
   * frames: no earlier frame asks for the title screen, that one does.
   */
  lemma CreditsLastWithoutSkipping(n: nat)
    ensures n < 2 * (CREDITS_END + 1) ==> Requests(Run(Credits(0, 0), n)) == []
    ensures Requests(Run(Credits(0, 0), 2 * (CREDITS_END + 1))) == [SetState(STATE_TITLE)]
  {
    if n < 2 * (CREDITS_END + 1) {
      RunAdvancesHalf(Credits(0, 0), n);
    }
    RunAdvancesHalf(Credits(0, 0), 2 * (CREDITS_END + 1));
  }
}
