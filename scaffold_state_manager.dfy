/**
 * The scaffold's game-state manager (src/game/state_manager.c): a table of
 * four hooks per state, a current and a previous state, and a stack of at
 * most four saved states for temporary screens such as the pause menu.
 *
 * The hooks of the title, file-select, gameplay, pause, map, death and
 * ending screens live in other files; calling one is modelled by recording
 * it, in order, in the sequence each operation returns. The boot screen's
 * update hook is the one hook defined here that does something: it asks
 * for the title screen, and that transition is composed in.
 */
module ScaffoldStateManager {
  /** GameState, in declaration order. */
  const STATE_BOOT: int := 0
  const STATE_TITLE: int := 1
  const STATE_FILE_SELECT: int := 2
  const STATE_GAMEPLAY: int := 3
  const STATE_PAUSE: int := 4
  const STATE_MAP: int := 5
  const STATE_DEATH: int := 6
  const STATE_GAMEOVER: int := 7
  const STATE_ENDING: int := 8
  const STATE_COUNT: int := 9

  const STATE_STACK_SIZE: int := 4

  predicate ValidState(s: int) { 0 <= s < STATE_COUNT }

  /** One call through the state_definitions table. */
  datatype Call = OnEnter(s: int) | OnExit(s: int) | OnUpdate(s: int) | OnRender(s: int)

  /** What a screen's update asks the manager to do. */
  datatype Request = SetState(target: int) | PushState(pushed: int) | PopState

  /**
   * The statics: the stack and its height, the current and previous
   * states, and whether game_state_init has filled the table (before it,
   * every hook pointer is NULL and no call is made).
   */
  datatype Manager = Manager(stack: seq<int>, top: int, current: int, previous: int, registered: bool)

  predicate ManagerOk(m: Manager)
  {
    && |m.stack| == STATE_STACK_SIZE
    && 0 <= m.top <= STATE_STACK_SIZE
    && (forall i :: 0 <= i < STATE_STACK_SIZE ==> ValidState(m.stack[i]))
    && ValidState(m.current) && ValidState(m.previous)
  }

  /** The manager afterwards and the hooks called, in order. */
  datatype Outcome = Outcome(m: Manager, calls: seq<Call>)

  /** The zero-initialised statics of the translation unit. */
  const ZERO_MANAGER: Manager := Manager(seq(STATE_STACK_SIZE, _ => STATE_BOOT), 0, STATE_BOOT, STATE_BOOT, false)

  // ---------------------------------------------------------------------
  // The operations on values
  // ---------------------------------------------------------------------

  function Hooked(m: Manager, c: Call): seq<Call>
  {
    if m.registered then [c] else []
  }

  /** game_state_init: empty zeroed stack, every table entry filled, boot current and previous. */
  function Initialised(m: Manager): Manager
  {
    Manager(seq(STATE_STACK_SIZE, _ => STATE_BOOT), 0, STATE_BOOT, STATE_BOOT, true)
  }

  /** game_state_set. */
  function SetOf(m: Manager, n: int): Outcome
  {
    if !ValidState(n) || n == m.current then Outcome(m, [])
    else Outcome(m.(previous := m.current, current := n), Hooked(m, OnExit(m.current)) + Hooked(m, OnEnter(n)))
  }

  /** game_state_push. */
  function PushOf(m: Manager, n: int): Outcome
    requires ManagerOk(m)
  {
    if !ValidState(n) || m.top >= STATE_STACK_SIZE then Outcome(m, [])
    else SetOf(m.(stack := m.stack[m.top := m.current], top := m.top + 1), n)
  }

  /** game_state_pop. */
  function PopOf(m: Manager): Outcome
    requires ManagerOk(m)
  {
    if m.top == 0 then Outcome(m, [])
    else SetOf(m.(top := m.top - 1), m.stack[m.top - 1])
  }

  /** game_state_shutdown: the current state is exited; the stack's contents stay but its height is zero. */
  function ShutdownOf(m: Manager): Outcome
  {
    Outcome(m.(current := STATE_BOOT, previous := STATE_BOOT, top := 0), Hooked(m, OnExit(m.current)))
  }

  /** game_state_update: the current update hook, and for boot the switch to the title screen it asks for. */
  function UpdateOf(m: Manager): Outcome
  {
    if !m.registered then Outcome(m, [])
    else if m.current == STATE_BOOT then
      var o := SetOf(m, STATE_TITLE);
      Outcome(o.m, [OnUpdate(STATE_BOOT)] + o.calls)
    else Outcome(m, [OnUpdate(m.current)])
  }

  /** game_state_render. */
  function RenderOf(m: Manager): seq<Call>
  {
    Hooked(m, OnRender(m.current))
  }

  /** A screen's request, carried out by the manager. */
  function ApplyOf(m: Manager, r: Request): Outcome
    requires ManagerOk(m)
  {
    match r
    case SetState(n) => SetOf(m, n)
    case PushState(n) => PushOf(m, n)
    case PopState => PopOf(m)
  }

  /** game_state_is_paused. */
  predicate Paused(m: Manager) { m.current == STATE_PAUSE || m.current == STATE_MAP }

  /** game_state_is_gameplay. */
  predicate InGameplay(m: Manager) { m.current == STATE_GAMEPLAY }

  // ---------------------------------------------------------------------
  // The statics as an object
  // ---------------------------------------------------------------------

  class StateManager {
    const stack: array<int>
    var top: int
    var current: int
    var previous: int
    var registered: bool

    function Data(): Manager
      reads this, stack
    {
      Manager(stack[..], top, current, previous, registered)
    }

    ghost predicate Valid()
      reads this, stack
    {
      stack.Length == STATE_STACK_SIZE && ManagerOk(Data())
    }

    constructor ()
      ensures Valid() && Data() == ZERO_MANAGER && fresh(stack)
    {
      stack := new int[STATE_STACK_SIZE](_ => STATE_BOOT);
      top, current, previous, registered := 0, STATE_BOOT, STATE_BOOT, false;
      new;
      assert stack[..] == seq(STATE_STACK_SIZE, _ => STATE_BOOT);
    }

    method Init()
      requires Valid()
      modifies this, stack
      ensures Valid() && Data() == Initialised(old(Data()))
    {
      forall i | 0 <= i < STATE_STACK_SIZE {
        stack[i] := STATE_BOOT;
      }
      top := 0;
      registered := true;
      current, previous := STATE_BOOT, STATE_BOOT;
      assert stack[..] == seq(STATE_STACK_SIZE, _ => STATE_BOOT);
    }

    method Set(n: int) returns (calls: seq<Call>)
      requires Valid()
      modifies this
      ensures Valid() && Outcome(Data(), calls) == SetOf(old(Data()), n)
    {
      calls := [];
      if !ValidState(n) || n == current {
        return;
      }
      if registered {
        calls := calls + [OnExit(current)];
      }
      previous := current;
      current := n;
      if registered {
        calls := calls + [OnEnter(current)];
      }
    }

    method Push(n: int) returns (calls: seq<Call>)
      requires Valid()
      modifies this, stack
      ensures Valid() && Outcome(Data(), calls) == PushOf(old(Data()), n)
    {
      if !ValidState(n) || top >= STATE_STACK_SIZE {
        return [];
      }
      stack[top] := current;
      top := top + 1;
      calls := Set(n);
    }

    method Pop() returns (calls: seq<Call>)
      requires Valid()
      modifies this
      ensures Valid() && Outcome(Data(), calls) == PopOf(old(Data()))
    {
      if top == 0 {
        return [];
      }
      top := top - 1;
      var popped := stack[top];
      calls := Set(popped);
    }

    method Shutdown() returns (calls: seq<Call>)
      requires Valid()
      modifies this
      ensures Valid() && Outcome(Data(), calls) == ShutdownOf(old(Data()))
    {
      calls := if registered then [OnExit(current)] else [];
      current := STATE_BOOT;
      previous := STATE_BOOT;
      top := 0;
    }

    method Update() returns (calls: seq<Call>)
      requires Valid()
      modifies this
      ensures Valid() && Outcome(Data(), calls) == UpdateOf(old(Data()))
    {
      if !registered {
        return [];
      }
      if current == STATE_BOOT {
        var more := Set(STATE_TITLE);
        calls := [OnUpdate(STATE_BOOT)] + more;
      } else {
        calls := [OnUpdate(current)];
      }
    }

    method Render() returns (calls: seq<Call>)
      requires Valid()
      ensures calls == RenderOf(Data())
    {
      calls := if registered then [OnRender(current)] else [];
    }

    /** Carries out a screen's request through game_state_set, push or pop. */
    method Apply(r: Request) returns (calls: seq<Call>)
      requires Valid()
      modifies this, stack
      ensures Valid() && Outcome(Data(), calls) == ApplyOf(old(Data()), r)
    {
      match r
      case SetState(n) => calls := Set(n);
      case PushState(n) => calls := Push(n);
      case PopState => calls := Pop();
    }

    method GetCurrent() returns (s: int)
      requires Valid()
      ensures s == current && ValidState(s)
    {
      s := current;
    }

    method GetPrevious() returns (s: int)
      requires Valid()
      ensures s == previous && ValidState(s)
    {
      s := previous;
    }

    method IsGameplay() returns (r: bool)
      requires Valid()
      ensures r == InGameplay(Data())
    {
      r := current == STATE_GAMEPLAY;
    }

    method IsPaused() returns (r: bool)
      requires Valid()
      ensures r == Paused(Data())
    {
      r := current == STATE_PAUSE || current == STATE_MAP;
    }
  }

  // ---------------------------------------------------------------------
  // Properties
  // ---------------------------------------------------------------------

  /** Set is a no-op for an invalid id or the current state; otherwise it moves current to previous, exiting before entering. */
  lemma SetTransition(m: Manager, n: int)
    ensures !ValidState(n) || n == m.current ==> SetOf(m, n) == Outcome(m, [])
    ensures ValidState(n) && n != m.current ==>
      && SetOf(m, n).m.current == n && SetOf(m, n).m.previous == m.current
      && SetOf(m, n).m.stack == m.stack && SetOf(m, n).m.top == m.top
      && SetOf(m, n).calls == (if m.registered then [OnExit(m.current), OnEnter(n)] else [])
  {
  }

  /** Asking twice for the same state changes nothing the second time. */
  lemma SetIdempotent(m: Manager, n: int)
    ensures SetOf(SetOf(m, n).m, n) == Outcome(SetOf(m, n).m, [])
  {
  }

  /** Every operation keeps the statics well formed; in particular the stack height stays in [0, 4]. */
  lemma StackOperationsKeepManagerOk(m: Manager, n: int)
    requires ManagerOk(m)
    ensures ManagerOk(SetOf(m, n).m) && ManagerOk(PushOf(m, n).m) && ManagerOk(PopOf(m).m)
  {
  }

  /** The same for the other entry points. */
  lemma OtherOperationsKeepManagerOk(m: Manager, r: Request)
    requires ManagerOk(m)
    ensures ManagerOk(Initialised(m)) && ManagerOk(ShutdownOf(m).m) && ManagerOk(UpdateOf(m).m)
    ensures ManagerOk(ApplyOf(m, r).m)
  {
    StackOperationsKeepManagerOk(m, match r case SetState(n) => n case PushState(n) => n case PopState => 0);
  }

  /** Push is refused for an invalid id or a full stack; otherwise the stack grows by the current state. */
  lemma PushGuards(m: Manager, n: int)
    requires ManagerOk(m)
    ensures !ValidState(n) || m.top == STATE_STACK_SIZE ==> PushOf(m, n) == Outcome(m, [])
    ensures ValidState(n) && m.top < STATE_STACK_SIZE ==>
      && PushOf(m, n).m.top == m.top + 1 && PushOf(m, n).m.stack[m.top] == m.current
      && PushOf(m, n).m.current == n
  {
  }

  /** Pop on an empty stack is a no-op. */
  lemma PopEmptyIgnored(m: Manager)
    requires ManagerOk(m) && m.top == 0
    ensures PopOf(m) == Outcome(m, [])
  {
  }

  /**
   * Pushing a different valid state and popping it restores the current
   * state and the stack height, leaves the pushed state as previous, and
   * calls exit/enter in both directions.
   */
  lemma PushThenPopRestores(m: Manager, n: int)
    requires ManagerOk(m) && ValidState(n) && n != m.current && m.top < STATE_STACK_SIZE
    ensures PopOf(PushOf(m, n).m).m == m.(stack := m.stack[m.top := m.current], previous := n)
    ensures PushOf(m, n).calls + PopOf(PushOf(m, n).m).calls
      == (if m.registered then [OnExit(m.current), OnEnter(n), OnExit(n), OnEnter(m.current)] else [])
  {
    var pushed := m.(stack := m.stack[m.top := m.current], top := m.top + 1);
    assert PushOf(m, n) == SetOf(pushed, n);
    var p := SetOf(pushed, n).m;
    assert p.stack[p.top - 1] == m.current;
  }

  /**
   * Pushing the state that is already current still uses a stack slot,
   * although no transition happens; the pop that follows is silent too.
   */
  lemma PushSameStateGrowsStack(m: Manager)
    requires ManagerOk(m) && m.top < STATE_STACK_SIZE
    ensures PushOf(m, m.current) == Outcome(m.(stack := m.stack[m.top := m.current], top := m.top + 1), [])
    ensures PopOf(PushOf(m, m.current).m) == Outcome(m.(stack := m.stack[m.top := m.current]), [])
  {
    var pushed := m.(stack := m.stack[m.top := m.current], top := m.top + 1);
    assert pushed.stack[pushed.top - 1] == m.current;
  }

  /** A fifth push over four saved states is refused. */
  lemma FullStackRefusesPush(m: Manager, n: int)
    requires ManagerOk(m) && m.top == STATE_STACK_SIZE
    ensures PushOf(m, n) == Outcome(m, [])
  {
  }

  /**
   * Pausing over gameplay, switching to the map with a plain set and then
   * popping returns to gameplay: the pop restores the state saved by the
   * push, not the one the set replaced.
   */
  lemma PauseMapPopReturnsToGameplay(m: Manager)
    requires ManagerOk(m) && m.current == STATE_GAMEPLAY && m.top < STATE_STACK_SIZE
    ensures var p := PushOf(m, STATE_PAUSE).m;
      && Paused(p) && !InGameplay(p)
      && var q := SetOf(p, STATE_MAP).m;
      && Paused(q) && q.top == m.top + 1
      && var r := PopOf(q).m;
      && InGameplay(r) && !Paused(r) && r.top == m.top && r.previous == STATE_MAP
  {
    var p := PushOf(m, STATE_PAUSE).m;
    var q := SetOf(p, STATE_MAP).m;
    assert q.stack[q.top - 1] == STATE_GAMEPLAY;
  }

  /** Shutdown leaves boot current with an empty stack, so a pop after it does nothing. */
  lemma ShutdownEmptiesStack(m: Manager)
    requires ManagerOk(m)
    ensures ShutdownOf(m).m.current == STATE_BOOT && ShutdownOf(m).m.previous == STATE_BOOT
    ensures ShutdownOf(m).m.top == 0
    ensures PopOf(ShutdownOf(m).m) == Outcome(ShutdownOf(m).m, [])
  {
  }

  /** After game_state_init the first update leaves boot for the title screen. */
  lemma BootUpdateGoesToTitle(m: Manager)
    ensures var o := UpdateOf(Initialised(m));
      && o.m.current == STATE_TITLE && o.m.previous == STATE_BOOT
      && o.calls == [OnUpdate(STATE_BOOT), OnExit(STATE_BOOT), OnEnter(STATE_TITLE)]
  {
  }

  /** Before game_state_init no hook is called by any operation. */
  lemma UnregisteredCallsNothing(m: Manager, n: int)
    requires ManagerOk(m) && !m.registered
    ensures SetOf(m, n).calls == [] && PushOf(m, n).calls == [] && PopOf(m).calls == []
    ensures ShutdownOf(m).calls == [] && UpdateOf(m).calls == [] && RenderOf(m) == []
  {
  }
}
