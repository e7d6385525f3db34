/**
 * The game-state manager (source/state.c): a table of handler pointers per
 * state, a current state, and at most one deferred transition that the next
 * state_update applies before dispatching.
 *
 * A handler pointer is modelled by the routine it names (or None for NULL);
 * calling through the table is modelled by the sequence of routines invoked,
 * which state_update and state_render return.
 */
module State {
  import opened CInt
  import opened SmTypes

  datatype Hook = Enter | Exit | Update | Render

  /** The routines a table entry can point to: state.c's stubs, or a registered hook of a state. */
  datatype Routine = StubEnter(state: int) | StubExit | StubUpdate | StubRender | Handler(owner: int, hook: Hook)

  /** StateHandlers: four possibly-NULL pointers. */
  datatype Handlers = Handlers(enter: Option<Routine>, exit: Option<Routine>, update: Option<Routine>, render: Option<Routine>)

  const NULL_HANDLERS: Handlers := Handlers(None, None, None, None)

  /** The four statics of state.c. */
  datatype Manager = Manager(table: seq<Handlers>, current: int, pending: int, transitionPending: bool)

  predicate ValidId(id: int) { 0 <= id < STATE_COUNT }

  predicate ManagerOk(m: Manager)
  {
    |m.table| == STATE_COUNT && ValidId(m.current) && ValidId(m.pending)
  }

  /** The zero-initialised statics, before state_init. */
  const ZERO_MANAGER: Manager := Manager(seq(STATE_COUNT, _ => NULL_HANDLERS), 0, 0, false)

  /** The stubs state_init registers for state `s`. */
  function StubHandlers(s: int): Handlers
  {
    Handlers(Some(StubEnter(s)), Some(StubExit), Some(StubUpdate), Some(StubRender))
  }

  /** The handlers a registered state's four hooks form. */
  function Registered(s: int): Handlers
  {
    Handlers(Some(Handler(s, Enter)), Some(Handler(s, Exit)), Some(Handler(s, Update)), Some(Handler(s, Render)))
  }

  function Called(p: Option<Routine>): seq<Routine>
  {
    match p
    case Some(r) => [r]
    case None => []
  }

  // ---------------------------------------------------------------------
  // The operations on values
  // ---------------------------------------------------------------------

  /** state_init: stubs everywhere, title current, nothing pending; pending_state is left as it was. */
  function Initialised(m: Manager): (r: Manager)
    ensures |r.table| == STATE_COUNT && forall s :: 0 <= s < STATE_COUNT ==> r.table[s] == StubHandlers(s)
    ensures r.current == STATE_TITLE && !r.transitionPending && r.pending == m.pending
  {
    Manager(seq(STATE_COUNT, s => StubHandlers(s)), STATE_TITLE, m.pending, false)
  }

  /** state_set. */
  function SetState(m: Manager, id: int): Manager
  {
    if ValidId(id) then m.(pending := id, transitionPending := true) else m
  }

  /** state_update: the manager afterwards and the routines called, in order. */
  function Updated(m: Manager): (Manager, seq<Routine>)
    requires ManagerOk(m)
  {
    if m.transitionPending then
      var m1 := m.(current := m.pending, transitionPending := false);
      (m1, Called(m.table[m.current].exit) + Called(m.table[m.pending].enter) + Called(m.table[m.pending].update))
    else
      (m, Called(m.table[m.current].update))
  }

  /** state_render: the routine called, if any. */
  function Rendered(m: Manager): seq<Routine>
    requires ManagerOk(m)
  {
    Called(m.table[m.current].render)
  }

  /** state_set_handlers. */
  function WithHandlers(m: Manager, id: int, h: Handlers): Manager
    requires ManagerOk(m)
  {
    if ValidId(id) then m.(table := m.table[id := h]) else m
  }

  // ---------------------------------------------------------------------
  // The statics as an object
  // ---------------------------------------------------------------------

  class StateManager {
    var table: seq<Handlers>
    var current: int
    var pending: int
    var transitionPending: bool

    function Data(): Manager
      reads this
    {
      Manager(table, current, pending, transitionPending)
    }

    ghost predicate Valid()
      reads this
    {
      ManagerOk(Data())
    }

    constructor ()
      ensures Data() == ZERO_MANAGER && Valid()
    {
      table := seq(STATE_COUNT, _ => NULL_HANDLERS);
      current, pending, transitionPending := 0, 0, false;
    }

    method Init()
      requires Valid()
      modifies this
      ensures Valid() && Data() == Initialised(old(Data()))
    {
      table := seq(STATE_COUNT, s => StubHandlers(s));
      current := STATE_TITLE;
      transitionPending := false;
    }

    method Set(newState: int)
      requires Valid()
      modifies this
      ensures Valid() && Data() == SetState(old(Data()), newState)
    {
      if 0 <= newState < STATE_COUNT {
        pending := newState;
        transitionPending := true;
      }
    }

    method Update() returns (calls: seq<Routine>)
      requires Valid()
      modifies this
      ensures Valid() && (Data(), calls) == Updated(old(Data()))
    {
      if transitionPending {
        var exited := Called(table[current].exit);
        current := pending;
        transitionPending := false;
        calls := exited + Called(table[current].enter) + Called(table[current].update);
      } else {
        calls := Called(table[current].update);
      }
    }

    method RenderCall() returns (calls: seq<Routine>)
      requires Valid()
      ensures calls == Rendered(Data())
    {
      calls := Called(table[current].render);
    }

    /** state_current. */
    method Current() returns (id: int)
      requires Valid()
      ensures id == current && ValidId(id)
    {
      id := current;
    }

    method SetHandlers(id: int, handlers: Handlers)
      requires Valid()
      modifies this
      ensures Valid() && Data() == WithHandlers(old(Data()), id, handlers)
    {
      if 0 <= id < STATE_COUNT {
        table := table[id := handlers];
      }
    }
  }

  // ---------------------------------------------------------------------
  // Properties
  // ---------------------------------------------------------------------

  /** A request for an id outside the table is ignored; a good one is recorded without touching the current state. */
  lemma SetChecksRange(m: Manager, id: int)
    ensures !ValidId(id) ==> SetState(m, id) == m
    ensures ValidId(id) ==> SetState(m, id).transitionPending && SetState(m, id).pending == id
    ensures SetState(m, id).current == m.current && SetState(m, id).table == m.table
  {
  }

  /** Of several requests before an update only the last valid one takes effect. */
  lemma LastSetWins(m: Manager, a: int, b: int)
    requires ManagerOk(m) && ValidId(a)
    ensures ValidId(b) ==> SetState(SetState(m, a), b) == SetState(m, b)
    ensures !ValidId(b) ==> SetState(SetState(m, a), b) == SetState(m, a)
  {
  }

  /**
   * An update with a request pending switches exactly once: the old state's
   * exit, then the new state's enter, then the new state's update; without a
   * request it only dispatches the update of the current state.
   */
  lemma UpdateSwitchesOnce(m: Manager)
    requires ManagerOk(m)
    ensures var (m1, calls) := Updated(m);
      ManagerOk(m1) && !m1.transitionPending && m1.table == m.table &&
      m1.current == (if m.transitionPending then m.pending else m.current) &&
      calls == (if m.transitionPending
                then Called(m.table[m.current].exit) + Called(m.table[m.pending].enter)
                else []) + Called(m.table[m1.current].update)
  {
  }

  /** A second update with no request in between makes no transition. */
  lemma {:induction false} SecondUpdateOnlyDispatches(m: Manager)
    requires ManagerOk(m)
    ensures var (m1, _) := Updated(m);
      var (m2, calls) := Updated(m1);
      m2 == m1 && calls == Called(m1.table[m1.current].update)
  {
    UpdateSwitchesOnce(m);
  }

  /** There is no equality check: re-requesting the current state exits and re-enters it. */
  lemma ReEnteringCurrent(m: Manager)
    requires ManagerOk(m) && !m.transitionPending
    requires m.table[m.current] == Registered(m.current)
    ensures var (m1, calls) := Updated(SetState(m, m.current));
      m1 == m.(pending := m.current) && calls == [Handler(m.current, Exit), Handler(m.current, Enter), Handler(m.current, Update)]
  {
  }

  /** Registering handlers changes exactly the entry named, and only when it is a valid id. */
  lemma SetHandlersOnlyThatEntry(m: Manager, id: int, h: Handlers)
    requires ManagerOk(m)
    ensures var r := WithHandlers(m, id, h);
      ManagerOk(r) && r.current == m.current && r.pending == m.pending && r.transitionPending == m.transitionPending &&
      forall s :: 0 <= s < STATE_COUNT ==> r.table[s] == (if s == id then h else m.table[s])
  {
  }

  /** Starting up: state_init then state_set(TITLE) then one update enters the title state through its stub. */
  lemma {:induction false} StartupEntersTitle(m: Manager)
    requires ManagerOk(m)
    ensures var (m1, calls) := Updated(SetState(Initialised(m), STATE_TITLE));
      m1.current == STATE_TITLE && calls == [StubExit, StubEnter(STATE_TITLE), StubUpdate]
  {
    var i := Initialised(m);
    assert i.table[STATE_TITLE] == StubHandlers(STATE_TITLE);
  }
}
