/**
 * The scaffold's file-select screen (src/game/state_file_select.c): a
 * cursor over the three save slots and the metadata read on entry. The
 * update returns the transitions it asks the state manager for, in the
 * order it asks.
 */
module ScaffoldFileSelect {
  import opened ScaffoldInput
  import opened ScaffoldSave
  import opened ScaffoldStateManager

  /** The cursor after UP and DOWN, each clamped at its end of the slot range. */
  function SlotAfter(slot: int, up: bool, down: bool): int
  {
    var s := if up && slot > 0 then slot - 1 else slot;
    if down && s < SAVE_SLOT_COUNT - 1 then s + 1 else s
  }

  /**
   * The transitions of one update: on A, gameplay if the slot was empty
   * (a new game) or its save loaded; on B, the title screen.
   */
  function Requests(a: bool, b: bool, existing: bool, loaded: bool): seq<Request>
  {
    (if a && (!existing || loaded) then [SetState(STATE_GAMEPLAY)] else [])
      + (if b then [SetState(STATE_TITLE)] else [])
  }

  class FileSelect {
    var selected: int
    var metadata: seq<Metadata>

    ghost predicate Valid()
      reads this
    {
      0 <= selected < SAVE_SLOT_COUNT && |metadata| == SAVE_SLOT_COUNT
    }

    constructor ()
      ensures Valid() && selected == 0 && metadata == [NO_METADATA, NO_METADATA, NO_METADATA]
    {
      selected := 0;
      metadata := [NO_METADATA, NO_METADATA, NO_METADATA];
    }

    /** state_file_select_enter: the cursor goes to the first slot and every slot's metadata is read. */
    method Enter(save: SaveSystem)
      requires Valid() && save.Valid()
      modifies this
      ensures Valid() && selected == 0
      ensures forall i :: 0 <= i < SAVE_SLOT_COUNT ==> metadata[i] == save.SlotMetadata(i)
    {
      selected := 0;
      for i := 0 to SAVE_SLOT_COUNT
        invariant Valid() && selected == 0
        invariant forall k :: 0 <= k < i ==> metadata[k] == save.SlotMetadata(k)
      {
        var _, meta := save.GetMetadata(i);
        metadata := metadata[i := meta];
      }
    }

    /**
     * The A branch of state_file_select_update: the cursor's slot becomes
     * current and either its save is loaded, or a fresh save is written
     * there and loaded. `started` says whether gameplay is asked for.
     */
    method Select(save: SaveSystem) returns (started: bool)
      requires Valid() && save.Valid()
      modifies save
      ensures save.Valid() && save.dirInitialized == old(save.dirInitialized) && save.currentSlot == selected
      ensures metadata[selected].exists_ ==> save.files == old(save.files) && started == save.CanQuickLoad()
      ensures !metadata[selected].exists_ ==> started
      ensures !metadata[selected].exists_ ==>
        save.files == (if save.dirInitialized then old(save.files)[selected := ScaffoldSave.Initialised()] else old(save.files))
      ensures !metadata[selected].exists_ && save.dirInitialized ==> save.CanQuickLoad()
    {
      save.SetCurrentSlot(selected);
      if metadata[selected].exists_ {
        var loaded;
        started, loaded := save.QuickLoad();
      } else {
        var newSave := new bv8[SIZE];
        InitData(newSave);
        var _ := save.Write(selected, newSave);
        InitValidates();
        SealedValidUnchanged(ScaffoldSave.Initialised());
        var _, _ := save.QuickLoad();
        started := true;
      }
    }

    /**
     * state_file_select_update: UP and DOWN move the cursor, A selects the
     * slot, B goes back; the metadata consulted is the one read on entry.
     */
    method Update(input: InputSystem, save: SaveSystem) returns (requests: seq<Request>)
      requires Valid() && save.Valid()
      modifies this, save
      ensures Valid() && save.Valid() && metadata == old(metadata)
      ensures selected == SlotAfter(old(selected), input.Check(KEY_UP, INPUT_PRESSED), input.Check(KEY_DOWN, INPUT_PRESSED))
      ensures !input.Check(KEY_A, INPUT_PRESSED) ==> save.files == old(save.files) && save.currentSlot == old(save.currentSlot)
      ensures input.Check(KEY_A, INPUT_PRESSED) ==> save.currentSlot == selected
      ensures requests == Requests(input.Check(KEY_A, INPUT_PRESSED), input.Check(KEY_B, INPUT_PRESSED),
        metadata[selected].exists_, save.CanQuickLoad())
    {
      Navigate(input.Check(KEY_UP, INPUT_PRESSED), input.Check(KEY_DOWN, INPUT_PRESSED));
      requests := Choose(input.Check(KEY_A, INPUT_PRESSED), input.Check(KEY_B, INPUT_PRESSED), save);
    }

    /** The cursor part of Update, given what input_check answers for UP and DOWN. */
    method Navigate(up: bool, down: bool)
      requires Valid()
      modifies this
      ensures Valid() && metadata == old(metadata)
      ensures selected == SlotAfter(old(selected), up, down)
    {
      if up && selected > 0 {
        selected := selected - 1;
      }
      if down && selected < SAVE_SLOT_COUNT - 1 {
        selected := selected + 1;
      }
    }

    /** The selection part of Update, given what input_check answers for A and B. */
    method Choose(a: bool, b: bool, save: SaveSystem) returns (requests: seq<Request>)
      requires Valid() && save.Valid()
      modifies save
      ensures save.Valid()
      ensures !a ==> save.files == old(save.files) && save.currentSlot == old(save.currentSlot)
      ensures a ==> save.currentSlot == selected
      ensures requests == Requests(a, b, metadata[selected].exists_, save.CanQuickLoad())
    {
      requests := [];
      if a {
        var started := Select(save);
        if started {
          requests := requests + [SetState(STATE_GAMEPLAY)];
        }
      }
      if b {
        requests := requests + [SetState(STATE_TITLE)];
      }
    }
  }

  /** The cursor never leaves the slot range. */
  lemma SlotStaysInRange(slot: int, up: bool, down: bool)
    requires 0 <= slot < SAVE_SLOT_COUNT
    ensures 0 <= SlotAfter(slot, up, down) < SAVE_SLOT_COUNT
  {
  }

  /** UP on the first slot and DOWN on the last stay put: the cursor clamps, it does not wrap. */
  lemma SlotClampsAtEnds(up: bool, down: bool)
    ensures SlotAfter(0, true, false) == 0
    ensures SlotAfter(SAVE_SLOT_COUNT - 1, false, true) == SAVE_SLOT_COUNT - 1
    ensures SlotAfter(1, true, false) == 0 && SlotAfter(1, false, true) == 2
  {
  }

  /** On an existing slot, A reaches gameplay exactly when the load succeeds. */
  lemma ExistingSlotNeedsLoad(loaded: bool)
    ensures (SetState(STATE_GAMEPLAY) in Requests(true, false, true, loaded)) <==> loaded
  {
  }

  /** On an empty slot, A always reaches gameplay, loaded or not. */
  lemma NewGameAlwaysStarts(loaded: bool)
    ensures Requests(true, false, false, loaded) == [SetState(STATE_GAMEPLAY)]
  {
  }

  /** B asks for the title screen, after anything A asked for. */
  lemma BackGoesToTitle(a: bool, existing: bool, loaded: bool)
    ensures |Requests(a, true, existing, loaded)| >= 1
    ensures Requests(a, true, existing, loaded)[|Requests(a, true, existing, loaded)| - 1] == SetState(STATE_TITLE)
  {
  }
}
