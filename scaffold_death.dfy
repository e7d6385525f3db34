/**
 * The scaffold's death screen (src/game/state_death.c): a 16-bit frame
 * counter; once the three-second animation is over, a reserve tank revives
 * the player, or else the last save is loaded, or else the title screen
 * comes back.
 */
module ScaffoldDeath {
  import opened CInt
  import opened ScaffoldSave
  import opened ScaffoldStateManager

  const DEATH_ANIMATION_DURATION: int := 180

  /** The energy fields of the scaffold's g_player (include/player.h), all uint16_t. */
  class PlayerEnergy {
    var health: int
    var maxHealth: int
    var reserveEnergy: int

    ghost predicate Valid()
      reads this
    {
      IsUint16(health) && IsUint16(maxHealth) && IsUint16(reserveEnergy)
    }

    constructor (health: int, maxHealth: int, reserveEnergy: int)
      requires IsUint16(health) && IsUint16(maxHealth) && IsUint16(reserveEnergy)
      ensures Valid() && this.health == health && this.maxHealth == maxHealth && this.reserveEnergy == reserveEnergy
    {
      this.health := health;
      this.maxHealth := maxHealth;
      this.reserveEnergy := reserveEnergy;
    }
  }

  /** The energy a reserve tank restores: all of it, but no more than the maximum health. */
  function Restore(maxHealth: int, reserve: int): int
  {
    if reserve > maxHealth then maxHealth else reserve
  }

  /**
   * The energy fields save_data_to_game_state copies into g_player from a
   * valid record: energy, max_energy and reserve_energy.
   */
  predicate Reloaded(health: int, maxHealth: int, reserve: int, record: seq<bv8>)
    requires |record| == SIZE
  {
    && health == U16At(record, OFF_ENERGY) as int
    && maxHealth == U16At(record, OFF_MAX_ENERGY) as int
    && reserve == U16At(record, OFF_RESERVE_ENERGY) as int
  }

  /**
   * The transition of one update, given the counter after its increment,
   * the reserve, and whether save_quick_load would succeed.
   */
  function Requests(timer: int, reserve: int, loadable: bool): seq<Request>
  {
    if timer < DEATH_ANIMATION_DURATION then []
    else if reserve > 0 || loadable then [SetState(STATE_GAMEPLAY)]
    else [SetState(STATE_TITLE)]
  }

  /** The energy part of save_data_to_game_state, for a record save_read has validated. */
  method ApplySave(player: PlayerEnergy, record: seq<bv8>)
    requires |record| == SIZE
    modifies player
    ensures player.Valid() && Reloaded(player.health, player.maxHealth, player.reserveEnergy, record)
  {
    player.health := U16At(record, OFF_ENERGY) as int;
    player.maxHealth := U16At(record, OFF_MAX_ENERGY) as int;
    player.reserveEnergy := U16At(record, OFF_RESERVE_ENERGY) as int;
  }

  class Death {
    var timer: int

    ghost predicate Valid()
      reads this
    {
      IsUint16(timer)
    }

    constructor ()
      ensures Valid() && timer == 0
    {
      timer := 0;
    }

    /** state_death_enter. */
    method Enter()
      modifies this
      ensures Valid() && timer == 0
    {
      timer := 0;
    }

    /** state_death_exit. */
    method Exit()
      modifies this
      ensures Valid() && timer == 0
    {
      timer := 0;
    }

    /** state_death_update. */
    method Update(player: PlayerEnergy, save: SaveSystem) returns (requests: seq<Request>)
      requires Valid() && player.Valid() && save.Valid()
      modifies this, player
      ensures Valid() && player.Valid() && timer == ToUint16(old(timer) + 1)
      ensures timer >= DEATH_ANIMATION_DURATION && old(player.reserveEnergy) > 0 ==>
        && player.health == Restore(old(player.maxHealth), old(player.reserveEnergy))
        && player.reserveEnergy == old(player.reserveEnergy) - player.health
        && player.maxHealth == old(player.maxHealth)
      ensures timer >= DEATH_ANIMATION_DURATION && old(player.reserveEnergy) == 0 && save.CanQuickLoad() ==>
        Reloaded(player.health, player.maxHealth, player.reserveEnergy, save.files[save.currentSlot])
      ensures timer < DEATH_ANIMATION_DURATION || (old(player.reserveEnergy) == 0 && !save.CanQuickLoad()) ==>
        && player.health == old(player.health) && player.maxHealth == old(player.maxHealth)
        && player.reserveEnergy == old(player.reserveEnergy)
      ensures requests == Requests(timer, old(player.reserveEnergy), save.CanQuickLoad())
    {
      timer := ToUint16(timer + 1);
      if timer >= DEATH_ANIMATION_DURATION {
        if player.reserveEnergy > 0 {
          var restore := player.reserveEnergy;
          if restore > player.maxHealth {
            restore := player.maxHealth;
          }
          player.health := restore;
          player.reserveEnergy := player.reserveEnergy - restore;
          requests := [SetState(STATE_GAMEPLAY)];
        } else {
          var loaded, data := save.QuickLoad();
          if loaded {
            ApplySave(player, data);
          }
          requests := if loaded then [SetState(STATE_GAMEPLAY)] else [SetState(STATE_TITLE)];
        }
      } else {
        requests := [];
      }
    }
  }

  /**
   * A revival moves energy from the reserve to health without creating or
   * losing any: health becomes min(reserve, maximum) and the reserve keeps
   * the rest, never going below zero.
   */
  lemma RevivalMovesReserve(maxHealth: int, reserve: int)
    requires IsUint16(maxHealth) && IsUint16(reserve) && reserve > 0
    ensures var h := Restore(maxHealth, reserve);
      && 0 <= h <= maxHealth && h <= reserve
      && IsUint16(reserve - h) && h + (reserve - h) == reserve
      && (h == reserve || h == maxHealth)
  {
  }

  /** With no maximum health, a reserve tank "revives" the player with no health and keeps its energy. */
  lemma ZeroMaximumRevivesEmpty(reserve: int)
    requires reserve > 0
    ensures Restore(0, reserve) == 0
    ensures Requests(DEATH_ANIMATION_DURATION, reserve, false) == [SetState(STATE_GAMEPLAY)]
  {
  }

  /** Until the animation is over nothing is asked for; after it, exactly one transition is. */
  lemma AnimationThenOneTransition(timer: int, reserve: int, loadable: bool)
    ensures timer < DEATH_ANIMATION_DURATION ==> Requests(timer, reserve, loadable) == []
    ensures timer >= DEATH_ANIMATION_DURATION ==> |Requests(timer, reserve, loadable)| == 1
  {
  }

  /** Without a reserve the player goes back to gameplay exactly when the last save loads. */
  lemma ReloadOrTitle(timer: int, loadable: bool)
    requires timer >= DEATH_ANIMATION_DURATION
    ensures Requests(timer, 0, loadable) == [SetState(if loadable then STATE_GAMEPLAY else STATE_TITLE)]
  {
  }

  /** The counter reaches the end of the animation on the 180th update after entry. */
  lemma {:induction false} CounterReachesDuration(n: nat)
    requires n < UINT16_LIMIT
    ensures Counted(n) == n
    ensures Counted(n) >= DEATH_ANIMATION_DURATION <==> n >= DEATH_ANIMATION_DURATION
  {
    if n > 0 {
      CounterReachesDuration(n - 1);
    }
  }

  /** The counter after n updates from entry. */
  function Counted(n: nat): (t: int)
    ensures IsUint16(t)
  {
    if n == 0 then 0 else ToUint16(Counted(n - 1) + 1)
  }
}
