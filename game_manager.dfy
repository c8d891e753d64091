/**
 * The global game phase and its change notifications.
 */
module GameManager {
  datatype GameState = Menu | Bedroom | Cutscene | Dungeon | Paused

  /** An `OnStateChanged(previous, next)` notification. */
  datatype Change = Change(previous: GameState, next: GameState)

  /**
   * A change log is a real history starting in `start`: no notification
   * repeats its own state, each one starts where the previous one ended.
   */
  predicate Chained(start: GameState, log: seq<Change>)
  {
    && (forall i :: 0 <= i < |log| ==> log[i].previous != log[i].next)
    && (|log| > 0 ==> log[0].previous == start)
    && (forall i :: 0 < i < |log| ==> log[i].previous == log[i - 1].next)
  }

  /** The state a chained log ends in. */
  function Last(start: GameState, log: seq<Change>): GameState
  {
    if log == [] then start else log[|log| - 1].next
  }

  class GameManager {
    var currentState: GameState
    var changes: seq<Change>

    predicate Valid()
      reads this
    {
      Chained(Bedroom, changes) && currentState == Last(Bedroom, changes)
    }

    /** The game starts in the bedroom, with nothing announced. */
    constructor ()
      ensures Valid() && currentState == Bedroom && changes == []
    {
      currentState := Bedroom;
      changes := [];
    }

    /**
     * `ChangeState`. A change to the current state is silent; any other
     * change is made and announced once with the previous and the new state.
     */
    method ChangeState(newState: GameState)
      requires Valid()
      modifies this
      ensures Valid()
      ensures currentState == newState
      ensures newState == old(currentState) ==> changes == old(changes)
      ensures newState != old(currentState) ==> changes == old(changes) + [Change(old(currentState), newState)]
    {
      if currentState == newState {
        return;
      }
      var previous := currentState;
      currentState := newState;
      changes := changes + [Change(previous, newState)];
    }

    /**
     * `SetPaused`. Pausing enters Paused; un-pausing always returns to the
     * bedroom, whatever state was left when the game was paused.
     */
    method SetPaused(paused: bool)
      requires Valid()
      modifies this
      ensures Valid()
      ensures var target := if paused then Paused else Bedroom;
        && currentState == target
        && changes == old(changes) + (if old(currentState) == target then [] else [Change(old(currentState), target)])
    {
      if paused {
        ChangeState(Paused);
      } else {
        ChangeState(Bedroom);
      }
    }

    /** `HandleCutsceneStart`, run on the cutscene-start event: the game enters the cutscene state, announced unless it is already there. */
    method HandleCutsceneStart()
      requires Valid()
      modifies this
      ensures Valid() && currentState == Cutscene
      ensures changes == old(changes) + (if old(currentState) == Cutscene then [] else [Change(old(currentState), Cutscene)])
    {
      ChangeState(Cutscene);
    }

    /** `HandleCutsceneEnd`, run on the cutscene-end event: the game returns to the bedroom, announced unless it is already there. */
    method HandleCutsceneEnd()
      requires Valid()
      modifies this
      ensures Valid() && currentState == Bedroom
      ensures changes == old(changes) + (if old(currentState) == Bedroom then [] else [Change(old(currentState), Bedroom)])
    {
      ChangeState(Bedroom);
    }

    /** `HandleDungeonEntered`, run on the dungeon-entered event: the game enters the dungeon state, announced unless it is already there. */
    method HandleDungeonEntered()
      requires Valid()
      modifies this
      ensures Valid() && currentState == Dungeon
      ensures changes == old(changes) + (if old(currentState) == Dungeon then [] else [Change(old(currentState), Dungeon)])
    {
      ChangeState(Dungeon);
    }
  }
}
