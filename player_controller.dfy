/**
 * The player's state machine: state changes exit the old state and enter
 * the new one, the previous state is remembered, and cutscenes freeze the
 * player and always hand control back in the idle state.
 */
module PlayerController {
  import opened Common

  /** The player states the controller creates or is handed. */
  datatype PlayerState = Idle | Move | Jump | Attack | Frozen

  /** The Exit and Enter calls the controller makes, in order. */
  datatype Hook = Exited(state: PlayerState) | Entered(state: PlayerState)

  /** Enter and Exit alternate, starting with Enter, and every Exit leaves the state last entered. */
  ghost predicate Alternating(h: seq<Hook>)
  {
    && (forall i :: 0 <= i < |h| ==> (h[i].Entered? <==> i % 2 == 0))
    && (forall i :: 1 <= i < |h| && h[i].Exited? ==> h[i].state == h[i - 1].state)
  }

  function ExitHook(s: Option<PlayerState>): seq<Hook>
  {
    if s.Some? then [Exited(s.value)] else []
  }

  /** The log agrees with the current state: empty before the first state, that state's Enter last after. */
  ghost predicate HooksAgree(h: seq<Hook>, s: Option<PlayerState>)
  {
    && Alternating(h)
    && (s.None? <==> h == [])
    && (s.Some? ==> h[|h| - 1] == Entered(s.value))
  }

  /** One change (an Exit of the current state, if any, then an Enter) keeps the log agreeing with the state. */
  lemma HooksAfterChange(h: seq<Hook>, s: Option<PlayerState>, next: PlayerState)
    requires HooksAgree(h, s)
    ensures HooksAgree(h + ExitHook(s) + [Entered(next)], Some(next))
  {
    var h' := h + ExitHook(s) + [Entered(next)];
    if s.Some? {
      assert (|h| - 1) % 2 == 0 by { assert h[|h| - 1].Entered?; }
      forall i | 1 <= i < |h'| && h'[i].Exited?
        ensures h'[i].state == h'[i - 1].state
      {
        if i < |h| {
          assert h'[i] == h[i] && h'[i - 1] == h[i - 1];
        }
      }
    }
  }

  class PlayerController {
    var currentState: Option<PlayerState>
    var previousState: Option<PlayerState>
    var stateBeforeFrozen: Option<PlayerState>
    /** How many times the input handler's buffered input was cleared. */
    var inputClears: nat
    ghost var hooks: seq<Hook>

    ghost predicate Valid()
      reads this
    {
      HooksAgree(hooks, currentState)
    }

    /** `Awake`: no state yet. */
    constructor ()
      ensures currentState == None && previousState == None && stateBeforeFrozen == None
      ensures inputClears == 0 && hooks == [] && Valid()
    {
      currentState := None;
      previousState := None;
      stateBeforeFrozen := None;
      inputClears := 0;
      hooks := [];
    }

    /**
     * `ChangeState`: without a new state nothing happens. Otherwise the
     * current state is remembered as the previous one, exited (if any),
     * replaced, and the new state entered, in that order; there is no
     * check that the new state differs from the current one.
     */
    method ChangeState(next: Option<PlayerState>)
      requires Valid()
      modifies this`currentState, this`previousState, this`hooks
      ensures Valid()
      ensures next.None? ==> currentState == old(currentState) && previousState == old(previousState) && hooks == old(hooks)
      ensures next.Some? ==>
        && previousState == old(currentState)
        && currentState == next
        && hooks == old(hooks) + ExitHook(old(currentState)) + [Entered(next.value)]
    {
      if next.None? {
        return;
      }
      HooksAfterChange(hooks, currentState, next.value);
      previousState := currentState;
      if currentState.Some? {
        hooks := hooks + [Exited(currentState.value)];
      }
      currentState := next;
      hooks := hooks + [Entered(next.value)];
    }

    /** `Start`: the player begins idle. */
    method Start()
      requires Valid()
      modifies this`currentState, this`previousState, this`hooks
      ensures Valid()
      ensures currentState == Some(Idle) && previousState == old(currentState)
    {
      ChangeState(Some(Idle));
    }

    /** `HandleCutsceneStart`: the current state is saved, buffered input is dropped, and the player is frozen. */
    method HandleCutsceneStart()
      requires Valid()
      modifies this
      ensures Valid()
      ensures stateBeforeFrozen == old(currentState) && inputClears == old(inputClears) + 1
      ensures currentState == Some(Frozen) && previousState == old(currentState)
      ensures hooks == old(hooks) + ExitHook(old(currentState)) + [Entered(Frozen)]
    {
      stateBeforeFrozen := currentState;
      inputClears := inputClears + 1;
      ChangeState(Some(Frozen));
    }

    /** `HandleCutsceneEnd`: the player is idle again, whatever state was saved when the cutscene began. */
    method HandleCutsceneEnd()
      requires Valid()
      modifies this`currentState, this`previousState, this`hooks
      ensures Valid()
      ensures currentState == Some(Idle) && previousState == old(currentState)
      ensures hooks == old(hooks) + ExitHook(old(currentState)) + [Entered(Idle)]
    {
      if stateBeforeFrozen.Some? {
        ChangeState(Some(Idle));
      } else {
        ChangeState(Some(Idle));
      }
    }
  }
}
