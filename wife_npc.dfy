/**
 * The wife: talking to her three times tells the story. The first talk is
 * a dialogue, the second reveals her mask, the third makes her leave; after
 * that she no longer reacts.
 */
module WifeNPC {
  /**
   * What an interaction sets off, in order: global game events, the
   * scene's own events, and calls scheduled after a delay in seconds.
   */
  datatype WifeEvent =
    | CutsceneStarted
    | FirstInteraction
    | WifeMaskRevealed
    | MaskReveal
    | WifeLeftRoom
    | LeaveRoom
    | EndCutsceneAfter(delay: real)
    | DisableAfter(delay: real)

  /** The default prompts, one per stage of the story. */
  const DefaultPrompts: seq<string> := ["Press E to talk", "Press E to talk again", "Press E..."]

  /** What the `n`-th interaction (counted from 1) sets off. */
  function StageEvents(n: int): (r: seq<WifeEvent>)
    ensures |r| >= 3 && r[0] == CutsceneStarted && r[|r| - 1].EndCutsceneAfter?
    ensures WifeMaskRevealed in r <==> n == 2
    ensures WifeLeftRoom in r <==> n != 1 && n != 2
  {
    if n == 1 then [CutsceneStarted, FirstInteraction, EndCutsceneAfter(2.0)]
    else if n == 2 then [CutsceneStarted, WifeMaskRevealed, MaskReveal, EndCutsceneAfter(3.0)]
    else [CutsceneStarted, WifeLeftRoom, LeaveRoom, DisableAfter(1.5), EndCutsceneAfter(2.0)]
  }

  class WifeNPC {
    const prompts: seq<string>
    var interactionCount: int
    var hasRevealedMask: bool
    var hasLeft: bool
    var events: seq<WifeEvent>

    /**
     * The story so far: at most three interactions count, the mask is
     * revealed from the second on, and she has left exactly after the
     * third.
     */
    predicate Valid()
      reads this
    {
      && 0 <= interactionCount <= 3
      && (hasRevealedMask <==> interactionCount >= 2)
      && (hasLeft <==> interactionCount == 3)
    }

    /** The serialized start: no interaction yet. */
    constructor (prompts: seq<string>)
      ensures this.prompts == prompts
      ensures interactionCount == 0 && !hasRevealedMask && !hasLeft && events == [] && Valid()
    {
      this.prompts := prompts;
      interactionCount := 0;
      hasRevealedMask := false;
      hasLeft := false;
      events := [];
    }

    /** `CanInteract`: until she has left. */
    predicate CanInteract() reads this { !hasLeft }

    /**
     * `InteractionPrompt`: nothing once she has left; otherwise the prompt
     * for the current stage, the last prompt serving every later stage.
     * The prompt list must not be empty while she is there.
     */
    function InteractionPrompt(): (p: string)
      requires Valid() && (hasLeft || |prompts| > 0)
      reads this
      ensures hasLeft ==> p == ""
      ensures !hasLeft ==> p in prompts
      ensures !hasLeft && interactionCount < |prompts| ==> p == prompts[interactionCount]
      ensures !hasLeft && interactionCount >= |prompts| ==> p == prompts[|prompts| - 1]
    {
      if hasLeft then ""
      else
        var index := if interactionCount <= |prompts| - 1 then interactionCount else |prompts| - 1;
        prompts[index]
    }

    /**
     * `OnInteract`: ignored once she has left. Otherwise the count goes
     * up by one and the stage it reaches plays out: dialogue, then the
     * mask reveal, then her leaving.
     */
    method OnInteract()
      requires Valid()
      modifies this
      ensures Valid()
      ensures old(hasLeft) ==>
        interactionCount == old(interactionCount) && hasRevealedMask == old(hasRevealedMask) && events == old(events)
      ensures !old(hasLeft) ==>
        interactionCount == old(interactionCount) + 1 && events == old(events) + StageEvents(interactionCount)
      ensures hasLeft <==> old(hasLeft) || old(interactionCount) == 2
    {
      if hasLeft {
        return;
      }
      interactionCount := interactionCount + 1;
      if interactionCount == 1 {
        events := events + [CutsceneStarted, FirstInteraction, EndCutsceneAfter(2.0)];
      } else if interactionCount == 2 {
        hasRevealedMask := true;
        events := events + [CutsceneStarted, WifeMaskRevealed, MaskReveal, EndCutsceneAfter(3.0)];
      } else {
        hasLeft := true;
        events := events + [CutsceneStarted, WifeLeftRoom, LeaveRoom, DisableAfter(1.5), EndCutsceneAfter(2.0)];
      }
    }

    /** `ResetState`: back to before the first interaction. */
    method ResetState()
      modifies this`interactionCount, this`hasRevealedMask, this`hasLeft
      ensures interactionCount == 0 && !hasRevealedMask && !hasLeft && Valid()
    {
      interactionCount := 0;
      hasRevealedMask := false;
      hasLeft := false;
    }
  }
}
