/**
 * A simple interactable object (a door, an item): it fires its events when
 * used, can be switched off, and a one-time object works once until reset.
 */
module GenericInteractable {
  class GenericInteractable {
    const prompt: string
    const oneTimeOnly: bool
    var canInteract: bool
    var hasBeenUsed: bool
    /** How many interactions fired the events. */
    var uses: nat
    /** How many of them happened since the last `Reset`. */
    ghost var usesSinceReset: nat

    /** Used exactly when an interaction fired since the last reset; a one-time object fires at most once in that span. */
    ghost predicate Valid()
      reads this
    {
      && (hasBeenUsed <==> usesSinceReset > 0)
      && (oneTimeOnly ==> usesSinceReset <= 1)
    }

    /** The serialized start: usable, not used (the default prompt is "Press E to interact"). */
    constructor (prompt: string, canInteract: bool, oneTimeOnly: bool)
      ensures this.prompt == prompt && this.canInteract == canInteract && this.oneTimeOnly == oneTimeOnly
      ensures !hasBeenUsed && uses == 0 && Valid()
    {
      this.prompt := prompt;
      this.canInteract := canInteract;
      this.oneTimeOnly := oneTimeOnly;
      hasBeenUsed := false;
      uses := 0;
      usesSinceReset := 0;
    }

    /** `CanInteract`: switched on, and not a one-time object already used. */
    predicate CanInteract()
      reads this
      ensures CanInteract() ==> canInteract
      ensures oneTimeOnly && hasBeenUsed ==> !CanInteract()
    {
      canInteract && !(oneTimeOnly && hasBeenUsed)
    }

    /** `OnInteract`: ignored unless it can be used; otherwise it is marked used and its events fire once. */
    method OnInteract()
      requires Valid()
      modifies this`hasBeenUsed, this`uses, this`usesSinceReset
      ensures Valid()
      ensures !old(CanInteract()) ==> hasBeenUsed == old(hasBeenUsed) && uses == old(uses)
      ensures old(CanInteract()) ==> hasBeenUsed && uses == old(uses) + 1
      ensures oneTimeOnly ==> !CanInteract()
    {
      if !CanInteract() {
        return;
      }
      hasBeenUsed := true;
      uses := uses + 1;
      usesSinceReset := usesSinceReset + 1;
    }

    /** `SetCanInteract`: switches interaction on or off. */
    method SetCanInteract(value: bool)
      modifies this`canInteract
      ensures canInteract == value
    {
      canInteract := value;
    }

    /** `Reset`: the object counts as unused again. */
    method Reset()
      modifies this`hasBeenUsed, this`usesSinceReset
      ensures !hasBeenUsed && Valid()
    {
      hasBeenUsed := false;
      usesSinceReset := 0;
    }
  }
}
