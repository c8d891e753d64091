/**
 * A pressure plate: activators (the player, pushable blocks) standing on
 * it keep it pressed; it announces every press and every release, and a
 * latching plate never releases.
 */
module PressurePlate {
  datatype PlateEvent = Pressed | Released

  /** Presses and releases alternate, starting with a press. */
  predicate Alternating(e: seq<PlateEvent>)
  {
    forall i :: 0 <= i < |e| ==> (e[i] == Pressed <==> i % 2 == 0)
  }

  class PressurePlate {
    const staysPressed: bool
    /** The tags of the objects that press the plate. */
    const activatorTags: seq<string>
    var isPressed: bool
    var objectsOnPlate: int
    var events: seq<PlateEvent>

    /** The notifications alternate, and the plate is pressed exactly after a press not yet released. */
    predicate Valid()
      reads this
    {
      && Alternating(events)
      && (isPressed <==> |events| % 2 == 1)
    }

    /** The plate at rest: unpressed, nothing on it (the serialized activators are "Player" and "PushableBlock"). */
    constructor (staysPressed: bool, activatorTags: seq<string>)
      ensures this.staysPressed == staysPressed && this.activatorTags == activatorTags
      ensures !isPressed && objectsOnPlate == 0 && events == [] && Valid()
    {
      this.staysPressed := staysPressed;
      this.activatorTags := activatorTags;
      isPressed := false;
      objectsOnPlate := 0;
      events := [];
    }

    /** `IsActivator`: the collider's tag is one of the activator tags. */
    method IsActivator(tag: string) returns (r: bool)
      ensures r <==> tag in activatorTags
    {
      var i := 0;
      while i < |activatorTags|
        invariant 0 <= i <= |activatorTags|
        invariant tag !in activatorTags[..i]
      {
        if activatorTags[i] == tag {
          return true;
        }
        i := i + 1;
      }
      assert activatorTags[..i] == activatorTags;
      return false;
    }

    /** `OnTriggerEnter2D`: another activator is on the plate, and an unpressed plate is pressed; other objects are ignored. */
    method OnTriggerEnter(tag: string)
      requires Valid()
      modifies this`isPressed, this`objectsOnPlate, this`events
      ensures Valid()
      ensures tag !in activatorTags ==>
        isPressed == old(isPressed) && objectsOnPlate == old(objectsOnPlate) && events == old(events)
      ensures tag in activatorTags ==>
        && isPressed && objectsOnPlate == old(objectsOnPlate) + 1
        && events == old(events) + (if old(isPressed) then [] else [Pressed])
    {
      var activator := IsActivator(tag);
      if !activator {
        return;
      }
      objectsOnPlate := objectsOnPlate + 1;
      if !isPressed {
        Press();
      }
    }

    /**
     * `OnTriggerExit2D`: other objects, and every exit from a latched
     * plate, are ignored. Otherwise one activator fewer is on the plate;
     * when none is left on a pressed plate, the count is cleared and the
     * plate is released.
     */
    method OnTriggerExit(tag: string)
      requires Valid()
      modifies this`isPressed, this`objectsOnPlate, this`events
      ensures Valid()
      ensures tag !in activatorTags || (staysPressed && old(isPressed)) ==>
        isPressed == old(isPressed) && objectsOnPlate == old(objectsOnPlate) && events == old(events)
      ensures tag in activatorTags && !(staysPressed && old(isPressed)) ==>
        var release := old(objectsOnPlate) - 1 <= 0 && old(isPressed);
        && isPressed == (old(isPressed) && !release)
        && objectsOnPlate == (if release then 0 else old(objectsOnPlate) - 1)
        && events == old(events) + (if release then [Released] else [])
    {
      var activator := IsActivator(tag);
      if !activator {
        return;
      }
      if staysPressed && isPressed {
        return;
      }
      objectsOnPlate := objectsOnPlate - 1;
      if objectsOnPlate <= 0 && isPressed {
        objectsOnPlate := 0;
        Release();
      }
    }

    method Press()
      requires Valid() && !isPressed
      modifies this`isPressed, this`events
      ensures Valid()
      ensures isPressed && events == old(events) + [Pressed]
    {
      isPressed := true;
      events := events + [Pressed];
    }

    method Release()
      requires Valid() && isPressed
      modifies this`isPressed, this`events
      ensures Valid()
      ensures !isPressed && events == old(events) + [Released]
    {
      isPressed := false;
      events := events + [Released];
    }
  }
}
