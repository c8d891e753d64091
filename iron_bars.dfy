/**
 * Iron bars that block a passage: opened and closed by triggers, they
 * slide up or down at a fixed speed, and block only while (almost) down.
 */
module IronBars {
  function Abs(x: real): real { if x < 0.0 then -x else x }

  /**
   * `MoveTowards` along one axis: moves by at most `maxDelta` (at least
   * zero) and never past the target; a step that can reach the target
   * lands on it.
   */
  function MoveTowards(current: real, target: real, maxDelta: real): (r: real)
    requires maxDelta >= 0.0
    ensures Abs(target - r) <= Abs(target - current)
    ensures Abs(r - current) <= maxDelta
    ensures Abs(target - current) <= maxDelta ==> r == target
    ensures (current <= r <= target) || (target <= r <= current)
  {
    if Abs(target - current) <= maxDelta then target
    else if target > current then current + maxDelta
    else current - maxDelta
  }

  datatype BarsSound = OpenSound | CloseSound

  class IronBars {
    const startsOpen: bool
    const openSpeed: real
    /** How far above the closed position the bars rest when open. */
    const openHeight: real
    /** Whether the open and close clips are assigned. */
    const hasOpenSound: bool
    const hasCloseSound: bool
    var isOpen: bool
    /** The bars' height above the closed position. */
    var offset: real
    var colliderEnabled: bool
    var sounds: seq<BarsSound>

    /** The bars never leave the span between the closed and the open position. */
    predicate Valid()
      reads this
    {
      openSpeed >= 0.0 && openHeight >= 0.0 && 0.0 <= offset <= openHeight
    }

    /** `Start`: open exactly when configured to start open; bars that start open are raised and let the player through. */
    constructor (startsOpen: bool, openSpeed: real, openHeight: real, hasOpenSound: bool, hasCloseSound: bool)
      requires openSpeed >= 0.0 && openHeight >= 0.0
      ensures this.startsOpen == startsOpen && this.openSpeed == openSpeed && this.openHeight == openHeight
      ensures this.hasOpenSound == hasOpenSound && this.hasCloseSound == hasCloseSound
      ensures isOpen == startsOpen && sounds == [] && Valid()
      ensures offset == (if startsOpen then openHeight else 0.0)
      ensures colliderEnabled == !startsOpen
    {
      this.startsOpen := startsOpen;
      this.openSpeed := openSpeed;
      this.openHeight := openHeight;
      this.hasOpenSound := hasOpenSound;
      this.hasCloseSound := hasCloseSound;
      isOpen := startsOpen;
      offset := if startsOpen then openHeight else 0.0;
      colliderEnabled := !startsOpen;
      sounds := [];
    }

    /**
     * `Update`: the bars slide toward the open or the closed position at
     * the open speed, unless already within 0.01 of it, never overshoot,
     * and block exactly while within 0.1 of the closed position.
     */
    method Update(dt: real)
      requires Valid() && dt >= 0.0
      modifies this`offset, this`colliderEnabled
      ensures Valid()
      ensures var goal := if isOpen then openHeight else 0.0;
        && Abs(goal - offset) <= Abs(goal - old(offset))
        && (Abs(old(offset) - goal) > 0.01 ==> offset == MoveTowards(old(offset), goal, openSpeed * dt))
        && (Abs(old(offset) - goal) <= 0.01 ==> offset == old(offset))
      ensures colliderEnabled <==> offset < 0.1
    {
      var goal := if isOpen then openHeight else 0.0;
      if Abs(offset - goal) > 0.01 {
        offset := MoveTowards(offset, goal, openSpeed * dt);
      }
      colliderEnabled := Abs(offset - 0.0) < 0.1;
    }

    /** `Open`: a no-op when open; otherwise the bars open, with the open sound if assigned. */
    method Open()
      modifies this`isOpen, this`sounds
      ensures isOpen
      ensures sounds == old(sounds) + (if !old(isOpen) && hasOpenSound then [OpenSound] else [])
    {
      if isOpen {
        return;
      }
      isOpen := true;
      if hasOpenSound {
        sounds := sounds + [OpenSound];
      }
    }

    /** `Close`: a no-op when closed; otherwise the bars close, with the close sound if assigned. */
    method Close()
      modifies this`isOpen, this`sounds
      ensures !isOpen
      ensures sounds == old(sounds) + (if old(isOpen) && hasCloseSound then [CloseSound] else [])
    {
      if !isOpen {
        return;
      }
      isOpen := false;
      if hasCloseSound {
        sounds := sounds + [CloseSound];
      }
    }

    /** `Toggle`: flips the bars, so toggling twice restores them. */
    method Toggle()
      modifies this`isOpen, this`sounds
      ensures isOpen == !old(isOpen)
      ensures sounds == old(sounds) + (if old(isOpen) then (if hasCloseSound then [CloseSound] else [])
                                        else (if hasOpenSound then [OpenSound] else []))
    {
      if isOpen {
        Close();
      } else {
        Open();
      }
    }
  }
}
