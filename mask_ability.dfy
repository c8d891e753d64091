/**
 * A mask's active ability: it runs for a fixed duration and then goes on
 * cooldown, and the mask-specific activation and deactivation hooks
 * always alternate.
 */
module MaskAbility {
  /** The subclass hooks the ability calls, in order. */
  datatype AbilityHook = OnActivate | OnDeactivate

  /** The hooks alternate, starting with an activation. */
  predicate Alternating(h: seq<AbilityHook>)
  {
    forall i :: 0 <= i < |h| ==> (h[i] == OnActivate <==> i % 2 == 0)
  }

  /** In an alternating log the same hook never runs twice in a row. */
  lemma {:induction false} NeverTwiceInARow(h: seq<AbilityHook>)
    requires Alternating(h)
    ensures forall i :: 0 <= i < |h| - 1 ==> h[i] != h[i + 1]
  {
    forall i | 0 <= i < |h| - 1 ensures h[i] != h[i + 1]
    {
      assert (h[i] == OnActivate <==> i % 2 == 0);
      assert (h[i + 1] == OnActivate <==> (i + 1) % 2 == 0);
    }
  }

  class MaskAbility {
    const cooldown: real
    const duration: real
    var cooldownTimer: real
    var durationTimer: real
    var isActive: bool
    var hooks: seq<AbilityHook>

    predicate IsOnCooldown() reads this { cooldownTimer > 0.0 }

    /** The hooks alternate, and the ability is active exactly after an activation that has not been undone. */
    predicate Valid()
      reads this
    {
      && Alternating(hooks)
      && (isActive <==> |hooks| % 2 == 1)
    }

    /** `Awake`: inactive and off cooldown (the serialized cooldown is 5 s and the duration 3 s). */
    constructor (cooldown: real, duration: real)
      ensures this.cooldown == cooldown && this.duration == duration
      ensures cooldownTimer == 0.0 && durationTimer == 0.0 && !isActive && hooks == []
      ensures Valid()
    {
      this.cooldown := cooldown;
      this.duration := duration;
      cooldownTimer := 0.0;
      durationTimer := 0.0;
      isActive := false;
      hooks := [];
    }

    /** `Activate`: refused on cooldown or while active; otherwise the ability runs for its duration and its activation hook runs once. */
    method Activate()
      requires Valid()
      modifies this`isActive, this`durationTimer, this`hooks
      ensures Valid()
      ensures old(IsOnCooldown()) || old(isActive) ==>
        isActive == old(isActive) && durationTimer == old(durationTimer) && hooks == old(hooks)
      ensures !old(IsOnCooldown()) && !old(isActive) ==>
        isActive && durationTimer == duration && hooks == old(hooks) + [OnActivate]
    {
      if IsOnCooldown() || isActive {
        return;
      }
      isActive := true;
      durationTimer := duration;
      hooks := hooks + [OnActivate];
    }

    /** `Deactivate`: a no-op when inactive; otherwise the ability stops, the cooldown starts and the deactivation hook runs once. */
    method Deactivate()
      requires Valid()
      modifies this`isActive, this`cooldownTimer, this`hooks
      ensures Valid()
      ensures !old(isActive) ==> !isActive && cooldownTimer == old(cooldownTimer) && hooks == old(hooks)
      ensures old(isActive) ==> !isActive && cooldownTimer == cooldown && hooks == old(hooks) + [OnDeactivate]
    {
      if !isActive {
        return;
      }
      isActive := false;
      cooldownTimer := cooldown;
      hooks := hooks + [OnDeactivate];
    }

    /**
     * `Update`: the cooldown runs down while positive; an active ability
     * runs its duration down and deactivates when it is used up; then a
     * key press activates the ability if it is neither on cooldown nor
     * active.
     */
    method Update(dt: real, keyDown: bool)
      requires Valid()
      modifies this
      ensures Valid()
      ensures var cd := if old(cooldownTimer) > 0.0 then old(cooldownTimer) - dt else old(cooldownTimer);
        var expired := old(isActive) && old(durationTimer) - dt <= 0.0;
        var cd' := if expired then cooldown else cd;
        var activated := keyDown && cd' <= 0.0 && (!old(isActive) || expired);
        && cooldownTimer == cd'
        && isActive == ((old(isActive) && !expired) || activated)
        && hooks == old(hooks) + (if expired then [OnDeactivate] else []) + (if activated then [OnActivate] else [])
        && durationTimer == (if activated then duration else if old(isActive) then old(durationTimer) - dt else old(durationTimer))
    {
      if cooldownTimer > 0.0 {
        cooldownTimer := cooldownTimer - dt;
      }
      if isActive {
        durationTimer := durationTimer - dt;
        if durationTimer <= 0.0 {
          Deactivate();
        }
      }
      if keyDown && !IsOnCooldown() && !isActive {
        Activate();
      }
    }
  }
}
