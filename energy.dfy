/**
 * The energy pool weapons draw on: consumption, a regeneration delay,
 * regeneration per second, and notifications for depletion and recovery.
 */
module Energy {
  import opened Common

  datatype EnergyEvent = EnergyChanged(current: real, maximum: real) | Depleted | Restored

  class Energy {
    var maxEnergy: real
    var currentEnergy: real
    const regenRate: real
    const regenDelay: real
    var regenTimer: real
    var events: seq<EnergyEvent>

    /** Energy within its bounds; kept by every mutator for non-negative amounts. */
    predicate InRange() reads this { 0.0 <= currentEnergy <= maxEnergy }

    predicate HasEnergy()
      reads this
      ensures InRange() ==> (!HasEnergy() <==> currentEnergy == 0.0)
    {
      currentEnergy > 0.0
    }

    /** `CanAfford`: exactly the test `TryConsume` passes (see its contract). */
    predicate CanAfford(amount: real)
      reads this
      ensures InRange() && amount <= 0.0 ==> CanAfford(amount)
      ensures CanAfford(amount) && amount > 0.0 ==> HasEnergy()
    {
      currentEnergy >= amount
    }

    /** `Awake`: the pool starts full, with regeneration not delayed. */
    constructor (maxEnergy: real, regenRate: real, regenDelay: real)
      ensures this.maxEnergy == maxEnergy && this.regenRate == regenRate && this.regenDelay == regenDelay
      ensures currentEnergy == maxEnergy && regenTimer == 0.0 && events == []
    {
      this.maxEnergy := maxEnergy;
      this.regenRate := regenRate;
      this.regenDelay := regenDelay;
      currentEnergy := maxEnergy;
      regenTimer := 0.0;
      events := [];
    }

    /** The "restored" notification for a move from `before` to `after`. */
    static function RestoredOf(before: real, after: real): seq<EnergyEvent>
    {
      if before <= 0.0 && after > 0.0 then [Restored] else []
    }

    /**
     * `Update`. While the regeneration delay runs, only the delay counts
     * down. Afterwards a pool below its maximum regains rate * dt, capped
     * at the maximum; a full pool is left alone.
     */
    method Update(dt: real)
      requires dt >= 0.0
      modifies this`currentEnergy, this`regenTimer, this`events
      ensures old(regenTimer) > 0.0 ==>
        regenTimer == old(regenTimer) - dt && currentEnergy == old(currentEnergy) && events == old(events)
      ensures old(regenTimer) <= 0.0 && old(currentEnergy) >= maxEnergy ==>
        regenTimer == old(regenTimer) && currentEnergy == old(currentEnergy) && events == old(events)
      ensures old(regenTimer) <= 0.0 && old(currentEnergy) < maxEnergy ==>
        && regenTimer == old(regenTimer)
        && currentEnergy == Min(old(currentEnergy) + regenRate * dt, maxEnergy)
        && currentEnergy <= maxEnergy
        && (regenRate >= 0.0 ==> old(currentEnergy) <= currentEnergy)
        && events == old(events) + RestoredOf(old(currentEnergy), currentEnergy) + [EnergyChanged(currentEnergy, maxEnergy)]
      ensures old(InRange()) && regenRate >= 0.0 ==> InRange()
    {
      if regenTimer > 0.0 {
        regenTimer := regenTimer - dt;
      } else if currentEnergy < maxEnergy {
        var previous := currentEnergy;
        currentEnergy := Min(currentEnergy + regenRate * dt, maxEnergy);
        events := events + RestoredOf(previous, currentEnergy);
        events := events + [EnergyChanged(currentEnergy, maxEnergy)];
      }
    }

    /**
     * `TryConsume`. Succeeds exactly when the pool can afford the amount;
     * a refusal changes nothing. A success takes the amount, restarts the
     * regeneration delay, and signals depletion when the pool is left empty.
     */
    method TryConsume(amount: real) returns (ok: bool)
      modifies this`currentEnergy, this`regenTimer, this`events
      ensures ok == old(CanAfford(amount))
      ensures !ok ==> currentEnergy == old(currentEnergy) && regenTimer == old(regenTimer) && events == old(events)
      ensures ok ==> currentEnergy == old(currentEnergy) - amount && regenTimer == regenDelay
      ensures ok ==> events == old(events) + [EnergyChanged(old(currentEnergy) - amount, maxEnergy)]
                                         + (if currentEnergy <= 0.0 then [Depleted] else [])
      ensures old(InRange()) && amount >= 0.0 ==> InRange()
    {
      if currentEnergy < amount {
        return false;
      }
      currentEnergy := currentEnergy - amount;
      regenTimer := regenDelay;
      events := events + [EnergyChanged(currentEnergy, maxEnergy)];
      if currentEnergy <= 0.0 {
        currentEnergy := 0.0;
        events := events + [Depleted];
      }
      return true;
    }

    /** `Consume`: takes the amount unconditionally, never below zero, and restarts the delay. */
    method Consume(amount: real)
      modifies this`currentEnergy, this`regenTimer, this`events
      ensures currentEnergy == Max(0.0, old(currentEnergy) - amount) && regenTimer == regenDelay
      ensures events == old(events) + [EnergyChanged(currentEnergy, maxEnergy)] + (if currentEnergy <= 0.0 then [Depleted] else [])
      ensures old(InRange()) && amount >= 0.0 ==> InRange()
    {
      currentEnergy := Max(0.0, currentEnergy - amount);
      regenTimer := regenDelay;
      events := events + [EnergyChanged(currentEnergy, maxEnergy)];
      if currentEnergy <= 0.0 {
        events := events + [Depleted];
      }
    }

    /** `AddEnergy`: adds up to the maximum; leaving an empty pool is announced as restored. */
    method AddEnergy(amount: real)
      modifies this`currentEnergy, this`events
      ensures currentEnergy == Min(old(currentEnergy) + amount, maxEnergy)
      ensures events == old(events) + RestoredOf(old(currentEnergy), currentEnergy) + [EnergyChanged(currentEnergy, maxEnergy)]
      ensures old(InRange()) && amount >= 0.0 ==> InRange()
    {
      var previous := currentEnergy;
      currentEnergy := Min(currentEnergy + amount, maxEnergy);
      events := events + RestoredOf(previous, currentEnergy);
      events := events + [EnergyChanged(currentEnergy, maxEnergy)];
    }

    /** `ResetEnergy`: full pool, regeneration delay cleared. */
    method ResetEnergy()
      modifies this`currentEnergy, this`regenTimer, this`events
      ensures currentEnergy == maxEnergy && regenTimer == 0.0
      ensures events == old(events) + [EnergyChanged(maxEnergy, maxEnergy)]
      ensures maxEnergy >= 0.0 ==> InRange()
    {
      currentEnergy := maxEnergy;
      regenTimer := 0.0;
      events := events + [EnergyChanged(currentEnergy, maxEnergy)];
    }

    /** `SetMaxEnergy`: a new maximum, with the pool cut down to it if it was above. */
    method SetMaxEnergy(value: real)
      modifies this`maxEnergy, this`currentEnergy, this`events
      ensures maxEnergy == value && currentEnergy == Min(old(currentEnergy), value)
      ensures events == old(events) + [EnergyChanged(currentEnergy, maxEnergy)]
      ensures old(currentEnergy) >= 0.0 && value >= 0.0 ==> InRange()
    {
      maxEnergy := value;
      currentEnergy := Min(currentEnergy, maxEnergy);
      events := events + [EnergyChanged(currentEnergy, maxEnergy)];
    }
  }
}
