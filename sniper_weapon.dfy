/**
 * The sniper rifle: an attack only starts a charge; the shot fires by
 * itself once the charge time has passed, and only then does the cooldown
 * start. Releasing the trigger cancels the charge.
 */
module Sniper {
  import opened Common
  import WB = WeaponBase
  import RW = RangedWeapon

  /** `Mathf.Clamp01`. */
  function Clamp01(v: real): (r: real)
    ensures 0.0 <= r <= 1.0
    ensures 0.0 <= v <= 1.0 ==> r == v
  {
    if v < 0.0 then 0.0 else if v > 1.0 then 1.0 else v
  }

  class SniperWeapon {
    const gun: RW.RangedWeapon
    const attackSpeed: real
    const chargeTime: real
    /** How many enemies a shot passes through (`_penetrationCount`, cast to an int when a shot is fired). */
    const penetrationCount: int
    var isCharging: bool
    var chargeTimer: real
    /** The penetration each fired projectile was given, in order. */
    var shots: seq<int>

    /**
     * A charge in progress has run for less than the charge time (it fires
     * as soon as it reaches it); without a charge the timer is at zero.
     */
    predicate Valid()
      reads this
    {
      && attackSpeed > 0.0 && chargeTime > 0.0
      && (isCharging ==> 0.0 <= chargeTimer < chargeTime)
      && (!isCharging ==> chargeTimer == 0.0)
    }

    /** The rifle with the stats it sets in `Awake` (damage 25, cooldown 1.5, speed 1, range 15) and its serialized charge settings. */
    constructor (gun: RW.RangedWeapon)
      requires gun.weapon.damage == 25.0 && gun.weapon.attackCooldown == 1.5 && gun.weapon.range == 15.0
      ensures this.gun == gun && Valid()
      ensures attackSpeed == 1.0 && chargeTime == 0.5 && penetrationCount == 2
      ensures !isCharging && chargeTimer == 0.0 && shots == []
    {
      this.gun := gun;
      attackSpeed := 1.0;
      chargeTime := 0.5;
      penetrationCount := 2;
      isCharging := false;
      chargeTimer := 0.0;
      shots := [];
    }

    /**
     * `ChargeProgress`: how far the charge has come, as a fraction; zero
     * exactly when no time has been charged and one exactly when the
     * charge time is reached.
     */
    function ChargeProgress(): (p: real)
      requires chargeTime > 0.0
      reads this
      ensures 0.0 <= p <= 1.0
      ensures p == 0.0 <==> chargeTimer <= 0.0
      ensures p == 1.0 <==> chargeTimer >= chargeTime
    {
      var q := chargeTimer / chargeTime;
      assert q * chargeTime == chargeTimer;
      assert q >= 1.0 <==> chargeTimer >= chargeTime by {
        if q >= 1.0 { assert q * chargeTime >= 1.0 * chargeTime; }
      }
      assert q <= 0.0 <==> chargeTimer <= 0.0 by {
        if q > 0.0 { assert q * chargeTime > 0.0; }
        if q < 0.0 { assert q * chargeTime < 0.0; }
      }
      Clamp01(q)
    }

    /**
     * `Attack`: refused while the cooldown runs or without ammunition.
     * Otherwise a charge starts from zero (restarting one in progress);
     * the cooldown is not touched yet.
     */
    method Attack() returns (success: bool)
      requires Valid()
      modifies this`isCharging, this`chargeTimer
      ensures Valid()
      ensures success <==> old(gun.weapon.CanAttack()) && old(gun.HasAmmo())
      ensures success ==> isCharging && chargeTimer == 0.0
      ensures !success ==> isCharging == old(isCharging) && chargeTimer == old(chargeTimer)
    {
      if !gun.weapon.CanAttack() || !gun.HasAmmo() {
        return false;
      }
      isCharging := true;
      chargeTimer := 0.0;
      return true;
    }

    /** `CancelCharge`: no charge, timer back at zero. */
    method CancelCharge()
      requires Valid()
      modifies this`isCharging, this`chargeTimer
      ensures Valid()
      ensures !isCharging && chargeTimer == 0.0
    {
      isCharging := false;
      chargeTimer := 0.0;
    }

    /**
     * `FireChargedShot`: the charge ends and the cooldown starts (the
     * attack cooldown divided by the attack speed), with or without a
     * prefab; with one, a projectile with the rifle's penetration is
     * fired. No round is used.
     */
    method FireChargedShot()
      requires attackSpeed > 0.0 && chargeTime > 0.0
      modifies this`isCharging, this`chargeTimer, this`shots, gun.weapon`cooldownTimer, gun`projectilesSpawned
      ensures Valid()
      ensures !isCharging && chargeTimer == 0.0
      ensures gun.weapon.cooldownTimer == gun.weapon.attackCooldown / attackSpeed
      ensures shots == old(shots) + (if gun.hasPrefab then [penetrationCount] else [])
      ensures gun.projectilesSpawned == old(gun.projectilesSpawned) + (if gun.hasPrefab then 1 else 0)
    {
      isCharging := false;
      chargeTimer := 0.0;
      gun.weapon.cooldownTimer := gun.weapon.attackCooldown / attackSpeed;
      if !gun.hasPrefab {
        return;
      }
      gun.projectilesSpawned := gun.projectilesSpawned + 1;
      shots := shots + [penetrationCount];
    }

    /**
     * `Update`: the cooldown runs down; a charge in progress accumulates
     * the frame time and fires exactly when the accumulated time reaches
     * the charge time. No round is ever used.
     */
    method Update(dt: real)
      requires Valid() && dt >= 0.0
      modifies this`isCharging, this`chargeTimer, this`shots, gun.weapon`cooldownTimer, gun`projectilesSpawned
      ensures Valid()
      ensures var fired := old(isCharging) && old(chargeTimer) + dt >= chargeTime;
        && isCharging == (old(isCharging) && !fired)
        && chargeTimer == (if old(isCharging) && !fired then old(chargeTimer) + dt else 0.0)
        && gun.weapon.cooldownTimer == (if fired then gun.weapon.attackCooldown / attackSpeed else WB.Tick(old(gun.weapon.cooldownTimer), dt))
        && shots == old(shots) + (if fired && gun.hasPrefab then [penetrationCount] else [])
      ensures gun.currentAmmo == old(gun.currentAmmo)
    {
      gun.weapon.Update(dt);
      if isCharging {
        chargeTimer := chargeTimer + dt;
        if chargeTimer >= chargeTime {
          FireChargedShot();
        }
      }
    }
  }
}
