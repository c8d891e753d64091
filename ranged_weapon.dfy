/**
 * A weapon that fires projectiles and may have a limited magazine: a
 * negative maximum means unlimited ammunition.
 */
module RangedWeapon {
  import opened Common
  import WB = WeaponBase

  class RangedWeapon {
    const weapon: WB.WeaponBase
    /** Whether a projectile prefab is assigned. */
    const hasPrefab: bool
    /** `_maxAmmo`; negative for unlimited ammunition (the serialized default is -1). */
    const maxAmmo: int
    var currentAmmo: int
    /** How many projectiles the weapon has spawned. */
    var projectilesSpawned: nat

    /** `HasAmmo`: unlimited, or at least one round left. */
    predicate HasAmmo()
      reads this
      ensures maxAmmo < 0 ==> HasAmmo()
      ensures AmmoInRange() && maxAmmo == 0 ==> !HasAmmo()
    {
      maxAmmo < 0 || currentAmmo > 0
    }

    /**
     * The magazine: a finite one holds between none and the maximum; an
     * unlimited or zero-sized one keeps the value `Start` gave it.
     */
    predicate AmmoInRange() reads this
    {
      && (maxAmmo > 0 ==> 0 <= currentAmmo <= maxAmmo)
      && (maxAmmo <= 0 ==> currentAmmo == maxAmmo)
    }

    /** `Start`: the magazine starts full (at the maximum, whatever its sign). */
    constructor (weapon: WB.WeaponBase, hasPrefab: bool, maxAmmo: int)
      ensures this.weapon == weapon && this.hasPrefab == hasPrefab && this.maxAmmo == maxAmmo
      ensures currentAmmo == maxAmmo && projectilesSpawned == 0
      ensures AmmoInRange()
      ensures HasAmmo() <==> maxAmmo != 0
    {
      this.weapon := weapon;
      this.hasPrefab := hasPrefab;
      this.maxAmmo := maxAmmo;
      currentAmmo := maxAmmo;
      projectilesSpawned := 0;
    }

    /**
     * `Attack`: refused without ammunition before the cooldown is even
     * looked at; otherwise the base attack decides, and a granted attack
     * fires one projectile.
     */
    method Attack() returns (success: bool)
      modifies weapon`cooldownTimer, weapon`isAttacking, this`currentAmmo, this`projectilesSpawned
      ensures !old(HasAmmo()) ==> !success && weapon.cooldownTimer == old(weapon.cooldownTimer)
      ensures success <==> old(HasAmmo()) && old(weapon.CanAttack())
      ensures success ==> weapon.cooldownTimer == weapon.attackCooldown && weapon.isAttacking
      ensures !success ==> weapon.cooldownTimer == old(weapon.cooldownTimer) && weapon.isAttacking == old(weapon.isAttacking)
      ensures currentAmmo == old(currentAmmo) - (if success && hasPrefab && maxAmmo > 0 then 1 else 0)
      ensures projectilesSpawned == old(projectilesSpawned) + (if success && hasPrefab then 1 else 0)
      ensures old(AmmoInRange()) ==> AmmoInRange()
    {
      if !HasAmmo() {
        return false;
      }
      success := weapon.Attack();
      if success {
        PerformAttack();
      }
    }

    /**
     * `PerformAttack`: without a prefab nothing is spawned and no round is
     * used; otherwise one projectile is spawned, and a finite magazine
     * loses one round.
     */
    method PerformAttack()
      modifies this`currentAmmo, this`projectilesSpawned
      ensures projectilesSpawned == old(projectilesSpawned) + (if hasPrefab then 1 else 0)
      ensures currentAmmo == old(currentAmmo) - (if hasPrefab && maxAmmo > 0 then 1 else 0)
    {
      if !hasPrefab {
        return;
      }
      projectilesSpawned := projectilesSpawned + 1;
      if maxAmmo > 0 {
        currentAmmo := currentAmmo - 1;
      }
    }

    /**
     * `AddAmmo`: a finite magazine gains the amount up to its maximum; an
     * unlimited or zero-sized one is left alone. A refill never overflows
     * the magazine, and a non-negative refill keeps it in range.
     */
    method AddAmmo(amount: int)
      modifies this`currentAmmo
      ensures maxAmmo > 0 ==> currentAmmo == (if old(currentAmmo) + amount <= maxAmmo then old(currentAmmo) + amount else maxAmmo)
      ensures maxAmmo <= 0 ==> currentAmmo == old(currentAmmo)
      ensures maxAmmo > 0 ==> currentAmmo <= maxAmmo
      ensures old(AmmoInRange()) && amount >= 0 ==> AmmoInRange() && currentAmmo >= old(currentAmmo)
    {
      if maxAmmo > 0 {
        currentAmmo := if currentAmmo + amount <= maxAmmo then currentAmmo + amount else maxAmmo;
      }
    }
  }
}
