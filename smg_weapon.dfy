/**
 * The SMG: each attack starts a burst of shots a short delay apart, each
 * shot kicks the aim off by a recoil that decays over time, and bursts
 * use no ammunition.
 */
module SMG {
  import opened Common
  import WB = WeaponBase
  import RW = RangedWeapon

  class SMGWeapon {
    const gun: RW.RangedWeapon
    const attackSpeed: real
    const burstCount: int
    const burstDelay: real
    const recoilPerShot: real
    var currentBurst: int
    var burstTimer: real
    var currentRecoil: real
    /** How many shots the current (or last) burst has fired, prefab or not. */
    ghost var shotsThisBurst: nat

    /**
     * The recoil is never negative; during a burst the shots fired and the
     * shots left make up the burst count, and between bursts the last one
     * is complete or there has been none.
     */
    ghost predicate Valid()
      reads this
    {
      && attackSpeed > 0.0 && recoilPerShot >= 0.0 && burstCount >= 1
      && currentRecoil >= 0.0
      && (currentBurst > 0 ==> shotsThisBurst + currentBurst == burstCount)
      && (currentBurst <= 0 ==> currentBurst == 0 && (shotsThisBurst == 0 || shotsThisBurst == burstCount))
    }

    /** The SMG with the stats it sets in `Awake` (damage 3, cooldown 0.4, speed 1.2) and its serialized burst settings. */
    constructor (gun: RW.RangedWeapon)
      requires gun.weapon.damage == 3.0 && gun.weapon.attackCooldown == 0.4
      ensures this.gun == gun && Valid()
      ensures attackSpeed == 1.2 && burstCount == 3 && burstDelay == 0.08 && recoilPerShot == 0.5
      ensures currentBurst == 0 && burstTimer == 0.0 && currentRecoil == 0.0
    {
      this.gun := gun;
      attackSpeed := 1.2;
      burstCount := 3;
      burstDelay := 0.08;
      recoilPerShot := 0.5;
      currentBurst := 0;
      burstTimer := 0.0;
      currentRecoil := 0.0;
      shotsThisBurst := 0;
    }

    /**
     * `Attack`: refused while the cooldown runs or without ammunition.
     * Otherwise a whole burst is queued with its first shot due at once,
     * and the cooldown becomes the attack cooldown divided by the attack
     * speed; no round is used.
     */
    method Attack() returns (success: bool)
      requires Valid()
      modifies this`currentBurst, this`burstTimer, this`shotsThisBurst, gun.weapon`cooldownTimer
      ensures Valid()
      ensures success <==> old(gun.weapon.CanAttack()) && old(gun.HasAmmo())
      ensures success ==>
        && currentBurst == burstCount && burstTimer == 0.0 && shotsThisBurst == 0
        && gun.weapon.cooldownTimer == gun.weapon.attackCooldown / attackSpeed
      ensures !success ==>
        && currentBurst == old(currentBurst) && burstTimer == old(burstTimer)
        && gun.weapon.cooldownTimer == old(gun.weapon.cooldownTimer)
      ensures gun.currentAmmo == old(gun.currentAmmo)
    {
      if !gun.weapon.CanAttack() || !gun.HasAmmo() {
        return false;
      }
      currentBurst := burstCount;
      burstTimer := 0.0;
      shotsThisBurst := 0;
      gun.weapon.cooldownTimer := gun.weapon.attackCooldown / attackSpeed;
      return true;
    }

    /** `FireBurstShot`: without a prefab nothing happens; otherwise one projectile and one recoil step, and no round used. */
    method FireBurstShot()
      modifies gun`projectilesSpawned, this`currentRecoil
      ensures gun.projectilesSpawned == old(gun.projectilesSpawned) + (if gun.hasPrefab then 1 else 0)
      ensures currentRecoil == old(currentRecoil) + (if gun.hasPrefab then recoilPerShot else 0.0)
    {
      if !gun.hasPrefab {
        return;
      }
      gun.projectilesSpawned := gun.projectilesSpawned + 1;
      currentRecoil := currentRecoil + recoilPerShot;
    }

    /**
     * `Update`: the cooldown runs down; during a burst the shot timer runs
     * down and, when due, one shot fires, the burst shrinks by one and the
     * next shot is scheduled. The recoil (after any shot) decays by 5 per
     * second and stops at zero. A burst that runs out has fired exactly
     * `burstCount` shots; no round is ever used.
     */
    method Update(dt: real)
      requires Valid()
      modifies gun.weapon`cooldownTimer, gun`projectilesSpawned, this`currentBurst, this`burstTimer, this`currentRecoil, this`shotsThisBurst
      ensures Valid()
      ensures gun.weapon.cooldownTimer == WB.Tick(old(gun.weapon.cooldownTimer), dt)
      ensures var fired := old(currentBurst) > 0 && old(burstTimer) - dt <= 0.0;
        && currentBurst == old(currentBurst) - (if fired then 1 else 0)
        && burstTimer == (if fired then burstDelay else if old(currentBurst) > 0 then old(burstTimer) - dt else old(burstTimer))
        && gun.projectilesSpawned == old(gun.projectilesSpawned) + (if fired && gun.hasPrefab then 1 else 0)
        && currentRecoil == Max(0.0, old(currentRecoil) + (if fired && gun.hasPrefab then recoilPerShot else 0.0) - dt * 5.0)
      ensures old(currentBurst) > 0 && currentBurst == 0 ==> shotsThisBurst == burstCount
      ensures gun.currentAmmo == old(gun.currentAmmo)
    {
      gun.weapon.Update(dt);
      if currentBurst > 0 {
        burstTimer := burstTimer - dt;
        if burstTimer <= 0.0 {
          FireBurstShot();
          shotsThisBurst := shotsThisBurst + 1;
          currentBurst := currentBurst - 1;
          burstTimer := burstDelay;
        }
      }
      currentRecoil := Max(0.0, currentRecoil - dt * 5.0);
    }
  }
}
