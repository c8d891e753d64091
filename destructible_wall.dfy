/**
 * A cracked wall that loses the full amount of every hit and asks to be
 * destroyed once its health is gone.
 */
module DestructibleWall {
  import opened DamageInfo

  class DestructibleWall {
    const maxHealth: real
    var currentHealth: real
    /** How many times destruction of the wall has been requested. */
    var destroyRequests: nat

    predicate IsAlive() reads this { currentHealth > 0.0 }

    /** `Start`: the wall begins at full health. */
    constructor (maxHealth: real)
      ensures this.maxHealth == maxHealth && currentHealth == maxHealth && destroyRequests == 0
    {
      this.maxHealth := maxHealth;
      currentHealth := maxHealth;
      destroyRequests := 0;
    }

    /**
     * `TakeDamage`: no clamp, no invincibility and no liveness guard; every
     * hit that leaves the wall at or below zero requests destruction, so a
     * wall hit again after breaking requests it again.
     */
    method TakeDamage(info: DamageInfo)
      modifies this
      ensures currentHealth == old(currentHealth) - info.amount
      ensures destroyRequests == old(destroyRequests) + (if IsAlive() then 0 else 1)
    {
      currentHealth := currentHealth - info.amount;
      if currentHealth <= 0.0 {
        destroyRequests := destroyRequests + 1;
      }
    }
  }
}
