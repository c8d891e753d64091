/**
 * The tower: a stationary turret that skips the shared state machine.
 * Each frame it runs its cooldown down and re-senses the player; once the
 * cooldown is over and the player is in range it fires a burst of shots a
 * fixed delay apart, the first on the next frame.
 */
module Tower {
  import opened Common
  import EB = EnemyBase

  /** The stats the tower sets in `Start`, over the serialized defaults. */
  function TowerConfig(): (c: EB.EnemyConfig)
    ensures c.moveSpeed == 0.0 && c.attackDamage == 6.0 && c.attackRange == 10.0
    ensures c.attackCooldown == 2.0 && c.detectionRange == 10.0
  {
    EB.DefaultConfig().(moveSpeed := 0.0, attackDamage := 6.0, attackRange := 10.0, attackCooldown := 2.0, detectionRange := 10.0)
  }

  /**
   * How many more shots a burst fires once `fired` shots are out: it fires
   * one, and stops once the count reaches the burst size. Because the check
   * comes after the shot, a burst always fires at least once.
   */
  function ShotsLeft(fired: nat, burstCount: int): (r: nat)
    ensures r >= 1
    decreases burstCount - fired
  {
    if fired + 1 >= burstCount then 1 else 1 + ShotsLeft(fired + 1, burstCount)
  }

  /** The number of shots in a whole burst: the burst count, but at least one. */
  function BurstSize(burstCount: int): (n: nat)
    ensures n >= 1
    ensures burstCount >= 1 ==> n == burstCount
  {
    if burstCount >= 1 then burstCount else 1
  }

  /** From `fired` shots on, the burst fires up to the burst count, and one shot when it is already reached. */
  lemma {:induction false} ShotsLeftCount(fired: nat, burstCount: int)
    ensures ShotsLeft(fired, burstCount) == if fired + 1 >= burstCount then 1 else burstCount - fired
    decreases burstCount - fired
  {
    if fired + 1 < burstCount {
      ShotsLeftCount(fired + 1, burstCount);
    }
  }

  /** A whole burst fires `max(1, burstCount)` shots. */
  lemma BurstShots(burstCount: int)
    ensures ShotsLeft(0, burstCount) == BurstSize(burstCount)
  {
    ShotsLeftCount(0, burstCount);
  }

  class TowerEnemy {
    const body: EB.EnemyBase
    /** Whether a projectile prefab is assigned. */
    const hasPrefab: bool
    const burstCount: int
    const burstDelay: real
    var burstTimer: real
    var currentBurst: int
    var isBursting: bool
    /** How many projectiles the tower has spawned. */
    var projectilesSpawned: nat
    /** How many times the current (or last) burst has tried to fire, prefab or not. */
    ghost var attemptsThisBurst: nat

    /**
     * During a burst the shot counter counts the attempts so far, and the
     * attempts still to come make up a whole burst; between bursts the last
     * burst is either complete or there has been none.
     */
    ghost predicate Valid()
      reads this, body
    {
      && body.Valid()
      && (isBursting ==>
            && currentBurst == attemptsThisBurst
            && attemptsThisBurst + ShotsLeft(attemptsThisBurst, burstCount) == ShotsLeft(0, burstCount))
      && (!isBursting ==> attemptsThisBurst == 0 || attemptsThisBurst == ShotsLeft(0, burstCount))
    }

    /** The tower with its serialized burst settings (3 shots, 0.15 s apart), not bursting, over a base with the stats `Start` sets and no attack of its own. */
    constructor (body: EB.EnemyBase, hasPrefab: bool)
      requires body.Valid() && body.cfg == TowerConfig() && body.style == EB.NoAttack
      ensures this.body == body && this.hasPrefab == hasPrefab && Valid()
      ensures burstCount == 3 && burstDelay == 0.15
      ensures !isBursting && currentBurst == 0 && burstTimer == 0.0 && projectilesSpawned == 0
    {
      this.body := body;
      this.hasPrefab := hasPrefab;
      burstCount := 3;
      burstDelay := 0.15;
      burstTimer := 0.0;
      currentBurst := 0;
      isBursting := false;
      projectilesSpawned := 0;
      attemptsThisBurst := 0;
    }

    /** `StartBurst`: a new burst with no shot fired and the first one due; the cooldown restarts now. */
    method StartBurst()
      requires Valid() && !isBursting
      modifies this`isBursting, this`currentBurst, this`burstTimer, this`attemptsThisBurst, body`attackTimer
      ensures Valid()
      ensures isBursting && currentBurst == 0 && burstTimer == 0.0 && body.attackTimer == body.cfg.attackCooldown
    {
      isBursting := true;
      currentBurst := 0;
      burstTimer := 0.0;
      body.attackTimer := body.cfg.attackCooldown;
      attemptsThisBurst := 0;
    }

    /** `FireProjectile`: one projectile, or none at all without a prefab. */
    method FireProjectile()
      modifies this`projectilesSpawned
      ensures projectilesSpawned == old(projectilesSpawned) + (if hasPrefab then 1 else 0)
    {
      if !hasPrefab {
        return;
      }
      projectilesSpawned := projectilesSpawned + 1;
    }

    /**
     * `HandleBurst`: the shot timer runs down; when it is due a shot is
     * attempted (and counted even without a prefab), the next one is
     * scheduled a burst delay later, and the burst ends once the count is
     * reached. A burst that ends has made exactly `max(1, burstCount)`
     * attempts.
     */
    method HandleBurst(dt: real)
      requires Valid() && isBursting
      modifies this`burstTimer, this`currentBurst, this`isBursting, this`projectilesSpawned, this`attemptsThisBurst
      ensures Valid()
      ensures var due := old(burstTimer) - dt <= 0.0;
        && burstTimer == (if due then burstDelay else old(burstTimer) - dt)
        && currentBurst == old(currentBurst) + (if due then 1 else 0)
        && projectilesSpawned == old(projectilesSpawned) + (if due && hasPrefab then 1 else 0)
        && (isBursting <==> !(due && currentBurst >= burstCount))
      ensures !isBursting ==> attemptsThisBurst == BurstSize(burstCount)
    {
      burstTimer := burstTimer - dt;
      if burstTimer <= 0.0 {
        FireProjectile();
        currentBurst := currentBurst + 1;
        attemptsThisBurst := attemptsThisBurst + 1;
        burstTimer := burstDelay;
        if currentBurst >= burstCount {
          isBursting := false;
        }
      }
      BurstShots(burstCount);
    }

    /**
     * `Update`. The cooldown runs down and the player is re-sensed; a dead
     * tower or one without a target does nothing more. A bursting tower
     * only continues its burst; otherwise it starts one exactly when the
     * cooldown is over and the target is within the attack range.
     */
    method Update(dt: real, sensed: Option<EB.TargetView>)
      requires Valid()
      modifies this, body`attackTimer, body`target
      ensures Valid()
      ensures body.target == sensed
      ensures var ticked := if old(body.attackTimer) > 0.0 then old(body.attackTimer) - dt else old(body.attackTimer);
        body.attackTimer == (if isBursting && !old(isBursting) then body.cfg.attackCooldown else ticked)
      ensures !body.health.IsAlive() || sensed.None? ==>
        isBursting == old(isBursting) && currentBurst == old(currentBurst) && burstTimer == old(burstTimer)
        && projectilesSpawned == old(projectilesSpawned)
      ensures body.health.IsAlive() && sensed.Some? && old(isBursting) ==>
        var due := old(burstTimer) - dt <= 0.0;
        && burstTimer == (if due then burstDelay else old(burstTimer) - dt)
        && currentBurst == old(currentBurst) + (if due then 1 else 0)
        && projectilesSpawned == old(projectilesSpawned) + (if due && hasPrefab then 1 else 0)
        && (isBursting <==> !(due && currentBurst >= burstCount))
      ensures body.health.IsAlive() && sensed.Some? && !old(isBursting) ==>
        var ticked := if old(body.attackTimer) > 0.0 then old(body.attackTimer) - dt else old(body.attackTimer);
        && (isBursting <==> ticked <= 0.0 && sensed.value.dist <= body.cfg.attackRange)
        && projectilesSpawned == old(projectilesSpawned)
        && (isBursting ==> currentBurst == 0 && burstTimer == 0.0)
        && (!isBursting ==> currentBurst == old(currentBurst) && burstTimer == old(burstTimer))
    {
      body.TickCooldown(dt);
      body.DetectPlayer(sensed);
      if !body.health.IsAlive() {
        return;
      }
      if body.target.None? {
        return;
      }
      if isBursting {
        HandleBurst(dt);
        return;
      }
      if body.CanAttack() && body.IsTargetInAttackRange() {
        StartBurst();
      }
    }
  }
}
