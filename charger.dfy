/**
 * The charger: on top of the shared enemy behaviour it winds up when the
 * player is close and its cooldown is over, then rushes along the
 * direction locked at the start of the wind-up, hurting whatever
 * damageable thing it runs into and stopping there.
 */
module Charger {
  import opened Common
  import opened DamageInfo
  import opened EnemyStates
  import EB = EnemyBase
  import EnemyManager

  /** The stats the charger sets in `Start`, over the serialized defaults. */
  function ChargerConfig(): (c: EB.EnemyConfig)
    ensures c.moveSpeed == 3.0 && c.attackDamage == 15.0 && c.attackRange == 0.5
    ensures c.attackCooldown == 2.0 && c.detectionRange == 7.0
    ensures c.windUp == EB.DefaultConfig().windUp && c.reactionTime == EB.DefaultConfig().reactionTime
  {
    EB.DefaultConfig().(moveSpeed := 3.0, attackDamage := 15.0, attackRange := 0.5, attackCooldown := 2.0, detectionRange := 7.0)
  }

  /** Contact damage: the charger's damage from the charger, knocked back 5 units away from it, at the contact point. */
  function ChargeHit(damage: real, self: ObjId, awayDir: Vec, contact: Vec): (hit: DamageInfo)
    ensures hit.amount == damage && hit.source == Some(self) && hit.kind == Physical
    ensures hit.knockbackForce == Scale(awayDir, 5.0) && hit.hitPoint == contact
  {
    WithHitPoint(WithKnockback(NewDamageInfo(damage, Some(self), Physical), Scale(awayDir, 5.0)), contact)
  }

  class ChargerEnemy {
    const body: EB.EnemyBase
    const chargeSpeed: real
    const chargeDuration: real
    const chargeWindup: real
    var isCharging: bool
    var isWindingUp: bool
    var chargeTimer: real
    var chargeDirection: Vec
    /** The contact hits delivered while charging, in order. */
    var contactHits: seq<DamageInfo>

    /** The body is consistent, and the charger never winds up and charges at once. */
    ghost predicate Valid()
      reads this, body
    {
      body.Valid() && !(isCharging && isWindingUp)
    }

    /** The charger with its serialized defaults (charge speed 8, 0.5 s charge, 0.3 s wind-up), neither winding up nor charging, over a melee base with the stats `Start` sets. */
    constructor (body: EB.EnemyBase)
      requires body.Valid() && body.cfg == ChargerConfig() && body.style == EB.Melee
      ensures this.body == body && Valid()
      ensures chargeSpeed == 8.0 && chargeDuration == 0.5 && chargeWindup == 0.3
      ensures !isCharging && !isWindingUp && chargeTimer == 0.0 && contactHits == []
    {
      this.body := body;
      chargeSpeed := 8.0;
      chargeDuration := 0.5;
      chargeWindup := 0.3;
      isCharging := false;
      isWindingUp := false;
      chargeTimer := 0.0;
      chargeDirection := Zero;
      contactHits := [];
    }

    /** `StartWindup`: stop, run the wind-up timer, and lock the direction to the target if there is one. */
    method StartWindup()
      requires Valid() && !isCharging
      modifies this`isWindingUp, this`chargeTimer, this`chargeDirection, body`velocity
      ensures Valid()
      ensures isWindingUp && chargeTimer == chargeWindup && body.velocity == Halt
      ensures chargeDirection == if body.target.Some? then body.target.value.dir else old(chargeDirection)
    {
      isWindingUp := true;
      chargeTimer := chargeWindup;
      body.velocity := Halt;
      if body.target.Some? {
        chargeDirection := body.target.value.dir;
      }
    }

    /**
     * `StartCharge`: rush along the locked direction at the charge speed
     * for the charge duration; the cooldown restarts as the charge begins.
     */
    method StartCharge()
      requires Valid() && !isWindingUp
      modifies this`isCharging, this`chargeTimer, body`attackTimer, body`velocity
      ensures Valid()
      ensures isCharging && chargeTimer == chargeDuration
      ensures body.attackTimer == body.cfg.attackCooldown
      ensures body.cfg.attackCooldown > 0.0 ==> !body.CanAttack()
      ensures body.velocity == Heading(chargeDirection, chargeSpeed)
    {
      isCharging := true;
      chargeTimer := chargeDuration;
      body.attackTimer := body.cfg.attackCooldown;
      body.velocity := Heading(chargeDirection, chargeSpeed);
    }

    /** `EndCharge`: no longer charging, and stopped. */
    method EndCharge()
      requires Valid()
      modifies this`isCharging, body`velocity
      ensures Valid()
      ensures !isCharging && body.velocity == Halt
    {
      isCharging := false;
      body.velocity := Halt;
    }

    /** `HandleWindup`: the wind-up counts down and, once over, turns straight into a charge. */
    method HandleWindup(dt: real)
      requires Valid() && isWindingUp
      modifies this`isWindingUp, this`isCharging, this`chargeTimer, body`attackTimer, body`velocity
      ensures Valid()
      ensures old(chargeTimer) - dt > 0.0 ==>
        isWindingUp && chargeTimer == old(chargeTimer) - dt && !isCharging
        && body.attackTimer == old(body.attackTimer) && body.velocity == old(body.velocity)
      ensures old(chargeTimer) - dt <= 0.0 ==>
        !isWindingUp && isCharging && chargeTimer == chargeDuration
        && body.attackTimer == body.cfg.attackCooldown && body.velocity == Heading(chargeDirection, chargeSpeed)
    {
      chargeTimer := chargeTimer - dt;
      if chargeTimer <= 0.0 {
        isWindingUp := false;
        StartCharge();
      }
    }

    /** `HandleCharge`: the charge counts down and ends once its time is up. */
    method HandleCharge(dt: real)
      requires Valid() && isCharging
      modifies this`isCharging, this`chargeTimer, body`velocity
      ensures Valid()
      ensures chargeTimer == old(chargeTimer) - dt
      ensures isCharging <==> chargeTimer > 0.0
      ensures chargeTimer > 0.0 ==> body.velocity == old(body.velocity)
      ensures chargeTimer <= 0.0 ==> body.velocity == Halt
    {
      chargeTimer := chargeTimer - dt;
      if chargeTimer <= 0.0 {
        EndCharge();
      }
    }

    /**
     * The charger's own part of a tick, once the shared behaviour has run:
     * a dead charger does nothing more. A charging one only runs its
     * charge and a winding-up one only its wind-up. Otherwise, with a
     * target: within half a unit beyond the attack range and the cooldown
     * over, it starts a wind-up; else, within the detection range, it
     * moves smoothly toward the target; else nothing changes.
     */
    method OwnTick(dt: real)
      requires Valid()
      modifies this`isWindingUp, this`isCharging, this`chargeTimer, this`chargeDirection, body`attackTimer, body`velocity
      ensures Valid()
      ensures !body.health.IsAlive() ==>
        && isCharging == old(isCharging) && isWindingUp == old(isWindingUp) && chargeTimer == old(chargeTimer)
        && chargeDirection == old(chargeDirection) && body.velocity == old(body.velocity)
        && body.attackTimer == old(body.attackTimer)
      ensures body.health.IsAlive() && old(isCharging) ==>
        && chargeTimer == old(chargeTimer) - dt && (isCharging <==> chargeTimer > 0.0) && !isWindingUp
        && body.velocity == (if isCharging then old(body.velocity) else Halt)
        && body.attackTimer == old(body.attackTimer) && chargeDirection == old(chargeDirection)
      ensures body.health.IsAlive() && !old(isCharging) && old(isWindingUp) ==>
        && chargeTimer == (if old(chargeTimer) - dt <= 0.0 then chargeDuration else old(chargeTimer) - dt)
        && (isCharging <==> old(chargeTimer) - dt <= 0.0) && (isWindingUp <==> !isCharging)
        && body.velocity == (if isCharging then Heading(chargeDirection, chargeSpeed) else old(body.velocity))
        && body.attackTimer == (if isCharging then body.cfg.attackCooldown else old(body.attackTimer))
        && chargeDirection == old(chargeDirection)
      ensures body.health.IsAlive() && !old(isCharging) && !old(isWindingUp) ==>
        && !isCharging
        && (isWindingUp <==> body.target.Some? && body.target.value.dist <= body.cfg.attackRange + 0.5 && body.CanAttack())
        && chargeTimer == (if isWindingUp then chargeWindup else old(chargeTimer))
        && body.attackTimer == old(body.attackTimer)
        && body.velocity == (if isWindingUp then Halt
                             else if body.target.Some? && body.target.value.dist <= body.cfg.detectionRange
                             then SmoothToward(body.target.value.pos)
                             else old(body.velocity))
        && chargeDirection == (if isWindingUp then body.target.value.dir else old(chargeDirection))
    {
      if !body.health.IsAlive() {
        return;
      }
      if isCharging {
        HandleCharge(dt);
        return;
      }
      if isWindingUp {
        HandleWindup(dt);
        return;
      }
      if body.target.Some? {
        var distance := body.DistanceToTarget();
        if distance <= body.cfg.attackRange + 0.5 && body.CanAttack() {
          StartWindup();
        } else if distance <= body.cfg.detectionRange {
          body.velocity := SmoothToward(body.target.value.pos);
        }
      }
    }

    /**
     * `Update`. The shared behaviour runs first (`attackCalled` and
     * `attackPerformed` report its state's call of the base melee attack,
     * `stepVelocity` and `stepTimer` are the velocity and the cooldown it
     * left). Then the charger takes its own part of the tick (`OwnTick`),
     * which replaces the velocity only where it says so and restarts the
     * cooldown when a charge begins.
     */
    method Update(dt: real, newPos: Vec, sensed: Option<EB.TargetView>, fleeDir: Vec, dice: Dice,
                  mgr: EnemyManager.EnemyManager?)
      returns (attackCalled: bool, attackPerformed: bool, ghost stepVelocity: Motion, ghost stepTimer: real)
      requires Valid() && ValidDice(dice) && (mgr != null ==> mgr.Valid())
      modifies this, body, EB.Managers(mgr)`attacking
      ensures Valid() && (mgr != null ==> mgr.Valid())
      ensures body.pos == newPos && body.target == sensed && contactHits == old(contactHits)
      ensures body.AfterTick(old(body.Snap(mgr)).(pos := newPos, target := sensed), body.Snap(mgr), stepVelocity,
                             stepTimer, dt, fleeDir, dice, mgr)
      ensures stepTimer ==
        if attackPerformed then body.cfg.attackCooldown
        else if old(body.attackTimer) > 0.0 then old(body.attackTimer) - dt else old(body.attackTimer)
      ensures attackCalled <==>
        && old(body.state).Some? && old(body.state).value.Attack? && sensed.Some?
        && old(body.state).value.phase == WindUp && old(body.state).value.timer - dt <= 0.0
      ensures body.projectilesFired == old(body.projectilesFired) + (if attackPerformed && body.style.Ranged? then 1 else 0)
      ensures !(isWindingUp && !old(isWindingUp)) ==> chargeDirection == old(chargeDirection)
      ensures !attackCalled ==> !attackPerformed && body.dealt == old(body.dealt)
      ensures attackCalled ==>
        body.dealt == old(body.dealt) + (if attackPerformed && body.style.Melee? && body.InMeleeReach() then [body.MeleeHit()] else [])
      ensures body.attackTimer ==
        if body.health.IsAlive() && !old(isCharging) && old(isWindingUp) && old(chargeTimer) - dt <= 0.0
        then body.cfg.attackCooldown else stepTimer
      ensures !body.health.IsAlive() ==>
        && isCharging == old(isCharging) && isWindingUp == old(isWindingUp) && chargeTimer == old(chargeTimer)
        && chargeDirection == old(chargeDirection) && body.velocity == stepVelocity
      ensures body.health.IsAlive() && old(isCharging) ==>
        && chargeTimer == old(chargeTimer) - dt && (isCharging <==> chargeTimer > 0.0) && !isWindingUp
        && body.velocity == (if isCharging then stepVelocity else Halt)
      ensures body.health.IsAlive() && !old(isCharging) && old(isWindingUp) ==>
        && chargeTimer == (if old(chargeTimer) - dt <= 0.0 then chargeDuration else old(chargeTimer) - dt)
        && (isCharging <==> old(chargeTimer) - dt <= 0.0) && (isWindingUp <==> !isCharging)
        && body.velocity == (if isCharging then Heading(chargeDirection, chargeSpeed) else stepVelocity)
      ensures body.health.IsAlive() && !old(isCharging) && !old(isWindingUp) ==>
        !isCharging && chargeTimer == (if isWindingUp then chargeWindup else old(chargeTimer))
      ensures body.health.IsAlive() && !old(isCharging) && !old(isWindingUp) ==>
        (isWindingUp <==> sensed.Some? && sensed.value.dist <= body.cfg.attackRange + 0.5 && body.CanAttack())
      ensures isWindingUp && !old(isWindingUp) ==>
        body.velocity == Halt && chargeDirection == sensed.value.dir
      ensures body.health.IsAlive() && !old(isCharging) && !old(isWindingUp) && !isWindingUp ==>
        body.velocity == if sensed.Some? && sensed.value.dist <= body.cfg.detectionRange
                         then SmoothToward(sensed.value.pos) else stepVelocity
    {
      attackCalled, attackPerformed := body.Update(dt, newPos, sensed, fleeDir, dice, mgr);
      stepVelocity, stepTimer := body.velocity, body.attackTimer;
      ghost var ticked := body.Snap(mgr);
      OwnTick(dt);
      assert body.Snap(mgr).(velocity := stepVelocity) == ticked;
    }

    /**
     * `OnCollisionEnter2D`: while charging, running into something
     * damageable hits it once with the contact damage and ends the charge;
     * any other contact changes nothing.
     */
    method OnCollision(damageable: bool, awayDir: Vec, contact: Vec)
      requires Valid()
      modifies this`contactHits, this`isCharging, body`velocity
      ensures Valid()
      ensures old(isCharging) && damageable ==>
        contactHits == old(contactHits) + [ChargeHit(body.cfg.attackDamage, body.id, awayDir, contact)]
        && !isCharging && body.velocity == Halt
      ensures !(old(isCharging) && damageable) ==>
        contactHits == old(contactHits) && isCharging == old(isCharging) && body.velocity == old(body.velocity)
    {
      if isCharging && damageable {
        contactHits := contactHits + [ChargeHit(body.cfg.attackDamage, body.id, awayDir, contact)];
        EndCharge();
      }
    }
  }
}
