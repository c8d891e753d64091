/**
 * The goblin: a fast melee enemy that can dash at the player along a
 * locked direction at boosted speed, with its own charge cooldown, and
 * that cuts a dash short when it strikes.
 */
module Goblin {
  import opened Common
  import opened EnemyStates
  import EB = EnemyBase
  import EnemyManager

  /** The stats the goblin sets in `Awake`, over the serialized defaults. */
  function GoblinConfig(): (c: EB.EnemyConfig)
    ensures c.moveSpeed == 4.0 && c.attackDamage == 8.0 && c.attackRange == 1.2
    ensures c.attackCooldown == 0.8 && c.detectionRange == 6.0 && c.reactionTime == 0.3
  {
    EB.DefaultConfig().(moveSpeed := 4.0, attackDamage := 8.0, attackRange := 1.2, attackCooldown := 0.8,
                        detectionRange := 6.0, reactionTime := 0.3)
  }

  class GoblinEnemy {
    const body: EB.EnemyBase
    const chargeSpeedMultiplier: real
    const chargeDistance: real
    const chargeCooldown: real
    /** The chance of charging when a charge is possible. */
    const aggressiveness: real
    var chargeTimer: real
    var isCharging: bool
    var chargeDirection: Vec

    /** The body is consistent and strikes with the base melee attack. */
    ghost predicate Valid()
      reads this, body
    {
      body.Valid() && body.style == EB.Melee
    }

    /** The goblin with its serialized charge settings (x1.5 speed, 3 units, 3 s cooldown, 0.7 aggressiveness), ready to charge, over a melee base with the stats `Awake` sets. */
    constructor (body: EB.EnemyBase)
      requires body.Valid() && body.cfg == GoblinConfig() && body.style == EB.Melee
      ensures this.body == body && Valid()
      ensures chargeSpeedMultiplier == 1.5 && chargeDistance == 3.0 && chargeCooldown == 3.0 && aggressiveness == 0.7
      ensures chargeTimer == 0.0 && !isCharging && CanCharge()
    {
      this.body := body;
      chargeSpeedMultiplier := 1.5;
      chargeDistance := 3.0;
      chargeCooldown := 3.0;
      aggressiveness := 0.7;
      chargeTimer := 0.0;
      isCharging := false;
      chargeDirection := Zero;
    }

    /** `CanCharge`: the charge cooldown is over and no charge is under way. */
    predicate CanCharge()
      reads this
    {
      chargeTimer <= 0.0 && !isCharging
    }

    /**
     * `ShouldCharge`, given the uniform draw `roll` it compares against the
     * aggressiveness: only when a charge could start, and only for a target
     * beyond the attack range but within the charge distance.
     */
    function ShouldCharge(roll: real): (r: bool)
      reads this, body
      ensures r <==> CanCharge() && body.target.Some? && body.cfg.attackRange < body.target.value.dist <= chargeDistance
                     && roll < aggressiveness
      ensures r ==> !body.IsTargetInAttackRange()
    {
      if !CanCharge() || body.target.None? then false
      else
        var distance := body.DistanceToTarget();
        if distance <= chargeDistance && distance > body.cfg.attackRange then roll < aggressiveness
        else false
    }

    /**
     * `StartCharge`: without a target, or while a charge is running or
     * cooling down, nothing happens. Otherwise the goblin locks the
     * direction to the target and the charge cooldown restarts.
     */
    method StartCharge()
      requires Valid()
      modifies this`isCharging, this`chargeDirection, this`chargeTimer
      ensures Valid()
      ensures old(CanCharge()) && body.target.Some? ==>
        isCharging && chargeDirection == body.target.value.dir && chargeTimer == chargeCooldown
      ensures !(old(CanCharge()) && body.target.Some?) ==>
        isCharging == old(isCharging) && chargeDirection == old(chargeDirection) && chargeTimer == old(chargeTimer)
    {
      if !CanCharge() || body.target.None? {
        return;
      }
      isCharging := true;
      chargeDirection := body.target.value.dir;
      chargeTimer := chargeCooldown;
    }

    /** `ExecuteCharge`: while charging, move along the locked direction at the boosted speed. */
    method ExecuteCharge()
      requires Valid()
      modifies body`velocity
      ensures Valid()
      ensures body.velocity == if isCharging then Heading(chargeDirection, body.cfg.moveSpeed * chargeSpeedMultiplier) else old(body.velocity)
    {
      if !isCharging {
        return;
      }
      body.velocity := Heading(chargeDirection, body.cfg.moveSpeed * chargeSpeedMultiplier);
    }

    /** `EndCharge`: no longer charging, and stopped. */
    method EndCharge()
      requires Valid()
      modifies this`isCharging, body`velocity
      ensures Valid()
      ensures !isCharging && body.velocity == Halt
    {
      isCharging := false;
      body.velocity := Halt;
    }

    /**
     * The goblin's own part of a tick, once the shared behaviour has run:
     * a called attack ends a running charge first, and the charge cooldown
     * runs down, only while positive.
     */
    method AfterShared(attackCalled: bool, dt: real)
      requires Valid()
      modifies this`isCharging, this`chargeTimer, body`velocity
      ensures Valid()
      ensures chargeTimer == if old(chargeTimer) > 0.0 then old(chargeTimer) - dt else old(chargeTimer)
      ensures isCharging == (old(isCharging) && !attackCalled)
      ensures body.velocity == if attackCalled && old(isCharging) then Halt else old(body.velocity)
    {
      if attackCalled && isCharging {
        EndCharge();
      }
      if chargeTimer > 0.0 {
        chargeTimer := chargeTimer - dt;
      }
    }

    /**
     * `Update`. The shared behaviour runs, with the goblin's `Attack`
     * override: when the attack state calls it, a running charge ends
     * (and the goblin stops) before the base melee attack. Afterwards the
     * charge cooldown runs down, only while positive. `stepVelocity` is
     * the velocity the shared tick left.
     */
    method Update(dt: real, newPos: Vec, sensed: Option<EB.TargetView>, fleeDir: Vec, dice: Dice,
                  mgr: EnemyManager.EnemyManager?)
      returns (attackCalled: bool, attackPerformed: bool, ghost stepVelocity: Motion)
      requires Valid() && ValidDice(dice) && (mgr != null ==> mgr.Valid())
      modifies this, body, EB.Managers(mgr)`attacking
      ensures Valid() && (mgr != null ==> mgr.Valid())
      ensures body.pos == newPos && body.target == sensed
      ensures body.AfterTick(old(body.Snap(mgr)).(pos := newPos, target := sensed), body.Snap(mgr), stepVelocity,
                             body.attackTimer, dt, fleeDir, dice, mgr)
      ensures body.velocity == if attackCalled && old(isCharging) then Halt else stepVelocity
      ensures body.attackTimer ==
        if attackPerformed then body.cfg.attackCooldown
        else if old(body.attackTimer) > 0.0 then old(body.attackTimer) - dt else old(body.attackTimer)
      ensures chargeTimer == if old(chargeTimer) > 0.0 then old(chargeTimer) - dt else old(chargeTimer)
      ensures isCharging == (old(isCharging) && !attackCalled) && chargeDirection == old(chargeDirection)
      ensures attackCalled <==>
        && old(body.state).Some? && old(body.state).value.Attack? && sensed.Some?
        && old(body.state).value.phase == WindUp && old(body.state).value.timer - dt <= 0.0
      ensures body.projectilesFired == old(body.projectilesFired)
      ensures !attackCalled ==> !attackPerformed && body.dealt == old(body.dealt)
      ensures attackCalled ==>
        body.dealt == old(body.dealt) + (if attackPerformed && body.InMeleeReach() then [body.MeleeHit()] else [])
    {
      attackCalled, attackPerformed := body.Update(dt, newPos, sensed, fleeDir, dice, mgr);
      stepVelocity := body.velocity;
      ghost var ticked := body.Snap(mgr);
      AfterShared(attackCalled, dt);
      assert body.Snap(mgr).(velocity := stepVelocity) == ticked;
    }
  }
}
