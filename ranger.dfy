/**
 * The ranger: a ranged enemy that, on top of the shared behaviour, keeps
 * its distance from the player. Too close it backs away, too far it
 * closes in, and in between it stands still to shoot; its `Attack` fires
 * a projectile (the `Ranged` attack style of the shared body).
 */
module Ranger {
  import opened Common
  import opened EnemyStates
  import EB = EnemyBase
  import EnemyManager

  /** The stats the ranger sets in `Start`, over the serialized defaults. */
  function RangerConfig(): (c: EB.EnemyConfig)
    ensures c.moveSpeed == 2.0 && c.attackDamage == 8.0 && c.attackRange == 6.0
    ensures c.attackCooldown == 1.5 && c.detectionRange == 8.0
  {
    EB.DefaultConfig().(moveSpeed := 2.0, attackDamage := 8.0, attackRange := 6.0, attackCooldown := 1.5, detectionRange := 8.0)
  }

  /** What the ranger does about the distance to its target. */
  datatype Spacing = Retreat | Approach | HoldAndShoot

  /**
   * The ranger's spacing rule: back away nearer than the retreat distance,
   * close in more than one unit beyond the preferred distance, and hold
   * anywhere in between (both ends included).
   */
  function SpacingFor(dist: real, retreatDistance: real, preferredDistance: real): (s: Spacing)
    ensures s == Retreat <==> dist < retreatDistance
    ensures s == Approach <==> retreatDistance <= dist && dist > preferredDistance + 1.0
    ensures s == HoldAndShoot <==> retreatDistance <= dist <= preferredDistance + 1.0
  {
    if dist < retreatDistance then Retreat
    else if dist > preferredDistance + 1.0 then Approach
    else HoldAndShoot
  }

  /**
   * With the ranger's own settings (retreat at 3, prefer 5, attack range
   * 6) it holds still exactly when the target is between 3 units and its
   * attack range, so a holding ranger always has the target in range and
   * an approaching one never does.
   */
  lemma HoldingRangerIsInRange(dist: real)
    ensures SpacingFor(dist, 3.0, 5.0) == HoldAndShoot <==> 3.0 <= dist <= RangerConfig().attackRange
    ensures SpacingFor(dist, 3.0, 5.0) == Approach <==> dist > RangerConfig().attackRange
  {
  }

  class RangerEnemy {
    const body: EB.EnemyBase
    const preferredDistance: real
    const retreatDistance: real

    /** The body is consistent and its attack is the projectile shot. */
    ghost predicate Valid()
      reads this, body
    {
      body.Valid() && body.style.Ranged?
    }

    /** The ranger with its serialized spacing (prefers 5 units, retreats inside 3), over a ranged base with the stats `Start` sets. */
    constructor (body: EB.EnemyBase)
      requires body.Valid() && body.cfg == RangerConfig() && body.style.Ranged?
      ensures this.body == body && Valid()
      ensures preferredDistance == 5.0 && retreatDistance == 3.0
    {
      this.body := body;
      preferredDistance := 5.0;
      retreatDistance := 3.0;
    }

    /** The spacing part of `Update`: steer away, move smoothly toward the target, or stop, by the spacing rule. */
    method KeepDistance()
      requires body.target.Some?
      modifies body`velocity
      ensures body.velocity == match SpacingFor(body.target.value.dist, retreatDistance, preferredDistance)
                               case Retreat => Steer(Scale(body.target.value.dir, -1.0))
                               case Approach => SmoothToward(body.target.value.pos)
                               case HoldAndShoot => Halt
    {
      var distance := body.DistanceToTarget();
      if distance < retreatDistance {
        body.velocity := Steer(Scale(body.target.value.dir, -1.0));
      } else if distance > preferredDistance + 1.0 {
        body.velocity := SmoothToward(body.target.value.pos);
      } else {
        body.velocity := Halt;
      }
    }

    /**
     * `Update`. The shared behaviour runs first (an attack there fires a
     * projectile when the prefab is assigned and otherwise leaves the
     * cooldown alone). A dead ranger or one without a target does nothing
     * more; otherwise it steers away from the target, moves smoothly
     * toward it, or stops, by the spacing rule. `stepVelocity` is the
     * velocity the shared tick left.
     */
    method Update(dt: real, newPos: Vec, sensed: Option<EB.TargetView>, fleeDir: Vec, dice: Dice,
                  mgr: EnemyManager.EnemyManager?)
      returns (attackCalled: bool, attackPerformed: bool, ghost stepVelocity: Motion)
      requires Valid() && ValidDice(dice) && (mgr != null ==> mgr.Valid())
      modifies body, EB.Managers(mgr)`attacking
      ensures Valid() && (mgr != null ==> mgr.Valid())
      ensures body.pos == newPos && body.target == sensed
      ensures body.AfterTick(old(body.Snap(mgr)).(pos := newPos, target := sensed), body.Snap(mgr), stepVelocity,
                           body.attackTimer, dt, fleeDir, dice, mgr)
      ensures body.attackTimer ==
        if attackPerformed then body.cfg.attackCooldown
        else if old(body.attackTimer) > 0.0 then old(body.attackTimer) - dt else old(body.attackTimer)
      ensures !body.health.IsAlive() || sensed.None? ==> body.velocity == stepVelocity
      ensures attackCalled <==>
        && old(body.state).Some? && old(body.state).value.Attack? && sensed.Some?
        && old(body.state).value.phase == WindUp && old(body.state).value.timer - dt <= 0.0
      ensures !attackCalled ==> !attackPerformed && body.dealt == old(body.dealt) && body.projectilesFired == old(body.projectilesFired)
      ensures attackCalled ==>
        && (attackPerformed <==> body.style.hasPrefab && sensed.Some?
                                 && (if old(body.attackTimer) > 0.0 then old(body.attackTimer) - dt else old(body.attackTimer)) <= 0.0)
        && body.projectilesFired == old(body.projectilesFired) + (if attackPerformed then 1 else 0)
        && body.dealt == old(body.dealt)
      ensures body.health.IsAlive() && sensed.Some? ==>
        body.velocity == match SpacingFor(sensed.value.dist, retreatDistance, preferredDistance)
                         case Retreat => Steer(Scale(sensed.value.dir, -1.0))
                         case Approach => SmoothToward(sensed.value.pos)
                         case HoldAndShoot => Halt
    {
      attackCalled, attackPerformed := body.Update(dt, newPos, sensed, fleeDir, dice, mgr);
      stepVelocity := body.velocity;
      ghost var stepped := body.Snap(mgr);
      if body.health.IsAlive() && body.target.Some? {
        KeepDistance();
      }
      assert body.Snap(mgr).(velocity := stepVelocity) == stepped;
    }
  }
}
