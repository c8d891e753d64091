/**
 * The skeleton archer: its `Attack` override sets up a burst of shots and
 * then runs the base attack, and each frame the burst fires its next
 * shot when due. It can also say where it would rather stand.
 */
module Skeleton {
  import opened Common
  import opened EnemyStates
  import EB = EnemyBase
  import EnemyManager

  /** The stats the skeleton sets in `Awake`, over the serialized defaults. */
  function SkeletonConfig(): (c: EB.EnemyConfig)
    ensures c.moveSpeed == 2.5 && c.attackDamage == 6.0 && c.attackRange == 7.0
    ensures c.attackCooldown == 1.5 && c.detectionRange == 8.0 && c.reactionTime == 0.5
  {
    EB.DefaultConfig().(moveSpeed := 2.5, attackDamage := 6.0, attackRange := 7.0, attackCooldown := 1.5,
                        detectionRange := 8.0, reactionTime := 0.5)
  }

  /** The unit vector a quarter turn anticlockwise from `d`. */
  function Perpendicular(d: Vec): Vec { Vec(-d.y, d.x) }

  /** The dot product. */
  function Dot(a: Vec, b: Vec): real { a.x * b.x + a.y * b.y }

  /**
   * `GetPreferredPosition`, for a skeleton at `pos`: with no target it
   * stays where it is; nearer than the preferred distance it steps back,
   * more than one unit beyond it it steps in, each time along the line to
   * the target; in between it steps one unit sideways, the side chosen by
   * `coin`.
   */
  function PreferredPosition(pos: Vec, target: Option<EB.TargetView>, preferred: real, coin: bool): (p: Vec)
    ensures target.None? ==> p == pos
    ensures target.Some? && preferred <= target.value.dist <= preferred + 1.0 ==>
      Dot(Plus(p, Scale(pos, -1.0)), target.value.dir) == 0.0
  {
    if target.None? then pos
    else
      var dir := target.value.dir;
      var d := target.value.dist;
      if d < preferred then Plus(pos, Scale(dir, -(preferred - d)))
      else if d > preferred + 1.0 then Plus(pos, Scale(dir, d - preferred))
      else Plus(pos, Scale(Perpendicular(dir), if coin then 1.0 else -1.0))
  }

  /**
   * Outside the comfortable band the chosen position lies on the line to
   * the target exactly the preferred distance short of it: the target
   * minus the position is the unit direction times the preferred distance.
   */
  lemma PreferredPositionKeepsDistance(pos: Vec, t: EB.TargetView, preferred: real, coin: bool)
    requires t.pos == Plus(pos, Scale(t.dir, t.dist))
    requires t.dist < preferred || t.dist > preferred + 1.0
    ensures Plus(t.pos, Scale(PreferredPosition(pos, Some(t), preferred, coin), -1.0)) == Scale(t.dir, preferred)
  {
    var p := PreferredPosition(pos, Some(t), preferred, coin);
    if t.dist < preferred {
      assert p == Plus(pos, Scale(t.dir, -(preferred - t.dist)));
      assert t.pos.x - p.x == t.dir.x * t.dist + t.dir.x * (preferred - t.dist);
      assert t.pos.y - p.y == t.dir.y * t.dist + t.dir.y * (preferred - t.dist);
    } else {
      assert p == Plus(pos, Scale(t.dir, t.dist - preferred));
      assert t.pos.x - p.x == t.dir.x * t.dist - t.dir.x * (t.dist - preferred);
      assert t.pos.y - p.y == t.dir.y * t.dist - t.dir.y * (t.dist - preferred);
    }
  }

  class SkeletonEnemy {
    const body: EB.EnemyBase
    /** Whether a projectile prefab is assigned. */
    const hasPrefab: bool
    const preferredDistance: real
    const retreatDistance: real
    const burstCount: int
    const burstDelay: real
    var currentBurst: int
    var burstTimer: real
    /** How many projectiles the skeleton has spawned. */
    var projectilesSpawned: nat
    /** How many shots the current (or last) burst has fired, target and prefab or not. */
    ghost var shotsThisBurst: nat

    /**
     * The body strikes with the base melee attack; during a burst the shots
     * fired and the shots left make up the burst count, and between bursts
     * the last burst fired all of them, or none when the count is not
     * positive.
     */
    ghost predicate Valid()
      reads this, body
    {
      && body.Valid() && body.style == EB.Melee
      && (currentBurst > 0 ==> shotsThisBurst + currentBurst == burstCount)
      && (currentBurst <= 0 ==> shotsThisBurst == 0 || shotsThisBurst == burstCount)
    }

    /** The skeleton with its serialized settings (preferred distance 4, retreat at 2, one shot per burst, 0.15 s apart), over a base with the stats `Awake` sets. */
    constructor (body: EB.EnemyBase, hasPrefab: bool)
      requires body.Valid() && body.cfg == SkeletonConfig() && body.style == EB.Melee
      ensures this.body == body && this.hasPrefab == hasPrefab && Valid()
      ensures preferredDistance == 4.0 && retreatDistance == 2.0 && burstCount == 1 && burstDelay == 0.15
      ensures currentBurst == 0 && burstTimer == 0.0 && projectilesSpawned == 0
    {
      this.body := body;
      this.hasPrefab := hasPrefab;
      preferredDistance := 4.0;
      retreatDistance := 2.0;
      burstCount := 1;
      burstDelay := 0.15;
      currentBurst := 0;
      burstTimer := 0.0;
      projectilesSpawned := 0;
      shotsThisBurst := 0;
    }

    /** `ShouldRetreat`: the target is nearer than the retreat distance. */
    predicate ShouldRetreat()
      reads this, body
      ensures ShouldRetreat() ==> body.target.Some? && body.target.value.dist < retreatDistance
    {
      body.target.Some? && body.DistanceToTarget() < retreatDistance
    }

    /** `FireProjectile`: one projectile at the target, or none without a target or a prefab. */
    method FireProjectile()
      modifies this`projectilesSpawned
      ensures projectilesSpawned == old(projectilesSpawned) + (if body.target.Some? && hasPrefab then 1 else 0)
    {
      if body.target.None? || !hasPrefab {
        return;
      }
      projectilesSpawned := projectilesSpawned + 1;
    }

    /**
     * The burst part of `Update`: while shots are left the shot timer runs
     * down; when it is due one shot goes (counted even if nothing spawns),
     * one fewer is left and the next is a burst delay away. A burst that
     * runs out has fired exactly the burst count.
     */
    method HandleBurst(dt: real)
      requires Valid()
      modifies this`currentBurst, this`burstTimer, this`projectilesSpawned, this`shotsThisBurst
      ensures Valid()
      ensures old(currentBurst) <= 0 ==>
        currentBurst == old(currentBurst) && burstTimer == old(burstTimer) && projectilesSpawned == old(projectilesSpawned)
      ensures old(currentBurst) > 0 ==>
        var due := old(burstTimer) - dt <= 0.0;
        && currentBurst == old(currentBurst) - (if due then 1 else 0)
        && burstTimer == (if due then burstDelay else old(burstTimer) - dt)
        && projectilesSpawned == old(projectilesSpawned) + (if due && body.target.Some? && hasPrefab then 1 else 0)
      ensures old(currentBurst) > 0 && currentBurst == 0 ==> shotsThisBurst == burstCount
    {
      if currentBurst > 0 {
        burstTimer := burstTimer - dt;
        if burstTimer <= 0.0 {
          FireProjectile();
          currentBurst := currentBurst - 1;
          shotsThisBurst := shotsThisBurst + 1;
          burstTimer := burstDelay;
        }
      }
    }

    /** The skeleton's part of its `Attack` override: a burst of `burstCount` shots, the first one due at once. */
    method StartBurst()
      modifies this`currentBurst, this`burstTimer, this`shotsThisBurst
      ensures currentBurst == burstCount && burstTimer == 0.0 && shotsThisBurst == 0
    {
      currentBurst := burstCount;
      burstTimer := 0.0;
      shotsThisBurst := 0;
    }

    /**
     * `Update`. The shared behaviour runs, with the skeleton's `Attack`
     * override: when the attack goes off, a burst of `burstCount` shots is
     * set up with the first one due at once, and the base attack restarts
     * the cooldown and also strikes a damageable target within the attack
     * range in melee. Then the burst fires its next shot when due, so the
     * first shot leaves on the frame of the attack.
     */
    method Update(dt: real, newPos: Vec, sensed: Option<EB.TargetView>, fleeDir: Vec, dice: Dice,
                  mgr: EnemyManager.EnemyManager?)
      returns (attackCalled: bool, attackPerformed: bool)
      requires Valid() && ValidDice(dice) && (mgr != null ==> mgr.Valid())
      modifies this, body, EB.Managers(mgr)`attacking
      ensures Valid() && (mgr != null ==> mgr.Valid())
      ensures body.pos == newPos && body.target == sensed
      ensures body.AfterTick(old(body.Snap(mgr)).(pos := newPos, target := sensed), body.Snap(mgr), body.velocity,
                            body.attackTimer, dt, fleeDir, dice, mgr)
      ensures body.attackTimer ==
        if attackPerformed then body.cfg.attackCooldown
        else if old(body.attackTimer) > 0.0 then old(body.attackTimer) - dt else old(body.attackTimer)
      ensures attackCalled <==>
        && old(body.state).Some? && old(body.state).value.Attack? && sensed.Some?
        && old(body.state).value.phase == WindUp && old(body.state).value.timer - dt <= 0.0
      ensures body.projectilesFired == old(body.projectilesFired)
      ensures !attackCalled ==> !attackPerformed && body.dealt == old(body.dealt)
      ensures attackCalled ==>
        body.dealt == old(body.dealt) + (if attackPerformed && body.InMeleeReach() then [body.MeleeHit()] else [])
      ensures attackPerformed ==>
        var due := burstCount > 0 && dt >= 0.0;
        && currentBurst == burstCount - (if due then 1 else 0)
        && burstTimer == (if due then burstDelay else if burstCount > 0 then 0.0 - dt else 0.0)
        && projectilesSpawned == old(projectilesSpawned) + (if due && hasPrefab then 1 else 0)
      ensures !attackPerformed && old(currentBurst) <= 0 ==>
        && currentBurst == old(currentBurst) && burstTimer == old(burstTimer)
        && projectilesSpawned == old(projectilesSpawned)
      ensures !attackPerformed && old(currentBurst) > 0 ==>
        var due := old(burstTimer) - dt <= 0.0;
        && currentBurst == old(currentBurst) - (if due then 1 else 0)
        && burstTimer == (if due then burstDelay else old(burstTimer) - dt)
        && projectilesSpawned == old(projectilesSpawned) + (if due && sensed.Some? && hasPrefab then 1 else 0)
    {
      attackCalled, attackPerformed := body.Update(dt, newPos, sensed, fleeDir, dice, mgr);
      if attackPerformed {
        StartBurst();
      }
      HandleBurst(dt);
    }
  }
}
