/**
 * The decision layer above an enemy's state machine: it holds on to the
 * player with hysteresis (acquired within the detection range, dropped
 * beyond the larger lose range or when dead), picks an action by fixed
 * priority each frame, and switches the enemy's state only when the
 * chosen high-level state differs from the one it last chose.
 */
module EnemyAI {
  import opened Common
  import ES = EnemyStates
  import EB = EnemyBase
  import EnemyManager

  datatype AIState = Idle | Patrol | Chase | Attack | Strafe | Flee | Dead

  datatype AIConfig = AIConfig(
    detectionRange: real, loseTargetRange: real, attackRange: real, preferredDistance: real,
    isRanged: bool, fleeHealthThreshold: real, canPatrol: bool, patrolRadius: real, patrolWaitTime: real)

  function DefaultAIConfig(): AIConfig
  {
    AIConfig(8.0, 12.0, 1.5, 2.0, false, 0.2, true, 5.0, 2.0)
  }

  /**
   * The player as seen this frame: its distance from the enemy and its
   * liveness, None when the player has no `Health` component.
   */
  datatype PlayerView = PlayerView(dist: real, alive: Option<bool>)

  /**
   * `UpdateTarget`, on whether a target is held. A held target is dropped
   * when it is dead or farther than the lose range, and on that frame no
   * new one is looked for; a vanished player object counts as no target.
   * Without a target the player is acquired when at most the detection
   * range away (its liveness is not looked at).
   */
  function NextHeld(held: bool, player: Option<PlayerView>, detectionRange: real, loseRange: real): (r: bool)
    ensures r ==> player.Some?
    ensures held && player.Some? ==> (r <==> player.value.alive != Some(false) && player.value.dist <= loseRange)
    ensures !held ==> (r <==> player.Some? && player.value.dist <= detectionRange)
  {
    if held && player.Some? then
      if player.value.alive == Some(false) then false
      else if player.value.dist > loseRange then false
      else true
    else
      player.Some? && player.value.dist <= detectionRange
  }

  /** Whether a target is held after a run of frames. */
  function HeldAfter(held: bool, frames: seq<Option<PlayerView>>, detectionRange: real, loseRange: real): bool
    decreases |frames|
  {
    if frames == [] then held
    else HeldAfter(NextHeld(held, frames[0], detectionRange, loseRange), frames[1..], detectionRange, loseRange)
  }

  /** A live player strictly beyond the detection range and within the lose range. */
  predicate InHysteresisBand(p: Option<PlayerView>, detectionRange: real, loseRange: real)
  {
    p.Some? && p.value.alive != Some(false) && detectionRange < p.value.dist <= loseRange
  }

  /**
   * Hysteresis: while a live player stays between the two ranges, a held
   * target stays held and a missing one stays missing, however many frames
   * pass.
   */
  lemma {:induction false} HysteresisHolds(held: bool, frames: seq<Option<PlayerView>>, detectionRange: real, loseRange: real)
    requires forall i :: 0 <= i < |frames| ==> InHysteresisBand(frames[i], detectionRange, loseRange)
    ensures HeldAfter(held, frames, detectionRange, loseRange) == held
    decreases |frames|
  {
    if frames != [] {
      assert InHysteresisBand(frames[0], detectionRange, loseRange);
      assert NextHeld(held, frames[0], detectionRange, loseRange) == held;
      forall i | 0 <= i < |frames[1..]|
        ensures InHysteresisBand(frames[1..][i], detectionRange, loseRange)
      {
        assert frames[1..][i] == frames[i + 1];
      }
      HysteresisHolds(held, frames[1..], detectionRange, loseRange);
    }
  }

  /**
   * Acquisition ignores liveness, so a dead player standing within the
   * detection range is acquired on one frame and dropped on the next.
   */
  lemma DeadPlayerFlickers(d: real, detectionRange: real, loseRange: real)
    requires d <= detectionRange
    ensures NextHeld(false, Some(PlayerView(d, Some(false))), detectionRange, loseRange)
    ensures !NextHeld(true, Some(PlayerView(d, Some(false))), detectionRange, loseRange)
  {
  }

  /** `ShouldFlee`: health below the threshold; never without a `Health` component. */
  function ShouldFlee(healthPercent: Option<real>, threshold: real): (r: bool)
    ensures r <==> healthPercent.Some? && healthPercent.value < threshold
  {
    match healthPercent
    case None => false
    case Some(p) => p < threshold
  }

  /** The outcomes of `DecideAction` before a token is asked for. */
  datatype Action = FleeAction | TryAttack | StrafeAction | ChaseAction | PatrolAction | IdleAction

  /**
   * `DecideAction`'s first-match priority. Fleeing beats everything; then
   * a target in attack range with the cooldown ready is attacked (if a
   * token is granted); then a target is chased, except that a ranged
   * enemy nearer than 0.8 of its preferred distance strafes; without a
   * target the enemy patrols if it may, else idles.
   */
  function Decide(c: AIConfig, healthPercent: Option<real>, hasTarget: bool, dist: real, canAttack: bool): (a: Action)
    ensures a == FleeAction <==> ShouldFlee(healthPercent, c.fleeHealthThreshold)
    ensures a == TryAttack <==>
      !ShouldFlee(healthPercent, c.fleeHealthThreshold) && hasTarget && dist <= c.attackRange && canAttack
    ensures a == StrafeAction <==>
      && !ShouldFlee(healthPercent, c.fleeHealthThreshold) && hasTarget && !(dist <= c.attackRange && canAttack)
      && c.isRanged && dist < c.preferredDistance * 0.8
    ensures a == ChaseAction <==>
      && !ShouldFlee(healthPercent, c.fleeHealthThreshold) && hasTarget && !(dist <= c.attackRange && canAttack)
      && !(c.isRanged && dist < c.preferredDistance * 0.8)
    ensures a == PatrolAction <==> !ShouldFlee(healthPercent, c.fleeHealthThreshold) && !hasTarget && c.canPatrol
    ensures a == IdleAction <==> !ShouldFlee(healthPercent, c.fleeHealthThreshold) && !hasTarget && !c.canPatrol
  {
    if ShouldFlee(healthPercent, c.fleeHealthThreshold) then FleeAction
    else if hasTarget && dist <= c.attackRange && canAttack then TryAttack
    else if hasTarget then
      (if c.isRanged && dist < c.preferredDistance * 0.8 then StrafeAction else ChaseAction)
    else if c.canPatrol then PatrolAction
    else IdleAction
  }

  /** The high-level state an action leads to, given the token answer for an attack. */
  function ChosenState(a: Action, granted: bool): (s: AIState)
    ensures s != Dead
    ensures a == TryAttack ==> (s == Attack <==> granted) && (s == Strafe <==> !granted)
  {
    match a
    case FleeAction => Flee
    case TryAttack => if granted then Attack else Strafe
    case StrafeAction => Strafe
    case ChaseAction => Chase
    case PatrolAction => Patrol
    case IdleAction => Idle
  }

  /** `DistanceToTarget`: `float.MaxValue` without a target. */
  function DistanceTo(hasTarget: bool, player: Option<PlayerView>): real
  {
    if hasTarget && player.Some? then player.value.dist else EB.FLOAT_MAX
  }

  class EnemyAI {
    const cfg: AIConfig
    const enemy: EB.EnemyBase
    /** Where the enemy stood when the AI woke; patrols circle it. */
    const patrolOrigin: Vec
    var hasTarget: bool
    var currentState: AIState

    /** `Awake`: no target, the recorded state Idle, the patrol origin where the enemy stands. */
    constructor (cfg: AIConfig, enemy: EB.EnemyBase)
      ensures this.cfg == cfg && this.enemy == enemy && patrolOrigin == enemy.pos
      ensures !hasTarget && currentState == Idle
    {
      this.cfg := cfg;
      this.enemy := enemy;
      patrolOrigin := enemy.pos;
      hasTarget := false;
      currentState := Idle;
    }

    /** The fresh enemy state object `SetState` builds for each high-level state. */
    function StateFor(s: AIState): (r: ES.EnemyState)
      ensures s == Idle <==> r.Idle?
      ensures s == Patrol <==> r.Patrol?
      ensures s == Chase <==> r.Chase?
      ensures s == Attack <==> r.Attack?
      ensures s == Strafe <==> r.Strafe?
      ensures s == Flee <==> r.Flee?
      ensures s == Dead <==> r.Death?
      ensures r.Patrol? ==> r.origin == patrolOrigin && r.radius == cfg.patrolRadius && r.waitTime == cfg.patrolWaitTime
    {
      match s
      case Idle => ES.NewIdle()
      case Patrol => ES.NewPatrol(patrolOrigin, cfg.patrolRadius, cfg.patrolWaitTime)
      case Chase => ES.NewChase()
      case Attack => ES.NewAttack()
      case Strafe => ES.NewStrafe()
      case Flee => ES.NewFlee()
      case Dead => ES.NewDeath()
    }

    /** What `DecideAction` picks from the current target, health and cooldown. */
    function Decision(player: Option<PlayerView>): Action
      reads this`hasTarget, enemy`attackTimer, enemy.health
    {
      Decide(cfg, Some(enemy.health.HealthPercent()), hasTarget, DistanceTo(hasTarget, player), enemy.CanAttack())
    }

    /** The decision is to attack and the manager (if any) grants a token. */
    twostate predicate Granted(player: Option<PlayerView>, mgr: EnemyManager.EnemyManager?)
      reads this`hasTarget, enemy`attackTimer, enemy.health
    {
      Decision(player) == TryAttack && (mgr == null || old(mgr.WouldGrant(enemy.id)))
    }

    /** The death subscription: the recorded state becomes Dead directly, with no state change on the enemy. */
    method OnDeath()
      modifies this`currentState
      ensures currentState == Dead
    {
      currentState := Dead;
    }

    /** `UpdateTarget` (see `NextHeld`). */
    method UpdateTarget(player: Option<PlayerView>)
      modifies this`hasTarget
      ensures hasTarget == NextHeld(old(hasTarget), player, cfg.detectionRange, cfg.loseTargetRange)
    {
      if hasTarget && player.Some? {
        if player.value.alive == Some(false) {
          hasTarget := false;
          return;
        }
        if player.value.dist > cfg.loseTargetRange {
          hasTarget := false;
          return;
        }
      } else {
        hasTarget := false;
      }
      if !hasTarget {
        if player.Some? && player.value.dist <= cfg.detectionRange {
          hasTarget := true;
        }
      }
    }

    /**
     * `SetState`. Choosing the recorded state again does nothing: no new
     * state object, no Exit and no Enter. Otherwise the new state is
     * recorded and the enemy changes to a fresh state object of that kind.
     */
    method SetState(next: AIState, dice: ES.Dice, mgr: EnemyManager.EnemyManager?)
      requires enemy.Valid() && ES.ValidDice(dice) && (mgr != null ==> mgr.Valid())
      modifies this`currentState, enemy`state, enemy`velocity, enemy`colliderEnabled, enemy`hooks, enemy`attacksInState
      modifies EB.Managers(mgr)`attacking
      ensures enemy.Valid() && (mgr != null ==> mgr.Valid())
      ensures currentState == next
      ensures old(currentState) == next ==>
        && enemy.state == old(enemy.state) && enemy.hooks == old(enemy.hooks) && enemy.velocity == old(enemy.velocity)
        && enemy.colliderEnabled == old(enemy.colliderEnabled) && enemy.attacksInState == old(enemy.attacksInState)
        && (mgr != null ==> mgr.attacking == old(mgr.attacking))
      ensures old(currentState) != next ==>
        && enemy.state == Some(ES.Enter(StateFor(next), enemy.Timing(), dice))
        && enemy.hooks == old(enemy.hooks) + EB.ExitHook(old(enemy.state)) + [EB.Entered(ES.KindOf(StateFor(next)))]
        && enemy.velocity == (if ES.EnterHalts(ES.KindOf(StateFor(next)))
                                 || (old(enemy.state).Some? && ES.ExitHalts(ES.KindOf(old(enemy.state).value)))
                              then ES.Halt else old(enemy.velocity))
        && enemy.colliderEnabled == (if next == Dead then false else old(enemy.colliderEnabled))
        && enemy.attacksInState == 0
        && (mgr != null ==> mgr.attacking == EB.TokensAfterExit(old(mgr.attacking), old(enemy.state), enemy.id))
    {
      if currentState == next {
        return;
      }
      currentState := next;
      enemy.ChangeState(Some(StateFor(next)), dice, mgr);
    }

    /**
     * The deciding part of `Update`: the target is updated, the action
     * decided, and a token asked for only when the decision is to attack
     * (no manager means yes). The result is the state to set.
     */
    method Choose(player: Option<PlayerView>, mgr: EnemyManager.EnemyManager?) returns (next: AIState)
      requires mgr != null ==> mgr.Valid()
      modifies this`hasTarget, EB.Managers(mgr)`attacking
      ensures mgr != null ==> mgr.Valid()
      ensures hasTarget == NextHeld(old(hasTarget), player, cfg.detectionRange, cfg.loseTargetRange)
      ensures next == ChosenState(Decision(player), Granted(player, mgr))
      ensures mgr != null ==> mgr.attacking == if Granted(player, mgr) then old(mgr.attacking) + {enemy.id} else old(mgr.attacking)
    {
      UpdateTarget(player);
      var a := Decision(player);
      var granted := false;
      if a == TryAttack {
        granted := true;
        if mgr != null {
          granted := mgr.RequestAttackToken(enemy.id);
        }
      }
      next := ChosenState(a, granted);
    }

    /**
     * `Update`. Once dead the AI does nothing. Otherwise it updates the
     * target, decides, asks for a token only when the decision is to
     * attack (no manager means yes), and sets the chosen state. When the
     * recorded state is stale and the enemy is already attacking, the
     * switch exits that attack state and so hands back the token just
     * granted.
     */
    method Update(player: Option<PlayerView>, dice: ES.Dice, mgr: EnemyManager.EnemyManager?)
      requires enemy.Valid() && ES.ValidDice(dice) && (mgr != null ==> mgr.Valid())
      modifies this`hasTarget, this`currentState
      modifies enemy`state, enemy`velocity, enemy`colliderEnabled, enemy`hooks, enemy`attacksInState
      modifies EB.Managers(mgr)`attacking
      ensures enemy.Valid() && (mgr != null ==> mgr.Valid())
      ensures old(currentState) == Dead || old(currentState) == currentState ==>
        && enemy.state == old(enemy.state) && enemy.hooks == old(enemy.hooks) && enemy.velocity == old(enemy.velocity)
        && enemy.colliderEnabled == old(enemy.colliderEnabled) && enemy.attacksInState == old(enemy.attacksInState)
      ensures old(currentState) == Dead ==>
        && hasTarget == old(hasTarget) && currentState == Dead
        && (mgr != null ==> mgr.attacking == old(mgr.attacking))
      ensures old(currentState) != Dead ==>
        hasTarget == NextHeld(old(hasTarget), player, cfg.detectionRange, cfg.loseTargetRange)
      ensures old(currentState) != Dead ==> currentState == ChosenState(Decision(player), Granted(player, mgr))
      ensures old(currentState) != Dead && old(currentState) == currentState ==>
        (mgr != null ==> mgr.attacking == if Granted(player, mgr) then old(mgr.attacking) + {enemy.id} else old(mgr.attacking))
      ensures old(currentState) != Dead && old(currentState) != currentState ==>
        && enemy.state == Some(ES.Enter(StateFor(currentState), enemy.Timing(), dice))
        && enemy.hooks == old(enemy.hooks) + EB.ExitHook(old(enemy.state)) + [EB.Entered(ES.KindOf(StateFor(currentState)))]
        && enemy.velocity == (if ES.EnterHalts(ES.KindOf(StateFor(currentState)))
                                 || (old(enemy.state).Some? && ES.ExitHalts(ES.KindOf(old(enemy.state).value)))
                              then ES.Halt else old(enemy.velocity))
        && enemy.colliderEnabled == (if currentState == Dead then false else old(enemy.colliderEnabled))
        && enemy.attacksInState == 0
        && (mgr != null ==>
              mgr.attacking == EB.TokensAfterExit(if Granted(player, mgr) then old(mgr.attacking) + {enemy.id}
                                                  else old(mgr.attacking), old(enemy.state), enemy.id))
    {
      if currentState == Dead {
        return;
      }
      var next := Choose(player, mgr);
      SetState(next, dice, mgr);
    }
  }
}
