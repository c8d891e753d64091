/**
 * The enemy body every enemy shares: its stats, the attack cooldown, the
 * sensed target, the current state object and the state machine that
 * swaps it (exit the old state, then enter the new one), the base melee
 * attack, and the per-tick behaviour of each of the seven states.
 */
module EnemyBase {
  import opened Common
  import opened DamageInfo
  import opened EnemyStates
  import EnemyManager
  import Health

  /** `float.MaxValue`, the distance reported when there is no target. */
  const FLOAT_MAX: real := 340282346638528859811704183484516925440.0

  /** The serialized stats (acceleration only shapes the velocity smoothing and is not modelled). */
  datatype EnemyConfig = EnemyConfig(
    moveSpeed: real, attackDamage: real, attackRange: real, attackCooldown: real,
    windUp: real, recovery: real, reactionTime: real, detectionRange: real)

  function DefaultConfig(): EnemyConfig
  {
    EnemyConfig(3.0, 10.0, 1.0, 1.0, 0.5, 1.0, 0.5, 5.0)
  }

  /**
   * Which `Attack` an enemy runs: the base melee strike, the ranger's
   * projectile (which needs a prefab), or the tower's empty override.
   */
  datatype AttackStyle = Melee | Ranged(hasPrefab: bool) | NoAttack

  /**
   * What the enemy knows of its target on this frame: where it is, how
   * far, the unit direction to it, and whether it can take damage.
   */
  datatype TargetView = TargetView(pos: Vec, dist: real, dir: Vec, damageable: bool)

  /** The Exit and Enter calls the state machine has made, in order. */
  datatype Hook = Exited(kind: StateKind) | Entered(kind: StateKind)

  /** Enter and Exit calls alternate, starting with Enter, and every Exit leaves the state last entered. */
  ghost predicate Alternating(h: seq<Hook>)
  {
    && (forall i :: 0 <= i < |h| ==> (h[i].Entered? <==> i % 2 == 0))
    && (forall i :: 1 <= i < |h| && h[i].Exited? ==> h[i].kind == h[i - 1].kind)
  }

  /** The hook log agrees with the current state: nothing before the first state, its Enter last after. */
  ghost predicate HooksAgree(h: seq<Hook>, s: Option<EnemyState>)
  {
    && Alternating(h)
    && (s.None? <==> h == [])
    && (s.Some? ==> h[|h| - 1] == Entered(KindOf(s.value)))
  }

  /** The manager, when there is one, as a frame. */
  function Managers(mgr: EnemyManager.EnemyManager?): set<EnemyManager.EnemyManager>
  {
    if mgr == null then {} else {mgr}
  }

  /** The token holders once the state `s` has been exited: only leaving Attack gives a token back. */
  function TokensAfterExit(attacking: set<ObjId>, s: Option<EnemyState>, id: ObjId): set<ObjId>
  {
    if s.Some? && ExitReleasesToken(KindOf(s.value)) then attacking - {id} else attacking
  }

  function ExitHook(s: Option<EnemyState>): seq<Hook>
  {
    if s.Some? then [Exited(KindOf(s.value))] else []
  }

  /** One state change (an Exit of the current state, if any, then an Enter) keeps the log agreeing. */
  lemma HooksAfterChange(h: seq<Hook>, s: Option<EnemyState>, next: EnemyState)
    requires HooksAgree(h, s)
    ensures HooksAgree(h + ExitHook(s) + [Entered(KindOf(next))], Some(next))
  {
    var h' := h + ExitHook(s) + [Entered(KindOf(next))];
    if s.Some? {
      assert (|h| - 1) % 2 == 0 by { assert h[|h| - 1].Entered?; }
      forall i | 1 <= i < |h'| && h'[i].Exited?
        ensures h'[i].kind == h'[i - 1].kind
      {
        if i < |h| {
          assert h'[i] == h[i] && h'[i - 1] == h[i - 1];
        }
      }
    }
  }

  /**
   * The enemy at one moment, as far as a tick of a state is concerned:
   * what a tick may change (the state, the motion, the hook log, the
   * collider, the attack count, the destroy requests and the manager's
   * token holders), whether the manager would grant this enemy a token,
   * and what a tick reads (the sensed target and the position). A step
   * predicate relates the snapshot `b` before a tick to the snapshot `a`
   * after it.
   */
  datatype Snapshot = Snapshot(
    state: Option<EnemyState>, velocity: Motion, hooks: seq<Hook>, colliderEnabled: bool,
    attacksInState: nat, destroyRequests: nat, tokens: set<ObjId>, granted: bool,
    target: Option<TargetView>, pos: Vec)

  class EnemyBase {
    const id: ObjId
    const cfg: EnemyConfig
    const style: AttackStyle
    /** The required `Health` component. */
    const health: Health.Health
    var pos: Vec
    var velocity: Motion
    var target: Option<TargetView>
    var attackTimer: real
    var state: Option<EnemyState>
    /** Whether the collider still takes part in collisions. */
    var colliderEnabled: bool
    /** How many times `Destroy` has been requested for this enemy. */
    var destroyRequests: nat
    /** The hits this enemy's melee attack has delivered, in order. */
    var dealt: seq<DamageInfo>
    /** How many projectiles this enemy's ranged attack has spawned. */
    var projectilesFired: nat
    ghost var hooks: seq<Hook>
    /** How many times `Attack` has been called by the current state object. */
    ghost var attacksInState: nat

    /**
     * A strafing enemy circles one way or the other, the hook log agrees
     * with the state, and an attack state has called `Attack` once it is
     * recovering and not before.
     */
    ghost predicate Valid()
      reads this
    {
      && (state.Some? ==> StateOk(state.value))
      && HooksAgree(hooks, state)
      && (state.Some? && state.value.Attack? ==>
            attacksInState == (if state.value.phase == WindUp then 0 else 1))
    }

    function Timing(): Timings
    {
      Timings(cfg.windUp, cfg.reactionTime)
    }

    predicate CanAttack()
      reads this`attackTimer
    {
      attackTimer <= 0.0
    }

    /** `GetDistanceToTarget`: the distance to the target, or `float.MaxValue` without one. */
    function DistanceToTarget(): (d: real)
      reads this`target
      ensures target.Some? ==> d == target.value.dist
      ensures target.None? ==> d == FLOAT_MAX
    {
      if target.None? then FLOAT_MAX else target.value.dist
    }

    /**
     * `IsTargetInAttackRange`: a target at most the attack range away; a
     * missing target is never in range for any finite range.
     */
    predicate IsTargetInAttackRange()
      reads this`target
      ensures target.Some? ==> (IsTargetInAttackRange() <==> target.value.dist <= cfg.attackRange)
      ensures target.None? && cfg.attackRange < FLOAT_MAX ==> !IsTargetInAttackRange()
    {
      DistanceToTarget() <= cfg.attackRange
    }

    /** The melee blow: the attack damage from this enemy, knocked back 3 units along the direction to the target, hitting at the enemy's position. */
    function MeleeHit(): (hit: DamageInfo)
      requires target.Some?
      reads this`target, this`pos
      ensures hit.amount == cfg.attackDamage && hit.source == Some(id) && hit.kind == Physical
      ensures hit.knockbackForce == Scale(target.value.dir, 3.0) && hit.hitPoint == pos
    {
      WithHitPoint(WithKnockback(NewDamageInfo(cfg.attackDamage, Some(id), Physical), Scale(target.value.dir, 3.0)), pos)
    }

    /** A blow lands only on a damageable target within the attack range at the moment of the attack. */
    predicate InMeleeReach()
      reads this`target
    {
      target.Some? && target.value.dist <= cfg.attackRange && target.value.damageable
    }

    /**
     * The effect of one call of `Attack`. The guard is a cooldown that has
     * run out and a target (and, for a ranged enemy, a projectile prefab);
     * once past it the cooldown restarts whether or not the target is in
     * reach, a melee enemy hits a target in reach, a ranged one fires one
     * projectile, and the tower's override does nothing at all.
     */
    twostate predicate AttackDone(performed: bool)
      reads this
    {
      && (performed <==> (style != NoAttack && old(attackTimer) <= 0.0 && old(target).Some?
                          && (style.Ranged? ==> style.hasPrefab)))
      && attackTimer == (if performed then cfg.attackCooldown else old(attackTimer))
      && dealt == old(dealt) + (if performed && style.Melee? && InMeleeReach() then [MeleeHit()] else [])
      && projectilesFired == old(projectilesFired) + (if performed && style.Ranged? then 1 else 0)
    }

    /** No attack happened: the cooldown and both attack logs are as they were. */
    twostate predicate NoAttackMade()
      reads this
    {
      attackTimer == old(attackTimer) && dealt == old(dealt) && projectilesFired == old(projectilesFired)
    }

    /** The parts of the enemy a tick may change, with the manager's tokens. */
    ghost function Snap(mgr: EnemyManager.EnemyManager?): Snapshot
      reads this, Managers(mgr)
    {
      Snapshot(state, velocity, hooks, colliderEnabled, attacksInState, destroyRequests,
               if mgr == null then {} else mgr.attacking, mgr == null || mgr.WouldGrant(id), target, pos)
    }

    /**
     * Between `b` and `a` a call of `ChangeState(next)` happened: the Exit
     * of `b`'s state ran, then the new state object was entered. So `a`
     * holds the entered state, the two hooks, the velocity both left, the
     * collider as Death leaves it, and a fresh attack count.
     */
    ghost predicate SwitchedTo(b: Snapshot, a: Snapshot, next: EnemyState, dice: Dice)
      requires ValidDice(dice)
    {
      && b.state.Some?
      && a.state == Some(Enter(next, Timing(), dice))
      && a.hooks == b.hooks + [Exited(KindOf(b.state.value)), Entered(KindOf(next))]
      && a.velocity == (if EnterHalts(KindOf(next)) || ExitHalts(KindOf(b.state.value)) then Halt else b.velocity)
      && a.colliderEnabled == (if next.Death? then false else b.colliderEnabled)
      && a.attacksInState == 0
    }

    /** `Awake`: no state yet (`Start` enters the first one), the cooldown ready, at rest. */
    constructor (id: ObjId, cfg: EnemyConfig, style: AttackStyle, health: Health.Health, pos: Vec)
      ensures this.id == id && this.cfg == cfg && this.style == style && this.health == health && this.pos == pos
      ensures state == None && target == None && attackTimer == 0.0 && velocity == Halt
      ensures colliderEnabled && destroyRequests == 0 && dealt == [] && projectilesFired == 0
      ensures Valid() && CanAttack()
    {
      this.id := id;
      this.cfg := cfg;
      this.style := style;
      this.health := health;
      this.pos := pos;
      velocity := Halt;
      target := None;
      attackTimer := 0.0;
      state := None;
      colliderEnabled := true;
      destroyRequests := 0;
      dealt := [];
      projectilesFired := 0;
      hooks := [];
      attacksInState := 0;
    }

    /** The Exit half of `ChangeState`: the current state's Exit runs, if there is a state. */
    method ExitCurrent(mgr: EnemyManager.EnemyManager?)
      requires mgr != null ==> mgr.Valid()
      modifies this`velocity, this`hooks, Managers(mgr)`attacking
      ensures mgr != null ==> mgr.Valid()
      ensures hooks == old(hooks) + ExitHook(state)
      ensures velocity == (if state.Some? && ExitHalts(KindOf(state.value)) then Halt else old(velocity))
      ensures mgr != null ==> mgr.attacking == TokensAfterExit(old(mgr.attacking), state, id)
    {
      if state.Some? {
        var k := KindOf(state.value);
        if ExitHalts(k) {
          velocity := Halt;
        }
        if ExitReleasesToken(k) && mgr != null {
          mgr.ReleaseAttackToken(id);
        }
        hooks := hooks + [Exited(k)];
      }
    }

    /**
     * `ChangeState`. Without a new state nothing happens. Otherwise the
     * current state (if any) is exited, the new one becomes current and
     * is entered, each exactly once and in that order; there is no check
     * that the new state differs from the current one, so re-entering a
     * kind restarts it. Exiting Attack gives the token back.
     */
    method ChangeState(next: Option<EnemyState>, dice: Dice, mgr: EnemyManager.EnemyManager?)
      requires Valid() && ValidDice(dice) && (mgr != null ==> mgr.Valid())
      modifies this`state, this`velocity, this`colliderEnabled, this`hooks, this`attacksInState, Managers(mgr)`attacking
      ensures Valid() && (mgr != null ==> mgr.Valid())
      ensures next.None? ==>
        && state == old(state) && velocity == old(velocity) && colliderEnabled == old(colliderEnabled)
        && hooks == old(hooks) && attacksInState == old(attacksInState)
        && (mgr != null ==> mgr.attacking == old(mgr.attacking))
      ensures next.Some? ==>
        && state == Some(Enter(next.value, Timing(), dice))
        && hooks == old(hooks) + ExitHook(old(state)) + [Entered(KindOf(next.value))]
        && velocity == (if EnterHalts(KindOf(next.value)) || (old(state).Some? && ExitHalts(KindOf(old(state).value)))
                        then Halt else old(velocity))
        && colliderEnabled == (if next.value.Death? then false else old(colliderEnabled))
        && attacksInState == 0
        && (mgr != null ==> mgr.attacking == TokensAfterExit(old(mgr.attacking), old(state), id))
    {
      if next.None? {
        return;
      }
      HooksAfterChange(hooks, state, next.value);
      ExitCurrent(mgr);
      var entered := Enter(next.value, Timing(), dice);
      state := Some(entered);
      if EnterHalts(KindOf(entered)) {
        velocity := Halt;
      }
      if entered.Death? {
        colliderEnabled := false;
      }
      hooks := hooks + [Entered(KindOf(entered))];
      attacksInState := 0;
    }

    /** `Start`: the enemy begins idle. */
    method Start(dice: Dice)
      requires Valid() && ValidDice(dice) && state.None?
      modifies this`state, this`velocity, this`colliderEnabled, this`hooks, this`attacksInState
      ensures Valid()
      ensures state == Some(Enter(NewIdle(), Timing(), dice)) && hooks == [Entered(IdleKind)]
      ensures velocity == Halt && colliderEnabled == old(colliderEnabled)
    {
      ChangeState(Some(NewIdle()), dice, null);
    }

    /** `HandleDeath`: a death switches to a fresh death state through `ChangeState`, so the current state's Exit runs first. */
    method HandleDeath(dice: Dice, mgr: EnemyManager.EnemyManager?)
      requires Valid() && ValidDice(dice) && (mgr != null ==> mgr.Valid())
      modifies this`state, this`velocity, this`colliderEnabled, this`hooks, this`attacksInState, Managers(mgr)`attacking
      ensures Valid() && (mgr != null ==> mgr.Valid())
      ensures state == Some(Death(DEATH_DELAY)) && velocity == Halt && !colliderEnabled
      ensures hooks == old(hooks) + ExitHook(old(state)) + [Entered(DeathKind)]
      ensures mgr != null ==> mgr.attacking == TokensAfterExit(old(mgr.attacking), old(state), id)
    {
      ChangeState(Some(NewDeath()), dice, mgr);
    }

    /** The cooldown part of `Update`: it runs down only while positive. */
    method TickCooldown(dt: real)
      modifies this`attackTimer
      ensures attackTimer == if old(attackTimer) > 0.0 then old(attackTimer) - dt else old(attackTimer)
      ensures old(CanAttack()) ==> CanAttack()
    {
      if attackTimer > 0.0 {
        attackTimer := attackTimer - dt;
      }
    }

    /** `DetectPlayer`: the target is whatever the detection circle finds this frame, with no memory. */
    method DetectPlayer(sensed: Option<TargetView>)
      modifies this`target
      ensures target == sensed
    {
      target := sensed;
    }

    /** `Attack`, dispatched on the enemy's attack style (see `AttackDone`). */
    method Attack() returns (performed: bool)
      modifies this`attackTimer, this`dealt, this`projectilesFired
      ensures AttackDone(performed)
    {
      performed := false;
      if style.NoAttack? || !CanAttack() || target.None? {
        return;
      }
      if style.Ranged? && !style.hasPrefab {
        return;
      }
      attackTimer := cfg.attackCooldown;
      performed := true;
      if style.Melee? {
        if target.value.dist <= cfg.attackRange && target.value.damageable {
          dealt := dealt + [MeleeHit()];
        }
      } else {
        projectilesFired := projectilesFired + 1;
      }
    }

    /** No state change happened since `b`: the hook log, the collider, the attack count and the destroy requests are as they were. */
    ghost predicate Stayed(b: Snapshot, a: Snapshot)
    {
      && a.hooks == b.hooks && a.colliderEnabled == b.colliderEnabled
      && a.attacksInState == b.attacksInState && a.destroyRequests == b.destroyRequests
    }

    /** The manager's token holders are as they were in `b`. */
    ghost predicate TokensKept(b: Snapshot, a: Snapshot)
    {
      a.tokens == b.tokens
    }

    /** One tick of the idle state (see `ExecuteIdle`). */
    ghost predicate IdleStep(b: Snapshot, a: Snapshot, dt: real, dice: Dice)
      requires ValidDice(dice)
    {
      && b.state.Some? && b.state.value.Idle?
      && TokensKept(b, a) && a.destroyRequests == b.destroyRequests
      && (b.target.Some? ==> SwitchedTo(b, a, NewChase(), dice))
      && (b.target.None? ==> Stayed(b, a))
      && var s := b.state.value;
      && (b.target.None? && s.isMoving && Within(b.pos, s.wanderTarget, REACHED_DISTANCE) ==>
            a.state == Some(s.(isMoving := false, idleTimer := dice.span)) && a.velocity == Halt)
      && (b.target.None? && s.isMoving && !Within(b.pos, s.wanderTarget, REACHED_DISTANCE) ==>
            a.state == b.state && a.velocity == Toward(s.wanderTarget))
      && (b.target.None? && !s.isMoving && s.idleTimer - dt <= 0.0 ==>
            && a.state == Some(s.(idleTimer := s.idleTimer - dt, isMoving := true,
                                  wanderTarget := Plus(b.pos, Scale(dice.wander, WANDER_RADIUS))))
            && a.velocity == b.velocity)
      && (b.target.None? && !s.isMoving && s.idleTimer - dt > 0.0 ==>
            a.state == Some(s.(idleTimer := s.idleTimer - dt)) && a.velocity == b.velocity)
    }

    /**
     * `EnemyIdleState.Execute`. A target sends the enemy to Chase before
     * anything else. A wandering enemy within 0.1 of its wander point stops
     * and waits 1 to 3 seconds, otherwise it keeps walking there; a waiting
     * enemy counts down and, once the wait is over, picks a wander point
     * around where it stands (within 3 units, `WanderTargetWithinRadius`)
     * and starts walking.
     */
    method ExecuteIdle(dt: real, dice: Dice, mgr: EnemyManager.EnemyManager?)
      requires Valid() && ValidDice(dice) && (mgr != null ==> mgr.Valid())
      requires state.Some? && state.value.Idle?
      modifies this`state, this`velocity, this`colliderEnabled, this`hooks, this`attacksInState, Managers(mgr)`attacking
      ensures Valid() && (mgr != null ==> mgr.Valid())
      ensures IdleStep(old(Snap(mgr)), Snap(mgr), dt, dice)
    {
      if target.Some? {
        ChangeState(Some(NewChase()), dice, mgr);
        return;
      }
      var s := state.value;
      if s.isMoving {
        if Within(pos, s.wanderTarget, REACHED_DISTANCE) {
          state := Some(s.(isMoving := false, idleTimer := dice.span));
          velocity := Halt;
        } else {
          velocity := Toward(s.wanderTarget);
        }
      } else {
        var timer := s.idleTimer - dt;
        if timer <= 0.0 {
          state := Some(s.(idleTimer := timer, isMoving := true, wanderTarget := Plus(pos, Scale(dice.wander, WANDER_RADIUS))));
        } else {
          state := Some(s.(idleTimer := timer));
        }
      }
    }

    /** One tick of the patrol state (see `ExecutePatrol`). */
    ghost predicate PatrolStep(b: Snapshot, a: Snapshot, dt: real, dice: Dice)
      requires ValidDice(dice)
    {
      && b.state.Some? && b.state.value.Patrol?
      && TokensKept(b, a) && a.destroyRequests == b.destroyRequests
      && (b.target.Some? ==> SwitchedTo(b, a, NewChase(), dice))
      && (b.target.None? ==> Stayed(b, a))
      && var s := b.state.value;
      && (b.target.None? && s.isWaiting && s.waitTimer - dt <= 0.0 ==>
            && a.state == Some(s.(waitTimer := s.waitTimer - dt, isWaiting := false, hasDestination := true,
                                  destination := PatrolDestination(s.origin, s.radius, dice)))
            && a.velocity == b.velocity)
      && (b.target.None? && s.isWaiting && s.waitTimer - dt > 0.0 ==>
            a.state == Some(s.(waitTimer := s.waitTimer - dt)) && a.velocity == b.velocity)
      && (b.target.None? && !s.isWaiting && s.hasDestination && StrictlyWithin(b.pos, s.destination, PATROL_ARRIVAL_DISTANCE) ==>
            a.state == Some(s.(isWaiting := true, waitTimer := s.waitTime + dice.jitter)) && a.velocity == Halt)
      && (b.target.None? && !s.isWaiting && s.hasDestination && !StrictlyWithin(b.pos, s.destination, PATROL_ARRIVAL_DISTANCE) ==>
            a.state == b.state && a.velocity == Toward(s.destination))
      && (b.target.None? && !s.isWaiting && !s.hasDestination ==> a.state == b.state && a.velocity == b.velocity)
    }

    /**
     * `EnemyPatrolState.Execute`. A target sends the enemy to Chase first.
     * A waiting enemy counts down and, when the wait is over, stops waiting
     * and picks a destination around the patrol origin (not around where it
     * stands). A walking enemy that comes within 0.3 of its destination
     * stops and waits the wait time give or take half a second; otherwise
     * it walks on.
     */
    method ExecutePatrol(dt: real, dice: Dice, mgr: EnemyManager.EnemyManager?)
      requires Valid() && ValidDice(dice) && (mgr != null ==> mgr.Valid())
      requires state.Some? && state.value.Patrol?
      modifies this`state, this`velocity, this`colliderEnabled, this`hooks, this`attacksInState, Managers(mgr)`attacking
      ensures Valid() && (mgr != null ==> mgr.Valid())
      ensures PatrolStep(old(Snap(mgr)), Snap(mgr), dt, dice)
    {
      if target.Some? {
        ChangeState(Some(NewChase()), dice, mgr);
        return;
      }
      var s := state.value;
      if s.isWaiting {
        var timer := s.waitTimer - dt;
        if timer <= 0.0 {
          var destination := PatrolDestination(s.origin, s.radius, dice);
          state := Some(s.(waitTimer := timer, isWaiting := false, hasDestination := true, destination := destination));
        } else {
          state := Some(s.(waitTimer := timer));
        }
        return;
      }
      if s.hasDestination {
        if StrictlyWithin(pos, s.destination, PATROL_ARRIVAL_DISTANCE) {
          state := Some(s.(isWaiting := true, waitTimer := s.waitTime + dice.jitter));
          velocity := Halt;
        } else {
          velocity := Toward(s.destination);
        }
      }
    }

    /** One tick of the chase state (see `ExecuteChase`). */
    ghost predicate ChaseStep(b: Snapshot, a: Snapshot, dt: real, dice: Dice)
      requires ValidDice(dice)
    {
      && b.state.Some? && b.state.value.Chase?
      && TokensKept(b, a) && a.destroyRequests == b.destroyRequests
      && (b.target.None? ==> SwitchedTo(b, a, NewIdle(), dice))
      && var s := b.state.value;
      && (b.target.Some? && !s.isChasing ==>
            && a.state == Some(Chase(s.reactionTimer - dt, s.reactionTimer - dt <= 0.0))
            && a.velocity == b.velocity && Stayed(b, a))
      && (b.target.Some? && s.isChasing && b.target.value.dist <= cfg.attackRange ==> SwitchedTo(b, a, NewAttack(), dice))
      && (b.target.Some? && s.isChasing && b.target.value.dist > cfg.attackRange ==>
            a.state == b.state && a.velocity == SmoothToward(b.target.value.pos) && Stayed(b, a))
    }

    /**
     * `EnemyChaseState.Execute`. Losing the target sends the enemy to Idle
     * before anything else. During the reaction delay the state only counts
     * down, with no movement and no range check, even on the tick the delay
     * ends. After it, a target in attack range sends the enemy to Attack
     * without asking for an attack token; otherwise it moves smoothly
     * toward the target.
     */
    method ExecuteChase(dt: real, dice: Dice, mgr: EnemyManager.EnemyManager?)
      requires Valid() && ValidDice(dice) && (mgr != null ==> mgr.Valid())
      requires state.Some? && state.value.Chase?
      modifies this`state, this`velocity, this`colliderEnabled, this`hooks, this`attacksInState, Managers(mgr)`attacking
      ensures Valid() && (mgr != null ==> mgr.Valid())
      ensures ChaseStep(old(Snap(mgr)), Snap(mgr), dt, dice)
    {
      if target.None? {
        ChangeState(Some(NewIdle()), dice, mgr);
        return;
      }
      var s := state.value;
      if !s.isChasing {
        var timer := s.reactionTimer - dt;
        state := Some(Chase(timer, timer <= 0.0));
        return;
      }
      if IsTargetInAttackRange() {
        ChangeState(Some(NewAttack()), dice, mgr);
        return;
      }
      velocity := SmoothToward(target.value.pos);
    }

    /**
     * One tick of the attack state (see `ExecuteAttack`), apart from the
     * attack itself: the state, the motion, the hooks and the token.
     */
    ghost predicate AttackStep(b: Snapshot, a: Snapshot, dt: real, dice: Dice, mgr: EnemyManager.EnemyManager?)
      requires ValidDice(dice)
    {
      && b.state.Some? && b.state.value.Attack?
      && a.destroyRequests == b.destroyRequests
      && (b.target.None? ==> SwitchedTo(b, a, NewIdle(), dice) && (mgr != null ==> a.tokens == b.tokens - {id}))
      && var s := b.state.value;
      && (b.target.Some? && s.phase == WindUp ==>
            && a.velocity == b.velocity && a.hooks == b.hooks && a.colliderEnabled == b.colliderEnabled
            && TokensKept(b, a)
            && a.attacksInState == b.attacksInState + (if s.timer - dt <= 0.0 then 1 else 0)
            && a.state == Some(if s.timer - dt <= 0.0 then EnemyState.Attack(Recovery, cfg.recovery)
                               else EnemyState.Attack(WindUp, s.timer - dt)))
      && (b.target.Some? && s.phase == Recovery && s.timer - dt <= 0.0 ==>
            SwitchedTo(b, a, NewChase(), dice) && (mgr != null ==> a.tokens == b.tokens - {id}))
      && (b.target.Some? && s.phase == Recovery && s.timer - dt > 0.0 ==>
            && a.state == Some(EnemyState.Attack(Recovery, s.timer - dt)) && a.velocity == b.velocity
            && Stayed(b, a) && TokensKept(b, a))
    }

    /**
     * The wind-up phase of the attack state, with a target: the timer
     * counts down and, when it runs out, `Attack` is called, the attack
     * is counted and recovery starts.
     */
    method WindUpTick(dt: real) returns (called: bool, performed: bool)
      requires Valid() && target.Some? && state.Some? && state.value.Attack? && state.value.phase == WindUp
      modifies this`state, this`attacksInState, this`attackTimer, this`dealt, this`projectilesFired
      ensures Valid()
      ensures called <==> old(state).value.timer - dt <= 0.0
      ensures called ==> AttackDone(performed)
      ensures !called ==> !performed && NoAttackMade()
      ensures attacksInState == old(attacksInState) + (if called then 1 else 0)
      ensures state == Some(if called then EnemyState.Attack(Recovery, cfg.recovery)
                            else EnemyState.Attack(WindUp, old(state).value.timer - dt))
    {
      called, performed := false, false;
      var timer := state.value.timer - dt;
      if timer <= 0.0 {
        performed := Attack();
        called := true;
        attacksInState := attacksInState + 1;
        state := Some(EnemyState.Attack(Recovery, cfg.recovery));
      } else {
        state := Some(EnemyState.Attack(WindUp, timer));
      }
    }

    /**
     * `EnemyAttackState.Execute`. Losing the target sends the enemy to
     * Idle before the timer is touched. During wind-up the timer counts
     * down and, when it runs out, `Attack` is called once and recovery
     * starts; the phase never goes back to wind-up, so a state object
     * attacks at most once. When recovery runs out the enemy returns to
     * Chase. Leaving the state by either path gives the token back.
     */
    method ExecuteAttack(dt: real, dice: Dice, mgr: EnemyManager.EnemyManager?) returns (called: bool, performed: bool)
      requires Valid() && ValidDice(dice) && (mgr != null ==> mgr.Valid())
      requires state.Some? && state.value.Attack?
      modifies this`state, this`velocity, this`colliderEnabled, this`hooks, this`attacksInState, Managers(mgr)`attacking
      modifies this`attackTimer, this`dealt, this`projectilesFired
      ensures Valid() && (mgr != null ==> mgr.Valid())
      ensures called <==> target.Some? && old(state).value.phase == WindUp && old(state).value.timer - dt <= 0.0
      ensures called ==> AttackDone(performed)
      ensures !called ==> !performed && NoAttackMade()
      ensures AttackStep(old(Snap(mgr)), Snap(mgr), dt, dice, mgr)
    {
      called, performed := false, false;
      ghost var before := Snap(mgr);
      if target.None? {
        ChangeState(Some(NewIdle()), dice, mgr);
        assert SwitchedTo(before, Snap(mgr), NewIdle(), dice);
        return;
      }
      var s := state.value;
      var timer := s.timer - dt;
      if s.phase == WindUp {
        called, performed := WindUpTick(dt);
      } else {
        state := Some(EnemyState.Attack(Recovery, timer));
        if timer <= 0.0 {
          ChangeState(Some(NewChase()), dice, mgr);
          assert SwitchedTo(before, Snap(mgr), NewChase(), dice);
        }
      }
    }

    /**
     * Whether a strafing enemy with a target attacks on this tick: its
     * cooldown is ready, the target is in attack range, and it needs no
     * token (there is no manager) or the manager grants one.
     */
    predicate StrafeGoes(t: Option<TargetView>, ready: bool, granted: bool)
    {
      t.Some? && ready && t.value.dist <= cfg.attackRange && granted
    }

    /**
     * The attack check of the strafing state. A token is asked for only
     * when the cooldown is ready and the target is in range; the answer
     * is yes without a manager.
     */
    method StrafeTryAttack(mgr: EnemyManager.EnemyManager?) returns (go: bool)
      requires target.Some? && (mgr != null ==> mgr.Valid())
      modifies Managers(mgr)`attacking
      ensures mgr != null ==> mgr.Valid()
      ensures go == StrafeGoes(target, CanAttack(), old(mgr == null || mgr.WouldGrant(id)))
      ensures mgr != null ==> mgr.attacking == if go then old(mgr.attacking) + {id} else old(mgr.attacking)
    {
      go := false;
      if CanAttack() && IsTargetInAttackRange() {
        go := true;
        if mgr != null {
          go := mgr.RequestAttackToken(id);
        }
      }
    }

    /** One tick of the strafe state (see `ExecuteStrafe`). */
    ghost predicate StrafeStep(b: Snapshot, a: Snapshot, timer: real, dt: real, dice: Dice, mgr: EnemyManager.EnemyManager?)
      requires ValidDice(dice)
    {
      && b.state.Some? && b.state.value.Strafe?
      && a.destroyRequests == b.destroyRequests
      && var s := b.state.value;
      if b.target.None? then
        SwitchedTo(b, a, NewIdle(), dice) && TokensKept(b, a)
      else if StrafeGoes(b.target, timer <= 0.0, b.granted) then
        SwitchedTo(b, a, NewAttack(), dice) && (mgr != null ==> a.tokens == b.tokens + {id})
      else
        && TokensKept(b, a)
        && if s.timer - dt <= 0.0 && b.target.value.dist > 0.8 * cfg.detectionRange then
             SwitchedTo(b, a, NewChase(), dice)
           else
             && Stayed(b, a)
             && a.velocity == Orbit(s.direction, RadialCorrection(b.target.value.dist, cfg.attackRange), 0.8 * cfg.moveSpeed)
             && a.state == Some(if s.timer - dt > 0.0 then Strafe(s.timer - dt, s.duration, s.direction)
                                else Strafe(dice.span, s.duration, -s.direction))
    }

    /**
     * The circling part of a strafing tick, once no attack goes off:
     * `cur` is the strafe state with its timer already counted down. The
     * enemy circles the target; when the strafe time is up it either gives
     * up and chases (the target is beyond 0.8 of the detection range) or
     * turns the other way round with a new strafe time.
     */
    method StrafeCircle(cur: EnemyState, dice: Dice, mgr: EnemyManager.EnemyManager?)
      requires Valid() && ValidDice(dice) && (mgr != null ==> mgr.Valid())
      requires cur.Strafe? && state == Some(cur) && target.Some?
      modifies this`state, this`velocity, this`colliderEnabled, this`hooks, this`attacksInState, Managers(mgr)`attacking
      ensures Valid() && (mgr != null ==> mgr.Valid())
      ensures TokensKept(old(Snap(mgr)), Snap(mgr))
      ensures if cur.timer <= 0.0 && target.value.dist > 0.8 * cfg.detectionRange then
          SwitchedTo(old(Snap(mgr)), Snap(mgr), NewChase(), dice)
        else
          && Stayed(old(Snap(mgr)), Snap(mgr))
          && velocity == Orbit(cur.direction, RadialCorrection(target.value.dist, cfg.attackRange), 0.8 * cfg.moveSpeed)
          && state == Some(if cur.timer > 0.0 then cur else Strafe(dice.span, cur.duration, -cur.direction))
    {
      var dist := target.value.dist;
      velocity := Orbit(cur.direction, RadialCorrection(dist, cfg.attackRange), 0.8 * cfg.moveSpeed);
      if cur.timer <= 0.0 {
        state := Some(Strafe(dice.span, cur.duration, -cur.direction));
        if dist > 0.8 * cfg.detectionRange {
          ChangeState(Some(NewChase()), dice, mgr);
        }
      }
    }

    /**
     * `EnemyStrafeState.Execute`. Losing the target sends the enemy to
     * Idle. When the cooldown is ready and the target is in attack range,
     * the enemy asks for a token (or needs none without a manager) and
     * attacks if it gets one; a token is never asked for otherwise.
     * Failing that it circles the target at 0.8 of its speed in its
     * current direction, correcting its distance toward the attack range
     * plus 1.5. When the strafe time runs out it draws a new one and turns
     * the other way round, and goes back to Chase if the target has moved
     * beyond 0.8 of the detection range. Leaving gives no token back.
     */
    method ExecuteStrafe(dt: real, dice: Dice, mgr: EnemyManager.EnemyManager?)
      requires Valid() && ValidDice(dice) && (mgr != null ==> mgr.Valid())
      requires state.Some? && state.value.Strafe?
      modifies this`state, this`velocity, this`colliderEnabled, this`hooks, this`attacksInState, Managers(mgr)`attacking
      ensures Valid() && (mgr != null ==> mgr.Valid())
      ensures StrafeStep(old(Snap(mgr)), Snap(mgr), attackTimer, dt, dice, mgr)
    {
      ghost var before := Snap(mgr);
      if target.None? {
        ChangeState(Some(NewIdle()), dice, mgr);
        return;
      }
      var s := state.value;
      state := Some(Strafe(s.timer - dt, s.duration, s.direction));
      StrafeEngage(Strafe(s.timer - dt, s.duration, s.direction), dice, mgr);
    }

    /**
     * A strafing tick with the target in sight, once `cur`'s timer has
     * been counted down: the enemy attacks when its token comes through,
     * and otherwise circles.
     */
    method StrafeEngage(cur: EnemyState, dice: Dice, mgr: EnemyManager.EnemyManager?)
      requires Valid() && ValidDice(dice) && (mgr != null ==> mgr.Valid())
      requires cur.Strafe? && state == Some(cur) && target.Some?
      modifies this`state, this`velocity, this`colliderEnabled, this`hooks, this`attacksInState, Managers(mgr)`attacking
      ensures Valid() && (mgr != null ==> mgr.Valid())
      ensures if StrafeGoes(target, CanAttack(), old(Snap(mgr)).granted) then
          SwitchedTo(old(Snap(mgr)), Snap(mgr), NewAttack(), dice) && (mgr != null ==> mgr.attacking == old(Snap(mgr)).tokens + {id})
        else
          && TokensKept(old(Snap(mgr)), Snap(mgr))
          && if cur.timer <= 0.0 && target.value.dist > 0.8 * cfg.detectionRange then
            SwitchedTo(old(Snap(mgr)), Snap(mgr), NewChase(), dice)
          else
            && Stayed(old(Snap(mgr)), Snap(mgr))
            && velocity == Orbit(cur.direction, RadialCorrection(target.value.dist, cfg.attackRange), 0.8 * cfg.moveSpeed)
            && state == Some(if cur.timer > 0.0 then cur else Strafe(dice.span, cur.duration, -cur.direction))
    {
      var go := StrafeTryAttack(mgr);
      if go {
        ChangeState(Some(NewAttack()), dice, mgr);
      } else {
        StrafeCircle(cur, dice, mgr);
      }
    }

    /** One tick of the flee state (see `ExecuteFlee`). */
    ghost predicate FleeStep(b: Snapshot, a: Snapshot, dt: real, fleeDir: Vec, dice: Dice)
      requires ValidDice(dice)
    {
      && b.state.Some? && b.state.value.Flee?
      && TokensKept(b, a) && a.destroyRequests == b.destroyRequests
      && (b.state.value.fleeTimer - dt <= 0.0 ==> SwitchedTo(b, a, NewIdle(), dice))
      && (b.state.value.fleeTimer - dt > 0.0 ==>
            && a.state == Some(Flee(b.state.value.fleeTimer - dt)) && Stayed(b, a)
            && a.velocity == Heading(fleeDir, cfg.moveSpeed * 1.5))
    }

    /**
     * `EnemyFleeState.Execute`. The flee timer counts down whatever the
     * target does; when it runs out the enemy goes to Idle without moving
     * that tick, and until then it runs along the flee direction at 1.5
     * times its speed.
     */
    method ExecuteFlee(dt: real, fleeDir: Vec, dice: Dice, mgr: EnemyManager.EnemyManager?)
      requires Valid() && ValidDice(dice) && (mgr != null ==> mgr.Valid())
      requires state.Some? && state.value.Flee?
      modifies this`state, this`velocity, this`colliderEnabled, this`hooks, this`attacksInState, Managers(mgr)`attacking
      ensures Valid() && (mgr != null ==> mgr.Valid())
      ensures FleeStep(old(Snap(mgr)), Snap(mgr), dt, fleeDir, dice)
    {
      var timer := state.value.fleeTimer - dt;
      state := Some(Flee(timer));
      if timer <= 0.0 {
        ChangeState(Some(NewIdle()), dice, mgr);
        return;
      }
      velocity := Heading(fleeDir, cfg.moveSpeed * 1.5);
    }

    /**
     * `EnemyDeathState.Execute`. The death timer counts down and, on every
     * tick once it has run out, the enemy's destruction is requested. It
     * never leaves the death state.
     */
    method ExecuteDeath(dt: real)
      requires Valid() && state.Some? && state.value.Death?
      modifies this`state, this`destroyRequests
      ensures Valid()
      ensures state == Some(Death(old(state).value.deathTimer - dt))
      ensures destroyRequests == old(destroyRequests) + (if old(state).value.deathTimer - dt <= 0.0 then 1 else 0)
    {
      var timer := state.value.deathTimer - dt;
      state := Some(Death(timer));
      if timer <= 0.0 {
        destroyRequests := destroyRequests + 1;
      }
    }

    /**
     * One tick of whatever state `b` held, ending in `a`: nothing at all
     * without a state; a death state counts down and requests destruction
     * once its time is up, changing nothing else; every other state takes
     * its own step. `timer` is the attack cooldown as the strafe state
     * sees it when it decides whether to attack.
     */
    ghost predicate Ticked(b: Snapshot, a: Snapshot, timer: real, dt: real, fleeDir: Vec, dice: Dice, mgr: EnemyManager.EnemyManager?)
      requires ValidDice(dice)
    {
      match b.state
      case None => a.state == None && a.velocity == b.velocity && Stayed(b, a) && TokensKept(b, a)
      case Some(s) =>
        match s
        case Idle(_, _, _) => IdleStep(b, a, dt, dice)
        case Patrol(_, _, _, _, _, _, _) => PatrolStep(b, a, dt, dice)
        case Chase(_, _) => ChaseStep(b, a, dt, dice)
        case Attack(_, _) => AttackStep(b, a, dt, dice, mgr)
        case Strafe(_, _, _) => StrafeStep(b, a, timer, dt, dice, mgr)
        case Flee(_) => FleeStep(b, a, dt, fleeDir, dice)
        case Death(t) =>
          && a.state == Some(Death(t - dt))
          && a.destroyRequests == b.destroyRequests + (if t - dt <= 0.0 then 1 else 0)
          && a.velocity == b.velocity && a.hooks == b.hooks && a.colliderEnabled == b.colliderEnabled
          && a.attacksInState == b.attacksInState && TokensKept(b, a)
    }

    /**
     * A tick from `b` ran and left the velocity `v`, and in everything
     * else `a` is what it left. An enemy kind that steers on its own after
     * the shared tick keeps this with the tick's velocity as `v`; one that
     * does not has `a.velocity == v`, and then this is `Ticked(b, a, …)`.
     */
    ghost predicate AfterTick(b: Snapshot, a: Snapshot, v: Motion, timer: real, dt: real, fleeDir: Vec, dice: Dice, mgr: EnemyManager.EnemyManager?)
      requires ValidDice(dice)
    {
      exists t :: t == a.(velocity := v) && Ticked(b, t, timer, dt, fleeDir, dice, mgr)
    }

    /** `_currentState?.Execute(this)`: runs the current state's behaviour for one tick. */
    method ExecuteState(dt: real, fleeDir: Vec, dice: Dice, mgr: EnemyManager.EnemyManager?) returns (called: bool, performed: bool)
      requires Valid() && ValidDice(dice) && (mgr != null ==> mgr.Valid())
      modifies this`state, this`velocity, this`colliderEnabled, this`hooks, this`attacksInState, Managers(mgr)`attacking
      modifies this`attackTimer, this`dealt, this`projectilesFired, this`destroyRequests
      ensures Valid() && (mgr != null ==> mgr.Valid())
      ensures Ticked(old(Snap(mgr)), Snap(mgr), attackTimer, dt, fleeDir, dice, mgr)
      ensures called <==>
        && old(state).Some? && old(state).value.Attack? && target.Some?
        && old(state).value.phase == WindUp && old(state).value.timer - dt <= 0.0
      ensures called ==> AttackDone(performed)
      ensures !called ==> !performed && NoAttackMade()
    {
      ghost var before := Snap(mgr);
      called, performed := false, false;
      if state.None? {
        return;
      }
      match state.value
      case Idle(_, _, _) => ExecuteIdle(dt, dice, mgr);
      case Patrol(_, _, _, _, _, _, _) => ExecutePatrol(dt, dice, mgr);
      case Chase(_, _) => ExecuteChase(dt, dice, mgr);
      case Attack(_, _) => called, performed := ExecuteAttack(dt, dice, mgr);
      case Strafe(_, _, _) => ExecuteStrafe(dt, dice, mgr);
      case Flee(_) => ExecuteFlee(dt, fleeDir, dice, mgr);
      case Death(_) => ExecuteDeath(dt);
    }

    /**
     * `Update`: the cooldown runs down, the target is re-sensed, and the
     * current state runs. `newPos` is where physics has carried the enemy
     * since the last frame; `fleeDir` is the flee direction the AI would
     * give. The results say whether the state called `Attack` and whether
     * that attack went off, which the enemy kinds with their own `Attack`
     * overrides build on.
     */
    method Update(dt: real, newPos: Vec, sensed: Option<TargetView>, fleeDir: Vec, dice: Dice, mgr: EnemyManager.EnemyManager?)
      returns (called: bool, performed: bool)
      requires Valid() && ValidDice(dice) && (mgr != null ==> mgr.Valid())
      modifies this, Managers(mgr)`attacking
      ensures Valid() && (mgr != null ==> mgr.Valid())
      ensures pos == newPos && target == sensed
      ensures !called ==> !performed && dealt == old(dealt) && projectilesFired == old(projectilesFired)
      ensures !performed ==> attackTimer == (if old(attackTimer) > 0.0 then old(attackTimer) - dt else old(attackTimer))
      ensures called <==>
        && old(state).Some? && old(state).value.Attack? && sensed.Some?
        && old(state).value.phase == WindUp && old(state).value.timer - dt <= 0.0
      ensures called ==>
        (performed <==> style != NoAttack && sensed.Some? && (style.Ranged? ==> style.hasPrefab)
                        && (if old(attackTimer) > 0.0 then old(attackTimer) - dt else old(attackTimer)) <= 0.0)
      ensures called ==> dealt == old(dealt) + (if performed && style.Melee? && InMeleeReach() then [MeleeHit()] else [])
      ensures called ==> projectilesFired == old(projectilesFired) + (if performed && style.Ranged? then 1 else 0)
      ensures performed ==> attackTimer == cfg.attackCooldown
      ensures Ticked(old(Snap(mgr)).(pos := newPos, target := sensed), Snap(mgr), attackTimer, dt, fleeDir, dice, mgr)
    {
      ghost var before := Snap(mgr);
      TickCooldown(dt);
      pos := newPos;
      DetectPlayer(sensed);
      assert Snap(mgr) == before.(pos := newPos, target := sensed);
      called, performed := ExecuteState(dt, fleeDir, dice, mgr);
    }
  }
}
