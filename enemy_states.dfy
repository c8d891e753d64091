/**
 * The data of the enemy state objects (idle, patrol, chase, attack,
 * strafe, flee, death), what a freshly constructed state holds, and what
 * entering and leaving each kind of state does. The per-tick behaviour
 * of each state is in module EnemyBase, next to the enemy it drives.
 */
module EnemyStates {
  import opened Common

  datatype AttackPhase = WindUp | Recovery

  /** The fields of each concrete state class. */
  datatype EnemyState =
    | Idle(idleTimer: real, isMoving: bool, wanderTarget: Vec)
    | Patrol(origin: Vec, radius: real, waitTime: real, destination: Vec, waitTimer: real, isWaiting: bool, hasDestination: bool)
    | Chase(reactionTimer: real, isChasing: bool)
    | Attack(phase: AttackPhase, timer: real)
    | Strafe(timer: real, duration: real, direction: int)
    | Flee(fleeTimer: real)
    | Death(deathTimer: real)

  /** Which state class a state object belongs to. */
  datatype StateKind = IdleKind | PatrolKind | ChaseKind | AttackKind | StrafeKind | FleeKind | DeathKind

  function KindOf(s: EnemyState): StateKind
  {
    match s
    case Idle(_, _, _) => IdleKind
    case Patrol(_, _, _, _, _, _, _) => PatrolKind
    case Chase(_, _) => ChaseKind
    case Attack(_, _) => AttackKind
    case Strafe(_, _, _) => StrafeKind
    case Flee(_) => FleeKind
    case Death(_) => DeathKind
  }

  const MIN_IDLE_TIME: real := 1.0
  const MAX_IDLE_TIME: real := 3.0
  const WANDER_RADIUS: real := 3.0
  const REACHED_DISTANCE: real := 0.1
  const PATROL_ARRIVAL_DISTANCE: real := 0.3
  const FLEE_DURATION: real := 3.0
  const DEATH_DELAY: real := 1.0

  /** What `new EnemyXState()` holds before `Enter`: C# zero values and field initialisers. */
  function NewIdle(): EnemyState { Idle(0.0, false, Zero) }
  function NewPatrol(origin: Vec, radius: real, waitTime: real): EnemyState { Patrol(origin, radius, waitTime, Zero, 0.0, false, false) }
  function NewChase(): EnemyState { Chase(0.0, false) }
  function NewAttack(): EnemyState { Attack(WindUp, 0.0) }
  function NewStrafe(): EnemyState { Strafe(0.0, 0.0, 0) }
  function NewFlee(): EnemyState { Flee(0.0) }
  function NewDeath(): EnemyState { Death(DEATH_DELAY) }

  /** How an enemy is being moved: what the last velocity-setting call asked for. */
  datatype Radial = Closer | Hold | BackOff
  datatype Motion =
    | Halt                                        // SetVelocity(Vector2.zero)
    | SmoothToward(goal: Vec)                     // SmoothMoveToward(goal)
    | Toward(goal: Vec)                           // MoveToward(goal)
    | Heading(dir: Vec, speed: real)              // SetVelocity(dir * speed)
    | Orbit(sign: int, radial: Radial, speed: real) // strafing: tangent * sign plus a radial correction
    | Steer(dir: Vec)                             // ApplySteering(dir)
    | TowardAt(goal: Vec, speed: real)            // (goal - position).normalized * speed

  /**
   * The random draws one tick may need, each within the bounds of the
   * Unity call that produces it: `span` from Random.Range(1, 3), `coin`
   * from Random.value > 0.5, `jitter` from Random.Range(-0.5, 0.5),
   * `wander` from Random.insideUnitCircle, `heading` from
   * insideUnitCircle.normalized, and `reach` the fraction of the patrol
   * radius drawn by Random.Range(0.3 r, r).
   */
  datatype Dice = Dice(span: real, coin: bool, jitter: real, wander: Vec, heading: Vec, reach: real)

  predicate ValidDice(d: Dice)
  {
    && MIN_IDLE_TIME <= d.span <= MAX_IDLE_TIME
    && -0.5 <= d.jitter <= 0.5
    && SqrMagnitude(d.wander) <= 1.0
    && SqrMagnitude(d.heading) == 1.0
    && 0.3 <= d.reach <= 1.0
  }

  /** A strafing enemy always circles one way or the other. */
  predicate StateOk(s: EnemyState)
  {
    s.Strafe? ==> s.direction in {1, -1}
  }

  /** The timings an entered state takes from its enemy. */
  datatype Timings = Timings(windUp: real, reactionTime: real)

  /**
   * `Enter` of each state class, on the state's own fields. Entering
   * Attack starts the wind-up; Chase starts the reaction delay; Patrol
   * waits half its wait time without a destination; Idle waits between 1
   * and 3 seconds; Strafe picks a duration between 1 and 3 seconds and a
   * direction of +1 or -1; Flee runs for 3 seconds; Death keeps its timer.
   */
  function Enter(s: EnemyState, t: Timings, dice: Dice): (r: EnemyState)
    requires ValidDice(dice)
    ensures KindOf(r) == KindOf(s) && StateOk(r)
    ensures r.Idle? ==> MIN_IDLE_TIME <= r.idleTimer <= MAX_IDLE_TIME && !r.isMoving
    ensures r.Strafe? ==> r.timer == r.duration && 1.0 <= r.timer <= 3.0
  {
    match s
    case Idle(_, _, w) => Idle(dice.span, false, w)
    case Patrol(o, rad, wait, dest, _, _, _) => Patrol(o, rad, wait, dest, wait * 0.5, true, false)
    case Chase(_, _) => Chase(t.reactionTime, false)
    case Attack(_, _) => Attack(WindUp, t.windUp)
    case Strafe(_, _, _) => Strafe(dice.span, dice.span, if dice.coin then 1 else -1)
    case Flee(_) => Flee(FLEE_DURATION)
    case Death(timer) => Death(timer)
  }

  /** Whether `Enter` of this kind stops the enemy (SetVelocity(zero)). */
  predicate EnterHalts(k: StateKind) { k in {IdleKind, PatrolKind, ChaseKind, AttackKind, DeathKind} }

  /** Whether `Exit` of this kind stops the enemy. */
  predicate ExitHalts(k: StateKind) { k in {IdleKind, PatrolKind, ChaseKind, FleeKind} }

  /** Whether `Exit` of this kind hands the attack token back. Only Attack does. */
  predicate ExitReleasesToken(k: StateKind) { k == AttackKind }

  /**
   * The strafing radial correction. The ideal distance is the attack range
   * plus 1.5 with a tolerance of 0.5 either way: beyond range + 2 the
   * enemy closes in, nearer than range + 1 it backs off, and in between
   * it only circles.
   */
  function RadialCorrection(dist: real, attackRange: real): (r: Radial)
    ensures r == Closer <==> dist > attackRange + 2.0
    ensures r == BackOff <==> dist < attackRange + 1.0
    ensures r == Hold <==> attackRange + 1.0 <= dist <= attackRange + 2.0
  {
    var ideal := attackRange + 1.5;
    if dist > ideal + 0.5 then Closer
    else if dist < ideal - 0.5 then BackOff
    else Hold
  }

  /** An idle enemy wanders to a point at most 3 units from where it stood. */
  lemma WanderTargetWithinRadius(pos: Vec, dice: Dice)
    requires ValidDice(dice)
    ensures Within(Plus(pos, Scale(dice.wander, WANDER_RADIUS)), pos, WANDER_RADIUS)
  {
    var w := dice.wander;
    var p := Plus(pos, Scale(w, WANDER_RADIUS));
    assert p.x - pos.x == w.x * 3.0 && p.y - pos.y == w.y * 3.0;
    calc {
      DistSq(p, pos);
      (w.x * 3.0) * (w.x * 3.0) + (w.y * 3.0) * (w.y * 3.0);
      9.0 * SqrMagnitude(w);
    }
  }

  /**
   * `PickNewDestination`: a point `radius * reach` from the patrol origin
   * (not from where the enemy stands) along the drawn unit heading. For a
   * non-negative radius that distance lies between 0.3 and 1 times the
   * radius, so the point lies in the ring between 0.3 times the radius and
   * the radius around the origin.
   */
  function PatrolDestination(origin: Vec, radius: real, dice: Dice): (d: Vec)
    requires ValidDice(dice)
    ensures radius >= 0.0 ==> 0.09 * (radius * radius) <= DistSq(d, origin) <= radius * radius
    ensures radius >= 0.0 ==> Within(d, origin, radius)
  {
    var d := Plus(origin, Scale(dice.heading, radius * dice.reach));
    PatrolReachWithinRadius(origin, radius, dice);
    d
  }

  /** The patrol destination is exactly `radius * reach` from the origin, which is between 0.3 and 1 times the radius. */
  lemma PatrolReachWithinRadius(origin: Vec, radius: real, dice: Dice)
    requires ValidDice(dice)
    ensures DistSq(Plus(origin, Scale(dice.heading, radius * dice.reach)), origin) == (radius * dice.reach) * (radius * dice.reach)
    ensures radius >= 0.0 ==> 0.3 * radius <= radius * dice.reach <= radius
    ensures radius >= 0.0 ==>
      0.09 * (radius * radius) <= DistSq(Plus(origin, Scale(dice.heading, radius * dice.reach)), origin) <= radius * radius
  {
    var m := radius * dice.reach;
    var h := dice.heading;
    var d := Plus(origin, Scale(h, m));
    assert d.x - origin.x == h.x * m && d.y - origin.y == h.y * m;
    calc {
      DistSq(d, origin);
      (h.x * m) * (h.x * m) + (h.y * m) * (h.y * m);
      (m * m) * SqrMagnitude(h);
      m * m;
    }
    if radius >= 0.0 {
      ScaledBetween(radius, dice.reach, m);
    }
  }

  /** A fraction between 0.3 and 1 of a non-negative radius, and its square, lie between those fractions of the radius and its square. */
  lemma ScaledBetween(radius: real, f: real, m: real)
    requires 0.0 <= radius && 0.3 <= f <= 1.0 && m == radius * f
    ensures 0.3 * radius <= m <= radius
    ensures 0.09 * (radius * radius) <= m * m <= radius * radius
  {
  }
}
