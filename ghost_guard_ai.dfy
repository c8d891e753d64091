/**
 * The ghost guard of the sorrow room: it walks from patrol point to patrol
 * point, sometimes stops to weep at a point, and stands in the player's
 * way for a while whenever the player bumps into it. It never hurts.
 */
module GhostGuard {
  import opened Common
  import ES = EnemyStates

  datatype GuardState = Patrol | Blocking | Weeping

  /** The point after `i` on a closed route of `n` points: the next one, or the first after the last. */
  function NextIndex(i: int, n: int): (j: int)
    requires 0 <= i < n
    ensures j == if i + 1 < n then i + 1 else 0
  {
    (i + 1) % n
  }

  /** The point reached from `i` after `k` arrivals without weeping. */
  function AdvanceBy(i: int, k: nat, n: int): (j: int)
    requires 0 <= i < n
    ensures 0 <= j < n
  {
    if k == 0 then i else NextIndex(AdvanceBy(i, k - 1, n), n)
  }

  /** Within one lap, `k` arrivals take the guard `k` points further round the route, wrapping past the last. */
  lemma {:induction false} AdvanceByWraps(i: int, k: nat, n: int)
    requires 0 <= i < n && k <= n
    ensures AdvanceBy(i, k, n) == if i + k < n then i + k else i + k - n
  {
    if k > 0 {
      AdvanceByWraps(i, k - 1, n);
    }
  }

  /** A full lap of `n` arrivals brings the guard back to the point it started from. */
  lemma FullLapReturns(i: int, n: int)
    requires 0 <= i < n
    ensures AdvanceBy(i, n, n) == i
  {
    AdvanceByWraps(i, n, n);
  }

  class GhostGuardAI {
    const patrolSpeed: real
    const blockDuration: real
    const weepDuration: real
    const weepChance: real
    /** The patrol route; a None entry is a destroyed point. */
    const patrolPoints: seq<Option<Vec>>
    var currentPointIndex: int
    var state: GuardState
    var stateTimer: real
    var velocity: ES.Motion

    /**
     * The route index always names a point of the route (when there is
     * one), and blocking or weeping never lasts longer than it was set to.
     */
    ghost predicate Valid()
      reads this
    {
      && 0 <= currentPointIndex
      && (|patrolPoints| > 0 ==> currentPointIndex < |patrolPoints|)
      && (state == Blocking ==> stateTimer <= blockDuration)
      && (state == Weeping ==> stateTimer <= weepDuration)
    }

    /** A patrolling guard with its serialized settings, heading for the first point. */
    constructor (patrolPoints: seq<Option<Vec>>)
      ensures Valid() && this.patrolPoints == patrolPoints && state == Patrol && currentPointIndex == 0
      ensures patrolSpeed == 1.0 && blockDuration == 3.0 && weepDuration == 2.0 && weepChance == 0.2
    {
      patrolSpeed := 1.0;
      blockDuration := 3.0;
      weepDuration := 2.0;
      weepChance := 0.2;
      this.patrolPoints := patrolPoints;
      currentPointIndex := 0;
      state := Patrol;
      stateTimer := 0.0;
      velocity := ES.Halt;
    }

    /**
     * `Update`, with the guard at `pos` and `roll` the uniform draw that
     * decides weeping. Patrolling without a route it stands still; with a
     * route, a destroyed current point stops it from doing anything; a
     * point strictly within 0.3 counts as reached, and the guard then
     * either starts weeping (when the roll is below the weep chance) or
     * turns to the next point round the route, keeping its current
     * velocity for this frame; otherwise it walks toward the point.
     * Blocking and weeping stand still, count down, and patrol again once
     * the time is up.
     */
    method Update(dt: real, pos: Vec, roll: real)
      requires Valid() && dt >= 0.0
      modifies this`currentPointIndex, this`state, this`stateTimer, this`velocity
      ensures Valid()
      ensures old(state) == Patrol && |patrolPoints| == 0 ==>
        && velocity == ES.Halt && state == Patrol && stateTimer == old(stateTimer)
        && currentPointIndex == old(currentPointIndex)
      ensures old(state) == Patrol && |patrolPoints| > 0 ==>
        var point := patrolPoints[old(currentPointIndex)];
        var arrived := point.Some? && StrictlyWithin(pos, point.value, 0.3);
        && state == (if arrived && roll < weepChance then Weeping else Patrol)
        && stateTimer == (if state == Weeping then weepDuration else old(stateTimer))
        && currentPointIndex == (if arrived && roll >= weepChance then NextIndex(old(currentPointIndex), |patrolPoints|)
                                 else old(currentPointIndex))
        && velocity == (if point.Some? && !arrived then ES.TowardAt(point.value, patrolSpeed) else old(velocity))
      ensures old(state) != Patrol ==>
        && velocity == ES.Halt && stateTimer == old(stateTimer) - dt && currentPointIndex == old(currentPointIndex)
        && state == (if stateTimer <= 0.0 then Patrol else old(state))
    {
      match state
      case Patrol =>
        if |patrolPoints| == 0 {
          velocity := ES.Halt;
          return;
        }
        var point := patrolPoints[currentPointIndex];
        if point.None? {
          return;
        }
        if StrictlyWithin(pos, point.value, 0.3) {
          if roll < weepChance {
            state := Weeping;
            stateTimer := weepDuration;
          } else {
            currentPointIndex := NextIndex(currentPointIndex, |patrolPoints|);
          }
          return;
        }
        velocity := ES.TowardAt(point.value, patrolSpeed);
      case Blocking =>
        velocity := ES.Halt;
        stateTimer := stateTimer - dt;
        if stateTimer <= 0.0 {
          state := Patrol;
        }
      case Weeping =>
        velocity := ES.Halt;
        stateTimer := stateTimer - dt;
        if stateTimer <= 0.0 {
          state := Patrol;
        }
    }

    /** `OnCollisionEnter2D`: the player bumping into the guard makes it block, from any state, for the full time. */
    method OnCollision(isPlayer: bool)
      requires Valid()
      modifies this`state, this`stateTimer
      ensures Valid()
      ensures isPlayer ==> state == Blocking && stateTimer == blockDuration
      ensures !isPlayer ==> state == old(state) && stateTimer == old(stateTimer)
    {
      if isPlayer {
        state := Blocking;
        stateTimer := blockDuration;
      }
    }
  }
}
