/**
 * The rage golem of the hate room: it walks back and forth, and when the
 * player comes near it locks the direction to the player, winds up, and
 * charges in a straight line until it bumps into something, which stuns
 * it for a while before it resumes its patrol.
 */
module RageGolem {
  import opened Common
  import opened DamageInfo
  import ES = EnemyStates
  import EB = EnemyBase

  datatype GolemState = Patrol | Charging | Stunned

  /** The blow the golem deals on touching the player: 30 from the golem, knocked back 15 units along its charge direction. */
  function GolemHit(damage: real, self: ObjId, chargeDirection: Vec): (hit: DamageInfo)
    ensures hit.amount == damage && hit.source == Some(self) && hit.kind == Physical
    ensures hit.knockbackForce == Scale(chargeDirection, 15.0) && hit.hitPoint == Zero
  {
    WithKnockback(NewDamageInfo(damage, Some(self)), Scale(chargeDirection, 15.0))
  }

  class RageGolemAI {
    const id: ObjId
    const patrolSpeed: real
    const chargeSpeed: real
    const detectionRange: real
    const chargeWindup: real
    const stunDuration: real
    const attackDamage: real
    const patrolDistance: real
    /** The serialized patrol direction the golem starts with. */
    const initialDirection: Vec
    var state: GolemState
    var pos: Vec
    var velocity: ES.Motion
    var patrolDirection: Vec
    var startPosition: Vec
    var chargeDirection: Vec
    var stateTimer: real
    var chargeReady: bool
    /** The blows dealt to the player, in order. */
    var hits: seq<DamageInfo>
    /** How many cracked walls and broken furniture the golem has smashed. */
    var smashed: nat

    /**
     * The golem only ever walks along its initial direction or against it;
     * a winding-up charge and a stun never last longer than they were set to.
     */
    ghost predicate Valid()
      reads this
    {
      && (patrolDirection == initialDirection || patrolDirection == Scale(initialDirection, -1.0))
      && (state == Charging && !chargeReady ==> stateTimer <= chargeWindup)
      && (state == Stunned ==> stateTimer <= stunDuration)
    }

    /** `Start`: the golem patrols to the right from where it stands, with its serialized settings. */
    constructor (id: ObjId, pos: Vec)
      ensures Valid() && this.id == id && this.pos == pos && startPosition == pos
      ensures state == Patrol && patrolDirection == initialDirection && initialDirection == Vec(1.0, 0.0)
      ensures patrolSpeed == 2.0 && chargeSpeed == 12.0 && detectionRange == 6.0 && chargeWindup == 0.5
      ensures stunDuration == 1.5 && attackDamage == 30.0 && patrolDistance == 3.0
      ensures hits == [] && smashed == 0
    {
      this.id := id;
      patrolSpeed := 2.0;
      chargeSpeed := 12.0;
      detectionRange := 6.0;
      chargeWindup := 0.5;
      stunDuration := 1.5;
      attackDamage := 30.0;
      patrolDistance := 3.0;
      initialDirection := Vec(1.0, 0.0);
      state := Patrol;
      this.pos := pos;
      velocity := ES.Halt;
      patrolDirection := Vec(1.0, 0.0);
      startPosition := pos;
      chargeDirection := Zero;
      stateTimer := 0.0;
      chargeReady := false;
      hits := [];
      smashed := 0;
    }

    /** `StartCharge`: charging but not yet ready, the wind-up timer running, stopped, the direction to the player locked. */
    method StartCharge(player: EB.TargetView)
      requires Valid()
      modifies this`state, this`chargeReady, this`stateTimer, this`chargeDirection, this`velocity
      ensures Valid()
      ensures state == Charging && !chargeReady && stateTimer == chargeWindup
      ensures chargeDirection == player.dir && velocity == ES.Halt
    {
      state := Charging;
      chargeReady := false;
      stateTimer := chargeWindup;
      chargeDirection := player.dir;
      velocity := ES.Halt;
    }

    /**
     * `Update`, with the golem at `newPos` and the player as seen this
     * frame (None when there is no player). Patrolling, a player strictly
     * within detection range starts a charge; otherwise, having strayed
     * more than the patrol distance from where this leg began, the golem
     * turns round and starts a new leg here, and walks on. Charging, the
     * wind-up counts down (without moving) until the charge is ready, and
     * a ready golem rushes along the locked direction; only a collision
     * ends a charge. Stunned, the timer counts down and the golem
     * patrols again once it runs out.
     */
    method Update(dt: real, newPos: Vec, player: Option<EB.TargetView>)
      requires Valid() && dt >= 0.0
      modifies this
      ensures Valid()
      ensures pos == newPos && hits == old(hits) && smashed == old(smashed)
      ensures chargeDirection == if player.Some? && old(state) == Patrol && state == Charging then player.value.dir else old(chargeDirection)
      ensures player.None? ==>
        && state == old(state) && stateTimer == old(stateTimer) && velocity == old(velocity)
        && patrolDirection == old(patrolDirection) && startPosition == old(startPosition) && chargeReady == old(chargeReady)
      ensures player.Some? && old(state) == Patrol ==>
        (state == Charging <==> player.value.dist < detectionRange)
      ensures player.Some? && old(state) == Patrol && state == Charging ==>
        && !chargeReady && stateTimer == chargeWindup && velocity == ES.Halt
        && patrolDirection == old(patrolDirection) && startPosition == old(startPosition)
      ensures player.Some? && old(state) == Patrol && state == Patrol ==>
        var turns := !Within(newPos, old(startPosition), patrolDistance);
        && patrolDirection == (if turns then Scale(old(patrolDirection), -1.0) else old(patrolDirection))
        && startPosition == (if turns then newPos else old(startPosition))
        && velocity == ES.Heading(patrolDirection, patrolSpeed)
        && stateTimer == old(stateTimer) && chargeReady == old(chargeReady)
      ensures player.Some? && old(state) == Charging ==>
        && state == Charging && patrolDirection == old(patrolDirection) && startPosition == old(startPosition)
        && (old(chargeReady) ==> chargeReady && stateTimer == old(stateTimer)
                                 && velocity == ES.Heading(chargeDirection, chargeSpeed))
        && (!old(chargeReady) ==> stateTimer == old(stateTimer) - dt && velocity == old(velocity)
                                  && (chargeReady <==> stateTimer <= 0.0))
      ensures player.Some? && old(state) == Stunned ==>
        && stateTimer == old(stateTimer) - dt && (state == Patrol <==> stateTimer <= 0.0) && state != Charging
        && velocity == old(velocity) && chargeReady == old(chargeReady)
        && patrolDirection == old(patrolDirection) && startPosition == old(startPosition)
    {
      pos := newPos;
      if player.None? {
        return;
      }
      match state
      case Patrol =>
        if player.value.dist < detectionRange {
          StartCharge(player.value);
          return;
        }
        if !Within(pos, startPosition, patrolDistance) {
          patrolDirection := Scale(patrolDirection, -1.0);
          startPosition := pos;
        }
        velocity := ES.Heading(patrolDirection, patrolSpeed);
      case Charging =>
        if !chargeReady {
          stateTimer := stateTimer - dt;
          if stateTimer <= 0.0 {
            chargeReady := true;
          }
          return;
        }
        velocity := ES.Heading(chargeDirection, chargeSpeed);
      case Stunned =>
        stateTimer := stateTimer - dt;
        if stateTimer <= 0.0 {
          state := Patrol;
        }
    }

    /**
     * `OnCollisionEnter2D`. A stunned golem ignores every collision.
     * Otherwise touching the player (when it has health) hits it, in any
     * state, and a cracked wall or broken furniture is smashed; and a
     * charging golem, whatever it hit and even while still winding up,
     * is stunned and stops.
     */
    method OnCollision(isPlayer: bool, playerHasHealth: bool, isBreakable: bool)
      requires Valid()
      modifies this`hits, this`smashed, this`state, this`stateTimer, this`velocity
      ensures Valid()
      ensures old(state) == Stunned ==>
        hits == old(hits) && smashed == old(smashed) && state == Stunned && stateTimer == old(stateTimer) && velocity == old(velocity)
      ensures old(state) != Stunned ==>
        && hits == old(hits) + (if isPlayer && playerHasHealth then [GolemHit(attackDamage, id, chargeDirection)] else [])
        && smashed == old(smashed) + (if isBreakable then 1 else 0)
      ensures old(state) == Charging ==> state == Stunned && stateTimer == stunDuration && velocity == ES.Halt
      ensures old(state) == Patrol ==> state == Patrol && stateTimer == old(stateTimer) && velocity == old(velocity)
    {
      if state == Stunned {
        return;
      }
      if isPlayer && playerHasHealth {
        hits := hits + [GolemHit(attackDamage, id, chargeDirection)];
      }
      if isBreakable {
        smashed := smashed + 1;
      }
      if state == Charging {
        state := Stunned;
        stateTimer := stunDuration;
        velocity := ES.Halt;
      }
    }
  }
}
