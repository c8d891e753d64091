/**
 * The shadow stalker of the fear room: it lurks until the player comes
 * near, then creeps toward the player, vanishes when the player looks at
 * it from close by, and reappears lurking at its spawn point after a
 * delay. Touching the player deals a killing blow and makes it vanish.
 */
module ShadowStalker {
  import opened Common
  import opened DamageInfo
  import ES = EnemyStates

  datatype StalkerState = Lurking | Stalking | Vanishing

  /**
   * What the stalker sees of the player: where it is, how far, the
   * x component of the unit vector from the player to the stalker, and
   * which way the player faces (None when it has no `PlayerController`).
   */
  datatype Sighting = Sighting(pos: Vec, dist: real, towardStalkerX: real, facingRight: Option<bool>)

  /**
   * The player is looking at the stalker when it faces right and the
   * stalker lies to its right (x component above 0.3), or faces left and
   * the stalker lies to its left (below -0.3).
   */
  predicate PlayerFacing(p: Sighting)
    ensures PlayerFacing(p) ==> p.facingRight.Some? && (p.facingRight.value <==> p.towardStalkerX > 0.0)
    ensures -0.3 <= p.towardStalkerX <= 0.3 ==> !PlayerFacing(p)
  {
    p.facingRight.Some? &&
    ((p.facingRight.value && p.towardStalkerX > 0.3) || (!p.facingRight.value && p.towardStalkerX < -0.3))
  }

  class ShadowStalkerAI {
    const id: ObjId
    const detectionRange: real
    const stalkSpeed: real
    const vanishDistance: real
    const respawnDelay: real
    const attackDamage: real
    const spawnPosition: Vec
    var state: StalkerState
    var pos: Vec
    var velocity: ES.Motion
    var respawnTimer: real
    /** The blows dealt to the player, in order. */
    var hits: seq<DamageInfo>

    /**
     * A lurking or vanished stalker stands still, and the respawn delay
     * never runs longer than it was set to.
     */
    ghost predicate Valid()
      reads this
    {
      && (state == Lurking || state == Vanishing ==> velocity == ES.Halt)
      && (state == Vanishing ==> respawnTimer <= respawnDelay)
    }

    /** `Start`: the spawn point is where it stands, and it enters Lurking (standing still). */
    constructor (id: ObjId, pos: Vec)
      ensures Valid() && this.id == id && this.pos == pos && spawnPosition == pos
      ensures state == Lurking && velocity == ES.Halt && hits == []
      ensures detectionRange == 8.0 && stalkSpeed == 2.0 && vanishDistance == 2.0
      ensures respawnDelay == 3.0 && attackDamage == 999.0
    {
      this.id := id;
      detectionRange := 8.0;
      stalkSpeed := 2.0;
      vanishDistance := 2.0;
      respawnDelay := 3.0;
      attackDamage := 999.0;
      spawnPosition := pos;
      this.pos := pos;
      state := Lurking;
      velocity := ES.Halt;
      respawnTimer := 0.0;
      hits := [];
    }

    /** `EnterState(Vanishing)`: stopped, with the respawn delay running from the start. */
    method Vanish()
      requires Valid()
      modifies this`state, this`velocity, this`respawnTimer
      ensures Valid()
      ensures state == Vanishing && velocity == ES.Halt && respawnTimer == respawnDelay
    {
      state := Vanishing;
      velocity := ES.Halt;
      respawnTimer := respawnDelay;
    }

    /**
     * `Update`, with the stalker at `newPos` and the player as seen this
     * frame (None when there is no player). Lurking, a player strictly
     * within detection range starts the stalk. Stalking, a player looking
     * at it from strictly within twice the vanish distance makes it
     * vanish; otherwise it creeps toward the player. Vanished, it counts
     * down and, once the delay is over, is put back at its spawn point,
     * lurking.
     */
    method Update(dt: real, newPos: Vec, player: Option<Sighting>)
      requires Valid() && dt >= 0.0
      modifies this`state, this`pos, this`velocity, this`respawnTimer
      ensures Valid()
      ensures player.None? ==> state == old(state) && velocity == old(velocity) && respawnTimer == old(respawnTimer) && pos == newPos
      ensures player.Some? && old(state) == Lurking ==>
        pos == newPos && velocity == ES.Halt && (state == Stalking <==> player.value.dist < detectionRange) && state != Vanishing
      ensures player.Some? && old(state) == Stalking ==>
        var vanishes := PlayerFacing(player.value) && player.value.dist < vanishDistance * 2.0;
        && pos == newPos && state == (if vanishes then Vanishing else Stalking)
        && (vanishes ==> respawnTimer == respawnDelay && velocity == ES.Halt)
        && (!vanishes ==> velocity == ES.TowardAt(player.value.pos, stalkSpeed))
      ensures player.Some? && old(state) == Vanishing ==>
        var due := old(respawnTimer) - dt <= 0.0;
        && respawnTimer == old(respawnTimer) - dt
        && state == (if due then Lurking else Vanishing)
        && pos == (if due then spawnPosition else newPos)
    {
      pos := newPos;
      if player.None? {
        return;
      }
      match state
      case Lurking =>
        if player.value.dist < detectionRange {
          state := Stalking;
        }
      case Stalking =>
        if PlayerFacing(player.value) && player.value.dist < vanishDistance * 2.0 {
          Vanish();
          return;
        }
        velocity := ES.TowardAt(player.value.pos, stalkSpeed);
      case Vanishing =>
        respawnTimer := respawnTimer - dt;
        if respawnTimer <= 0.0 {
          pos := spawnPosition;
          state := Lurking;
          velocity := ES.Halt;
        }
    }

    /**
     * `OnCollisionEnter2D`: touching the player hits it (when it has
     * health) with the stalker's damage and makes the stalker vanish, from
     * any state and restarting the delay; anything else is ignored.
     */
    method OnCollision(isPlayer: bool, playerHasHealth: bool)
      requires Valid()
      modifies this`hits, this`state, this`velocity, this`respawnTimer
      ensures Valid()
      ensures isPlayer ==>
        && hits == old(hits) + (if playerHasHealth then [NewDamageInfo(attackDamage, Some(id))] else [])
        && state == Vanishing && velocity == ES.Halt && respawnTimer == respawnDelay
      ensures !isPlayer ==>
        hits == old(hits) && state == old(state) && velocity == old(velocity) && respawnTimer == old(respawnTimer)
    {
      if isPlayer {
        if playerHasHealth {
          hits := hits + [NewDamageInfo(attackDamage, Some(id))];
        }
        Vanish();
      }
    }
  }
}
