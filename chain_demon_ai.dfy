/**
 * The chain demon of the guilt room: it waits until the player comes
 * within grabbing range, grabs, drags the player toward itself for a while
 * (unless the player is heavy enough to resist), lets go, and after a
 * cooldown waits again. It has no health and never leaves this cycle.
 */
module ChainDemon {
  import opened Common

  datatype DemonState = Waiting | Grabbing | Dragging | Releasing

  /** The state each state hands over to. */
  function Next(s: DemonState): DemonState
  {
    match s
    case Waiting => Grabbing
    case Grabbing => Dragging
    case Dragging => Releasing
    case Releasing => Waiting
  }

  /** The i-th state of the cycle that starts with Waiting. */
  function CycleAt(i: nat): (s: DemonState)
    ensures s == Waiting <==> i % 4 == 0
  {
    [Waiting, Grabbing, Dragging, Releasing][i % 4]
  }

  /** Every state entered is the successor of the one before it. */
  ghost predicate FollowsCycle(h: seq<DemonState>)
  {
    forall i :: 0 < i < |h| ==> h[i] == Next(h[i - 1])
  }

  lemma NextOfCycle(i: nat)
    ensures Next(CycleAt(i)) == CycleAt(i + 1)
  {
    var k := i % 4;
    assert (i + 1) % 4 == (k + 1) % 4;
  }

  /**
   * A run of states that starts waiting and follows the cycle is the
   * cycle itself: Waiting, Grabbing, Dragging, Releasing, Waiting, ...
   */
  lemma {:induction false} CycleFromWaiting(h: seq<DemonState>)
    requires |h| > 0 && h[0] == Waiting && FollowsCycle(h)
    ensures forall i :: 0 <= i < |h| ==> h[i] == CycleAt(i)
    decreases |h|
  {
    if |h| > 1 {
      var h' := h[..|h| - 1];
      assert FollowsCycle(h') by {
        forall i | 0 < i < |h'| ensures h'[i] == Next(h'[i - 1]) { assert h'[i] == h[i] && h'[i - 1] == h[i - 1]; }
      }
      CycleFromWaiting(h');
      NextOfCycle(|h| - 2);
      forall i | 0 <= i < |h| ensures h[i] == CycleAt(i) {
        if i < |h| - 1 { assert h[i] == h'[i]; }
      }
    }
  }

  /** What the demon sees of the player: the distance, and the mass of its rigidbody (None without one). */
  datatype Grip = Grip(dist: real, mass: Option<real>)

  class ChainDemonAI {
    const grabRange: real
    const dragForce: real
    const grabDuration: real
    const dragDuration: real
    const releaseCooldown: real
    const massThreshold: real
    var state: DemonState
    var stateTimer: real
    /** Whether the chain is drawn. */
    var chainVisible: bool
    /** How many times a drag force has been applied to the player. */
    var pulls: nat
    /** The states entered so far, the initial Waiting first. */
    ghost var visited: seq<DemonState>

    /**
     * The demon has only ever moved along the cycle; the chain shows
     * exactly while grabbing or dragging; and a running timer never
     * exceeds the duration it was started with.
     */
    ghost predicate Valid()
      reads this
    {
      && |visited| > 0 && visited[0] == Waiting && FollowsCycle(visited) && visited[|visited| - 1] == state
      && chainVisible == (state == Grabbing || state == Dragging)
      && (state == Grabbing ==> stateTimer <= grabDuration)
      && (state == Dragging ==> stateTimer <= dragDuration)
      && (state == Releasing ==> stateTimer <= releaseCooldown)
    }

    /** The demon with its serialized settings, waiting with the chain hidden. */
    constructor ()
      ensures Valid() && state == Waiting && !chainVisible && pulls == 0
      ensures grabRange == 5.0 && dragForce == 8.0 && grabDuration == 0.5 && dragDuration == 2.0
      ensures releaseCooldown == 3.0 && massThreshold == 500.0
    {
      grabRange := 5.0;
      dragForce := 8.0;
      grabDuration := 0.5;
      dragDuration := 2.0;
      releaseCooldown := 3.0;
      massThreshold := 500.0;
      state := Waiting;
      stateTimer := 0.0;
      chainVisible := false;
      pulls := 0;
      visited := [Waiting];
    }

    /** The timer a state starts with; entering Waiting leaves the timer as it was. */
    function TimerOnEnter(s: DemonState, timer: real): real
    {
      match s
      case Waiting => timer
      case Grabbing => grabDuration
      case Dragging => dragDuration
      case Releasing => releaseCooldown
    }

    /** `EnterState`: the successor state becomes current, with its timer, and the chain shown or hidden. */
    method EnterNext()
      requires Valid()
      modifies this`state, this`stateTimer, this`chainVisible, this`visited
      ensures Valid()
      ensures state == Next(old(state)) && stateTimer == TimerOnEnter(state, old(stateTimer))
    {
      var next := Next(state);
      state := next;
      match next {
        case Waiting => chainVisible := false;
        case Grabbing => stateTimer := grabDuration; chainVisible := true;
        case Dragging => stateTimer := dragDuration;
        case Releasing => stateTimer := releaseCooldown; chainVisible := false;
      }
      visited := visited + [next];
    }

    /**
     * `Update`. Without a player nothing happens. Waiting, a player
     * strictly within grabbing range is grabbed. Grabbing, Dragging and
     * Releasing count their timer down; Grabbing turns to Dragging and
     * Releasing to Waiting once it runs out. Dragging lets go at once,
     * without pulling, when the player's mass reaches the threshold;
     * otherwise it pulls the player (if it has a rigidbody) and lets go
     * once the timer runs out. Each frame moves at most one step along
     * the cycle.
     */
    method Update(dt: real, player: Option<Grip>)
      requires Valid() && dt >= 0.0
      modifies this`state, this`stateTimer, this`chainVisible, this`visited, this`pulls
      ensures Valid()
      ensures state == old(state) || state == Next(old(state))
      ensures player.None? ==> state == old(state) && stateTimer == old(stateTimer) && pulls == old(pulls)
      ensures player.Some? && old(state) == Waiting ==>
        (state == Grabbing <==> player.value.dist < grabRange)
      ensures player.Some? && old(state) == Grabbing ==>
        (state == Dragging <==> old(stateTimer) - dt <= 0.0)
      ensures player.Some? && old(state) == Dragging ==>
        var resists := player.value.mass.Some? && player.value.mass.value >= massThreshold;
        && (state == Releasing <==> resists || old(stateTimer) - dt <= 0.0)
        && pulls == old(pulls) + (if !resists && player.value.mass.Some? then 1 else 0)
      ensures player.Some? && old(state) == Releasing ==>
        (state == Waiting <==> old(stateTimer) - dt <= 0.0)
      ensures old(state) != Dragging ==> pulls == old(pulls)
      ensures state == old(state) ==>
        stateTimer == (if player.None? || old(state) == Waiting then old(stateTimer) else old(stateTimer) - dt)
      ensures state != old(state) ==> stateTimer == TimerOnEnter(state, old(stateTimer) - (if old(state) == Waiting then 0.0 else dt))
    {
      if player.None? {
        return;
      }
      match state
      case Waiting =>
        if player.value.dist < grabRange {
          EnterNext();
        }
      case Grabbing =>
        stateTimer := stateTimer - dt;
        if stateTimer <= 0.0 {
          EnterNext();
        }
      case Dragging =>
        stateTimer := stateTimer - dt;
        if player.value.mass.Some? && player.value.mass.value >= massThreshold {
          EnterNext();
          return;
        }
        if player.value.mass.Some? {
          pulls := pulls + 1;
        }
        if stateTimer <= 0.0 {
          EnterNext();
        }
      case Releasing =>
        stateTimer := stateTimer - dt;
        if stateTimer <= 0.0 {
          EnterNext();
        }
    }
  }
}
