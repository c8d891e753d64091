/**
 * The registry of live enemies and the arbiter that limits how many of
 * them may hold an attack token at the same time.
 */
module EnemyManager {
  import opened Common

  /** `s` without the destroyed objects, in the original order (the effect of `RemoveAll(e => e == null)`). */
  function Survivors(s: seq<ObjId>, dead: set<ObjId>): (r: seq<ObjId>)
    ensures forall x :: x in r <==> x in s && x !in dead
    ensures |r| <= |s|
  {
    if s == [] then []
    else Survivors(s[..|s| - 1], dead) + (if s[|s| - 1] in dead then [] else [s[|s| - 1]])
  }

  /** Pruning distributes over concatenation: the survivors keep their relative order. */
  lemma {:induction false} SurvivorsKeepOrder(s: seq<ObjId>, t: seq<ObjId>, dead: set<ObjId>)
    ensures Survivors(s + t, dead) == Survivors(s, dead) + Survivors(t, dead)
    decreases |t|
  {
    if t == [] {
      assert s + t == s;
    } else {
      var t' := t[..|t| - 1];
      assert (s + t)[..|s + t| - 1] == s + t';
      SurvivorsKeepOrder(s, t', dead);
    }
  }

  /** When nothing in the list was destroyed, pruning leaves it exactly as it was. */
  lemma {:induction false} SurvivorsUntouched(s: seq<ObjId>, dead: set<ObjId>)
    requires forall x :: x in s ==> x !in dead
    ensures Survivors(s, dead) == s
    decreases |s|
  {
    if s != [] {
      SurvivorsUntouched(s[..|s| - 1], dead);
    }
  }

  /** Pruning a list without duplicates leaves a list without duplicates. */
  lemma {:induction false} SurvivorsNoDuplicates(s: seq<ObjId>, dead: set<ObjId>)
    requires NoDuplicates(s)
    ensures NoDuplicates(Survivors(s, dead))
    decreases |s|
  {
    if s != [] {
      SurvivorsNoDuplicates(s[..|s| - 1], dead);
    }
  }

  /**
   * `List.Remove`: drops the first occurrence of `e`, if any. In a list
   * without duplicates that removes `e` altogether and nothing else.
   */
  function RemoveFirst(s: seq<ObjId>, e: ObjId): (r: seq<ObjId>)
    ensures e !in s ==> r == s
    ensures forall x :: x in r ==> x in s
    ensures forall x :: x in s && x != e ==> x in r
    ensures NoDuplicates(s) ==> NoDuplicates(r) && e !in r
  {
    if s == [] then []
    else if s[0] == e then s[1..]
    else
      var rest := RemoveFirst(s[1..], e);
      assert NoDuplicates(s) ==> s[0] !in s[1..] && NoDuplicates(s[1..]) by {
        if NoDuplicates(s) {
          forall j | 0 <= j < |s[1..]| ensures s[1..][j] != s[0] { assert s[j + 1] != s[0]; }
        }
      }
      [s[0]] + rest
  }

  /**
   * The enemies that push `subject` away: registered, not `subject`, not
   * destroyed, and strictly within `radius` of it, in registry order.
   */
  function Neighbours(s: seq<ObjId>, subject: ObjId, dead: set<ObjId>, positionOf: ObjId -> Vec, radius: real): (r: seq<ObjId>)
    ensures forall x :: x in r <==> x in s && x != subject && x !in dead && StrictlyWithin(positionOf(subject), positionOf(x), radius)
  {
    if s == [] then []
    else
      var other := s[|s| - 1];
      Neighbours(s[..|s| - 1], subject, dead, positionOf, radius)
      + (if other != subject && other !in dead && StrictlyWithin(positionOf(subject), positionOf(other), radius) then [other] else [])
  }

  class EnemyManager {
    const maxSimultaneousAttacks: int
    /** The token holders (`_attackingEnemies`). */
    var attacking: set<ObjId>
    /** The registry (`_allEnemies`), in registration order. */
    var allEnemies: seq<ObjId>
    /** The cached player object, None while not found or destroyed. */
    var player: Option<ObjId>

    /**
     * The token cap: never more holders than the maximum (none at all when
     * the maximum is not positive); the registry has no duplicates.
     */
    predicate Valid()
      reads this
    {
      && |attacking| <= (if maxSimultaneousAttacks < 0 then 0 else maxSimultaneousAttacks)
      && NoDuplicates(allEnemies)
    }

    constructor (maxSimultaneousAttacks: int)
      ensures Valid()
      ensures this.maxSimultaneousAttacks == maxSimultaneousAttacks
      ensures attacking == {} && allEnemies == [] && player == None
    {
      this.maxSimultaneousAttacks := maxSimultaneousAttacks;
      attacking := {};
      allEnemies := [];
      player := None;
    }

    /**
     * `Update`: looks the player up while none is cached, and drops the
     * destroyed enemies from both collections; every other entry and the
     * order of the registry are untouched (`SurvivorsKeepOrder`, `SurvivorsUntouched`).
     */
    method Update(dead: set<ObjId>, playerSearch: Option<ObjId>)
      requires Valid()
      modifies this
      ensures Valid()
      ensures player == (if old(player).None? || old(player).value in dead then playerSearch else old(player))
      ensures attacking == old(attacking) - dead
      ensures allEnemies == Survivors(old(allEnemies), dead)
    {
      if player.None? || player.value in dead {
        player := playerSearch;
      }
      attacking := attacking - dead;
      SurvivorsNoDuplicates(allEnemies, dead);
      allEnemies := Survivors(allEnemies, dead);
    }

    /** `RegisterEnemy`: appended once; registering again changes nothing. */
    method RegisterEnemy(enemy: ObjId)
      requires Valid()
      modifies this`allEnemies
      ensures Valid()
      ensures allEnemies == if enemy in old(allEnemies) then old(allEnemies) else old(allEnemies) + [enemy]
    {
      if enemy !in allEnemies {
        allEnemies := allEnemies + [enemy];
      }
    }

    /** `UnregisterEnemy`: leaves the registry and gives up its token. */
    method UnregisterEnemy(enemy: ObjId)
      requires Valid()
      modifies this`allEnemies, this`attacking
      ensures Valid()
      ensures allEnemies == RemoveFirst(old(allEnemies), enemy)
      ensures enemy !in allEnemies && forall x :: x in allEnemies <==> x in old(allEnemies) && x != enemy
      ensures attacking == old(attacking) - {enemy}
    {
      allEnemies := RemoveFirst(allEnemies, enemy);
      ReleaseAttackToken(enemy);
    }

    /** Whether `RequestAttackToken(enemy)` would answer yes now. */
    predicate WouldGrant(enemy: ObjId)
      reads this
    {
      enemy in attacking || |attacking| < maxSimultaneousAttacks
    }

    /**
     * `RequestAttackToken`. A holder keeps its token and is told yes; a
     * newcomer gets a token exactly when fewer than the maximum are held,
     * and a refusal leaves the holders unchanged.
     */
    method RequestAttackToken(enemy: ObjId) returns (granted: bool)
      requires Valid()
      modifies this`attacking
      ensures Valid()
      ensures enemy in old(attacking) ==> granted && attacking == old(attacking)
      ensures enemy !in old(attacking) ==> granted == (|old(attacking)| < maxSimultaneousAttacks)
      ensures attacking == if granted then old(attacking) + {enemy} else old(attacking)
      ensures granted <==> enemy in attacking
      ensures granted == old(WouldGrant(enemy))
    {
      if enemy in attacking {
        return true;
      }
      if |attacking| < maxSimultaneousAttacks {
        attacking := attacking + {enemy};
        return true;
      }
      return false;
    }

    /** `ReleaseAttackToken`: gives a held token back; idempotent, a no-op for a non-holder. */
    method ReleaseAttackToken(enemy: ObjId)
      requires Valid()
      modifies this`attacking
      ensures Valid()
      ensures attacking == old(attacking) - {enemy}
    {
      if enemy in attacking {
        attacking := attacking - {enemy};
      }
    }

    /**
     * `GetSeparationVector`, reduced to the enemies that contribute to it.
     * The vector is zero when the result is empty, which happens exactly
     * when no other live registered enemy is strictly within `radius`
     * (the default radius is 1). The weighted, normalised sum over the
     * result is vector arithmetic and is not modelled.
     */
    method GetSeparationVector(subject: ObjId, dead: set<ObjId>, positionOf: ObjId -> Vec, radius: real := 1.0)
      returns (pushers: seq<ObjId>)
      ensures pushers == Neighbours(allEnemies, subject, dead, positionOf, radius)
      ensures pushers == [] <==>
        forall x :: x in allEnemies && x != subject && x !in dead ==> !StrictlyWithin(positionOf(subject), positionOf(x), radius)
      ensures forall x :: x in pushers ==> x != subject && x !in dead
    {
      pushers := [];
      var i := 0;
      while i < |allEnemies|
        invariant 0 <= i <= |allEnemies|
        invariant pushers == Neighbours(allEnemies[..i], subject, dead, positionOf, radius)
      {
        var other := allEnemies[i];
        assert allEnemies[..i + 1][..i] == allEnemies[..i];
        if other == subject || other in dead {
          // skipped: the subject itself or a destroyed enemy
        } else if StrictlyWithin(positionOf(subject), positionOf(other), radius) {
          pushers := pushers + [other];
        }
        i := i + 1;
      }
      assert allEnemies[..i] == allEnemies;
      if pushers != [] {
        assert pushers[0] in pushers;
      } else {
        forall x | x in allEnemies && x != subject && x !in dead
          ensures !StrictlyWithin(positionOf(subject), positionOf(x), radius)
        {
          assert x !in pushers;
        }
      }
    }
  }
}
