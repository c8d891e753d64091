/**
 * The sword: a melee weapon whose consecutive swings build a combo. Each
 * combo step hits harder, alternate swings sweep the other way, and one
 * swing strikes every damageable collider it passes over at most once.
 */
module Sword {
  import opened Common
  import opened DamageInfo
  import WB = WeaponBase

  /** `Mathf.Pow` for a whole exponent. */
  function Pow(b: real, n: nat): (r: real)
    ensures b >= 1.0 ==> r >= 1.0
    decreases n
  {
    if n == 0 then 1.0 else b * Pow(b, n - 1)
  }

  /** The damage of a swing at combo step `combo` (counted from 1): the base damage times the multiplier once per earlier step. */
  function ComboDamage(damage: real, multiplier: real, combo: int): (r: real)
    requires combo >= 1
    ensures combo == 1 ==> r == damage
    ensures damage >= 0.0 && multiplier >= 1.0 ==> r >= damage
  {
    var p := Pow(multiplier, combo - 1);
    assert damage >= 0.0 && p >= 1.0 ==> damage * p >= damage * 1.0;
    damage * p
  }

  /** With a multiplier of at least one, each combo step hits at least as hard as the one before, and the first hits for the base damage. */
  lemma ComboDamageGrows(damage: real, multiplier: real, combo: int)
    requires combo >= 1 && damage >= 0.0 && multiplier >= 1.0
    ensures ComboDamage(damage, multiplier, 1) == damage
    ensures ComboDamage(damage, multiplier, combo) <= ComboDamage(damage, multiplier, combo + 1)
  {
    var p := Pow(multiplier, combo - 1);
    assert Pow(multiplier, combo) == multiplier * p;
    assert p >= 1.0;
    assert damage * p <= damage * (multiplier * p) by {
      assert multiplier * p >= p;
    }
  }

  /** The angles a swing sweeps from and to: odd combo steps sweep from -arc/2 to +arc/2, even ones the other way. */
  datatype Sweep = Sweep(start: real, end: real)

  function SweepFor(arc: real, combo: int): (s: Sweep)
    requires combo >= 0
    ensures s.end == -s.start
    ensures combo % 2 == 1 ==> s.start == -arc / 2.0
    ensures combo % 2 == 0 ==> s.start == arc / 2.0
  {
    if combo % 2 == 0 then Sweep(arc / 2.0, -arc / 2.0) else Sweep(-arc / 2.0, arc / 2.0)
  }

  /** Consecutive combo steps sweep in opposite directions. */
  lemma SweepsAlternate(arc: real, combo: nat)
    ensures SweepFor(arc, combo + 1) == Sweep(SweepFor(arc, combo).end, SweepFor(arc, combo).start)
  {
  }

  /**
   * A collider the swing overlaps on one frame: its identity, whether it
   * belongs to the wielder, whether it is damageable, the unit direction
   * from the wielder to it and its closest point to the attack point.
   */
  datatype Collider = Collider(id: ObjId, isOwn: bool, damageable: bool, away: Vec, closest: Vec)

  /** A hit the sword dealt: the collider struck and the damage record it received. */
  datatype Strike = Strike(target: ObjId, info: DamageInfo)

  /** The identities of a list of colliders. */
  function Ids(cs: seq<Collider>): set<ObjId>
    decreases |cs|
  {
    if cs == [] then {} else {cs[0].id} + Ids(cs[1..])
  }

  /**
   * The colliders one frame's overlap strikes, in order, when `already`
   * have been struck earlier in the swing: those not yet struck, not the
   * wielder's own, and damageable (see `StruckOnce`).
   */
  function Struck(already: set<ObjId>, hits: seq<Collider>): seq<Collider>
    decreases |hits|
  {
    if hits == [] then []
    else
      var c := hits[0];
      if c.id in already || c.isOwn || !c.damageable then Struck(already, hits[1..])
      else [c] + Struck(already + {c.id}, hits[1..])
  }

  /** Every collider in `r` is one of `hits`, eligible, and not struck before. */
  predicate AllEligible(already: set<ObjId>, hits: seq<Collider>, r: seq<Collider>)
  {
    forall i :: 0 <= i < |r| ==> r[i] in hits && r[i].damageable && !r[i].isOwn && r[i].id !in already
  }

  /** No two colliders in `r` share an identity. */
  predicate DistinctIds(r: seq<Collider>)
  {
    forall i, j :: 0 <= i < j < |r| ==> r[i].id != r[j].id
  }

  /**
   * One frame of a swing strikes only eligible colliders that were not
   * struck earlier in the swing, never the same collider twice, and every
   * eligible collider it overlaps ends up struck.
   */
  lemma {:induction false} StruckOnce(already: set<ObjId>, hits: seq<Collider>)
    ensures AllEligible(already, hits, Struck(already, hits))
    ensures DistinctIds(Struck(already, hits))
    ensures forall c :: c in hits && c.damageable && !c.isOwn ==> c.id in already + Ids(Struck(already, hits))
    decreases |hits|
  {
    if hits != [] {
      var c := hits[0];
      var tail := hits[1..];
      assert forall d :: d in tail ==> d in hits;
      assert forall d :: d in hits && d != c ==> d in tail;
      if c.id in already || c.isOwn || !c.damageable {
        assert Struck(already, hits) == Struck(already, tail);
        StruckOnce(already, tail);
      } else {
        var rest := Struck(already + {c.id}, tail);
        StruckOnce(already + {c.id}, tail);
        var r := [c] + rest;
        assert Struck(already, hits) == r;
        assert r[1..] == rest;
        assert Ids(r) == {c.id} + Ids(rest);
        assert forall i :: 0 < i < |r| ==> r[i] == rest[i - 1];
        assert AllEligible(already, hits, r);
        forall i, j | 0 <= i < j < |r| ensures r[i].id != r[j].id
        {
          assert r[j] == rest[j - 1];
          if i > 0 { assert r[i] == rest[i - 1]; }
        }
      }
    }
  }

  lemma {:induction false} IdsHasAll(cs: seq<Collider>)
    ensures forall i :: 0 <= i < |cs| ==> cs[i].id in Ids(cs)
    decreases |cs|
  {
    if cs != [] {
      IdsHasAll(cs[1..]);
      assert forall i :: 0 < i < |cs| ==> cs[i] == cs[1..][i - 1];
    }
  }

  /**
   * The colliders a whole swing strikes, frame by frame: each frame's
   * overlap is struck against everything struck on the frames before,
   * as `Attack` and each later `SwingFrame` do with `hitTargets`.
   */
  function SwingStruck(already: set<ObjId>, frames: seq<seq<Collider>>): seq<Collider>
    decreases |frames|
  {
    if frames == [] then []
    else
      var r := Struck(already, frames[0]);
      r + SwingStruck(already + Ids(r), frames[1..])
  }

  /**
   * However many frames a swing lasts, it strikes no collider twice and
   * none that was struck before it began: each collider is damaged at
   * most once per swing.
   */
  lemma {:induction false} SwingStrikesOnce(already: set<ObjId>, frames: seq<seq<Collider>>)
    ensures DistinctIds(SwingStruck(already, frames))
    ensures forall i :: 0 <= i < |SwingStruck(already, frames)| ==> SwingStruck(already, frames)[i].id !in already
    decreases |frames|
  {
    if frames != [] {
      var r := Struck(already, frames[0]);
      var rest := SwingStruck(already + Ids(r), frames[1..]);
      StruckOnce(already, frames[0]);
      IdsHasAll(r);
      SwingStrikesOnce(already + Ids(r), frames[1..]);
      var all := r + rest;
      assert SwingStruck(already, frames) == all;
      forall i, j | 0 <= i < j < |all| ensures all[i].id != all[j].id
      {
        if j < |r| {
          assert all[i] == r[i] && all[j] == r[j];
        } else if i < |r| {
          assert all[i] == r[i] && all[j] == rest[j - |r|];
        } else {
          assert all[i] == rest[i - |r|] && all[j] == rest[j - |r|];
        }
      }
      forall i | 0 <= i < |all| ensures all[i].id !in already
      {
        if i < |r| { assert all[i] == r[i]; } else { assert all[i] == rest[i - |r|]; }
      }
    }
  }

  /** The damage records for the struck colliders, in order. */
  function Blows(cs: seq<Collider>, amount: real, wielder: ObjId, knockback: real): seq<Strike>
    decreases |cs|
  {
    if cs == [] then []
    else
      var c := cs[0];
      [Strike(c.id, WithHitPoint(WithKnockback(NewDamageInfo(amount, Some(wielder), Physical), Scale(c.away, knockback)), c.closest))]
      + Blows(cs[1..], amount, wielder, knockback)
  }

  class SwordWeapon {
    const weapon: WB.WeaponBase
    /** The wielder's game object. */
    const wielder: ObjId
    const attackSpeed: real
    const swingArc: real
    const swingDuration: real
    const comboMaxHits: int
    const comboWindowTime: real
    const comboDamageMultiplier: real
    var currentCombo: int
    var comboTimer: real
    var isSwinging: bool
    /** The running swing: time into it, its damage, its sweep, and the colliders it has struck. */
    var swingElapsed: real
    var swingDamage: real
    var swingSweep: Sweep
    var hitTargets: set<ObjId>
    /** Every hit dealt, in order. */
    var strikes: seq<Strike>

    /** The combo counter stays between 0 and the maximum (at least one); the attack speed divides the cooldown. */
    predicate Valid()
      reads this
    {
      && comboMaxHits >= 1 && attackSpeed > 0.0
      && 0 <= currentCombo <= comboMaxHits
    }

    /** The sword with the stats it sets in `Awake` (damage 12, cooldown 0.35, speed 1.2, range 1.5, knockback 3) and its serialized swing settings. */
    constructor (wielder: ObjId)
      ensures this.wielder == wielder && Valid()
      ensures weapon.damage == 12.0 && weapon.attackCooldown == 0.35 && weapon.range == 1.5 && weapon.knockbackForce == 3.0
      ensures attackSpeed == 1.2 && swingArc == 120.0 && swingDuration == 0.2
      ensures comboMaxHits == 3 && comboWindowTime == 0.5 && comboDamageMultiplier == 1.2
      ensures currentCombo == 0 && comboTimer == 0.0 && !isSwinging && strikes == []
      ensures weapon.CanAttack()
    {
      this.wielder := wielder;
      weapon := new WB.WeaponBase.WithStats(12.0, 0.35, 1.5, 3.0);
      attackSpeed := 1.2;
      swingArc := 120.0;
      swingDuration := 0.2;
      comboMaxHits := 3;
      comboWindowTime := 0.5;
      comboDamageMultiplier := 1.2;
      currentCombo := 0;
      comboTimer := 0.0;
      isSwinging := false;
      swingElapsed := 0.0;
      swingDamage := 0.0;
      swingSweep := Sweep(0.0, 0.0);
      hitTargets := {};
      strikes := [];
    }

    /**
     * `Update`: the weapon cooldown runs down; so does the combo window
     * while it is open, and the combo is lost when the window closes.
     */
    method Update(dt: real)
      requires Valid()
      modifies weapon`cooldownTimer, this`comboTimer, this`currentCombo
      ensures Valid()
      ensures weapon.cooldownTimer == WB.Tick(old(weapon.cooldownTimer), dt)
      ensures comboTimer == WB.Tick(old(comboTimer), dt)
      ensures currentCombo == if old(comboTimer) > 0.0 && comboTimer <= 0.0 then 0 else old(currentCombo)
    {
      weapon.Update(dt);
      if comboTimer > 0.0 {
        comboTimer := comboTimer - dt;
        if comboTimer <= 0.0 {
          currentCombo := 0;
        }
      }
    }

    /**
     * `Attack`: refused while the cooldown runs or a swing is under way.
     * Otherwise the combo advances (capped at the maximum), the combo
     * window reopens, a swing starts with the combo step's damage and
     * sweep and runs its first frame over `hits` at once, and the cooldown
     * becomes the attack cooldown divided by the attack speed.
     */
    method Attack(dt: real, hits: seq<Collider>) returns (success: bool)
      requires Valid()
      modifies this, weapon`cooldownTimer
      ensures Valid()
      ensures success <==> old(weapon.CanAttack()) && !old(isSwinging)
      ensures !success ==>
        && weapon.cooldownTimer == old(weapon.cooldownTimer) && currentCombo == old(currentCombo)
        && comboTimer == old(comboTimer) && isSwinging == old(isSwinging) && strikes == old(strikes)
        && hitTargets == old(hitTargets) && swingElapsed == old(swingElapsed)
        && swingDamage == old(swingDamage) && swingSweep == old(swingSweep)
      ensures success ==>
        && isSwinging && swingElapsed == dt
        && currentCombo == (if old(currentCombo) + 1 <= comboMaxHits then old(currentCombo) + 1 else comboMaxHits)
        && comboTimer == comboWindowTime
        && weapon.cooldownTimer == weapon.attackCooldown / attackSpeed
        && swingDamage == ComboDamage(weapon.damage, comboDamageMultiplier, currentCombo)
        && swingSweep == SweepFor(swingArc, currentCombo)
        && hitTargets == Ids(Struck({}, hits))
        && strikes == old(strikes) + Blows(Struck({}, hits), swingDamage, wielder, weapon.knockbackForce)
    {
      if !weapon.CanAttack() || isSwinging {
        return false;
      }
      currentCombo := if currentCombo + 1 <= comboMaxHits then currentCombo + 1 else comboMaxHits;
      comboTimer := comboWindowTime;
      isSwinging := true;
      swingElapsed := 0.0;
      swingDamage := ComboDamage(weapon.damage, comboDamageMultiplier, currentCombo);
      swingSweep := SweepFor(swingArc, currentCombo);
      hitTargets := {};
      StrikeAll(hits);
      swingElapsed := swingElapsed + dt;
      weapon.cooldownTimer := weapon.attackCooldown / attackSpeed;
      return true;
    }

    /**
     * One later frame of the swing (`PerformSwing` resumed): while the swing
     * time is not used up, the frame's overlap is struck and the time
     * advances; once it is, the swing ends and nothing is struck.
     */
    method SwingFrame(dt: real, hits: seq<Collider>)
      requires isSwinging
      modifies this`swingElapsed, this`isSwinging, this`hitTargets, this`strikes
      ensures old(swingElapsed) < swingDuration ==>
        && isSwinging && swingElapsed == old(swingElapsed) + dt
        && hitTargets == old(hitTargets) + Ids(Struck(old(hitTargets), hits))
        && strikes == old(strikes) + Blows(Struck(old(hitTargets), hits), swingDamage, wielder, weapon.knockbackForce)
      ensures old(swingElapsed) >= swingDuration ==>
        !isSwinging && swingElapsed == old(swingElapsed) && hitTargets == old(hitTargets) && strikes == old(strikes)
    {
      if swingElapsed < swingDuration {
        StrikeAll(hits);
        swingElapsed := swingElapsed + dt;
      } else {
        isSwinging := false;
      }
    }

    /**
     * The inner loop of a swing frame: every overlapping collider not yet
     * struck this swing, not the wielder's own and damageable is struck
     * with the swing's damage and remembered, so it is not struck again.
     */
    method StrikeAll(hits: seq<Collider>)
      modifies this`hitTargets, this`strikes
      ensures hitTargets == old(hitTargets) + Ids(Struck(old(hitTargets), hits))
      ensures strikes == old(strikes) + Blows(Struck(old(hitTargets), hits), swingDamage, wielder, weapon.knockbackForce)
    {
      var i := 0;
      while i < |hits|
        invariant 0 <= i <= |hits|
        invariant hitTargets + Ids(Struck(hitTargets, hits[i..])) == old(hitTargets) + Ids(Struck(old(hitTargets), hits))
        invariant strikes + Blows(Struck(hitTargets, hits[i..]), swingDamage, wielder, weapon.knockbackForce)
                  == old(strikes) + Blows(Struck(old(hitTargets), hits), swingDamage, wielder, weapon.knockbackForce)
      {
        var c := hits[i];
        assert hits[i..][0] == c && hits[i..][1..] == hits[i + 1..];
        if c.id in hitTargets || c.isOwn || !c.damageable {
          // already struck this swing, the wielder itself, or nothing to damage
          assert Struck(hitTargets, hits[i..]) == Struck(hitTargets, hits[i + 1..]);
        } else {
          var info := WithHitPoint(WithKnockback(NewDamageInfo(swingDamage, Some(wielder), Physical), Scale(c.away, weapon.knockbackForce)), c.closest);
          ghost var rest := Struck(hitTargets + {c.id}, hits[i + 1..]);
          assert Struck(hitTargets, hits[i..]) == [c] + rest;
          assert ([c] + rest)[0] == c && ([c] + rest)[1..] == rest;
          assert Ids([c] + rest) == {c.id} + Ids(rest);
          assert Blows([c] + rest, swingDamage, wielder, weapon.knockbackForce)
              == [Strike(c.id, info)] + Blows(rest, swingDamage, wielder, weapon.knockbackForce);
          strikes := strikes + [Strike(c.id, info)];
          hitTargets := hitTargets + {c.id};
        }
        i := i + 1;
      }
      assert hits[i..] == [];
    }
  }
}
