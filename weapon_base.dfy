/**
 * What every weapon shares: a cooldown that runs down frame by frame, an
 * attack that is refused while the cooldown lasts, and the damage record a
 * hit carries.
 */
module WeaponBase {
  import opened Common
  import opened DamageInfo

  /** One frame of `Update`: the cooldown runs down only while it is positive. */
  function Tick(timer: real, dt: real): (t: real)
    ensures timer <= 0.0 ==> t == timer
    ensures timer > 0.0 && dt >= 0.0 ==> t <= timer
  {
    if timer > 0.0 then timer - dt else timer
  }

  /** The cooldown after one `Update` per frame duration in `dts`, in order. */
  function RunDown(timer: real, dts: seq<real>): real
    decreases |dts|
  {
    if dts == [] then timer else RunDown(Tick(timer, dts[0]), dts[1..])
  }

  /** The time that passes over the frames `dts`. */
  function Elapsed(dts: seq<real>): real
    decreases |dts|
  {
    if dts == [] then 0.0 else dts[0] + Elapsed(dts[1..])
  }

  predicate NonNegative(dts: seq<real>)
  {
    forall i :: 0 <= i < |dts| ==> dts[i] >= 0.0
  }

  /** A cooldown that is over stays over. */
  lemma {:induction false} RunDownIdle(timer: real, dts: seq<real>)
    requires timer <= 0.0
    ensures RunDown(timer, dts) == timer
    decreases |dts|
  {
    if dts != [] {
      RunDownIdle(Tick(timer, dts[0]), dts[1..]);
    }
  }

  /**
   * A running cooldown of length `timer` is over after a run of frames
   * exactly when at least `timer` seconds have passed; until then it still
   * holds the remainder. So two successful attacks lie at least one
   * cooldown apart.
   */
  lemma {:induction false} CooldownElapses(timer: real, dts: seq<real>)
    requires timer > 0.0 && NonNegative(dts)
    ensures RunDown(timer, dts) <= 0.0 <==> Elapsed(dts) >= timer
    ensures Elapsed(dts) < timer ==> RunDown(timer, dts) == timer - Elapsed(dts)
    decreases |dts|
  {
    if dts != [] {
      var next := Tick(timer, dts[0]);
      assert NonNegative(dts[1..]) by {
        forall i | 0 <= i < |dts[1..]| ensures dts[1..][i] >= 0.0 { assert dts[1..][i] == dts[i + 1]; }
      }
      assert Elapsed(dts[1..]) >= 0.0 by { ElapsedNonNegative(dts[1..]); }
      if next > 0.0 {
        CooldownElapses(next, dts[1..]);
      } else {
        RunDownIdle(next, dts[1..]);
      }
    }
  }

  lemma {:induction false} ElapsedNonNegative(dts: seq<real>)
    requires NonNegative(dts)
    ensures Elapsed(dts) >= 0.0
    decreases |dts|
  {
    if dts != [] {
      assert NonNegative(dts[1..]) by {
        forall i | 0 <= i < |dts[1..]| ensures dts[1..][i] >= 0.0 { assert dts[1..][i] == dts[i + 1]; }
      }
      ElapsedNonNegative(dts[1..]);
    }
  }

  class WeaponBase {
    const damage: real
    const attackCooldown: real
    const range: real
    const knockbackForce: real
    var cooldownTimer: real
    var isAttacking: bool

    /** `CanAttack`: the cooldown is over. */
    predicate CanAttack() reads this { cooldownTimer <= 0.0 }

    /** A weapon with the serialized stats (damage 10, cooldown 0.5, range 1, knockback 2), ready to attack. */
    constructor ()
      ensures damage == 10.0 && attackCooldown == 0.5 && range == 1.0 && knockbackForce == 2.0
      ensures cooldownTimer == 0.0 && !isAttacking && CanAttack()
    {
      damage := 10.0;
      attackCooldown := 0.5;
      range := 1.0;
      knockbackForce := 2.0;
      cooldownTimer := 0.0;
      isAttacking := false;
    }

    /** A weapon whose subclass overwrites the stats in `Awake`. */
    constructor WithStats(damage: real, attackCooldown: real, range: real, knockbackForce: real)
      ensures this.damage == damage && this.attackCooldown == attackCooldown
      ensures this.range == range && this.knockbackForce == knockbackForce
      ensures cooldownTimer == 0.0 && !isAttacking && CanAttack()
    {
      this.damage := damage;
      this.attackCooldown := attackCooldown;
      this.range := range;
      this.knockbackForce := knockbackForce;
      cooldownTimer := 0.0;
      isAttacking := false;
    }

    /** `Update`: one frame of the cooldown (see `CooldownElapses` for a run of frames). */
    method Update(dt: real)
      modifies this`cooldownTimer
      ensures cooldownTimer == Tick(old(cooldownTimer), dt)
    {
      if cooldownTimer > 0.0 {
        cooldownTimer := cooldownTimer - dt;
      }
    }

    /**
     * `Attack`: refused, with nothing changed, while the cooldown runs;
     * otherwise the cooldown restarts and the weapon is attacking. The
     * caller runs its `PerformAttack` exactly when the answer is yes.
     */
    method Attack() returns (success: bool)
      modifies this`cooldownTimer, this`isAttacking
      ensures success == old(CanAttack())
      ensures success ==> cooldownTimer == attackCooldown && isAttacking
      ensures !success ==> cooldownTimer == old(cooldownTimer) && isAttacking == old(isAttacking)
      ensures success && attackCooldown > 0.0 ==> !CanAttack()
    {
      if !CanAttack() {
        return false;
      }
      cooldownTimer := attackCooldown;
      isAttacking := true;
      return true;
    }

    /**
     * `CreateDamageInfo`: the weapon's damage, physical, from the wielder,
     * pushing along the unit direction `dir` with the weapon's knockback,
     * at the given hit point.
     */
    function CreateDamageInfo(wielder: ObjId, hitPoint: Vec, dir: Vec): (d: DamageInfo)
      ensures d.amount == damage && d.kind == Physical && d.source == Some(wielder)
      ensures d.knockbackForce == Scale(dir, knockbackForce) && d.hitPoint == hitPoint
    {
      WithHitPoint(WithKnockback(NewDamageInfo(damage, Some(wielder), Physical), Scale(dir, knockbackForce)), hitPoint)
    }
  }
}
