/**
 * The record passed to everything that can be damaged.
 */
module DamageInfo {
  import opened Common

  datatype DamageType = Physical | Fire | Ice | Poison | Psychic

  /** The `DamageInfo` value struct; `source` is None for a null source object. */
  datatype DamageInfo = DamageInfo(amount: real, source: Option<ObjId>, kind: DamageType, knockbackForce: Vec, hitPoint: Vec)

  /**
   * The constructor: no knockback and no hit point until the builders add
   * them; the source defaults to null and the type to Physical.
   */
  function NewDamageInfo(amount: real, source: Option<ObjId> := None, kind: DamageType := Physical): (d: DamageInfo)
    ensures d.amount == amount && d.source == source && d.kind == kind
    ensures d.knockbackForce == Zero && d.hitPoint == Zero
  {
    DamageInfo(amount, source, kind, Zero, Zero)
  }

  /**
   * `WithKnockback`: the copy carries the new force, and putting the old
   * force back gives the original record, so no other field changed.
   * (The C# builder also updates the struct it is called on; with value
   * semantics the caller keeps the returned copy.)
   */
  function WithKnockback(d: DamageInfo, force: Vec): (r: DamageInfo)
    ensures r.knockbackForce == force
    ensures r.(knockbackForce := d.knockbackForce) == d
  {
    d.(knockbackForce := force)
  }

  /** `WithHitPoint`: the copy carries the new point and nothing else differs. */
  function WithHitPoint(d: DamageInfo, point: Vec): (r: DamageInfo)
    ensures r.hitPoint == point
    ensures r.(hitPoint := d.hitPoint) == d
  {
    d.(hitPoint := point)
  }

  /** The two builders touch disjoint fields, so their order does not matter. */
  lemma BuildersCommute(d: DamageInfo, force: Vec, point: Vec)
    ensures WithHitPoint(WithKnockback(d, force), point) == WithKnockback(WithHitPoint(d, point), force)
  {
  }
}
