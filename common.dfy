/**
 * Values shared by every component of the game model: optional values
 * (the stand-in for a Unity reference that may be null), 2D vectors and
 * the squared distance used in place of `Vector2.Distance`.
 */
module Common {
  datatype Option<T> = None | Some(value: T)

  /** The identity of a Unity game object (an enemy, a collider, a projectile source). */
  type ObjId = nat

  /** A `Vector2`; every coordinate a real number. */
  datatype Vec = Vec(x: real, y: real)

  const Zero: Vec := Vec(0.0, 0.0)

  function Plus(a: Vec, b: Vec): Vec { Vec(a.x + b.x, a.y + b.y) }

  function Scale(a: Vec, k: real): Vec { Vec(a.x * k, a.y * k) }

  /** `sqrMagnitude` of a vector. */
  function SqrMagnitude(a: Vec): real { a.x * a.x + a.y * a.y }

  /**
   * Squared Euclidean distance. For a radius r >= 0,
   * `Vector2.Distance(a, b) < r` holds exactly when `DistSq(a, b) < r * r`,
   * so comparisons against a radius are written with the square.
   */
  function DistSq(a: Vec, b: Vec): real { SqrMagnitude(Vec(a.x - b.x, a.y - b.y)) }

  /**
   * `Vector2.Distance(a, b) < r`: false for every r <= 0, since a distance
   * is never negative.
   */
  predicate StrictlyWithin(a: Vec, b: Vec, r: real) { r > 0.0 && DistSq(a, b) < r * r }

  /** `Vector2.Distance(a, b) <= r`. */
  predicate Within(a: Vec, b: Vec, r: real) { r >= 0.0 && DistSq(a, b) <= r * r }

  /** No element occurs twice. */
  predicate NoDuplicates<T(==)>(s: seq<T>)
  {
    forall i, j :: 0 <= i < j < |s| ==> s[i] != s[j]
  }

  function Max(a: real, b: real): real { if a >= b then a else b }

  function Min(a: real, b: real): real { if a <= b then a else b }

  /** A real strictly above zero: a divisor such as a maximum or a speed factor. */
  type PosReal = r: real | r > 0.0 witness 1.0
}
