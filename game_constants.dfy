/**
 * The four-way facing used by sprites: the direction constants and the
 * conversions between a direction constant and a vector.
 */
module GameConstants {
  import opened Common

  const DIR_NONE: int := 0
  const DIR_DOWN: int := 1
  const DIR_RIGHT: int := 2
  const DIR_UP: int := 3
  const DIR_LEFT: int := 4

  /**
   * What the direction mapping relies on about `Mathf.Atan2(v.y, v.x)`
   * expressed in degrees: it lies in (-180, 180], its sign follows the
   * half-plane of v, and it is exact on the four axis directions.
   * The trigonometry itself is not modelled: the angle is an input
   * constrained by this relation.
   */
  predicate IsAtan2Degrees(v: Vec, a: real)
  {
    && -180.0 < a <= 180.0
    && (v.y > 0.0 ==> 0.0 < a < 180.0)
    && (v.y < 0.0 ==> -180.0 < a < 0.0)
    && (v.y == 0.0 && v.x > 0.0 ==> a == 0.0)
    && (v.y == 0.0 && v.x < 0.0 ==> a == 180.0)
    && (v.x == 0.0 && v.y > 0.0 ==> a == 90.0)
    && (v.x == 0.0 && v.y < 0.0 ==> a == -90.0)
  }

  /**
   * The segment of a (raw) atan2 angle: the angle is first shifted into
   * [0, 360) and then cut into four 90-degree segments centred on the axes.
   * Stated on the raw angle, the segments are half-open intervals that
   * cover (-180, 180] without overlap.
   */
  function DirectionOfAngle(angle: real): (r: int)
    requires -180.0 < angle <= 180.0
    ensures r == DIR_RIGHT <==> -45.0 <= angle < 45.0
    ensures r == DIR_UP <==> 45.0 <= angle < 135.0
    ensures r == DIR_LEFT <==> angle >= 135.0 || angle < -135.0
    ensures r == DIR_DOWN <==> -135.0 <= angle < -45.0
  {
    var a := if angle < 0.0 then angle + 360.0 else angle;
    if a >= 315.0 || a < 45.0 then DIR_RIGHT
    else if a >= 45.0 && a < 135.0 then DIR_UP
    else if a >= 135.0 && a < 225.0 then DIR_LEFT
    else DIR_DOWN
  }

  /**
   * `VectorToDirection`: a vector shorter than 0.1 has no direction;
   * any other vector gets the segment of its angle.
   */
  function VectorToDirection(v: Vec, angle: real): (r: int)
    requires IsAtan2Degrees(v, angle)
    ensures r == DIR_NONE <==> SqrMagnitude(v) < 0.01
    ensures DIR_NONE <= r <= DIR_LEFT
  {
    if SqrMagnitude(v) < 0.01 then DIR_NONE else DirectionOfAngle(angle)
  }

  /** `DirectionToVector`: the unit axis vector of a direction, zero for anything else. */
  function DirectionToVector(d: int): (v: Vec)
    ensures DIR_DOWN <= d <= DIR_LEFT ==> SqrMagnitude(v) == 1.0 && (v.x == 0.0 || v.y == 0.0)
    ensures !(DIR_DOWN <= d <= DIR_LEFT) ==> v == Zero
  {
    if d == DIR_DOWN then Vec(0.0, -1.0)
    else if d == DIR_RIGHT then Vec(1.0, 0.0)
    else if d == DIR_UP then Vec(0.0, 1.0)
    else if d == DIR_LEFT then Vec(-1.0, 0.0)
    else Zero
  }

  /** Every direction survives the round trip through its vector. */
  lemma DirectionRoundTrip(d: int, angle: real)
    requires DIR_DOWN <= d <= DIR_LEFT
    requires IsAtan2Degrees(DirectionToVector(d), angle)
    ensures VectorToDirection(DirectionToVector(d), angle) == d
  {
  }

  /** A direction outside 1..4 maps to the zero vector, which maps back to no direction. */
  lemma NoDirectionRoundTrip(d: int, angle: real)
    requires !(DIR_DOWN <= d <= DIR_LEFT)
    requires IsAtan2Degrees(DirectionToVector(d), angle)
    ensures VectorToDirection(DirectionToVector(d), angle) == DIR_NONE
  {
  }
}
