/**
 * The joint angle of calculate_angle: the angle at a vertex joint b between
 * the ray toward the first joint a and the ray toward the end joint c.
 *
 * The two ray directions come from a two-argument arctangent and the
 * radians-to-degrees conversion; both are floating-point library calls, so
 * here a direction is an input, already in degrees, anywhere in the range
 * that arctangent returns. What is modelled is the absolute difference and
 * the fold of values above 180 degrees back into [0, 180].
 */
module AngleGeometry {

  /** A ray direction in degrees, in the closed range of the two-argument arctangent. */
  type Direction = d: real | -180.0 <= d <= 180.0

  /** The two rays seen from the vertex joint (elbow or knee). */
  datatype JointSighting = JointSighting(towardFirst: Direction, towardEnd: Direction)

  function Abs(x: real): real
  {
    if x < 0.0 then -x else x
  }

  /**
   * Folds a signed difference of two directions into an angle: the smaller of
   * the two arcs between them, so always in [0, 180].
   */
  function Fold(difference: real): (angle: real)
    requires -360.0 <= difference <= 360.0
    ensures 0.0 <= angle <= 180.0
    ensures angle == Abs(difference) || angle == 360.0 - Abs(difference)
    ensures angle <= Abs(difference) && angle <= 360.0 - Abs(difference)
  {
    var angle := Abs(difference);
    if angle > 180.0 then 360.0 - angle else angle
  }

  /** The angle at the vertex: direction toward the end joint minus direction toward the first one, folded. */
  function JointAngle(s: JointSighting): (angle: real)
    ensures 0.0 <= angle <= 180.0
  {
    Fold(s.towardEnd - s.towardFirst)
  }

  /** The same three joints seen with the end points swapped. */
  function Swapped(s: JointSighting): (r: JointSighting)
    ensures r.towardFirst == s.towardEnd && r.towardEnd == s.towardFirst
  {
    JointSighting(s.towardEnd, s.towardFirst)
  }

  /** Negating the difference does not change the folded angle. */
  lemma FoldEven(difference: real)
    requires -360.0 <= difference <= 360.0
    ensures Fold(-difference) == Fold(difference)
  {
  }

  /** Swapping the end joints a and c leaves the angle unchanged. */
  lemma JointAngleSymmetric(s: JointSighting)
    ensures JointAngle(Swapped(s)) == JointAngle(s)
  {
  }
}
