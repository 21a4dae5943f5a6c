/** Poses, wheel velocities and squared-distance geometry. */
module Geometry {

  /** A position and a heading in degrees. */
  datatype Pose = Pose(x: real, y: real, theta: real)

  /** The pose built from a two-component initialiser such as `{x, y}`: heading 0. */
  function PoseAt(x: real, y: real): Pose
  {
    Pose(x, y, 0.0)
  }

  /** Left and right wheel speeds; negative means reverse. */
  datatype WheelVelocity = WheelVelocity(left: real, right: real)

  /** The square of the Euclidean distance between the centres of two poses. */
  function SqDist(p: Pose, q: Pose): (d: real)
    ensures d >= 0.0
  {
    var dx, dy := p.x - q.x, p.y - q.y;
    assert dx * dx >= 0.0 && dy * dy >= 0.0;
    dx * dx + dy * dy
  }

  /**
   * "The distance between p and q is at most limit", decided without a square root:
   * the source computes sqrt(dx*dx + dy*dy) <= limit.
   */
  predicate WithinDistance(p: Pose, q: Pose, limit: real)
  {
    limit >= 0.0 && SqDist(p, q) <= limit * limit
  }

  /** For the true distance d (d >= 0, d*d == SqDist), WithinDistance is exactly d <= limit. */
  lemma WithinDistanceIsDistanceComparison(p: Pose, q: Pose, limit: real, d: real)
    requires d >= 0.0 && d * d == SqDist(p, q)
    ensures WithinDistance(p, q, limit) <==> d <= limit
  {
    if d <= limit {
      SquareMonotone(d, limit);
    } else if limit >= 0.0 {
      SquareStrictlyMonotone(limit, d);
    }
  }

  lemma SquareMonotone(a: real, b: real)
    requires 0.0 <= a <= b
    ensures a * a <= b * b
  {
    var ab := a * b;
    assert a * (b - a) >= 0.0;
    assert b * (b - a) >= 0.0;
    assert a * a <= ab <= b * b;
  }

  lemma SquareStrictlyMonotone(a: real, b: real)
    requires 0.0 <= a < b
    ensures a * a < b * b
  {
    var ab := a * b;
    assert a * (b - a) >= 0.0;
    assert b * (b - a) > 0.0;
    assert a * a <= ab < b * b;
  }

  /**
   * The distance from a sensor to the edge of a source of the given radius, floored
   * at 0 (the same rule in light_sensor.cc and food_sensor.cc).
   */
  function EffectiveDistance(centre: real, radius: real): (d: real)
    ensures d >= 0.0
    ensures d == 0.0 <==> centre <= radius
    ensures centre >= radius ==> d + radius == centre
  {
    var between := centre - radius;
    if between < 0.0 then 0.0 else between
  }

  /**
   * The values one Reset draws from random() and random_num: two grid indices
   * (random() is never negative), a heading and a radius.
   */
  datatype Draw = Draw(gridX: nat, gridY: nat, heading: real, radius: real)

  /** 30 + (k % 19) * 50, the x of a reset position: a point of the 50-unit grid in [30, 930]. */
  function GridX(k: nat): (x: real)
    ensures 30.0 <= x <= 930.0
    ensures x == x.Floor as real && (x.Floor - 30) % 50 == 0
  {
    (30 + (k % 19) * 50) as real
  }

  /** 30 + (k % 14) * 50, the y of a reset position: a point of the 50-unit grid in [30, 680]. */
  function GridY(k: nat): (y: real)
    ensures 30.0 <= y <= 680.0
    ensures y == y.Floor as real && (y.Floor - 30) % 50 == 0
  {
    (30 + (k % 14) * 50) as real
  }

  /** Every grid point is reached: index i gives 30 + 50 i on the x axis for i < 19, and on the y axis for i < 14. */
  lemma GridCovers(i: nat)
    ensures i < 19 ==> GridX(i) == (30 + 50 * i) as real
    ensures i < 14 ==> GridY(i) == (30 + 50 * i) as real
  {
  }

  /** Where EntityFactory puts a new entity, and its radius. */
  datatype Placement = Placement(pose: Pose, radius: real)
}
