/**
 * The numerical primitives the simulator takes from the C library and from
 * classes outside this model: square root, power, cos/sin/atan2 and the
 * differential-drive integrator. They are passed around as a value of
 * `Physics`, and `Sound` states what the model relies on about them.
 */
module Numerics {
  import opened Geometry

  datatype Physics = Physics(
    // sqrt(dx*dx + dy*dy) between two poses
    dist: (Pose, Pose) -> real,
    // 1200 / pow(base, d), the sensor falloff term
    falloff: (real, real) -> real,
    // Robot::get_sensor_position: the robot's pose, its radius and the sensor angle
    sensorAt: (Pose, real, int) -> Pose,
    // MotionBehaviorDifferential::UpdatePose: pose, wheel velocity, dt
    move: (Pose, WheelVelocity, nat) -> Pose,
    // position reached by Arena::AdjustEntityOverlap: mobile pose and radius, other pose and radius
    pushOut: (Pose, real, Pose, real) -> Pose)

  /**
   * What is true of the primitives when they are sqrt, 1200/pow and so on. The
   * falloff is positive only for a positive base: pow of a negative base is not a
   * number at a fractional distance.
   */
  ghost predicate Sound(ph: Physics)
  {
    && (forall p, q :: ph.dist(p, q) >= 0.0 && ph.dist(p, q) * ph.dist(p, q) == SqDist(p, q))
    && (forall b, d :: 0.0 < b ==> ph.falloff(b, d) > 0.0)
    && (forall b :: ph.falloff(b, 0.0) == 1200.0)
    && (forall b, d1, d2 :: 1.0 < b && 0.0 <= d1 <= d2 ==> ph.falloff(b, d2) <= ph.falloff(b, d1))
  }

  /** Under Sound, any base above 1 gives a falloff term in (0, 1200] at any distance. */
  lemma FalloffBounded(ph: Physics, b: real, d: real)
    requires Sound(ph) && 1.0 < b && 0.0 <= d
    ensures 0.0 < ph.falloff(b, d) <= 1200.0
  {
    assert ph.falloff(b, d) <= ph.falloff(b, 0.0);
  }
}
