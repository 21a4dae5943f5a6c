/** The symmetric wheel-speed clamp shared by both motion handlers. */
module Wheels {
  import opened Geometry

  /**
   * clamp_vel (motion_handler_fear.cc:77-90, motion_handler_explore.cc:78-90):
   * a positive speed is capped at maxSpeed, any other speed is floored at -maxSpeed.
   */
  function ClampVel(vel: real, maxSpeed: real): (c: real)
    ensures maxSpeed >= 0.0 ==> -maxSpeed <= c <= maxSpeed
  {
    if vel > 0.0 then
      (if vel > maxSpeed then maxSpeed else vel)
    else
      (if vel < -maxSpeed then -maxSpeed else vel)
  }

  /** Inside [-maxSpeed, maxSpeed] the clamp is the identity; outside it saturates. */
  lemma ClampVelExact(vel: real, maxSpeed: real)
    requires maxSpeed >= 0.0
    ensures -maxSpeed <= vel <= maxSpeed ==> ClampVel(vel, maxSpeed) == vel
    ensures vel >= maxSpeed ==> ClampVel(vel, maxSpeed) == maxSpeed
    ensures vel <= -maxSpeed ==> ClampVel(vel, maxSpeed) == -maxSpeed
  {
  }

  /** The clamp is monotone, so it never reverses the order of two speeds. */
  lemma ClampVelMonotone(v1: real, v2: real, maxSpeed: real)
    requires maxSpeed >= 0.0 && v1 <= v2
    ensures ClampVel(v1, maxSpeed) <= ClampVel(v2, maxSpeed)
  {
  }

  /** Both wheels within [-maxSpeed, maxSpeed]. */
  predicate Bounded(v: WheelVelocity, maxSpeed: real)
  {
    -maxSpeed <= v.left <= maxSpeed && -maxSpeed <= v.right <= maxSpeed
  }
}
