/**
 * The reverse-arc countdown shared by robots and lights (robot.cc:93-107,
 * light.cc:71-85): after a collision the entity backs up while turning, 3
 * degrees per timestep, until it has turned 60 degrees.
 */
module ReverseArcs {
  import opened Geometry

  /** is_reverse_arc and direc_angle_. */
  datatype Arc = Arc(reversing: bool, angle: int)

  /** The state of an entity that is not reversing (robot.cc:42-43, light.cc:24-25). */
  const IDLE: Arc := Arc(false, 180)

  /** The states the countdown can be in: 180, 177, ..., 120, and 180 whenever it is not reversing. */
  predicate ArcValid(a: Arc)
  {
    120 <= a.angle <= 180 && (180 - a.angle) % 3 == 0 && (!a.reversing ==> a.angle == 180)
  }

  /** HandleCollision (robot.cc:89-91, light.cc:67-69): only the flag is set. */
  function StartArc(a: Arc): (b: Arc)
    ensures b.reversing && b.angle == a.angle
    ensures ArcValid(a) ==> ArcValid(b)
  {
    a.(reversing := true)
  }

  /** The countdown state after one ReverseArc call. */
  function ArcStep(a: Arc): Arc
  {
    if a.angle > 120 then Arc(a.reversing, a.angle - 3)
    else if a.angle == 120 then IDLE
    else a
  }

  /** The heading change of one ReverseArc call. */
  function ArcTurn(a: Arc): real
  {
    if a.angle > 120 then -3.0 else 0.0
  }

  /** The wheel velocity after one ReverseArc call at the given speed. */
  function ArcVelocity(a: Arc, speed: real, current: WheelVelocity): WheelVelocity
  {
    if a.angle > 120 then WheelVelocity(-speed, -speed)
    else if a.angle == 120 then WheelVelocity(speed, speed)
    else current
  }

  /** Starting an arc twice is the same as starting it once, and does not restart a countdown under way. */
  lemma StartArcIdempotent(a: Arc)
    ensures StartArc(StartArc(a)) == StartArc(a)
    ensures StartArc(a).angle == a.angle
  {
  }

  /** One ReverseArc call, made while reversing as the entities do, keeps the countdown valid. */
  lemma ArcStepValid(a: Arc)
    requires ArcValid(a) && a.reversing
    ensures ArcValid(ArcStep(a))
  {
  }

  /** The countdown after k calls. */
  function ArcSteps(a: Arc, k: nat): Arc
  {
    if k == 0 then a else ArcStep(ArcSteps(a, k - 1))
  }

  /** The total heading change over k calls. */
  function ArcTotalTurn(a: Arc, k: nat): real
  {
    if k == 0 then 0.0 else ArcTotalTurn(a, k - 1) + ArcTurn(ArcSteps(a, k - 1))
  }

  /** From a reversing state at angle a, k calls with k <= (a - 120) / 3 each turn by -3 and count down by 3. */
  lemma {:induction false} ArcCountdown(a: Arc, k: nat)
    requires a.reversing && 3 * k <= a.angle - 120
    ensures ArcSteps(a, k) == Arc(true, a.angle - 3 * k)
    ensures ArcTotalTurn(a, k) == -3.0 * (k as real)
  {
    if k > 0 {
      ArcCountdown(a, k - 1);
    }
  }

  /**
   * From a valid reversing state at angle 120 + 3n, n reversing calls and one
   * finishing call return the entity to IDLE, having turned by -3n degrees.
   */
  lemma ArcFinishes(a: Arc, n: nat)
    requires ArcValid(a) && a.reversing && a.angle == 120 + 3 * n
    ensures ArcSteps(a, n + 1) == IDLE && ArcTotalTurn(a, n + 1) == -3.0 * (n as real)
  {
    ArcCountdown(a, n);
    assert ArcSteps(a, n) == Arc(true, 120);
  }

  /**
   * From IDLE, a collision gives exactly 20 reversing calls, each at
   * velocity (-speed, -speed), then one finishing call at (speed, speed): the
   * entity turns by -60 degrees in all.
   */
  lemma CollisionArc(speed: real, current: WheelVelocity)
    ensures forall k: nat :: k < 20 ==>
      ArcSteps(StartArc(IDLE), k).reversing &&
      ArcVelocity(ArcSteps(StartArc(IDLE), k), speed, current) == WheelVelocity(-speed, -speed)
    ensures ArcVelocity(ArcSteps(StartArc(IDLE), 20), speed, current) == WheelVelocity(speed, speed)
    ensures ArcSteps(StartArc(IDLE), 21) == IDLE
    ensures ArcTotalTurn(StartArc(IDLE), 21) == -60.0
  {
    forall k: nat | k < 20
      ensures ArcSteps(StartArc(IDLE), k).reversing
      ensures ArcVelocity(ArcSteps(StartArc(IDLE), k), speed, current) == WheelVelocity(-speed, -speed)
    {
      ArcCountdown(StartArc(IDLE), k);
    }
    ArcCountdown(StartArc(IDLE), 20);
    ArcFinishes(StartArc(IDLE), 20);
  }
}
