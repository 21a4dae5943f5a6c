/**
 * The motion handler (motion_handler.h): the wheel-velocity state of a mobile
 * entity, with the speed law of its kind (none, Fear or Explorer).
 */
module MotionHandlers {
  import opened Params
  import opened Geometry
  import opened Wheels
  import FearPolicy
  import ExplorePolicy

  /** Which UpdateVelocity override the handler object carries. */
  datatype HandlerKind = BaseHandler | FearHandler | ExploreHandler

  /** The velocity after UpdateVelocity for a handler of the given kind whose velocity was `current`. */
  function KindVelocity(kind: HandlerKind, current: WheelVelocity,
                        ltLeft: real, ltRight: real, fdLeft: real, fdRight: real,
                        hungryLevel: int, hungerExist: bool, maxSpeed: real): WheelVelocity
  {
    match kind
    case BaseHandler => current
    case FearHandler => FearPolicy.FearVelocity(ltLeft, ltRight, fdLeft, fdRight, hungryLevel, hungerExist, maxSpeed)
    case ExploreHandler => ExplorePolicy.ExploreVelocity(ltLeft, ltRight, fdLeft, fdRight, hungryLevel, hungerExist, maxSpeed)
  }

  /** A Fear or Explorer handler always produces wheel speeds within its maximum speed; the base handler keeps its velocity. */
  lemma KindVelocityBounded(kind: HandlerKind, current: WheelVelocity,
                            ltLeft: real, ltRight: real, fdLeft: real, fdRight: real,
                            hungryLevel: int, hungerExist: bool, maxSpeed: real)
    requires maxSpeed >= 0.0
    ensures var v := KindVelocity(kind, current, ltLeft, ltRight, fdLeft, fdRight, hungryLevel, hungerExist, maxSpeed);
      (kind == BaseHandler ==> v == current) && (kind != BaseHandler ==> Bounded(v, maxSpeed))
  {
  }

  class MotionHandler {
    var kind: HandlerKind
    var velocity: WheelVelocity
    var maxSpeed: real
    var maxAngle: real
    var speedDelta: real
    var angleDelta: real

    /** motion_handler.h:40-42, 129-133: velocity (0, 0), max speed 10, max angle 360, deltas 1. */
    constructor (k: HandlerKind)
      ensures kind == k && velocity == WheelVelocity(0.0, 0.0)
      ensures maxSpeed == 10.0 && maxAngle == 360.0 && speedDelta == 1.0 && angleDelta == 1.0
    {
      kind := k;
      velocity := WheelVelocity(0.0, 0.0);
      maxSpeed := 10.0;
      maxAngle := 360.0;
      speedDelta := 1.0;
      angleDelta := 1.0;
    }

    /**
     * What Robot::ChangeToExplore / ChangeToFear achieve by allocating a new handler
     * (robot.cc:136-142): the robot's handler becomes a freshly constructed one of kind k.
     */
    method Reinitialize(k: HandlerKind)
      modifies this
      ensures kind == k && velocity == WheelVelocity(0.0, 0.0)
      ensures maxSpeed == 10.0 && maxAngle == 360.0 && speedDelta == 1.0 && angleDelta == 1.0
    {
      kind := k;
      velocity := WheelVelocity(0.0, 0.0);
      maxSpeed := 10.0;
      maxAngle := 360.0;
      speedDelta := 1.0;
      angleDelta := 1.0;
    }

    /**
     * UpdateVelocity: a no-op for the base handler (motion_handler.h:51-54), the Fear law
     * (motion_handler_fear.cc:25-46) or the Explorer law (motion_handler_explore.cc:25-47).
     */
    method UpdateVelocity(ltLeft: real, ltRight: real, fdLeft: real, fdRight: real,
                          hungryLevel: int, hungerExist: bool)
      modifies this`velocity
      ensures velocity == KindVelocity(kind, old(velocity), ltLeft, ltRight, fdLeft, fdRight, hungryLevel, hungerExist, maxSpeed)
      ensures kind != BaseHandler && maxSpeed >= 0.0 ==> Bounded(velocity, maxSpeed)
    {
      match kind
      case BaseHandler =>
      case FearHandler =>
        velocity := FearPolicy.FearVelocity(ltLeft, ltRight, fdLeft, fdRight, hungryLevel, hungerExist, maxSpeed);
      case ExploreHandler =>
        velocity := ExplorePolicy.ExploreVelocity(ltLeft, ltRight, fdLeft, fdRight, hungryLevel, hungerExist, maxSpeed);
    }

    /** motion_handler.h:59 */
    method GetSpeedDelta() returns (sd: real)
      ensures sd == speedDelta
    {
      sd := speedDelta;
    }

    /** motion_handler.h:64 */
    method SetSpeedDelta(sd: real)
      modifies this`speedDelta
      ensures speedDelta == sd
    {
      speedDelta := sd;
    }

    /** motion_handler.h:69 */
    method GetAngleDelta() returns (ad: real)
      ensures ad == angleDelta
    {
      ad := angleDelta;
    }

    /** motion_handler.h:74 */
    method SetAngleDelta(ad: real)
      modifies this`angleDelta
      ensures angleDelta == ad
    {
      angleDelta := ad;
    }

    /** motion_handler.h:80 */
    method GetMaxSpeed() returns (ms: real)
      ensures ms == maxSpeed
    {
      ms := maxSpeed;
    }

    /** motion_handler.h:85 */
    method SetMaxSpeed(ms: real)
      modifies this`maxSpeed
      ensures maxSpeed == ms
    {
      maxSpeed := ms;
    }

    /** motion_handler.h:90 */
    method GetMaxAngle() returns (ma: real)
      ensures ma == maxAngle
    {
      ma := maxAngle;
    }

    /** motion_handler.h:95 */
    method SetMaxAngle(ma: real)
      modifies this`maxAngle
      ensures maxAngle == ma
    {
      maxAngle := ma;
    }

    /** motion_handler.h:100 */
    method GetVelocity() returns (v: WheelVelocity)
      ensures v == velocity
    {
      v := velocity;
    }

    /** motion_handler.h:105 */
    method SetVelocity(v: WheelVelocity)
      modifies this`velocity
      ensures velocity == v
    {
      velocity := v;
    }

    /** motion_handler.h:111-114 */
    method SetWheelVelocity(vl: real, vr: real)
      modifies this`velocity
      ensures velocity == WheelVelocity(vl, vr)
    {
      velocity := velocity.(left := vl);
      velocity := velocity.(right := vr);
    }

    /** motion_handler.h:116-118 */
    method GetLeftVelocity() returns (vl: real)
      ensures vl == velocity.left
    {
      vl := velocity.left;
    }

    /** motion_handler.h:120-122 */
    method GetRightVelocity() returns (vr: real)
      ensures vr == velocity.right
    {
      vr := velocity.right;
    }
  }

  /** The unit tests' round trips (motion_handler_unittest.cc:78-129): setters are read back by the getters, and leave the other fields alone. */
  method HandlerRoundTrips() returns (h: MotionHandler)
    ensures fresh(h)
    ensures h.maxSpeed == 50.0 && h.maxAngle == 50.0 && h.velocity == WheelVelocity(5.0, 4.0)
    ensures h.speedDelta == 1.0 && h.angleDelta == 1.0 && h.kind == BaseHandler
  {
    h := new MotionHandler(BaseHandler);
    var ms := h.GetMaxSpeed();
    var ma := h.GetMaxAngle();
    var vl := h.GetLeftVelocity();
    var vr := h.GetRightVelocity();
    assert ms == 10.0 && ma == 360.0 && vl == 0.0 && vr == 0.0;
    h.SetMaxAngle(50.0);
    h.SetMaxSpeed(50.0);
    h.SetVelocity(WheelVelocity(5.0, 5.0));
    var v := h.GetVelocity();
    assert v == WheelVelocity(5.0, 5.0);
    h.SetWheelVelocity(5.0, 4.0);
    vl := h.GetLeftVelocity();
    vr := h.GetRightVelocity();
    assert vl == 5.0 && vr == 4.0;
  }
}
