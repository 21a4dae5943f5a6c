/** A light (light.h, light.cc): a mobile entity driving straight at LIGHT_SPEED, reversing in an arc after a collision. */
module Lights {
  import opened Params
  import opened Geometry
  import opened Numerics
  import opened MotionHandlers
  import opened ReverseArcs

  /** params.h:88-89 */
  const LIGHT_POSITION: Pose := PoseAt(200.0, 200.0)

  /** Everything about a light that can change. */
  datatype LightState = LightState(pose: Pose, radius: real, arc: Arc, velocity: WheelVelocity)

  /** The state after Light::TimestepUpdate (light.cc:43-56). */
  function LightStep(s: LightState, dt: nat, ph: Physics): LightState
  {
    if s.arc.reversing then
      var v := ArcVelocity(s.arc, LIGHT_SPEED, s.velocity);
      s.(arc := ArcStep(s.arc), velocity := v,
         pose := ph.move(s.pose.(theta := s.pose.theta + ArcTurn(s.arc)), v, dt))
    else
      var v := WheelVelocity(LIGHT_SPEED, LIGHT_SPEED);
      s.(velocity := v, pose := ph.move(s.pose, v, dt))
  }

  /**
   * A light that is not reversing always drives forward at LIGHT_SPEED, whatever
   * its previous velocity; a reversing one backs up at LIGHT_SPEED until the arc's
   * last step. The radius never changes and the countdown stays valid.
   */
  lemma LightStepSpeed(s: LightState, dt: nat, ph: Physics)
    ensures !s.arc.reversing ==>
      LightStep(s, dt, ph).velocity == WheelVelocity(4.0, 4.0) && LightStep(s, dt, ph).arc == s.arc
    ensures s.arc.reversing && s.arc.angle > 120 ==> LightStep(s, dt, ph).velocity == WheelVelocity(-4.0, -4.0)
    ensures LightStep(s, dt, ph).radius == s.radius
    ensures ArcValid(s.arc) ==> ArcValid(LightStep(s, dt, ph).arc)
  {
    if s.arc.reversing && ArcValid(s.arc) {
      ArcStepValid(s.arc);
    }
  }

  /** The state after Light::Reset (light.cc:58-65). */
  function LightReset(s: LightState, d: Draw): LightState
  {
    s.(pose := Pose(GridX(d.gridX), GridY(d.gridY), d.heading), radius := d.radius,
       velocity := WheelVelocity(LIGHT_SPEED, LIGHT_SPEED))
  }

  /** A reset puts the light on the grid at speed (4, 4) but leaves a reverse arc under way running. */
  lemma LightResetKeepsArc(s: LightState, d: Draw)
    ensures LightReset(s, d).arc == s.arc
    ensures 30.0 <= LightReset(s, d).pose.x <= 930.0 && 30.0 <= LightReset(s, d).pose.y <= 680.0
    ensures LightReset(s, d).velocity == WheelVelocity(4.0, 4.0)
  {
  }

  class Light {
    // a plain base-class handler, used only for its velocity
    const handler: MotionHandler
    const color: Color
    var pose: Pose
    var radius: real
    var reversing: bool
    var direcAngle: int

    function ArcOf(): Arc
      reads this
    {
      Arc(reversing, direcAngle)
    }

    ghost function State(): LightState
      reads this, handler
    {
      LightState(pose, radius, ArcOf(), handler.velocity)
    }

    /**
     * light.cc:21-32: white, at (200, 200) with a random heading and radius, velocity
     * (LIGHT_SPEED, LIGHT_SPEED), not reversing, direc_angle_ 180.
     */
    constructor (heading: real, radius0: real)
      ensures fresh(handler)
      ensures pose == Pose(200.0, 200.0, heading) && radius == radius0 && color == LIGHT_COLOR
      ensures handler.kind == BaseHandler && handler.velocity == WheelVelocity(LIGHT_SPEED, LIGHT_SPEED)
      ensures ArcOf() == IDLE
    {
      var h := new MotionHandler(BaseHandler);
      handler := h;
      color := LIGHT_COLOR;
      pose := LIGHT_POSITION.(theta := heading);
      radius := radius0;
      reversing, direcAngle := false, 180;
      new;
      handler.SetWheelVelocity(LIGHT_SPEED, LIGHT_SPEED);
    }

    /**
     * light.cc:43-56: a reversing light takes one reverse-arc step, any other light is
     * set back to (LIGHT_SPEED, LIGHT_SPEED); then the pose is integrated.
     */
    method TimestepUpdate(dt: nat, ph: Physics)
      modifies this`pose, this`reversing, this`direcAngle, handler`velocity
      ensures State() == LightStep(old(State()), dt, ph)
    {
      if reversing {
        ReverseArc();
      } else {
        handler.SetWheelVelocity(LIGHT_SPEED, LIGHT_SPEED);
      }
      pose := ph.move(pose, handler.velocity, dt);
    }

    /**
     * light.cc:58-65: a random grid position, heading and radius and velocity
     * (LIGHT_SPEED, LIGHT_SPEED); the reverse-arc state is left as it was.
     */
    method Reset(d: Draw)
      modifies this`pose, this`radius, handler`velocity
      ensures State() == LightReset(old(State()), d)
    {
      pose := PoseAt(GridX(d.gridX), GridY(d.gridY));
      pose := pose.(theta := d.heading);
      radius := d.radius;
      handler.SetWheelVelocity(LIGHT_SPEED, LIGHT_SPEED);
    }

    /** set_position of the entity base class: a new centre, the heading kept. */
    method SetPosition(x: real, y: real)
      modifies this`pose
      ensures pose == old(pose).(x := x, y := y)
      ensures State() == old(State()).(pose := pose)
    {
      pose := pose.(x := x, y := y);
    }

    /** light.cc:67-69: only the reverse flag is set. */
    method HandleCollision()
      modifies this`reversing
      ensures ArcOf() == StartArc(old(ArcOf()))
      ensures old(ArcValid(ArcOf())) ==> ArcValid(ArcOf())
      ensures State() == old(State()).(arc := ArcOf())
    {
      reversing := true;
    }

    /** light.cc:71-85: the reverse-arc step at speed LIGHT_SPEED. */
    method ReverseArc()
      modifies this`reversing, this`direcAngle, this`pose, handler`velocity
      ensures ArcOf() == ArcStep(old(ArcOf()))
      ensures pose == old(pose).(theta := old(pose).theta + ArcTurn(old(ArcOf())))
      ensures handler.velocity == ArcVelocity(old(ArcOf()), LIGHT_SPEED, old(handler.velocity))
      ensures old(reversing) && old(ArcValid(ArcOf())) ==> ArcValid(ArcOf())
    {
      if direcAngle > 120 {
        direcAngle := direcAngle - 3;
        pose := pose.(theta := pose.theta + -3.0);
        handler.SetWheelVelocity(-LIGHT_SPEED, -LIGHT_SPEED);
      } else if direcAngle == 120 {
        reversing := false;
        direcAngle := 180;
        handler.SetWheelVelocity(LIGHT_SPEED, LIGHT_SPEED);
      }
    }
  }
}
