/**
 * A Braitenberg robot (robot.h, robot.cc): two light sensors, two food sensors,
 * a motion handler, a hunger counter and the reverse-arc countdown.
 */
module Robots {
  import opened Params
  import opened Geometry
  import opened Numerics
  import opened Sensors
  import opened LightSensors
  import opened FoodSensors
  import opened MotionHandlers
  import opened ReverseArcs
  import opened Wheels

  /** robot.cc:99, 105: the wheel speed of a robot's reverse arc. */
  const ROBOT_ARC_SPEED: real := 5.0

  /** Everything about a robot that can change, for stating that a step leaves a robot alone. */
  datatype RobotState = RobotState(
    pose: Pose, radius: real, robotType: RobotType, arc: Arc, hunger: int, status: int, foodExist: bool,
    ltLeft: real, ltRight: real, fdLeft: real, fdRight: real, sensLeft: real, sensRight: real,
    kind: HandlerKind, velocity: WheelVelocity, maxSpeed: real, maxAngle: real)

  /** is_dead (robot.h:228-230): the hunger counter is exactly DEAD and food exists. */
  predicate Dead(hunger: int, foodExist: bool)
  {
    hunger == DEAD && foodExist
  }

  /**
   * With food disabled a robot never dies, and a counter that has gone past DEAD
   * no longer counts as dead: only the one value 3000 does.
   */
  lemma DeadOnlyAtThreshold(hunger: int, foodExist: bool)
    ensures !foodExist ==> !Dead(hunger, foodExist)
    ensures hunger != DEAD ==> !Dead(hunger, foodExist)
    ensures Dead(hunger, foodExist) <==> foodExist && hunger == 3000
  {
  }

  /** The state after Robot::TimestepUpdate (robot.cc:51-70). */
  function RobotStep(s: RobotState, dt: nat, ph: Physics): RobotState
  {
    if Dead(s.hunger, s.foodExist) then
      s.(status := LOST)
    else if s.arc.reversing then
      var v := ArcVelocity(s.arc, ROBOT_ARC_SPEED, s.velocity);
      s.(arc := ArcStep(s.arc), velocity := v,
         pose := ph.move(s.pose.(theta := s.pose.theta + ArcTurn(s.arc)), v, dt))
    else
      var v := KindVelocity(s.kind, s.velocity, s.ltLeft, s.ltRight, s.fdLeft, s.fdRight,
                            s.hunger, s.foodExist, s.maxSpeed);
      s.(velocity := v, pose := ph.move(s.pose, v, dt))
  }

  /** A timestep changes only the pose, the velocity, the reverse arc and the status. */
  lemma RobotStepFrame(s: RobotState, dt: nat, ph: Physics)
    ensures var t := RobotStep(s, dt, ph);
      t == s.(pose := t.pose, velocity := t.velocity, arc := t.arc, status := t.status)
  {
  }

  /** A dead robot becomes LOST and neither moves nor changes velocity or arc. */
  lemma RobotStepDead(s: RobotState, dt: nat, ph: Physics)
    requires Dead(s.hunger, s.foodExist)
    ensures RobotStep(s, dt, ph) == s.(status := LOST)
  {
  }

  /** A living robot keeps its status: only a dead robot is made LOST. */
  lemma RobotStepStatus(s: RobotState, dt: nat, ph: Physics)
    ensures RobotStep(s, dt, ph).status == if Dead(s.hunger, s.foodExist) then LOST else s.status
  {
  }

  /** While reversing, the sensor readings and the handler's speed law play no part. */
  lemma RobotStepReversingIgnoresSensors(s: RobotState, lt1: real, lt2: real, fd1: real, fd2: real, dt: nat, ph: Physics)
    requires s.arc.reversing && !Dead(s.hunger, s.foodExist)
    ensures RobotStep(s, dt, ph).velocity == ArcVelocity(s.arc, ROBOT_ARC_SPEED, s.velocity)
    ensures RobotStep(s.(ltLeft := lt1, ltRight := lt2, fdLeft := fd1, fdRight := fd2), dt, ph)
         == RobotStep(s, dt, ph).(ltLeft := lt1, ltRight := lt2, fdLeft := fd1, fdRight := fd2)
  {
  }

  /** Not reversing and not dead, a Fear or Explorer robot drives within its maximum speed, and its arc is untouched. */
  lemma RobotStepBoundedSpeed(s: RobotState, dt: nat, ph: Physics)
    requires !s.arc.reversing && !Dead(s.hunger, s.foodExist) && s.kind != BaseHandler && s.maxSpeed >= 0.0
    ensures Bounded(RobotStep(s, dt, ph).velocity, s.maxSpeed)
    ensures RobotStep(s, dt, ph).arc == s.arc
  {
    KindVelocityBounded(s.kind, s.velocity, s.ltLeft, s.ltRight, s.fdLeft, s.fdRight, s.hunger, s.foodExist, s.maxSpeed);
  }

  /** A timestep keeps the reverse-arc countdown valid. */
  lemma RobotStepArcValid(s: RobotState, dt: nat, ph: Physics)
    requires ArcValid(s.arc)
    ensures ArcValid(RobotStep(s, dt, ph).arc)
  {
    if !Dead(s.hunger, s.foodExist) && s.arc.reversing {
      ArcStepValid(s.arc);
    }
  }

  /**
   * The state after Robot::Reset (robot.cc:73-87): a grid position and drawn heading and
   * radius, velocity (0, 0) with the robot speed limits, hunger 0, all sensors 0, no
   * reverse arc and status PLAYING.
   */
  function RobotReset(s: RobotState, d: Draw): RobotState
  {
    s.(pose := Pose(GridX(d.gridX), GridY(d.gridY), d.heading), radius := d.radius,
       velocity := WheelVelocity(0.0, 0.0), maxSpeed := ROBOT_MAX_SPEED, maxAngle := ROBOT_MAX_ANGLE,
       hunger := 0, ltLeft := 0.0, ltRight := 0.0, fdLeft := 0.0, fdRight := 0.0,
       arc := IDLE, status := PLAYING)
  }

  /**
   * After a reset the robot is alive, playing, on the grid and idle; its type, its
   * handler's kind, its light sensitivity and its food flag are those it had before.
   */
  lemma RobotResetIsFresh(s: RobotState, d: Draw)
    ensures var t := RobotReset(s, d);
      && t.status == PLAYING && t.hunger == 0 && ArcValid(t.arc) && !t.arc.reversing
      && 30.0 <= t.pose.x <= 930.0 && 30.0 <= t.pose.y <= 680.0
      && t.ltLeft == t.ltRight == t.fdLeft == t.fdRight == 0.0
      && t.robotType == s.robotType && t.kind == s.kind && t.foodExist == s.foodExist
      && t.sensLeft == s.sensLeft && t.sensRight == s.sensRight
  {
  }

  /** A reset robot is not dead, so its next timestep leaves its status PLAYING. */
  lemma ResetRobotSurvivesStep(s: RobotState, d: Draw, dt: nat, ph: Physics)
    ensures RobotStep(RobotReset(s, d), dt, ph).status == PLAYING
  {
  }

  /** reset_sensor_reading (robot.h:158-163): all four readings are 0, nothing else changes. */
  function SensorsCleared(s: RobotState): RobotState
  {
    s.(ltLeft := 0.0, ltRight := 0.0, fdLeft := 0.0, fdRight := 0.0)
  }

  /** LightNotify (robot.cc:121-126): each light sensor adds the light's contribution at its own point. */
  function LightNotified(s: RobotState, lightPose: Pose, lightRadius: real, ph: Physics): RobotState
  {
    s.(ltLeft := AccumulateReading(s.ltLeft, Contribution(ph, s.sensLeft, lightPose, lightRadius,
                                                          ph.sensorAt(s.pose, s.radius, LEFT_SENSOR))),
       ltRight := AccumulateReading(s.ltRight, Contribution(ph, s.sensRight, lightPose, lightRadius,
                                                            ph.sensorAt(s.pose, s.radius, RIGHT_SENSOR))))
  }

  /** FoodNotify (robot.cc:128-133): each food sensor adds the food's contribution at its own point. */
  function FoodNotified(s: RobotState, foodPose: Pose, foodRadius: real, ph: Physics): RobotState
  {
    s.(fdLeft := AccumulateReading(s.fdLeft, Contribution(ph, FOOD_SENSITIVITY, foodPose, foodRadius,
                                                          ph.sensorAt(s.pose, s.radius, LEFT_SENSOR))),
       fdRight := AccumulateReading(s.fdRight, Contribution(ph, FOOD_SENSITIVITY, foodPose, foodRadius,
                                                            ph.sensorAt(s.pose, s.radius, RIGHT_SENSOR))))
  }

  /**
   * A notification changes only the two readings of its kind, and with a sound
   * falloff it never lowers them and keeps them in range.
   */
  lemma NotifiedRaisesReadings(s: RobotState, p: Pose, r: real, ph: Physics)
    requires Sound(ph) && 0.0 < s.sensLeft && 0.0 < s.sensRight
    requires MIN_READING <= s.ltLeft <= MAX_READING && MIN_READING <= s.ltRight <= MAX_READING
    requires MIN_READING <= s.fdLeft <= MAX_READING && MIN_READING <= s.fdRight <= MAX_READING
    ensures var t := LightNotified(s, p, r, ph);
      && t == s.(ltLeft := t.ltLeft, ltRight := t.ltRight)
      && s.ltLeft <= t.ltLeft <= MAX_READING && s.ltRight <= t.ltRight <= MAX_READING
    ensures var t := FoodNotified(s, p, r, ph);
      && t == s.(fdLeft := t.fdLeft, fdRight := t.fdRight)
      && s.fdLeft <= t.fdLeft <= MAX_READING && s.fdRight <= t.fdRight <= MAX_READING
  {
    var atL := ph.sensorAt(s.pose, s.radius, LEFT_SENSOR);
    var atR := ph.sensorAt(s.pose, s.radius, RIGHT_SENSOR);
    ContributionPositive(ph, s.sensLeft, p, r, atL);
    ContributionPositive(ph, s.sensRight, p, r, atR);
    ContributionPositive(ph, FOOD_SENSITIVITY, p, r, atL);
    ContributionPositive(ph, FOOD_SENSITIVITY, p, r, atR);
    AccumulateNeverDecreases(s.ltLeft, Contribution(ph, s.sensLeft, p, r, atL));
    AccumulateNeverDecreases(s.ltRight, Contribution(ph, s.sensRight, p, r, atR));
    AccumulateNeverDecreases(s.fdLeft, Contribution(ph, FOOD_SENSITIVITY, p, r, atL));
    AccumulateNeverDecreases(s.fdRight, Contribution(ph, FOOD_SENSITIVITY, p, r, atR));
  }

  class Robot {
    const lightLeft: LightSensor
    const lightRight: LightSensor
    const foodLeft: FoodSensor
    const foodRight: FoodSensor
    const handler: MotionHandler
    const color: Color
    var pose: Pose
    var radius: real
    var robotType: RobotType
    var reversing: bool
    var direcAngle: int
    var hunger: int
    var status: int
    var foodExist: bool
    ghost const Repr: set<object>

    /**
     * The objects that make up a robot, all distinct, with readings in range. The sensor
     * types (light_sensor.h:42, food_sensor.h:43) and the handler's deltas
     * (motion_handler.h:131-132) are set when the robot is built and never written again.
     */
    ghost predicate Valid()
      reads Repr - {this}
    {
      && this in Repr && lightLeft in Repr && lightRight in Repr && foodLeft in Repr && foodRight in Repr
      && handler in Repr && lightLeft.base in Repr && lightRight.base in Repr
      && foodLeft.base in Repr && foodRight.base in Repr
      && lightLeft != lightRight && foodLeft != foodRight
      && lightLeft.base != lightRight.base && lightLeft.base != foodLeft.base
      && lightLeft.base != foodRight.base && lightRight.base != foodLeft.base
      && lightRight.base != foodRight.base && foodLeft.base != foodRight.base
      && lightLeft.base.Valid() && lightRight.base.Valid()
      && foodLeft.base.Valid() && foodRight.base.Valid()
      && lightLeft.base.sensorType == LightSensorKind && lightRight.base.sensorType == LightSensorKind
      && foodLeft.base.sensorType == FoodSensorKind && foodRight.base.sensorType == FoodSensorKind
      && handler.speedDelta == 1.0 && handler.angleDelta == 1.0
    }

    /** The reverse-arc countdown state. */
    function ArcOf(): Arc
      reads this
    {
      Arc(reversing, direcAngle)
    }

    ghost function State(): RobotState
      reads this, lightLeft, lightRight, lightLeft.base, lightRight.base, foodLeft.base, foodRight.base, handler
    {
      RobotState(pose, radius, robotType, ArcOf(), hunger, status, foodExist,
                 lightLeft.base.reading, lightRight.base.reading, foodLeft.base.reading, foodRight.base.reading,
                 lightLeft.sensitivity, lightRight.sensitivity,
                 handler.kind, handler.velocity, handler.maxSpeed, handler.maxAngle)
    }

    /**
     * robot.cc:34-49: a Fear robot with a Fear handler, not reversing, direc_angle_ 180,
     * hunger 0, status PLAYING, food present and all sensors reading 0. The pose and
     * radius are the entity defaults, which come from base classes outside this model.
     */
    constructor (pose0: Pose, radius0: real)
      ensures Valid() && fresh(Repr)
      ensures pose == pose0 && radius == radius0 && color == ROBOT_COLOR
      ensures robotType == Fear && ArcOf() == IDLE && hunger == 0 && status == PLAYING && foodExist
      ensures lightLeft.base.reading == 0.0 && lightRight.base.reading == 0.0
      ensures foodLeft.base.reading == 0.0 && foodRight.base.reading == 0.0
      ensures lightLeft.sensitivity == DEFAULT_SENSITIVITY && lightRight.sensitivity == DEFAULT_SENSITIVITY
      ensures lightLeft.base.sensorType == LightSensorKind && lightRight.base.sensorType == LightSensorKind
      ensures foodLeft.base.sensorType == FoodSensorKind && foodRight.base.sensorType == FoodSensorKind
      ensures handler.kind == FearHandler && handler.velocity == WheelVelocity(0.0, 0.0)
      ensures handler.maxSpeed == 10.0 && handler.maxAngle == 360.0
    {
      var ll := new LightSensor();
      var lr := new LightSensor();
      var fl := new FoodSensor();
      var fr := new FoodSensor();
      var h := new MotionHandler(FearHandler);
      lightLeft, lightRight, foodLeft, foodRight, handler := ll, lr, fl, fr, h;
      color := ROBOT_COLOR;
      pose, radius := pose0, radius0;
      robotType := Fear;
      reversing, direcAngle := false, 180;
      hunger, status, foodExist := 0, PLAYING, true;
      Repr := {this, ll, lr, fl, fr, h, ll.base, lr.base, fl.base, fr.base};
    }

    /** is_dead (robot.h:228-230). */
    predicate IsDead()
      reads this
    {
      Dead(hunger, foodExist)
    }

    /**
     * robot.cc:51-70: one timestep, as RobotStep describes it. A dead robot only
     * becomes LOST; otherwise a reversing robot takes one reverse-arc step, any other
     * robot gets its velocity from its handler's speed law, and the pose is integrated.
     */
    method TimestepUpdate(dt: nat, ph: Physics)
      requires Valid()
      modifies this`pose, this`status, this`reversing, this`direcAngle, handler`velocity
      ensures Valid()
      ensures State() == RobotStep(old(State()), dt, ph)
    {
      if !IsDead() {
        if reversing {
          ReverseArc();
        } else {
          handler.UpdateVelocity(lightLeft.base.reading, lightRight.base.reading,
                                 foodLeft.base.reading, foodRight.base.reading, hunger, foodExist);
        }
        pose := ph.move(pose, handler.velocity, dt);
      } else {
        status := LOST;
      }
    }

    /**
     * robot.cc:73-87: a random grid position and heading, a random radius, velocity
     * (0, 0) with the robot speed limits, hunger 0, all sensors 0, no reverse arc and
     * status PLAYING. The robot's type, its handler's kind, the light sensitivity and
     * the food flag are kept.
     */
    method Reset(d: Draw)
      requires Valid()
      modifies this`pose, this`radius, this`hunger, this`reversing, this`direcAngle, this`status
      modifies handler`velocity, handler`maxSpeed, handler`maxAngle
      modifies lightLeft.base`reading, lightRight.base`reading, foodLeft.base`reading, foodRight.base`reading
      ensures Valid()
      ensures State() == RobotReset(old(State()), d)
    {
      PlaceAt(d);
      ResetHungryCounter();
      ResetSensorReading();
      reversing := false;
      direcAngle := 180;
      status := PLAYING;
    }

    /** The first half of Reset (robot.cc:74-81): a new pose and radius, the speed limits, and velocity (0, 0). */
    method PlaceAt(d: Draw)
      modifies this`pose, this`radius, handler`velocity, handler`maxSpeed, handler`maxAngle
      ensures State() == old(State()).(pose := Pose(GridX(d.gridX), GridY(d.gridY), d.heading), radius := d.radius,
        velocity := WheelVelocity(0.0, 0.0), maxSpeed := ROBOT_MAX_SPEED, maxAngle := ROBOT_MAX_ANGLE)
    {
      pose := PoseAt(GridX(d.gridX), GridY(d.gridY));
      handler.SetMaxSpeed(ROBOT_MAX_SPEED);
      handler.SetMaxAngle(ROBOT_MAX_ANGLE);
      pose := pose.(theta := d.heading);
      radius := d.radius;
      handler.SetWheelVelocity(0.0, 0.0);
    }

    /** set_position of the entity base class: a new centre, the heading kept. */
    method SetPosition(x: real, y: real)
      modifies this`pose
      ensures pose == old(pose).(x := x, y := y)
      ensures State() == old(State()).(pose := pose)
    {
      pose := pose.(x := x, y := y);
    }

    /** robot.cc:89-91: only the reverse flag is set. */
    method HandleCollision()
      modifies this`reversing
      ensures ArcOf() == StartArc(old(ArcOf()))
      ensures old(ArcValid(ArcOf())) ==> ArcValid(ArcOf())
      ensures State() == old(State()).(arc := ArcOf())
    {
      reversing := true;
    }

    /**
     * robot.cc:93-107: above 120 count down by 3, turn by -3 and back up at speed 5;
     * at 120 finish the arc and drive forward at speed 5; otherwise do nothing.
     */
    method ReverseArc()
      modifies this`reversing, this`direcAngle, this`pose, handler`velocity
      ensures ArcOf() == ArcStep(old(ArcOf()))
      ensures pose == old(pose).(theta := old(pose).theta + ArcTurn(old(ArcOf())))
      ensures handler.velocity == ArcVelocity(old(ArcOf()), ROBOT_ARC_SPEED, old(handler.velocity))
      ensures old(reversing) && old(ArcValid(ArcOf())) ==> ArcValid(ArcOf())
    {
      if direcAngle > 120 {
        direcAngle := direcAngle - 3;
        pose := pose.(theta := pose.theta + -3.0);
        handler.SetWheelVelocity(-ROBOT_ARC_SPEED, -ROBOT_ARC_SPEED);
      } else if direcAngle == 120 {
        reversing := false;
        direcAngle := 180;
        handler.SetWheelVelocity(ROBOT_ARC_SPEED, ROBOT_ARC_SPEED);
      }
    }

    /** robot.cc:109-117: the gap between the robot's edge and the food's edge is at most 5. */
    predicate IsFeeding(foodPose: Pose, foodRadius: real)
      reads this
    {
      WithinDistance(pose, foodPose, foodRadius + radius + 5.0)
    }

    /** IsFeeding is the source's comparison sqrt(dx*dx + dy*dy) - foodRadius - radius <= 5, for a sound square root. */
    lemma IsFeedingIsGapComparison(foodPose: Pose, foodRadius: real, ph: Physics)
      requires Sound(ph)
      ensures IsFeeding(foodPose, foodRadius) <==> ph.dist(pose, foodPose) - foodRadius - radius <= 5.0
    {
      WithinDistanceIsDistanceComparison(pose, foodPose, foodRadius + radius + 5.0, ph.dist(pose, foodPose));
    }

    /** robot.cc:121-126: both light sensors take the light's contribution at their own positions. */
    method LightNotify(lightPose: Pose, lightRadius: real, ph: Physics)
      requires Valid()
      modifies lightLeft.base`reading, lightRight.base`reading
      ensures Valid()
      ensures lightLeft.base.reading == AccumulateReading(old(lightLeft.base.reading),
        Contribution(ph, lightLeft.sensitivity, lightPose, lightRadius, ph.sensorAt(pose, radius, LEFT_SENSOR)))
      ensures lightRight.base.reading == AccumulateReading(old(lightRight.base.reading),
        Contribution(ph, lightRight.sensitivity, lightPose, lightRadius, ph.sensorAt(pose, radius, RIGHT_SENSOR)))
      ensures State() == LightNotified(old(State()), lightPose, lightRadius, ph)
    {
      lightLeft.CalculateSensorReading(lightPose, lightRadius, ph.sensorAt(pose, radius, LEFT_SENSOR), ph);
      lightRight.CalculateSensorReading(lightPose, lightRadius, ph.sensorAt(pose, radius, RIGHT_SENSOR), ph);
    }

    /** robot.cc:128-133: both food sensors take the food's contribution at their own positions. */
    method FoodNotify(foodPose: Pose, foodRadius: real, ph: Physics)
      requires Valid()
      modifies foodLeft.base`reading, foodRight.base`reading
      ensures Valid()
      ensures foodLeft.base.reading == AccumulateReading(old(foodLeft.base.reading),
        Contribution(ph, FOOD_SENSITIVITY, foodPose, foodRadius, ph.sensorAt(pose, radius, LEFT_SENSOR)))
      ensures foodRight.base.reading == AccumulateReading(old(foodRight.base.reading),
        Contribution(ph, FOOD_SENSITIVITY, foodPose, foodRadius, ph.sensorAt(pose, radius, RIGHT_SENSOR)))
      ensures State() == FoodNotified(old(State()), foodPose, foodRadius, ph)
    {
      foodLeft.CalculateSensorReading(foodPose, foodRadius, ph.sensorAt(pose, radius, LEFT_SENSOR), ph);
      foodRight.CalculateSensorReading(foodPose, foodRadius, ph.sensorAt(pose, radius, RIGHT_SENSOR), ph);
    }

    /** robot.cc:136-138: the robot now carries a fresh Explorer handler. */
    method ChangeToExplore()
      modifies handler
      ensures handler.kind == ExploreHandler && handler.velocity == WheelVelocity(0.0, 0.0)
      ensures handler.maxSpeed == 10.0 && handler.maxAngle == 360.0
      ensures handler.speedDelta == 1.0 && handler.angleDelta == 1.0
    {
      handler.Reinitialize(ExploreHandler);
    }

    /** robot.cc:140-142: the robot now carries a fresh Fear handler. */
    method ChangeToFear()
      modifies handler
      ensures handler.kind == FearHandler && handler.velocity == WheelVelocity(0.0, 0.0)
      ensures handler.maxSpeed == 10.0 && handler.maxAngle == 360.0
      ensures handler.speedDelta == 1.0 && handler.angleDelta == 1.0
    {
      handler.Reinitialize(FearHandler);
    }

    /** robot.h:158-163: all four sensors read 0. */
    method ResetSensorReading()
      requires Valid()
      modifies lightLeft.base`reading, lightRight.base`reading, foodLeft.base`reading, foodRight.base`reading
      ensures Valid()
      ensures lightLeft.base.reading == 0.0 && lightRight.base.reading == 0.0
      ensures foodLeft.base.reading == 0.0 && foodRight.base.reading == 0.0
      ensures State() == SensorsCleared(old(State()))
    {
      lightLeft.base.ZeroReading();
      lightRight.base.ZeroReading();
      foodLeft.base.ZeroReading();
      foodRight.base.ZeroReading();
    }

    /** robot.h:171-177: LEFT_SENSOR reads the left light sensor, any other direction the right one. */
    method GetLightSensorReading(direction: int) returns (r: real)
      ensures r == (if direction == LEFT_SENSOR then lightLeft.base.reading else lightRight.base.reading)
    {
      if direction == LEFT_SENSOR {
        r := lightLeft.base.GetReading();
      } else {
        r := lightRight.base.GetReading();
      }
    }

    /** robot.h:185-191: LEFT_SENSOR writes the left light sensor, any other direction the right one. */
    method SetLightSensorReading(direction: int, reading: real)
      requires Valid()
      modifies lightLeft.base`reading, lightRight.base`reading
      ensures Valid()
      ensures direction == LEFT_SENSOR ==>
        lightLeft.base.reading == ClampReading(reading) && lightRight.base.reading == old(lightRight.base.reading)
      ensures direction != LEFT_SENSOR ==>
        lightRight.base.reading == ClampReading(reading) && lightLeft.base.reading == old(lightLeft.base.reading)
    {
      if direction == LEFT_SENSOR {
        lightLeft.base.SetReading(reading);
      } else {
        lightRight.base.SetReading(reading);
      }
    }

    /** robot.h:197-200: both light sensors, and neither food sensor. */
    method SetLightSensitivity(sense: real)
      requires Valid()
      modifies lightLeft`sensitivity, lightRight`sensitivity
      ensures Valid()
      ensures lightLeft.sensitivity == sense && lightRight.sensitivity == sense
    {
      lightLeft.SetSensitivity(sense);
      lightRight.SetSensitivity(sense);
    }

    /** robot.h:206-208 */
    method SetRobotType(t: RobotType)
      modifies this`robotType
      ensures robotType == t
    {
      robotType := t;
    }

    /** robot.h:214-216 */
    method GetRobotType() returns (t: RobotType)
      ensures t == robotType
    {
      t := robotType;
    }

    /** robot.h:221-223 */
    method ResetHungryCounter()
      modifies this`hunger
      ensures hunger == 0
      ensures State() == old(State()).(hunger := 0)
    {
      hunger := 0;
    }

    /** robot.h:236-238 */
    method SetStatus(s: int)
      modifies this`status
      ensures status == s
    {
      status := s;
    }

    /** robot.h:243-245 */
    method GetStatus() returns (s: int)
      ensures s == status
    {
      s := status;
    }

    /** robot.h:250-252 */
    method IncreaseHungry()
      modifies this`hunger
      ensures hunger == old(hunger) + 1
      ensures State() == old(State()).(hunger := hunger)
    {
      hunger := hunger + 1;
    }

    /** robot.h:254-256 */
    method SetFoodExistence(b: bool)
      modifies this`foodExist
      ensures foodExist == b
    {
      foodExist := b;
    }

    /** robot.h:258-260 */
    method GetLeftVelocity() returns (vl: real)
      ensures vl == handler.velocity.left
    {
      vl := handler.GetLeftVelocity();
    }

    /** robot.h:262-264 */
    method GetRightVelocity() returns (vr: real)
      ensures vr == handler.velocity.right
    {
      vr := handler.GetRightVelocity();
    }

    /** robot.h:96-102: "E" for an Explorer, "C" (coward) for any other type. */
    function GetName(): string
      reads this
    {
      if robotType == Explorer then "E" else "C"
    }
  }
}
