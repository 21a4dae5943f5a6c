/**
 * The effect of each phase of Arena::UpdateEntitiesTimestep and of the arena's
 * set-up on one entity's state, written as functions so that the arena's methods
 * can be proved against them.
 */
module ArenaSteps {
  import opened Params
  import opened Geometry
  import opened Numerics
  import opened Sensors
  import opened FoodSensors
  import opened ReverseArcs
  import opened MotionHandlers
  import opened Robots
  import opened Walls

  /** static_cast<int> of a double: truncation toward zero. */
  function Trunc(x: real): (t: int)
    ensures x >= 0.0 ==> t as real <= x < t as real + 1.0
    ensures x < 0.0 ==> t as real - 1.0 < x <= t as real
  {
    if x >= 0.0 then x.Floor else -((-x).Floor)
  }

  /** AddRobot (arena.cc:58-60): the number of robots that stay Fear, quantity * ratio / 100 truncated. */
  function FearCount(quantity: int, ratio: int): int
  {
    Trunc((quantity as real) * ((ratio as real) / 100.0))
  }

  /** For a percentage ratio the Fear count lies between 0 and the number of robots; 0 and 100 are exact. */
  lemma FearCountBounds(quantity: int, ratio: int)
    requires quantity >= 0 && 0 <= ratio <= 100
    ensures 0 <= FearCount(quantity, ratio) <= quantity
    ensures ratio == 0 ==> FearCount(quantity, ratio) == 0
    ensures ratio == 100 ==> FearCount(quantity, ratio) == quantity
  {
    var x := (quantity as real) * ((ratio as real) / 100.0);
    assert 0.0 <= x <= quantity as real by {
      assert 0.0 <= (ratio as real) / 100.0 <= 1.0;
    }
  }

  /** AddRobot (arena.cc:61): the light sensitivity given to every robot. */
  function Sensitivity(lightSense: int): real
  {
    1.001 + (lightSense as real) / 1000.0
  }

  /** Each slider step adds 0.001 to the sensitivity, and any non-negative setting gives a falloff base above 1. */
  lemma SensitivityAboveOne(lightSense: int)
    ensures Sensitivity(lightSense + 1) == Sensitivity(lightSense) + 0.001
    ensures lightSense >= 0 ==> Sensitivity(lightSense) > 1.0
  {
  }

  /** The state of a robot AddRobot has just made (arena.cc:64-76, robot.cc:34-49). */
  function NewRobot(pl: Placement, explorer: bool, sense: real, foodOn: bool): RobotState
  {
    RobotState(pl.pose, pl.radius, if explorer then Explorer else Fear, IDLE, 0, PLAYING, foodOn,
               0.0, 0.0, 0.0, 0.0, sense, sense,
               if explorer then ExploreHandler else FearHandler, WheelVelocity(0.0, 0.0), 10.0, 360.0)
  }

  /** A new robot's type and its handler's kind agree, and its name says which it is. */
  lemma NewRobotConsistent(pl: Placement, explorer: bool, sense: real, foodOn: bool)
    ensures var s := NewRobot(pl, explorer, sense, foodOn);
      && (s.robotType == Explorer <==> s.kind == ExploreHandler)
      && (s.robotType == Fear <==> s.kind == FearHandler)
      && ArcValid(s.arc) && s.status == PLAYING && !Dead(s.hunger, s.foodExist)
  {
  }

  /** The contributions a sequence of sources make to a sensor with base b at `at`, in entity order. */
  function Terms(ph: Physics, b: real, at: Pose, ds: seq<Disc>): (cs: seq<real>)
    ensures |cs| == |ds|
    ensures forall k :: 0 <= k < |ds| ==> cs[k] == Contribution(ph, b, ds[k].pose, ds[k].radius, at)
    decreases |ds|
  {
    if ds == [] then []
    else Terms(ph, b, at, ds[..|ds| - 1]) + [Contribution(ph, b, ds[|ds| - 1].pose, ds[|ds| - 1].radius, at)]
  }

  /** With a sound falloff and a positive base every source contributes something positive. */
  lemma TermsPositive(ph: Physics, b: real, at: Pose, ds: seq<Disc>)
    requires Sound(ph) && 0.0 < b
    ensures AllPositive(Terms(ph, b, at, ds))
  {
  }

  /** The left and right light readings after every light in `ds` has notified the robot (arena.cc:133-137). */
  function LitBy(s: RobotState, ds: seq<Disc>, ph: Physics): RobotState
  {
    s.(ltLeft := AccumulateAll(s.ltLeft, Terms(ph, s.sensLeft, ph.sensorAt(s.pose, s.radius, LEFT_SENSOR), ds)),
       ltRight := AccumulateAll(s.ltRight, Terms(ph, s.sensRight, ph.sensorAt(s.pose, s.radius, RIGHT_SENSOR), ds)))
  }

  /**
   * From zeroed sensors, each light reading after the light pass is the clamped sum
   * min(1000, sum of the lights' contributions): it is in range, and a light whose
   * disc covers the sensor point saturates it.
   */
  lemma LitByIsClampedSum(s: RobotState, ds: seq<Disc>, ph: Physics)
    requires Sound(ph) && s.ltLeft == 0.0 && s.ltRight == 0.0
    requires 0.0 < s.sensLeft && 0.0 < s.sensRight
    ensures var t := LitBy(s, ds, ph);
      && t.ltLeft == Min(MAX_READING, Sum(Terms(ph, s.sensLeft, ph.sensorAt(s.pose, s.radius, LEFT_SENSOR), ds)))
      && t.ltRight == Min(MAX_READING, Sum(Terms(ph, s.sensRight, ph.sensorAt(s.pose, s.radius, RIGHT_SENSOR), ds)))
      && MIN_READING <= t.ltLeft <= MAX_READING && MIN_READING <= t.ltRight <= MAX_READING
  {
    var at1 := ph.sensorAt(s.pose, s.radius, LEFT_SENSOR);
    var at2 := ph.sensorAt(s.pose, s.radius, RIGHT_SENSOR);
    TermsPositive(ph, s.sensLeft, at1, ds);
    TermsPositive(ph, s.sensRight, at2, ds);
    AccumulateAllIsClampedSum(0.0, Terms(ph, s.sensLeft, at1, ds));
    AccumulateAllIsClampedSum(0.0, Terms(ph, s.sensRight, at2, ds));
    SumNonNegative(Terms(ph, s.sensLeft, at1, ds));
    SumNonNegative(Terms(ph, s.sensRight, at2, ds));
  }

  /** One more light notifying the robot is one more LightNotify. */
  lemma LitBySnoc(s: RobotState, ds: seq<Disc>, d: Disc, ph: Physics)
    ensures LitBy(s, ds + [d], ph) == LightNotified(LitBy(s, ds, ph), d.pose, d.radius, ph)
  {
    var at1 := ph.sensorAt(s.pose, s.radius, LEFT_SENSOR);
    var at2 := ph.sensorAt(s.pose, s.radius, RIGHT_SENSOR);
    assert (ds + [d])[..|ds|] == ds;
    AccumulateAllSnoc(s.ltLeft, Terms(ph, s.sensLeft, at1, ds), Contribution(ph, s.sensLeft, d.pose, d.radius, at1));
    AccumulateAllSnoc(s.ltRight, Terms(ph, s.sensRight, at2, ds), Contribution(ph, s.sensRight, d.pose, d.radius, at2));
  }

  /** From zeroed food sensors, each food reading after the food pass is min(1000, sum of the foods' contributions). */
  lemma FedByIsClampedSum(s: RobotState, ds: seq<Disc>, ph: Physics)
    requires Sound(ph) && s.fdLeft == 0.0 && s.fdRight == 0.0
    ensures var t := FedBy(s, ds, ph);
      && t.fdLeft == Min(MAX_READING, Sum(Terms(ph, FOOD_SENSITIVITY, ph.sensorAt(s.pose, s.radius, LEFT_SENSOR), ds)))
      && t.fdRight == Min(MAX_READING, Sum(Terms(ph, FOOD_SENSITIVITY, ph.sensorAt(s.pose, s.radius, RIGHT_SENSOR), ds)))
      && MIN_READING <= t.fdLeft <= MAX_READING && MIN_READING <= t.fdRight <= MAX_READING
  {
    var at1 := ph.sensorAt(s.pose, s.radius, LEFT_SENSOR);
    var at2 := ph.sensorAt(s.pose, s.radius, RIGHT_SENSOR);
    TermsPositive(ph, FOOD_SENSITIVITY, at1, ds);
    TermsPositive(ph, FOOD_SENSITIVITY, at2, ds);
    AccumulateAllIsClampedSum(0.0, Terms(ph, FOOD_SENSITIVITY, at1, ds));
    AccumulateAllIsClampedSum(0.0, Terms(ph, FOOD_SENSITIVITY, at2, ds));
    SumNonNegative(Terms(ph, FOOD_SENSITIVITY, at1, ds));
    SumNonNegative(Terms(ph, FOOD_SENSITIVITY, at2, ds));
  }

  /** Is the robot disc (p, r) within 5 of some food disc? (arena.cc:147, robot.cc:109-117) */
  predicate FeedsOn(p: Pose, r: real, ds: seq<Disc>)
  {
    exists k :: 0 <= k < |ds| && WithinDistance(p, ds[k].pose, ds[k].radius + r + 5.0)
  }

  /**
   * The food readings and hunger after every food in `ds` has notified the robot
   * (arena.cc:140-151): the readings accumulate, and a robot close enough to any
   * food has its hunger counter reset.
   */
  function FedBy(s: RobotState, ds: seq<Disc>, ph: Physics): RobotState
  {
    s.(fdLeft := AccumulateAll(s.fdLeft, Terms(ph, FOOD_SENSITIVITY, ph.sensorAt(s.pose, s.radius, LEFT_SENSOR), ds)),
       fdRight := AccumulateAll(s.fdRight, Terms(ph, FOOD_SENSITIVITY, ph.sensorAt(s.pose, s.radius, RIGHT_SENSOR), ds)),
       hunger := if FeedsOn(s.pose, s.radius, ds) then 0 else s.hunger)
  }

  /**
   * The body of the food loop for one robot (arena.cc:141-150): the food notifies the
   * robot, and a robot close enough to it has its hunger counter reset.
   */
  function Fed(s: RobotState, d: Disc, ph: Physics): RobotState
  {
    var t := FoodNotified(s, d.pose, d.radius, ph);
    if WithinDistance(s.pose, d.pose, d.radius + s.radius + 5.0) then t.(hunger := 0) else t
  }

  /** One more food notifying the robot is one more pass of the food loop's body. */
  lemma FedBySnoc(s: RobotState, ds: seq<Disc>, d: Disc, ph: Physics)
    ensures FedBy(s, ds + [d], ph) == Fed(FedBy(s, ds, ph), d, ph)
  {
    var at1 := ph.sensorAt(s.pose, s.radius, LEFT_SENSOR);
    var at2 := ph.sensorAt(s.pose, s.radius, RIGHT_SENSOR);
    assert (ds + [d])[..|ds|] == ds;
    AccumulateAllSnoc(s.fdLeft, Terms(ph, FOOD_SENSITIVITY, at1, ds), Contribution(ph, FOOD_SENSITIVITY, d.pose, d.radius, at1));
    AccumulateAllSnoc(s.fdRight, Terms(ph, FOOD_SENSITIVITY, at2, ds), Contribution(ph, FOOD_SENSITIVITY, d.pose, d.radius, at2));
    FeedsOnSnoc(s.pose, s.radius, ds, d);
  }

  /** A robot feeds on ds + [d] exactly when it feeds on ds or is close enough to d. */
  lemma FeedsOnSnoc(p: Pose, r: real, ds: seq<Disc>, d: Disc)
    ensures FeedsOn(p, r, ds + [d]) <==> FeedsOn(p, r, ds) || WithinDistance(p, d.pose, d.radius + r + 5.0)
  {
    var ds' := ds + [d];
    if FeedsOn(p, r, ds) {
      var k :| 0 <= k < |ds| && WithinDistance(p, ds[k].pose, ds[k].radius + r + 5.0);
      assert ds'[k] == ds[k];
    }
    if WithinDistance(p, d.pose, d.radius + r + 5.0) {
      assert ds'[|ds|] == d;
    }
    if FeedsOn(p, r, ds') {
      var k :| 0 <= k < |ds'| && WithinDistance(p, ds'[k].pose, ds'[k].radius + r + 5.0);
      if k < |ds| {
        assert ds'[k] == ds[k];
      }
    }
  }

  /** Feeding never makes a robot hungrier: its counter is either kept or reset to 0. */
  lemma FedByHunger(s: RobotState, ds: seq<Disc>, ph: Physics)
    ensures FedBy(s, ds, ph).hunger == 0 || FedBy(s, ds, ph).hunger == s.hunger
    ensures (exists k :: 0 <= k < |ds| && WithinDistance(s.pose, ds[k].pose, ds[k].radius + s.radius + 5.0))
            ==> FedBy(s, ds, ph).hunger == 0
  {
  }

  /** The robot loop body (arena.cc:158-159): a timestep, then one more unit of hunger. */
  function Tick(s: RobotState, ph: Physics): RobotState
  {
    var t := RobotStep(s, 1, ph);
    t.(hunger := t.hunger + 1)
  }

  /**
   * A tick always adds one to the hunger counter, and leaves a robot LOST exactly
   * when it was dead or already LOST.
   */
  lemma TickStatus(s: RobotState, ph: Physics)
    ensures Tick(s, ph).hunger == s.hunger + 1
    ensures Tick(s, ph).status == LOST <==> Dead(s.hunger, s.foodExist) || s.status == LOST
  {
    RobotStepStatus(s, 1, ph);
  }

  /** The collision pass's effect on a mobile entity: it is moved and, if it touched anything, starts an arc. */
  function Bumped(arc: Arc, st: Settle): Arc
  {
    if st.hit then StartArc(arc) else arc
  }

  /** A bump keeps the countdown valid and never restarts one under way. */
  lemma BumpedValid(arc: Arc, st: Settle)
    ensures ArcValid(arc) ==> ArcValid(Bumped(arc, st))
    ensures Bumped(arc, st).angle == arc.angle
  {
  }
}
