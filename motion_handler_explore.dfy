/**
 * The Explorer wheel-speed laws (motion_handler_explore.cc): crossed and
 * inhibitory with respect to light, with a hunger-driven blend towards food.
 */
module ExplorePolicy {
  import opened Params
  import opened Geometry
  import opened Wheels
  import FearPolicy

  /** LeftSpeedExplore / RightSpeedExplore (motion_handler_explore.cc:49-55): 10 * (1 - reading / 1000), clamped. */
  function SpeedExplore(ltReading: real, maxSpeed: real): real
  {
    ClampVel(10.0 * (1.0 - ltReading / 1000.0), maxSpeed)
  }

  /** LeftSpeedAggressive / RightSpeedAggressive (motion_handler_explore.cc:57-63). */
  function SpeedAggressive(fdReading: real, maxSpeed: real): real
  {
    ClampVel(10.0 * (fdReading / 1000.0), maxSpeed)
  }

  /** LeftSpeedHungry / RightSpeedHungry (motion_handler_explore.cc:65-75): a 50/50 blend. */
  function SpeedHungry(ltReading: real, fdReading: real, maxSpeed: real): real
  {
    ClampVel(0.5 * SpeedExplore(ltReading, maxSpeed) + 0.5 * SpeedAggressive(fdReading, maxSpeed), maxSpeed)
  }

  /**
   * The wheel velocity MotionHandlerExplore::UpdateVelocity sets
   * (motion_handler_explore.cc:25-47). Light readings are crossed: the left wheel
   * uses the right light sensor; so are the food readings.
   */
  function ExploreVelocity(ltLeft: real, ltRight: real, fdLeft: real, fdRight: real,
                           hungryLevel: int, hungerExist: bool, maxSpeed: real): (v: WheelVelocity)
    ensures maxSpeed >= 0.0 ==> Bounded(v, maxSpeed)
  {
    if !hungerExist then
      WheelVelocity(SpeedExplore(ltRight, maxSpeed), SpeedExplore(ltLeft, maxSpeed))
    else if hungryLevel > HUNGRY && hungryLevel < STARVE then
      WheelVelocity(SpeedHungry(ltRight, fdRight, maxSpeed), SpeedHungry(ltLeft, fdLeft, maxSpeed))
    else if hungryLevel >= STARVE then
      WheelVelocity(SpeedAggressive(fdRight, maxSpeed), SpeedAggressive(fdLeft, maxSpeed))
    else
      WheelVelocity(SpeedExplore(ltRight, maxSpeed), SpeedExplore(ltLeft, maxSpeed))
  }

  predicate InRange(r: real) { MIN_READING <= r <= MAX_READING }

  /** With food off and readings in range, each wheel is 10 - (opposite light reading) / 100, with no clamping. */
  lemma ExploreFoodOff(ltLeft: real, ltRight: real, fdLeft: real, fdRight: real, hungryLevel: int)
    requires InRange(ltLeft) && InRange(ltRight)
    ensures ExploreVelocity(ltLeft, ltRight, fdLeft, fdRight, hungryLevel, false, ROBOT_MAX_SPEED)
         == WheelVelocity(10.0 - ltRight / 100.0, 10.0 - ltLeft / 100.0)
  {
  }

  /** Maximal light readings stop both wheels; zero readings give both wheels the cap. */
  lemma ExploreBoundaryReadings(fdLeft: real, fdRight: real, hungryLevel: int)
    ensures ExploreVelocity(MAX_READING, MAX_READING, fdLeft, fdRight, hungryLevel, false, ROBOT_MAX_SPEED) == WheelVelocity(0.0, 0.0)
    ensures ExploreVelocity(0.0, 0.0, fdLeft, fdRight, hungryLevel, false, ROBOT_MAX_SPEED) == WheelVelocity(10.0, 10.0)
  {
  }

  /** The expected outputs of the unit tests (motion_handler_unittest.cc:254-351). */
  lemma ExploreTestVectors()
    ensures ExploreVelocity(1000.0, 1000.0, 0.0, 0.0, 0, false, 10.0) == WheelVelocity(0.0, 0.0)
    ensures ExploreVelocity(0.0, 0.0, 0.0, 0.0, 0, false, 10.0) == WheelVelocity(10.0, 10.0)
    ensures ExploreVelocity(500.0, 10.0, 0.0, 0.0, 0, false, 10.0) == WheelVelocity(9.9, 5.0)
    ensures ExploreVelocity(10.0, 500.0, 0.0, 0.0, 0, false, 10.0) == WheelVelocity(5.0, 9.9)
    ensures ExploreVelocity(360.0, 360.0, 0.0, 0.0, 0, false, 10.0) == WheelVelocity(6.4, 6.4)
    ensures ExploreVelocity(100.0, 370.0, 0.0, 0.0, 0, false, 10.0) == WheelVelocity(6.3, 9.0)
    ensures ExploreVelocity(370.0, 100.0, 0.0, 0.0, 0, false, 10.0) == WheelVelocity(9.0, 6.3)
  {
  }

  /** With food on but hunger at most HUNGRY, the food readings are ignored: same as food off. */
  lemma ExploreNotHungryIsFoodOff(ltLeft: real, ltRight: real, fdLeft: real, fdRight: real, hungryLevel: int, maxSpeed: real)
    requires hungryLevel <= HUNGRY
    ensures ExploreVelocity(ltLeft, ltRight, fdLeft, fdRight, hungryLevel, true, maxSpeed)
         == ExploreVelocity(ltLeft, ltRight, fdLeft, fdRight, hungryLevel, false, maxSpeed)
  {
  }

  /** Between HUNGRY and STARVE each wheel is the mean of the explore and aggressive speeds. */
  lemma ExploreHungryBlend(ltLeft: real, ltRight: real, fdLeft: real, fdRight: real, hungryLevel: int)
    requires HUNGRY < hungryLevel < STARVE
    requires InRange(ltLeft) && InRange(ltRight) && InRange(fdLeft) && InRange(fdRight)
    ensures ExploreVelocity(ltLeft, ltRight, fdLeft, fdRight, hungryLevel, true, ROBOT_MAX_SPEED)
         == WheelVelocity(0.5 * (10.0 - ltRight / 100.0) + 0.5 * (fdRight / 100.0),
                          0.5 * (10.0 - ltLeft / 100.0) + 0.5 * (fdLeft / 100.0))
  {
  }

  /** At STARVE and beyond only the food readings matter, crossed. */
  lemma ExploreStarvingIgnoresLight(lt1: real, lt2: real, lt3: real, lt4: real,
                                    fdLeft: real, fdRight: real, hungryLevel: int, maxSpeed: real)
    requires hungryLevel >= STARVE
    ensures ExploreVelocity(lt1, lt2, fdLeft, fdRight, hungryLevel, true, maxSpeed)
         == ExploreVelocity(lt3, lt4, fdLeft, fdRight, hungryLevel, true, maxSpeed)
    ensures InRange(fdLeft) && InRange(fdRight) ==>
      ExploreVelocity(lt1, lt2, fdLeft, fdRight, hungryLevel, true, ROBOT_MAX_SPEED)
        == WheelVelocity(fdRight / 100.0, fdLeft / 100.0)
  {
  }

  /** With food off and readings in range both wheels lie in [0, 10], and the brighter side's wheel is strictly faster. */
  lemma ExploreWheelOrder(ltLeft: real, ltRight: real, fdLeft: real, fdRight: real, hungryLevel: int)
    requires InRange(ltLeft) && InRange(ltRight)
    ensures var v := ExploreVelocity(ltLeft, ltRight, fdLeft, fdRight, hungryLevel, false, ROBOT_MAX_SPEED);
      && 0.0 <= v.left <= 10.0 && 0.0 <= v.right <= 10.0
      && (ltLeft > ltRight <==> v.left > v.right)
      && (ltLeft == ltRight <==> v.left == v.right)
  {
    ExploreFoodOff(ltLeft, ltRight, fdLeft, fdRight, hungryLevel);
  }

  /**
   * Fear and Explorer, as wired, turn the same way: with food off and the left light
   * reading higher, both give the left wheel the higher speed.
   */
  lemma FearAndExplorerTurnAlike(ltLeft: real, ltRight: real, fdLeft: real, fdRight: real, hungryLevel: int)
    requires InRange(ltLeft) && InRange(ltRight) && ltLeft > ltRight
    ensures FearPolicy.FearVelocity(ltLeft, ltRight, fdLeft, fdRight, hungryLevel, false, ROBOT_MAX_SPEED).left
          > FearPolicy.FearVelocity(ltLeft, ltRight, fdLeft, fdRight, hungryLevel, false, ROBOT_MAX_SPEED).right
    ensures ExploreVelocity(ltLeft, ltRight, fdLeft, fdRight, hungryLevel, false, ROBOT_MAX_SPEED).left
          > ExploreVelocity(ltLeft, ltRight, fdLeft, fdRight, hungryLevel, false, ROBOT_MAX_SPEED).right
  {
    FearPolicy.FearBrighterSideFaster(ltLeft, ltRight, fdLeft, fdRight, hungryLevel);
    ExploreWheelOrder(ltLeft, ltRight, fdLeft, fdRight, hungryLevel);
  }
}
