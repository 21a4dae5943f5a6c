/**
 * The Fear wheel-speed laws (motion_handler_fear.cc): uncrossed and excitatory
 * towards light, with a hunger-driven blend towards food.
 */
module FearPolicy {
  import opened Params
  import opened Geometry
  import opened Wheels

  /** LeftSpeedFear / RightSpeedFear (motion_handler_fear.cc:49-55): 10 * reading / 1000, clamped. */
  function SpeedFear(ltReading: real, maxSpeed: real): real
  {
    ClampVel(10.0 * (ltReading / 1000.0), maxSpeed)
  }

  /** LeftSpeedAggressive / RightSpeedAggressive (motion_handler_fear.cc:57-63). */
  function SpeedAggressive(fdReading: real, maxSpeed: real): real
  {
    ClampVel(10.0 * (fdReading / 1000.0), maxSpeed)
  }

  /** LeftSpeedHungry / RightSpeedHungry (motion_handler_fear.cc:65-75): a 60/40 blend. */
  function SpeedHungry(ltReading: real, fdReading: real, maxSpeed: real): real
  {
    ClampVel(0.6 * SpeedFear(ltReading, maxSpeed) + 0.4 * SpeedAggressive(fdReading, maxSpeed), maxSpeed)
  }

  /**
   * The wheel velocity MotionHandlerFear::UpdateVelocity sets
   * (motion_handler_fear.cc:26-45). Food readings are crossed: the left wheel
   * uses the right food sensor.
   */
  function FearVelocity(ltLeft: real, ltRight: real, fdLeft: real, fdRight: real,
                        hungryLevel: int, hungerExist: bool, maxSpeed: real): (v: WheelVelocity)
    ensures maxSpeed >= 0.0 ==> Bounded(v, maxSpeed)
  {
    if !hungerExist then
      WheelVelocity(SpeedFear(ltLeft, maxSpeed), SpeedFear(ltRight, maxSpeed))
    else if hungryLevel > HUNGRY && hungryLevel < STARVE then
      WheelVelocity(SpeedHungry(ltLeft, fdRight, maxSpeed), SpeedHungry(ltRight, fdLeft, maxSpeed))
    else if hungryLevel >= STARVE then
      WheelVelocity(SpeedAggressive(fdRight, maxSpeed), SpeedAggressive(fdLeft, maxSpeed))
    else
      WheelVelocity(SpeedFear(ltLeft, maxSpeed), SpeedFear(ltRight, maxSpeed))
  }

  predicate InRange(r: real) { MIN_READING <= r <= MAX_READING }

  /** With food off and readings in range, each wheel is its own light reading / 100 (uncrossed, no clamping at the robot's speed cap). */
  lemma FearFoodOff(ltLeft: real, ltRight: real, fdLeft: real, fdRight: real, hungryLevel: int)
    requires InRange(ltLeft) && InRange(ltRight)
    ensures FearVelocity(ltLeft, ltRight, fdLeft, fdRight, hungryLevel, false, ROBOT_MAX_SPEED)
         == WheelVelocity(ltLeft / 100.0, ltRight / 100.0)
  {
  }

  /** Readings at or past the maximum drive both wheels at the cap; zero readings stop both. */
  lemma FearBoundaryReadings(lt: real, fdLeft: real, fdRight: real, hungryLevel: int)
    requires lt >= MAX_READING
    ensures FearVelocity(lt, lt, fdLeft, fdRight, hungryLevel, false, ROBOT_MAX_SPEED) == WheelVelocity(10.0, 10.0)
    ensures FearVelocity(0.0, 0.0, fdLeft, fdRight, hungryLevel, false, ROBOT_MAX_SPEED) == WheelVelocity(0.0, 0.0)
  {
  }

  /** The expected outputs of the unit tests (motion_handler_unittest.cc:135-246). */
  lemma FearTestVectors()
    ensures FearVelocity(1000.0, 1000.0, 0.0, 0.0, 0, false, 10.0) == WheelVelocity(10.0, 10.0)
    ensures FearVelocity(1200.0, 1200.0, 0.0, 0.0, 0, false, 10.0) == WheelVelocity(10.0, 10.0)
    ensures FearVelocity(500.0, 10.0, 0.0, 0.0, 0, false, 10.0) == WheelVelocity(5.0, 0.1)
    ensures FearVelocity(10.0, 500.0, 0.0, 0.0, 0, false, 10.0) == WheelVelocity(0.1, 5.0)
    ensures FearVelocity(700.0, 700.0, 0.0, 0.0, 0, false, 10.0) == WheelVelocity(7.0, 7.0)
    ensures FearVelocity(80.0, 800.0, 0.0, 0.0, 0, false, 10.0) == WheelVelocity(0.8, 8.0)
    ensures FearVelocity(800.0, 80.0, 0.0, 0.0, 0, false, 10.0) == WheelVelocity(8.0, 0.8)
  {
  }

  /** With food on but hunger at most HUNGRY, the food readings are ignored: same as food off. */
  lemma FearNotHungryIsFoodOff(ltLeft: real, ltRight: real, fdLeft: real, fdRight: real, hungryLevel: int, maxSpeed: real)
    requires hungryLevel <= HUNGRY
    ensures FearVelocity(ltLeft, ltRight, fdLeft, fdRight, hungryLevel, true, maxSpeed)
         == FearVelocity(ltLeft, ltRight, fdLeft, fdRight, hungryLevel, false, maxSpeed)
  {
  }

  /** Between HUNGRY and STARVE each wheel is 0.6 * fear + 0.4 * aggressive, the left wheel taking the right food reading. */
  lemma FearHungryBlend(ltLeft: real, ltRight: real, fdLeft: real, fdRight: real, hungryLevel: int)
    requires HUNGRY < hungryLevel < STARVE
    requires InRange(ltLeft) && InRange(ltRight) && InRange(fdLeft) && InRange(fdRight)
    ensures FearVelocity(ltLeft, ltRight, fdLeft, fdRight, hungryLevel, true, ROBOT_MAX_SPEED)
         == WheelVelocity(0.6 * (ltLeft / 100.0) + 0.4 * (fdRight / 100.0),
                          0.6 * (ltRight / 100.0) + 0.4 * (fdLeft / 100.0))
  {
  }

  /** At STARVE and beyond the light readings do not matter, and the wheels follow the crossed food readings. */
  lemma FearStarvingIgnoresLight(lt1: real, lt2: real, lt3: real, lt4: real,
                                 fdLeft: real, fdRight: real, hungryLevel: int, maxSpeed: real)
    requires hungryLevel >= STARVE
    ensures FearVelocity(lt1, lt2, fdLeft, fdRight, hungryLevel, true, maxSpeed)
         == FearVelocity(lt3, lt4, fdLeft, fdRight, hungryLevel, true, maxSpeed)
    ensures InRange(fdLeft) && InRange(fdRight) ==>
      FearVelocity(lt1, lt2, fdLeft, fdRight, hungryLevel, true, ROBOT_MAX_SPEED)
        == WheelVelocity(fdRight / 100.0, fdLeft / 100.0)
  {
  }

  /** With food off, the wheel on the side with the higher light reading is strictly faster, and equal readings give equal speeds. */
  lemma FearBrighterSideFaster(ltLeft: real, ltRight: real, fdLeft: real, fdRight: real, hungryLevel: int)
    requires InRange(ltLeft) && InRange(ltRight)
    ensures var v := FearVelocity(ltLeft, ltRight, fdLeft, fdRight, hungryLevel, false, ROBOT_MAX_SPEED);
      && (ltLeft > ltRight <==> v.left > v.right)
      && (ltLeft == ltRight <==> v.left == v.right)
  {
    FearFoodOff(ltLeft, ltRight, fdLeft, fdRight, hungryLevel);
  }
}
