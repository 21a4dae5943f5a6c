/** A food sensor: a Sensor of food type with the fixed falloff base 1.01 (food_sensor.h, food_sensor.cc). */
module FoodSensors {
  import opened Params
  import opened Geometry
  import opened Numerics
  import opened Sensors

  /** food_sensor.cc:38: the fixed falloff base. */
  const FOOD_SENSITIVITY: real := 1.01

  class FoodSensor {
    // the inherited Sensor state
    const base: Sensor

    /** food_sensor.h:42-44 */
    constructor ()
      ensures fresh(base) && base.Valid()
      ensures base.reading == 0.0 && base.sensorType == FoodSensorKind
    {
      base := new Sensor();
      new;
      base.SetSensorType(FoodSensorKind);
    }

    /**
     * food_sensor.cc:28-46: add the falloff term of a food source to the reading
     * and clamp. Only the reading changes.
     */
    method CalculateSensorReading(foodPose: Pose, foodRadius: real, sensorPose: Pose, ph: Physics)
      modifies base`reading
      ensures base.Valid()
      ensures base.reading == AccumulateReading(old(base.reading), Contribution(ph, FOOD_SENSITIVITY, foodPose, foodRadius, sensorPose))
    {
      var distanceBetween := ph.dist(sensorPose, foodPose) - foodRadius;
      if distanceBetween < 0.0 {
        distanceBetween := 0.0;
      }
      var current := base.GetReading();
      var readingToSet := current + ph.falloff(FOOD_SENSITIVITY, distanceBetween);
      // keep the reading no greater than the maximum reading
      if readingToSet > MAX_READING {
        base.SetReading(MAX_READING);
      } else {
        base.SetReading(readingToSet);
      }
    }
  }
}
