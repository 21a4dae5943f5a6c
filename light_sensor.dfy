/** A light sensor: a Sensor of light type with its own falloff base (light_sensor.h, light_sensor.cc). */
module LightSensors {
  import opened Params
  import opened Geometry
  import opened Numerics
  import opened Sensors

  /** light_sensor.h: the default falloff base. */
  const DEFAULT_SENSITIVITY: real := 1.08

  class LightSensor {
    // the inherited Sensor state
    const base: Sensor
    var sensitivity: real

    /** light_sensor.h:41-43 */
    constructor ()
      ensures fresh(base) && base.Valid()
      ensures base.reading == 0.0 && base.sensorType == LightSensorKind
      ensures sensitivity == DEFAULT_SENSITIVITY
    {
      sensitivity := DEFAULT_SENSITIVITY;
      base := new Sensor();
      new;
      base.SetSensorType(LightSensorKind);
    }

    /** light_sensor.h:58-60 */
    method SetSensitivity(sense: real)
      modifies this`sensitivity
      ensures sensitivity == sense
    {
      sensitivity := sense;
    }

    /**
     * light_sensor.cc:28-48: add the falloff term of a light to the reading and clamp.
     * Only the reading changes.
     */
    method CalculateSensorReading(lightPose: Pose, lightRadius: real, sensorPose: Pose, ph: Physics)
      modifies base`reading
      ensures base.Valid()
      ensures base.reading == AccumulateReading(old(base.reading), Contribution(ph, sensitivity, lightPose, lightRadius, sensorPose))
    {
      var distanceBetween := ph.dist(sensorPose, lightPose) - lightRadius;
      if distanceBetween < 0.0 {
        distanceBetween := 0.0;
      }
      var current := base.GetReading();
      var readingToSet := current + ph.falloff(sensitivity, distanceBetween);
      // keep the reading no greater than the maximum reading
      if readingToSet > MAX_READING {
        base.SetReading(MAX_READING);
      } else {
        base.SetReading(readingToSet);
      }
    }
  }
}
