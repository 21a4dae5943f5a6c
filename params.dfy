/** Constants and enumerations of the simulator (params.h, sensor_type.h, robot_type.h). */
module Params {

  // arena (params.h:24-25, 34-35)
  const ARENA_X_DIM: real := 1024.0
  const ARENA_Y_DIM: real := 768.0

  // game status codes (params.h:38-40)
  const WON: int := 0
  const LOST: int := 1
  const PLAYING: int := 2

  // hunger thresholds, in timesteps (params.h:43-45)
  const HUNGRY: int := 600
  const STARVE: int := 2400
  const DEAD: int := 3000

  // robot (params.h:73-74)
  const ROBOT_MAX_SPEED: real := 10.0
  const ROBOT_MAX_ANGLE: real := 360.0

  // food (params.h:78)
  const FOOD_RADIUS: real := 20.0

  // light (params.h:90-92)
  const LIGHT_SPEED: real := 4.0
  const LIGHT_MIN_RADIUS: real := 10.0
  const LIGHT_MAX_RADIUS: real := 50.0

  // sensor angles and reading limits (params.h:103-106)
  const RIGHT_SENSOR: int := 40
  const LEFT_SENSOR: int := -40
  const MAX_READING: real := 1000.0
  const MIN_READING: real := 0.0

  /** An RGB colour. */
  datatype Color = Color(red: int, green: int, blue: int)

  const ROBOT_COLOR: Color := Color(0, 0, 255)
  const FOOD_COLOR: Color := Color(255, 0, 0)
  const FOOD_COLOR_CHANGE: Color := Color(255, 100, 20)
  const LIGHT_COLOR: Color := Color(255, 255, 255)

  /** sensor_type.h:20-22 */
  datatype SensorType = LightSensorKind | FoodSensorKind

  /** robot_type.h:20-22 */
  datatype RobotType = Fear | Explorer | Aggressive
}
