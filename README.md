# Braitenberg vehicle simulator — a Dafny model

The simulator runs robots inside a rectangular arena together with moving
lights and fixed food items. Each robot has:

- a left and a right light sensor;
- a left and a right food sensor;
- a motion handler that turns the four readings into wheel speeds;
- a hunger counter.

A robot's behaviour depends on its kind:

- a *Fear* robot wires its light sensors uncrossed and excitatory;
- an *Explorer* wires them crossed and inhibitory;
- both blend in food readings once they are hungry, and follow food alone once they are starving;
- a robot whose hunger counter reaches the DEAD threshold while food is on is LOST, and the game is then over.

Every timestep has five phases:

1. all readings are zeroed;
2. each light moves and notifies every robot;
3. each food item notifies every robot, and feeds those close enough;
4. each robot moves and gets hungrier, until one is LOST;
5. the robots and lights are settled against the walls and against the others of their own kind, and every entity that touched something starts a reverse arc.

The controller throttles the viewer's time steps and translates its commands for the arena.

The model follows the program's structure in its own form:

- **Classes with `modifies` clauses** for the entities whose fields the program updates in place: `Sensor`, `LightSensor`, `FoodSensor`, `MotionHandler`, `Robot`, `Light`, `Food`, `Arena` and `Controller`.
  - Each class has a ghost snapshot of its state: `Robot.State`, `Light.State`, `Arena.RobotStates`, `Arena.LightStates`, `Arena.FoodItems` (each food item's disc, capture flag and colour), `Arena.FoodDiscs` (the discs alone) and `Arena.WorldOf`.
  - What is set once and never written again is part of `Robot.Valid`: the two light sensors have the light type and the two food sensors the food type (light_sensor.h:42, food_sensor.h:43), and the handler's speed and angle deltas are 1 (motion_handler.h:131-132). Every arena and controller method keeps `Valid`, so these stay as they are.
- **Pure functions** that say what each operation does to those snapshots: `RobotStep`, `LightStep`, `RobotReset`, `LitBy`, `FedBy`, `Tick`, `SettleFrom` and, for a whole timestep, `Timestep`.
- **Methods proved against those functions.** Each loop of the arena is a method with invariants, proved equal to its function. For example, `UpdateEntitiesTimestep` ensures `WorldOf() == Timestep(old(WorldOf()), ...)`.
- **Lemmas about the functions** state what the program promises: bounds, frames, order independence, the reverse-arc countdown, and when the game is lost.

Numbers are exact reals. Square root, `pow`, the trigonometric functions, the pose integrator and the sensor positions are not modelled; they come in as the fields of a `Physics` value. The predicate `Sound` states the only facts the proofs rely on:

- the distance is non-negative and its square is the squared distance;
- the falloff `1200 / b^d` is positive for a positive base, equals 1200 at distance 0, and for a base above 1 never grows with distance.

`random()` and the entity factory come in as the parameters `draw` and `place`.

With food off, a Fear robot drives its wheels at (L/100, R/100) for light readings L and R (src/motion_handler_fear.cc:25-46), and an Explorer at (10 - R/100, 10 - L/100) (src/motion_handler_explore.cc:28-31). So with L > R both give the left wheel the higher speed. `ExplorePolicy.FearAndExplorerTurnAlike` states this.

Two behaviours of the controller and arena are modelled as written:

- `Controller::ConvertComm` has no `break` after the NewGame case, so it answers a NewGame with FoodOff after `Controller::Reset` has replaced the arena. `Controller::AcceptCommunication` reads `arena_` before it evaluates that argument, as C++17 orders a call, so the FoodOff goes to the arena that was just deleted. The new arena keeps the food setting from the viewer (`Controllers.Controller.AcceptCommunication`).
- That flag is never read inside the arena.

## Model

| member | source | states |
|---|---|---|
| Geometry.SqDist | src/arena.cc:245-253 | the squared centre distance used for every distance test is never negative |
| Geometry.WithinDistanceIsDistanceComparison | src/arena.cc:245-253 | for the true distance d, the square-root-free test agrees with `d <= limit`, in both directions |
| Geometry.EffectiveDistance | src/light_sensor.cc:32-37 | the sensor-to-edge distance is never negative; it is 0 exactly when the sensor is inside the source, and otherwise adds the radius back up to the centre distance |
| Geometry.GridX | src/robot.cc:74-75 | a reset x lies in [30, 930] on the 50-unit grid |
| Geometry.GridY | src/robot.cc:74-75 | a reset y lies in [30, 680] on the 50-unit grid |
| Geometry.GridCovers | src/food.cc:32-33 | every grid point is reachable: index i goes to 30 + 50i on each axis |
| Numerics.FalloffBounded | src/light_sensor.cc:39-40 | for any base above 1, a source's term lies in (0, 1200] |
| Wheels.ClampVel | src/motion_handler_fear.cc:77-90 | the clamped wheel speed lies in [-max, max] |
| Wheels.ClampVelExact | src/motion_handler_explore.cc:78-90 | the clamp is the identity inside [-max, max] and saturates outside it |
| Wheels.ClampVelMonotone | src/motion_handler_fear.cc:77-90 | the clamp never reverses the order of two speeds |
| Sensors.ClampReading | src/sensor.h:55-63 | a stored reading always lies in [0, 1000] |
| Sensors.ClampReadingExact | src/sensor.h:55-63 | a written value at or past a limit is stored as that limit, and one in between is stored as it is |
| Sensors.ClampReadingIdempotent | src/sensor.h:55-63 | writing a reading that is already stored changes nothing |
| Sensors.AccumulateNeverDecreases | src/light_sensor.cc:39-47 | a positive term never lowers a reading, and the result is min(1000, r + c) |
| Sensors.AccumulateSaturates | src/light_sensor.cc:39-47 | a term of at least 1000 (every source touching the sensor gives 1200) saturates the reading |
| Sensors.AccumulateMonotone | src/light_sensor.cc:39-47 | a larger term never gives a smaller reading |
| Sensors.AccumulateTwice | src/light_sensor.cc:39-47 | two notifications give min(1000, r + a + b) in either order |
| Sensors.AccumulateAllSnoc | src/arena.cc:133-135 | notifying one more source is one more accumulation step |
| Sensors.AccumulateAllIsClampedSum | src/arena.cc:133-135 | any number of positive terms give min(1000, r + their sum) |
| Sensors.SumPermutation | src/arena.cc:126-138 | the sum of the terms depends only on their multiset |
| Sensors.AccumulateOrderIndependent | src/arena.cc:126-138 | the order in which the sources notify a sensor does not change its reading |
| Sensors.ContributionPositive | src/light_sensor.cc:39-40 | every source adds a positive term to a sensor whose base is positive |
| Sensors.ContributionInside | src/light_sensor.cc:32-40 | a sensor inside a source's disc has effective distance 0 and receives exactly 1200 |
| Sensors.ContributionFallsWithDistance | src/light_sensor.cc:39-40 | a farther sensor receives no more from the same source |
| Sensors.ReadingFallsWithDistance | src/light_sensor.cc:39-47 | so a sensor's reading after a notification never grows with its distance from the source |
| Sensors.Sensor.constructor | src/sensor.h:45-47 | a new sensor is a light sensor reading 0 |
| Sensors.Sensor.SetReading | src/sensor.h:55-63 | the stored reading is the clamped value and stays in [0, 1000] |
| Sensors.Sensor.GetReading | src/sensor.h:69 | returns the stored reading |
| Sensors.Sensor.SetSensorType | src/sensor.h:75 | the type becomes the given one |
| Sensors.Sensor.GetSensorType | src/sensor.h:81 | returns the type |
| Sensors.Sensor.ZeroReading | src/sensor.h:85 | the reading becomes 0, which is in range |
| LightSensors.LightSensor.constructor | src/light_sensor.h:41-43 | a new light sensor reads 0, has light type and sensitivity 1.08 |
| LightSensors.LightSensor.SetSensitivity | src/light_sensor.h:58-60 | the falloff base becomes the given one |
| LightSensors.LightSensor.CalculateSensorReading | src/light_sensor.cc:28-48 | only the reading changes; it becomes min(1000, old + 1200 / sensitivity^d), with d the distance to the light's edge floored at 0, and stays in range |
| FoodSensors.FoodSensor.constructor | src/food_sensor.h:42-44 | a new food sensor reads 0 and has food type |
| FoodSensors.FoodSensor.CalculateSensorReading | src/food_sensor.cc:28-46 | as for light, with the fixed base 1.01 |
| FearPolicy.FearVelocity | src/motion_handler_fear.cc:25-46 | both wheels lie within the maximum speed, whatever the readings and hunger |
| FearPolicy.FearFoodOff | src/motion_handler_fear.cc:49-55 | with food off, each wheel is its own side's light reading / 100 (uncrossed) |
| FearPolicy.FearBoundaryReadings | src/motion_handler_fear.cc:49-55 | readings at or past 1000 give (10, 10); zero readings give (0, 0) |
| FearPolicy.FearTestVectors | tests/motion_handler_unittest.cc:135-246 | the expected wheel speeds of the Fear unit tests |
| FearPolicy.FearNotHungryIsFoodOff | src/motion_handler_fear.cc:42-45 | with food on and hunger at most HUNGRY, food readings are ignored |
| FearPolicy.FearHungryBlend | src/motion_handler_fear.cc:65-75 | between HUNGRY and STARVE each wheel is 0.6 light + 0.4 crossed food |
| FearPolicy.FearStarvingIgnoresLight | src/motion_handler_fear.cc:37-39 | from STARVE on, light readings play no part and each wheel is the opposite food reading / 100 |
| FearPolicy.FearBrighterSideFaster | src/motion_handler_fear.cc:25-46 | with food off, the side with the higher light reading has the faster wheel, and equal readings give equal speeds (both directions) |
| ExplorePolicy.ExploreVelocity | src/motion_handler_explore.cc:25-47 | both wheels lie within the maximum speed |
| ExplorePolicy.ExploreFoodOff | src/motion_handler_explore.cc:49-55 | with food off, each wheel is 10 - (opposite light reading) / 100 |
| ExplorePolicy.ExploreBoundaryReadings | src/motion_handler_explore.cc:49-55 | readings of 1000 stop both wheels; zero readings give (10, 10) |
| ExplorePolicy.ExploreTestVectors | tests/motion_handler_unittest.cc:254-351 | the expected wheel speeds of the Explorer unit tests |
| ExplorePolicy.ExploreNotHungryIsFoodOff | src/motion_handler_explore.cc:42-45 | with hunger at most HUNGRY, food readings are ignored |
| ExplorePolicy.ExploreHungryBlend | src/motion_handler_explore.cc:65-75 | between HUNGRY and STARVE each wheel is the mean of the crossed explore and food speeds |
| ExplorePolicy.ExploreStarvingIgnoresLight | src/motion_handler_explore.cc:38-40 | from STARVE on only the crossed food readings matter |
| ExplorePolicy.ExploreWheelOrder | src/motion_handler_explore.cc:49-55 | with food off both wheels lie in [0, 10], and their order matches the light readings' order, in both directions |
| ExplorePolicy.FearAndExplorerTurnAlike | src/motion_handler_explore.cc:28-31 | as wired, Fear and Explorer both give the left wheel the higher speed when the left reading is higher |
| MotionHandlers.KindVelocityBounded | src/motion_handler.h:51-54 | the base handler keeps its velocity; a Fear or Explorer handler always yields speeds within its maximum |
| MotionHandlers.MotionHandler.constructor | src/motion_handler.h:129-133 | velocity (0, 0), max speed 10, max angle 360, deltas 1 |
| MotionHandlers.MotionHandler.Reinitialize | src/robot.cc:136-142 | the handler is as a newly built one of the given kind |
| MotionHandlers.MotionHandler.UpdateVelocity | src/motion_handler.h:51-54 | the velocity becomes the speed law of the handler's kind, and is bounded for Fear and Explorer |
| MotionHandlers.MotionHandler.GetSpeedDelta | src/motion_handler.h:59 | returns the speed delta |
| MotionHandlers.MotionHandler.SetSpeedDelta | src/motion_handler.h:64 | the speed delta becomes the argument |
| MotionHandlers.MotionHandler.GetAngleDelta | src/motion_handler.h:69 | returns the angle delta |
| MotionHandlers.MotionHandler.SetAngleDelta | src/motion_handler.h:74 | the angle delta becomes the argument |
| MotionHandlers.MotionHandler.GetMaxSpeed | src/motion_handler.h:80 | returns the maximum speed |
| MotionHandlers.MotionHandler.SetMaxSpeed | src/motion_handler.h:85 | the maximum speed becomes the argument |
| MotionHandlers.MotionHandler.GetMaxAngle | src/motion_handler.h:90 | returns the maximum angle |
| MotionHandlers.MotionHandler.SetMaxAngle | src/motion_handler.h:95 | the maximum angle becomes the argument |
| MotionHandlers.MotionHandler.GetVelocity | src/motion_handler.h:100 | returns the velocity |
| MotionHandlers.MotionHandler.SetVelocity | src/motion_handler.h:105 | the velocity becomes the argument |
| MotionHandlers.MotionHandler.SetWheelVelocity | src/motion_handler.h:111-114 | the velocity becomes (vl, vr) |
| MotionHandlers.MotionHandler.GetLeftVelocity | src/motion_handler.h:116-118 | returns the left wheel speed |
| MotionHandlers.MotionHandler.GetRightVelocity | src/motion_handler.h:120-122 | returns the right wheel speed |
| MotionHandlers.HandlerRoundTrips | tests/motion_handler_unittest.cc:78-129 | a reproduction of the unit tests' set-then-get checks on one handler, built from the setters' and getters' contracts: each value a setter writes is read back by its getter |
| ReverseArcs.StartArc | src/robot.cc:89-91 | a collision only sets the reversing flag; the countdown angle is kept and stays valid |
| ReverseArcs.StartArcIdempotent | src/light.cc:67-69 | a second collision during an arc neither restarts nor changes it |
| ReverseArcs.ArcStepValid | src/robot.cc:93-107 | one step of an arc keeps the countdown among 180, 177, ..., 120 |
| ReverseArcs.ArcCountdown | src/robot.cc:93-107 | k steps from angle a reach a - 3k, having turned by -3k degrees |
| ReverseArcs.ArcFinishes | src/light.cc:71-85 | from 120 + 3n, n steps plus one return the entity to idle |
| ReverseArcs.CollisionArc | src/robot.cc:93-107 | after a collision from idle: 20 reversing steps at (-speed, -speed), one at (speed, speed), then idle again, having turned -60 degrees |
| Robots.DeadOnlyAtThreshold | src/robot.h:228-230 | dead exactly when food is on and the counter is exactly 3000; never dead with food off |
| Robots.RobotStepFrame | src/robot.cc:51-70 | a timestep changes only pose, velocity, arc and status |
| Robots.RobotStepDead | src/robot.cc:67-69 | a dead robot only becomes LOST |
| Robots.RobotStepStatus | src/robot.cc:51-70 | the status becomes LOST exactly when the robot is dead, and is kept otherwise |
| Robots.RobotStepReversingIgnoresSensors | src/robot.cc:55-56 | while reversing the readings play no part and the velocity is the arc's |
| Robots.RobotStepBoundedSpeed | src/robot.cc:57-62 | a Fear or Explorer robot that is neither reversing nor dead drives within its maximum speed and keeps its arc |
| Robots.RobotStepArcValid | src/robot.cc:51-70 | a timestep keeps the arc countdown valid |
| Robots.RobotResetIsFresh | src/robot.cc:73-87 | after a reset: PLAYING, hunger 0, idle, on the grid, all readings 0; type, handler kind, food flag and sensitivities are kept |
| Robots.ResetRobotSurvivesStep | src/robot.cc:73-87 | a reset robot is still PLAYING after its next step |
| Robots.NotifiedRaisesReadings | src/robot.cc:121-133 | for positive sensitivities, a light or food notification changes only its two readings, never lowers them, and keeps them in range |
| Robots.Robot.constructor | src/robot.cc:34-49 | a valid Fear robot with a Fear handler, so light-type and food-type sensors and deltas 1: idle, hunger 0, PLAYING, food on, all readings 0, sensitivity 1.08 |
| Robots.Robot.TimestepUpdate | src/robot.cc:51-70 | the new state is RobotStep of the old one (see the lemmas above) |
| Robots.Robot.Reset | src/robot.cc:73-87 | the new state is RobotReset of the old one with the given draws |
| Robots.Robot.PlaceAt | src/robot.cc:74-81 | the position, heading and radius come from the draw; velocity becomes (0, 0) with the robot speed limits; nothing else changes |
| Robots.Robot.SetPosition | src/arena.cc:223-242 | a new centre with the heading kept; nothing else changes |
| Robots.Robot.HandleCollision | src/robot.cc:89-91 | the arc is started, remains valid, and nothing else changes |
| Robots.Robot.ReverseArc | src/robot.cc:93-107 | one arc step with its heading turn and wheel speeds at 5; the countdown stays valid |
| Robots.Robot.IsFeedingIsGapComparison | src/robot.cc:109-117 | the feeding test is exactly "the gap between the edges is at most 5", in both directions |
| Robots.Robot.LightNotify | src/robot.cc:121-126 | each light sensor accumulates the light's term at its own position; nothing else changes |
| Robots.Robot.FoodNotify | src/robot.cc:128-133 | each food sensor accumulates the food's term at its own position; nothing else changes |
| Robots.Robot.ChangeToExplore | src/robot.cc:136-138 | the handler is a fresh Explorer handler |
| Robots.Robot.ChangeToFear | src/robot.cc:140-142 | the handler is a fresh Fear handler |
| Robots.Robot.ResetSensorReading | src/robot.h:158-163 | all four readings become 0; nothing else changes |
| Robots.Robot.GetLightSensorReading | src/robot.h:171-177 | LEFT_SENSOR reads the left light sensor, any other direction the right one |
| Robots.Robot.SetLightSensorReading | src/robot.h:185-191 | the chosen sensor stores the clamped value; the other is untouched |
| Robots.Robot.SetLightSensitivity | src/robot.h:197-200 | both light sensors get the sensitivity |
| Robots.Robot.SetRobotType | src/robot.h:206-208 | the type becomes the argument |
| Robots.Robot.GetRobotType | src/robot.h:214-216 | returns the type |
| Robots.Robot.ResetHungryCounter | src/robot.h:221-223 | hunger becomes 0; nothing else changes |
| Robots.Robot.SetStatus | src/robot.h:236-238 | the status becomes the argument |
| Robots.Robot.GetStatus | src/robot.h:243-245 | returns the status |
| Robots.Robot.IncreaseHungry | src/robot.h:250-252 | hunger goes up by exactly one; nothing else changes |
| Robots.Robot.SetFoodExistence | src/robot.h:254-256 | the food flag becomes the argument |
| Robots.Robot.GetLeftVelocity | src/robot.h:258-260 | returns the handler's left speed |
| Robots.Robot.GetRightVelocity | src/robot.h:262-264 | returns the handler's right speed |
| Lights.LightStepSpeed | src/light.cc:43-56 | a light that is not reversing drives at (4, 4) whatever its velocity; one reversing above 120 backs up at (-4, -4); its radius is kept and its countdown stays valid |
| Lights.LightResetKeepsArc | src/light.cc:58-65 | a reset puts the light on the grid at (4, 4) and leaves an arc under way running |
| Lights.Light.constructor | src/light.cc:21-32 | white, at (200, 200) with the given heading and radius, at (4, 4), idle |
| Lights.Light.TimestepUpdate | src/light.cc:43-56 | the new state is LightStep of the old one |
| Lights.Light.Reset | src/light.cc:58-65 | the new state is LightReset of the old one |
| Lights.Light.SetPosition | src/arena.cc:223-242 | a new centre with the heading kept; nothing else changes |
| Lights.Light.HandleCollision | src/light.cc:67-69 | the arc is started and stays valid; nothing else changes |
| Lights.Light.ReverseArc | src/light.cc:71-85 | one arc step at LIGHT_SPEED; the countdown stays valid |
| Foods.Food.constructor | src/food.cc:21-26 | not captured, red, radius 20, at (400, 400) |
| Foods.Food.Reset | src/food.cc:31-38 | a grid point in [30, 930] x [30, 680], red, radius 20, not captured |
| Foods.Food.ColorChange | src/food.cc:40-42 | the colour becomes FOOD_COLOR_CHANGE |
| Foods.Food.IsCaptured | src/food.h:69 | returns the captured flag |
| Foods.Food.SetCaptured | src/food.h:75 | the captured flag becomes the argument |
| Walls.CollisionWall | src/arena.cc:207-219 | each answer holds exactly when its condition holds: no wall means strictly inside, and walls are checked in the order right, left, bottom, top |
| Walls.AdjustWall | src/arena.cc:223-242 | after the snap the disc no longer reaches that wall, a disc that touched it has moved away from it, only the coordinate across that wall changes, the heading is kept, and with no wall nothing changes |
| Walls.SnapClearsXWalls | src/arena.cc:223-242 | a snap off a side wall clears both side walls when the arena is wider than 2r + 5 |
| Walls.SnapClearsYWalls | src/arena.cc:223-242 | a snap off the top or bottom clears both when the arena is taller than 2r + 5 |
| Walls.WallStepsSettle | src/arena.cc:173-182 | two wall steps bring any disc strictly inside; a disc inside is not moved |
| Walls.CollidingIsDistanceComparison | src/arena.cc:245-253 | the square-root-free test agrees with `dist <= r1 + r2`, and colliding is symmetric |
| Walls.PushStepKeepsHit | src/arena.cc:187-198 | a push moves a disc the same way whether or not it has already been hit, and a hit is never forgotten |
| Walls.PushAllNoContact | src/arena.cc:187-198 | a disc that touches none of the others is not moved and not marked |
| Walls.PushAllKeepsHit | src/arena.cc:187-198 | the same holds for the whole inner loop |
| Walls.PushAllKeepsHeading | src/arena.cc:259-270 | pushes change only the position, never the heading |
| Walls.SettleDiscQuiet | src/arena.cc:172-198 | touching a wall always starts an arc; a disc strictly inside and clear of the others stays exactly where it is |
| ArenaSteps.Trunc | src/arena.cc:58-60 | truncation toward zero: the result is within 1 of x, on x's side of zero |
| ArenaSteps.FearCountBounds | src/arena.cc:58-60 | for a ratio in [0, 100] the Fear count lies in [0, quantity]; ratio 0 gives 0 and ratio 100 gives quantity |
| ArenaSteps.SensitivityAboveOne | src/arena.cc:61 | each slider step adds 0.001, and every setting of at least 0 gives a falloff base above 1 |
| ArenaSteps.NewRobotConsistent | src/arena.cc:64-76 | a new robot's type and handler kind agree; it is idle, PLAYING and not dead |
| ArenaSteps.TermsPositive | src/arena.cc:133-135 | every light or food adds a positive term to each sensor whose base is positive |
| ArenaSteps.LitByIsClampedSum | src/arena.cc:121-137 | from zeroed sensors with positive sensitivities, each light reading after phase 2 is min(1000, sum of the lights' terms) and in range |
| ArenaSteps.LitBySnoc | src/arena.cc:133-135 | one more light is one more LightNotify |
| ArenaSteps.FedByIsClampedSum | src/arena.cc:140-151 | from zeroed food sensors, each food reading is min(1000, sum of the food terms) and in range |
| ArenaSteps.FedBySnoc | src/arena.cc:141-150 | one more food item is one more pass of the food loop's body |
| ArenaSteps.FeedsOnSnoc | src/arena.cc:147 | a robot feeds on ds + [d] exactly when it feeds on ds or is within 5 of d |
| ArenaSteps.FedByHunger | src/arena.cc:147-149 | feeding keeps the hunger counter or resets it to 0, and resets it whenever some food is close enough |
| ArenaSteps.TickStatus | src/arena.cc:158-163 | a tick adds one to hunger, and the robot is LOST after it exactly when it was dead or already LOST |
| ArenaSteps.BumpedValid | src/arena.cc:174-181 | a bump keeps the countdown valid and never restarts an arc under way |
| Timesteps.LitAllSnoc | src/arena.cc:131-137 | phase 2 for one more light is one more notification of every robot |
| Timesteps.FedAllSnoc | src/arena.cc:140-151 | phase 3 for one more food item is one more pass over the robots |
| Timesteps.FirstLost | src/arena.cc:157-167 | where the robot loop stops lies in [from, number of robots] |
| Timesteps.FirstLostIsFirst | src/arena.cc:157-167 | no robot before the stopping index stops the loop, and the robot at that index does |
| Timesteps.FirstLostIsFirstTickLost | src/arena.cc:162-165 | the loop stops at the first robot that its own tick leaves LOST |
| Timesteps.SettleFrom | src/arena.cc:172-199 | the collision pass keeps every size and heading and leaves the discs before index k alone |
| Timesteps.TimestepFrozen | src/arena.cc:119 | a game that is not PLAYING is not changed by a timestep |
| Timesteps.SensedFrame | src/arena.cc:121-151 | phases 1–3 change only each robot's readings and hunger |
| Timesteps.SensedReadings | src/arena.cc:121-151 | for a robot with positive sensitivities, after phases 1–3 the readings are the clamped sums of the moved lights' terms and of the food terms, all in [0, 1000] |
| Timesteps.TickAllFrame | src/arena.cc:157-167 | the robot loop changes only pose, velocity, arc, status and hunger (by exactly one) of the robots up to the stop; later robots are untouched; countdowns stay valid |
| Timesteps.RobotsSettledFrame | src/arena.cc:172-199 | the collision pass changes only a robot's position and reversing flag |
| Timesteps.LightsSettledFrame | src/arena.cc:172-199 | the collision pass changes only a light's position and reversing flag |
| Timesteps.SettleFromQuiet | src/arena.cc:172-199 | with nothing touching a wall or another disc, the rest of the pass moves nothing |
| Timesteps.RobotsSettledQuiet | src/arena.cc:172-199 | robots inside the arena and apart are left exactly as they are |
| Timesteps.TimestepRobot | src/arena.cc:113-201 | what a timestep does to robot i: readings, hunger (reset if fed, +1 if reached), kept size, type, handler and settings, a robot past the lost one keeps velocity and status, and the countdown stays valid |
| Timesteps.TimestepLight | src/arena.cc:113-201 | a timestep keeps the number and sizes of the lights and their countdowns valid |
| Timesteps.TimestepLost | src/arena.cc:157-167 | starting with every robot PLAYING, the game ends exactly when some robot is dead with the hunger phases 1–3 left it |
| Timesteps.TimestepKeepsInvariants | src/arena.cc:113-201 | a timestep keeps every robot's and light's countdown valid, and keeps a PLAYING game's robots all PLAYING |
| Resets.RobotsResetFresh | src/arena.cc:93-98 | after an arena reset every robot is PLAYING, not hungry, idle, on the grid, with readings 0, and has kept its type, kind and food flag |
| Resets.LightsResetKeepArcs | src/arena.cc:93-98 | every light is on the grid at (4, 4) with the arc it had |
| Resets.WorldResetRestarts | src/arena.cc:93-98 | a reset game is PLAYING and no robot stops the next timestep |
| Resets.ResetForgetsTimestep | src/arena.cc:93-98 | resetting after a timestep gives the same robots as resetting before it |
| Resets.FoodsResetOnGrid | src/food.cc:31-38 | every food item is on the grid in [30, 930] x [30, 680] with radius 20 |
| Resets.WorldResetKeepsInvariants | src/arena.cc:93-98 | after a reset the status is consistent, and arcs that were valid stay valid |
| Arenas.SpawnRobot | src/arena.cc:65-69 | a valid new Fear robot with the given sensitivity and food flag |
| Arenas.Arena.constructor | src/arena.cc:23-44 | PLAYING, not paused, food off exactly when the settings say so; Count(n) robots with those from FearCount on Explorers, every one with the given sensitivity and food flag; then the lights, then the food only with food on; a robot's name (src/robot.h:96-102) is "E" exactly from FearCount on, and the arcs and status are consistent |
| Arenas.Arena.AddScenery | src/arena.cc:37-43 | the lights, then the food or the food-off flag; the robots are kept |
| Arenas.Arena.AddFoodOrFlag | src/arena.cc:39-43 | food items when food is on, otherwise only the flag |
| Arenas.Arena.AddRobot | src/arena.cc:55-77 | Count(quantity) robots; those from FearCount on are Explorers |
| Arenas.Arena.CreateRobots | src/arena.cc:64-70 | Count(quantity) new Fear robots at the given placements |
| Arenas.Arena.MakeExplorers | src/arena.cc:72-76 | the robots from index quant on become Explorers; the others are kept |
| Arenas.Arena.AppendRobot | src/arena.cc:65-69 | one new robot at the end; the others are kept |
| Arenas.Arena.MakeExplorer | src/arena.cc:73-75 | robot j becomes an Explorer with a fresh Explorer handler; the others are kept |
| Arenas.Arena.AddLights | src/arena.cc:85-91 | Count(quantity) lights after the robots, each as its constructor leaves it |
| Arenas.Arena.AppendLight | src/arena.cc:86-90 | one new light at the end |
| Arenas.Arena.AddFood | src/arena.cc:79-83 | Count(quantity) food items, each as its constructor leaves it |
| Arenas.Arena.AppendFood | src/arena.cc:80-82 | one new food item at the end |
| Arenas.Arena.UpdateEntitiesTimestep | src/arena.cc:113-201 | the robots, lights and status become Timestep of the old ones; every food item keeps its disc, capture flag and colour; valid arcs and a consistent status are kept |
| Arenas.Arena.AdvanceTime | src/arena.cc:102-111 | a paused arena, or a step that is not positive, leaves the robots, lights, status and food items as they were; otherwise exactly one timestep runs and the food items are kept; valid arcs and a consistent status are kept |
| Arenas.Arena.Reset | src/arena.cc:93-98 | PLAYING again; robots, lights and food reset in that order, entity e using draw(e), every food item red and not captured; the status is consistent afterwards and valid arcs stay valid |
| Arenas.Arena.ResetRobots | src/arena.cc:95-97 | robot i is reset with draw(i); lights and food are kept |
| Arenas.Arena.ResetRobot | src/robot.cc:73-87 | robot i alone is reset |
| Arenas.Arena.ResetLights | src/arena.cc:95-97 | light k is reset with draw(robots + k) |
| Arenas.Arena.ResetLight | src/light.cc:58-65 | light k alone is reset |
| Arenas.Arena.ResetFoods | src/arena.cc:95-97 | food k is reset with draw(robots + lights + k), red and not captured |
| Arenas.Arena.ResetFood | src/food.cc:31-38 | food item k alone is reset |
| Arenas.Arena.AcceptCommand | src/arena.cc:277-292 | Play/Pause set the paused flag, FoodOn/FoodOff set the food-off flag, Reset resets the world and leaves every food item red and not captured, and no other command changes the robots, lights, status or food items; valid arcs are kept, a consistent status is kept, and Reset makes it consistent |
| Arenas.Arena.ResetSensors | src/arena.cc:121-123 | phase 1: every robot's readings are 0 |
| Arenas.Arena.CarryInvariants | src/arena.cc:113-201 | an update whose world snapshot keeps the world-level invariants keeps the arena's, because the arena's arc and status invariants are exactly those of its world snapshot |
| Arenas.Arena.ResetKeepsInvariants | src/arena.cc:93-98 | a reset of robots and lights with the status set to PLAYING leaves a consistent status and keeps valid arcs |
| Arenas.Arena.ResetEntities | src/arena.cc:95-97 | robot i is reset with draw(i), light k with draw(robots + k), food k with draw(robots + lights + k), every food item red and not captured |
| Arenas.Arena.ClearRobot | src/robot.h:158-163 | one robot's readings are cleared |
| Arenas.Arena.LightPhase | src/arena.cc:126-138 | phase 2: every light has stepped once, and every robot is lit by the moved lights |
| Arenas.Arena.StepLight | src/arena.cc:129 | light k alone takes its step |
| Arenas.Arena.NotifyOfLight | src/arena.cc:133-135 | every robot is told of one light |
| Arenas.Arena.LightRobot | src/robot.cc:121-126 | one robot is told of one light |
| Arenas.Arena.FoodPhase | src/arena.cc:140-151 | phase 3: every robot is notified and perhaps fed by every food item |
| Arenas.Arena.FeedRobots | src/arena.cc:141-150 | every robot is notified and perhaps fed by one food item |
| Arenas.Arena.FeedRobot | src/arena.cc:142-149 | one robot is notified by a food item and fed if close enough |
| Arenas.Arena.StepRobots | src/arena.cc:157-167 | phase 4: the robots become TickAll of the old ones, and the game is LOST exactly when some robot stopped the loop |
| Arenas.Arena.TickUntilLost | src/arena.cc:157-167 | the loop's stopping index is the first robot that stops it, and exactly the robots up to it are ticked |
| Arenas.Arena.TickRobot | src/arena.cc:158-163 | one robot is ticked; the answer says whether it is now LOST |
| Arenas.Arena.LightCollisions | src/arena.cc:172-199 | phase 5 for the lights: they become LightsSettled of the old ones |
| Arenas.Arena.SettleLight | src/arena.cc:172-199 | one pass of the light loop; what is left of the collision pass is unchanged |
| Arenas.Arena.CollideLight | src/arena.cc:172-198 | light k is moved where SettleDisc says, and starts an arc if hit |
| Arenas.Arena.PushOffLights | src/arena.cc:186-198 | light k is pushed off each other light in turn |
| Arenas.Arena.WallLight | src/arena.cc:174-181 | the wall check and snap for light k |
| Arenas.Arena.PushLight | src/arena.cc:187-198 | one push of light k off light j |
| Arenas.Arena.RobotCollisions | src/arena.cc:172-199 | phase 5 for the robots: they become RobotsSettled of the old ones |
| Arenas.Arena.SettleRobot | src/arena.cc:172-199 | one pass of the robot loop; what is left of the collision pass is unchanged |
| Arenas.Arena.CollideRobot | src/arena.cc:172-198 | robot k is moved where SettleDisc says, and starts an arc if hit |
| Arenas.Arena.PushOffRobots | src/arena.cc:186-198 | robot k is pushed off each other robot in turn |
| Arenas.Arena.WallRobot | src/arena.cc:174-181 | the wall check and snap for robot k |
| Arenas.Arena.PushRobot | src/arena.cc:187-198 | one push of robot k off robot j |
| Controllers.ThrottleStepFires | src/controller.cc:36-43 | the arena advances exactly when the accumulated time would pass 0.05, and the accumulated time is then 0; otherwise dt is added |
| Controllers.ThrottleStepBounded | src/controller.cc:36-43 | with non-negative steps the accumulated time stays in [0, 0.05] |
| Controllers.ThrottleRunBounded | src/controller.cc:36-43 | the same holds over any run of calls that starts from the constructor's 0 |
| Controllers.LargeStepsAlwaysFire | src/controller.cc:36-43 | steps of more than 0.05 advance the arena on every call |
| Controllers.ZeroStepsNeverFire | src/controller.cc:36-43 | steps of 0 never advance it |
| Controllers.ConvertIdentity | src/controller.cc:80-89 | the commands passed on unchanged are exactly Play, Pause, FoodOff, FoodOn and None |
| Controllers.ConvertOthers | src/controller.cc:80-89 | NewGame yields FoodOff (fall-through), and exactly the commands outside the table yield None |
| Controllers.ConvertNeverResets | src/controller.cc:80-89 | the translation never yields Reset or NewGame, and it is idempotent |
| Controllers.Controller.constructor | src/controller.cc:21 | the accumulated time starts at 0 |
| Controllers.Controller.AdvanceTime | src/controller.cc:36-43 | the accumulated time follows ThrottleStep, and the arena advances by dt exactly when the throttle fires, always keeping its food items; the arena's valid arcs and consistent status are kept |
| Controllers.Controller.Reset | src/controller.cc:49-72 | a new arena of the fixed size, PLAYING, with the viewer's counts and food flag, valid arcs and a consistent status |
| Controllers.Controller.ConvertComm | src/controller.cc:80-89 | the answer is Convert(com); only NewGame replaces the arena, and the new one has valid arcs and a consistent status |
| Controllers.Controller.AcceptCommunication | src/controller.cc:45-47 | NewGame leaves a new running arena that keeps the viewer's food setting, while the FoodOff reaches the replaced arena, whose receiver was read first; any other command keeps the arena, its robots, lights, status and food items, sets only its paused or food-off flag, and keeps valid arcs and a consistent status |
| Controllers.Controller.AcceptNewGame | src/controller.cc:45-47 | the NewGame half of AcceptCommunication: a fresh running arena with the viewer's food setting, valid arcs and a consistent status, while the FoodOff goes to the replaced arena |
| Controllers.Controller.AcceptOther | src/controller.cc:45-47 | the other half: the arena, its robots, lights, status and food items (disc, capture flag, colour) are kept, only the paused or food-off flag follows Convert(com), and the invariants are kept |
| Controllers.Controller.Fire | src/controller.cc:41-42 | the throttle fires: the accumulated time returns to 0 and the arena advances by dt unless paused, keeping every food item's disc, capture flag and colour and its invariants; the order of the two writes does not matter, since the arena never reads the accumulated time |

## Left out

- The viewer and everything graphical: entity colours are recorded as constants only, and the keyboard commands are reduced to the Communication values. The controller's construction of the viewer, its first arena and `Run` are not part of the model, so `Controller.constructor` is given a built arena.
- `sqrt`, `pow`, `cos`, `sin`, `atan2` and the differential-drive integrator are fields of `Physics`; only the facts in `Sound` are assumed of them. `Robot::get_sensor_position` is part of `Physics.sensorAt` for the same reason.
- C++ `double` rounding: all arithmetic is on exact reals, so results that the program computes with rounding (the unit tests compare with a tolerance) are exact here.
- `random()` and `random_num` are the parameter `draw`: entity e of a reset uses `draw(e)`. The grid indices are non-negative, as `random()` is. The radius and heading ranges are not imposed on `draw`: the robot radius from `random_num(8, 14)`, the light radius from `random_num(10, 50)`, and the heading from `random_num(0, 360)`. No proof depends on them.
- The EntityFactory's placements are the parameter `place`: entity e of the constructor uses `place(e)`.
- `Food::TimestepUpdate` is a no-op, so food never moves.
- Phase 5 tests robot–light, robot–food, light–robot and light–food pairs with IsColliding but does nothing with the result, so those tests are left out.
- Allocation details are not modelled: `new`/`delete`, destructors, and the handlers that `ChangeToExplore`/`ChangeToFear` leak. Changing a robot's handler is modelled as re-initialising its one handler object, which a program cannot tell apart.
- The arena's `food_off_` flag is kept but has no effect, because nothing in the arena reads it.
- The slider reads of `Controller::Reset` are the parameter `viewer`.
- Controllers.Controller.AcceptCommunication: follows the C++17 evaluation order, in which `arena_` is read before `ConvertComm` runs; before C++17 that order is unspecified, and the other order is not modelled. On a NewGame the source then calls AcceptCommand on a deleted arena, which is undefined behaviour; the model renders it as a call on the discarded arena object, which nothing else holds.
- `unsigned int` time steps: `dt` of an entity's TimestepUpdate is a `nat`.
- Arenas.Arena.constructor: requires `Buildable(params)`, that is `ExplorersIndexable`: `0 <= FearCount || quantity <= FearCount`, because a negative Fear count would make the program index `robot_` at a negative position.
- Entity types, IDs and the base-class getters (`get_pose`, `get_radius`, `get_type`) are plain fields of the classes.
- WON is defined but never reached by any code path, so no member sets it.
