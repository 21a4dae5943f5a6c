/**
 * The arena (arena.cc): the robots, lights and food, the game status and the
 * per-timestep orchestration of sensing, motion, hunger and collisions.
 */
module Arenas {
  import opened Params
  import opened Geometry
  import opened Numerics
  import opened Sensors
  import opened LightSensors
  import opened FoodSensors
  import opened ReverseArcs
  import opened MotionHandlers
  import opened Robots
  import opened Lights
  import opened Foods
  import opened Walls
  import opened ArenaSteps
  import opened Timesteps
  import opened Resets

  /** The commands the arena accepts (the Communication enumeration). */
  datatype Communication = Play | Pause | NewGame | Reset | FoodOn | FoodOff | None
                         | KeyUp | KeyDown | KeyLeft | KeyRight

  /** The settings an arena is built from (arena_params). */
  datatype ArenaParams = ArenaParams(xDim: real, yDim: real, nRobots: int, nLights: int, nFood: int,
                                     nLightSensitivity: int, nRatio: int, foodOn: bool)

  /** How many times `for (int i = 0; i < n; i++)` runs. */
  function Count(n: int): nat
  {
    if n < 0 then 0 else n
  }

  /**
   * The Explorer loop of AddRobot (arena.cc:71-74) starts at FearCount and indexes
   * the robots already made: it must not start below index 0 unless it never runs.
   */
  predicate ExplorersIndexable(quantity: int, ratio: int)
  {
    0 <= FearCount(quantity, ratio) || quantity <= FearCount(quantity, ratio)
  }

  /** The settings the arena constructor can be built from. */
  predicate Buildable(p: ArenaParams)
  {
    ExplorersIndexable(p.nRobots, p.nRatio)
  }

  /** A food item as the arena holds it: its disc, whether it is captured, and its colour. */
  datatype FoodItem = FoodItem(disc: Disc, captured: bool, color: Color)

  /** The discs of a run of food items. */
  function DiscsOf(items: seq<FoodItem>): (ds: seq<Disc>)
    ensures |ds| == |items| && forall k :: 0 <= k < |items| ==> ds[k] == items[k].disc
  {
    seq(|items|, k requires 0 <= k < |items| => items[k].disc)
  }

  /** arena.cc:65-69: a new robot with the given light sensitivity and food flag, still a Fear robot. */
  method SpawnRobot(pl: Placement, sense: real, foodOn: bool) returns (r: Robot)
    ensures r.Valid() && fresh(r.Repr)
    ensures r.State() == NewRobot(pl, false, sense, foodOn)
  {
    r := new Robot(pl.pose, pl.radius);
    r.SetLightSensitivity(sense);
    r.SetFoodExistence(foodOn);
  }

  /** A light as AddLights makes it (light.cc:21-32): the placement only supplies heading and radius. */
  function FirstLight(pl: Placement): LightState
  {
    LightState(Pose(200.0, 200.0, pl.pose.theta), pl.radius, IDLE, WheelVelocity(LIGHT_SPEED, LIGHT_SPEED))
  }

  /** A food item as its constructor leaves it (food.cc:21-26). */
  ghost predicate FirstFood(f: Food)
    reads f
  {
    !f.captured && f.color == FOOD_COLOR && f.radius == FOOD_RADIUS && f.pose == Pose(400.0, 400.0, 0.0)
  }

  /**
   * The parts of each robot, each light and its handler, and each food item are
   * distinct objects inside r. The parts of an entity are constants, so this
   * depends on no mutable field.
   */
  ghost predicate Layout(rs: seq<Robot>, ls: seq<Light>, fs: seq<Food>, r: set<object>)
  {
    && (forall i :: 0 <= i < |rs| ==> rs[i] in r && rs[i].Repr <= r)
    && (forall i, j :: 0 <= i < j < |rs| ==> rs[i].Repr !! rs[j].Repr)
    && (forall i, j :: 0 <= i < |rs| && 0 <= j < |rs| && i != j ==> rs[i] != rs[j] && rs[i] !in rs[j].Repr)
    && (forall k :: 0 <= k < |ls| ==> ls[k] in r && ls[k].handler in r)
    && (forall k, l :: 0 <= k < l < |ls| ==> ls[k] != ls[l] && ls[k].handler != ls[l].handler)
    && (forall i, k :: 0 <= i < |rs| && 0 <= k < |ls| ==> ls[k] !in rs[i].Repr && ls[k].handler !in rs[i].Repr)
    && (forall i, k :: 0 <= i < |rs| && 0 <= k < |fs| ==> fs[k] !in rs[i].Repr)
    && (forall k :: 0 <= k < |fs| ==> fs[k] in r)
    && (forall k, l :: 0 <= k < l < |fs| ==> fs[k] != fs[l])
  }

  /** A robot whose parts are all new can join a layout that has no lights yet. */
  lemma LayoutAddRobot(rs: seq<Robot>, fs: seq<Food>, r: set<object>, x: Robot)
    requires Layout(rs, [], fs, r) && x in x.Repr && x.Repr !! r
    ensures Layout(rs + [x], [], fs, r + x.Repr)
  {
  }

  /** A new light with a new handler can join any layout. */
  lemma LayoutAddLight(rs: seq<Robot>, ls: seq<Light>, fs: seq<Food>, r: set<object>, x: Light)
    requires Layout(rs, ls, fs, r) && x !in r && x.handler !in r
    ensures Layout(rs, ls + [x], fs, r + {x, x.handler})
  {
  }

  /** A new food item can join any layout. */
  lemma LayoutAddFood(rs: seq<Robot>, ls: seq<Light>, fs: seq<Food>, r: set<object>, x: Food)
    requires Layout(rs, ls, fs, r) && x !in r
    ensures Layout(rs, ls, fs + [x], r + {x})
  {
  }

  class Arena {
    const xDim: real
    const yDim: real
    // entities_ is robots, then lights, then food, in this order; mobile_entities_ is robots, then lights
    var robots: seq<Robot>
    var lights: seq<Light>
    var foods: seq<Food>
    var gameStatus: int
    var paused: bool
    var foodOff: bool
    ghost var Repr: set<object>

    /** Every entity is a distinct object with its own parts, and every robot is valid. */
    ghost predicate Valid()
      reads this`robots, this`lights, this`foods, this`Repr, Repr
    {
      && Structure()
      && (forall i :: 0 <= i < |robots| ==> robots[i].Valid())
    }

    /** The ownership layout of the entity collections inside Repr. */
    ghost predicate Structure()
      reads this`robots, this`lights, this`foods, this`Repr
    {
      this !in Repr && Layout(robots, lights, foods, Repr)
    }

    /** The states of the robots, in order. */
    ghost function RobotStates(): (ss: seq<RobotState>)
      requires Valid()
      reads this`robots, this`lights, this`foods, this`Repr, Repr
      ensures |ss| == |robots| && forall i :: 0 <= i < |robots| ==> ss[i] == robots[i].State()
    {
      var rs, r := robots, Repr;
      seq(|rs|, i requires 0 <= i < |rs| reads r => rs[i].State())
    }

    /** The states of the lights, in order. */
    ghost function LightStates(): (ls: seq<LightState>)
      requires Valid()
      reads this`robots, this`lights, this`foods, this`Repr, Repr
      ensures |ls| == |lights| && forall k :: 0 <= k < |lights| ==> ls[k] == lights[k].State()
    {
      var ls, r := lights, Repr;
      seq(|ls|, k requires 0 <= k < |ls| reads r => ls[k].State())
    }

    /** Every food item, in order: where it is, how big, whether captured and its colour. */
    ghost function FoodItems(): (fs: seq<FoodItem>)
      requires Valid()
      reads this`robots, this`lights, this`foods, this`Repr, Repr
      ensures |fs| == |foods|
      ensures forall k :: 0 <= k < |foods| ==>
                fs[k] == FoodItem(Disc(foods[k].pose, foods[k].radius), foods[k].captured, foods[k].color)
    {
      var fs, r := foods, Repr;
      seq(|fs|, k requires 0 <= k < |fs| reads r => FoodItem(Disc(fs[k].pose, fs[k].radius), fs[k].captured, fs[k].color))
    }

    /** Where the food items are and how big they are, in order. */
    ghost function FoodDiscs(): (ds: seq<Disc>)
      requires Valid()
      reads this`robots, this`lights, this`foods, this`Repr, Repr
      ensures |ds| == |foods| && forall k :: 0 <= k < |foods| ==> ds[k] == Disc(foods[k].pose, foods[k].radius)
    {
      DiscsOf(FoodItems())
    }

    /** The robots, the lights and the game status, as a timestep sees them. */
    ghost function WorldOf(): World
      requires Valid()
      reads this`robots, this`lights, this`foods, this`Repr, Repr, this`gameStatus
    {
      World(RobotStates(), LightStates(), gameStatus)
    }

    /** The reverse-arc countdown of every mobile entity is in one of its valid states. */
    ghost predicate ArcsValid()
      reads this`robots, this`lights, robots, lights
    {
      && (forall i :: 0 <= i < |robots| ==> ArcValid(robots[i].ArcOf()))
      && (forall k :: 0 <= k < |lights| ==> ArcValid(lights[k].ArcOf()))
    }

    /** While the game is being played, no robot has been found LOST. */
    ghost predicate StatusConsistent()
      reads this`gameStatus, this`robots, robots
    {
      gameStatus == PLAYING ==> forall i :: 0 <= i < |robots| ==> robots[i].status == PLAYING
    }

    /** The two invariants are those of the world the arena holds. */
    lemma InvariantsOfWorld()
      requires Valid()
      ensures ArcsValid() <==> ArcsValidIn(WorldOf())
      ensures StatusConsistent() <==> ConsistentIn(WorldOf())
    {
      var w := WorldOf();
      assert forall i :: 0 <= i < |robots| ==> w.robots[i] == robots[i].State();
      assert forall k :: 0 <= k < |lights| ==> w.lights[k] == lights[k].State();
    }

    /**
     * arena.cc:23-44: status PLAYING, not paused, food off exactly when the parameters
     * say so; the robots, then the lights, then (only with food on) the food.
     */
    constructor (params: ArenaParams, place: nat -> Placement)
      requires Buildable(params)
      ensures Valid() && ArcsValid() && StatusConsistent() && fresh(Repr)
      ensures xDim == params.xDim && yDim == params.yDim
      ensures gameStatus == PLAYING && !paused && foodOff == !params.foodOn
      ensures |robots| == Count(params.nRobots) && |lights| == Count(params.nLights)
      ensures |foods| == if params.foodOn then Count(params.nFood) else 0
      ensures forall i :: 0 <= i < |robots| ==>
        robots[i].State() == NewRobot(place(i), i >= FearCount(params.nRobots, params.nRatio),
                                      Sensitivity(params.nLightSensitivity), params.foodOn)
      ensures forall i :: 0 <= i < |robots| ==> (robots[i].GetName() == "E" <==> i >= FearCount(params.nRobots, params.nRatio))
      ensures forall k :: 0 <= k < |lights| ==> lights[k].State() == FirstLight(place(|robots| + k))
      ensures forall k :: 0 <= k < |foods| ==> FirstFood(foods[k])
    {
      xDim, yDim := params.xDim, params.yDim;
      robots, lights, foods := [], [], [];
      gameStatus, paused, foodOff := PLAYING, false, false;
      Repr := {};
      new;
      AddRobot(params.nRobots, params.nRatio, params.nLightSensitivity, params.foodOn, place);
      AddScenery(params.nLights, params.foodOn, params.nFood, place);
    }

    /** The rest of the constructor (arena.cc:37-43): the lights, then the food or the food-off flag. */
    method AddScenery(nLights: int, foodOn: bool, nFood: int, place: nat -> Placement)
      requires Valid() && ArcsValid() && lights == [] && foods == [] && !foodOff
      modifies this`lights, this`foods, this`foodOff, this`Repr
      ensures Valid() && ArcsValid() && fresh(Repr - old(Repr)) && robots == old(robots)
      ensures forall i :: 0 <= i < |robots| ==> robots[i].State() == old(robots[i].State())
      ensures foodOff == !foodOn && |lights| == Count(nLights)
      ensures |foods| == if foodOn then Count(nFood) else 0
      ensures forall k :: 0 <= k < |lights| ==> lights[k].State() == FirstLight(place(|robots| + k))
      ensures forall k :: 0 <= k < |foods| ==> FirstFood(foods[k])
    {
      AddLights(nLights, place);
      AddFoodOrFlag(foodOn, nFood);
    }

    /** arena.cc:39-43: the food when food is on, otherwise only the food-off flag. */
    method AddFoodOrFlag(foodOn: bool, nFood: int)
      requires Valid() && foods == [] && !foodOff
      modifies this`foods, this`foodOff, this`Repr
      ensures Valid() && fresh(Repr - old(Repr)) && robots == old(robots) && lights == old(lights)
      ensures foodOff == !foodOn
      ensures |foods| == if foodOn then Count(nFood) else 0
      ensures forall k :: 0 <= k < |foods| ==> FirstFood(foods[k])
    {
      if foodOn {
        AddFood(nFood);
      } else {
        foodOff := true;
      }
    }

    /**
     * arena.cc:55-77: quantity robots, each with the given light sensitivity and food
     * flag; those from index FearCount on become Explorers. Called on an arena with no
     * entities yet.
     */
    method AddRobot(quantity: int, ratio: int, lightSense: int, foodOn: bool, place: nat -> Placement)
      requires Valid() && robots == [] && lights == [] && foods == [] && Repr == {}
      requires ExplorersIndexable(quantity, ratio)
      modifies this`robots, this`Repr
      ensures Valid() && ArcsValid() && fresh(Repr - old(Repr))
      ensures lights == [] && foods == [] && forall i :: 0 <= i < |robots| ==> robots[i].status == PLAYING
      ensures |robots| == Count(quantity)
      ensures forall i :: 0 <= i < |robots| ==>
        robots[i].State() == NewRobot(place(i), i >= FearCount(quantity, ratio), Sensitivity(lightSense), foodOn)
    {
      var quant := FearCount(quantity, ratio);
      var sense := Sensitivity(lightSense);
      CreateRobots(quantity, sense, foodOn, place);
      MakeExplorers(quant, quantity, sense, foodOn, place);
    }

    /** AddRobot's first loop (arena.cc:64-70): quantity Fear robots at the given placements. */
    method CreateRobots(quantity: int, sense: real, foodOn: bool, place: nat -> Placement)
      requires Valid() && robots == [] && lights == [] && foods == []
      modifies this`robots, this`Repr
      ensures Valid() && lights == [] && foods == [] && fresh(Repr - old(Repr))
      ensures |robots| == Count(quantity)
      ensures forall k :: 0 <= k < |robots| ==> fresh(robots[k].Repr)
      ensures forall k :: 0 <= k < |robots| ==> robots[k].State() == NewRobot(place(k), false, sense, foodOn)
    {
      var i := 0;
      while i < quantity
        invariant Valid() && lights == [] && foods == [] && fresh(Repr - old(Repr))
        invariant 0 <= i <= Count(quantity) && |robots| == i
        invariant forall k :: 0 <= k < |robots| ==> fresh(robots[k].Repr)
        invariant forall k :: 0 <= k < |robots| ==> robots[k].State() == NewRobot(place(k), false, sense, foodOn)
      {
        AppendRobot(place(i), sense, foodOn);
        i := i + 1;
      }
    }

    /** AddRobot's second loop (arena.cc:72-76): the robots from index quant on become Explorers. */
    method MakeExplorers(quant: int, quantity: int, sense: real, foodOn: bool, place: nat -> Placement)
      requires Valid() && |robots| == Count(quantity)
      requires 0 <= quant || quantity <= quant
      requires forall k :: 0 <= k < |robots| ==> robots[k].State() == NewRobot(place(k), false, sense, foodOn)
      modifies Repr
      ensures Valid()
      ensures forall k :: 0 <= k < |robots| ==> robots[k].State() == NewRobot(place(k), k >= quant, sense, foodOn)
    {
      var j := quant;
      while j < quantity
        invariant Valid()
        invariant quant < quantity ==> 0 <= quant <= j <= quantity
        invariant forall k :: 0 <= k < |robots| ==> robots[k].State() == NewRobot(place(k), quant <= k < j, sense, foodOn)
      {
        MakeExplorer(j);
        j := j + 1;
      }
    }

    /** One iteration of AddRobot's first loop (arena.cc:65-69): the new robot goes at the end. */
    method AppendRobot(pl: Placement, sense: real, foodOn: bool)
      requires Valid() && lights == [] && foods == []
      modifies this`robots, this`Repr
      ensures Valid() && lights == [] && foods == [] && fresh(Repr - old(Repr))
      ensures |robots| == |old(robots)| + 1 && robots[..|old(robots)|] == old(robots)
      ensures fresh(robots[|old(robots)|].Repr)
      ensures robots[|old(robots)|].State() == NewRobot(pl, false, sense, foodOn)
      ensures forall k :: 0 <= k < |old(robots)| ==> robots[k].State() == old(robots[k].State())
    {
      var r := SpawnRobot(pl, sense, foodOn);
      LayoutAddRobot(robots, foods, Repr, r);
      robots := robots + [r];
      Repr := Repr + r.Repr;
    }

    /** One iteration of AddRobot's second loop (arena.cc:73-75): robot j becomes an Explorer with a fresh Explorer handler. */
    method MakeExplorer(j: nat)
      requires Valid() && j < |robots|
      modifies robots[j], robots[j].handler
      ensures Valid()
      ensures robots[j].State() == old(robots[j].State()).(robotType := Explorer, kind := ExploreHandler,
        velocity := WheelVelocity(0.0, 0.0), maxSpeed := 10.0, maxAngle := 360.0)
      ensures forall k :: 0 <= k < |robots| && k != j ==> robots[k].State() == old(robots[k].State())
    {
      robots[j].SetRobotType(Explorer);
      robots[j].ChangeToExplore();
    }

    /** arena.cc:85-91: quantity lights, appended after the robots. */
    method AddLights(quantity: int, place: nat -> Placement)
      requires Valid() && lights == [] && foods == [] && ArcsValid()
      modifies this`lights, this`Repr
      ensures Valid() && ArcsValid() && fresh(Repr - old(Repr))
      ensures robots == old(robots) && foods == []
      ensures forall i :: 0 <= i < |robots| ==> robots[i].State() == old(robots[i].State())
      ensures |lights| == Count(quantity)
      ensures forall k :: 0 <= k < |lights| ==> lights[k].State() == FirstLight(place(|robots| + k))
    {
      var i := 0;
      while i < quantity
        invariant Valid() && robots == old(robots) && foods == [] && fresh(Repr - old(Repr)) && ArcsValid()
        invariant 0 <= i <= Count(quantity) && |lights| == i
        invariant forall k :: 0 <= k < |lights| ==> lights[k].State() == FirstLight(place(|robots| + k))
      {
        AppendLight(place(|robots| + i));
        i := i + 1;
      }
    }

    /** One iteration of AddLights (arena.cc:86-90). */
    method AppendLight(pl: Placement)
      requires Valid() && foods == [] && ArcsValid()
      modifies this`lights, this`Repr
      ensures Valid() && ArcsValid() && foods == [] && robots == old(robots) && fresh(Repr - old(Repr))
      ensures |lights| == |old(lights)| + 1 && lights[..|old(lights)|] == old(lights)
      ensures lights[|old(lights)|].State() == FirstLight(pl)
    {
      var l := new Light(pl.pose.theta, pl.radius);
      LayoutAddLight(robots, lights, foods, Repr, l);
      lights := lights + [l];
      Repr := Repr + {l, l.handler};
    }

    /** arena.cc:79-83: quantity food items, appended after the lights. */
    method AddFood(quantity: int)
      requires Valid() && foods == []
      modifies this`foods, this`Repr
      ensures Valid() && fresh(Repr - old(Repr))
      ensures robots == old(robots) && lights == old(lights)
      ensures |foods| == Count(quantity)
      ensures forall k :: 0 <= k < |foods| ==> FirstFood(foods[k])
    {
      var i := 0;
      while i < quantity
        invariant Valid() && robots == old(robots) && lights == old(lights) && fresh(Repr - old(Repr))
        invariant 0 <= i <= Count(quantity) && |foods| == i
        invariant forall k :: 0 <= k < |foods| ==> FirstFood(foods[k])
      {
        AppendFood();
        i := i + 1;
      }
    }

    /** One iteration of AddFood (arena.cc:80-82). */
    method AppendFood()
      requires Valid()
      modifies this`foods, this`Repr
      ensures Valid() && robots == old(robots) && lights == old(lights) && fresh(Repr - old(Repr))
      ensures |foods| == |old(foods)| + 1 && foods[..|old(foods)|] == old(foods)
      ensures FirstFood(foods[|old(foods)|])
    {
      var f := new Food();
      LayoutAddFood(robots, lights, foods, Repr, f);
      foods := foods + [f];
      Repr := Repr + {f};
    }
  
    /**
     * arena.cc:113-201: while the game is being played, the five phases run in
     * turn; otherwise nothing changes. The food never moves.
     */
    method UpdateEntitiesTimestep(ph: Physics)
      requires Valid()
      modifies Repr, this`gameStatus
      ensures Valid() && FoodItems() == old(FoodItems())
      ensures WorldOf() == Timestep(old(WorldOf()), old(FoodDiscs()), xDim, yDim, ph)
      ensures old(ArcsValid()) ==> ArcsValid()
      ensures old(StatusConsistent()) ==> StatusConsistent()
    {
      ghost var w0, fds0 := WorldOf(), FoodDiscs();
      TimestepKeepsInvariants(w0, fds0, xDim, yDim, ph);
      if gameStatus == PLAYING {
        ghost var w := WorldOf();
        ghost var fds := FoodDiscs();
        ResetSensors();
        LightPhase(ph);
        FoodPhase(ph);
        assert RobotStates() == Sensed(w, fds, ph);
        StepRobots(ph);
        RobotCollisions(ph);
        LightCollisions(ph);
      }
      CarryInvariants();
    }

    /** When the world the arena holds keeps both invariants, so does the arena. */
    twostate lemma CarryInvariants()
      requires old(Valid()) && Valid()
      requires ArcsValidIn(old(WorldOf())) ==> ArcsValidIn(WorldOf())
      requires ConsistentIn(old(WorldOf())) ==> ConsistentIn(WorldOf())
      ensures old(ArcsValid()) ==> ArcsValid()
      ensures old(StatusConsistent()) ==> StatusConsistent()
    {
      var w0 := old(WorldOf());
      assert forall i :: 0 <= i < |w0.robots| ==> w0.robots[i] == old(robots[i].State());
      assert forall k :: 0 <= k < |w0.lights| ==> w0.lights[k] == old(lights[k].State());
      InvariantsOfWorld();
    }

    /**
     * arena.cc:104-111: a paused arena ignores time; otherwise a step that is not
     * positive is ignored and a positive one runs exactly one timestep.
     */
    method AdvanceTime(dt: real, ph: Physics)
      requires Valid()
      modifies Repr, this`gameStatus
      ensures Valid() && FoodItems() == old(FoodItems())
      ensures WorldOf() == if !paused && dt > 0.0 then Timestep(old(WorldOf()), old(FoodDiscs()), xDim, yDim, ph)
                           else old(WorldOf())
      ensures old(ArcsValid()) ==> ArcsValid()
      ensures old(StatusConsistent()) ==> StatusConsistent()
    {
      if !paused {
        if !(dt > 0.0) {
          return;
        }
        UpdateEntitiesTimestep(ph);
      }
    }

    /**
     * arena.cc:93-98: the game is PLAYING again and every entity is reset, the robots
     * first, then the lights, then the food; entity number e uses draw(e).
     */
    method Reset(draw: nat -> Draw)
      requires Valid()
      modifies Repr, this`gameStatus
      ensures Valid() && gameStatus == PLAYING
      ensures RobotStates() == RobotsReset(old(RobotStates()), draw)
      ensures LightStates() == LightsReset(old(LightStates()), draw, |robots|)
      ensures FoodDiscs() == FoodsReset(|foods|, draw, |robots| + |lights|)
      ensures forall k :: 0 <= k < |foods| ==> !foods[k].captured && foods[k].color == FOOD_COLOR
      ensures StatusConsistent() && (old(ArcsValid()) ==> ArcsValid())
    {
      gameStatus := PLAYING;
      ResetEntities(draw);
      assert StatusConsistent() && (old(ArcsValid()) ==> ArcsValid()) by {
        ResetKeepsInvariants(draw);
      }
    }

    /** The loops of arena.cc:95-97: the robots, then the lights, then the food are reset. */
    method ResetEntities(draw: nat -> Draw)
      requires Valid()
      modifies Repr
      ensures Valid()
      ensures RobotStates() == RobotsReset(old(RobotStates()), draw)
      ensures LightStates() == LightsReset(old(LightStates()), draw, |robots|)
      ensures FoodDiscs() == FoodsReset(|foods|, draw, |robots| + |lights|)
      ensures forall k :: 0 <= k < |foods| ==> !foods[k].captured && foods[k].color == FOOD_COLOR
    {
      ResetRobots(draw);
      ResetLights(draw);
      ResetFoods(draw);
    }

    /** After the entity resets every robot is PLAYING, and every countdown that was valid still is. */
    twostate lemma ResetKeepsInvariants(draw: nat -> Draw)
      requires old(Valid()) && Valid() && gameStatus == PLAYING
      requires RobotStates() == RobotsReset(old(RobotStates()), draw)
      requires LightStates() == LightsReset(old(LightStates()), draw, old(|robots|))
      ensures StatusConsistent() && (old(ArcsValid()) ==> ArcsValid())
    {
      RobotsResetFresh(old(RobotStates()), draw);
      LightsResetKeepArcs(old(LightStates()), draw, old(|robots|));
      assert forall k :: 0 <= k < |lights| ==> lights[k].ArcOf() == LightStates()[k].arc;
      assert forall k :: 0 <= k < |lights| ==> old(lights[k].ArcOf()) == old(LightStates())[k].arc;
    }

    /** The robots' part of Reset: robot i is reset with draw(i). */
    method ResetRobots(draw: nat -> Draw)
      requires Valid()
      modifies Repr
      ensures Valid()
      ensures RobotStates() == RobotsReset(old(RobotStates()), draw)
      ensures LightStates() == old(LightStates()) && FoodItems() == old(FoodItems())
    {
      ghost var init := RobotStates();
      var i := 0;
      while i < |robots|
        invariant 0 <= i <= |robots| && Valid()
        invariant RobotStates() == Replaced(init, RobotsReset(init, draw), i)
        invariant LightStates() == old(LightStates()) && FoodItems() == old(FoodItems())
      {
        ResetRobot(i, draw(i));
        ReplacedStep(init, RobotsReset(init, draw), i);
        i := i + 1;
      }
      ReplacedEnds(init, RobotsReset(init, draw));
    }

    /** Robot::Reset on robot i alone. */
    method ResetRobot(i: nat, d: Draw)
      requires Valid() && i < |robots|
      modifies robots[i], robots[i].handler, robots[i].lightLeft.base, robots[i].lightRight.base
      modifies robots[i].foodLeft.base, robots[i].foodRight.base
      ensures Valid()
      ensures RobotStates() == old(RobotStates())[i := RobotReset(old(RobotStates())[i], d)]
      ensures LightStates() == old(LightStates()) && FoodItems() == old(FoodItems())
    {
      robots[i].Reset(d);
      RobotPartsAlone(i);
    }

    /** The lights' part of Reset: light k is reset with draw(|robots| + k). */
    method ResetLights(draw: nat -> Draw)
      requires Valid()
      modifies Repr
      ensures Valid()
      ensures LightStates() == LightsReset(old(LightStates()), draw, |robots|)
      ensures RobotStates() == old(RobotStates()) && FoodItems() == old(FoodItems())
    {
      ghost var init := LightStates();
      var k := 0;
      while k < |lights|
        invariant 0 <= k <= |lights| && Valid()
        invariant LightStates() == Replaced(init, LightsReset(init, draw, |robots|), k)
        invariant RobotStates() == old(RobotStates()) && FoodItems() == old(FoodItems())
      {
        ResetLight(k, draw(|robots| + k));
        ReplacedStep(init, LightsReset(init, draw, |robots|), k);
        k := k + 1;
      }
      ReplacedEnds(init, LightsReset(init, draw, |robots|));
    }

    /** Light::Reset on light k alone. */
    method ResetLight(k: nat, d: Draw)
      requires Valid() && k < |lights|
      modifies lights[k], lights[k].handler
      ensures Valid()
      ensures LightStates() == old(LightStates())[k := LightReset(old(LightStates())[k], d)]
      ensures RobotStates() == old(RobotStates()) && FoodItems() == old(FoodItems())
    {
      lights[k].Reset(d);
      LightPartsAlone(k);
    }

    /** The food's part of Reset: food item k is reset with draw(|robots| + |lights| + k). */
    method ResetFoods(draw: nat -> Draw)
      requires Valid()
      modifies Repr
      ensures Valid()
      ensures FoodDiscs() == FoodsReset(|foods|, draw, |robots| + |lights|)
      ensures forall k :: 0 <= k < |foods| ==> !foods[k].captured && foods[k].color == FOOD_COLOR
      ensures RobotStates() == old(RobotStates()) && LightStates() == old(LightStates())
    {
      ghost var init := FoodDiscs();
      var k := 0;
      while k < |foods|
        invariant 0 <= k <= |foods| && Valid()
        invariant FoodDiscs() == Replaced(init, FoodsReset(|init|, draw, |robots| + |lights|), k)
        invariant forall l :: 0 <= l < k ==> !foods[l].captured && foods[l].color == FOOD_COLOR
        invariant RobotStates() == old(RobotStates()) && LightStates() == old(LightStates())
      {
        ResetFood(k, draw(|robots| + |lights| + k));
        ReplacedStep(init, FoodsReset(|init|, draw, |robots| + |lights|), k);
        k := k + 1;
      }
      ReplacedEnds(init, FoodsReset(|init|, draw, |robots| + |lights|));
    }

    /** Food::Reset on food item k alone. */
    method ResetFood(k: nat, d: Draw)
      requires Valid() && k < |foods|
      modifies foods[k]
      ensures Valid()
      ensures FoodDiscs() == old(FoodDiscs())[k := Disc(PoseAt(GridX(d.gridX), GridY(d.gridY)), FOOD_RADIUS)]
      ensures !foods[k].captured && foods[k].color == FOOD_COLOR
      ensures forall l :: 0 <= l < |foods| && l != k ==> foods[l].captured == old(foods[l].captured) && foods[l].color == old(foods[l].color)
      ensures RobotStates() == old(RobotStates()) && LightStates() == old(LightStates())
    {
      foods[k].Reset(d);
      FoodAlone(k);
    }

    /**
     * arena.cc:277-290: Play and Pause set the paused flag, Reset resets the arena,
     * FoodOn and FoodOff set the food-off flag (FoodOff then falls through to None's
     * break), and every other command changes nothing.
     */
    method AcceptCommand(com: Communication, draw: nat -> Draw)
      requires Valid()
      modifies Repr, this`gameStatus, this`paused, this`foodOff
      ensures Valid()
      ensures paused == match com { case Play => false case Pause => true case _ => old(paused) }
      ensures foodOff == match com { case FoodOn => false case FoodOff => true case _ => old(foodOff) }
      ensures com.Reset? ==> && WorldOf() == WorldReset(old(WorldOf()), draw)
                               && FoodDiscs() == FoodsReset(|foods|, draw, |robots| + |lights|)
                               && forall k :: 0 <= k < |foods| ==> !foods[k].captured && foods[k].color == FOOD_COLOR
      ensures !com.Reset? ==> WorldOf() == old(WorldOf()) && FoodItems() == old(FoodItems())
      ensures old(ArcsValid()) ==> ArcsValid()
      ensures old(StatusConsistent()) || com.Reset? ==> StatusConsistent()
    {
      match com {
        case Play => paused := false;
        case Pause => paused := true;
        case Reset => Reset(draw);
        case FoodOn => foodOff := false;
        case FoodOff => foodOff := true;
        case _ =>
      }
    }

    /** Phase A of a timestep (arena.cc:121-123): every robot's sensor readings are set to 0. */
    method ResetSensors()
      requires Valid()
      modifies Repr
      ensures Valid()
      ensures RobotStates() == ClearAll(old(RobotStates()))
      ensures LightStates() == old(LightStates()) && FoodItems() == old(FoodItems())
    {
      ghost var init := RobotStates();
      var i := 0;
      while i < |robots|
        invariant 0 <= i <= |robots| && Valid()
        invariant RobotStates() == Replaced(init, ClearAll(init), i)
        invariant LightStates() == old(LightStates()) && FoodItems() == old(FoodItems())
      {
        ClearRobot(i);
        ReplacedStep(init, ClearAll(init), i);
        i := i + 1;
      }
      ReplacedEnds(init, ClearAll(init));
    }

    /** reset_sensor_reading on robot i alone. */
    method ClearRobot(i: nat)
      requires Valid() && i < |robots|
      modifies robots[i].lightLeft.base, robots[i].lightRight.base, robots[i].foodLeft.base, robots[i].foodRight.base
      ensures Valid()
      ensures RobotStates() == old(RobotStates())[i := SensorsCleared(old(RobotStates())[i])]
      ensures LightStates() == old(LightStates()) && FoodItems() == old(FoodItems())
    {
      robots[i].ResetSensorReading();
      RobotPartsAlone(i);
    }

    /** Phase B of a timestep (arena.cc:126-138): each light in turn moves, then tells every robot where it now is. */
    method LightPhase(ph: Physics)
      requires Valid()
      modifies Repr
      ensures Valid()
      ensures LightStates() == LightsStepped(old(LightStates()), ph)
      ensures RobotStates() == LitAll(old(RobotStates()), LightDiscs(LightStates()), ph)
      ensures FoodItems() == old(FoodItems())
    {
      ghost var initR := RobotStates();
      ghost var initL := LightStates();
      ghost var ds := LightDiscs(LightsStepped(initL, ph));
      var k := 0;
      while k < |lights|
        invariant 0 <= k <= |lights| && Valid()
        invariant LightStates() == Replaced(initL, LightsStepped(initL, ph), k)
        invariant RobotStates() == LitAll(initR, ds[..k], ph)
        invariant FoodItems() == old(FoodItems())
      {
        StepLight(k, ph);
        ReplacedStep(initL, LightsStepped(initL, ph), k);
        NotifyOfLight(lights[k].pose, lights[k].radius, ph);
        assert ds[..k + 1] == ds[..k] + [ds[k]];
        LitAllSnoc(initR, ds[..k], ds[k], ph);
        k := k + 1;
      }
      ReplacedEnds(initL, LightsStepped(initL, ph));
      assert ds[..k] == ds;
    }

    /** TimestepUpdate(1) on light k alone (arena.cc:129). */
    method StepLight(k: nat, ph: Physics)
      requires Valid() && k < |lights|
      modifies lights[k], lights[k].handler
      ensures Valid()
      ensures LightStates() == old(LightStates())[k := LightStep(old(LightStates())[k], 1, ph)]
      ensures RobotStates() == old(RobotStates()) && FoodItems() == old(FoodItems())
    {
      lights[k].TimestepUpdate(1, ph);
      LightPartsAlone(k);
    }

    /** The inner loop of phase B (arena.cc:133-135): every robot is told of a light at p with radius r. */
    method NotifyOfLight(p: Pose, r: real, ph: Physics)
      requires Valid()
      modifies Repr
      ensures Valid()
      ensures RobotStates() == NotifiedAll(old(RobotStates()), p, r, ph)
      ensures LightStates() == old(LightStates()) && FoodItems() == old(FoodItems())
    {
      ghost var init := RobotStates();
      var i := 0;
      while i < |robots|
        invariant 0 <= i <= |robots| && Valid()
        invariant RobotStates() == Replaced(init, NotifiedAll(init, p, r, ph), i)
        invariant LightStates() == old(LightStates()) && FoodItems() == old(FoodItems())
      {
        LightRobot(i, p, r, ph);
        ReplacedStep(init, NotifiedAll(init, p, r, ph), i);
        i := i + 1;
      }
      ReplacedEnds(init, NotifiedAll(init, p, r, ph));
    }

    /** LightNotify on robot i alone. */
    method LightRobot(i: nat, p: Pose, r: real, ph: Physics)
      requires Valid() && i < |robots|
      modifies robots[i].lightLeft.base, robots[i].lightRight.base
      ensures Valid()
      ensures RobotStates() == old(RobotStates())[i := LightNotified(old(RobotStates())[i], p, r, ph)]
      ensures LightStates() == old(LightStates()) && FoodItems() == old(FoodItems())
    {
      robots[i].LightNotify(p, r, ph);
      RobotPartsAlone(i);
    }

    /** Phase C of a timestep (arena.cc:140-151): each food item in turn notifies, and perhaps feeds, every robot. */
    method FoodPhase(ph: Physics)
      requires Valid()
      modifies Repr
      ensures Valid()
      ensures RobotStates() == FedAll(old(RobotStates()), FoodDiscs(), ph)
      ensures LightStates() == old(LightStates()) && FoodItems() == old(FoodItems())
    {
      ghost var initR := RobotStates();
      ghost var ds := FoodDiscs();
      var k := 0;
      while k < |foods|
        invariant 0 <= k <= |foods| && Valid()
        invariant RobotStates() == FedAll(initR, ds[..k], ph)
        invariant LightStates() == old(LightStates()) && FoodItems() == old(FoodItems())
      {
        FeedRobots(foods[k].pose, foods[k].radius, ph);
        assert ds[..k + 1] == ds[..k] + [ds[k]];
        FedAllSnoc(initR, ds[..k], ds[k], ph);
        k := k + 1;
      }
      assert ds[..k] == ds;
    }

    /** The inner loop of phase C (arena.cc:141-150) for a food item at p with radius r. */
    method FeedRobots(p: Pose, r: real, ph: Physics)
      requires Valid()
      modifies Repr
      ensures Valid()
      ensures RobotStates() == FedEach(old(RobotStates()), Disc(p, r), ph)
      ensures LightStates() == old(LightStates()) && FoodItems() == old(FoodItems())
    {
      ghost var init := RobotStates();
      var i := 0;
      while i < |robots|
        invariant 0 <= i <= |robots| && Valid()
        invariant RobotStates() == Replaced(init, FedEach(init, Disc(p, r), ph), i)
        invariant LightStates() == old(LightStates()) && FoodItems() == old(FoodItems())
      {
        FeedRobot(i, p, r, ph);
        ReplacedStep(init, FedEach(init, Disc(p, r), ph), i);
        i := i + 1;
      }
      ReplacedEnds(init, FedEach(init, Disc(p, r), ph));
    }

    /** FoodNotify on robot i, then reset_hungry_counter if the robot is feeding (arena.cc:142-149). */
    method FeedRobot(i: nat, p: Pose, r: real, ph: Physics)
      requires Valid() && i < |robots|
      modifies robots[i], robots[i].foodLeft.base, robots[i].foodRight.base
      ensures Valid()
      ensures RobotStates() == old(RobotStates())[i := Fed(old(RobotStates())[i], Disc(p, r), ph)]
      ensures LightStates() == old(LightStates()) && FoodItems() == old(FoodItems())
    {
      robots[i].FoodNotify(p, r, ph);
      if robots[i].IsFeeding(p, r) {
        robots[i].ResetHungryCounter();
      }
      RobotPartsAlone(i);
    }

    /**
     * Phase D of a timestep (arena.cc:157-167): robot after robot moves and gets
     * hungrier, until one is found LOST; then the game is LOST and the loop stops.
     */
    method StepRobots(ph: Physics)
      requires Valid()
      modifies Repr, this`gameStatus
      ensures Valid()
      ensures RobotStates() == TickAll(old(RobotStates()), ph)
      ensures gameStatus == if FirstLost(old(RobotStates()), 0) < |robots| then LOST else old(gameStatus)
      ensures LightStates() == old(LightStates()) && FoodItems() == old(FoodItems())
    {
      ghost var init := RobotStates();
      var n := TickUntilLost(ph);
      FirstLostAt(init, 0, n);
      TickAllAt(init, RobotStates(), ph);
      SetLostIf(n < |robots|);
    }

    /** Records that the game is LOST when `lost` holds; nothing else changes. */
    method SetLostIf(lost: bool)
      requires Valid()
      modifies this`gameStatus
      ensures Valid() && RobotStates() == old(RobotStates())
      ensures LightStates() == old(LightStates()) && FoodItems() == old(FoodItems())
      ensures gameStatus == if lost then LOST else old(gameStatus)
    {
      if lost {
        gameStatus := LOST;
      }
    }

    /**
     * The robot loop of phase D without the status update: it returns the index it
     * stopped at, where a robot was found LOST, or the number of robots.
     */
    method TickUntilLost(ph: Physics) returns (n: nat)
      requires Valid()
      modifies Repr
      ensures Valid() && n <= |robots|
      ensures forall j :: 0 <= j < n ==> !StopsAt(old(RobotStates())[j])
      ensures n < |robots| ==> StopsAt(old(RobotStates())[n])
      ensures RobotStates() == Replaced(old(RobotStates()), TickEach(old(RobotStates()), ph), if n < |robots| then n + 1 else n)
      ensures LightStates() == old(LightStates()) && FoodItems() == old(FoodItems())
    {
      ghost var init := RobotStates();
      n := 0;
      while n < |robots|
        invariant 0 <= n <= |robots| && Valid()
        invariant forall j :: 0 <= j < n ==> !StopsAt(init[j])
        invariant RobotStates() == Replaced(init, TickEach(init, ph), n)
        invariant LightStates() == old(LightStates()) && FoodItems() == old(FoodItems())
      {
        var lost := TickRobot(n, ph);
        ReplacedStep(init, TickEach(init, ph), n);
        if lost {
          break;
        }
        n := n + 1;
      }
    }

    /** TimestepUpdate(1) and increase_hungry on robot i; says whether it is now LOST (arena.cc:158-163). */
    method TickRobot(i: nat, ph: Physics) returns (lost: bool)
      requires Valid() && i < |robots|
      modifies robots[i], robots[i].handler
      ensures Valid()
      ensures RobotStates() == old(RobotStates())[i := Tick(old(RobotStates())[i], ph)]
      ensures lost <==> StopsAt(old(RobotStates())[i])
      ensures LightStates() == old(LightStates()) && FoodItems() == old(FoodItems())
    {
      TickStatus(robots[i].State(), ph);
      robots[i].TimestepUpdate(1, ph);
      robots[i].IncreaseHungry();
      var s := robots[i].GetStatus();
      lost := s == LOST;
      RobotPartsAlone(i);
    }

    /**
     * Phase E for the lights (arena.cc:172-199), after the robots: each light in
     * turn is settled against the walls and the other lights, which are where the
     * lights before it have just been moved. Lights do not collide with robots or food.
     */
    method LightCollisions(ph: Physics)
      requires Valid()
      modifies Repr
      ensures Valid()
      ensures LightStates() == LightsSettled(old(LightStates()), xDim, yDim, ph)
      ensures RobotStates() == old(RobotStates()) && FoodItems() == old(FoodItems())
    {
      ghost var init := LightStates();
      ghost var ds := LightDiscs(init);
      ghost var hits := NoHits(|lights|);
      var k := 0;
      while k < |lights|
        invariant 0 <= k <= |lights| && Valid() && |ds| == |hits| == |lights|
        invariant SettleFrom(ds, hits, k, xDim, yDim, ph) == SettleFrom(LightDiscs(init), NoHits(|init|), 0, xDim, yDim, ph)
        invariant LightStates() == LightsMovedUpTo(init, ds, hits, k) && ds == LightDiscs(LightStates())
        invariant RobotStates() == old(RobotStates()) && FoodItems() == old(FoodItems())
      {
        ds, hits := SettleLight(k, init, ds, hits, ph);
        k := k + 1;
      }
      LightsMovedUpToSettled(init, ds, hits, xDim, yDim, ph);
    }

    /** One pass of phase E's light loop: light k is settled, and the rest of the pass is what is left to do. */
    method SettleLight(k: nat, ghost init: seq<LightState>, ghost ds: seq<Disc>, ghost hits: seq<bool>, ph: Physics)
      returns (ghost ds': seq<Disc>, ghost hits': seq<bool>)
      requires Valid() && k < |lights| && |ds| == |hits| == |lights| == |init|
      requires LightStates() == LightsMovedUpTo(init, ds, hits, k) && ds == LightDiscs(LightStates())
      modifies lights[k]
      ensures Valid() && |ds'| == |hits'| == |lights|
      ensures SettleFrom(ds', hits', k + 1, xDim, yDim, ph) == SettleFrom(ds, hits, k, xDim, yDim, ph)
      ensures LightStates() == LightsMovedUpTo(init, ds', hits', k + 1) && ds' == LightDiscs(LightStates())
      ensures RobotStates() == old(RobotStates()) && FoodItems() == old(FoodItems())
    {
      ghost var st := CollideLight(k, ds, ph);
      LightsMovedUpToStep(init, ds, hits, k, st.pose, st.hit);
      LightDiscsMoved(LightsMovedUpTo(init, ds, hits, k), k, st.pose, st.hit);
      ds' := ds[k := Disc(st.pose, ds[k].radius)];
      hits' := hits[k := st.hit];
    }

    /**
     * Phase E for light k (arena.cc:172-198): the wall check and snap, then a push
     * off every other light it collides with where that light stands now. The ghost
     * result is where the pass leaves light k and whether it started a reverse arc.
     */
    method CollideLight(k: nat, ghost ds: seq<Disc>, ph: Physics) returns (ghost st: Settle)
      requires Valid() && k < |lights| && ds == LightDiscs(LightStates())
      modifies lights[k]
      ensures Valid() && RobotStates() == old(RobotStates()) && FoodItems() == old(FoodItems())
      ensures st == SettleDisc(old(lights[k].pose), lights[k].radius, ds, k, xDim, yDim, ph)
      ensures LightStates() == old(LightStates())[k := LightMoved(old(lights[k].State()), st.pose, st.hit)]
    {
      assert forall l :: 0 <= l < |lights| && l != k ==> lights[l] != lights[k];
      var w := WallLight(k);
      ghost var s1 := Settle(lights[k].pose, w != NoWall);
      ghost var pushed := PushOffLights(k, ds, ph);
      PushAllKeepsHit(s1, lights[k].radius, ds, k, ph);
      st := Settle(pushed.pose, s1.hit || pushed.hit);
      LightAlone(k);
    }

    /** The inner loop of phase E for light k (arena.cc:186-198); only light k moves. */
    method PushOffLights(k: nat, ghost ds: seq<Disc>, ph: Physics) returns (ghost st: Settle)
      requires k < |lights| && |ds| == |lights|
      requires forall l :: 0 <= l < |lights| && l != k ==>
        lights[l] != lights[k] && ds[l] == Disc(lights[l].pose, lights[l].radius)
      modifies lights[k]
      ensures st == PushAll(Settle(old(lights[k].pose), false), lights[k].radius, ds, k, ph)
      ensures lights[k].State() == LightMoved(old(lights[k].State()), st.pose, st.hit)
    {
      ghost var l0 := lights[k].State();
      st := Settle(lights[k].pose, false);
      var j := 0;
      while j < |lights|
        invariant 0 <= j <= |lights|
        invariant st == PushAll(Settle(l0.pose, false), l0.radius, ds[..j], k, ph)
        invariant lights[k].State() == LightMoved(l0, st.pose, st.hit)
      {
        assert ds[..j + 1][..j] == ds[..j];
        if j != k {
          ghost var t := PushLight(k, j, ph);
          PushStepKeepsHit(st, l0.radius, ds[j], ph);
          st := PushStep(st, l0.radius, ds[j], ph);
        }
        j := j + 1;
      }
      assert ds[..j] == ds;
    }

    /** The wall check and snap of light k (arena.cc:174-181). */
    method WallLight(k: nat) returns (w: Wall)
      requires k < |lights|
      modifies lights[k]
      ensures w == CollisionWall(old(lights[k].pose), lights[k].radius, xDim, yDim)
      ensures lights[k].State() ==
        LightMoved(old(lights[k].State()), AdjustWall(old(lights[k].pose), lights[k].radius, w, xDim, yDim), w != NoWall)
    {
      var me := lights[k];
      w := CollisionWall(me.pose, me.radius, xDim, yDim);
      if w != NoWall {
        var q := AdjustWall(me.pose, me.radius, w, xDim, yDim);
        me.SetPosition(q.x, q.y);
        me.HandleCollision();
      }
    }

    /** One push of light k off another light j, when they collide (arena.cc:187-198). */
    method PushLight(k: nat, j: nat, ph: Physics) returns (ghost t: Settle)
      requires k < |lights| && j < |lights| && lights[j] != lights[k]
      modifies lights[k]
      ensures t == PushStep(Settle(old(lights[k].pose), false), lights[k].radius, Disc(lights[j].pose, lights[j].radius), ph)
      ensures lights[k].State() == LightMoved(old(lights[k].State()), t.pose, t.hit)
    {
      var me := lights[k];
      t := Settle(me.pose, false);
      if Colliding(me.pose, me.radius, lights[j].pose, lights[j].radius) {
        var q := ph.pushOut(me.pose, me.radius, lights[j].pose, lights[j].radius);
        me.SetPosition(q.x, q.y);
        me.HandleCollision();
        t := Settle(me.pose, true);
      }
    }

    /** A change to light k alone keeps the arena valid and the robots and food as they were. */
    twostate lemma LightAlone(k: nat)
      requires old(Valid()) && old(k < |lights|) && unchanged(this)
      requires forall o :: o in old(Repr) && o != old(lights[k]) ==> unchanged(o)
      ensures Valid()
      ensures LightStates() == old(LightStates())[k := lights[k].State()]
      ensures RobotStates() == old(RobotStates()) && FoodItems() == old(FoodItems())
    {
    }

    /** A change to the parts of robot k alone that leaves it valid keeps the arena valid. */
    twostate lemma RobotPartsAlone(k: nat)
      requires old(Valid()) && old(k < |robots|) && unchanged(this) && robots[k].Valid()
      requires forall o :: o in old(Repr) && o !in old(robots[k].Repr) ==> unchanged(o)
      ensures Valid()
      ensures RobotStates() == old(RobotStates())[k := robots[k].State()]
      ensures LightStates() == old(LightStates()) && FoodItems() == old(FoodItems())
    {
    }

    /** A change to light k and its handler alone keeps the arena valid and the robots and food as they were. */
    twostate lemma LightPartsAlone(k: nat)
      requires old(Valid()) && old(k < |lights|) && unchanged(this)
      requires forall o :: o in old(Repr) && o != old(lights[k]) && o != old(lights[k].handler) ==> unchanged(o)
      ensures Valid()
      ensures LightStates() == old(LightStates())[k := lights[k].State()]
      ensures RobotStates() == old(RobotStates()) && FoodItems() == old(FoodItems())
    {
    }

    /** A change to food item k alone keeps the arena valid and the robots and lights as they were. */
    twostate lemma FoodAlone(k: nat)
      requires old(Valid()) && old(k < |foods|) && unchanged(this)
      requires forall o :: o in old(Repr) && o != old(foods[k]) ==> unchanged(o)
      ensures Valid()
      ensures FoodDiscs() == old(FoodDiscs())[k := Disc(foods[k].pose, foods[k].radius)]
      ensures RobotStates() == old(RobotStates()) && LightStates() == old(LightStates())
    {
    }

    /** A change to robot k alone keeps the arena valid and the lights and food as they were. */
    twostate lemma RobotAlone(k: nat)
      requires old(Valid()) && old(k < |robots|) && unchanged(this)
      requires forall o :: o in old(Repr) && o != old(robots[k]) ==> unchanged(o)
      ensures Valid()
      ensures RobotStates() == old(RobotStates())[k := robots[k].State()]
      ensures LightStates() == old(LightStates()) && FoodItems() == old(FoodItems())
    {
    }

    /**
     * Phase E for the robots (arena.cc:172-199): each robot in turn is settled
     * against the walls and the other robots, which are where the robots before it
     * have just been moved. Robots do not collide with lights or food.
     */
    method RobotCollisions(ph: Physics)
      requires Valid()
      modifies Repr
      ensures Valid()
      ensures RobotStates() == RobotsSettled(old(RobotStates()), xDim, yDim, ph)
      ensures LightStates() == old(LightStates()) && FoodItems() == old(FoodItems())
    {
      ghost var init := RobotStates();
      ghost var ds := RobotDiscs(init);
      ghost var hits := NoHits(|robots|);
      var k := 0;
      while k < |robots|
        invariant 0 <= k <= |robots| && Valid() && |ds| == |hits| == |robots|
        invariant SettleFrom(ds, hits, k, xDim, yDim, ph) == SettleFrom(RobotDiscs(init), NoHits(|init|), 0, xDim, yDim, ph)
        invariant RobotStates() == MovedUpTo(init, ds, hits, k) && ds == RobotDiscs(RobotStates())
        invariant LightStates() == old(LightStates()) && FoodItems() == old(FoodItems())
      {
        ds, hits := SettleRobot(k, init, ds, hits, ph);
        k := k + 1;
      }
      MovedUpToSettled(init, ds, hits, xDim, yDim, ph);
    }

    /** One pass of phase E's robot loop: robot k is settled, and the rest of the pass is what is left to do. */
    method SettleRobot(k: nat, ghost init: seq<RobotState>, ghost ds: seq<Disc>, ghost hits: seq<bool>, ph: Physics)
      returns (ghost ds': seq<Disc>, ghost hits': seq<bool>)
      requires Valid() && k < |robots| && |ds| == |hits| == |robots| == |init|
      requires RobotStates() == MovedUpTo(init, ds, hits, k) && ds == RobotDiscs(RobotStates())
      modifies robots[k]
      ensures Valid() && |ds'| == |hits'| == |robots|
      ensures SettleFrom(ds', hits', k + 1, xDim, yDim, ph) == SettleFrom(ds, hits, k, xDim, yDim, ph)
      ensures RobotStates() == MovedUpTo(init, ds', hits', k + 1) && ds' == RobotDiscs(RobotStates())
      ensures LightStates() == old(LightStates()) && FoodItems() == old(FoodItems())
    {
      ghost var st := CollideRobot(k, ds, ph);
      MovedUpToStep(init, ds, hits, k, st.pose, st.hit);
      RobotDiscsMoved(MovedUpTo(init, ds, hits, k), k, st.pose, st.hit);
      ds' := ds[k := Disc(st.pose, ds[k].radius)];
      hits' := hits[k := st.hit];
    }

    /**
     * Phase E for robot k (arena.cc:172-198): the wall check and snap, then a push
     * off every other robot it collides with where that robot stands now. The ghost
     * result is where the pass leaves robot k and whether it started a reverse arc.
     */
    method CollideRobot(k: nat, ghost ds: seq<Disc>, ph: Physics) returns (ghost st: Settle)
      requires Valid() && k < |robots| && ds == RobotDiscs(RobotStates())
      modifies robots[k]
      ensures Valid() && LightStates() == old(LightStates()) && FoodItems() == old(FoodItems())
      ensures st == SettleDisc(old(robots[k].pose), robots[k].radius, ds, k, xDim, yDim, ph)
      ensures RobotStates() == old(RobotStates())[k := RobotMoved(old(robots[k].State()), st.pose, st.hit)]
    {
      assert forall l :: 0 <= l < |robots| && l != k ==> robots[l] != robots[k];
      var w := WallRobot(k);
      ghost var s1 := Settle(robots[k].pose, w != NoWall);
      ghost var pushed := PushOffRobots(k, ds, ph);
      PushAllKeepsHit(s1, robots[k].radius, ds, k, ph);
      st := Settle(pushed.pose, s1.hit || pushed.hit);
      RobotAlone(k);
    }

    /**
     * The inner loop of phase E for robot k (arena.cc:186-198): robot k is pushed
     * off each other robot in turn, where the robots stand as ds says; only robot k
     * moves. The ghost result says where it ends and whether it was pushed.
     */
    method PushOffRobots(k: nat, ghost ds: seq<Disc>, ph: Physics) returns (ghost st: Settle)
      requires k < |robots| && |ds| == |robots|
      requires forall l :: 0 <= l < |robots| && l != k ==>
        robots[l] != robots[k] && ds[l] == Disc(robots[l].pose, robots[l].radius)
      modifies robots[k]
      ensures st == PushAll(Settle(old(robots[k].pose), false), robots[k].radius, ds, k, ph)
      ensures robots[k].State() == RobotMoved(old(robots[k].State()), st.pose, st.hit)
    {
      ghost var r0 := robots[k].State();
      st := Settle(robots[k].pose, false);
      var j := 0;
      while j < |robots|
        invariant 0 <= j <= |robots|
        invariant st == PushAll(Settle(r0.pose, false), r0.radius, ds[..j], k, ph)
        invariant robots[k].State() == RobotMoved(r0, st.pose, st.hit)
      {
        assert ds[..j + 1][..j] == ds[..j];
        if j != k {
          ghost var t := PushRobot(k, j, ph);
          PushStepKeepsHit(st, r0.radius, ds[j], ph);
          st := PushStep(st, r0.radius, ds[j], ph);
        }
        j := j + 1;
      }
      assert ds[..j] == ds;
    }

    /** The wall check and snap of robot k (arena.cc:174-181). */
    method WallRobot(k: nat) returns (w: Wall)
      requires k < |robots|
      modifies robots[k]
      ensures w == CollisionWall(old(robots[k].pose), robots[k].radius, xDim, yDim)
      ensures robots[k].State() ==
        RobotMoved(old(robots[k].State()), AdjustWall(old(robots[k].pose), robots[k].radius, w, xDim, yDim), w != NoWall)
    {
      var me := robots[k];
      w := CollisionWall(me.pose, me.radius, xDim, yDim);
      if w != NoWall {
        var q := AdjustWall(me.pose, me.radius, w, xDim, yDim);
        me.SetPosition(q.x, q.y);
        me.HandleCollision();
      }
    }

    /** One push of robot k off another robot j, when they collide (arena.cc:187-198). */
    method PushRobot(k: nat, j: nat, ph: Physics) returns (ghost t: Settle)
      requires k < |robots| && j < |robots| && robots[j] != robots[k]
      modifies robots[k]
      ensures t == PushStep(Settle(old(robots[k].pose), false), robots[k].radius, Disc(robots[j].pose, robots[j].radius), ph)
      ensures robots[k].State() == RobotMoved(old(robots[k].State()), t.pose, t.hit)
    {
      var me := robots[k];
      t := Settle(me.pose, false);
      if Colliding(me.pose, me.radius, robots[j].pose, robots[j].radius) {
        var q := ph.pushOut(me.pose, me.radius, robots[j].pose, robots[j].radius);
        me.SetPosition(q.x, q.y);
        me.HandleCollision();
        t := Settle(me.pose, true);
      }
    }
  }
}
