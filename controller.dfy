/**
 * The controller (controller.h, controller.cc): it throttles the viewer's time
 * steps and translates the viewer's commands for the arena.
 */
module Controllers {
  import opened Params
  import opened Geometry
  import opened Numerics
  import opened Timesteps
  import opened ArenaSteps
  import opened Arenas

  /** controller.cc:37: the time that must build up before the arena is advanced. */
  const THROTTLE: real := 0.05

  /**
   * One call of Controller::AdvanceTime on the accumulated time `last` (controller.cc:36-43):
   * the new accumulated time, and whether the arena is advanced.
   */
  datatype Throttled = Throttled(last: real, fire: bool)

  function ThrottleStep(last: real, dt: real): Throttled
  {
    if last + dt <= THROTTLE then Throttled(last + dt, false) else Throttled(0.0, true)
  }

  /**
   * The arena is advanced exactly when the accumulated time would pass 0.05, and the
   * accumulated time is then 0; otherwise dt is added to it and the arena is left alone.
   */
  lemma ThrottleStepFires(last: real, dt: real)
    ensures ThrottleStep(last, dt).fire <==> last + dt > 0.05
    ensures ThrottleStep(last, dt).fire ==> ThrottleStep(last, dt).last == 0.0
    ensures !ThrottleStep(last, dt).fire ==> ThrottleStep(last, dt).last == last + dt
  {
  }

  /** Non-negative steps keep the accumulated time in [0, 0.05]. */
  lemma ThrottleStepBounded(last: real, dt: real)
    requires 0.0 <= last <= THROTTLE && dt >= 0.0
    ensures 0.0 <= ThrottleStep(last, dt).last <= THROTTLE
    ensures ThrottleStep(last, dt).last >= last || ThrottleStep(last, dt).fire
  {
  }

  /** The accumulated time after a run of calls. */
  function ThrottleRun(last: real, dts: seq<real>): real
    decreases |dts|
  {
    if dts == [] then last else ThrottleRun(ThrottleStep(last, dts[0]).last, dts[1..])
  }

  /** The number of calls in a run that advance the arena. */
  function Fires(last: real, dts: seq<real>): nat
    decreases |dts|
  {
    if dts == [] then 0
    else
      var t := ThrottleStep(last, dts[0]);
      (if t.fire then 1 else 0) + Fires(t.last, dts[1..])
  }

  /**
   * Starting from the constructor's 0 (controller.cc:21), or any value in
   * [0, 0.05], and with non-negative steps, the accumulated time stays in [0, 0.05].
   */
  lemma {:induction false} ThrottleRunBounded(last: real, dts: seq<real>)
    requires 0.0 <= last <= THROTTLE
    requires forall k :: 0 <= k < |dts| ==> dts[k] >= 0.0
    ensures 0.0 <= ThrottleRun(last, dts) <= THROTTLE
    decreases |dts|
  {
    if dts != [] {
      ThrottleStepBounded(last, dts[0]);
      ThrottleRunBounded(ThrottleStep(last, dts[0]).last, dts[1..]);
    }
  }

  /** Steps that are each larger than 0.05 advance the arena on every call. */
  lemma {:induction false} LargeStepsAlwaysFire(last: real, dts: seq<real>)
    requires last >= 0.0
    requires forall k :: 0 <= k < |dts| ==> dts[k] > THROTTLE
    ensures Fires(last, dts) == |dts|
    decreases |dts|
  {
    if dts != [] {
      LargeStepsAlwaysFire(ThrottleStep(last, dts[0]).last, dts[1..]);
    }
  }

  /** Steps of 0 never advance the arena. */
  lemma {:induction false} ZeroStepsNeverFire(last: real, dts: seq<real>)
    requires 0.0 <= last <= THROTTLE
    requires forall k :: 0 <= k < |dts| ==> dts[k] == 0.0
    ensures Fires(last, dts) == 0 && ThrottleRun(last, dts) == last
    decreases |dts|
  {
    if dts != [] {
      ZeroStepsNeverFire(last, dts[1..]);
    }
  }

  /**
   * ConvertComm's table (controller.cc:80-89): Play, Pause, FoodOff and FoodOn are
   * passed on, NewGame falls through to the FoodOff case, and everything else becomes None.
   */
  function Convert(com: Communication): Communication
  {
    match com
    case Play => Play
    case Pause => Pause
    case NewGame => FoodOff
    case FoodOff => FoodOff
    case FoodOn => FoodOn
    case _ => None
  }

  /** The commands the table passes on unchanged: the four it names, and None, which its default yields. */
  lemma ConvertIdentity(com: Communication)
    ensures com in {Play, Pause, FoodOff, FoodOn, None} <==> Convert(com) == com
  {
  }

  /** NewGame yields FoodOff; every command outside the table (Reset, None, the arrow keys) yields None. */
  lemma ConvertOthers(com: Communication)
    ensures com == NewGame ==> Convert(com) == FoodOff
    ensures com !in {Play, Pause, NewGame, FoodOff, FoodOn} <==> Convert(com) == None
  {
  }

  /**
   * The table never yields Reset or NewGame, so the arena's Reset branch cannot be
   * reached through the controller; and it is the identity on what it yields.
   */
  lemma ConvertNeverResets(com: Communication)
    ensures Convert(com) != Reset && Convert(com) != NewGame
    ensures Convert(com) in {Play, Pause, FoodOff, FoodOn, None}
    ensures Convert(Convert(com)) == Convert(com)
  {
  }

  /** The arena settings Controller::Reset builds from the viewer's settings (controller.cc:55-69). */
  function NewGameParams(viewer: ArenaParams): ArenaParams
  {
    viewer.(xDim := ARENA_X_DIM, yDim := ARENA_Y_DIM)
  }

  class Controller {
    var arena: Arena
    var lastDt: real

    /** The arena is valid and does not contain the controller. */
    ghost predicate Valid()
      reads this, arena, arena.Repr
    {
      arena.Valid() && this !in arena.Repr
    }

    /**
     * controller.cc:21: last_dt starts at 0. The arena the constructor builds from
     * default settings is given.
     */
    constructor (a: Arena)
      requires a.Valid()
      ensures Valid() && arena == a && lastDt == 0.0
    {
      arena := a;
      lastDt := 0.0;
    }

    /**
     * controller.cc:36-43: while the accumulated time plus dt stays within 0.05 it
     * only accumulates; otherwise it is set back to 0 and the arena advances by dt.
     */
    method AdvanceTime(dt: real, ph: Physics)
      requires Valid()
      modifies this`lastDt, arena.Repr, arena`gameStatus
      ensures Valid() && arena == old(arena)
      ensures lastDt == ThrottleStep(old(lastDt), dt).last
      ensures arena.WorldOf() == if ThrottleStep(old(lastDt), dt).fire && !arena.paused && dt > 0.0
        then Timestep(old(arena.WorldOf()), old(arena.FoodDiscs()), arena.xDim, arena.yDim, ph)
        else old(arena.WorldOf())
      ensures arena.FoodItems() == old(arena.FoodItems())
      ensures old(arena.ArcsValid()) ==> arena.ArcsValid()
      ensures old(arena.StatusConsistent()) ==> arena.StatusConsistent()
    {
      if lastDt + dt <= THROTTLE {
        SetLastDt(lastDt + dt);
        return;
      }
      Fire(dt, ph);
    }

    /**
     * The branch of AdvanceTime that fires (controller.cc:41-42): the accumulated time goes
     * back to 0 and the arena advances by dt. The arena never reads the controller's
     * accumulated time, so the two writes commute; the arena's is done first here.
     */
    method Fire(dt: real, ph: Physics)
      requires Valid()
      modifies this`lastDt, arena.Repr, arena`gameStatus
      ensures Valid() && arena == old(arena) && lastDt == 0.0
      ensures arena.WorldOf() == if !arena.paused && dt > 0.0
        then Timestep(old(arena.WorldOf()), old(arena.FoodDiscs()), arena.xDim, arena.yDim, ph)
        else old(arena.WorldOf())
      ensures arena.FoodItems() == old(arena.FoodItems())
      ensures old(arena.ArcsValid()) ==> arena.ArcsValid()
      ensures old(arena.StatusConsistent()) ==> arena.StatusConsistent()
    {
      arena.AdvanceTime(dt, ph);
      SetLastDt(0.0);
    }

    /** A new accumulated time; the arena is untouched. */
    method SetLastDt(t: real)
      requires Valid()
      modifies this`lastDt
      ensures Valid() && lastDt == t
      ensures arena.WorldOf() == old(arena.WorldOf()) && arena.FoodItems() == old(arena.FoodItems())
      ensures arena.ArcsValid() == old(arena.ArcsValid()) && arena.StatusConsistent() == old(arena.StatusConsistent())
    {
      lastDt := t;
    }

    /**
     * controller.cc:49-72: the old arena is replaced by a new one built from the
     * viewer's current settings, with the arena's fixed size; `place` stands for the
     * entity factory's placements.
     */
    method Reset(viewer: ArenaParams, place: nat -> Placement)
      requires Buildable(viewer)
      modifies this`arena
      ensures Valid() && fresh(arena) && fresh(arena.Repr) && lastDt == old(lastDt)
      ensures arena.xDim == ARENA_X_DIM && arena.yDim == ARENA_Y_DIM
      ensures arena.gameStatus == PLAYING && !arena.paused && arena.foodOff == !viewer.foodOn
      ensures |arena.robots| == Count(viewer.nRobots) && |arena.lights| == Count(viewer.nLights)
      ensures |arena.foods| == if viewer.foodOn then Count(viewer.nFood) else 0
      ensures arena.ArcsValid() && arena.StatusConsistent()
    {
      arena := new Arena(NewGameParams(viewer), place);
    }

    /** controller.cc:80-89: the translated command, after a Reset when the command is NewGame. */
    method ConvertComm(com: Communication, viewer: ArenaParams, place: nat -> Placement) returns (c: Communication)
      requires Valid() && (com == NewGame ==> Buildable(viewer))
      modifies this`arena
      ensures Valid() && c == Convert(com) && lastDt == old(lastDt)
      ensures com != NewGame ==> arena == old(arena)
      ensures com == NewGame ==> && fresh(arena) && fresh(arena.Repr)
                                 && arena.gameStatus == PLAYING && !arena.paused && arena.foodOff == !viewer.foodOn
                                 && arena.ArcsValid() && arena.StatusConsistent()
                                 && |arena.robots| == Count(viewer.nRobots) && |arena.lights| == Count(viewer.nLights)
    {
      match com {
        case Play => c := Play;
        case Pause => c := Pause;
        case NewGame =>
          Reset(viewer, place);
          c := FoodOff;
        case FoodOff => c := FoodOff;
        case FoodOn => c := FoodOn;
        case _ => c := None;
      }
    }

    /**
     * controller.cc:45-47: the arena receives ConvertComm(com). The receiver `arena_`
     * is read before the argument is evaluated (the C++17 order of a call), so on a
     * NewGame the FoodOff goes to the arena that ConvertComm has just replaced, and
     * the new, running arena keeps the viewer's food setting. Any other command keeps
     * the arena, never resets its entities, and only sets its paused or food-off flag.
     */
    method AcceptCommunication(com: Communication, viewer: ArenaParams, place: nat -> Placement, draw: nat -> Draw)
      requires Valid() && (com == NewGame ==> Buildable(viewer))
      modifies this`arena, arena, arena.Repr
      ensures Valid() && lastDt == old(lastDt)
      ensures com == NewGame ==> && fresh(arena) && arena.gameStatus == PLAYING && !arena.paused
                                 && arena.foodOff == !viewer.foodOn && old(arena).foodOff
                                 && arena.ArcsValid() && arena.StatusConsistent()
                                 && |arena.robots| == Count(viewer.nRobots) && |arena.lights| == Count(viewer.nLights)
      ensures com != NewGame ==> && arena == old(arena)
                                 && arena.WorldOf() == old(arena.WorldOf()) && arena.FoodItems() == old(arena.FoodItems())
                                 && arena.paused == match Convert(com) { case Play => false case Pause => true case _ => old(arena.paused) }
                                 && arena.foodOff == match Convert(com) { case FoodOn => false case FoodOff => true case _ => old(arena.foodOff) }
                                 && (old(arena.ArcsValid()) ==> arena.ArcsValid())
                                 && (old(arena.StatusConsistent()) ==> arena.StatusConsistent())
    {
      if com == NewGame {
        AcceptNewGame(viewer, place, draw);
      } else {
        AcceptOther(com, viewer, place, draw);
      }
    }

    /** AcceptCommunication for a NewGame: the replaced arena receives the FoodOff. */
    method AcceptNewGame(viewer: ArenaParams, place: nat -> Placement, draw: nat -> Draw)
      requires Valid() && Buildable(viewer)
      modifies this`arena, arena, arena.Repr
      ensures Valid() && lastDt == old(lastDt)
      ensures && fresh(arena) && arena.gameStatus == PLAYING && !arena.paused
              && arena.foodOff == !viewer.foodOn && old(arena).foodOff
              && arena.ArcsValid() && arena.StatusConsistent()
              && |arena.robots| == Count(viewer.nRobots) && |arena.lights| == Count(viewer.nLights)
    {
      var receiver := arena;
      var c := ConvertComm(NewGame, viewer, place);
      receiver.AcceptCommand(c, draw);
    }

    /** AcceptCommunication for any other command: the arena is kept and receives the translation. */
    method AcceptOther(com: Communication, viewer: ArenaParams, place: nat -> Placement, draw: nat -> Draw)
      requires Valid() && com != NewGame
      modifies this`arena, arena, arena.Repr
      ensures Valid() && lastDt == old(lastDt) && arena == old(arena)
      ensures arena.WorldOf() == old(arena.WorldOf()) && arena.FoodItems() == old(arena.FoodItems())
      ensures arena.paused == match Convert(com) { case Play => false case Pause => true case _ => old(arena.paused) }
      ensures arena.foodOff == match Convert(com) { case FoodOn => false case FoodOff => true case _ => old(arena.foodOff) }
      ensures old(arena.ArcsValid()) ==> arena.ArcsValid()
      ensures old(arena.StatusConsistent()) ==> arena.StatusConsistent()
    {
      var receiver := arena;
      var c := ConvertComm(com, viewer, place);
      ConvertNeverResets(com);
      receiver.AcceptCommand(c, draw);
    }
  }
}
