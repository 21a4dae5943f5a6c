/**
 * Arena::Reset (arena.cc:93-98) on the states of the entities: the game is
 * PLAYING again and every entity, in the order robots, lights, food, is reset
 * with its own random draw.
 */
module Resets {
  import opened Params
  import opened Geometry
  import opened Numerics
  import opened ReverseArcs
  import opened Robots
  import opened Lights
  import opened Walls
  import opened Timesteps

  /** The robots after their resets: robot i uses draw i. */
  function RobotsReset(rs: seq<RobotState>, draw: nat -> Draw): seq<RobotState>
  {
    seq(|rs|, i requires 0 <= i < |rs| => RobotReset(rs[i], draw(i)))
  }

  /** The lights after their resets: light k uses draw offset + k. */
  function LightsReset(ls: seq<LightState>, draw: nat -> Draw, offset: nat): seq<LightState>
  {
    seq(|ls|, k requires 0 <= k < |ls| => LightReset(ls[k], draw(offset + k)))
  }

  /** Where food item k is after its reset with draw offset + k (food.cc:31-38), and its size. */
  function FoodsReset(n: nat, draw: nat -> Draw, offset: nat): seq<Disc>
  {
    seq(n, k requires 0 <= k < n => Disc(PoseAt(GridX(draw(offset + k).gridX), GridY(draw(offset + k).gridY)), FOOD_RADIUS))
  }

  /** The robots, the lights and the status after Arena::Reset. */
  function WorldReset(w: World, draw: nat -> Draw): World
  {
    World(RobotsReset(w.robots, draw), LightsReset(w.lights, draw, |w.robots|), PLAYING)
  }

  /**
   * After a reset every robot is PLAYING, not hungry, idle and on the grid with all
   * readings 0, and keeps its type, handler kind, food flag and sensitivities.
   */
  lemma RobotsResetFresh(rs: seq<RobotState>, draw: nat -> Draw)
    ensures |RobotsReset(rs, draw)| == |rs|
    ensures forall i :: 0 <= i < |rs| ==>
      var t := RobotsReset(rs, draw)[i];
      && t.status == PLAYING && t.hunger == 0 && t.arc == IDLE
      && 30.0 <= t.pose.x <= 930.0 && 30.0 <= t.pose.y <= 680.0
      && t.ltLeft == 0.0 && t.ltRight == 0.0 && t.fdLeft == 0.0 && t.fdRight == 0.0
      && t.robotType == rs[i].robotType && t.kind == rs[i].kind && t.foodExist == rs[i].foodExist
  {
    forall i | 0 <= i < |rs|
      ensures var t := RobotsReset(rs, draw)[i];
        && t.status == PLAYING && t.hunger == 0 && t.arc == IDLE
        && 30.0 <= t.pose.x <= 930.0 && 30.0 <= t.pose.y <= 680.0
        && t.ltLeft == 0.0 && t.ltRight == 0.0 && t.fdLeft == 0.0 && t.fdRight == 0.0
        && t.robotType == rs[i].robotType && t.kind == rs[i].kind && t.foodExist == rs[i].foodExist
    {
      RobotResetIsFresh(rs[i], draw(i));
    }
  }

  /**
   * After a reset every light is on the grid with velocity (LIGHT_SPEED, LIGHT_SPEED)
   * and the reverse arc it had: Light::Reset does not touch the arc.
   */
  lemma LightsResetKeepArcs(ls: seq<LightState>, draw: nat -> Draw, offset: nat)
    ensures |LightsReset(ls, draw, offset)| == |ls|
    ensures forall k :: 0 <= k < |ls| ==>
      var t := LightsReset(ls, draw, offset)[k];
      && t.arc == ls[k].arc && t.velocity == WheelVelocity(4.0, 4.0)
      && 30.0 <= t.pose.x <= 930.0 && 30.0 <= t.pose.y <= 680.0
  {
    forall k | 0 <= k < |ls|
      ensures var t := LightsReset(ls, draw, offset)[k];
        && t.arc == ls[k].arc && t.velocity == WheelVelocity(4.0, 4.0)
        && 30.0 <= t.pose.x <= 930.0 && 30.0 <= t.pose.y <= 680.0
    {
      LightResetKeepsArc(ls[k], draw(offset + k));
    }
  }

  /**
   * A reset brings back a game that was LOST (or never lost): the game is being
   * played and no robot is LOST, so the next timestep runs.
   */
  lemma WorldResetRestarts(w: World, draw: nat -> Draw)
    ensures WorldReset(w, draw).status == PLAYING
    ensures forall i :: 0 <= i < |w.robots| ==> WorldReset(w, draw).robots[i].status == PLAYING
    ensures forall i :: 0 <= i < |w.robots| ==> !StopsAt(WorldReset(w, draw).robots[i])
  {
    RobotsResetFresh(w.robots, draw);
  }

  /**
   * A reset forgets what a timestep did to the robots: resetting after a timestep
   * gives the same robots as resetting before it, because a timestep keeps each
   * robot's type, handler kind, food flag and sensitivities, which are all a reset keeps.
   */
  lemma ResetForgetsTimestep(w: World, foods: seq<Disc>, xDim: real, yDim: real, ph: Physics, draw: nat -> Draw)
    ensures RobotsReset(Timestep(w, foods, xDim, yDim, ph).robots, draw) == RobotsReset(w.robots, draw)
  {
    if w.status == PLAYING {
      var t := Timestep(w, foods, xDim, yDim, ph);
      forall i | 0 <= i < |w.robots|
        ensures RobotReset(t.robots[i], draw(i)) == RobotReset(w.robots[i], draw(i))
      {
        TimestepRobot(w, foods, xDim, yDim, ph, i);
      }
      if |w.robots| > 0 {
        TimestepRobot(w, foods, xDim, yDim, ph, 0);
      }
    }
  }

  /** Every food item is put at a grid point inside [30, 930] x [30, 680] with radius FOOD_RADIUS. */
  lemma FoodsResetOnGrid(n: nat, draw: nat -> Draw, offset: nat)
    ensures |FoodsReset(n, draw, offset)| == n
    ensures forall k :: 0 <= k < n ==>
      var d := FoodsReset(n, draw, offset)[k];
      && d.radius == FOOD_RADIUS && d.pose.theta == 0.0
      && 30.0 <= d.pose.x <= 930.0 && 30.0 <= d.pose.y <= 680.0
  {
    forall k | 0 <= k < n
      ensures var d := FoodsReset(n, draw, offset)[k];
        && d.radius == FOOD_RADIUS && d.pose.theta == 0.0
        && 30.0 <= d.pose.x <= 930.0 && 30.0 <= d.pose.y <= 680.0
    {
      var x := GridX(draw(offset + k).gridX);
      var y := GridY(draw(offset + k).gridY);
      assert FoodsReset(n, draw, offset)[k].pose == PoseAt(x, y);
    }
  }

  /**
   * A reset restores both invariants: every robot is idle and PLAYING in a game
   * being played, and a light keeps its countdown, so valid countdowns stay valid.
   */
  lemma WorldResetKeepsInvariants(w: World, draw: nat -> Draw)
    ensures ConsistentIn(WorldReset(w, draw))
    ensures ArcsValidIn(w) ==> ArcsValidIn(WorldReset(w, draw))
  {
    RobotsResetFresh(w.robots, draw);
    LightsResetKeepArcs(w.lights, draw, |w.robots|);
  }
}
