/**
 * One whole Arena::UpdateEntitiesTimestep (arena.cc:113-201) on the states of
 * the robots and the lights, written as a function of the states before it, and
 * what a timestep promises about them.
 */
module Timesteps {
  import opened Params
  import opened Geometry
  import opened Numerics
  import opened Sensors
  import opened FoodSensors
  import opened ReverseArcs
  import opened Robots
  import opened Lights
  import opened Walls
  import opened ArenaSteps

  /** xs with its first k elements taken from ys: where a loop over the elements is after k of them. */
  function Replaced<T>(xs: seq<T>, ys: seq<T>, k: nat): (zs: seq<T>)
    requires |ys| == |xs|
    ensures |zs| == |xs| && forall j :: k <= j < |xs| ==> zs[j] == xs[j]
    ensures forall j :: 0 <= j < k && j < |xs| ==> zs[j] == ys[j]
  {
    seq(|xs|, j requires 0 <= j < |xs| => if j < k then ys[j] else xs[j])
  }

  /** One more step of the loop replaces element k. */
  lemma ReplacedStep<T>(xs: seq<T>, ys: seq<T>, k: nat)
    requires |ys| == |xs| && k < |xs|
    ensures Replaced(xs, ys, k + 1) == Replaced(xs, ys, k)[k := ys[k]]
  {
  }

  /** Once the loop has run over every element, it has produced ys; before it starts, nothing has changed. */
  lemma ReplacedEnds<T>(xs: seq<T>, ys: seq<T>)
    requires |ys| == |xs|
    ensures Replaced(xs, ys, |xs|) == ys && Replaced(xs, ys, 0) == xs
  {
  }

  /** Where the robots are and how big they are, in order. */
  function RobotDiscs(rs: seq<RobotState>): seq<Disc>
  {
    seq(|rs|, i requires 0 <= i < |rs| => Disc(rs[i].pose, rs[i].radius))
  }

  /** Where the lights are and how big they are, in order. */
  function LightDiscs(ls: seq<LightState>): seq<Disc>
  {
    seq(|ls|, k requires 0 <= k < |ls| => Disc(ls[k].pose, ls[k].radius))
  }

  /** Phase A (arena.cc:121-123): every robot's sensor readings are set to 0. */
  function ClearAll(rs: seq<RobotState>): seq<RobotState>
  {
    seq(|rs|, i requires 0 <= i < |rs| => SensorsCleared(rs[i]))
  }

  /** The lights after each has made its TimestepUpdate(1) in phase B (arena.cc:129). */
  function LightsStepped(ls: seq<LightState>, ph: Physics): seq<LightState>
  {
    seq(|ls|, k requires 0 <= k < |ls| => LightStep(ls[k], 1, ph))
  }

  /** The robots after every light in `ds` has notified each of them (arena.cc:131-137). */
  function LitAll(rs: seq<RobotState>, ds: seq<Disc>, ph: Physics): seq<RobotState>
  {
    seq(|rs|, i requires 0 <= i < |rs| => LitBy(rs[i], ds, ph))
  }

  /** The robots after every food item in `ds` has notified and perhaps fed each of them (arena.cc:140-151). */
  function FedAll(rs: seq<RobotState>, ds: seq<Disc>, ph: Physics): seq<RobotState>
  {
    seq(|rs|, i requires 0 <= i < |rs| => FedBy(rs[i], ds, ph))
  }

  /** Every robot told of one light at p with radius r: one pass of phase B's inner loop (arena.cc:133-135). */
  function NotifiedAll(rs: seq<RobotState>, p: Pose, r: real, ph: Physics): seq<RobotState>
  {
    seq(|rs|, i requires 0 <= i < |rs| => LightNotified(rs[i], p, r, ph))
  }

  /** One more light in phase B is one more pass of its inner loop. */
  lemma LitAllSnoc(rs: seq<RobotState>, ds: seq<Disc>, d: Disc, ph: Physics)
    ensures LitAll(rs, ds + [d], ph) == NotifiedAll(LitAll(rs, ds, ph), d.pose, d.radius, ph)
  {
    forall i | 0 <= i < |rs|
      ensures LitBy(rs[i], ds + [d], ph) == LightNotified(LitBy(rs[i], ds, ph), d.pose, d.radius, ph)
    {
      LitBySnoc(rs[i], ds, d, ph);
    }
  }

  /** Every robot notified, and perhaps fed, by one food item: one pass of phase C's inner loop (arena.cc:141-150). */
  function FedEach(rs: seq<RobotState>, d: Disc, ph: Physics): seq<RobotState>
  {
    seq(|rs|, i requires 0 <= i < |rs| => Fed(rs[i], d, ph))
  }

  /** One more food item in phase C is one more pass of its inner loop. */
  lemma FedAllSnoc(rs: seq<RobotState>, ds: seq<Disc>, d: Disc, ph: Physics)
    ensures FedAll(rs, ds + [d], ph) == FedEach(FedAll(rs, ds, ph), d, ph)
  {
    forall i | 0 <= i < |rs|
      ensures FedBy(rs[i], ds + [d], ph) == Fed(FedBy(rs[i], ds, ph), d, ph)
    {
      FedBySnoc(rs[i], ds, d, ph);
    }
  }

  /** Every robot ticked, whether or not the loop of phase D reaches it. */
  function TickEach(rs: seq<RobotState>, ph: Physics): seq<RobotState>
  {
    seq(|rs|, i requires 0 <= i < |rs| => Tick(rs[i], ph))
  }

  /**
   * Whether the robot loop of phase D stops at this robot: it is dead or already
   * LOST, which is exactly when its tick leaves it LOST (FirstLostIsFirstTickLost).
   */
  predicate StopsAt(s: RobotState)
  {
    Dead(s.hunger, s.foodExist) || s.status == LOST
  }

  /**
   * Where the robot loop of phase D (arena.cc:157-167) stops: the first index from
   * `from` on at which it stops, or |rs| when there is none.
   */
  function FirstLost(rs: seq<RobotState>, from: nat): (n: nat)
    requires from <= |rs|
    ensures from <= n <= |rs|
    decreases |rs| - from
  {
    if from == |rs| then |rs|
    else if StopsAt(rs[from]) then from
    else FirstLost(rs, from + 1)
  }

  /** No robot from `from` up to the stopping index stops the loop, and the robot at that index does. */
  lemma {:induction false} FirstLostIsFirst(rs: seq<RobotState>, from: nat)
    requires from <= |rs|
    ensures forall j :: from <= j < FirstLost(rs, from) ==> !StopsAt(rs[j])
    ensures FirstLost(rs, from) < |rs| ==> StopsAt(rs[FirstLost(rs, from)])
    decreases |rs| - from
  {
    if from < |rs| && !StopsAt(rs[from]) {
      FirstLostIsFirst(rs, from + 1);
    }
  }

  /** The loop stops at n when no robot from `from` to n stops it and robot n does, or n is the end. */
  lemma {:induction false} FirstLostAt(rs: seq<RobotState>, from: nat, n: nat)
    requires from <= n <= |rs|
    requires forall j :: from <= j < n ==> !StopsAt(rs[j])
    requires n == |rs| || StopsAt(rs[n])
    ensures FirstLost(rs, from) == n
    decreases n - from
  {
    if from < n {
      FirstLostAt(rs, from + 1, n);
    }
  }

  /** The robot loop stops at the first robot that its own tick leaves LOST. */
  lemma FirstLostIsFirstTickLost(rs: seq<RobotState>, ph: Physics)
    ensures forall j :: 0 <= j < FirstLost(rs, 0) ==> Tick(rs[j], ph).status != LOST
    ensures FirstLost(rs, 0) < |rs| ==> Tick(rs[FirstLost(rs, 0)], ph).status == LOST
  {
    FirstLostIsFirst(rs, 0);
    forall j | 0 <= j < |rs|
      ensures Tick(rs[j], ph).status == LOST <==> StopsAt(rs[j])
    {
      TickStatus(rs[j], ph);
    }
  }

  /** Phase D: the robots up to and including the first one found LOST are ticked, the rest are not. */
  function TickAll(rs: seq<RobotState>, ph: Physics): seq<RobotState>
  {
    var n := FirstLost(rs, 0);
    seq(|rs|, i requires 0 <= i < |rs| => if i <= n then Tick(rs[i], ph) else rs[i])
  }

  /** Robots ticked up to the stopping index and left alone after it are what TickAll gives. */
  lemma TickAllAt(rs: seq<RobotState>, ts: seq<RobotState>, ph: Physics)
    requires |ts| == |rs|
    requires forall j :: 0 <= j < |rs| ==> ts[j] == if j <= FirstLost(rs, 0) then Tick(rs[j], ph) else rs[j]
    ensures ts == TickAll(rs, ph)
  {
  }

  /**
   * The collision pass over one kind of mobile entity (arena.cc:172-199): the
   * discs from index k on are settled in turn, each against the walls and then
   * against the others of its kind where they stand at that moment, so that the
   * ones before it have already been moved. hits[i] records whether disc i touched
   * anything.
   */
  function SettleFrom(ds: seq<Disc>, hits: seq<bool>, k: nat, xDim: real, yDim: real, ph: Physics)
    : (r: (seq<Disc>, seq<bool>))
    requires |hits| == |ds|
    ensures |r.0| == |ds| && |r.1| == |ds|
    ensures forall i :: 0 <= i < |ds| ==> r.0[i].radius == ds[i].radius && r.0[i].pose.theta == ds[i].pose.theta
    ensures forall i :: 0 <= i < k && i < |ds| ==> r.0[i] == ds[i] && r.1[i] == hits[i]
    decreases |ds| - k
  {
    if k >= |ds| then (ds, hits)
    else
      var st := SettleDisc(ds[k].pose, ds[k].radius, ds, k, xDim, yDim, ph);
      SettleDiscQuiet(ds[k].pose, ds[k].radius, ds, k, xDim, yDim, ph);
      SettleFrom(ds[k := Disc(st.pose, ds[k].radius)], hits[k := st.hit], k + 1, xDim, yDim, ph)
  }

  /** No disc has been hit before the pass starts. */
  function NoHits(n: nat): seq<bool>
  {
    seq(n, i => false)
  }

  /** A robot moved to p that starts a reverse arc if it was hit (HandleCollision, robot.cc:89-91). */
  function RobotMoved(s: RobotState, p: Pose, hit: bool): RobotState
  {
    s.(pose := p, arc := if hit then StartArc(s.arc) else s.arc)
  }

  /** A light moved to p that starts a reverse arc if it was hit (HandleCollision, light.cc:67-69). */
  function LightMoved(s: LightState, p: Pose, hit: bool): LightState
  {
    s.(pose := p, arc := if hit then StartArc(s.arc) else s.arc)
  }

  /** Phase E for the robots, which only collide with the walls and each other. */
  function RobotsSettled(rs: seq<RobotState>, xDim: real, yDim: real, ph: Physics): seq<RobotState>
  {
    var r := SettleFrom(RobotDiscs(rs), NoHits(|rs|), 0, xDim, yDim, ph);
    seq(|rs|, i requires 0 <= i < |rs| => RobotMoved(rs[i], r.0[i].pose, r.1[i]))
  }

  /** Phase E for the lights, which only collide with the walls and each other. */
  function LightsSettled(ls: seq<LightState>, xDim: real, yDim: real, ph: Physics): seq<LightState>
  {
    var r := SettleFrom(LightDiscs(ls), NoHits(|ls|), 0, xDim, yDim, ph);
    seq(|ls|, k requires 0 <= k < |ls| => LightMoved(ls[k], r.0[k].pose, r.1[k]))
  }

  /** The robots with the first k of them moved to where ds says and marked as hits says. */
  function MovedUpTo(rs: seq<RobotState>, ds: seq<Disc>, hits: seq<bool>, k: nat): (ms: seq<RobotState>)
    requires |ds| == |rs| && |hits| == |rs|
    ensures |ms| == |rs| && forall j :: k <= j < |rs| ==> ms[j] == rs[j]
  {
    seq(|rs|, j requires 0 <= j < |rs| => if j < k then RobotMoved(rs[j], ds[j].pose, hits[j]) else rs[j])
  }

  /** Settling robot k extends the moved prefix by one. */
  lemma MovedUpToStep(rs: seq<RobotState>, ds: seq<Disc>, hits: seq<bool>, k: nat, p: Pose, h: bool)
    requires |ds| == |rs| && |hits| == |rs| && k < |rs|
    ensures MovedUpTo(rs, ds[k := Disc(p, ds[k].radius)], hits[k := h], k + 1)
         == MovedUpTo(rs, ds, hits, k)[k := RobotMoved(rs[k], p, h)]
  {
  }

  /** Once every robot has been settled, the moved robots are those of the collision pass. */
  lemma MovedUpToSettled(rs: seq<RobotState>, ds: seq<Disc>, hits: seq<bool>, xDim: real, yDim: real, ph: Physics)
    requires |ds| == |rs| && |hits| == |rs|
    requires SettleFrom(ds, hits, |rs|, xDim, yDim, ph) == SettleFrom(RobotDiscs(rs), NoHits(|rs|), 0, xDim, yDim, ph)
    ensures MovedUpTo(rs, ds, hits, |rs|) == RobotsSettled(rs, xDim, yDim, ph)
  {
    SettleFromDone(ds, hits, xDim, yDim, ph);
    RobotsSettledAre(rs, ds, hits, xDim, yDim, ph);
  }

  /** The robots the collision pass leaves, given the discs and hits it ends with. */
  lemma RobotsSettledAre(rs: seq<RobotState>, ds: seq<Disc>, hits: seq<bool>, xDim: real, yDim: real, ph: Physics)
    requires |ds| == |rs| && |hits| == |rs|
    requires SettleFrom(RobotDiscs(rs), NoHits(|rs|), 0, xDim, yDim, ph) == (ds, hits)
    ensures MovedUpTo(rs, ds, hits, |rs|) == RobotsSettled(rs, xDim, yDim, ph)
  {
    var ms := MovedUpTo(rs, ds, hits, |rs|);
    var ss := RobotsSettled(rs, xDim, yDim, ph);
    assert |ss| == |rs|;
    forall i | 0 <= i < |rs|
      ensures ms[i] == ss[i]
    {
      assert ms[i] == RobotMoved(rs[i], ds[i].pose, hits[i]);
    }
  }

  /** Moving one robot moves its disc and keeps its size. */
  lemma RobotDiscsMoved(ss: seq<RobotState>, k: nat, p: Pose, h: bool)
    requires k < |ss|
    ensures RobotDiscs(ss[k := RobotMoved(ss[k], p, h)]) == RobotDiscs(ss)[k := Disc(p, ss[k].radius)]
  {
  }

  /** The lights with the first k of them moved to where ds says and marked as hits says. */
  function LightsMovedUpTo(ls: seq<LightState>, ds: seq<Disc>, hits: seq<bool>, k: nat): (ms: seq<LightState>)
    requires |ds| == |ls| && |hits| == |ls|
    ensures |ms| == |ls| && forall j :: k <= j < |ls| ==> ms[j] == ls[j]
  {
    seq(|ls|, j requires 0 <= j < |ls| => if j < k then LightMoved(ls[j], ds[j].pose, hits[j]) else ls[j])
  }

  /** Settling light k extends the moved prefix by one. */
  lemma LightsMovedUpToStep(ls: seq<LightState>, ds: seq<Disc>, hits: seq<bool>, k: nat, p: Pose, h: bool)
    requires |ds| == |ls| && |hits| == |ls| && k < |ls|
    ensures LightsMovedUpTo(ls, ds[k := Disc(p, ds[k].radius)], hits[k := h], k + 1)
         == LightsMovedUpTo(ls, ds, hits, k)[k := LightMoved(ls[k], p, h)]
  {
  }

  /** Once every light has been settled, the moved lights are those of the collision pass. */
  lemma LightsMovedUpToSettled(ls: seq<LightState>, ds: seq<Disc>, hits: seq<bool>, xDim: real, yDim: real, ph: Physics)
    requires |ds| == |ls| && |hits| == |ls|
    requires SettleFrom(ds, hits, |ls|, xDim, yDim, ph) == SettleFrom(LightDiscs(ls), NoHits(|ls|), 0, xDim, yDim, ph)
    ensures LightsMovedUpTo(ls, ds, hits, |ls|) == LightsSettled(ls, xDim, yDim, ph)
  {
    SettleFromDone(ds, hits, xDim, yDim, ph);
    LightsSettledAre(ls, ds, hits, xDim, yDim, ph);
  }

  /** A collision pass started past the last disc changes nothing. */
  lemma SettleFromDone(ds: seq<Disc>, hits: seq<bool>, xDim: real, yDim: real, ph: Physics)
    requires |hits| == |ds|
    ensures SettleFrom(ds, hits, |ds|, xDim, yDim, ph) == (ds, hits)
  {
  }

  /** The lights the collision pass leaves, given the discs and hits it ends with. */
  lemma LightsSettledAre(ls: seq<LightState>, ds: seq<Disc>, hits: seq<bool>, xDim: real, yDim: real, ph: Physics)
    requires |ds| == |ls| && |hits| == |ls|
    requires SettleFrom(LightDiscs(ls), NoHits(|ls|), 0, xDim, yDim, ph) == (ds, hits)
    ensures LightsMovedUpTo(ls, ds, hits, |ls|) == LightsSettled(ls, xDim, yDim, ph)
  {
    var ms := LightsMovedUpTo(ls, ds, hits, |ls|);
    var ss := LightsSettled(ls, xDim, yDim, ph);
    assert |ss| == |ls|;
    forall k | 0 <= k < |ls|
      ensures ms[k] == ss[k]
    {
      assert ms[k] == LightMoved(ls[k], ds[k].pose, hits[k]);
    }
  }

  /** Moving one light moves its disc and keeps its size. */
  lemma LightDiscsMoved(ss: seq<LightState>, k: nat, p: Pose, h: bool)
    requires k < |ss|
    ensures LightDiscs(ss[k := LightMoved(ss[k], p, h)]) == LightDiscs(ss)[k := Disc(p, ss[k].radius)]
  {
  }

  /** The part of the arena a timestep changes: the robots, the lights and the game status. */
  datatype World = World(robots: seq<RobotState>, lights: seq<LightState>, status: int)

  /** The robots once phases A to C have run: cleared, lit by the moved lights, and fed. */
  function Sensed(w: World, foods: seq<Disc>, ph: Physics): seq<RobotState>
  {
    FedAll(LitAll(ClearAll(w.robots), LightDiscs(LightsStepped(w.lights, ph)), ph), foods, ph)
  }

  /**
   * Arena::UpdateEntitiesTimestep (arena.cc:113-201) with the food discs in
   * `foods`: nothing happens unless the game is being played; otherwise the five
   * phases run in turn, and the game is LOST when the robot loop found a lost robot.
   */
  function Timestep(w: World, foods: seq<Disc>, xDim: real, yDim: real, ph: Physics): World
  {
    if w.status != PLAYING then w
    else
      var sensed := Sensed(w, foods, ph);
      World(RobotsSettled(TickAll(sensed, ph), xDim, yDim, ph),
            LightsSettled(LightsStepped(w.lights, ph), xDim, yDim, ph),
            if FirstLost(sensed, 0) < |sensed| then LOST else w.status)
  }

  /** A game that is not being played (won or lost) is frozen: a timestep changes nothing. */
  lemma TimestepFrozen(w: World, foods: seq<Disc>, xDim: real, yDim: real, ph: Physics)
    requires w.status != PLAYING
    ensures Timestep(w, foods, xDim, yDim, ph) == w
  {
  }

  /** The sensing phases change only the readings and the hunger counter of each robot. */
  lemma SensedFrame(w: World, foods: seq<Disc>, ph: Physics)
    ensures |Sensed(w, foods, ph)| == |w.robots|
    ensures forall i :: 0 <= i < |w.robots| ==>
      var s := Sensed(w, foods, ph)[i];
      s == w.robots[i].(ltLeft := s.ltLeft, ltRight := s.ltRight, fdLeft := s.fdLeft, fdRight := s.fdRight,
                        hunger := s.hunger)
  {
  }

  /**
   * After the sensing phases each light reading of robot i is the clamped sum
   * min(1000, sum of the contributions of the moved lights), each food reading the
   * clamped sum of the foods' contributions, and all four are in [0, 1000].
   */
  lemma {:induction false} SensedReadings(w: World, foods: seq<Disc>, ph: Physics, i: int)
    requires Sound(ph) && 0 <= i < |w.robots|
    requires 0.0 < w.robots[i].sensLeft && 0.0 < w.robots[i].sensRight
    ensures var s := w.robots[i];
      var t := Sensed(w, foods, ph)[i];
      var at1 := ph.sensorAt(s.pose, s.radius, LEFT_SENSOR);
      var at2 := ph.sensorAt(s.pose, s.radius, RIGHT_SENSOR);
      var lds := LightDiscs(LightsStepped(w.lights, ph));
      && t.ltLeft == Min(MAX_READING, Sum(Terms(ph, s.sensLeft, at1, lds)))
      && t.ltRight == Min(MAX_READING, Sum(Terms(ph, s.sensRight, at2, lds)))
      && t.fdLeft == Min(MAX_READING, Sum(Terms(ph, FOOD_SENSITIVITY, at1, foods)))
      && t.fdRight == Min(MAX_READING, Sum(Terms(ph, FOOD_SENSITIVITY, at2, foods)))
      && MIN_READING <= t.ltLeft <= MAX_READING && MIN_READING <= t.ltRight <= MAX_READING
      && MIN_READING <= t.fdLeft <= MAX_READING && MIN_READING <= t.fdRight <= MAX_READING
  {
    var s := w.robots[i];
    var c := SensorsCleared(s);
    var lds := LightDiscs(LightsStepped(w.lights, ph));
    var lit := LitBy(c, lds, ph);
    assert Sensed(w, foods, ph)[i] == FedBy(lit, foods, ph);
    LitByIsClampedSum(c, lds, ph);
    FedByIsClampedSum(lit, foods, ph);
  }

  /** The robot loop changes a ticked robot's pose, velocity, arc, status and hunger, and leaves the rest alone. */
  lemma TickAllFrame(rs: seq<RobotState>, ph: Physics)
    ensures |TickAll(rs, ph)| == |rs|
    ensures forall i :: 0 <= i < |rs| ==>
      var t := TickAll(rs, ph)[i];
      && t == rs[i].(pose := t.pose, velocity := t.velocity, arc := t.arc, status := t.status, hunger := t.hunger)
      && t.hunger == rs[i].hunger + (if i <= FirstLost(rs, 0) then 1 else 0)
      && (i > FirstLost(rs, 0) ==> t == rs[i])
      && (ArcValid(rs[i].arc) ==> ArcValid(t.arc))
  {
    forall i | 0 <= i < |rs|
      ensures ArcValid(rs[i].arc) ==> ArcValid(Tick(rs[i], ph).arc)
      ensures Tick(rs[i], ph) == rs[i].(pose := Tick(rs[i], ph).pose, velocity := Tick(rs[i], ph).velocity,
                                      arc := Tick(rs[i], ph).arc, status := Tick(rs[i], ph).status,
                                      hunger := rs[i].hunger + 1)
    {
      RobotStepFrame(rs[i], 1, ph);
      if ArcValid(rs[i].arc) {
        RobotStepArcValid(rs[i], 1, ph);
      }
    }
  }

  /** The collision pass changes only where a robot is (not its heading) and whether it is reversing. */
  lemma RobotsSettledFrame(rs: seq<RobotState>, xDim: real, yDim: real, ph: Physics)
    ensures |RobotsSettled(rs, xDim, yDim, ph)| == |rs|
    ensures forall i :: 0 <= i < |rs| ==>
      var t := RobotsSettled(rs, xDim, yDim, ph)[i];
      && t == rs[i].(pose := t.pose, arc := t.arc)
      && t.pose.theta == rs[i].pose.theta && t.arc.angle == rs[i].arc.angle
      && (ArcValid(rs[i].arc) ==> ArcValid(t.arc))
  {
  }

  /** The collision pass changes only where a light is (not its heading) and whether it is reversing. */
  lemma LightsSettledFrame(ls: seq<LightState>, xDim: real, yDim: real, ph: Physics)
    ensures |LightsSettled(ls, xDim, yDim, ph)| == |ls|
    ensures forall k :: 0 <= k < |ls| ==>
      var t := LightsSettled(ls, xDim, yDim, ph)[k];
      && t == ls[k].(pose := t.pose, arc := t.arc)
      && t.pose.theta == ls[k].pose.theta && t.arc.angle == ls[k].arc.angle
      && (ArcValid(ls[k].arc) ==> ArcValid(t.arc))
  {
  }

  /**
   * When no disc from k on touches a wall or another disc, the rest of the
   * collision pass moves nothing and records no hit.
   */
  lemma {:induction false} SettleFromQuiet(ds: seq<Disc>, hits: seq<bool>, k: nat, xDim: real, yDim: real, ph: Physics)
    requires |hits| == |ds|
    requires forall j :: k <= j < |ds| ==> !hits[j] && CollisionWall(ds[j].pose, ds[j].radius, xDim, yDim) == NoWall
    requires forall j, l :: k <= j < |ds| && 0 <= l < |ds| && l != j ==>
      !Colliding(ds[j].pose, ds[j].radius, ds[l].pose, ds[l].radius)
    ensures SettleFrom(ds, hits, k, xDim, yDim, ph) == (ds, hits)
    decreases |ds| - k
  {
    if k < |ds| {
      SettleDiscQuiet(ds[k].pose, ds[k].radius, ds, k, xDim, yDim, ph);
      assert ds[k := Disc(ds[k].pose, ds[k].radius)] == ds;
      assert hits[k := false] == hits;
      SettleFromQuiet(ds, hits, k + 1, xDim, yDim, ph);
    }
  }

  /** Robots strictly inside the arena and apart from each other are left exactly as they are by the collision pass. */
  lemma RobotsSettledQuiet(rs: seq<RobotState>, xDim: real, yDim: real, ph: Physics)
    requires forall j :: 0 <= j < |rs| ==> CollisionWall(rs[j].pose, rs[j].radius, xDim, yDim) == NoWall
    requires forall j, l :: 0 <= j < |rs| && 0 <= l < |rs| && l != j ==>
      !Colliding(rs[j].pose, rs[j].radius, rs[l].pose, rs[l].radius)
    ensures RobotsSettled(rs, xDim, yDim, ph) == rs
  {
    var ds := RobotDiscs(rs);
    SettleFromQuiet(ds, NoHits(|rs|), 0, xDim, yDim, ph);
  }

  /**
   * What a timestep does to robot i while the game is being played: its readings
   * are those the sensing phases gave it, its hunger is reset if it was close enough
   * to food and then goes up by one if the robot loop reached it, its size, type,
   * handler and settings are kept, a robot after the one found LOST keeps its
   * velocity and status, and a valid reverse-arc countdown stays valid.
   */
  lemma TimestepRobot(w: World, foods: seq<Disc>, xDim: real, yDim: real, ph: Physics, i: int)
    requires w.status == PLAYING && 0 <= i < |w.robots|
    ensures |Timestep(w, foods, xDim, yDim, ph).robots| == |w.robots|
    ensures var n := FirstLost(Sensed(w, foods, ph), 0);
      var s := w.robots[i];
      var m := Sensed(w, foods, ph)[i];
      var t := Timestep(w, foods, xDim, yDim, ph).robots[i];
      && t.ltLeft == m.ltLeft && t.ltRight == m.ltRight && t.fdLeft == m.fdLeft && t.fdRight == m.fdRight
      && t.hunger == (if FeedsOn(s.pose, s.radius, foods) then 0 else s.hunger) + (if i <= n then 1 else 0)
      && t.radius == s.radius && t.robotType == s.robotType && t.kind == s.kind && t.foodExist == s.foodExist
      && t.sensLeft == s.sensLeft && t.sensRight == s.sensRight && t.maxSpeed == s.maxSpeed && t.maxAngle == s.maxAngle
      && (i > n ==> t.velocity == s.velocity && t.status == s.status)
      && (ArcValid(s.arc) ==> ArcValid(t.arc))
  {
    var sensed := Sensed(w, foods, ph);
    SensedFrame(w, foods, ph);
    TickAllFrame(sensed, ph);
    RobotsSettledFrame(TickAll(sensed, ph), xDim, yDim, ph);
  }

  /** A timestep keeps the number of lights and their sizes, and a valid reverse-arc countdown stays valid. */
  lemma TimestepLight(w: World, foods: seq<Disc>, xDim: real, yDim: real, ph: Physics, k: int)
    requires w.status == PLAYING && 0 <= k < |w.lights|
    ensures |Timestep(w, foods, xDim, yDim, ph).lights| == |w.lights|
    ensures var t := Timestep(w, foods, xDim, yDim, ph).lights[k];
      && t.radius == w.lights[k].radius
      && (ArcValid(w.lights[k].arc) ==> ArcValid(t.arc))
  {
    LightStepSpeed(w.lights[k], 1, ph);
    LightsSettledFrame(LightsStepped(w.lights, ph), xDim, yDim, ph);
  }

  /**
   * Started with every robot PLAYING, a timestep ends the game exactly when some
   * robot is dead with the hunger counter the sensing phases left it.
   */
  lemma TimestepLost(w: World, foods: seq<Disc>, xDim: real, yDim: real, ph: Physics)
    requires w.status == PLAYING
    requires forall i :: 0 <= i < |w.robots| ==> w.robots[i].status == PLAYING
    ensures Timestep(w, foods, xDim, yDim, ph).status == LOST <==>
      exists i :: 0 <= i < |w.robots| && Dead(Sensed(w, foods, ph)[i].hunger, w.robots[i].foodExist)
  {
    var sensed := Sensed(w, foods, ph);
    SensedFrame(w, foods, ph);
    FirstLostIsFirst(sensed, 0);
    if exists i :: 0 <= i < |w.robots| && Dead(sensed[i].hunger, w.robots[i].foodExist) {
      var i :| 0 <= i < |w.robots| && Dead(sensed[i].hunger, w.robots[i].foodExist);
      assert StopsAt(sensed[i]);
    }
  }

  /** Every robot's and every light's reverse-arc countdown is in one of its valid states. */
  predicate ArcsValidIn(w: World)
  {
    && (forall i :: 0 <= i < |w.robots| ==> ArcValid(w.robots[i].arc))
    && (forall k :: 0 <= k < |w.lights| ==> ArcValid(w.lights[k].arc))
  }

  /** While the game is being played, no robot has been found LOST. */
  predicate ConsistentIn(w: World)
  {
    w.status == PLAYING ==> forall i :: 0 <= i < |w.robots| ==> w.robots[i].status == PLAYING
  }

  /**
   * A timestep keeps both invariants: valid countdowns stay valid, and a game still
   * being played after the step has no LOST robot, because the robot loop ends the
   * game at the first robot its tick leaves LOST.
   */
  lemma TimestepKeepsInvariants(w: World, foods: seq<Disc>, xDim: real, yDim: real, ph: Physics)
    ensures ArcsValidIn(w) ==> ArcsValidIn(Timestep(w, foods, xDim, yDim, ph))
    ensures ConsistentIn(w) ==> ConsistentIn(Timestep(w, foods, xDim, yDim, ph))
  {
    if w.status == PLAYING {
      var t := Timestep(w, foods, xDim, yDim, ph);
      if ArcsValidIn(w) {
        forall i | 0 <= i < |w.robots|
          ensures ArcValid(t.robots[i].arc)
        {
          TimestepRobot(w, foods, xDim, yDim, ph, i);
        }
        forall k | 0 <= k < |w.lights|
          ensures ArcValid(t.lights[k].arc)
        {
          TimestepLight(w, foods, xDim, yDim, ph, k);
        }
      }
      if ConsistentIn(w) && t.status == PLAYING {
        var sensed := Sensed(w, foods, ph);
        SensedFrame(w, foods, ph);
        FirstLostIsFirstTickLost(sensed, ph);
        TickAllFrame(sensed, ph);
        RobotsSettledFrame(TickAll(sensed, ph), xDim, yDim, ph);
        forall i | 0 <= i < |w.robots|
          ensures t.robots[i].status == PLAYING
        {
          RobotStepStatus(sensed[i], 1, ph);
          assert TickAll(sensed, ph)[i] == Tick(sensed[i], ph);
        }
      }
    }
  }
}
