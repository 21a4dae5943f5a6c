/**
 * Wall and entity contact in the arena (arena.cc:205-270): which wall a disc
 * touches, how it is snapped off that wall, and when two discs collide.
 */
module Walls {
  import opened Geometry
  import opened Numerics

  /** The wall kinds of the entity type enumeration, and kUndefined for none. */
  datatype Wall = RightWall | LeftWall | BottomWall | TopWall | NoWall

  /**
   * GetCollisionWall (arena.cc:207-219): the first wall the disc reaches, checked in
   * the order right, left, bottom, top.
   */
  function CollisionWall(p: Pose, r: real, xDim: real, yDim: real): (w: Wall)
    ensures w != NoWall ==> TouchesWall(p, r, w, xDim, yDim)
    ensures w == NoWall <==> 0.0 < p.x - r && p.x + r < xDim && 0.0 < p.y - r && p.y + r < yDim
    ensures w == RightWall <==> p.x + r >= xDim
    ensures w == LeftWall <==> p.x + r < xDim && p.x - r <= 0.0
    ensures w == BottomWall <==> p.x + r < xDim && p.x - r > 0.0 && p.y + r >= yDim
    ensures w == TopWall <==> p.x + r < xDim && p.x - r > 0.0 && p.y + r < yDim && p.y - r <= 0.0
  {
    if p.x + r >= xDim then RightWall
    else if p.x - r <= 0.0 then LeftWall
    else if p.y + r >= yDim then BottomWall
    else if p.y - r <= 0.0 then TopWall
    else NoWall
  }

  /** Whether the disc (p, r) reaches wall w, by the test GetCollisionWall makes for that wall. */
  predicate TouchesWall(p: Pose, r: real, w: Wall, xDim: real, yDim: real)
  {
    match w
    case RightWall => p.x + r >= xDim
    case LeftWall => p.x - r <= 0.0
    case BottomWall => p.y + r >= yDim
    case TopWall => p.y - r <= 0.0
    case NoWall => false
  }

  /**
   * AdjustWallOverlap (arena.cc:223-242): the offending coordinate is set 5 units
   * clear of the wall; the other coordinate and the heading are kept. So the disc
   * no longer reaches the wall it was snapped off, a disc that reached it is moved
   * away from it, and only the coordinate across that wall changes.
   */
  function AdjustWall(p: Pose, r: real, w: Wall, xDim: real, yDim: real): (q: Pose)
    ensures !TouchesWall(q, r, w, xDim, yDim)
    ensures TouchesWall(p, r, w, xDim, yDim) ==>
      && (w == RightWall ==> q.x < p.x) && (w == LeftWall ==> q.x > p.x)
      && (w == BottomWall ==> q.y < p.y) && (w == TopWall ==> q.y > p.y)
    ensures q.theta == p.theta
    ensures (w == RightWall || w == LeftWall ==> q.y == p.y) && (w == TopWall || w == BottomWall ==> q.x == p.x)
    ensures w == NoWall ==> q == p
  {
    match w
    case RightWall => p.(x := xDim - (r + 5.0))
    case LeftWall => p.(x := r + 5.0)
    case TopWall => p.(y := r + 5.0)
    case BottomWall => p.(y := yDim - (r + 5.0))
    case NoWall => p
  }

  /** The wall step of the collision pass: find the wall, then snap off it. */
  function WallStep(p: Pose, r: real, xDim: real, yDim: real): Pose
  {
    AdjustWall(p, r, CollisionWall(p, r, xDim, yDim), xDim, yDim)
  }

  /** A snap clears the horizontal walls, 5 units from the wall it came off, when the arena is wider than 2r + 5. */
  lemma SnapClearsXWalls(p: Pose, r: real, w: Wall, xDim: real, yDim: real)
    requires w == RightWall || w == LeftWall
    requires 2.0 * r + 5.0 < xDim
    ensures var q := AdjustWall(p, r, w, xDim, yDim);
      0.0 < q.x - r && q.x + r < xDim && q.y == p.y
  {
  }

  /** A snap clears the vertical walls, 5 units from the wall it came off, when the arena is taller than 2r + 5. */
  lemma SnapClearsYWalls(p: Pose, r: real, w: Wall, xDim: real, yDim: real)
    requires w == TopWall || w == BottomWall
    requires 2.0 * r + 5.0 < yDim
    ensures var q := AdjustWall(p, r, w, xDim, yDim);
      0.0 < q.y - r && q.y + r < yDim && q.x == p.x
  {
  }

  /**
   * In an arena wider and taller than 2r + 5, at most two wall steps (one per axis)
   * bring any disc strictly inside; a disc already inside is left where it is.
   */
  lemma WallStepsSettle(p: Pose, r: real, xDim: real, yDim: real)
    requires 2.0 * r + 5.0 < xDim && 2.0 * r + 5.0 < yDim
    ensures CollisionWall(WallStep(WallStep(p, r, xDim, yDim), r, xDim, yDim), r, xDim, yDim) == NoWall
    ensures CollisionWall(p, r, xDim, yDim) == NoWall ==> WallStep(p, r, xDim, yDim) == p
  {
    var w := CollisionWall(p, r, xDim, yDim);
    var q := WallStep(p, r, xDim, yDim);
    if w == RightWall || w == LeftWall {
      SnapClearsXWalls(p, r, w, xDim, yDim);
      var w2 := CollisionWall(q, r, xDim, yDim);
      if w2 == TopWall || w2 == BottomWall {
        SnapClearsYWalls(q, r, w2, xDim, yDim);
      }
    } else if w == TopWall || w == BottomWall {
      SnapClearsYWalls(p, r, w, xDim, yDim);
    }
  }

  /** IsColliding (arena.cc:245-253): the centres are at most r1 + r2 apart. */
  predicate Colliding(p1: Pose, r1: real, p2: Pose, r2: real)
  {
    WithinDistance(p1, p2, r1 + r2)
  }

  /** Colliding is the source's comparison sqrt(dx*dx + dy*dy) <= r1 + r2, for a sound square root, and it is symmetric. */
  lemma CollidingIsDistanceComparison(p1: Pose, r1: real, p2: Pose, r2: real, ph: Physics)
    requires Sound(ph)
    ensures Colliding(p1, r1, p2, r2) <==> ph.dist(p2, p1) <= r1 + r2
    ensures Colliding(p1, r1, p2, r2) <==> Colliding(p2, r2, p1, r1)
  {
    assert SqDist(p1, p2) == SqDist(p2, p1);
    WithinDistanceIsDistanceComparison(p1, p2, r1 + r2, ph.dist(p2, p1));
  }

  /** A position and a radius: what the collision pass reads of another entity. */
  datatype Disc = Disc(pose: Pose, radius: real)

  /**
   * One inner step of the collision pass (arena.cc:187-198) for a mobile disc
   * against another disc of its own kind: when they collide, the mobile disc is moved
   * to the position AdjustEntityOverlap computes and it starts a reverse arc.
   */
  function PushStep(s: Settle, r: real, other: Disc, ph: Physics): Settle
  {
    if Colliding(s.pose, r, other.pose, other.radius) then
      var q := ph.pushOut(s.pose, r, other.pose, other.radius);
      Settle(s.pose.(x := q.x, y := q.y), true)
    else s
  }

  /** Where the collision pass leaves a mobile disc, and whether it has collided. */
  datatype Settle = Settle(pose: Pose, hit: bool)

  /** A push moves a disc the same way whether or not it has already collided, and a collision is never forgotten. */
  lemma PushStepKeepsHit(s: Settle, r: real, other: Disc, ph: Physics)
    ensures var t := PushStep(Settle(s.pose, false), r, other, ph);
      PushStep(s, r, other, ph) == Settle(t.pose, s.hit || t.hit)
  {
  }

  /**
   * The inner loop over the other entities, left to right, skipping the disc's own
   * index `self` (arena.cc:188).
   */
  function PushAll(s: Settle, r: real, others: seq<Disc>, self: int, ph: Physics): Settle
    decreases |others|
  {
    if others == [] then s
    else
      var t := PushAll(s, r, others[..|others| - 1], self, ph);
      if |others| - 1 == self then t else PushStep(t, r, others[|others| - 1], ph)
  }

  /** A disc touching no wall and colliding with none of the others stays where it is and does not start an arc. */
  lemma {:induction false} PushAllNoContact(s: Settle, r: real, others: seq<Disc>, self: int, ph: Physics)
    requires forall j :: 0 <= j < |others| && j != self ==> !Colliding(s.pose, r, others[j].pose, others[j].radius)
    ensures PushAll(s, r, others, self, ph) == s
    decreases |others|
  {
    if others != [] {
      var n := |others| - 1;
      assert forall j :: 0 <= j < |others[..n]| && j != self ==> others[..n][j] == others[j];
      PushAllNoContact(s, r, others[..n], self, ph);
    }
  }

  /** A run of pushes moves a disc the same way whether or not it has already collided, and a collision is never forgotten. */
  lemma {:induction false} PushAllKeepsHit(s: Settle, r: real, others: seq<Disc>, self: int, ph: Physics)
    ensures var t := PushAll(Settle(s.pose, false), r, others, self, ph);
      PushAll(s, r, others, self, ph) == Settle(t.pose, s.hit || t.hit)
    decreases |others|
  {
    if others != [] {
      var n := |others| - 1;
      PushAllKeepsHit(s, r, others[..n], self, ph);
      var t := PushAll(s, r, others[..n], self, ph);
      PushStepKeepsHit(t, r, others[n], ph);
      PushStepKeepsHit(PushAll(Settle(s.pose, false), r, others[..n], self, ph), r, others[n], ph);
    }
  }

  /** Pushes change only the position: the heading is kept, and a disc that has collided stays marked. */
  lemma {:induction false} PushAllKeepsHeading(s: Settle, r: real, others: seq<Disc>, self: int, ph: Physics)
    ensures PushAll(s, r, others, self, ph).pose.theta == s.pose.theta
    ensures s.hit ==> PushAll(s, r, others, self, ph).hit
    decreases |others|
  {
    if others != [] {
      PushAllKeepsHeading(s, r, others[..|others| - 1], self, ph);
    }
  }

  /** The whole collision step of one mobile disc: the wall check, then the pushes. */
  function SettleDisc(p: Pose, r: real, others: seq<Disc>, self: int, xDim: real, yDim: real, ph: Physics): Settle
  {
    var w := CollisionWall(p, r, xDim, yDim);
    PushAll(Settle(AdjustWall(p, r, w, xDim, yDim), w != NoWall), r, others, self, ph)
  }

  /**
   * A disc strictly inside the arena that collides with no other disc is not moved
   * and does not start an arc; a disc that touches a wall always starts one.
   */
  lemma SettleDiscQuiet(p: Pose, r: real, others: seq<Disc>, self: int, xDim: real, yDim: real, ph: Physics)
    ensures CollisionWall(p, r, xDim, yDim) != NoWall ==> SettleDisc(p, r, others, self, xDim, yDim, ph).hit
    ensures SettleDisc(p, r, others, self, xDim, yDim, ph).pose.theta == p.theta
    ensures CollisionWall(p, r, xDim, yDim) == NoWall &&
            (forall j :: 0 <= j < |others| && j != self ==> !Colliding(p, r, others[j].pose, others[j].radius))
            ==> SettleDisc(p, r, others, self, xDim, yDim, ph) == Settle(p, false)
  {
    var w := CollisionWall(p, r, xDim, yDim);
    var s := Settle(AdjustWall(p, r, w, xDim, yDim), w != NoWall);
    PushAllKeepsHeading(s, r, others, self, ph);
    if w == NoWall && (forall j :: 0 <= j < |others| && j != self ==> !Colliding(p, r, others[j].pose, others[j].radius)) {
      PushAllNoContact(s, r, others, self, ph);
    }
  }
}
