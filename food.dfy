/** A food item (food.h, food.cc): an immobile entity that can be captured and recoloured. */
module Foods {
  import opened Params
  import opened Geometry

  /** params.h:80-81 */
  const FOOD_INIT_POS: Pose := PoseAt(400.0, 400.0)

  class Food {
    var pose: Pose
    var radius: real
    var color: Color
    var captured: bool

    /** food.cc:21-26: not captured, red, radius 20, at (400, 400). */
    constructor ()
      ensures !captured && color == FOOD_COLOR && radius == FOOD_RADIUS && pose == Pose(400.0, 400.0, 0.0)
    {
      captured := false;
      color := FOOD_COLOR;
      pose := FOOD_INIT_POS;
      radius := FOOD_RADIUS;
    }

    /**
     * food.cc:31-38: a random point of the 50-unit grid, FOOD_COLOR, radius 20 and not
     * captured. The position lies in [30, 930] x [30, 680].
     */
    method Reset(d: Draw)
      modifies this
      ensures pose == PoseAt(GridX(d.gridX), GridY(d.gridY))
      ensures 30.0 <= pose.x <= 930.0 && 30.0 <= pose.y <= 680.0
      ensures color == FOOD_COLOR && radius == FOOD_RADIUS && !captured
    {
      pose := PoseAt(GridX(d.gridX), GridY(d.gridY));
      color := FOOD_COLOR;
      radius := FOOD_RADIUS;
      SetCaptured(false);
    }

    /** food.cc:40-42: only the colour changes. */
    method ColorChange()
      modifies this`color
      ensures color == FOOD_COLOR_CHANGE
    {
      color := FOOD_COLOR_CHANGE;
    }

    /** food.h:69 */
    method IsCaptured() returns (c: bool)
      ensures c == captured
    {
      c := captured;
    }

    /** food.h:75 */
    method SetCaptured(state: bool)
      modifies this`captured
      ensures captured == state
    {
      captured := state;
    }
  }
}
