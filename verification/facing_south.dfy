/** `navigator/navigatorFacingSouth.ts`: the navigator facing South.
    Moves change the longitude only, wrapping around the grid edge.
    An obstacle in the way turns it into the collided navigator, which
    keeps the cell it was on and South. */
module FacingSouth {
  import opened Coords
  import opened Planets
  import opened NavigatorStates

  /** The cell a forward step enters: one step down the longitude, from 0
      to the boundary longitude. */
  function ForwardCoordinates(c: Coordinates, p: Planet): (next: Coordinates)
    ensures next.x == c.x
    ensures c.y == 0 ==> next.y == BoundaryLongitude(p)
    ensures c.y != 0 ==> next.y == c.y - 1
    ensures OnGrid(p, c) ==> next.y == (c.y + BoundaryLongitude(p)) % (BoundaryLongitude(p) + 1)
  {
    var stepSizeForInitialLongitude := BoundaryLongitude(p);
    if IsInitialLongitude(c) then IncreaseLongitude(c, stepSizeForInitialLongitude) else IncreaseLongitude(c, -1)
  }

  /** `moveForward()`: an obstacle on the target cell ends in
      the collided navigator at the pre-move cell, facing South. */
  function MoveForward(c: Coordinates, p: Planet): (r: Navigator)
    ensures r.Facing? || r == CollidingObstacle(South, c, p)
    ensures r.planet == p && r.cardinalPoint == South
    ensures HasObstacleAt(p, ForwardCoordinates(c, p)) ==> r == CollidingObstacle(South, c, p)
    ensures !HasObstacleAt(p, ForwardCoordinates(c, p)) ==> r == Facing(South, ForwardCoordinates(c, p), p)
    ensures r.coordinates.x == c.x
    ensures OnGrid(p, c) ==> OnGrid(p, r.coordinates)
  {
    var coordinates := ForwardCoordinates(c, p);
    if HasObstacleAt(p, coordinates) then CollidingObstacle(South, c, p) else Facing(South, coordinates, p)
  }

  /** The cell a backward step enters: one step up the longitude, from the
      boundary longitude back to 0. */
  function BackwardCoordinates(c: Coordinates, p: Planet): (next: Coordinates)
    ensures next.x == c.x
    ensures c.y == BoundaryLongitude(p) ==> next.y == 0
    ensures c.y != BoundaryLongitude(p) ==> next.y == c.y + 1
    ensures OnGrid(p, c) ==> next.y == (c.y + 1) % (BoundaryLongitude(p) + 1)
  {
    var stepSizeForBoundaryLongitude := -BoundaryLongitude(p);
    if IsBoundaryLongitude(p, c) then IncreaseLongitude(c, stepSizeForBoundaryLongitude) else IncreaseLongitude(c, 1)
  }

  /** `moveBackward()`: an obstacle on the target cell ends in
      the collided navigator at the pre-move cell, facing South. */
  function MoveBackward(c: Coordinates, p: Planet): (r: Navigator)
    ensures r.Facing? || r == CollidingObstacle(South, c, p)
    ensures r.planet == p && r.cardinalPoint == South
    ensures HasObstacleAt(p, BackwardCoordinates(c, p)) ==> r == CollidingObstacle(South, c, p)
    ensures !HasObstacleAt(p, BackwardCoordinates(c, p)) ==> r == Facing(South, BackwardCoordinates(c, p), p)
    ensures r.coordinates.x == c.x
    ensures OnGrid(p, c) ==> OnGrid(p, r.coordinates)
  {
    var coordinates := BackwardCoordinates(c, p);
    if HasObstacleAt(p, coordinates) then CollidingObstacle(South, c, p) else Facing(South, coordinates, p)
  }

  /** `rotateRight()`: a quarter turn clockwise, staying on the same cell. */
  function RotateRight(c: Coordinates, p: Planet): (r: Navigator)
    ensures r == Facing(Clockwise(South), c, p)
  {
    Facing(West, c, p)
  }

  /** `rotateLeft()`: a quarter turn counterclockwise, staying on the same cell. */
  function RotateLeft(c: Coordinates, p: Planet): (r: Navigator)
    ensures r == Facing(Counterclockwise(South), c, p)
  {
    Facing(East, c, p)
  }

  /** On the grid, a backward step undoes a forward step and the other way
      round, wrap-around included; when neither cell is an obstacle the
      navigator comes back to where it started. */
  lemma StepsUndoEachOther(c: Coordinates, p: Planet)
    requires OnGrid(p, c)
    ensures BackwardCoordinates(ForwardCoordinates(c, p), p) == c
    ensures ForwardCoordinates(BackwardCoordinates(c, p), p) == c
    ensures !HasObstacleAt(p, c) && !HasObstacleAt(p, ForwardCoordinates(c, p)) ==>
      MoveBackward(MoveForward(c, p).coordinates, p) == Facing(South, c, p)
    ensures !HasObstacleAt(p, c) && !HasObstacleAt(p, BackwardCoordinates(c, p)) ==>
      MoveForward(MoveBackward(c, p).coordinates, p) == Facing(South, c, p)
  {
  }
}
