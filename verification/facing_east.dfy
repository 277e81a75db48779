/** `navigator/navigatorFacingEast.ts`: the navigator facing East.
    Moves change the latitude only, wrapping around the grid edge.
    An obstacle in the way turns it into the collided navigator, which
    keeps the cell it was on and East. */
module FacingEast {
  import opened Coords
  import opened Planets
  import opened NavigatorStates

  /** The cell a forward step enters: one step up the latitude, from the
      boundary latitude back to 0. */
  function ForwardCoordinates(c: Coordinates, p: Planet): (next: Coordinates)
    ensures next.y == c.y
    ensures c.x == BoundaryLatitude(p) ==> next.x == 0
    ensures c.x != BoundaryLatitude(p) ==> next.x == c.x + 1
    ensures OnGrid(p, c) ==> next.x == (c.x + 1) % (BoundaryLatitude(p) + 1)
  {
    var stepSizeForInitialLatitude := -BoundaryLatitude(p);
    if IsBoundaryLatitude(p, c) then IncreaseLatitude(c, stepSizeForInitialLatitude) else IncreaseLatitude(c, 1)
  }

  /** `moveForward()`: an obstacle on the target cell ends in
      the collided navigator at the pre-move cell, facing East. */
  function MoveForward(c: Coordinates, p: Planet): (r: Navigator)
    ensures r.Facing? || r == CollidingObstacle(East, c, p)
    ensures r.planet == p && r.cardinalPoint == East
    ensures HasObstacleAt(p, ForwardCoordinates(c, p)) ==> r == CollidingObstacle(East, c, p)
    ensures !HasObstacleAt(p, ForwardCoordinates(c, p)) ==> r == Facing(East, ForwardCoordinates(c, p), p)
    ensures r.coordinates.y == c.y
    ensures OnGrid(p, c) ==> OnGrid(p, r.coordinates)
  {
    var coordinates := ForwardCoordinates(c, p);
    if HasObstacleAt(p, coordinates) then CollidingObstacle(East, c, p) else Facing(East, coordinates, p)
  }

  /** The cell a backward step enters: one step down the latitude, from 0 to
      the boundary latitude. */
  function BackwardCoordinates(c: Coordinates, p: Planet): (next: Coordinates)
    ensures next.y == c.y
    ensures c.x == 0 ==> next.x == BoundaryLatitude(p)
    ensures c.x != 0 ==> next.x == c.x - 1
    ensures OnGrid(p, c) ==> next.x == (c.x + BoundaryLatitude(p)) % (BoundaryLatitude(p) + 1)
  {
    if IsInitialLatitude(c) then IncreaseLatitude(c, BoundaryLatitude(p)) else IncreaseLatitude(c, -1)
  }

  /** `moveBackward()`: an obstacle on the target cell ends in
      the collided navigator at the pre-move cell, facing East. */
  function MoveBackward(c: Coordinates, p: Planet): (r: Navigator)
    ensures r.Facing? || r == CollidingObstacle(East, c, p)
    ensures r.planet == p && r.cardinalPoint == East
    ensures HasObstacleAt(p, BackwardCoordinates(c, p)) ==> r == CollidingObstacle(East, c, p)
    ensures !HasObstacleAt(p, BackwardCoordinates(c, p)) ==> r == Facing(East, BackwardCoordinates(c, p), p)
    ensures r.coordinates.y == c.y
    ensures OnGrid(p, c) ==> OnGrid(p, r.coordinates)
  {
    var coordinates := BackwardCoordinates(c, p);
    if HasObstacleAt(p, coordinates) then CollidingObstacle(East, c, p) else Facing(East, coordinates, p)
  }

  /** `rotateRight()`: a quarter turn clockwise, staying on the same cell. */
  function RotateRight(c: Coordinates, p: Planet): (r: Navigator)
    ensures r == Facing(Clockwise(East), c, p)
  {
    Facing(South, c, p)
  }

  /** `rotateLeft()`: a quarter turn counterclockwise, staying on the same cell. */
  function RotateLeft(c: Coordinates, p: Planet): (r: Navigator)
    ensures r == Facing(Counterclockwise(East), c, p)
  {
    Facing(North, c, p)
  }

  /** On the grid, a backward step undoes a forward step and the other way
      round, wrap-around included; when neither cell is an obstacle the
      navigator comes back to where it started. */
  lemma StepsUndoEachOther(c: Coordinates, p: Planet)
    requires OnGrid(p, c)
    ensures BackwardCoordinates(ForwardCoordinates(c, p), p) == c
    ensures ForwardCoordinates(BackwardCoordinates(c, p), p) == c
    ensures !HasObstacleAt(p, c) && !HasObstacleAt(p, ForwardCoordinates(c, p)) ==>
      MoveBackward(MoveForward(c, p).coordinates, p) == Facing(East, c, p)
    ensures !HasObstacleAt(p, c) && !HasObstacleAt(p, BackwardCoordinates(c, p)) ==>
      MoveForward(MoveBackward(c, p).coordinates, p) == Facing(East, c, p)
  {
  }
}
