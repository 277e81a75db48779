/** `navigator/navigator.ts`: the factory that builds a navigator from a raw
    location, and the `Navigator` interface, whose calls are dispatched here
    to the class of the current state. */
module Navigators {
  import opened Results
  import opened Text
  import opened Coords
  import opened Planets
  import opened NavigatorStates
  import FacingNorth
  import FacingEast
  import FacingSouth
  import FacingWest
  import CollidingObstacle

  // ---------------------------------------------------------------------------
  // The factory
  // ---------------------------------------------------------------------------

  /** `NavigatorFactory.create`: the navigator facing the heading the
      orientation token names, on the given cell and planet. */
  function Create(coordinates: Coordinates, orientation: string, planet: Planet): (r: Result<Navigator>)
    ensures r.Ok? <==> orientation == "N" || orientation == "E" || orientation == "S" || orientation == "W"
    ensures r.Ok? ==> r.value == Facing(r.value.cardinalPoint, coordinates, planet)
    ensures r.Ok? ==> [Code(r.value.cardinalPoint)] == orientation
    ensures r.Err? ==> r.error == UnsupportedOrientation
  {
    match FromCode(orientation)
    case Some(h) => Ok(Facing(h, coordinates, planet))
    case None => Err(UnsupportedOrientation)
  }

  /** `NavigatorFactory.createFrom`: a raw location must split on single
      spaces into exactly three tokens, latitude, longitude and orientation;
      the coordinates are read before the orientation is looked at. */
  function CreateFrom(rawLocation: string, planet: Planet): (r: Result<Navigator>)
    ensures r == Err(MalformedRawLocation) <==> |Split(rawLocation, ' ')| != 3
    ensures var t := Split(rawLocation, ' ');
      |t| == 3 && (ParseDecimal(t[0]).None? || ParseDecimal(t[1]).None?) ==> r == Err(MalformedCoordinates)
    ensures var t := Split(rawLocation, ' ');
      (|t| == 3 && ParseDecimal(t[0]).Some? && ParseDecimal(t[1]).Some?
       && (ParseDecimal(t[0]).value < 0 || ParseDecimal(t[1]).value < 0)) ==> r == Err(NegativeNumbers)
    ensures var t := Split(rawLocation, ' ');
      (|t| == 3 && ParseDecimal(t[0]).Some? && ParseDecimal(t[1]).Some?
       && 0 <= ParseDecimal(t[0]).value && 0 <= ParseDecimal(t[1]).value
       && FromCode(t[2]).None?) ==> r == Err(UnsupportedOrientation)
    ensures var t := Split(rawLocation, ' ');
      r.Ok? <==> (|t| == 3 && ParseDecimal(t[0]).Some? && ParseDecimal(t[1]).Some?
                  && 0 <= ParseDecimal(t[0]).value && 0 <= ParseDecimal(t[1]).value && FromCode(t[2]).Some?)
    ensures var t := Split(rawLocation, ' ');
      r.Ok? ==> r.value == Facing(FromCode(t[2]).value,
                                  Coordinates(ParseDecimal(t[0]).value, ParseDecimal(t[1]).value), planet)
  {
    var location := Split(rawLocation, ' ');
    if |location| != 3 then Err(MalformedRawLocation)
    else
      var coordinates :- CreateFromText(location[0], location[1]);
      Create(coordinates, location[2], planet)
  }

  /** Building a navigator from the text a fresh navigator prints gives that
      navigator back, and so a freshly built navigator prints the raw location
      it was built from whenever that location is written the way numbers are
      printed. */
  lemma CreateFromFormattedLocation(h: CardinalPoint, c: Coordinates, planet: Planet)
    requires 0 <= c.x && 0 <= c.y
    ensures FormattedLocation(Facing(h, c, planet)) == IntToString(c.x) + " " + IntToString(c.y) + " " + [Code(h)]
    ensures CreateFrom(FormattedLocation(Facing(h, c, planet)), planet) == Ok(Facing(h, c, planet))
  {
    CreateFromTextOfToString(c);
  }

  // ---------------------------------------------------------------------------
  // The Navigator interface
  // ---------------------------------------------------------------------------

  /** `moveForward()` on any navigator. Only East and South can collide; a
      collided navigator stays as it is; and the navigator never ends on an
      obstacle it was not already on. */
  function MoveForward(n: Navigator): (r: Navigator)
    ensures r.planet == n.planet && r.cardinalPoint == n.cardinalPoint
    ensures n.Facing? && !HasObstacleAt(n.planet, ForwardTarget(n)) ==> r == Facing(n.cardinalPoint, ForwardTarget(n), n.planet)
    ensures n.Facing? && HasObstacleAt(n.planet, ForwardTarget(n)) ==>
      r == (if n.cardinalPoint == East || n.cardinalPoint == South
            then CollidingObstacle(n.cardinalPoint, n.coordinates, n.planet) else n)
    ensures n.CollidingObstacle? ==> r == n
    ensures r.CollidingObstacle? ==> r.coordinates == n.coordinates
    ensures r.CollidingObstacle? && n.Facing? ==> n.cardinalPoint == East || n.cardinalPoint == South
    ensures r.coordinates != n.coordinates ==> !HasObstacleAt(n.planet, r.coordinates)
    ensures OnGrid(n.planet, n.coordinates) ==> OnGrid(r.planet, r.coordinates)
  {
    match n
    case Facing(North, c, p) => FacingNorth.MoveForward(c, p)
    case Facing(East, c, p) => FacingEast.MoveForward(c, p)
    case Facing(South, c, p) => FacingSouth.MoveForward(c, p)
    case Facing(West, c, p) => FacingWest.MoveForward(c, p)
    case CollidingObstacle(_, _, _) => CollidingObstacle.MoveForward(n)
  }

  /** `moveBackward()` on any navigator, with the same guarantees. */
  function MoveBackward(n: Navigator): (r: Navigator)
    ensures r.planet == n.planet && r.cardinalPoint == n.cardinalPoint
    ensures n.Facing? && !HasObstacleAt(n.planet, BackwardTarget(n)) ==> r == Facing(n.cardinalPoint, BackwardTarget(n), n.planet)
    ensures n.Facing? && HasObstacleAt(n.planet, BackwardTarget(n)) ==>
      r == (if n.cardinalPoint == East || n.cardinalPoint == South
            then CollidingObstacle(n.cardinalPoint, n.coordinates, n.planet) else n)
    ensures n.CollidingObstacle? ==> r == n
    ensures r.CollidingObstacle? ==> r.coordinates == n.coordinates
    ensures r.CollidingObstacle? && n.Facing? ==> n.cardinalPoint == East || n.cardinalPoint == South
    ensures r.coordinates != n.coordinates ==> !HasObstacleAt(n.planet, r.coordinates)
    ensures OnGrid(n.planet, n.coordinates) ==> OnGrid(r.planet, r.coordinates)
  {
    match n
    case Facing(North, c, p) => FacingNorth.MoveBackward(c, p)
    case Facing(East, c, p) => FacingEast.MoveBackward(c, p)
    case Facing(South, c, p) => FacingSouth.MoveBackward(c, p)
    case Facing(West, c, p) => FacingWest.MoveBackward(c, p)
    case CollidingObstacle(_, _, _) => CollidingObstacle.MoveBackward(n)
  }

  /** `rotateRight()` on any navigator: a quarter turn clockwise on the same
      cell, except that a collided navigator does not turn. */
  function RotateRight(n: Navigator): (r: Navigator)
    ensures n.Facing? ==> r == Facing(Clockwise(n.cardinalPoint), n.coordinates, n.planet)
    ensures n.CollidingObstacle? ==> r == n
  {
    match n
    case Facing(North, c, p) => FacingNorth.RotateRight(c, p)
    case Facing(East, c, p) => FacingEast.RotateRight(c, p)
    case Facing(South, c, p) => FacingSouth.RotateRight(c, p)
    case Facing(West, c, p) => FacingWest.RotateRight(c, p)
    case CollidingObstacle(_, _, _) => CollidingObstacle.RotateRight(n)
  }

  /** `rotateLeft()` on any navigator: a quarter turn counterclockwise on the
      same cell, except that a collided navigator does not turn. */
  function RotateLeft(n: Navigator): (r: Navigator)
    ensures n.Facing? ==> r == Facing(Counterclockwise(n.cardinalPoint), n.coordinates, n.planet)
    ensures n.CollidingObstacle? ==> r == n
  {
    match n
    case Facing(North, c, p) => FacingNorth.RotateLeft(c, p)
    case Facing(East, c, p) => FacingEast.RotateLeft(c, p)
    case Facing(South, c, p) => FacingSouth.RotateLeft(c, p)
    case Facing(West, c, p) => FacingWest.RotateLeft(c, p)
    case CollidingObstacle(_, _, _) => CollidingObstacle.RotateLeft(n)
  }

  /** Right turns go round the compass N, E, S, W and back to N; a left turn
      undoes a right turn and the other way round. */
  lemma RotationCycle(n: Navigator)
    ensures RotateRight(RotateRight(RotateRight(RotateRight(n)))) == n
    ensures RotateLeft(RotateRight(n)) == n
    ensures RotateRight(RotateLeft(n)) == n
    ensures n.Facing? && n.cardinalPoint == North ==> RotateRight(n).cardinalPoint == East
    ensures n.Facing? && n.cardinalPoint == East ==> RotateRight(n).cardinalPoint == South
    ensures n.Facing? && n.cardinalPoint == South ==> RotateRight(n).cardinalPoint == West
    ensures n.Facing? && n.cardinalPoint == West ==> RotateRight(n).cardinalPoint == North
  {
    CompassCycle(n.cardinalPoint);
    if n.Facing? {
      var r1 := RotateRight(n);
      var r2 := RotateRight(r1);
      var r3 := RotateRight(r2);
      assert RotateRight(r3) == n;
    }
  }

  /** What `compass()` reports across the commands: a move never changes
      it, including the move that collides, whose navigator keeps the
      heading it collided with; a turn changes it exactly when the
      navigator has not collided. */
  lemma CompassAfterCommands(n: Navigator)
    ensures Compass(MoveForward(n)) == Compass(n)
    ensures Compass(MoveBackward(n)) == Compass(n)
    ensures Compass(RotateRight(n)) == (if n.Facing? then Clockwise(Compass(n)) else Compass(n))
    ensures Compass(RotateLeft(n)) == (if n.Facing? then Counterclockwise(Compass(n)) else Compass(n))
  {
  }

  /** The cell a forward step of a facing navigator aims at. */
  function ForwardTarget(n: Navigator): Coordinates
    requires n.Facing?
  {
    match n.cardinalPoint
    case North => FacingNorth.ForwardCoordinates(n.coordinates, n.planet)
    case East => FacingEast.ForwardCoordinates(n.coordinates, n.planet)
    case South => FacingSouth.ForwardCoordinates(n.coordinates, n.planet)
    case West => FacingWest.ForwardCoordinates(n.coordinates, n.planet)
  }

  /** The cell a backward step of a facing navigator aims at. */
  function BackwardTarget(n: Navigator): Coordinates
    requires n.Facing?
  {
    match n.cardinalPoint
    case North => FacingNorth.BackwardCoordinates(n.coordinates, n.planet)
    case East => FacingEast.BackwardCoordinates(n.coordinates, n.planet)
    case South => FacingSouth.BackwardCoordinates(n.coordinates, n.planet)
    case West => FacingWest.BackwardCoordinates(n.coordinates, n.planet)
  }

  /** On the grid and away from obstacles, moving back undoes moving forward
      and moving forward undoes moving back, for every heading. */
  lemma MovesUndoEachOther(n: Navigator)
    requires n.Facing? && OnGrid(n.planet, n.coordinates)
    requires !HasObstacleAt(n.planet, n.coordinates)
    ensures !HasObstacleAt(n.planet, ForwardTarget(n)) ==> MoveBackward(MoveForward(n)) == n
    ensures !HasObstacleAt(n.planet, BackwardTarget(n)) ==> MoveForward(MoveBackward(n)) == n
  {
    match n.cardinalPoint
    case North => FacingNorth.StepsUndoEachOther(n.coordinates, n.planet);
    case East => FacingEast.StepsUndoEachOther(n.coordinates, n.planet);
    case South => FacingSouth.StepsUndoEachOther(n.coordinates, n.planet);
    case West => FacingWest.StepsUndoEachOther(n.coordinates, n.planet);
  }
}
