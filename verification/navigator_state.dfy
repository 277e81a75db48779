/** The states of the navigation state machine (`navigator/navigator.ts` and
    the five navigator classes): a navigator facing one of the four cardinal
    points, or the terminal navigator that has collided with an obstacle.
    Each state keeps its coordinates and the planet it moves on. */
module NavigatorStates {
  import opened Results
  import opened Text
  import opened Coords
  import opened Planets

  /** `CardinalPoint`. */
  datatype CardinalPoint = North | South | East | West

  /** The one-letter code a heading is printed and read with. */
  function Code(h: CardinalPoint): char {
    match h
    case North => 'N'
    case South => 'S'
    case East => 'E'
    case West => 'W'
  }

  /** The four codes are distinct. */
  lemma CodesDistinct(a: CardinalPoint, b: CardinalPoint)
    ensures Code(a) == Code(b) ==> a == b
  {
  }

  /** The `switch` over an orientation token: the heading whose code the token
      is, or nothing when the token is not one of the four codes. */
  function FromCode(token: string): (r: Option<CardinalPoint>)
    ensures r.Some? ==> [Code(r.value)] == token
    ensures r.None? ==> forall h: CardinalPoint :: [Code(h)] != token
  {
    if token == "N" then Some(North)
    else if token == "E" then Some(East)
    else if token == "S" then Some(South)
    else if token == "W" then Some(West)
    else None
  }

  /** Reading a heading's code gives the heading back. */
  lemma FromCodeOfCode(h: CardinalPoint)
    ensures FromCode([Code(h)]) == Some(h)
  {
  }

  /** Position of a heading in clockwise compass order, starting at North. */
  function CompassIndex(h: CardinalPoint): nat {
    match h
    case North => 0
    case East => 1
    case South => 2
    case West => 3
  }

  /** The heading a quarter turn to the right. */
  function Clockwise(h: CardinalPoint): CardinalPoint {
    match h
    case North => East
    case East => South
    case South => West
    case West => North
  }

  /** The heading a quarter turn to the left. */
  function Counterclockwise(h: CardinalPoint): CardinalPoint {
    match h
    case North => West
    case West => South
    case South => East
    case East => North
  }

  /** The compass order: a clockwise quarter turn advances the compass index
      by one and a counterclockwise one moves it back by one, modulo four; so
      four clockwise quarter turns make a full turn and a counterclockwise
      quarter turn undoes a clockwise one. */
  lemma CompassCycle(h: CardinalPoint)
    ensures CompassIndex(Clockwise(h)) == (CompassIndex(h) + 1) % 4
    ensures CompassIndex(Counterclockwise(h)) == (CompassIndex(h) + 3) % 4
    ensures Clockwise(Clockwise(Clockwise(Clockwise(h)))) == h
    ensures Counterclockwise(Clockwise(h)) == h && Clockwise(Counterclockwise(h)) == h
  {
    match h
    case North =>
      assert (0 + 1) % 4 == 1 && (0 + 3) % 4 == 3;
    case East =>
      assert (1 + 1) % 4 == 2 && (1 + 3) % 4 == 0;
    case South =>
      assert (2 + 1) % 4 == 3 && (2 + 3) % 4 == 1;
    case West =>
      assert (3 + 1) % 4 == 0 && (3 + 3) % 4 == 2;
  }

  datatype Navigator =
    | Facing(cardinalPoint: CardinalPoint, coordinates: Coordinates, planet: Planet)
    | CollidingObstacle(cardinalPoint: CardinalPoint, coordinates: Coordinates, planet: Planet)

  /** `compass()`: the heading held, for a collided navigator the heading it
      had when it collided. */
  function Compass(n: Navigator): (h: CardinalPoint)
    ensures h == n.cardinalPoint
  {
    n.cardinalPoint
  }

  /** `formattedLocation()`: coordinates and heading code separated by
      spaces, with an `O ` marker in front once the navigator has collided.
      The marker is the only way to tell a collided navigator from the
      text, and the text splits back into its fields. */
  function FormattedLocation(n: Navigator): (s: string)
    ensures |s| >= 1 && (s[0] == 'O' <==> n.CollidingObstacle?)
    ensures s[|s| - 1] == Code(Compass(n))
    ensures Split(s, ' ') ==
      (if n.CollidingObstacle? then ["O"] else [])
      + [IntToString(n.coordinates.x), IntToString(n.coordinates.y), [Code(Compass(n))]]
  {
    var lat := IntToString(n.coordinates.x);
    var lon := IntToString(n.coordinates.y);
    var located := ToString(n.coordinates) + " " + [Code(Compass(n))];
    assert located == lat + " " + lon + " " + [Code(Compass(n))];
    LocatedSplits(lat, lon, Code(Compass(n)));
    match n
    case Facing(_, _, _) => located
    case CollidingObstacle(_, _, _) => "O " + located
  }

  /** The text of a location splits back into its fields, with or without
      the collision marker in front. */
  lemma LocatedSplits(lat: string, lon: string, code: char)
    requires ' ' !in lat && ' ' !in lon && code != ' '
    ensures Split(lat + " " + lon + " " + [code], ' ') == [lat, lon, [code]]
    ensures Split("O " + (lat + " " + lon + " " + [code]), ' ') == ["O", lat, lon, [code]]
  {
    SplitThree(lat, lon, [code], ' ');
    SplitCons("O", lat + " " + lon + " " + [code], ' ');
  }
}
