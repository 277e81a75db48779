/** `navigator.ts` (the older generation beside `navigator/`): four navigator
    classes that move one cell per step with no wrap-around and no obstacle
    check, and a factory that reads the numbers with `parseInt`. The planet
    these classes are given is never consulted, so it is not part of this
    state. */
module LegacyNavigators {
  import opened Results
  import opened Text
  import opened Coords
  import opened Planets
  import opened NavigatorStates
  import Navigators

  datatype LegacyNavigator = LegacyNavigator(cardinalPoint: CardinalPoint, coordinates: Coordinates)

  /** The unit step of each heading: North and South move along y, East and
      West along x. */
  function Direction(h: CardinalPoint): (int, int) {
    match h
    case North => (0, 1)
    case East => (1, 0)
    case South => (0, -1)
    case West => (-1, 0)
  }

  /** `NavigatorFactory.create` of the older generation: the same four
      orientation codes; a missing token or any other text is unsupported. */
  function Create(coordinates: Coordinates, orientation: Option<string>): (r: Result<LegacyNavigator>)
    ensures r.Ok? <==> orientation.Some? && FromCode(orientation.value).Some?
    ensures r.Ok? ==> r.value.coordinates == coordinates && [Code(r.value.cardinalPoint)] == orientation.value
    ensures r.Err? ==> r.error == UnsupportedOrientation
  {
    match orientation
    case Some(token) =>
      (match FromCode(token)
       case Some(h) => Ok(LegacyNavigator(h, coordinates))
       case None => Err(UnsupportedOrientation))
    case None => Err(UnsupportedOrientation)
  }

  /** `location[i]`, which is `undefined` past the end of the list. */
  function Token(location: seq<string>, i: nat): Option<string>
  {
    if i < |location| then Some(location[i]) else None
  }

  /** `parseInt(location[i])`; `parseInt(undefined)` is `NaN`. */
  function ReadNumber(token: Option<string>): Option<int>
  {
    match token
    case Some(t) => ParseLeadingInt(t)
    case None => None
  }

  /** `NavigatorFactory.createFrom` of the older generation: the first two
      space-separated tokens are read with `parseInt`, a `NaN` in either
      throws 'Malformed location', a negative number throws 'Negative numbers
      are not allowed', and the third token picks the heading. Tokens past
      the third are ignored. */
  function CreateFrom(rawLocation: string): (r: Result<LegacyNavigator>)
    ensures var t := Split(rawLocation, ' ');
      r == Err(MalformedLocation) <==> ReadNumber(Token(t, 0)).None? || ReadNumber(Token(t, 1)).None?
    ensures var t := Split(rawLocation, ' ');
      var x, y := ReadNumber(Token(t, 0)), ReadNumber(Token(t, 1));
      x.Some? && y.Some? && (x.value < 0 || y.value < 0) ==> r == Err(NegativeNumbers)
    ensures var t := Split(rawLocation, ' ');
      var x, y := ReadNumber(Token(t, 0)), ReadNumber(Token(t, 1));
      (x.Some? && y.Some? && 0 <= x.value && 0 <= y.value
       && (|t| < 3 || FromCode(t[2]).None?)) ==> r == Err(UnsupportedOrientation)
    ensures var t := Split(rawLocation, ' ');
      var x, y := ReadNumber(Token(t, 0)), ReadNumber(Token(t, 1));
      r.Ok? <==> x.Some? && y.Some? && 0 <= x.value && 0 <= y.value && |t| >= 3 && FromCode(t[2]).Some?
    ensures var t := Split(rawLocation, ' ');
      r.Ok? ==> (|t| >= 3 && FromCode(t[2]).Some?
                 && r.value == LegacyNavigator(FromCode(t[2]).value,
                                               Coordinates(ReadNumber(Token(t, 0)).value, ReadNumber(Token(t, 1)).value)))
  {
    var location := Split(rawLocation, ' ');
    var x := ReadNumber(Token(location, 0));
    var y := ReadNumber(Token(location, 1));
    if x.None? || y.None? then Err(MalformedLocation)
    else
      var coordinates :- Coords.CreateFrom(x.value, y.value);
      Create(coordinates, Token(location, 2))
  }

  /** `moveForward()`: one unit step along the heading, unbounded. */
  function MoveForward(n: LegacyNavigator): (r: LegacyNavigator)
    ensures r.cardinalPoint == n.cardinalPoint
    ensures r.coordinates.x == n.coordinates.x + Direction(n.cardinalPoint).0
    ensures r.coordinates.y == n.coordinates.y + Direction(n.cardinalPoint).1
  {
    var c := n.coordinates;
    match n.cardinalPoint
    case North => LegacyNavigator(North, IncreaseY(c, 1))
    case South => LegacyNavigator(South, IncreaseY(c, -1))
    case East => LegacyNavigator(East, IncreaseX(c, 1))
    case West => LegacyNavigator(West, IncreaseX(c, -1))
  }

  /** `moveBackward()`: one unit step against the heading, unbounded. */
  function MoveBackward(n: LegacyNavigator): (r: LegacyNavigator)
    ensures r.cardinalPoint == n.cardinalPoint
    ensures r.coordinates.x == n.coordinates.x - Direction(n.cardinalPoint).0
    ensures r.coordinates.y == n.coordinates.y - Direction(n.cardinalPoint).1
  {
    var c := n.coordinates;
    match n.cardinalPoint
    case North => LegacyNavigator(North, IncreaseY(c, -1))
    case South => LegacyNavigator(South, IncreaseY(c, 1))
    case East => LegacyNavigator(East, IncreaseX(c, -1))
    case West => LegacyNavigator(West, IncreaseX(c, 1))
  }

  /** `rotateRight()`: a quarter turn clockwise in place. */
  function RotateRight(n: LegacyNavigator): (r: LegacyNavigator)
    ensures r == LegacyNavigator(Clockwise(n.cardinalPoint), n.coordinates)
  {
    match n.cardinalPoint
    case North => LegacyNavigator(East, n.coordinates)
    case East => LegacyNavigator(South, n.coordinates)
    case South => LegacyNavigator(West, n.coordinates)
    case West => LegacyNavigator(North, n.coordinates)
  }

  /** `rotateLeft()`: a quarter turn counterclockwise in place. */
  function RotateLeft(n: LegacyNavigator): (r: LegacyNavigator)
    ensures r == LegacyNavigator(Counterclockwise(n.cardinalPoint), n.coordinates)
  {
    match n.cardinalPoint
    case North => LegacyNavigator(West, n.coordinates)
    case West => LegacyNavigator(South, n.coordinates)
    case South => LegacyNavigator(East, n.coordinates)
    case East => LegacyNavigator(North, n.coordinates)
  }

  /** `formattedLocation()`: coordinates and heading code, separated by
      single spaces. */
  function FormattedLocation(n: LegacyNavigator): (s: string)
    ensures Split(s, ' ') == [IntToString(n.coordinates.x), IntToString(n.coordinates.y), [Code(n.cardinalPoint)]]
  {
    var lat, lon, code := IntToString(n.coordinates.x), IntToString(n.coordinates.y), [Code(n.cardinalPoint)];
    SplitThree(lat, lon, code, ' ');
    ToString(n.coordinates) + " " + code
  }

  /** The factory reads back what a navigator on the non-negative quadrant
      prints. */
  lemma CreateFromFormattedLocation(n: LegacyNavigator)
    requires 0 <= n.coordinates.x && 0 <= n.coordinates.y
    ensures CreateFrom(FormattedLocation(n)) == Ok(n)
  {
    ParseLeadingIntOfIntToStringAlone(n.coordinates.x);
    ParseLeadingIntOfIntToStringAlone(n.coordinates.y);
    FromCodeOfCode(n.cardinalPoint);
  }

  /** Moving back undoes moving forward and the other way round, everywhere:
      there is no edge to wrap at. */
  lemma MovesUndoEachOther(n: LegacyNavigator)
    ensures MoveBackward(MoveForward(n)) == n
    ensures MoveForward(MoveBackward(n)) == n
  {
  }

  /** Nothing bounds the moves: facing South at y = 0, a forward step goes to
      y = -1, a cell the factory would have refused. */
  lemma SouthForwardLeavesTheQuadrant(x: int)
    ensures MoveForward(LegacyNavigator(South, Coordinates(x, 0))).coordinates == Coordinates(x, -1)
  {
  }

  /** The leniency of `parseInt`: the numbers the rover prints are read
      back even when text that is neither a digit nor a space follows the
      latitude, and anything after the orientation code and a space is
      ignored. A negative number is read, then refused by the coordinates. */
  lemma ReadsLeniently(x: int, y: int, h: CardinalPoint, afterLatitude: string, tail: string)
    requires ' ' !in afterLatitude
    requires |afterLatitude| > 0 ==> !IsDigit(afterLatitude[0])
    requires x == 0 && |afterLatitude| > 0 ==> afterLatitude[0] != 'x' && afterLatitude[0] != 'X'
    requires tail == "" || tail[0] == ' '
    ensures CreateFrom(IntToString(x) + afterLatitude + " " + IntToString(y) + " " + [Code(h)] + tail)
         == if 0 <= x && 0 <= y then Ok(LegacyNavigator(h, Coordinates(x, y))) else Err(NegativeNumbers)
  {
    var a := IntToString(x) + afterLatitude;
    var b := IntToString(y);
    var c := [Code(h)];
    var location := Split(a + " " + b + " " + c + tail, ' ');
    assert |location| >= 3 && location[0] == a && location[1] == b && location[2] == c by {
      SplitLeadingThree(a, b, c, tail, ' ');
    }
    assert Token(location, 0) == Some(a) && Token(location, 1) == Some(b) && Token(location, 2) == Some(c);
    assert ReadNumber(Token(location, 0)) == Some(x) by {
      ParseLeadingIntOfIntToString(x, afterLatitude);
    }
    assert ReadNumber(Token(location, 1)) == Some(y) by {
      ParseLeadingIntOfIntToStringAlone(y);
    }
    assert Create(Coordinates(x, y), Token(location, 2)) == Ok(LegacyNavigator(h, Coordinates(x, y))) by {
      FromCodeOfCode(h);
    }
    assert Coords.CreateFrom(x, y) == if 0 <= x && 0 <= y then Ok(Coordinates(x, y)) else Err(NegativeNumbers);
  }

  /** A first token that starts with anything but white space, a sign or a
      digit reads as `NaN`, and the location is malformed whatever follows. */
  lemma MalformedWithoutDigit(token: string, rest: string)
    requires ' ' !in token
    requires |token| > 0 && !IsDigit(token[0]) && !IsJsWhiteSpace(token[0]) && token[0] != '-' && token[0] != '+'
    ensures CreateFrom(token + " " + rest) == Err(MalformedLocation)
  {
    SplitCons(token, rest, ' ');
    ParseLeadingIntWithoutDigit(token);
  }

  /** Two printed numbers and a separator-free third token split back into
      exactly those three tokens. */
  lemma PrintedNumbersThenToken(x: nat, y: nat, token: string)
    requires ' ' !in token
    ensures var t := Split(IntToString(x) + " " + IntToString(y) + " " + token, ' ');
      |t| == 3 && t[2] == token && t[0] == IntToString(x) && t[1] == IntToString(y)
  {
    SplitThree(IntToString(x), IntToString(y), token, ' ');
  }

  /** Two readable numbers followed by a token that is not an orientation
      code give an unsupported orientation. */
  lemma UnknownOrientationRejected(x: nat, y: nat, token: string)
    requires ' ' !in token && FromCode(token).None?
    ensures CreateFrom(IntToString(x) + " " + IntToString(y) + " " + token) == Err(UnsupportedOrientation)
  {
    PrintedNumbersThenToken(x, y, token);
    ParseLeadingIntOfIntToStringAlone(x);
    ParseLeadingIntOfIntToStringAlone(y);
  }

  /** Two readable numbers and no third token give an unsupported
      orientation too: `location[2]` is `undefined`. */
  lemma MissingOrientationRejected(x: nat, y: nat)
    ensures CreateFrom(IntToString(x) + " " + IntToString(y)) == Err(UnsupportedOrientation)
  {
    var location := Split(IntToString(x) + " " + IntToString(y), ' ');
    assert location == [IntToString(x), IntToString(y)] by {
      SplitTwo(IntToString(x), IntToString(y), ' ');
    }
    assert ReadNumber(Token(location, 0)) == Some(x as int) by {
      ParseLeadingIntOfIntToStringAlone(x);
    }
    assert ReadNumber(Token(location, 1)) == Some(y as int) by {
      ParseLeadingIntOfIntToStringAlone(y);
    }
    assert |location| < 3;
  }

  /** The bounded navigator of `navigator/` agrees with this one away from
      the grid edges and from obstacles: there a step is the same unit step. */
  lemma AgreesWithBoundedNavigatorInside(h: CardinalPoint, c: Coordinates, p: Planet)
    requires 0 < c.x < BoundaryLatitude(p) && 0 < c.y < BoundaryLongitude(p)
    requires p.obstacles == []
    ensures Navigators.MoveForward(Facing(h, c, p)) == Facing(h, MoveForward(LegacyNavigator(h, c)).coordinates, p)
    ensures Navigators.MoveBackward(Facing(h, c, p)) == Facing(h, MoveBackward(LegacyNavigator(h, c)).coordinates, p)
    ensures Navigators.RotateRight(Facing(h, c, p)) == Facing(RotateRight(LegacyNavigator(h, c)).cardinalPoint, c, p)
    ensures Navigators.RotateLeft(Facing(h, c, p)) == Facing(RotateLeft(LegacyNavigator(h, c)).cardinalPoint, c, p)
  {
  }
}
