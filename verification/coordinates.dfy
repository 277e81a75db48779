/** The immutable x/y value of `coordinates.ts`, plus the latitude/longitude
    vocabulary the navigators and the planet use on it. The first number, x,
    is the latitude (it changes when facing East or West); the second, y, is
    the longitude (it changes when facing North or South). Numbers are
    mathematical integers. */
module Coords {
  import opened Results
  import opened Text

  datatype Coordinates = Coordinates(x: int, y: int)

  /** `Coordinates.createFrom`: refuses negative components. */
  function CreateFrom(x: int, y: int): (r: Result<Coordinates>)
    ensures r.Ok? <==> 0 <= x && 0 <= y
    ensures r.Ok? ==> r.value.x == x && r.value.y == y
    ensures r.Err? ==> r.error == NegativeNumbers
  {
    if x < 0 || y < 0 then Err(NegativeNumbers) else Ok(Coordinates(x, y))
  }

  /** Shifts x by `step`; nothing is re-validated, so x may become negative. */
  function IncreaseX(c: Coordinates, step: int): (r: Coordinates)
    ensures r.y == c.y
    ensures r.x - c.x == step
  {
    Coordinates(c.x + step, c.y)
  }

  /** Shifts y by `step`; nothing is re-validated, so y may become negative. */
  function IncreaseY(c: Coordinates, step: int): (r: Coordinates)
    ensures r.x == c.x
    ensures r.y - c.y == step
  {
    Coordinates(c.x, c.y + step)
  }

  /** A shift by `step` is undone by a shift by `-step`, on either axis. */
  lemma IncreaseInverse(c: Coordinates, step: int)
    ensures IncreaseX(IncreaseX(c, step), -step) == c
    ensures IncreaseY(IncreaseY(c, step), -step) == c
  {
  }

  /** The shifts do not re-validate: stepping back from the origin leaves the
      non-negative quadrant that `CreateFrom` guards. */
  lemma IncreaseCanLeaveQuadrant(c: Coordinates)
    requires CreateFrom(c.x, c.y) == Ok(c) && c.x == 0
    ensures IncreaseX(c, -1).x < 0
    ensures CreateFrom(IncreaseX(c, -1).x, c.y) == Err(NegativeNumbers)
  {
  }

  /** `toString`: the two components separated by one space. The text splits
      back into exactly the two numbers. */
  function ToString(c: Coordinates): (s: string)
    ensures Split(s, ' ') == [IntToString(c.x), IntToString(c.y)]
  {
    var s := IntToString(c.x) + " " + IntToString(c.y);
    SplitJoin([IntToString(c.x), IntToString(c.y)], ' ');
    s
  }

  // The accessors and predicates the navigators and the planet call.

  function Latitude(c: Coordinates): int {
    c.x
  }

  function Longitude(c: Coordinates): int {
    c.y
  }

  function IncreaseLatitude(c: Coordinates, step: int): Coordinates {
    IncreaseX(c, step)
  }

  function IncreaseLongitude(c: Coordinates, step: int): Coordinates {
    IncreaseY(c, step)
  }

  predicate IsInitialLatitude(c: Coordinates) {
    c.x == 0
  }

  predicate IsInitialLongitude(c: Coordinates) {
    c.y == 0
  }

  /** Component-wise comparison, which is structural equality. */
  predicate IsEqual(a: Coordinates, b: Coordinates)
    ensures IsEqual(a, b) <==> a == b
  {
    a.x == b.x && a.y == b.y
  }

  predicate IsEqualLatitude(a: Coordinates, b: Coordinates) {
    a.x == b.x
  }

  predicate IsEqualLongitude(a: Coordinates, b: Coordinates) {
    a.y == b.y
  }

  /** `Coordinates.createFrom(latitude, longitude)` on the two text tokens of
      a raw location: each must be an integer literal, and then the
      non-negativity check of `CreateFrom` applies. */
  function CreateFromText(latitude: string, longitude: string): (r: Result<Coordinates>)
    ensures r.Ok? ==> 0 <= r.value.x && 0 <= r.value.y
    ensures r.Ok? ==> ParseDecimal(latitude) == Some(r.value.x) && ParseDecimal(longitude) == Some(r.value.y)
    ensures (ParseDecimal(latitude).None? || ParseDecimal(longitude).None?) ==> r == Err(MalformedCoordinates)
    ensures (&& ParseDecimal(latitude).Some? && ParseDecimal(longitude).Some?
             && (ParseDecimal(latitude).value < 0 || ParseDecimal(longitude).value < 0)) ==> r == Err(NegativeNumbers)
    ensures r.Ok? <==> (&& ParseDecimal(latitude).Some? && ParseDecimal(longitude).Some?
                        && 0 <= ParseDecimal(latitude).value && 0 <= ParseDecimal(longitude).value)
  {
    match (ParseDecimal(latitude), ParseDecimal(longitude))
    case (Some(x), Some(y)) => CreateFrom(x, y)
    case _ => Err(MalformedCoordinates)
  }

  /** Printing non-negative coordinates and reading the two numbers back
      reconstructs them. */
  lemma CreateFromTextOfToString(c: Coordinates)
    requires 0 <= c.x && 0 <= c.y
    ensures CreateFromText(IntToString(c.x), IntToString(c.y)) == Ok(c)
  {
    ParseDecimalOfIntToString(c.x);
    ParseDecimalOfIntToString(c.y);
  }
}
