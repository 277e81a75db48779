/** `position.ts`: an older twin of `coordinates.ts` with the same x/y
    operations. It is modelled separately and shown to behave exactly like
    `Coordinates` under the obvious correspondence. */
module Positions {
  import opened Results
  import opened Text
  import Coords

  datatype Position = Position(x: int, y: int)

  /** `Position.createFrom`: refuses negative components. */
  function CreateFrom(x: int, y: int): (r: Result<Position>)
    ensures r.Ok? <==> 0 <= x && 0 <= y
    ensures r.Ok? ==> r.value.x == x && r.value.y == y
    ensures r.Err? ==> r.error == NegativeNumbers
  {
    if x < 0 || y < 0 then Err(NegativeNumbers) else Ok(Position(x, y))
  }

  /** Shifts x by `step`, leaving y alone. */
  function IncreaseX(p: Position, step: int): (r: Position)
    ensures r.y == p.y
    ensures r.x - p.x == step
  {
    Position(p.x + step, p.y)
  }

  /** Shifts y by `step`, leaving x alone. */
  function IncreaseY(p: Position, step: int): (r: Position)
    ensures r.x == p.x
    ensures r.y - p.y == step
  {
    Position(p.x, p.y + step)
  }

  /** A shift by `step` is undone by a shift by `-step`. */
  lemma IncreaseInverse(p: Position, step: int)
    ensures IncreaseX(IncreaseX(p, step), -step) == p
    ensures IncreaseY(IncreaseY(p, step), -step) == p
  {
  }

  /** `toString`: the two components separated by one space. */
  function ToString(p: Position): (s: string)
    ensures Split(s, ' ') == [IntToString(p.x), IntToString(p.y)]
  {
    var s := IntToString(p.x) + " " + IntToString(p.y);
    SplitJoin([IntToString(p.x), IntToString(p.y)], ' ');
    s
  }

  function AsCoordinates(p: Position): Coords.Coordinates {
    Coords.Coordinates(p.x, p.y)
  }

  /** Every operation of `Position` agrees with the same operation of
      `Coordinates`. */
  lemma MirrorsCoordinates(p: Position, step: int, x: int, y: int)
    ensures CreateFrom(x, y).Ok? <==> Coords.CreateFrom(x, y).Ok?
    ensures CreateFrom(x, y).Ok? ==> AsCoordinates(CreateFrom(x, y).value) == Coords.CreateFrom(x, y).value
    ensures CreateFrom(x, y).Err? ==> CreateFrom(x, y).error == Coords.CreateFrom(x, y).error
    ensures AsCoordinates(IncreaseX(p, step)) == Coords.IncreaseX(AsCoordinates(p), step)
    ensures AsCoordinates(IncreaseY(p, step)) == Coords.IncreaseY(AsCoordinates(p), step)
    ensures ToString(p) == Coords.ToString(AsCoordinates(p))
  {
  }
}
