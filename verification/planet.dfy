/** `planet.ts`: the grid boundary (the inclusive maximum latitude and
    longitude) and the obstacle list. A planet is never changed after it is
    built. */
module Planets {
  import opened Coords

  datatype Planet = Planet(boundaryCoordinates: Coordinates, obstacles: seq<Coordinates>)

  /** `new Planet(boundary)`: the obstacle list defaults to empty. */
  function WithoutObstacles(boundary: Coordinates): (r: Planet)
    ensures r.boundaryCoordinates == boundary
    ensures forall c :: !HasObstacleAt(r, c)
  {
    Planet(boundary, [])
  }

  /** The maximum latitude: the one `IsBoundaryLatitude` recognises. */
  function BoundaryLatitude(p: Planet): (r: int)
    ensures forall c :: IsBoundaryLatitude(p, c) <==> c.x == r
  {
    Latitude(p.boundaryCoordinates)
  }

  /** The maximum longitude: the one `IsBoundaryLongitude` recognises. */
  function BoundaryLongitude(p: Planet): (r: int)
    ensures forall c :: IsBoundaryLongitude(p, c) <==> c.y == r
  {
    Longitude(p.boundaryCoordinates)
  }

  /** True exactly when `c` sits on the maximum latitude. */
  predicate IsBoundaryLatitude(p: Planet, c: Coordinates)
    ensures IsBoundaryLatitude(p, c) <==> c.x == p.boundaryCoordinates.x
  {
    IsEqualLatitude(p.boundaryCoordinates, c)
  }

  /** True exactly when `c` sits on the maximum longitude. */
  predicate IsBoundaryLongitude(p: Planet, c: Coordinates)
    ensures IsBoundaryLongitude(p, c) <==> c.y == p.boundaryCoordinates.y
  {
    IsEqualLongitude(p.boundaryCoordinates, c)
  }

  /** `obstacles.filter(o => o.isEqual(c))`: one copy of `c` for every
      occurrence of `c` in the list. */
  function MatchingObstacles(obstacles: seq<Coordinates>, c: Coordinates): (r: seq<Coordinates>)
    ensures |r| == multiset(obstacles)[c]
    ensures forall i | 0 <= i < |r| :: r[i] == c
  {
    if obstacles == [] then []
    else
      assert obstacles == [obstacles[0]] + obstacles[1..];
      (if IsEqual(obstacles[0], c) then [obstacles[0]] else []) + MatchingObstacles(obstacles[1..], c)
  }

  /** True exactly when some obstacle equals `c`. */
  predicate HasObstacleAt(p: Planet, c: Coordinates)
    ensures HasObstacleAt(p, c) <==> c in p.obstacles
  {
    |MatchingObstacles(p.obstacles, c)| > 0
  }

  /** The obstacle query sees only which cells are listed: reordering the
      list or repeating an entry changes nothing. */
  lemma HasObstacleAtIgnoresOrderAndDuplicates(p: Planet, q: Planet, c: Coordinates)
    requires forall o :: o in p.obstacles <==> o in q.obstacles
    ensures HasObstacleAt(p, c) == HasObstacleAt(q, c)
  {
  }

  /** A planet built without an obstacle list blocks no cell. */
  lemma NoObstaclesByDefault(boundary: Coordinates, c: Coordinates)
    ensures !HasObstacleAt(WithoutObstacles(boundary), c)
  {
  }

  /** The cells of the grid: `[0, boundary latitude] x [0, boundary longitude]`. */
  predicate OnGrid(p: Planet, c: Coordinates) {
    && 0 <= c.x <= BoundaryLatitude(p)
    && 0 <= c.y <= BoundaryLongitude(p)
  }
}
