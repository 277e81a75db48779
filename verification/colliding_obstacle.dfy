/** `navigator/navigatorCollidingObstacle.ts`: the terminal navigator reached
    by hitting an obstacle. It keeps the cell it was on before the blocked
    move and the heading it had then, and answers every command with a
    navigator identical to itself. */
module CollidingObstacle {
  import opened NavigatorStates

  /** `navigatorColliding()`: a fresh collided navigator with the same fields. */
  function NavigatorColliding(n: Navigator): (r: Navigator)
    requires n.CollidingObstacle?
    ensures r == n
  {
    CollidingObstacle(n.cardinalPoint, n.coordinates, n.planet)
  }

  /** `moveForward()`: no move. */
  function MoveForward(n: Navigator): (r: Navigator)
    requires n.CollidingObstacle?
    ensures r == n
  {
    NavigatorColliding(n)
  }

  /** `moveBackward()`: no move. */
  function MoveBackward(n: Navigator): (r: Navigator)
    requires n.CollidingObstacle?
    ensures r == n
  {
    NavigatorColliding(n)
  }

  /** `rotateLeft()`: no turn either; the collided navigator keeps its heading. */
  function RotateLeft(n: Navigator): (r: Navigator)
    requires n.CollidingObstacle?
    ensures r == n
  {
    NavigatorColliding(n)
  }

  /** `rotateRight()`: no turn either; the collided navigator keeps its heading. */
  function RotateRight(n: Navigator): (r: Navigator)
    requires n.CollidingObstacle?
    ensures r == n
  {
    NavigatorColliding(n)
  }
}
