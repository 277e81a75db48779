# Mars rover navigation core, in Dafny

This project models the navigation core of the TypeScript mars-rover kata.

- **Setup.** A rover sits on a rectangular planet grid with an optional list of obstacle cells. It is built from a raw location such as `"0 0 N"`.
- **Commands.** A rover takes one-character commands: `F` forward, `B` backward, `L` turn left, `R` turn right.
- **Output.** After a run it prints where it is.

Navigation is a small state machine. There is one navigator per heading (`FacingNorth`, `FacingEast`, `FacingSouth`, `FacingWest`), plus a terminal `CollidingObstacle` navigator. Every navigator class becomes a case of one immutable `Navigator` datatype. The per-class methods become pure functions.

- **Navigator states.** Every state keeps its heading, its coordinates and its planet.
- **Running commands.** The rover's mutable `navigator` field is modelled as a returned state. `Run` returns the new rover together with the printed text.
- **Errors.** Every exception the source throws is an `Err` of a `Result`.

Module by module:

- `Coords`, `Positions` and `Planets` model the value types.
- `Commands` and `RoverCommands` model the command parsers.
- `NavigatorStates` holds the navigator datatype and its rendering.
- `FacingNorth`, `FacingEast`, `FacingSouth`, `FacingWest` and `CollidingObstacle` each model one navigator class.
- `Navigators` models the factory and the interface dispatch.
- `Rovers` models the run loop.
- `LegacyNavigators` models the older `src/core/navigator.ts`: unbounded moves and a factory that reads numbers with `parseInt`.
- `Text` models the JavaScript string built-ins this code relies on.
- `RoverScenarios` states whole runs from the rover test suite as lemmas.

Coordinates are an integer pair `(x, y)`:

- x is the latitude. Facing East or West moves along it.
- y is the longitude. Facing North or South moves along it.

The grid is `[0, boundary latitude] x [0, boundary longitude]`. A step off one edge comes back on the opposite edge.

**North and West do not collide.** In `navigator/navigatorFacingNorth.ts:14-35` and `navigator/navigatorFacingWest.ts:14-35`, a blocked step returns the navigator itself. So a rover facing North or West that meets an obstacle stays where it is, keeps its heading, prints no `O` marker, and carries on with the next commands. East and South do collide: they become the terminal collided navigator.

The rover test suite expects a collision for every heading (`src/tests/rover.test.ts:131-189`). This model follows the code, so five of those expectations do not hold of it:

- `src/tests/rover.test.ts:132`: `RoverScenarios.NorthStaysPut` proves that `"0 0 N"` with an obstacle at `(0, 1)` and command `F` prints `0 0 N`. The suite expects `O 0 0 N`.
- `src/tests/rover.test.ts:146`: `RoverScenarios.WestStaysPut` proves that `"2 0 W"` with an obstacle at `(1, 0)` and command `F` prints `2 0 W`. The suite expects `O 2 0 W`.
- `src/tests/rover.test.ts:158`: `"0 2 N"` with an obstacle at `(0, 1)` and command `B` stays at `0 2 N`, by `FacingNorth.MoveBackward`. The suite expects `O 0 2 N`.
- `src/tests/rover.test.ts:172`: `"0 0 W"` with an obstacle at `(1, 0)` and command `B` stays at `0 0 W`, by `FacingWest.MoveBackward`. The suite expects `O 0 0 W`.
- `src/tests/rover.test.ts:183-189`: `RoverScenarios.NorthBlockedRunContinues` proves that `"FFRFFLF"` from `"0 0 N"` with an obstacle at `(0, 2)` prints `2 2 N`. The suite expects `O 0 1 N`.

**The Coordinates API is only partly visible.** The navigators and the planet call a Coordinates API that is not among the modelled files: `latitude`, `increaseLatitude`, `isInitialLatitude`, `isEqual`, `createFrom(string, string)`. It is modelled on the integer pair of `coordinates.ts`, with the obvious meaning of each name:

- Latitude is x and longitude is y.
- `isEqual` is component-wise equality.
- `createFrom(string, string)` reads two integer tokens, refuses text that is not an integer (`Malformed coordinates`), and then refuses negatives (`Negative numbers are not allowed`).

## Model

| member | source | states |
|---|---|---|
| Coords.CreateFrom | src/core/coordinates.ts:4-9 | succeeds exactly when both components are non-negative, keeps them, and otherwise fails with the negative-numbers error |
| Coords.IncreaseX | src/core/coordinates.ts:11-13 | changes only x, by exactly the step |
| Coords.IncreaseY | src/core/coordinates.ts:15-17 | changes only y, by exactly the step |
| Coords.IncreaseInverse | src/core/coordinates.ts:11-17 | a shift by d followed by a shift by -d is the identity on either axis |
| Coords.IncreaseCanLeaveQuadrant | src/core/coordinates.ts:11-13 | the shifts do not re-validate: stepping back from x = 0 gives a value `CreateFrom` would refuse |
| Coords.ToString | src/core/coordinates.ts:19-21 | the text splits on the space back into exactly the two decimal numbers |
| Coords.IsEqual | src/core/planet.ts:22-24 | the equality the obstacle filter uses is structural equality |
| Coords.CreateFromText | src/core/navigator/navigator.ts:35 | succeeds exactly when both tokens are integers and both are non-negative, with the coordinates they denote. A token that is not an integer gives the malformed-coordinates error; two integers with a negative one give the negative-numbers error |
| Coords.CreateFromTextOfToString | src/core/navigator/navigator.ts:35 | reading back the printed numbers of non-negative coordinates gives the same coordinates |
| Positions.CreateFrom | src/core/position.ts:4-9 | succeeds exactly when both components are non-negative, and otherwise fails with the negative-numbers error |
| Positions.IncreaseX | src/core/position.ts:11-13 | changes only x, by exactly the step |
| Positions.IncreaseY | src/core/position.ts:15-17 | changes only y, by exactly the step |
| Positions.IncreaseInverse | src/core/position.ts:11-17 | shifting by d and then by -d is the identity |
| Positions.ToString | src/core/position.ts:19-21 | the text splits back into the two decimal numbers |
| Positions.MirrorsCoordinates | src/core/position.ts:1-22 | every Position operation agrees with the Coordinates one, error cases included |
| Planets.IsBoundaryLatitude | src/core/planet.ts:14-16 | true exactly when the cell's x equals the boundary's x |
| Planets.IsBoundaryLongitude | src/core/planet.ts:18-20 | true exactly when the cell's y equals the boundary's y |
| Planets.MatchingObstacles | src/core/planet.ts:23 | the filter keeps one copy of the cell per occurrence in the obstacle list, and nothing else |
| Planets.HasObstacleAt | src/core/planet.ts:22-24 | true exactly when the cell is in the obstacle list |
| Planets.HasObstacleAtIgnoresOrderAndDuplicates | src/core/planet.ts:22-24 | two obstacle lists with the same members answer every query alike |
| Planets.WithoutObstacles | src/core/planet.ts:4 | a planet built from a boundary alone keeps that boundary and blocks no cell |
| Planets.BoundaryLatitude | src/core/planet.ts:6-8 | the maximum latitude is exactly the one `isBoundaryLatitude` recognises |
| Planets.BoundaryLongitude | src/core/planet.ts:10-12 | the maximum longitude is exactly the one `isBoundaryLongitude` recognises |
| Planets.NoObstaclesByDefault | src/core/planet.ts:4 | a planet built without an obstacle list blocks no cell |
| Commands.Create | src/core/command.ts:11-17 | accepts exactly the four one-character strings F, B, L and R, and otherwise fails with the invalid-command error |
| Commands.Parse | src/core/command.ts:19-21 | succeeds exactly when every character is a command code; the result has one command per character, in order |
| Commands.Codes | src/core/command.ts:19-21 | the characters of a command sequence, one per command, in order |
| Commands.ParseCodes | src/core/command.ts:19-21 | parsing the characters of a command sequence gives it back, and every successful parse is of that form |
| Commands.ParseAppend | src/core/command.ts:19-21 | a concatenation parses exactly when both halves parse, and then to the two results one after the other |
| Commands.ExactlyOneKind | src/core/command.ts:23-37 | every command is of exactly one of the four kinds |
| RoverCommands.Create | src/core/roverCommand.ts:4-10 | accepts exactly F, B, L and R |
| RoverCommands.Translate | src/core/roverCommand.ts:12-14 | succeeds exactly when every character is a code; keeps length and order; the empty string gives no commands |
| RoverCommands.ExactlyOneKind | src/core/roverCommand.ts:16-30 | exactly one kind predicate holds, and each agrees with the `Command` one |
| RoverCommands.TranslateAgreesWithParse | src/core/roverCommand.ts:12-14 | `translate` and `Command.parse` succeed on the same strings and give the same commands |
| NavigatorStates.CodesDistinct | src/core/navigator/navigator.ts:8-13 | the four heading codes are distinct |
| NavigatorStates.FromCode | src/core/navigator/navigator.ts:41-51 | a token gives the heading whose code it is, and nothing when it is none of the four codes |
| NavigatorStates.FromCodeOfCode | src/core/navigator/navigator.ts:8-13 | reading a heading's code gives the heading back |
| Navigators.CompassAfterCommands | src/core/navigator/navigatorCollidingObstacle.ts:12-14 | a move never changes the heading `compass()` reports, so a navigator that collides reports the heading it collided with; a turn changes it to the next heading clockwise or counterclockwise exactly when the navigator has not collided |
| NavigatorStates.CompassCycle | src/core/navigator/navigatorFacingNorth.ts:43-49 | a right turn advances the compass index by one and a left turn moves it back by one, modulo 4; four right turns are the identity; a left turn undoes a right turn |
| NavigatorStates.FormattedLocation | src/core/navigator/navigatorCollidingObstacle.ts:16-18 | starts with `O` exactly for a collided navigator, ends with the heading code, and splits back into the optional marker, the two numbers and the code |
| FacingNorth.ForwardCoordinates | src/core/navigator/navigatorFacingNorth.ts:22-27 | from the boundary longitude to 0, otherwise y + 1; on the grid that is (y + 1) mod (boundary + 1); x unchanged |
| FacingNorth.MoveForward | src/core/navigator/navigatorFacingNorth.ts:14-20 | an obstacle on the target leaves the North navigator on its cell, with no collision; otherwise it moves to the target; it stays on the grid |
| FacingNorth.BackwardCoordinates | src/core/navigator/navigatorFacingNorth.ts:37-41 | from 0 to the boundary longitude, otherwise y - 1 |
| FacingNorth.MoveBackward | src/core/navigator/navigatorFacingNorth.ts:29-35 | an obstacle leaves the navigator unchanged; otherwise it moves to the backward target |
| FacingNorth.RotateRight | src/core/navigator/navigatorFacingNorth.ts:43-45 | a clockwise quarter turn on the same cell |
| FacingNorth.RotateLeft | src/core/navigator/navigatorFacingNorth.ts:47-49 | a counterclockwise quarter turn on the same cell |
| FacingNorth.StepsUndoEachOther | src/core/navigator/navigatorFacingNorth.ts:14-41 | on the grid the backward target of the forward target is the start, and the other way round; away from obstacles the moves undo each other |
| FacingEast.ForwardCoordinates | src/core/navigator/navigatorFacingEast.ts:24-28 | from the boundary latitude to 0, otherwise x + 1; on the grid that is (x + 1) mod (boundary + 1) |
| FacingEast.MoveForward | src/core/navigator/navigatorFacingEast.ts:15-22 | an obstacle on the target gives the collided navigator facing East on the pre-move cell; otherwise it moves to the target |
| FacingEast.BackwardCoordinates | src/core/navigator/navigatorFacingEast.ts:38-42 | from 0 to the boundary latitude, otherwise x - 1 |
| FacingEast.MoveBackward | src/core/navigator/navigatorFacingEast.ts:30-36 | an obstacle gives the collided navigator on the pre-move cell; otherwise it moves to the backward target |
| FacingEast.RotateRight | src/core/navigator/navigatorFacingEast.ts:44-46 | a clockwise quarter turn on the same cell |
| FacingEast.RotateLeft | src/core/navigator/navigatorFacingEast.ts:48-50 | a counterclockwise quarter turn on the same cell |
| FacingEast.StepsUndoEachOther | src/core/navigator/navigatorFacingEast.ts:15-42 | on the grid the two targets are inverse; away from obstacles the moves undo each other |
| FacingSouth.ForwardCoordinates | src/core/navigator/navigatorFacingSouth.ts:23-28 | from 0 to the boundary longitude, otherwise y - 1 |
| FacingSouth.MoveForward | src/core/navigator/navigatorFacingSouth.ts:15-21 | an obstacle on the target gives the collided navigator facing South on the pre-move cell; otherwise it moves to the target |
| FacingSouth.BackwardCoordinates | src/core/navigator/navigatorFacingSouth.ts:39-43 | from the boundary longitude to 0, otherwise y + 1 |
| FacingSouth.MoveBackward | src/core/navigator/navigatorFacingSouth.ts:30-37 | an obstacle gives the collided navigator on the pre-move cell; otherwise it moves to the backward target |
| FacingSouth.RotateRight | src/core/navigator/navigatorFacingSouth.ts:45-47 | a clockwise quarter turn on the same cell |
| FacingSouth.RotateLeft | src/core/navigator/navigatorFacingSouth.ts:49-51 | a counterclockwise quarter turn on the same cell |
| FacingSouth.StepsUndoEachOther | src/core/navigator/navigatorFacingSouth.ts:15-43 | on the grid the two targets are inverse; away from obstacles the moves undo each other |
| FacingWest.ForwardCoordinates | src/core/navigator/navigatorFacingWest.ts:22-27 | from 0 to the boundary latitude, otherwise x - 1 |
| FacingWest.MoveForward | src/core/navigator/navigatorFacingWest.ts:14-20 | an obstacle on the target leaves the West navigator on its cell, with no collision; otherwise it moves to the target |
| FacingWest.BackwardCoordinates | src/core/navigator/navigatorFacingWest.ts:37-42 | from the boundary latitude to 0, otherwise x + 1 |
| FacingWest.MoveBackward | src/core/navigator/navigatorFacingWest.ts:29-35 | an obstacle leaves the navigator unchanged; otherwise it moves to the backward target |
| FacingWest.RotateRight | src/core/navigator/navigatorFacingWest.ts:44-46 | a clockwise quarter turn on the same cell |
| FacingWest.RotateLeft | src/core/navigator/navigatorFacingWest.ts:48-50 | a counterclockwise quarter turn on the same cell |
| FacingWest.StepsUndoEachOther | src/core/navigator/navigatorFacingWest.ts:14-42 | on the grid the two targets are inverse; away from obstacles the moves undo each other |
| CollidingObstacle.NavigatorColliding | src/core/navigator/navigatorCollidingObstacle.ts:36-38 | the new collided navigator equals the old one: same cell, planet and heading |
| CollidingObstacle.MoveForward | src/core/navigator/navigatorCollidingObstacle.ts:24-26 | a collided navigator stays identical: same cell, planet and heading |
| CollidingObstacle.MoveBackward | src/core/navigator/navigatorCollidingObstacle.ts:20-22 | a collided navigator stays identical |
| CollidingObstacle.RotateLeft | src/core/navigator/navigatorCollidingObstacle.ts:28-30 | a collided navigator does not turn |
| CollidingObstacle.RotateRight | src/core/navigator/navigatorCollidingObstacle.ts:32-34 | a collided navigator does not turn |
| Navigators.Create | src/core/navigator/navigator.ts:40-53 | succeeds exactly for N, E, S and W, with the navigator facing that heading on the given cell and planet; any other token gives the unsupported-orientation error |
| Navigators.CreateFrom | src/core/navigator/navigator.ts:30-38 | the malformed-raw-location error comes exactly when the split does not give three tokens. Otherwise: malformed coordinates, then negative numbers, then unsupported orientation, in that order. Success comes exactly when all three tokens are good, and gives the facing navigator they describe |
| Navigators.CreateFromFormattedLocation | src/core/navigator/navigator.ts:30-38 | the factory reads back what a facing navigator on the non-negative quadrant prints |
| Navigators.MoveForward | src/core/navigator/navigator.ts:18 | a free facing navigator moves to its forward target. On an obstacle, East and South become the collided navigator on the same cell, and North and West stay unchanged. A collided navigator stays collided. It keeps planet and heading, never moves onto an obstacle, and stays on the grid |
| Navigators.MoveBackward | src/core/navigator/navigator.ts:20 | the same guarantees for the backward move and its backward target |
| Navigators.RotateRight | src/core/navigator/navigator.ts:24 | a facing navigator turns clockwise on its cell; a collided one is unchanged |
| Navigators.RotateLeft | src/core/navigator/navigator.ts:26 | a facing navigator turns counterclockwise on its cell; a collided one is unchanged |
| Navigators.RotationCycle | src/core/navigator/navigatorFacingNorth.ts:43-49 | four right turns are the identity, left undoes right and right undoes left, and right turns go N, E, S, W |
| Navigators.MovesUndoEachOther | src/core/navigator/navigatorFacingEast.ts:15-42 | for every heading on the grid, away from obstacles, backward undoes forward and forward undoes backward |
| Rovers.ExecuteNavigator | src/core/rover.ts:19-30 | each command kind runs the matching navigator call, and a collided navigator absorbs every command |
| Rovers.ExecuteCommands | src/core/rover.ts:13-17 | the fold keeps the planet and keeps a navigator on the grid; a collided navigator is unchanged |
| Rovers.ExecuteCommandsAppend | src/core/rover.ts:13-17 | running a + b is running a and then b |
| Rovers.CollisionHaltsTheRun | src/core/rover.ts:13-17 | once the navigator has collided, later commands change nothing |
| Rovers.ExecuteCommandsInOrder | src/core/rover.ts:13-17 | the `forEach` loop that overwrites the navigator computes the left-to-right fold |
| Rovers.Run | src/core/rover.ts:7-11 | succeeds exactly when every character is a command code, otherwise gives the invalid-command error. On success the new navigator is the fold of the parsed commands over the old one. The printed text is the new navigator's rendering, and the planet is kept. A collided rover and the empty string change nothing |
| Rovers.RunOneCommand | src/core/rover.ts:7-11 | a one-character run applies exactly the navigator call for that command |
| Rovers.RunInSequence | src/core/rover.ts:5-11 | two runs on the kept navigator equal one run of the concatenated string, and fail when it does |
| Text.Split | src/core/navigator/navigator.ts:31 | the pieces contain no separator, there is at least one, and joining them gives the input back |
| Text.SplitJoin | src/core/navigator/navigator.ts:31 | splitting undoes joining pieces that contain no separator |
| Text.IntToString | src/core/coordinates.ts:20 | the canonical decimal text of a number: a leading `-` exactly for a negative number, then digits with no leading zero unless the digits are exactly `0`; no space and no `O` |
| Text.ParseDecimal | src/core/navigator/navigator.ts:35 | an integer is read exactly from an optional `-` followed by one or more decimal digits, and from nothing else; the sign decides the sign of the value |
| Text.ParseDecimalOfIntToString | src/core/navigator/navigator.ts:35 | strict integer reading inverts the decimal rendering |
| Text.TrimStart | src/core/navigator.ts:23 | removes exactly the leading white space |
| Text.ParseLeadingInt | src/core/navigator.ts:23-24 | after skipping leading white space, `parseInt` gives NaN unless the text starts with a digit or a sign. It always reads a number when the text starts with a digit and no `0x` prefix follows. A negative result needs a leading `-` |
| Text.ParseLeadingIntOfIntToString | src/core/navigator.ts:23-24 | `parseInt` reads back a printed number even with non-digit text after it |
| Text.ParseLeadingIntWithoutDigit | src/core/navigator.ts:23-27 | `parseInt` gives NaN when the text starts with a character that is not white space, a sign or a digit |
| LegacyNavigators.Create | src/core/navigator.ts:33-46 | succeeds exactly for a present N, E, S or W token, with that heading on the given cell |
| LegacyNavigators.CreateFrom | src/core/navigator.ts:20-31 | the malformed-location error comes exactly when either number reads as NaN. Then negative numbers give their error, and a missing or unknown third token gives unsupported orientation. Success comes exactly otherwise, with the heading and the numbers read |
| LegacyNavigators.MoveForward | src/core/navigator.ts:55-141 | one unbounded unit step along the heading, no wrap and no obstacle check |
| LegacyNavigators.MoveBackward | src/core/navigator.ts:60-145 | one unbounded unit step against the heading |
| LegacyNavigators.RotateRight | src/core/navigator.ts:64-149 | a clockwise quarter turn in place |
| LegacyNavigators.RotateLeft | src/core/navigator.ts:68-153 | a counterclockwise quarter turn in place |
| LegacyNavigators.FormattedLocation | src/core/navigator.ts:72-74 | the text splits back into the two numbers and the heading code |
| LegacyNavigators.CreateFromFormattedLocation | src/core/navigator.ts:20-31 | the factory reads back what a navigator on the non-negative quadrant prints |
| LegacyNavigators.MovesUndoEachOther | src/core/navigator.ts:55-62 | backward undoes forward and forward undoes backward everywhere |
| LegacyNavigators.SouthForwardLeavesTheQuadrant | src/core/navigator.ts:84-86 | facing South at y = 0, a step goes to y = -1 |
| LegacyNavigators.ReadsLeniently | src/core/navigator.ts:20-31 | non-digit text after the latitude and anything after the code are ignored; negatives are read and then refused |
| LegacyNavigators.MalformedWithoutDigit | src/core/navigator.ts:23-27 | a first token that does not start with white space, a sign or a digit gives the malformed-location error |
| LegacyNavigators.UnknownOrientationRejected | src/core/navigator.ts:29-45 | two good numbers and a token that is no heading code give unsupported orientation |
| LegacyNavigators.MissingOrientationRejected | src/core/navigator.ts:29-45 | two good numbers and no third token give unsupported orientation |
| LegacyNavigators.AgreesWithBoundedNavigatorInside | src/core/navigator.ts:55-146 | strictly inside the grid and away from obstacles, the legacy and bounded navigators make the same step |
| RoverScenarios.EmptyCommandStays | src/tests/rover.test.ts:7-16 | `"1 1 W"` with no commands prints `1 1 W` |
| RoverScenarios.MovesAndTurns | src/tests/rover.test.ts:90-96 | `"0 0 N"` with `FFRFFFBRRL` prints `2 2 S` |
| RoverScenarios.WrapsAtNorthEdge | src/tests/rover.test.ts:98-107 | `"0 10 N"` with `F` prints `0 0 N` |
| RoverScenarios.WrapsAtWestEdge | src/tests/rover.test.ts:98-107 | `"0 0 W"` with `F` prints `10 0 W` |
| RoverScenarios.EastCollides | src/tests/rover.test.ts:144-155 | `"0 0 E"`, obstacle `(1, 0)`, `F` prints `O 0 0 E` |
| RoverScenarios.SouthCollides | src/tests/rover.test.ts:157-168 | `"0 0 S"`, obstacle `(0, 1)`, `B` prints `O 0 0 S` |
| RoverScenarios.NorthStaysPut | src/core/navigator/navigatorFacingNorth.ts:14-20 | `"0 0 N"`, obstacle `(0, 1)`, `F` prints `0 0 N` (the suite expects `O 0 0 N`) |
| RoverScenarios.WestStaysPut | src/core/navigator/navigatorFacingWest.ts:14-20 | `"2 0 W"`, obstacle `(1, 0)`, `F` prints `2 0 W` (the suite expects `O 2 0 W`) |
| RoverScenarios.NorthBlockedRunContinues | src/core/navigator/navigatorFacingNorth.ts:14-20 | `"0 0 N"`, obstacle `(0, 2)`, `FFRFFLF` prints `2 2 N` (the suite expects `O 0 1 N`) |
| RoverScenarios.CollisionHaltsRun | src/core/rover.ts:13-17 | `"0 0 E"`, obstacle `(2, 0)`, `FFRFF` prints `O 1 0 E`: nothing after the collision moves the rover |

## Left out

- `roverController.ts` and `marsRover.ts` are left out. They are an older generation outside this core. Each builds its own `Position` from the first two tokens with `Number()` and picks a navigator by heading alone, with no planet. It then calls a `moveForward(position)` / `moveBackward(position)` API that none of the modelled navigators has, and returns the final location as a string.
- I/O and printing are left out. `run` returns its text instead of printing it.
- Coords.CreateFromText: the `Coordinates.createFrom(string, string)` that `navigator/navigator.ts:35` calls is not part of this model. Its reading of text is fixed here as strict decimal syntax: an optional `-` and at least one digit. So `"1.0"`, `"+1"`, `"0x1"` and the empty token (from `"0  N"`) are all malformed here. JavaScript's `Number` would accept them.
- Text.ParseLeadingInt: `parseInt` is modelled on mathematical integers. Precision loss past 2^53 and the exponent forms of very long digit strings are left out.
- Text.IntToString: JavaScript numbers are modelled as unbounded integers. Doubles, `NaN` beyond the `parseInt` case, infinities, `-0` and the exponent notation of large numbers are left out.
- `Coordinates.create`, which the tests call, is not part of this model. Obstacle and boundary coordinates are built directly.
- The `Planet` class that the legacy `navigator.ts` imports from a test file is left out. The legacy navigators never read their planet, so it is dropped from their state.
- `split` works on UTF-16 code units in JavaScript. Here strings are sequences of `char`; only the separator `' '` matters to the model.
- The navigator test file names a factory method that the navigator module does not define. It is left out.
- Only the test groups that show a distinct behaviour are restated as scenario lemmas. The others (one step in each direction, three steps, turns, backward wrap) are covered by the general lemmas about `FacingNorth` through `FacingWest` and `Rovers.ExecuteCommands`.
