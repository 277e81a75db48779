/** Whole runs of the rover as its test suite sets them up: a planet with
    boundary (10, 10), a navigator built from a raw location, and one command
    string. Each lemma states what the modelled code prints; where that
    differs from what the suite expects, the lemma's comment says so. */
module RoverScenarios {
  import opened Results
  import opened Text
  import opened Coords
  import opened Planets
  import opened NavigatorStates
  import opened Navigators
  import opened Rovers
  import Commands

  /** The planet of the suite: boundary (10, 10) and the given obstacles. */
  function SuitePlanet(obstacles: seq<Coordinates>): Planet {
    Planet(Coordinates(10, 10), obstacles)
  }

  /** `createRover(initialLocation, obstacles).run(commands)` returns `printed`. */
  predicate Prints(initialLocation: string, obstacles: seq<Coordinates>, commands: string, printed: string) {
    match Navigators.CreateFrom(initialLocation, SuitePlanet(obstacles))
    case Ok(n) => Run(Rover(n), commands).Ok? && Run(Rover(n), commands).value.1 == printed
    case Err(_) => false
  }

  /** A rover built from a printed location prints where the parsed commands
      take its navigator. */
  lemma PrintsAfter(initialLocation: string, x: nat, y: nat, h: CardinalPoint, obstacles: seq<Coordinates>,
                    raw: string, commands: seq<Commands.Command>, final: Navigator, printed: string)
    requires initialLocation == IntToString(x) + " " + IntToString(y) + " " + [Code(h)]
    requires Commands.Parse(raw) == Ok(commands)
    requires ExecuteCommands(Facing(h, Coordinates(x, y), SuitePlanet(obstacles)), commands) == final
    requires FormattedLocation(final) == printed
    ensures Prints(initialLocation, obstacles, raw, printed)
  {
    CreateFromFormattedLocation(h, Coordinates(x, y), SuitePlanet(obstacles));
  }

  /** The same, for a command string `raw` written in two parts: the commands of
      the first part take the navigator to `middle`, those of the second on to
      `final`. */
  lemma PrintsAfterTwoLegs(initialLocation: string, x: nat, y: nat, h: CardinalPoint, obstacles: seq<Coordinates>,
                           raw: string, rawFirst: string, first: seq<Commands.Command>, middle: Navigator,
                           rawSecond: string, second: seq<Commands.Command>, final: Navigator, printed: string)
    requires initialLocation == IntToString(x) + " " + IntToString(y) + " " + [Code(h)]
    requires raw == rawFirst + rawSecond
    requires Commands.Parse(rawFirst) == Ok(first) && Commands.Parse(rawSecond) == Ok(second)
    requires ExecuteCommands(Facing(h, Coordinates(x, y), SuitePlanet(obstacles)), first) == middle
    requires ExecuteCommands(middle, second) == final
    requires FormattedLocation(final) == printed
    ensures Prints(initialLocation, obstacles, raw, printed)
  {
    Commands.ParseAppend(rawFirst, rawSecond);
    ExecuteCommandsAppend(Facing(h, Coordinates(x, y), SuitePlanet(obstacles)), first, second);
    PrintsAfter(initialLocation, x, y, h, obstacles, raw, first + second, final, printed);
  }

  /** The raw location `1 1 W` as the rover prints it, and the commands `` parsed. */
  lemma EmptyCommandStaysInput()
    ensures "1 1 W" == IntToString(1) + " " + IntToString(1) + " " + [Code(West)]
    ensures Commands.Parse("") == Ok([])
  {
    assert Commands.Parse("").value == [];
  }

  /** Where `` takes the navigator, and what the rover prints there. */
  lemma EmptyCommandStaysOutcome()
    ensures ExecuteCommands(Facing(West, Coordinates(1, 1), SuitePlanet([])), []) == Facing(West, Coordinates(1, 1), SuitePlanet([]))
    ensures FormattedLocation(Facing(West, Coordinates(1, 1), SuitePlanet([]))) == "1 1 W"
  {
  }

  /** An empty command string leaves the rover where it was built. */
  lemma EmptyCommandStays()
    ensures Prints("1 1 W", [], "", "1 1 W")
  {
    EmptyCommandStaysInput();
    EmptyCommandStaysOutcome();
    PrintsAfter("1 1 W", 1, 1, West, [], "", [], Facing(West, Coordinates(1, 1), SuitePlanet([])), "1 1 W");
  }

  /** The raw location `0 0 N` as the rover prints it, and the two parts of `FFRFFFBRRL` parsed. */
  lemma MovesAndTurnsInput()
    ensures "0 0 N" == IntToString(0) + " " + IntToString(0) + " " + [Code(North)]
    ensures "FFRFFFBRRL" == "FFRFF" + "FBRRL"
    ensures Commands.Parse("FFRFF") == Ok([Commands.Command('F'), Commands.Command('F'), Commands.Command('R'), Commands.Command('F'), Commands.Command('F')])
    ensures Commands.Parse("FBRRL") == Ok([Commands.Command('F'), Commands.Command('B'), Commands.Command('R'), Commands.Command('R'), Commands.Command('L')])
  {
    assert Commands.Parse("FFRFF").value == [Commands.Command('F'), Commands.Command('F'), Commands.Command('R'), Commands.Command('F'), Commands.Command('F')];
    assert Commands.Parse("FBRRL").value == [Commands.Command('F'), Commands.Command('B'), Commands.Command('R'), Commands.Command('R'), Commands.Command('L')];
  }

  /** The first 5 commands of `FFRFFFBRRL`. */
  lemma MovesAndTurnsFirstLeg()
    ensures ExecuteCommands(Facing(North, Coordinates(0, 0), SuitePlanet([])), [Commands.Command('F'), Commands.Command('F'), Commands.Command('R'), Commands.Command('F'), Commands.Command('F')]) == Facing(East, Coordinates(2, 2), SuitePlanet([]))
  {
  }

  /** The last 5 commands of `FFRFFFBRRL`. */
  lemma MovesAndTurnsSecondLeg()
    ensures ExecuteCommands(Facing(East, Coordinates(2, 2), SuitePlanet([])), [Commands.Command('F'), Commands.Command('B'), Commands.Command('R'), Commands.Command('R'), Commands.Command('L')]) == Facing(South, Coordinates(2, 2), SuitePlanet([]))
  {
  }

  /** What the rover prints at the end of `FFRFFFBRRL`. */
  lemma MovesAndTurnsPrinted()
    ensures FormattedLocation(Facing(South, Coordinates(2, 2), SuitePlanet([]))) == "2 2 S"
  {
  }

  /** A command string mixing moves and turns. */
  lemma MovesAndTurns()
    ensures Prints("0 0 N", [], "FFRFFFBRRL", "2 2 S")
  {
    MovesAndTurnsInput();
    MovesAndTurnsFirstLeg();
    MovesAndTurnsSecondLeg();
    MovesAndTurnsPrinted();
    PrintsAfterTwoLegs("0 0 N", 0, 0, North, [], "FFRFFFBRRL",
        "FFRFF", [Commands.Command('F'), Commands.Command('F'), Commands.Command('R'), Commands.Command('F'), Commands.Command('F')], Facing(East, Coordinates(2, 2), SuitePlanet([])),
        "FBRRL", [Commands.Command('F'), Commands.Command('B'), Commands.Command('R'), Commands.Command('R'), Commands.Command('L')], Facing(South, Coordinates(2, 2), SuitePlanet([])), "2 2 S");
  }

  /** The raw location `0 10 N` as the rover prints it, and the commands `F` parsed. */
  lemma WrapsAtNorthEdgeInput()
    ensures "0 10 N" == IntToString(0) + " " + IntToString(10) + " " + [Code(North)]
    ensures Commands.Parse("F") == Ok([Commands.Command('F')])
  {
    assert Commands.Parse("F").value == [Commands.Command('F')];
  }

  /** Where `F` takes the navigator, and what the rover prints there. */
  lemma WrapsAtNorthEdgeOutcome()
    ensures ExecuteCommands(Facing(North, Coordinates(0, 10), SuitePlanet([])), [Commands.Command('F')]) == Facing(North, Coordinates(0, 0), SuitePlanet([]))
    ensures FormattedLocation(Facing(North, Coordinates(0, 0), SuitePlanet([]))) == "0 0 N"
  {
  }

  /** A forward step off the northern edge comes back at longitude 0. */
  lemma WrapsAtNorthEdge()
    ensures Prints("0 10 N", [], "F", "0 0 N")
  {
    WrapsAtNorthEdgeInput();
    WrapsAtNorthEdgeOutcome();
    PrintsAfter("0 10 N", 0, 10, North, [], "F", [Commands.Command('F')], Facing(North, Coordinates(0, 0), SuitePlanet([])), "0 0 N");
  }

  /** The raw location `0 0 W` as the rover prints it, and the commands `F` parsed. */
  lemma WrapsAtWestEdgeInput()
    ensures "0 0 W" == IntToString(0) + " " + IntToString(0) + " " + [Code(West)]
    ensures Commands.Parse("F") == Ok([Commands.Command('F')])
  {
    assert Commands.Parse("F").value == [Commands.Command('F')];
  }

  /** Where `F` takes the navigator, and what the rover prints there. */
  lemma WrapsAtWestEdgeOutcome()
    ensures ExecuteCommands(Facing(West, Coordinates(0, 0), SuitePlanet([])), [Commands.Command('F')]) == Facing(West, Coordinates(10, 0), SuitePlanet([]))
    ensures FormattedLocation(Facing(West, Coordinates(10, 0), SuitePlanet([]))) == "10 0 W"
  {
  }

  /** A forward step off the western edge comes back at the boundary latitude. */
  lemma WrapsAtWestEdge()
    ensures Prints("0 0 W", [], "F", "10 0 W")
  {
    WrapsAtWestEdgeInput();
    WrapsAtWestEdgeOutcome();
    PrintsAfter("0 0 W", 0, 0, West, [], "F", [Commands.Command('F')], Facing(West, Coordinates(10, 0), SuitePlanet([])), "10 0 W");
  }

  /** The raw location `0 0 E` as the rover prints it, and the commands `F` parsed. */
  lemma EastCollidesInput()
    ensures "0 0 E" == IntToString(0) + " " + IntToString(0) + " " + [Code(East)]
    ensures Commands.Parse("F") == Ok([Commands.Command('F')])
  {
    assert Commands.Parse("F").value == [Commands.Command('F')];
  }

  /** Where `F` takes the navigator, and what the rover prints there. */
  lemma EastCollidesOutcome()
    ensures ExecuteCommands(Facing(East, Coordinates(0, 0), SuitePlanet([Coordinates(1, 0)])), [Commands.Command('F')]) == CollidingObstacle(East, Coordinates(0, 0), SuitePlanet([Coordinates(1, 0)]))
    ensures FormattedLocation(CollidingObstacle(East, Coordinates(0, 0), SuitePlanet([Coordinates(1, 0)]))) == "O 0 0 E"
  {
  }

  /** Facing East, a blocked step collides: the rover keeps its cell and prints
      the `O` marker. */
  lemma EastCollides()
    ensures Prints("0 0 E", [Coordinates(1, 0)], "F", "O 0 0 E")
  {
    EastCollidesInput();
    EastCollidesOutcome();
    PrintsAfter("0 0 E", 0, 0, East, [Coordinates(1, 0)], "F", [Commands.Command('F')], CollidingObstacle(East, Coordinates(0, 0), SuitePlanet([Coordinates(1, 0)])), "O 0 0 E");
  }

  /** The raw location `0 0 S` as the rover prints it, and the commands `B` parsed. */
  lemma SouthCollidesInput()
    ensures "0 0 S" == IntToString(0) + " " + IntToString(0) + " " + [Code(South)]
    ensures Commands.Parse("B") == Ok([Commands.Command('B')])
  {
    assert Commands.Parse("B").value == [Commands.Command('B')];
  }

  /** Where `B` takes the navigator, and what the rover prints there. */
  lemma SouthCollidesOutcome()
    ensures ExecuteCommands(Facing(South, Coordinates(0, 0), SuitePlanet([Coordinates(0, 1)])), [Commands.Command('B')]) == CollidingObstacle(South, Coordinates(0, 0), SuitePlanet([Coordinates(0, 1)]))
    ensures FormattedLocation(CollidingObstacle(South, Coordinates(0, 0), SuitePlanet([Coordinates(0, 1)]))) == "O 0 0 S"
  {
  }

  /** Facing South, a blocked backward step collides too. */
  lemma SouthCollides()
    ensures Prints("0 0 S", [Coordinates(0, 1)], "B", "O 0 0 S")
  {
    SouthCollidesInput();
    SouthCollidesOutcome();
    PrintsAfter("0 0 S", 0, 0, South, [Coordinates(0, 1)], "B", [Commands.Command('B')], CollidingObstacle(South, Coordinates(0, 0), SuitePlanet([Coordinates(0, 1)])), "O 0 0 S");
  }

  /** The raw location `0 0 N` as the rover prints it, and the commands `F` parsed. */
  lemma NorthStaysPutInput()
    ensures "0 0 N" == IntToString(0) + " " + IntToString(0) + " " + [Code(North)]
    ensures Commands.Parse("F") == Ok([Commands.Command('F')])
  {
    assert Commands.Parse("F").value == [Commands.Command('F')];
  }

  /** Where `F` takes the navigator, and what the rover prints there. */
  lemma NorthStaysPutOutcome()
    ensures ExecuteCommands(Facing(North, Coordinates(0, 0), SuitePlanet([Coordinates(0, 1)])), [Commands.Command('F')]) == Facing(North, Coordinates(0, 0), SuitePlanet([Coordinates(0, 1)]))
    ensures FormattedLocation(Facing(North, Coordinates(0, 0), SuitePlanet([Coordinates(0, 1)]))) == "0 0 N"
  {
  }

  /** Facing North, a blocked step leaves the navigator as it was: no move, no
      collision, no marker. The suite expects `O 0 0 N` here. */
  lemma NorthStaysPut()
    ensures Prints("0 0 N", [Coordinates(0, 1)], "F", "0 0 N")
  {
    NorthStaysPutInput();
    NorthStaysPutOutcome();
    PrintsAfter("0 0 N", 0, 0, North, [Coordinates(0, 1)], "F", [Commands.Command('F')], Facing(North, Coordinates(0, 0), SuitePlanet([Coordinates(0, 1)])), "0 0 N");
  }

  /** The raw location `2 0 W` as the rover prints it, and the commands `F` parsed. */
  lemma WestStaysPutInput()
    ensures "2 0 W" == IntToString(2) + " " + IntToString(0) + " " + [Code(West)]
    ensures Commands.Parse("F") == Ok([Commands.Command('F')])
  {
    assert Commands.Parse("F").value == [Commands.Command('F')];
  }

  /** Where `F` takes the navigator, and what the rover prints there. */
  lemma WestStaysPutOutcome()
    ensures ExecuteCommands(Facing(West, Coordinates(2, 0), SuitePlanet([Coordinates(1, 0)])), [Commands.Command('F')]) == Facing(West, Coordinates(2, 0), SuitePlanet([Coordinates(1, 0)]))
    ensures FormattedLocation(Facing(West, Coordinates(2, 0), SuitePlanet([Coordinates(1, 0)]))) == "2 0 W"
  {
  }

  /** Facing West, a blocked step leaves the navigator as it was. The suite
      expects `O 2 0 W` here. */
  lemma WestStaysPut()
    ensures Prints("2 0 W", [Coordinates(1, 0)], "F", "2 0 W")
  {
    WestStaysPutInput();
    WestStaysPutOutcome();
    PrintsAfter("2 0 W", 2, 0, West, [Coordinates(1, 0)], "F", [Commands.Command('F')], Facing(West, Coordinates(2, 0), SuitePlanet([Coordinates(1, 0)])), "2 0 W");
  }

  /** The raw location `0 0 N` as the rover prints it, and the two parts of `FFRFFLF` parsed. */
  lemma NorthBlockedRunContinuesInput()
    ensures "0 0 N" == IntToString(0) + " " + IntToString(0) + " " + [Code(North)]
    ensures "FFRFFLF" == "FFRF" + "FLF"
    ensures Commands.Parse("FFRF") == Ok([Commands.Command('F'), Commands.Command('F'), Commands.Command('R'), Commands.Command('F')])
    ensures Commands.Parse("FLF") == Ok([Commands.Command('F'), Commands.Command('L'), Commands.Command('F')])
  {
    assert Commands.Parse("FFRF").value == [Commands.Command('F'), Commands.Command('F'), Commands.Command('R'), Commands.Command('F')];
    assert Commands.Parse("FLF").value == [Commands.Command('F'), Commands.Command('L'), Commands.Command('F')];
  }

  /** The first 4 commands of `FFRFFLF`. */
  lemma NorthBlockedRunContinuesFirstLeg()
    ensures ExecuteCommands(Facing(North, Coordinates(0, 0), SuitePlanet([Coordinates(0, 2)])), [Commands.Command('F'), Commands.Command('F'), Commands.Command('R'), Commands.Command('F')]) == Facing(East, Coordinates(1, 1), SuitePlanet([Coordinates(0, 2)]))
  {
  }

  /** The last 3 commands of `FFRFFLF`. */
  lemma NorthBlockedRunContinuesSecondLeg()
    ensures ExecuteCommands(Facing(East, Coordinates(1, 1), SuitePlanet([Coordinates(0, 2)])), [Commands.Command('F'), Commands.Command('L'), Commands.Command('F')]) == Facing(North, Coordinates(2, 2), SuitePlanet([Coordinates(0, 2)]))
  {
  }

  /** What the rover prints at the end of `FFRFFLF`. */
  lemma NorthBlockedRunContinuesPrinted()
    ensures FormattedLocation(Facing(North, Coordinates(2, 2), SuitePlanet([Coordinates(0, 2)]))) == "2 2 N"
  {
  }

  /** A run facing North that meets an obstacle is not halted: the blocked
      step is skipped and the later commands still move the rover. The suite
      expects `O 0 1 N` here. */
  lemma NorthBlockedRunContinues()
    ensures Prints("0 0 N", [Coordinates(0, 2)], "FFRFFLF", "2 2 N")
  {
    NorthBlockedRunContinuesInput();
    NorthBlockedRunContinuesFirstLeg();
    NorthBlockedRunContinuesSecondLeg();
    NorthBlockedRunContinuesPrinted();
    PrintsAfterTwoLegs("0 0 N", 0, 0, North, [Coordinates(0, 2)], "FFRFFLF",
        "FFRF", [Commands.Command('F'), Commands.Command('F'), Commands.Command('R'), Commands.Command('F')], Facing(East, Coordinates(1, 1), SuitePlanet([Coordinates(0, 2)])),
        "FLF", [Commands.Command('F'), Commands.Command('L'), Commands.Command('F')], Facing(North, Coordinates(2, 2), SuitePlanet([Coordinates(0, 2)])), "2 2 N");
  }

  /** The raw location `0 0 E` as the rover prints it, and the two parts of `FFRFF` parsed. */
  lemma CollisionHaltsRunInput()
    ensures "0 0 E" == IntToString(0) + " " + IntToString(0) + " " + [Code(East)]
    ensures "FFRFF" == "FFR" + "FF"
    ensures Commands.Parse("FFR") == Ok([Commands.Command('F'), Commands.Command('F'), Commands.Command('R')])
    ensures Commands.Parse("FF") == Ok([Commands.Command('F'), Commands.Command('F')])
  {
    assert Commands.Parse("FFR").value == [Commands.Command('F'), Commands.Command('F'), Commands.Command('R')];
    assert Commands.Parse("FF").value == [Commands.Command('F'), Commands.Command('F')];
  }

  /** The first 3 commands of `FFRFF`. */
  lemma CollisionHaltsRunFirstLeg()
    ensures ExecuteCommands(Facing(East, Coordinates(0, 0), SuitePlanet([Coordinates(2, 0)])), [Commands.Command('F'), Commands.Command('F'), Commands.Command('R')]) == CollidingObstacle(East, Coordinates(1, 0), SuitePlanet([Coordinates(2, 0)]))
  {
  }

  /** The last 2 commands of `FFRFF`. */
  lemma CollisionHaltsRunSecondLeg()
    ensures ExecuteCommands(CollidingObstacle(East, Coordinates(1, 0), SuitePlanet([Coordinates(2, 0)])), [Commands.Command('F'), Commands.Command('F')]) == CollidingObstacle(East, Coordinates(1, 0), SuitePlanet([Coordinates(2, 0)]))
  {
  }

  /** What the rover prints at the end of `FFRFF`. */
  lemma CollisionHaltsRunPrinted()
    ensures FormattedLocation(CollidingObstacle(East, Coordinates(1, 0), SuitePlanet([Coordinates(2, 0)]))) == "O 1 0 E"
  {
  }

  /** A run facing East that meets an obstacle halts there: the commands after
      the collision change nothing. */
  lemma CollisionHaltsRun()
    ensures Prints("0 0 E", [Coordinates(2, 0)], "FFRFF", "O 1 0 E")
  {
    CollisionHaltsRunInput();
    CollisionHaltsRunFirstLeg();
    CollisionHaltsRunSecondLeg();
    CollisionHaltsRunPrinted();
    PrintsAfterTwoLegs("0 0 E", 0, 0, East, [Coordinates(2, 0)], "FFRFF",
        "FFR", [Commands.Command('F'), Commands.Command('F'), Commands.Command('R')], CollidingObstacle(East, Coordinates(1, 0), SuitePlanet([Coordinates(2, 0)])),
        "FF", [Commands.Command('F'), Commands.Command('F')], CollidingObstacle(East, Coordinates(1, 0), SuitePlanet([Coordinates(2, 0)])), "O 1 0 E");
  }
}
