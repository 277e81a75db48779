/** `rover.ts`: the rover holds the current navigator and runs command
    strings on it. A run parses the whole string first, so one invalid
    character anywhere throws before any command is applied; then the
    commands replace the navigator one at a time, left to right, and the run
    prints where the last navigator is. */
module Rovers {
  import opened Results
  import opened Planets
  import opened Commands
  import opened NavigatorStates
  import opened Navigators

  datatype Rover = Rover(navigator: Navigator)

  /** `executeNavigator`: the navigator call a command stands for. The
      kind tests run in the order Forward, Backward, Left, and anything left
      over is a right turn. */
  function ExecuteNavigator(n: Navigator, command: Command): (r: Navigator)
    ensures IsForward(command) ==> r == MoveForward(n)
    ensures IsBackward(command) ==> r == MoveBackward(n)
    ensures IsRotateLeft(command) ==> r == RotateLeft(n)
    ensures IsRotateRight(command) ==> r == RotateRight(n)
    ensures n.CollidingObstacle? ==> r == n
  {
    if IsForward(command) then MoveForward(n)
    else if IsBackward(command) then MoveBackward(n)
    else if IsRotateLeft(command) then RotateLeft(n)
    else RotateRight(n)
  }

  /** `executeCommands`: the commands applied left to right, each result
      replacing the navigator. The planet never changes, a navigator that
      starts on the grid stays on it, and a collided navigator absorbs
      every command. */
  function ExecuteCommands(n: Navigator, commands: seq<Command>): (r: Navigator)
    ensures r.planet == n.planet
    ensures OnGrid(n.planet, n.coordinates) ==> OnGrid(r.planet, r.coordinates)
    ensures n.CollidingObstacle? ==> r == n
    decreases |commands|
  {
    if commands == [] then n else ExecuteCommands(ExecuteNavigator(n, commands[0]), commands[1..])
  }

  /** Running `a` and then `b` is running `a + b`. */
  lemma {:induction false} ExecuteCommandsAppend(n: Navigator, a: seq<Command>, b: seq<Command>)
    ensures ExecuteCommands(n, a + b) == ExecuteCommands(ExecuteCommands(n, a), b)
    decreases |a|
  {
    if a == [] {
      assert a + b == b;
    } else {
      assert (a + b)[0] == a[0];
      assert (a + b)[1..] == a[1..] + b;
      ExecuteCommandsAppend(ExecuteNavigator(n, a[0]), a[1..], b);
    }
  }

  /** Once the navigator has collided, the rest of the commands change
      nothing: coordinates, heading and the collided state all stay. */
  lemma CollisionHaltsTheRun(n: Navigator, a: seq<Command>, b: seq<Command>)
    requires ExecuteCommands(n, a).CollidingObstacle?
    ensures ExecuteCommands(n, a + b) == ExecuteCommands(n, a)
  {
    ExecuteCommandsAppend(n, a, b);
  }

  /** The `forEach` loop of `executeCommands`, which overwrites the held
      navigator once per command, computes the left-to-right fold. */
  method ExecuteCommandsInOrder(n: Navigator, commands: seq<Command>) returns (r: Navigator)
    ensures r == ExecuteCommands(n, commands)
  {
    r := n;
    var i := 0;
    while i < |commands|
      invariant 0 <= i <= |commands|
      invariant ExecuteCommands(r, commands[i..]) == ExecuteCommands(n, commands)
      decreases |commands| - i
    {
      assert commands[i..][1..] == commands[i + 1..];
      r := ExecuteNavigator(r, commands[i]);
      i := i + 1;
    }
  }

  /** `run`: parse every character first (an invalid one throws 'Invalid
      command' and nothing is executed), then execute the commands and print
      the final location. The new rover is returned alongside the text. */
  function Run(rover: Rover, rawCommands: string): (r: Result<(Rover, string)>)
    ensures r.Ok? <==> forall i | 0 <= i < |rawCommands| :: IsCode(rawCommands[i])
    ensures r.Err? ==> r.error == InvalidCommand
    ensures r.Ok? ==> r.value.0.navigator == ExecuteCommands(rover.navigator, Parse(rawCommands).value)
    ensures r.Ok? ==> r.value.1 == FormattedLocation(r.value.0.navigator)
    ensures r.Ok? ==> r.value.0.navigator.planet == rover.navigator.planet
    ensures r.Ok? && rover.navigator.CollidingObstacle? ==> r.value.0 == rover
    ensures rawCommands == "" ==> r == Ok((rover, FormattedLocation(rover.navigator)))
  {
    var commands :- Parse(rawCommands);
    var next := Rover(ExecuteCommands(rover.navigator, commands));
    Ok((next, FormattedLocation(next.navigator)))
  }

  /** A single command character runs the navigator call it stands for. */
  lemma RunOneCommand(rover: Rover, c: Code)
    ensures Run(rover, [c]).Ok?
    ensures Run(rover, [c]).value.0.navigator == ExecuteNavigator(rover.navigator, Command(c))
  {
    var commands := [Command(c)];
    assert Parse([c]).value == commands;
    assert commands[1..] == [];
    assert ExecuteCommands(rover.navigator, commands) == ExecuteNavigator(rover.navigator, Command(c));
  }

  /** The rover keeps its navigator between runs: running `a` and then `b`
      on the rover `a` left behind ends exactly where one run of `a + b`
      does, and fails exactly when it does. */
  lemma RunInSequence(rover: Rover, a: string, b: string)
    ensures Run(rover, a).Err? ==> Run(rover, a + b).Err?
    ensures Run(rover, a).Ok? ==> Run(Run(rover, a).value.0, b) == Run(rover, a + b)
  {
    ParseAppend(a, b);
    if Parse(a).Ok? && Parse(b).Ok? {
      ExecuteCommandsAppend(rover.navigator, Parse(a).value, Parse(b).value);
    }
  }
}
