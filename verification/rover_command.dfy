/** `roverCommand.ts`: an older twin of `command.ts`, with `translate` in
    place of `parse`. It is modelled separately and shown to agree with
    `Commands` character for character. */
module RoverCommands {
  import opened Results
  import Commands

  datatype RoverCommand = RoverCommand(value: Commands.Code)

  /** `RoverCommand.create`: accepts exactly the four one-character strings. */
  function Create(raw: string): (r: Result<RoverCommand>)
    ensures r.Ok? <==> raw == "F" || raw == "B" || raw == "L" || raw == "R"
    ensures r.Ok? ==> raw == [r.value.value]
    ensures r.Err? ==> r.error == InvalidCommand
  {
    if |raw| == 1 && Commands.IsCode(raw[0]) then Ok(RoverCommand(raw[0])) else Err(InvalidCommand)
  }

  /** `RoverCommand.translate`: one command per character, in order; any
      invalid character makes the whole translation throw. */
  function Translate(raw: string): (r: Result<seq<RoverCommand>>)
    ensures r.Ok? <==> forall i | 0 <= i < |raw| :: Commands.IsCode(raw[i])
    ensures r.Ok? ==> |r.value| == |raw|
    ensures r.Ok? ==> forall i | 0 <= i < |raw| :: r.value[i].value == raw[i]
    ensures r.Err? ==> r.error == InvalidCommand
    ensures raw == "" ==> r == Ok([])
    decreases |raw|
  {
    if raw == [] then Ok([])
    else
      var head :- Create([raw[0]]);
      var tail :- Translate(raw[1..]);
      Ok([head] + tail)
  }

  predicate IsForward(c: RoverCommand) {
    c.value == 'F'
  }

  predicate IsBackward(c: RoverCommand) {
    c.value == 'B'
  }

  predicate IsRotateRight(c: RoverCommand) {
    c.value == 'R'
  }

  predicate IsRotateLeft(c: RoverCommand) {
    c.value == 'L'
  }

  function AsCommand(c: RoverCommand): Commands.Command {
    Commands.Command(c.value)
  }

  /** Every rover command is of exactly one of the four kinds, and of the
      same kind as the `Command` with the same character. */
  lemma ExactlyOneKind(c: RoverCommand)
    ensures IsForward(c) || IsBackward(c) || IsRotateRight(c) || IsRotateLeft(c)
    ensures !(IsForward(c) && IsBackward(c)) && !(IsForward(c) && IsRotateRight(c))
    ensures !(IsForward(c) && IsRotateLeft(c)) && !(IsBackward(c) && IsRotateRight(c))
    ensures !(IsBackward(c) && IsRotateLeft(c)) && !(IsRotateRight(c) && IsRotateLeft(c))
    ensures IsForward(c) == Commands.IsForward(AsCommand(c))
    ensures IsBackward(c) == Commands.IsBackward(AsCommand(c))
    ensures IsRotateRight(c) == Commands.IsRotateRight(AsCommand(c))
    ensures IsRotateLeft(c) == Commands.IsRotateLeft(AsCommand(c))
  {
  }

  /** `translate` and `Command.parse` accept the same strings and produce the
      same command characters. */
  lemma TranslateAgreesWithParse(raw: string)
    ensures Translate(raw).Ok? <==> Commands.Parse(raw).Ok?
    ensures Translate(raw).Ok? ==>
      |Translate(raw).value| == |Commands.Parse(raw).value| &&
      forall i | 0 <= i < |raw| :: AsCommand(Translate(raw).value[i]) == Commands.Parse(raw).value[i]
  {
  }
}
