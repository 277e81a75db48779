/** `command.ts`: the one-character rover commands and the parser that turns
    a command string into commands. */
module Commands {
  import opened Results

  /** The four command characters: Forward, Backward, Left and Right. */
  predicate IsCode(c: char) {
    c == 'F' || c == 'B' || c == 'L' || c == 'R'
  }

  type Code = c: char | IsCode(c) witness 'F'

  datatype Command = Command(value: Code)

  /** `Command.create`: accepts exactly the four one-character strings. */
  function Create(raw: string): (r: Result<Command>)
    ensures r.Ok? <==> raw == "F" || raw == "B" || raw == "L" || raw == "R"
    ensures r.Ok? ==> raw == [r.value.value]
    ensures r.Err? ==> r.error == InvalidCommand
  {
    if |raw| == 1 && IsCode(raw[0]) then Ok(Command(raw[0])) else Err(InvalidCommand)
  }

  /** `Command.parse`: one command per character, in order; any character
      outside the four codes makes the whole parse throw. */
  function Parse(raw: string): (r: Result<seq<Command>>)
    ensures r.Ok? <==> forall i | 0 <= i < |raw| :: IsCode(raw[i])
    ensures r.Ok? ==> |r.value| == |raw|
    ensures r.Ok? ==> forall i | 0 <= i < |raw| :: r.value[i].value == raw[i]
    ensures r.Err? ==> r.error == InvalidCommand
    decreases |raw|
  {
    if raw == [] then Ok([])
    else
      var head :- Create([raw[0]]);
      var tail :- Parse(raw[1..]);
      Ok([head] + tail)
  }

  /** The characters a command sequence is written with. */
  function Codes(commands: seq<Command>): (s: string)
    ensures |s| == |commands|
    ensures forall i | 0 <= i < |s| :: s[i] == commands[i].value
  {
    seq(|commands|, i requires 0 <= i < |commands| => commands[i].value)
  }

  /** Parsing the characters of a command sequence gives the sequence back,
      and every successful parse is of that form. */
  lemma ParseCodes(commands: seq<Command>, raw: string)
    ensures Parse(Codes(commands)) == Ok(commands)
    ensures Parse(raw).Ok? ==> Codes(Parse(raw).value) == raw
  {
    var r := Parse(Codes(commands));
    assert r.value == commands;
  }

  /** Parsing a concatenation succeeds exactly when both halves parse, and
      then yields the two command sequences one after the other. */
  lemma ParseAppend(a: string, b: string)
    ensures Parse(a + b).Ok? <==> Parse(a).Ok? && Parse(b).Ok?
    ensures Parse(a + b).Ok? ==> Parse(a + b).value == Parse(a).value + Parse(b).value
  {
    var ab := a + b;
    assert forall i | 0 <= i < |a| :: ab[i] == a[i];
    assert forall i | 0 <= i < |b| :: ab[|a| + i] == b[i];
    if Parse(ab).Ok? {
      var joined := Parse(a).value + Parse(b).value;
      assert forall i | 0 <= i < |ab| :: Parse(ab).value[i].value == joined[i].value;
    }
  }

  predicate IsForward(c: Command) {
    c.value == 'F'
  }

  predicate IsBackward(c: Command) {
    c.value == 'B'
  }

  predicate IsRotateRight(c: Command) {
    c.value == 'R'
  }

  predicate IsRotateLeft(c: Command) {
    c.value == 'L'
  }

  /** Every command is of exactly one of the four kinds. */
  lemma ExactlyOneKind(c: Command)
    ensures IsForward(c) || IsBackward(c) || IsRotateRight(c) || IsRotateLeft(c)
    ensures !(IsForward(c) && IsBackward(c)) && !(IsForward(c) && IsRotateRight(c))
    ensures !(IsForward(c) && IsRotateLeft(c)) && !(IsBackward(c) && IsRotateRight(c))
    ensures !(IsBackward(c) && IsRotateLeft(c)) && !(IsRotateRight(c) && IsRotateLeft(c))
  {
  }
}
