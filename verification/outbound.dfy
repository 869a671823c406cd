// Outbound side of the host/firmware serial protocol: the commands the
// welder GUI writes to the controller, each one ASCII line terminated by a
// single '\n'.

module Outbound {

  datatype Option<T> = None | Some(value: T)

  /** The two axes the GUI can jog and home. */
  datatype Axis = Y | Z

  /** Every command the GUI writes. `Move` carries the raw step text typed
      by the operator, with the sign already prepended for the negative
      direction; the GUI never checks that it is a number. */
  datatype Command =
    | Move(axis: Axis, arg: string)
    | HomeAxis(axis: Axis)
    | HomeAllAxes
    | RunSeries
    | StopJob
    | PauseJob
    | ContinueJob

  function AxisLetter(a: Axis): char
  {
    match a
    case Y => 'y'
    case Z => 'z'
  }

  function MovePrefix(a: Axis): (p: string)
    ensures |p| == 6
  {
    [AxisLetter(a)] + "Move "
  }

  /** A command can be framed as exactly one line when its argument holds
      no line terminator. */
  predicate WellFormed(c: Command)
  {
    c.Move? ==> '\n' !in c.arg
  }

  /** The command text without its terminator. */
  function Text(c: Command): string
  {
    match c
    case Move(a, arg) => MovePrefix(a) + arg
    case HomeAxis(a) => [AxisLetter(a)] + "Home"
    case HomeAllAxes => "homeAll"
    case RunSeries => "runSeries"
    case StopJob => "stop"
    case PauseJob => "pause"
    case ContinueJob => "continue"
  }

  /** The characters written for one command: its text and one '\n'. */
  function Encode(c: Command): (line: string)
    ensures |line| > 0 && line[|line| - 1] == '\n'
    ensures WellFormed(c) ==> '\n' !in line[..|line| - 1]
  {
    assert (Text(c) + "\n")[..|Text(c)|] == Text(c);
    Text(c) + "\n"
  }

  /** Reads one command text back; None for anything the GUI never sends. */
  function Parse(text: string): Option<Command>
  {
    if |text| >= 6 && text[..6] == MovePrefix(Y) then Some(Move(Y, text[6..]))
    else if |text| >= 6 && text[..6] == MovePrefix(Z) then Some(Move(Z, text[6..]))
    else if text == "yHome" then Some(HomeAxis(Y))
    else if text == "zHome" then Some(HomeAxis(Z))
    else if text == "homeAll" then Some(HomeAllAxes)
    else if text == "runSeries" then Some(RunSeries)
    else if text == "stop" then Some(StopJob)
    else if text == "pause" then Some(PauseJob)
    else if text == "continue" then Some(ContinueJob)
    else None
  }

  /** Reads one written line back: it must end in its only '\n'. */
  function Decode(line: string): Option<Command>
  {
    if |line| > 0 && line[|line| - 1] == '\n' && '\n' !in line[..|line| - 1]
    then Parse(line[..|line| - 1])
    else None
  }

  /** The argument of a jog: the step text, with a '-' in front for the
      negative direction. */
  function JogArg(negative: bool, text: string): string
  {
    if negative then "-" + text else text
  }

  /** The jog handlers' line: `<axis>Move <text>` for the positive
      direction, `<axis>Move -<text>` for the negative one. */
  function FormatJog(a: Axis, negative: bool, text: string): (line: string)
    ensures '\n' !in text ==> Decode(line) == Some(Move(a, JogArg(negative, text)))
    ensures '\n' in text ==> Decode(line) == None
  {
    var c := Move(a, JogArg(negative, text));
    assert '\n' !in text ==> Decode(Encode(c)) == Some(c) by {
      if '\n' !in text {
        DecodeEncode(c);
      }
    }
    assert '\n' in text ==> '\n' in Encode(c)[..|Encode(c)| - 1] by {
      if '\n' in text {
        var i :| 0 <= i < |text| && text[i] == '\n';
        var k := |MovePrefix(a)| + |JogArg(negative, text)| - |text| + i;
        assert Encode(c)[..|Encode(c)| - 1][k] == '\n';
      }
    }
    Encode(c)
  }

  /** The step text is written unchecked, so a newline in it ends the jog
      line early: the controller reads a Move carrying the text before the
      newline, and then the rest as a line of its own. */
  lemma JogNewlineSplitsLine(a: Axis, negative: bool, pre: string, post: string)
    requires '\n' !in pre
    ensures var first := Encode(Move(a, JogArg(negative, pre)));
      FormatJog(a, negative, pre + "\n" + post) == first + post + "\n" &&
      Decode(first) == Some(Move(a, JogArg(negative, pre)))
  {
    var arg := JogArg(negative, pre);
    DecodeEncode(Move(a, arg));
    calc {
      FormatJog(a, negative, pre + "\n" + post);
      MovePrefix(a) + JogArg(negative, pre + "\n" + post) + "\n";
      { assert JogArg(negative, pre + "\n" + post) == arg + ("\n" + post); }
      MovePrefix(a) + (arg + ("\n" + post)) + "\n";
      (MovePrefix(a) + arg + "\n") + post + "\n";
      Encode(Move(a, arg)) + post + "\n";
    }
  }

  /** Decoding undoes encoding for every well-formed command. */
  lemma DecodeEncode(c: Command)
    requires WellFormed(c)
    ensures Decode(Encode(c)) == Some(c)
  {
    var line := Encode(c);
    assert line[..|line| - 1] == Text(c);
    match c
    case Move(a, arg) =>
      assert Text(c)[..6] == MovePrefix(a);
      assert Text(c)[6..] == arg;
    case HomeAxis(a) =>
    case _ =>
  }

  /** Encoding undoes decoding: a line that decodes is exactly the framing
      of the command it decodes to, so no two commands share a line. */
  lemma EncodeDecode(line: string, c: Command)
    requires Decode(line) == Some(c)
    ensures WellFormed(c) && Encode(c) == line
  {
    var text := line[..|line| - 1];
    assert line == text + "\n";
    if c.Move? {
      assert text[..6] + text[6..] == text;
      assert '\n' !in text[6..] by {
        forall i | 0 <= i < |text[6..]| ensures text[6..][i] != '\n' {
          assert text[6..][i] == text[6 + i];
        }
      }
    }
  }

  /** Because the step text is not validated, a positive jog whose text
      starts with '-' writes the same bytes as the opposite jog. */
  lemma JogSignAmbiguity(a: Axis, text: string)
    ensures FormatJog(a, false, "-" + text) == FormatJog(a, true, text)
  {
  }
}
