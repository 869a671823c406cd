// Inbound side of the protocol: one status line received from the
// controller, stripped of its terminator, split and classified the way the
// GUI's polling thread does it.

module Inbound {

  /** The line with one trailing "\r\n", or else one trailing '\n', removed.
      The source indexes the last character unguarded, so an empty line
      raises there; callers rule that case out first. */
  function StripTerminator(line: string): (r: string)
    requires line != []
    ensures r <= line
    ensures |line| >= 2 && line[|line| - 2..] == "\r\n" ==> r + "\r\n" == line
    ensures !(|line| >= 2 && line[|line| - 2..] == "\r\n") && line[|line| - 1] == '\n' ==>
      r + "\n" == line
    ensures line[|line| - 1] != '\n' ==> r == line
  {
    if |line| >= 2 && line[|line| - 2..] == "\r\n" then line[..|line| - 2]
    else if line[|line| - 1] == '\n' then line[..|line| - 1]
    else line
  }

  /** The status text `s` framed by the firmware with "\r\n", or with a bare
      '\n' when `s` does not itself end in '\r', is recovered exactly. */
  lemma StripFramed(s: string)
    ensures StripTerminator(s + "\r\n") == s
    ensures (s == [] || s[|s| - 1] != '\r') ==> StripTerminator(s + "\n") == s
  {
    var crlf := s + "\r\n";
    assert crlf[|crlf| - 2..] == "\r\n";
    assert crlf[..|crlf| - 2] == s;
    var lf := s + "\n";
    assert lf[..|lf| - 1] == s;
    if s == [] || s[|s| - 1] != '\r' {
      assert |lf| < 2 || lf[|lf| - 2] != '\r';
      assert !(|lf| >= 2 && lf[|lf| - 2..] == "\r\n");
    }
  }

  /** Python's `s.split(sep)` with an explicit separator: every separator
      ends a field, so empty fields are kept and there is always at least
      one field. */
  function Split(s: string, sep: char): (fields: seq<string>)
    ensures |fields| >= 1
    ensures forall i :: 0 <= i < |fields| ==> sep !in fields[i]
    decreases |s|
  {
    if s == [] then [[]]
    else
      var rest := Split(s[1..], sep);
      if s[0] == sep then [[]] + rest
      else [[s[0]] + rest[0]] + rest[1..]
  }

  /** Glues fields back together with one separator between neighbours. */
  function Join(fields: seq<string>, sep: char): string
    requires |fields| >= 1
    decreases |fields|
  {
    if |fields| == 1 then fields[0]
    else fields[0] + [sep] + Join(fields[1..], sep)
  }

  /** Joining the fields of a split gives back the text: no character is
      lost or added by splitting. */
  lemma {:induction false} JoinSplit(s: string, sep: char)
    ensures Join(Split(s, sep), sep) == s
    decreases |s|
  {
    if s != [] {
      var rest := Split(s[1..], sep);
      JoinSplit(s[1..], sep);
      if s[0] == sep {
        assert ([[]] + rest)[1..] == rest;
      } else if |rest| > 1 {
        var fields := Split(s, sep);
        assert fields[1..] == rest[1..];
        assert Join(rest, sep) == rest[0] + [sep] + Join(rest[1..], sep);
      }
    }
  }

  /** Splitting text that starts with a separator-free `a`: `a` is glued to
      the front of the first field of the rest. */
  lemma {:induction false} SplitPrefix(a: string, b: string, sep: char)
    requires sep !in a
    ensures Split(a + b, sep) == [a + Split(b, sep)[0]] + Split(b, sep)[1..]
    decreases |a|
  {
    var r := Split(b, sep);
    if a == [] {
      assert a + b == b;
      assert a + r[0] == r[0];
      assert r == [r[0]] + r[1..];
    } else {
      assert (a + b)[0] == a[0];
      assert (a + b)[1..] == a[1..] + b;
      SplitPrefix(a[1..], b, sep);
      var rest := Split(a[1..] + b, sep);
      assert rest[0] == a[1..] + r[0];
      assert rest[1..] == r[1..];
      assert [a[0]] + (a[1..] + r[0]) == a + r[0];
    }
  }

  /** Splitting undoes joining when no field holds the separator. */
  lemma {:induction false} SplitJoin(fields: seq<string>, sep: char)
    requires |fields| >= 1
    requires forall i :: 0 <= i < |fields| ==> sep !in fields[i]
    ensures Split(Join(fields, sep), sep) == fields
    decreases |fields|
  {
    if |fields| == 1 {
      SplitPrefix(fields[0], [], sep);
      assert fields[0] + [] == fields[0];
    } else {
      var tail := Join(fields[1..], sep);
      SplitJoin(fields[1..], sep);
      assert Join(fields, sep) == fields[0] + ([sep] + tail);
      var sepTail := [sep] + tail;
      assert sepTail[0] == sep && sepTail[1..] == tail;
      assert Split(sepTail, sep) == [[]] + fields[1..];
      SplitPrefix(fields[0], sepTail, sep);
      assert fields[0] + [] == fields[0];
      assert fields == [fields[0]] + fields[1..];
    }
  }

  /** A split yields at least two fields exactly when the text holds the
      separator. */
  lemma {:induction false} SplitHasTwoFields(s: string, sep: char)
    ensures |Split(s, sep)| >= 2 <==> sep in s
    decreases |s|
  {
    if s != [] {
      SplitHasTwoFields(s[1..], sep);
      assert sep in s <==> s[0] == sep || sep in s[1..];
    }
  }

  /** One received status line, as the polling thread tells the cases
      apart. */
  datatype Event =
    | FinishedLine
    | ProgressLine(fields: seq<string>)
    | PausedLine
    | EStopLine
    | IdleLine
    | OtherLine
    | EmptyLine  // the source reads `line[0]` here and raises IndexError

  /** First match wins: "finished", then any line starting with 'R', then
      "paused", "ESTOP" and "idle"; everything else is ignored. */
  function Classify(line: string): (e: Event)
    ensures e == FinishedLine <==> line == "finished"
    ensures e == EmptyLine <==> line == []
    ensures e.ProgressLine? <==> line != [] && line[0] == 'R'
    ensures e.ProgressLine? ==> |e.fields| >= 1 && Join(e.fields, ' ') == line[1..]
    ensures e.ProgressLine? ==> forall i :: 0 <= i < |e.fields| ==> ' ' !in e.fields[i]
    ensures e == PausedLine <==> line == "paused"
    ensures e == EStopLine <==> line == "ESTOP"
    ensures e == IdleLine <==> line == "idle"
  {
    if line == "finished" then FinishedLine
    else if line == [] then EmptyLine
    else if line[0] == 'R' then
      JoinSplit(line[1..], ' ');
      ProgressLine(Split(line[1..], ' '))
    else if line == "paused" then PausedLine
    else if line == "ESTOP" then EStopLine
    else if line == "idle" then IdleLine
    else OtherLine
  }

  /** The firmware's progress report `R<pass> <cell>`, terminated with
      "\r\n", is read back as exactly the two fields it carries. */
  lemma ProgressRoundTrip(pass: string, cell: string)
    requires ' ' !in pass && ' ' !in cell
    ensures Classify(StripTerminator("R" + pass + " " + cell + "\r\n")) == ProgressLine([pass, cell])
  {
    var body := "R" + pass + " " + cell;
    StripFramed(body);
    assert body[1..] == pass + [' '] + cell;
    assert Join([pass, cell], ' ') == pass + [' '] + cell;
    SplitJoin([pass, cell], ' ');
  }
}
