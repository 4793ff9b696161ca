/**
 The read-evaluate-print loop (`repl`) as a pure fold over the lines the user
 types, producing the trace of what is written to the console and the way the
 session ends.

 Console output is a sequence of tagged messages; `Render` gives the exact
 characters of each. Number formatting (`str` of a float) is a parameter.
 */
module Repl {
  import opened Options
  import opened Tokens
  import opened Operations
  import opened Parsing

  /** One thing written to the console. */
  datatype Out =
    | Menu                    // `display_menu()`, once at start-up
    | Prompt                  // the prompt `input` writes before reading a line
    | Diagnostic(d: Parsing.Diagnostic)
    | UnknownCommand
    | Result(v: Value)
    | Goodbye

  /** How a session ends: by `exit`, by the `IndexError` a blank line raises,
      or by `input` raising `EOFError` because no line is left. */
  datatype Status = Exited | Crashed | InputExhausted

  /** The console trace, how the session ended and how many lines it read. */
  datatype Session = Session(trace: seq<Out>, status: Status, consumed: nat)

  /** What one iteration of the loop does: print `out` and go round again with
      the calculator `next`, or print `out` and end the session. */
  datatype Step =
    | Continue(out: seq<Out>, next: Calculator)
    | Stop(out: seq<Out>, status: Status)

  const GoodbyeText: string := "Exiting calculator. Goodbye!"
  const PromptText: string := "\nEnter command: "
  const MenuText: string :=
    "\nSimple Calculator\n"
    + "Available commands:\n"
    + "add [a] [b] - Adds two numbers\n"
    + "sub [a] [b] - Subtracts second number from first\n"
    + "mul [a] [b] - Multiplies two numbers\n"
    + "div [a] [b] - Divides first number by second\n"
    + "exit - Exit the calculator\n"

  /** A line after which the loop goes round again: it has a token, and its
      first token is not `exit`. */
  predicate Continues(line: string) {
    !AllSpace(line) && !IsExitLine(line)
  }

  /** One iteration of the `while True` body on the line `line`. */
  function Cycle(calculator: Calculator, line: string, num: string -> Option<real>): (s: Step)
    ensures s.Continue? <==> Continues(line)
    ensures s.Stop? ==> s.status != InputExhausted
    ensures s.Stop? ==> (s.status == Exited <==> IsExitLine(line))
    ensures s.Stop? && s.status == Exited ==> s.out == [Goodbye]
    ensures s.Stop? && s.status == Crashed ==> s.out == []
    ensures s.Continue? ==> |s.out| > 0 && (s.out[|s.out| - 1].Result? || s.out[|s.out| - 1] == UnknownCommand)
    // a rejected line prints its diagnostic and then, because `None` selects
    // no operation, the unknown-command message as well
    ensures ParseInput(line, num).Returned? && ParseInput(line, num).printed.Some? ==>
      s.out == [Diagnostic(ParseInput(line, num).printed.value), UnknownCommand]
    ensures s.Continue? && s.out[|s.out| - 1].Result? ==>
      exists op :: Words(line)[0] == Keyword(op) && s.next == Calculator(Some(op))
    // a line that prints no result leaves the calculator as it was
    ensures s.Continue? && s.out[|s.out| - 1] == UnknownCommand ==> s.next == calculator
    // a well-formed line with an operation keyword prints that operation's result
    ensures var ws := Words(line);
      |ws| >= 3 && num(ws[1]).Some? && num(ws[2]).Some? && GetStrategy(Some(ws[0])).Some? ==>
        s.out == [Result(Execute(GetStrategy(Some(ws[0])).value, num(ws[1]).value, num(ws[2]).value))]
    // and with any other keyword but `exit`, the unknown-command message
    ensures var ws := Words(line);
      |ws| >= 3 && num(ws[1]).Some? && num(ws[2]).Some? && GetStrategy(Some(ws[0])).None? && ws[0] != Exit ==>
        s.out == [UnknownCommand]
  {
    match ParseInput(line, num)
    case IndexError => Stop([], Crashed)
    case Returned(printed, command, a, b) =>
      var shown := if printed.Some? then [Diagnostic(printed.value)] else [];
      if command == Some(Exit) then
        Stop(shown + [Goodbye], Exited)
      else
        match GetStrategy(command)
        case Some(op) =>
          var next := SetStrategy(calculator, op);
          Continue(shown + [Result(Calculate(next, a.value, b.value))], next)
        case None =>
          Continue(shown + [UnknownCommand], calculator)
  }

  /** The `while True` loop over the remaining input lines. */
  function Loop(calculator: Calculator, lines: seq<string>, num: string -> Option<real>): (s: Session)
    ensures s.consumed <= |lines|
    ensures s.status == InputExhausted ==> s.consumed == |lines|
    ensures |s.trace| > 0 && s.trace[0] == Prompt
    ensures s.status == Exited ==> s.trace[|s.trace| - 1] == Goodbye
    decreases |lines|
  {
    if |lines| == 0 then
      Session([Prompt], InputExhausted, 0)
    else
      match Cycle(calculator, lines[0], num)
      case Stop(out, status) =>
        Session([Prompt] + out, status, 1)
      case Continue(out, next) =>
        var rest := Loop(next, lines[1..], num);
        Session([Prompt] + out + rest.trace, rest.status, 1 + rest.consumed)
  }

  /** `repl()` on the lines the user types, in order. */
  function Run(lines: seq<string>, num: string -> Option<real>): (s: Session)
    ensures |s.trace| > 1 && s.trace[0] == Menu && s.trace[1] == Prompt
    ensures s.status == Exited ==> s.trace[|s.trace| - 1] == Goodbye
    ensures s.status == InputExhausted ==> s.consumed == |lines|
  {
    var s := Loop(Calculator(None), lines, num);
    Session([Menu] + s.trace, s.status, s.consumed)
  }

  /** The console output of one line, as the loop would print it after any
      history. */
  function Reply(line: string, num: string -> Option<real>): seq<Out> {
    Cycle(Calculator(None), line, num).out
  }

  /** The console output of a run of lines that all continue: a prompt and the
      reply of each line, independently of the others. */
  function Transcript(lines: seq<string>, num: string -> Option<real>): seq<Out> {
    if |lines| == 0 then [] else [Prompt] + Reply(lines[0], num) + Transcript(lines[1..], num)
  }

  /** The characters a console message writes. Every `print` ends its text
      with a line break; the prompt `input` writes does not, so the user types
      on the prompt's line. A result is written behind `Result: `. */
  function Render(o: Out, show: real -> string): (r: string)
    ensures |r| > 0
    ensures r[|r| - 1] == '\n' <==> o != Prompt
    ensures o.Result? ==> "Result: " <= r
  {
    match o
    case Menu => MenuText
    case Prompt => PromptText
    case Diagnostic(InvalidInput) => InvalidInputText + "\n"
    case Diagnostic(InvalidNumbers) => InvalidNumbersText + "\n"
    case UnknownCommand => UnknownCommandText + "\n"
    case Result(Num(x)) => "Result: " + show(x) + "\n"
    case Result(Text(t)) => "Result: " + t + "\n"
    case Goodbye => GoodbyeText + "\n"
  }

  // ---------------------------------------------------------------------
  // Properties

  /** A session over lines that all continue runs into the end of input. */
  lemma {:induction false} AllContinueExhausts(calculator: Calculator, lines: seq<string>, num: string -> Option<real>)
    requires forall j :: 0 <= j < |lines| ==> Continues(lines[j])
    ensures Loop(calculator, lines, num).status == InputExhausted
    decreases |lines|
  {
    if |lines| > 0 {
      var rest := lines[1..];
      assert Continues(lines[0]);
      LoopOnContinue(calculator, lines, num);
      forall j | 0 <= j < |rest|
        ensures Continues(rest[j])
      {
        assert rest[j] == lines[j + 1];
      }
      AllContinueExhausts(Cycle(calculator, lines[0], num).next, rest, num);
    }
  }

  /** A session that runs into the end of input read only lines that
      continue. */
  lemma {:induction false} ExhaustedMeansAllContinue(calculator: Calculator, lines: seq<string>, num: string -> Option<real>)
    requires Loop(calculator, lines, num).status == InputExhausted
    ensures forall j :: 0 <= j < |lines| ==> Continues(lines[j])
    decreases |lines|
  {
    if |lines| > 0 {
      if !Continues(lines[0]) {
        LoopOnStop(calculator, lines, num);
        assert false;
      }
      var rest := lines[1..];
      LoopOnContinue(calculator, lines, num);
      ExhaustedMeansAllContinue(Cycle(calculator, lines[0], num).next, rest, num);
      forall j | 0 <= j < |lines|
        ensures Continues(lines[j])
      {
        if j > 0 {
          assert lines[j] == rest[j - 1];
        }
      }
    }
  }

  /** The session runs into the end of input exactly when every line
      continues. */
  lemma ExhaustedIffAllContinue(calculator: Calculator, lines: seq<string>, num: string -> Option<real>)
    ensures Loop(calculator, lines, num).status == InputExhausted <==>
      forall j :: 0 <= j < |lines| ==> Continues(lines[j])
  {
    if Loop(calculator, lines, num).status == InputExhausted {
      ExhaustedMeansAllContinue(calculator, lines, num);
    }
    if forall j :: 0 <= j < |lines| ==> Continues(lines[j]) {
      AllContinueExhausts(calculator, lines, num);
    }
  }

  /** Every line the session reads before its last one continues. */
  lemma {:induction false} ReadLinesContinue(calculator: Calculator, lines: seq<string>, num: string -> Option<real>)
    ensures forall j :: 0 <= j < Loop(calculator, lines, num).consumed - 1 ==> Continues(lines[j])
    decreases |lines|
  {
    if |lines| > 0 && Continues(lines[0]) {
      var next := Cycle(calculator, lines[0], num).next;
      var rest := lines[1..];
      LoopOnContinue(calculator, lines, num);
      ReadLinesContinue(next, rest, num);
      assert forall j :: 1 <= j < |lines| ==> lines[j] == rest[j - 1];
    } else if |lines| > 0 {
      LoopOnStop(calculator, lines, num);
    }
  }

  /** A session that does not run out of input ends on the last line it read,
      which does not continue: by `exit` if it is an `exit` line, by the crash
      if it is blank. */
  lemma {:induction false} EndsOnLastLineRead(calculator: Calculator, lines: seq<string>, num: string -> Option<real>)
    ensures var s := Loop(calculator, lines, num);
      s.status != InputExhausted ==>
        && 0 < s.consumed <= |lines|
        && !Continues(lines[s.consumed - 1])
        && (s.status == Exited <==> IsExitLine(lines[s.consumed - 1]))
    decreases |lines|
  {
    if |lines| > 0 && Continues(lines[0]) {
      var next := Cycle(calculator, lines[0], num).next;
      var rest := lines[1..];
      LoopOnContinue(calculator, lines, num);
      EndsOnLastLineRead(next, rest, num);
      var k := Loop(next, rest, num).consumed;
      if 0 < k {
        assert lines[k] == rest[k - 1];
      }
    } else if |lines| > 0 {
      LoopOnStop(calculator, lines, num);
    }
  }

  /** One turn of the loop on a first line that continues. */
  lemma LoopOnContinue(calculator: Calculator, lines: seq<string>, num: string -> Option<real>)
    requires |lines| > 0 && Continues(lines[0])
    ensures var c := Cycle(calculator, lines[0], num);
      var rest := Loop(c.next, lines[1..], num);
      Loop(calculator, lines, num) == Session([Prompt] + c.out + rest.trace, rest.status, 1 + rest.consumed)
  {
  }

  /** The last turn of the loop, on a first line that does not continue. */
  lemma LoopOnStop(calculator: Calculator, lines: seq<string>, num: string -> Option<real>)
    requires |lines| > 0 && !Continues(lines[0])
    ensures var c := Cycle(calculator, lines[0], num);
      Loop(calculator, lines, num) == Session([Prompt] + c.out, c.status, 1)
  {
  }

  /** The calculator carried from one iteration to the next never shows in the
      output: the strategy is overwritten before every use. */
  lemma CycleIgnoresCalculator(c1: Calculator, c2: Calculator, line: string, num: string -> Option<real>)
    ensures Cycle(c1, line, num).out == Cycle(c2, line, num).out
    ensures Cycle(c1, line, num).Stop? ==> Cycle(c1, line, num) == Cycle(c2, line, num)
  {
  }

  /** A whole session does not depend on the calculator it starts with. */
  lemma {:induction false} LoopIgnoresCalculator(c1: Calculator, c2: Calculator, lines: seq<string>, num: string -> Option<real>)
    ensures Loop(c1, lines, num) == Loop(c2, lines, num)
    decreases |lines|
  {
    if |lines| > 0 {
      CycleIgnoresCalculator(c1, c2, lines[0], num);
      match Cycle(c1, lines[0], num)
      case Stop(_, _) =>
      case Continue(_, n1) =>
        var n2 := Cycle(c2, lines[0], num).next;
        LoopIgnoresCalculator(n1, n2, lines[1..], num);
    }
  }

  /** Each line's output depends only on that line: a session over lines that
      all continue prints their replies one after the other, then carries on
      as a fresh session over the rest. */
  lemma {:induction false} LoopIsTranscript(calculator: Calculator, lines: seq<string>, rest: seq<string>, num: string -> Option<real>)
    requires forall j :: 0 <= j < |lines| ==> Continues(lines[j])
    ensures Loop(calculator, lines + rest, num).trace == Transcript(lines, num) + Loop(Calculator(None), rest, num).trace
    ensures Loop(calculator, lines + rest, num).status == Loop(Calculator(None), rest, num).status
    ensures Loop(calculator, lines + rest, num).consumed == |lines| + Loop(Calculator(None), rest, num).consumed
    decreases |lines|
  {
    if |lines| == 0 {
      assert lines + rest == rest;
      LoopIgnoresCalculator(calculator, Calculator(None), rest, num);
    } else {
      var all := lines + rest;
      assert all[0] == lines[0];
      assert all[1..] == lines[1..] + rest;
      assert Continues(lines[0]);
      var c := Cycle(calculator, lines[0], num);
      LoopOnContinue(calculator, all, num);
      CycleIgnoresCalculator(calculator, Calculator(None), lines[0], num);
      forall j | 0 <= j < |lines[1..]|
        ensures Continues(lines[1..][j])
      {
        assert lines[1..][j] == lines[j + 1];
      }
      LoopIsTranscript(c.next, lines[1..], rest, num);
      var t := Transcript(lines[1..], num);
      var r := Loop(Calculator(None), rest, num);
      var tail := Loop(c.next, lines[1..] + rest, num);
      assert tail.trace == t + r.trace;
      assert Loop(calculator, all, num).trace == [Prompt] + c.out + tail.trace;
      assert Reply(lines[0], num) == c.out;
      assert Transcript(lines, num) == [Prompt] + Reply(lines[0], num) + t;
      SeqAssociative([Prompt] + c.out, t, r.trace);
    }
  }

  /** A line written from an operation's keyword and two numeric operands
      prints exactly that operation's result, whatever the calculator held,
      and leaves the operation set.
      The proof is not by induction; `{:induction false}` keeps Dafny from
      adding induction hypotheses over the sequence arguments, which only
      slow it down. */
  lemma {:induction false} CommandLineReply(calculator: Calculator, op: Operation, ts: seq<string>, num: string -> Option<real>)
    requires forall i :: 0 <= i < |ts| ==> IsToken(ts[i])
    requires |ts| >= 3 && ts[0] == Keyword(op)
    requires num(ts[1]).Some? && num(ts[2]).Some?
    ensures Cycle(calculator, Join(ts), num)
      == Continue([Result(Execute(op, num(ts[1]).value, num(ts[2]).value))], Calculator(Some(op)))
  {
    ParseOfJoin(ts, num);
    SelectorRoundTrip(Some(ts[0]), op);
  }

  /** A line written from an `exit` token and anything after it ends the
      session with the farewell.
      The proof is not by induction; `{:induction false}` keeps Dafny from
      adding induction hypotheses over the sequence arguments, which only
      slow it down. */
  lemma {:induction false} ExitLineStops(calculator: Calculator, ts: seq<string>, num: string -> Option<real>)
    requires forall i :: 0 <= i < |ts| ==> IsToken(ts[i])
    requires |ts| >= 1 && ts[0] == Exit
    ensures Cycle(calculator, Join(ts), num) == Stop([Goodbye], Exited)
  {
    WordsOfJoin(ts);
  }

  /** Running the same command twice prints the same reply twice. */
  lemma SameLineTwice(calculator: Calculator, line: string, num: string -> Option<real>)
    requires Continues(line)
    ensures var r := Reply(line, num);
      Loop(calculator, [line, line], num).trace == [Prompt] + r + [Prompt] + r + [Prompt]
  {
    var r := Reply(line, num);
    var first := Cycle(calculator, line, num);
    var second := Cycle(first.next, line, num);
    CycleIgnoresCalculator(calculator, Calculator(None), line, num);
    CycleIgnoresCalculator(first.next, Calculator(None), line, num);
    assert [line, line][0] == line && [line, line][1..] == [line];
    assert [line][0] == line && [line][1..] == [];
    LoopOnContinue(first.next, [line], num);
    LoopOnContinue(calculator, [line, line], num);
    assert first.out == r && second.out == r;
    assert Loop(second.next, [], num).trace == [Prompt];
    calc {
      Loop(calculator, [line, line], num).trace;
      [Prompt] + r + Loop(first.next, [line], num).trace;
      [Prompt] + r + ([Prompt] + r + [Prompt]);
      { SeqAssociative([Prompt] + r, [Prompt] + r, [Prompt]); }
      [Prompt] + r + ([Prompt] + r) + [Prompt];
      { SeqAssociative([Prompt] + r, [Prompt], r); }
      [Prompt] + r + [Prompt] + r + [Prompt];
    }
  }

  /** The session ends at the first `exit` line when no blank line comes
      before it, after printing the farewell. */
  lemma StopsAtFirstExit(lines: seq<string>, i: nat, num: string -> Option<real>)
    requires i < |lines| && IsExitLine(lines[i])
    requires forall j :: 0 <= j < i ==> Continues(lines[j])
    ensures var s := Run(lines, num);
      s.status == Exited && s.consumed == i + 1 && s.trace[|s.trace| - 1] == Goodbye
  {
    var s := Loop(Calculator(None), lines, num);
    ExhaustedIffAllContinue(Calculator(None), lines, num);
    ReadLinesContinue(Calculator(None), lines, num);
    EndsOnLastLineRead(Calculator(None), lines, num);
    assert !Continues(lines[i]);
    assert s.status != InputExhausted;
    var k := s.consumed - 1;
    assert !Continues(lines[k]);
    assert k == i;
  }
}
