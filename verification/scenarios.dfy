/**
 A worked session: `add 2 3`, `div 5 0`, `foo 1 2`, `exit`, with a number
 conversion that reads the digits used here the way `float` does.
 */
module Scenarios {
  import opened Options
  import opened Tokens
  import opened Operations
  import opened Parsing
  import opened Repl

  /** What `float` gives for the operand tokens of the session. */
  predicate ReadsDigits(num: string -> Option<real>) {
    && num("0") == Some(0.0)
    && num("1") == Some(1.0)
    && num("2") == Some(2.0)
    && num("3") == Some(3.0)
    && num("5") == Some(5.0)
  }

  lemma AddLine(calculator: Calculator, line: string, num: string -> Option<real>)
    requires Words(line) == ["add", "2", "3"]
    requires ReadsDigits(num)
    ensures Cycle(calculator, line, num) == Continue([Result(Num(5.0))], Calculator(Some(Add)))
  {
  }

  lemma DivLine(calculator: Calculator, line: string, num: string -> Option<real>)
    requires Words(line) == ["div", "5", "0"]
    requires ReadsDigits(num)
    ensures Cycle(calculator, line, num) == Continue([Result(Text(DivisionByZeroText))], Calculator(Some(Div)))
  {
  }

  lemma FooLine(calculator: Calculator, line: string, num: string -> Option<real>)
    requires Words(line) == ["foo", "1", "2"]
    requires ReadsDigits(num)
    ensures Cycle(calculator, line, num) == Continue([UnknownCommand], calculator)
  {
  }

  lemma ExitLine(calculator: Calculator, line: string, num: string -> Option<real>)
    requires Words(line) == ["exit"]
    ensures Cycle(calculator, line, num) == Stop([Goodbye], Exited)
  {
  }

  // The tokens of each session line are proved in a lemma of their own: a
  // string literal next to `Words` makes the verifier unroll both, and one
  // lemma holding all four lines costs many times what four separate ones do.

  lemma AddWords(line: string)
    requires line == "add 2 3"
    ensures Words(line) == ["add", "2", "3"]
  {
    WordsOfJoin(["add", "2", "3"]);
    assert Join(["add", "2", "3"]) == line;
  }

  lemma DivWords(line: string)
    requires line == "div 5 0"
    ensures Words(line) == ["div", "5", "0"]
  {
    WordsOfJoin(["div", "5", "0"]);
    assert Join(["div", "5", "0"]) == line;
  }

  lemma FooWords(line: string)
    requires line == "foo 1 2"
    ensures Words(line) == ["foo", "1", "2"]
  {
    WordsOfJoin(["foo", "1", "2"]);
    assert Join(["foo", "1", "2"]) == line;
  }

  lemma ExitWords(line: string)
    requires line == "exit"
    ensures Words(line) == ["exit"]
  {
    WordsOfJoin(["exit"]);
    assert Join(["exit"]) == line;
  }

  /** Four turns of the loop, the last of which ends the session. */
  lemma FourTurns(c0: Calculator, l0: string, l1: string, l2: string, l3: string,
                                     num: string -> Option<real>,
                                     o0: seq<Out>, c1: Calculator, o1: seq<Out>, c2: Calculator,
                                     o2: seq<Out>, c3: Calculator, o3: seq<Out>, status: Status)
    requires Cycle(c0, l0, num) == Continue(o0, c1)
    requires Cycle(c1, l1, num) == Continue(o1, c2)
    requires Cycle(c2, l2, num) == Continue(o2, c3)
    requires Cycle(c3, l3, num) == Stop(o3, status)
    ensures Loop(c0, [l0] + ([l1] + ([l2] + [l3])), num)
      == Session([Prompt] + o0 + ([Prompt] + o1 + ([Prompt] + o2 + ([Prompt] + o3))), status, 4)
  {
    var s2, s1, s0 := [l2] + [l3], [l1] + ([l2] + [l3]), [l0] + ([l1] + ([l2] + [l3]));
    assert s2[0] == l2 && s2[1..] == [l3];
    assert s1[0] == l1 && s1[1..] == s2;
    assert s0[0] == l0 && s0[1..] == s1;
    LoopOnStop(c3, [l3], num);
    LoopOnContinue(c2, s2, num);
    LoopOnContinue(c1, s1, num);
    LoopOnContinue(c0, s0, num);
  }

  lemma Reassemble<T>(s: seq<T>)
    requires |s| == 4
    ensures [s[0]] + ([s[1]] + ([s[2]] + [s[3]])) == s
  {
  }

  lemma SessionTrace()
    ensures [Menu] + ([Prompt] + [Result(Num(5.0))] + ([Prompt] + [Result(Text(DivisionByZeroText))]
              + ([Prompt] + [UnknownCommand] + ([Prompt] + [Goodbye]))))
      == [ Menu,
           Prompt, Result(Num(5.0)),
           Prompt, Result(Text(DivisionByZeroText)),
           Prompt, UnknownCommand,
           Prompt, Goodbye ]
  {
  }

  /** The session of `EndToEnd`, for any four lines with its tokens.
      The proof is not by induction; `{:induction false}` keeps Dafny from
      adding induction hypotheses over the sequence arguments, which only
      slow it down. */
  lemma {:induction false} SessionOfTokens(l0: string, l1: string, l2: string, l3: string, num: string -> Option<real>)
    requires Words(l0) == ["add", "2", "3"]
    requires Words(l1) == ["div", "5", "0"]
    requires Words(l2) == ["foo", "1", "2"]
    requires Words(l3) == ["exit"]
    requires ReadsDigits(num)
    ensures Run([l0] + ([l1] + ([l2] + [l3])), num) == Session(
      [ Menu,
        Prompt, Result(Num(5.0)),
        Prompt, Result(Text(DivisionByZeroText)),
        Prompt, UnknownCommand,
        Prompt, Goodbye ],
      Exited, 4)
  {
    var none, add, div := Calculator(None), Calculator(Some(Add)), Calculator(Some(Div));
    AddLine(none, l0, num);
    DivLine(add, l1, num);
    FooLine(div, l2, num);
    ExitLine(div, l3, num);
    FourTurns(none, l0, l1, l2, l3, num,
              [Result(Num(5.0))], add, [Result(Text(DivisionByZeroText))], div,
              [UnknownCommand], div, [Goodbye], Exited);
    SessionTrace();
  }

  /** The session prints the sum, the division-by-zero message, the
      unknown-command message and the farewell, in that order, and ends by
      `exit` after reading all four lines. */
  lemma EndToEnd(lines: seq<string>, num: string -> Option<real>)
    requires lines == ["add 2 3", "div 5 0", "foo 1 2", "exit"]
    requires ReadsDigits(num)
    ensures Run(lines, num) == Session(
      [ Menu,
        Prompt, Result(Num(5.0)),
        Prompt, Result(Text(DivisionByZeroText)),
        Prompt, UnknownCommand,
        Prompt, Goodbye ],
      Exited, 4)
  {
    AddWords(lines[0]);
    DivWords(lines[1]);
    FooWords(lines[2]);
    ExitWords(lines[3]);
    Reassemble(lines);
    SessionOfTokens(lines[0], lines[1], lines[2], lines[3], num);
  }

  /** The texts the console shows for a rejected line and for a division by
      zero. */
  lemma RenderedMessages(show: real -> string, a: real)
    ensures Render(Result(Execute(Div, a, 0.0)), show) == "Result: Error: Division by zero!\n"
    ensures Render(Diagnostic(InvalidInput), show) == "Invalid input. Please enter a valid command.\n"
    ensures Render(UnknownCommand, show) == "Unknown command. Please try again.\n"
    ensures Render(Goodbye, show) == "Exiting calculator. Goodbye!\n"
  {
    assert Execute(Div, a, 0.0) == Text(DivisionByZeroText);
  }
}
