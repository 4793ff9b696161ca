/**
 `parse_input`: one input line to the triple `(command, a, b)`, printing a
 diagnostic when the line is rejected.

 Python's `float()` is not modelled; every function here takes it as a
 parameter `num`, an arbitrary partial conversion from a token to a number.
 */
module Parsing {
  import opened Options
  import opened Tokens

  const Exit: string := "exit"

  /** The two diagnostics `parse_input` prints before returning `None`s. */
  datatype Diagnostic = InvalidInput | InvalidNumbers

  const InvalidInputText: string := "Invalid input. Please enter a valid command."
  const InvalidNumbersText: string := "Invalid numbers. Please enter numeric values."

  /** What one call of `parse_input` does: either it raises `IndexError`
      (a blank line makes it index an empty token list), or it returns the
      triple after printing at most one diagnostic. */
  datatype Parsed =
    | IndexError
    | Returned(printed: Option<Diagnostic>, command: Option<string>, a: Option<real>, b: Option<real>)

  /** The shapes of triple `parse_input` can return: `(None, None, None)` after
      a diagnostic, `("exit", None, None)`, or a command with both operands. */
  predicate WellFormed(p: Parsed) {
    p.Returned? ==>
      && (p.command.None? <==> p.printed.Some?)
      && (p.command.None? || p.command.value == Exit ==> p.a.None? && p.b.None?)
      && (p.command.Some? && p.command.value != Exit ==> p.a.Some? && p.b.Some?)
  }

  /** A line whose first token is `exit`. */
  predicate IsExitLine(line: string) {
    var ts := Words(line);
    |ts| > 0 && ts[0] == Exit
  }

  /** `parse_input(line)`, with `float` given as `num`. */
  function ParseInput(line: string, num: string -> Option<real>): (p: Parsed)
    ensures WellFormed(p)
    ensures p.IndexError? <==> |Words(line)| == 0
    ensures p.IndexError? <==> AllSpace(line)
    ensures p.Returned? && p.command.Some? ==> p.command.value == Words(line)[0]
    ensures p.Returned? && p.command == Some(Exit) <==> IsExitLine(line)
    ensures p.Returned? && p.printed == Some(InvalidInput) <==>
      0 < |Words(line)| < 3 && Words(line)[0] != Exit
    ensures p.Returned? && p.printed == Some(InvalidNumbers) <==>
      |Words(line)| >= 3 && Words(line)[0] != Exit
      && (num(Words(line)[1]).None? || num(Words(line)[2]).None?)
    ensures p.Returned? && p.a.Some? ==>
      |Words(line)| >= 3 && p.a == num(Words(line)[1]) && p.b == num(Words(line)[2])
  {
    NoWordsIffBlank(line);
    var tokens := Tokenize(line);
    if |tokens| == 0 then
      // `tokens[0]` is evaluated before the length test can reject the line
      IndexError
    else if |tokens| < 3 && tokens[0] != Exit then
      Returned(Some(InvalidInput), None, None, None)
    else
      var command := tokens[0];
      if command != Exit then
        match (num(tokens[1]), num(tokens[2]))
        case (Some(a), Some(b)) => Returned(None, Some(command), Some(a), Some(b))
        case _ => Returned(Some(InvalidNumbers), None, None, None)
      else
        Returned(None, Some(command), None, None)
  }

  // ---------------------------------------------------------------------
  // Properties

  /** An `exit` line parses to `("exit", None, None)` however many tokens
      follow, and no number conversion is consulted. */
  lemma ExitIgnoresRest(line: string, num1: string -> Option<real>, num2: string -> Option<real>)
    requires IsExitLine(line)
    ensures ParseInput(line, num1) == ParseInput(line, num2) == Returned(None, Some(Exit), None, None)
  {
  }

  /** Only the second and third tokens are ever converted to numbers. */
  lemma OnlyOperandsConverted(line: string, num1: string -> Option<real>, num2: string -> Option<real>)
    requires |Words(line)| >= 3 ==>
      num1(Words(line)[1]) == num2(Words(line)[1]) && num1(Words(line)[2]) == num2(Words(line)[2])
    ensures ParseInput(line, num1) == ParseInput(line, num2)
  {
  }

  /** Tokens after the third (after the first, for `exit`) are ignored: a line
      written from a token list parses as the line written from its prefix.
      The proof is not by induction; `{:induction false}` keeps Dafny from
      adding induction hypotheses over the sequence arguments, which only
      slow it down. */
  lemma {:induction false} ExtraTokensIgnored(ts: seq<string>, extra: seq<string>, num: string -> Option<real>)
    requires forall i :: 0 <= i < |ts| ==> IsToken(ts[i])
    requires forall i :: 0 <= i < |extra| ==> IsToken(extra[i])
    requires |ts| >= 3 || (|ts| >= 1 && ts[0] == Exit)
    ensures ParseInput(Join(ts + extra), num) == ParseInput(Join(ts), num)
  {
    WordsOfJoin(ts);
    WordsOfJoin(ts + extra);
    assert (ts + extra)[0] == ts[0];
    if |ts| >= 3 {
      assert (ts + extra)[1] == ts[1];
      assert (ts + extra)[2] == ts[2];
    }
  }

  /** Parsing undoes writing a command: a command other than `exit` written
      with two operand tokens (and anything after them) parses back to the
      command and the two converted operands.
      The proof is not by induction; `{:induction false}` keeps Dafny from
      adding induction hypotheses over the sequence arguments, which only
      slow it down. */
  lemma {:induction false} ParseOfJoin(ts: seq<string>, num: string -> Option<real>)
    requires forall i :: 0 <= i < |ts| ==> IsToken(ts[i])
    requires |ts| >= 3 && ts[0] != Exit
    requires num(ts[1]).Some? && num(ts[2]).Some?
    ensures ParseInput(Join(ts), num) == Returned(None, Some(ts[0]), num(ts[1]), num(ts[2]))
  {
    WordsOfJoin(ts);
  }

  /** `add 2 3` parses to the command and both numbers. */
  lemma ParseAddExample(line: string, num: string -> Option<real>)
    requires line == "add 2 3"
    requires num("2") == Some(2.0) && num("3") == Some(3.0)
    ensures ParseInput(line, num) == Returned(None, Some("add"), Some(2.0), Some(3.0))
  {
    WordsOfJoin(["add", "2", "3"]);
    assert Join(["add", "2", "3"]) == line;
  }

  /** `exit` alone parses to `("exit", None, None)`. */
  lemma ParseExitExample(line: string, num: string -> Option<real>)
    requires line == "exit"
    ensures ParseInput(line, num) == Returned(None, Some(Exit), None, None)
  {
    WordsOfJoin(["exit"]);
    assert Join(["exit"]) == line;
  }

  /** `exit now` parses to `("exit", None, None)` as well. */
  lemma ParseExitNowExample(line: string, num: string -> Option<real>)
    requires line == "exit now"
    ensures ParseInput(line, num) == Returned(None, Some(Exit), None, None)
  {
    WordsOfJoin(["exit", "now"]);
    assert Join(["exit", "now"]) == line;
  }

  /** `add 2` is rejected for its token count. */
  lemma ParseTooFewExample(line: string, num: string -> Option<real>)
    requires line == "add 2"
    ensures ParseInput(line, num) == Returned(Some(InvalidInput), None, None, None)
  {
    WordsOfJoin(["add", "2"]);
    assert Join(["add", "2"]) == line;
  }

  /** `add a b` is rejected for its operands. */
  lemma ParseNonNumericExample(line: string, num: string -> Option<real>)
    requires line == "add a b"
    requires num("a") == None
    ensures ParseInput(line, num) == Returned(Some(InvalidNumbers), None, None, None)
  {
    WordsOfJoin(["add", "a", "b"]);
    assert Join(["add", "a", "b"]) == line;
  }
}
