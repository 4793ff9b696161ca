# Simple calculator: a Dafny model

`main.py` is a console calculator. It reads lines such as `add 2 3` or
`div 5 0` and splits each one into a command and two numbers. The command
selects one of four operation strategies through a factory, a `Calculator`
object runs the selected strategy, and the result is printed. The loop ends
when the first word of a line is `exit`. A blank line or the end of input
ends it with an exception.

This project models that core as pure functions over immutable data:

- `options.dfy`: `Option`, standing for Python's `None`.
- `tokens.dfy`: `str.strip().split()` over Python's whitespace characters
  (`str.isspace`).
- `operations.dfy`: the four strategies as one closed datatype `Operation`,
  their `execute` (`Execute`), `OperationFactory.get_strategy`
  (`GetStrategy`), and `Calculator` with `set_strategy` and `calculate`.
- `parsing.dfy`: `parse_input`. The result is either the returned triple
  together with the diagnostic printed before it, or the `IndexError` that a
  blank line raises.
- `repl.dfy`: one pass through the `while True` body (`Cycle`), the loop as a
  fold over the input lines (`Loop`), and `repl` itself (`Run`). The result
  is a trace of console messages plus the way the session ended: by `exit`,
  by the crash on a blank line, or by running out of input.
- `scenarios.dfy`: a complete four-line session, worked out end to end.

Numbers are Dafny `real`, an idealisation of Python `float`. Python's
`float()` is a parameter `num: string -> Option<real>`, so any conversion
can be supplied. Every property holds for every `num` that meets the
hypotheses of its lemma. Most lemmas have no hypothesis on `num`; the
examples and the worked session fix what `float` gives for the digits they
use. Number formatting (`str` of a float) is likewise a parameter `show` of `Render`.

Two behaviours of the code are easy to miss:

- A blank or all-whitespace line does not count as "too few tokens".
  `tokens[0]` is evaluated on an empty list, which raises `IndexError` and
  ends the program (main.py:78-79). The model gives this the parse outcome
  `IndexError` and the session status `Crashed`.
- A rejected line does not skip dispatch. `parse_input` returns `None` as
  the command, the factory maps `None` to no strategy, and the line prints
  its diagnostic followed by "Unknown command. Please try again."
  (main.py:100, 107, 113-114).

## Model

| member | source | states |
|---|---|---|
| Tokens.LeadingWord | main.py:78 | the first word of a line is a whitespace-free prefix of it, ended by whitespace or by the end of the line |
| Tokens.Words | main.py:78 | `split()` yields only non-empty, whitespace-free tokens |
| Tokens.WordsOfSep | main.py:78 | whitespace separates tokens: cut at any whitespace character, a line's tokens are those before it followed by those after it, so a run of whitespace acts as a single separator and no token spans whitespace |
| Tokens.SpaceCharacters | main.py:78 | the whitespace that `strip()` and `split()` use (`IsSpace`) is exactly the 29 characters of Python's `str.isspace`, listed one by one |
| Tokens.Strip | main.py:78 | `strip()` returns a slice of the line with whitespace only before and after it, and no whitespace at either end |
| Tokens.Tokenize | main.py:78 | `strip().split()` gives the same tokens as `split()` alone |
| Tokens.WordsOfStrip | main.py:78 | stripping first does not change the token list |
| Tokens.WordsOfTrimLeft | main.py:78 | leading whitespace does not change the tokens |
| Tokens.WordsOfTrimRight | main.py:78 | trailing whitespace does not change the tokens |
| Tokens.WordsOfSnocSpace | main.py:78 | one trailing whitespace character does not change the tokens |
| Tokens.SpaceThen | main.py:78 | one leading whitespace character does not change the tokens |
| Tokens.TokenThen | main.py:78 | a token followed by whitespace or by the end of the line is the first token read |
| Tokens.LeadingWordOf | main.py:78 | a whitespace-free word followed by whitespace or the line end is read as exactly that word |
| Tokens.WordsOfJoin | main.py:78 | splitting is inverse to joining tokens with blanks: `Words(Join(ts)) == ts` |
| Tokens.WordsKeepNonSpace | main.py:78 | splitting drops only whitespace: the tokens concatenated are the line's non-whitespace characters, in order |
| Tokens.NonSpaceOfSpaceFree | main.py:78 | a token loses nothing when whitespace is dropped |
| Tokens.NonSpaceAppend | main.py:78 | dropping whitespace distributes over concatenation |
| Tokens.NoWordsIffBlank | main.py:78-79 | a line has no tokens exactly when it is all whitespace, which is the case in which `tokens[0]` fails |
| Tokens.TrimLeftShape | main.py:78 | stripping the left end removes exactly a maximal whitespace prefix |
| Tokens.TrimRightShape | main.py:78 | stripping the right end removes exactly a maximal whitespace suffix |
| Tokens.StripShape | main.py:78 | `strip()` keeps the slice between the maximal whitespace prefix and suffix |
| Tokens.StripIsSlice | main.py:78 | `strip()` returns a slice of the line with only whitespace around it and none at its ends |
| Operations.Execute | main.py:12-32 | each numeric result means what its operation should. Addition, subtraction and division are stated through their inverse operation. Multiplication is stated as the product itself. The result is the division-by-zero text exactly for `div` with divisor 0 |
| Operations.GetStrategy | main.py:37-47 | an operation is returned exactly for the four keywords, each for its own keyword; `None` is returned for any other string and for a missing command |
| Operations.SetStrategy | main.py:55-56 | after `set_strategy(op)`, the calculator's strategy is `op` |
| Operations.Calculate | main.py:59-63 | `calculate` delegates to the strategy that is set, and returns the unknown-command text when none is set |
| Operations.SelectorRoundTrip | main.py:37-47 | the factory inverts `Keyword`: it selects `op` exactly for `op`'s keyword |
| Operations.SelectorDomain | main.py:37-47 | the factory answers for exactly four strings |
| Operations.SelectorRejects | main.py:37-47 | `None`, `exit`, the empty string and keywords written in other cases select nothing |
| Operations.DivisionGuard | main.py:28-32 | division yields the error text when the divisor is 0 and the quotient otherwise, so it never faults |
| Operations.CalculateAfterSet | main.py:55-61 | after `set_strategy(op)`, `calculate` is `op.execute`, whatever strategy was set before |
| Parsing.ParseInput | main.py:76-91 | blank line: `IndexError`. Fewer than 3 tokens and not `exit`: the invalid-input diagnostic and `(None, None, None)`. First token `exit`: `("exit", None, None)`. Otherwise: the first token with both converted operands, or the invalid-numbers diagnostic when a conversion fails. Every outcome is one of these triple shapes |
| Parsing.ExitIgnoresRest | main.py:79-91 | an `exit` line parses to `("exit", None, None)` whatever follows, and no conversion is consulted |
| Parsing.OnlyOperandsConverted | main.py:84-86 | only tokens 2 and 3 are ever passed to `float` |
| Parsing.ExtraTokensIgnored | main.py:82-91 | tokens after the third (after `exit`, for an exit line) do not change the parse |
| Parsing.ParseOfJoin | main.py:78-90 | parsing inverts writing a command: a command other than `exit` with two convertible operand tokens, joined by blanks, parses back to the command and both converted operands, whatever tokens follow |
| Parsing.ParseAddExample | main.py:76-90 | `add 2 3` parses to `("add", 2.0, 3.0)` |
| Parsing.ParseExitExample | main.py:79-91 | `exit` parses to `("exit", None, None)` |
| Parsing.ParseExitNowExample | main.py:79-91 | `exit now` parses to `("exit", None, None)` |
| Parsing.ParseTooFewExample | main.py:79-81 | `add 2` is rejected with the invalid-input diagnostic |
| Parsing.ParseNonNumericExample | main.py:84-89 | `add a b` is rejected with the invalid-numbers diagnostic |
| Repl.Cycle | main.py:99-114 | one pass of the loop continues exactly when the line has a first token and that token is not `exit`. An `exit` line prints the farewell and stops; a blank line crashes with no output. A rejected line prints its diagnostic and then the unknown-command text. A well-formed line prints the selected operation's result, or the unknown-command text for an unknown keyword. A printed result was made by the operation its first token names, and that operation is kept in the calculator; a line that prints no result leaves the calculator as it was |
| Repl.Render | main.py:66-114 | every message written by `print` ends with a line break, and only the prompt written by `input` does not; a result is written after `Result: ` |
| Repl.Loop | main.py:98-114 | the loop reads at most the lines given, reads all of them if it runs out of input, writes a prompt first, and writes the farewell last when it ends by `exit` |
| Repl.Run | main.py:93-114 | the menu comes first, then the first prompt; an `exit` ending prints the farewell last |
| Repl.ExhaustedIffAllContinue | main.py:98-104 | the session runs out of input exactly when no line is blank and no line's first word is `exit` |
| Repl.AllContinueExhausts | main.py:98-104 | when no line is blank and no line's first word is `exit`, the session runs out of input |
| Repl.ExhaustedMeansAllContinue | main.py:98-104 | when the session runs out of input, every line it read went round the loop |
| Repl.ReadLinesContinue | main.py:98-114 | every line read before the last one went round the loop again |
| Repl.EndsOnLastLineRead | main.py:99-104 | a session that does not run out of input ends on the last line it read; that line ends it by `exit` exactly when it is an `exit` line, and by the crash otherwise |
| Repl.LoopOnContinue | main.py:98-114 | one turn on a continuing line: a prompt, that line's output, then the loop on the rest with the updated calculator |
| Repl.LoopOnStop | main.py:99-104 | one turn on a stopping line: a prompt, that line's output, and the end of the session after one line |
| Repl.CycleIgnoresCalculator | main.py:107-114 | a line's output does not depend on the calculator the previous lines left, because the strategy is overwritten before every use |
| Repl.LoopIgnoresCalculator | main.py:95-114 | a whole session does not depend on the calculator it starts with |
| Repl.LoopIsTranscript | main.py:98-114 | over lines that all continue, the trace is each line's own reply in turn, followed by a fresh session on the rest |
| Repl.CommandLineReply | main.py:100-112 | a line made of an operation's keyword and two numeric operands prints exactly that operation's result on them and leaves that operation set, whatever the calculator held |
| Repl.ExitLineStops | main.py:100-104 | a line whose first token is `exit` prints the farewell and ends the session, whatever follows it |
| Repl.SameLineTwice | main.py:98-114 | the same command entered twice prints the same reply twice |
| Repl.StopsAtFirstExit | main.py:102-104 | with no blank line before it, the first `exit` line ends the session; it is the last line read and the farewell is printed last |
| Scenarios.AddLine | main.py:99-112 | a line with tokens `add 2 3` replies with the result 5.0 and keeps `add` as the strategy |
| Scenarios.DivLine | main.py:28-32 | a line with tokens `div 5 0` replies with the division-by-zero text as its result |
| Scenarios.FooLine | main.py:107-114 | a line with tokens `foo 1 2` prints the unknown-command text and leaves the calculator unchanged |
| Scenarios.ExitLine | main.py:102-104 | a line with the single token `exit` prints the farewell and ends the session |
| Scenarios.FourTurns | main.py:98-114 | three continuing lines and then a stopping line make a session of four turns |
| Scenarios.AddWords | main.py:78 | `add 2 3` splits into `add`, `2`, `3` |
| Scenarios.DivWords | main.py:78 | `div 5 0` splits into `div`, `5`, `0` |
| Scenarios.FooWords | main.py:78 | `foo 1 2` splits into `foo`, `1`, `2` |
| Scenarios.ExitWords | main.py:78 | `exit` splits into `exit` |
| Scenarios.SessionOfTokens | main.py:93-114 | any four lines with the session's tokens produce its trace |
| Scenarios.EndToEnd | main.py:93-114 | the session `add 2 3`, `div 5 0`, `foo 1 2`, `exit` writes the menu, then replies with the result 5.0, the division-by-zero text as a result, the unknown-command message and the farewell, each after a prompt. It ends by `exit` after reading four lines |
| Scenarios.RenderedMessages | main.py:99-114 | the characters printed for a division by zero, an invalid line, an unknown command and the farewell |

## Left out

- Floating point: `+`, `-`, `*` and `/` are exact real arithmetic. Rounding,
  overflow to infinity and NaN are not modelled.
- `float()`'s string grammar (`inf`, `nan`, exponents, underscores) is not
  modelled. It is the parameter `num`, and every property holds for every
  `num` that meets the hypotheses of its lemma.
- How a number is printed (`str` of a float, such as `5.0`) is the parameter
  `show` of `Render`.
- Console I/O is a trace of message tags. `input` and `print` are not
  modelled. The prompt and the menu appear as the tags `Prompt` and `Menu`.
  Their texts are the constants `PromptText` and `MenuText`, and `Render`
  gives the characters of every message.
- Exceptions that escape `repl` are not modelled beyond how the session
  ends. This covers the `IndexError` of a blank line and the `EOFError` of
  `input` at end of input. They become the statuses `Crashed` and
  `InputExhausted`, with no traceback text.
- The abstract base class `OperationStrategy` (main.py:6-9) and
  instantiating strategy objects are not modelled. The four strategies are
  the closed datatype `Operation`.
- `Calculator.calculate` with no strategy set (main.py:62-63) cannot occur
  in `repl`, because it always sets a strategy first. It is modelled in
  `Calculate` but not reached from `Cycle`.
