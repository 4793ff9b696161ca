/**
 The four arithmetic operations, the keyword-to-operation factory and the
 calculator object that holds the operation currently in use.

 Operands are `real`: an idealisation of Python's `float` that ignores rounding,
 overflow to infinity and NaN. The abstract base class with four subclasses
 becomes one closed datatype with four variants.
 */
module Operations {
  import opened Options

  /** The closed set of operations (`AddStrategy` … `DivideStrategy`). */
  datatype Operation = Add | Sub | Mul | Div

  /** What an operation hands back: a number, or a message string in place of
      one (division by zero returns a string instead of raising). */
  datatype Value = Num(x: real) | Text(s: string)

  const DivisionByZeroText: string := "Error: Division by zero!"
  const UnknownCommandText: string := "Unknown command. Please try again."

  /** The keyword the factory associates with each operation. */
  function Keyword(op: Operation): string {
    match op
    case Add => "add"
    case Sub => "sub"
    case Mul => "mul"
    case Div => "div"
  }

  /** The mathematical meaning of each operation on divisors other than zero,
      stated independently of `Execute`. */
  ghost predicate Means(op: Operation, a: real, b: real, x: real) {
    match op
    case Add => x - a == b
    case Sub => x + b == a
    case Mul => x == a * b
    case Div => b != 0.0 && x * b == a
  }

  /** `execute(a, b)` of the four strategy classes. */
  function Execute(op: Operation, a: real, b: real): (v: Value)
    ensures v.Text? <==> op == Div && b == 0.0
    ensures v.Text? ==> v.s == DivisionByZeroText
    ensures v.Num? ==> Means(op, a, b, v.x)
  {
    match op
    case Add => Num(a + b)
    case Sub => Num(a - b)
    case Mul => Num(a * b)
    case Div => if b == 0.0 then Text(DivisionByZeroText) else Num(a / b)
  }

  /** `OperationFactory.get_strategy`: an operation for exactly the four
      keywords, compared case-sensitively; `None` for any other string and for
      a missing command. */
  function GetStrategy(command: Option<string>): (r: Option<Operation>)
    ensures r.Some? ==> command == Some(Keyword(r.value))
    ensures r.None? <==> command.None? || command.value !in {"add", "sub", "mul", "div"}
  {
    match command
    case None => None
    case Some(c) =>
      if c == "add" then Some(Add)
      else if c == "sub" then Some(Sub)
      else if c == "mul" then Some(Mul)
      else if c == "div" then Some(Div)
      else None
  }

  /** `Calculator`: the strategy currently set, if any. */
  datatype Calculator = Calculator(strategy: Option<Operation>)

  /** `Calculator.set_strategy`. */
  function SetStrategy(calculator: Calculator, op: Operation): (r: Calculator)
    ensures r.strategy == Some(op)
  {
    calculator.(strategy := Some(op))
  }

  /** `Calculator.calculate`: delegate to the strategy, or the fixed message
      when none is set. */
  function Calculate(calculator: Calculator, a: real, b: real): (v: Value)
    ensures calculator.strategy.None? ==> v == Text(UnknownCommandText)
    ensures calculator.strategy.Some? ==> v == Execute(calculator.strategy.value, a, b)
  {
    match calculator.strategy
    case None => Text(UnknownCommandText)
    case Some(op) => Execute(op, a, b)
  }

  // ---------------------------------------------------------------------
  // Properties

  /** The factory and the keywords are inverse: every operation is selected by
      its own keyword, and a selection succeeds only on one of those keywords. */
  lemma SelectorRoundTrip(command: Option<string>, op: Operation)
    ensures GetStrategy(Some(Keyword(op))) == Some(op)
    ensures GetStrategy(command) == Some(op) <==> command == Some(Keyword(op))
  {
    match op
    case Add =>
    case Sub =>
    case Mul =>
    case Div =>
  }

  /** The factory answers for exactly four strings. */
  lemma SelectorDomain(c: string)
    ensures GetStrategy(Some(c)).Some? <==> c in {"add", "sub", "mul", "div"}
  {
  }

  /** `exit`, the missing command and keywords in another case select nothing. */
  lemma SelectorRejects()
    ensures GetStrategy(None) == None
    ensures GetStrategy(Some("exit")) == None
    ensures GetStrategy(Some("Add")) == None
    ensures GetStrategy(Some("DIV")) == None
    ensures GetStrategy(Some("")) == None
  {
  }

  /** Division never faults: it yields the error text exactly when the divisor
      is zero and the quotient otherwise. */
  lemma DivisionGuard(a: real, b: real)
    ensures b == 0.0 ==> Execute(Div, a, b) == Text(DivisionByZeroText)
    ensures b != 0.0 ==> Execute(Div, a, b) == Num(a / b)
  {
  }

  /** After `set_strategy(op)`, `calculate` is `op.execute`, whatever strategy
      was set before. */
  lemma CalculateAfterSet(calculator: Calculator, op: Operation, a: real, b: real)
    ensures Calculate(SetStrategy(calculator, op), a, b) == Execute(op, a, b)
  {
  }
}
