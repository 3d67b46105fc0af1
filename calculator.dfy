/** The `calculate` tool: basic arithmetic on two numbers, with a guard
    against division by zero. */
module Calculator {
  import opened Envelope
  import opened Text

  const ToolName: string := "calculate"

  /** The values the tool's `operation` argument is validated against. */
  datatype Op = Add | Subtract | Multiply | Divide

  /** The identifier of each operation, as the argument schema lists it. */
  function OpName(op: Op): string
  {
    match op
    case Add => "add"
    case Subtract => "subtract"
    case Multiply => "multiply"
    case Divide => "divide"
  }

  /** The operation an identifier names, if it is one of the four. */
  function ParseOp(s: string): (r: Option<Op>)
    ensures r.Some? ==> OpName(r.value) == s
    ensures r.None? ==> forall op: Op :: OpName(op) != s
  {
    if s == "add" then Some(Add)
    else if s == "subtract" then Some(Subtract)
    else if s == "multiply" then Some(Multiply)
    else if s == "divide" then Some(Divide)
    else None
  }

  /** The four identifiers are distinct: each parses back to its operation. */
  lemma ParseOpName(op: Op)
    ensures ParseOp(OpName(op)) == Some(op)
  {
  }

  /** `getOperationSymbol`. The multiply and divide symbols are the source's
      own characters: "×" and "÷" read as UTF-8 bytes in a Thai code page,
      i.e. U+0E23 U+0097 and U+0E23 U+0E17. Any other string is its own symbol. */
  function OperationSymbol(operation: string): (r: string)
    ensures operation == "add" ==> r == "+"
    ensures operation == "subtract" ==> r == "-"
    ensures operation == "multiply" ==> r == "\U{0E23}\U{0097}"
    ensures operation == "divide" ==> r == "\U{0E23}\U{0E17}"
    ensures ParseOp(operation).None? ==> r == operation
  {
    if operation == "add" then "+"
    else if operation == "subtract" then "-"
    else if operation == "multiply" then "\U{0E23}\U{0097}"
    else if operation == "divide" then "\U{0E23}\U{0E17}"
    else operation
  }

  /** The four operations have four different symbols. */
  lemma SymbolsDistinct(p: Op, q: Op)
    requires p != q
    ensures OperationSymbol(OpName(p)) != OperationSymbol(OpName(q))
  {
  }

  const DivisionByZeroText: string := "Error: Division by zero is not allowed."

  function UnknownOperationText(operation: string): string
  {
    "Error: Unknown operation '" + operation + "'."
  }

  /** The success line `${a} ${symbol} ${b} = ${result}`: the first
      operand, the symbol, the second operand, and the result after an
      equals sign. */
  function Equation(fmt: NumFormat, a: real, symbol: string, b: real, result: real): (r: string)
    ensures |r| >= |fmt(a)| && r[..|fmt(a)|] == fmt(a)
    ensures |r| >= |fmt(result)| && r[|r| - |fmt(result)|..] == fmt(result)
  {
    fmt(a) + " " + symbol + " " + fmt(b) + " = " + fmt(result)
  }

  /** When neither the numbers' texts nor the symbol holds a space, the
      success line splits at its spaces into exactly five fields: the first
      operand, the symbol, the second operand, "=" and the result. */
  lemma EquationFields(fmt: NumFormat, a: real, symbol: string, b: real, result: real)
    requires ' ' !in fmt(a) && ' ' !in symbol && ' ' !in fmt(b) && ' ' !in fmt(result)
    ensures Split(Equation(fmt, a, symbol, b, result), ' ') == [fmt(a), symbol, fmt(b), "=", fmt(result)]
  {
    var rest := fmt(b) + [' '] + "=" + [' '] + fmt(result);
    assert " = " == [' '] + "=" + [' '];
    assert Equation(fmt, a, symbol, b, result) == fmt(a) + [' '] + (symbol + [' '] + rest);
    SplitAfter(fmt(a), ' ', symbol + [' '] + rest);
    SplitAfter(symbol, ' ', rest);
    SplitThree(fmt(b), ' ', "=", fmt(result));
  }

  /** The `calculate` handler. `operation` is the argument as the handler
      receives it; its default branch answers any string that is not one of
      the four identifiers. */
  method Calculate(fmt: NumFormat, operation: string, a: real, b: real) returns (e: Envelope)
    ensures operation == "add" ==> e == Success([Equation(fmt, a, "+", b, a + b)])
    ensures operation == "subtract" ==> e == Success([Equation(fmt, a, "-", b, a - b)])
    ensures operation == "multiply" ==>
      e == Success([Equation(fmt, a, OperationSymbol("multiply"), b, a * b)])
    ensures operation == "divide" && b != 0.0 ==>
      e == Success([Equation(fmt, a, OperationSymbol("divide"), b, a / b)])
    ensures operation == "divide" && b == 0.0 ==> e == Failure(DivisionByZeroText)
    ensures ParseOp(operation).None? ==> e == Failure(UnknownOperationText(operation))
    ensures e.isError <==> ParseOp(operation).None? || (operation == "divide" && b == 0.0)
    ensures ParseOp(operation).Some? ==> e != Failure(UnknownOperationText(operation))
  {
    var result: real;
    if operation == "add" {
      result := a + b;
    } else if operation == "subtract" {
      result := a - b;
    } else if operation == "multiply" {
      result := a * b;
    } else if operation == "divide" {
      if b == 0.0 {
        e := Failure(DivisionByZeroText);
        assert DivisionByZeroText[7] != UnknownOperationText(operation)[7];
        return;
      }
      result := a / b;
    } else {
      e := Failure(UnknownOperationText(operation));
      return;
    }
    e := Success([Equation(fmt, a, OperationSymbol(operation), b, result)]);
  }
}
