/**
 * The two stateless lookup tables of the compiler: `parseOperator`, which
 * maps an operator or function name to its opcode (interpreter.js, lines
 * 181-220), and `precedence`, which ranks it (lines 264-290).
 */
module Operators {
  import opened Wrappers
  import opened Values

  /** The two errors `parseInput` can raise. */
  datatype CompileError = InvalidOperator | MismatchedBrackets

  /** The seventeen operator and function names the compiler accepts. */
  const OperatorNames: set<string> :=
    {"+", "-", "*", "/", "^",
     "sqrt", "sin", "cos", "tan", "arcsin", "arccos", "arctan", "log", "ln", "sinh", "cosh", "tanh"}

  function ParseOperator(name: string): (r: Result<Opcode, CompileError>)
    ensures r.Ok? <==> name in OperatorNames
    ensures r.Ok? ==> r.value.Binary? || r.value.Unary?
    ensures r.Err? ==> r.error == InvalidOperator
  {
    match name
    case "+" => Ok(Binary(Add))
    case "-" => Ok(Binary(Subtract))
    case "*" => Ok(Binary(Multiply))
    case "/" => Ok(Binary(Divide))
    case "^" => Ok(Binary(Power))
    case "sqrt" => Ok(Unary(Sqrt))
    case "sin" => Ok(Unary(Sin))
    case "cos" => Ok(Unary(Cos))
    case "tan" => Ok(Unary(Tan))
    case "arcsin" => Ok(Unary(Arcsin))
    case "arccos" => Ok(Unary(Arccos))
    case "arctan" => Ok(Unary(Arctan))
    case "log" => Ok(Unary(Log))
    case "ln" => Ok(Unary(Ln))
    case "sinh" => Ok(Unary(Sinh))
    case "cosh" => Ok(Unary(Cosh))
    case "tanh" => Ok(Unary(Tanh))
    case _ => Err(InvalidOperator)
  }

  /** Every other string, brackets included, falls to the default rank 0. */
  function Precedence(name: string): (r: nat)
    ensures r <= 4
    ensures r > 0 <==> name in OperatorNames
  {
    match name
    case "+" => 1
    case "-" => 1
    case "*" => 2
    case "/" => 2
    case "^" => 3
    case "sqrt" => 4
    case "sin" => 4
    case "cos" => 4
    case "tan" => 4
    case "arcsin" => 4
    case "arccos" => 4
    case "arctan" => 4
    case "log" => 4
    case "ln" => 4
    case "sinh" => 4
    case "cosh" => 4
    case "tanh" => 4
    case _ => 0
  }

  /** The precedence classes of the language: additive, multiplicative, power, named functions. */
  function Level(op: Opcode): nat
  {
    match op
    case Binary(b) => if b == Add || b == Subtract then 1 else if b == Multiply || b == Divide then 2 else 3
    case Unary(_) => 4
    case _ => 0
  }

  /** The written form of each operator opcode; the inverse of `ParseOperator`. */
  function Symbol(op: Opcode): string
  {
    match op
    case Binary(b) =>
      (match b
       case Add => "+"
       case Subtract => "-"
       case Multiply => "*"
       case Divide => "/"
       case Power => "^")
    case Unary(u) =>
      (match u
       case Sqrt => "sqrt"
       case Sin => "sin"
       case Cos => "cos"
       case Tan => "tan"
       case Arcsin => "arcsin"
       case Arccos => "arccos"
       case Arctan => "arctan"
       case Log => "log"
       case Ln => "ln"
       case Sinh => "sinh"
       case Cosh => "cosh"
       case Tanh => "tanh")
    case _ => ""
  }

  /** The two tables agree: a name that parses is ranked by the class of its opcode. */
  lemma {:induction false} PrecedenceMatchesOpcode(name: string)
    requires ParseOperator(name).Ok?
    ensures Precedence(name) == Level(ParseOperator(name).value)
  {
  }

  /** `ParseOperator` and `Symbol` are inverse: each operator opcode has exactly one name. */
  lemma {:induction false} ParseSymbol(op: Opcode, name: string)
    requires op.Binary? || op.Unary?
    ensures ParseOperator(Symbol(op)) == Ok(op)
    ensures ParseOperator(name) == Ok(op) ==> name == Symbol(op)
  {
  }

  predicate IsWhitespace(c: char)
  {
    c == ' ' || c == '\t' || c == '\n' || c == '\r' || c == '\U{C}' || c == '\U{B}'
  }

  /** A run of whitespace, a token the source's tokenizer keeps, is not an operator. */
  lemma {:induction false} WhitespaceIsInvalid(text: string)
    requires |text| > 0 && forall i :: 0 <= i < |text| ==> IsWhitespace(text[i])
    ensures ParseOperator(text) == Err(InvalidOperator)
  {
    assert IsWhitespace(text[0]);
  }
}
