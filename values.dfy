/**
 * The values an `Interpreter` handles and the opcode tags of its bytecode
 * (interpreter.js, lines 3-21).
 *
 * The source keeps both the bytecode and the value stack in plain JavaScript
 * arrays, so any JavaScript value may appear in either: a number, a string
 * (every opcode is a string such as 'ADD'), `NaN`, or `undefined` (what
 * `pop()` yields on an empty array and what reading past the end of an
 * array yields). Numbers are kept abstract: a literal is carried as a `real`,
 * and no arithmetic is ever performed on it inside the model.
 */
module Values {
  import opened Wrappers

  datatype Value = Undefined | NaN | Num(x: real) | Str(s: string)

  datatype BinOp = Add | Subtract | Multiply | Divide | Power

  datatype UnOp = Sqrt | Sin | Cos | Tan | Arcsin | Arccos | Arctan | Log | Ln | Sinh | Cosh | Tanh

  /** The nineteen opcode tags, grouped by how `runCode` dispatches them. */
  datatype Opcode = Stop | Push | Binary(b: BinOp) | Unary(u: UnOp)

  /** The string constant the source uses for each opcode. */
  function TagName(op: Opcode): string
  {
    match op
    case Stop => "STOP"
    case Push => "PUSH"
    case Binary(b) =>
      (match b
       case Add => "ADD"
       case Subtract => "SUBTRACT"
       case Multiply => "MULTIPLY"
       case Divide => "DIVIDE"
       case Power => "POWER")
    case Unary(u) =>
      (match u
       case Sqrt => "SQRT"
       case Sin => "SIN"
       case Cos => "COS"
       case Tan => "TAN"
       case Arcsin => "ARCSIN"
       case Arccos => "ARCCOS"
       case Arctan => "ARCTAN"
       case Log => "LOG"
       case Ln => "LN"
       case Sinh => "SINH"
       case Cosh => "COSH"
       case Tanh => "TANH")
  }

  /** The case labels of the `switch (opCode)` in `runCode`, in the order they are written. */
  const SwitchCases: seq<Opcode> := [
    Stop, Push,
    Binary(Add), Binary(Subtract), Binary(Multiply), Binary(Divide), Binary(Power),
    Unary(Sqrt), Unary(Sin), Unary(Cos), Unary(Tan), Unary(Arcsin), Unary(Arccos),
    Unary(Arctan), Unary(Log), Unary(Ln), Unary(Sinh), Unary(Cosh), Unary(Tanh)]

  /** The first case label, in order, whose tag is the string `s`. */
  function Dispatch(s: string, cases: seq<Opcode>): (r: Option<Opcode>)
    ensures r.Some? ==> TagName(r.value) == s
  {
    if cases == [] then None
    else if TagName(cases[0]) == s then Some(cases[0])
    else Dispatch(s, cases[1..])
  }

  /**
   * Which case of the `switch (opCode)` in `runCode` a bytecode slot selects;
   * `None` is the `default` case. JavaScript's `switch` compares with `===`,
   * so only a string equal to one of the tag constants selects a case.
   */
  function DecodeTag(v: Value): (r: Option<Opcode>)
    ensures r.Some? ==> v == Str(TagName(r.value))
  {
    if v.Str? then Dispatch(v.s, SwitchCases) else None
  }

  /** Distinct opcodes have distinct tags. */
  lemma {:induction false} TagNameInjective(op1: Opcode, op2: Opcode)
    requires TagName(op1) == TagName(op2)
    ensures op1 == op2
  {
  }

  /** Every opcode is one of the case labels. */
  lemma {:induction false} SwitchCovers(op: Opcode)
    ensures op in SwitchCases
  {
    var i := match op
      case Stop => 0
      case Push => 1
      case Binary(b) =>
        (match b case Add => 2 case Subtract => 3 case Multiply => 4 case Divide => 5 case Power => 6)
      case Unary(u) =>
        (match u
         case Sqrt => 7 case Sin => 8 case Cos => 9 case Tan => 10 case Arcsin => 11 case Arccos => 12
         case Arctan => 13 case Log => 14 case Ln => 15 case Sinh => 16 case Cosh => 17 case Tanh => 18);
    assert SwitchCases[i] == op;
  }

  /** With distinct tags, the dispatcher stops at the case label of the opcode itself. */
  lemma {:induction false} DispatchFinds(op: Opcode, cases: seq<Opcode>)
    requires op in cases
    ensures Dispatch(TagName(op), cases) == Some(op)
    decreases |cases|
  {
    if cases[0] != op {
      if TagName(cases[0]) == TagName(op) {
        TagNameInjective(cases[0], op);
      }
      assert op in cases[1..];
      DispatchFinds(op, cases[1..]);
    }
  }

  /** Every opcode's tag is recognised by the dispatcher as that very opcode. */
  lemma {:induction false} DecodeTagName(op: Opcode)
    ensures DecodeTag(Str(TagName(op))) == Some(op)
  {
    SwitchCovers(op);
    DispatchFinds(op, SwitchCases);
  }
}
