/**
 * What the calculator computes for an expression written with a bracket
 * around every operation: `parseInput` turns it into its postfix form, and
 * `runCode` evaluates that to the expression's value, leaving the stack it
 * started from as it was.
 */
module Expressions {
  import opened Wrappers
  import opened Values
  import opened Bytecode
  import opened Operators
  import opened Compiler
  import opened Machine
  import opened MachineLemmas
  import opened Pipeline
  import opened CompilerExamples

  /** An arithmetic expression: a number, a binary operation, or a named function applied to an argument. */
  datatype Expr = Lit(v: real) | Bin(b: BinOp, left: Expr, right: Expr) | Fn(u: UnOp, arg: Expr)

  /** The tokens of `e` with every operation bracketed: `(l op r)` and `(f a)`. */
  function Infix(e: Expr): seq<Token>
  {
    match e
    case Lit(v) => [Number(v)]
    case Bin(b, l, r) => [Open(Round)] + Infix(l) + [Sym(Symbol(Binary(b)))] + Infix(r) + [Close(Round)]
    case Fn(u, a) => [Open(Round), Sym(Symbol(Unary(u)))] + Infix(a) + [Close(Round)]
  }

  /** The postfix instructions for `e`: operands first, then the operation. */
  function Postfix(e: Expr): seq<Instr>
  {
    match e
    case Lit(v) => [PushLit(v)]
    case Bin(b, l, r) => Postfix(l) + Postfix(r) + [Apply(Binary(b))]
    case Fn(u, a) => Postfix(a) + [Apply(Unary(u))]
  }

  /** The value of `e` under the arithmetic `ar`. */
  function Meaning(e: Expr, ar: Arith): Value
  {
    match e
    case Lit(v) => Num(v)
    case Bin(b, l, r) => ar.binary(b, Meaning(l, ar), Meaning(r, ar))
    case Fn(u, a) => ar.unary(u, Meaning(a, ar))
  }

  lemma {:induction false} ConsumeCons(st: State, t: Token, rest: seq<Token>)
    requires Step(st, t).Ok?
    ensures Consume(st, [t] + rest) == Consume(Step(st, t).value, rest)
  {
    assert ([t] + rest)[0] == t && ([t] + rest)[1..] == rest;
  }

  /** An operator over an open bracket pops nothing: the bracket ranks 0. */
  lemma {:induction false} OperatorOverBracket(out: seq<Instr>, ops: seq<Entry>, op: Opcode)
    requires op.Binary? || op.Unary?
    ensures Step(State(out, ops + [Bracket(Round)]), Sym(Symbol(op)))
      == Ok(State(out, ops + [Bracket(Round), Pending(op)]))
  {
    ParseSymbol(op, Symbol(op));
    var st := State(out, ops + [Bracket(Round)]);
    assert PopAtLeast(st, Precedence(Symbol(op))) == st;
    assert ops + [Bracket(Round)] + [Pending(op)] == ops + [Bracket(Round), Pending(op)];
  }

  /** A close bracket over one pending operator and its open bracket emits the operator. */
  lemma {:induction false} CloseOverOperator(out: seq<Instr>, ops: seq<Entry>, op: Opcode)
    ensures Step(State(out, ops + [Bracket(Round), Pending(op)]), Close(Round))
      == Ok(State(out + [Apply(op)], ops))
  {
    var inner := ops + [Bracket(Round)];
    var st := State(out, ops + [Bracket(Round), Pending(op)]);
    assert st.ops[..|st.ops| - 1] == inner;
    assert PopToBracket(st) == PopToBracket(State(out + [Apply(op)], inner));
    assert PopToBracket(State(out + [Apply(op)], inner)) == State(out + [Apply(op)], inner);
    assert inner[..|inner| - 1] == ops;
  }

  /** The tokens of `e` turn into its postfix form, whatever precedes them on the operator stack. */
  lemma {:induction false} ConsumeInfix(e: Expr, out: seq<Instr>, ops: seq<Entry>, rest: seq<Token>)
    ensures Consume(State(out, ops), Infix(e) + rest) == Consume(State(out + Postfix(e), ops), rest)
    decreases e, 1
  {
    match e
    case Lit(v) => ConsumeCons(State(out, ops), Number(v), rest);
    case Bin(b, l, r) => ConsumeBin(b, l, r, out, ops, rest);
    case Fn(u, a) => ConsumeFn(u, a, out, ops, rest);
  }

  lemma {:induction false} ConsumeBin(b: BinOp, l: Expr, r: Expr, out: seq<Instr>, ops: seq<Entry>, rest: seq<Token>)
    ensures Consume(State(out, ops), Infix(Bin(b, l, r)) + rest) == Consume(State(out + Postfix(Bin(b, l, r)), ops), rest)
    decreases Bin(b, l, r), 0
  {
    var op := Binary(b);
    var pending := ops + [Bracket(Round), Pending(op)];
    var afterR := [Close(Round)] + rest;
    BinTokens(b, l, r, rest);
    LeftOperand(l, op, out, ops, Infix(r) + afterR);
    var o1 := out + Postfix(l);
    ConsumeInfix(r, o1, pending, afterR);
    var o2 := o1 + Postfix(r);
    CloseOverOperator(o2, ops, op);
    ConsumeCons(State(o2, pending), Close(Round), rest);
    assert Postfix(Bin(b, l, r)) == Postfix(l) + Postfix(r) + [Apply(op)];
    assert o2 + [Apply(op)] == out + Postfix(Bin(b, l, r));
  }

  /** `( l op` leaves the bracket and the operator stacked over what was there, and `l` compiled. */
  lemma {:induction false} LeftOperand(l: Expr, op: Opcode, out: seq<Instr>, ops: seq<Entry>, rest: seq<Token>)
    requires op.Binary?
    ensures Consume(State(out, ops), [Open(Round)] + (Infix(l) + ([Sym(Symbol(op))] + rest)))
      == Consume(State(out + Postfix(l), ops + [Bracket(Round), Pending(op)]), rest)
    decreases l, 2
  {
    var sym, inner := Sym(Symbol(op)), ops + [Bracket(Round)];
    ConsumeCons(State(out, ops), Open(Round), Infix(l) + ([sym] + rest));
    ConsumeInfix(l, out, inner, [sym] + rest);
    OperatorOverBracket(out + Postfix(l), ops, op);
    ConsumeCons(State(out + Postfix(l), inner), sym, rest);
  }

  lemma {:induction false} BinTokens(b: BinOp, l: Expr, r: Expr, rest: seq<Token>)
    ensures Infix(Bin(b, l, r)) + rest
      == [Open(Round)] + (Infix(l) + ([Sym(Symbol(Binary(b)))] + (Infix(r) + ([Close(Round)] + rest))))
  {
  }

  lemma {:induction false} FnTokens(u: UnOp, a: Expr, rest: seq<Token>)
    ensures Infix(Fn(u, a)) + rest == [Open(Round)] + ([Sym(Symbol(Unary(u)))] + (Infix(a) + ([Close(Round)] + rest)))
  {
  }

  lemma {:induction false} ConsumeFn(u: UnOp, a: Expr, out: seq<Instr>, ops: seq<Entry>, rest: seq<Token>)
    ensures Consume(State(out, ops), Infix(Fn(u, a)) + rest) == Consume(State(out + Postfix(Fn(u, a)), ops), rest)
    decreases Fn(u, a), 0
  {
    var op := Unary(u);
    var sym, inner, pending := Sym(Symbol(op)), ops + [Bracket(Round)], ops + [Bracket(Round), Pending(op)];
    var afterA := [Close(Round)] + rest;
    var afterSym := Infix(a) + afterA;
    FnTokens(u, a, rest);
    ConsumeCons(State(out, ops), Open(Round), [sym] + afterSym);
    OperatorOverBracket(out, ops, op);
    ConsumeCons(State(out, inner), sym, afterSym);
    ConsumeInfix(a, out, pending, afterA);
    var o1 := out + Postfix(a);
    CloseOverOperator(o1, ops, op);
    ConsumeCons(State(o1, pending), Close(Round), rest);
    assert o1 + [Apply(op)] == out + Postfix(Fn(u, a));
  }

  /** `parseInput` turns a bracketed expression into its postfix form. */
  lemma {:induction false} CompileInfix(e: Expr)
    ensures Compile(Infix(e)) == Ok(Postfix(e))
  {
    ConsumeInfix(e, [], [], []);
    assert Infix(e) + [] == Infix(e) && [] + Postfix(e) == Postfix(e);
  }

  /** The postfix form of `e` pushes the value of `e` and leaves everything below it alone. */
  lemma {:induction false} EvalPostfix(e: Expr, stack: seq<Value>, ar: Arith)
    ensures Eval(Postfix(e), stack, ar) == Ok(stack + [Meaning(e, ar)])
  {
    match e
    case Lit(v) =>
      assert Postfix(e)[1..] == [];
    case Bin(b, l, r) =>
      var x, y := Meaning(l, ar), Meaning(r, ar);
      EvalAppend(Postfix(l) + Postfix(r), [Apply(Binary(b))], stack, ar);
      EvalAppend(Postfix(l), Postfix(r), stack, ar);
      EvalPostfix(l, stack, ar);
      EvalPostfix(r, stack + [x], ar);
      EvalBinary(b, [], stack, x, y, ar);
      assert stack + [x] + [y] == stack + [x, y];
      assert [Apply(Binary(b))] + [] == [Apply(Binary(b))];
    case Fn(u, a) =>
      var x := Meaning(a, ar);
      EvalAppend(Postfix(a), [Apply(Unary(u))], stack, ar);
      EvalPostfix(a, stack, ar);
      var s := stack + [x];
      assert s[..|s| - 1] == stack;
  }

  /**
   * The calculator computes a bracketed expression: `parseInput` accepts
   * its tokens, and `runCode` returns its value and leaves the machine's
   * stack as it was before the run.
   */
  lemma {:induction false} Calculates(e: Expr, stack: seq<Value>, ar: Arith)
    ensures CompileToSlots(Infix(e)).Ok?
    ensures var h := Run(CompileToSlots(Infix(e)).value, stack, ar);
      h.result == Meaning(e, ar) && h.stack == stack
  {
    CompileInfix(e);
    CalculatesAs(Infix(e), e, stack, ar);
  }

  /** Tokens that compile to the postfix form of `e` compute what `e` means, whatever stack they run on. */
  lemma {:induction false} CalculatesAs(tokens: seq<Token>, e: Expr, stack: seq<Value>, ar: Arith)
    requires Compile(tokens) == Ok(Postfix(e))
    ensures CompileToSlots(tokens).Ok?
    ensures var h := Run(CompileToSlots(tokens).value, stack, ar);
      h.result == Meaning(e, ar) && h.stack == stack
  {
    CompiledRun(tokens, stack, ar);
    EvalPostfix(e, stack, ar);
    var s := stack + [Meaning(e, ar)];
    assert s[..|s| - 1] == stack;
  }

  /**
   * `x a y b z` with two binary operators: the first groups first when it
   * binds at least as tightly as the second (so equal operators group to
   * the left), otherwise the second does.
   */
  lemma {:induction false} TwoOperators(x: real, a: string, y: real, b: string, z: real, stack: seq<Value>, ar: Arith)
    requires ParseOperator(a).Ok? && ParseOperator(a).value.Binary?
    requires ParseOperator(b).Ok? && ParseOperator(b).value.Binary?
    ensures var tokens := [Number(x), Sym(a), Number(y), Sym(b), Number(z)];
      CompileToSlots(tokens).Ok? &&
      var h := Run(CompileToSlots(tokens).value, stack, ar);
      var opA, opB := ParseOperator(a).value.b, ParseOperator(b).value.b;
      h.stack == stack &&
      h.result == if Precedence(a) >= Precedence(b)
        then ar.binary(opB, ar.binary(opA, Num(x), Num(y)), Num(z))
        else ar.binary(opA, Num(x), ar.binary(opB, Num(y), Num(z)))
  {
    var tokens := [Number(x), Sym(a), Number(y), Sym(b), Number(z)];
    var opA, opB := ParseOperator(a).value.b, ParseOperator(b).value.b;
    assert ParseOperator(a).value == Binary(opA) && ParseOperator(b).value == Binary(opB);
    assert Postfix(Lit(x)) == [PushLit(x)] && Postfix(Lit(y)) == [PushLit(y)] && Postfix(Lit(z)) == [PushLit(z)];
    assert Meaning(Lit(x), ar) == Num(x) && Meaning(Lit(y), ar) == Num(y) && Meaning(Lit(z), ar) == Num(z);
    if Precedence(a) >= Precedence(b) {
      var e := Bin(opB, Bin(opA, Lit(x), Lit(y)), Lit(z));
      LooserSecond(x, a, y, b, z);
      assert Postfix(Bin(opA, Lit(x), Lit(y))) == [PushLit(x), PushLit(y), Apply(Binary(opA))];
      assert Meaning(Bin(opA, Lit(x), Lit(y)), ar) == ar.binary(opA, Num(x), Num(y));
      assert Postfix(e) == [PushLit(x), PushLit(y), Apply(Binary(opA)), PushLit(z), Apply(Binary(opB))];
      CalculatesAs(tokens, e, stack, ar);
    } else {
      var e := Bin(opA, Lit(x), Bin(opB, Lit(y), Lit(z)));
      TighterSecond(x, a, y, b, z);
      assert Postfix(Bin(opB, Lit(y), Lit(z))) == [PushLit(y), PushLit(z), Apply(Binary(opB))];
      assert Meaning(Bin(opB, Lit(y), Lit(z)), ar) == ar.binary(opB, Num(y), Num(z));
      assert Postfix(e) == [PushLit(x), PushLit(y), PushLit(z), Apply(Binary(opB)), Apply(Binary(opA))];
      CalculatesAs(tokens, e, stack, ar);
    }
  }

  /** `x + y * z` computes `x + (y * z)`. */
  lemma {:induction false} MultiplyFirst(x: real, y: real, z: real, ar: Arith)
    ensures var tokens := [Number(x), Sym("+"), Number(y), Sym("*"), Number(z)];
      CompileToSlots(tokens).Ok? &&
      Run(CompileToSlots(tokens).value, [], ar).result == ar.binary(Add, Num(x), ar.binary(Multiply, Num(y), Num(z)))
  {
    assert ParseOperator("+") == Ok(Binary(Add)) && ParseOperator("*") == Ok(Binary(Multiply));
    assert Precedence("+") < Precedence("*");
    TwoOperators(x, "+", y, "*", z, [], ar);
  }

  /** `x ^ y ^ z` computes `(x ^ y) ^ z`: the power operator groups to the left. */
  lemma {:induction false} PowerGroupsLeft(x: real, y: real, z: real, ar: Arith)
    ensures var tokens := [Number(x), Sym("^"), Number(y), Sym("^"), Number(z)];
      CompileToSlots(tokens).Ok? &&
      Run(CompileToSlots(tokens).value, [], ar).result == ar.binary(Power, ar.binary(Power, Num(x), Num(y)), Num(z))
  {
    assert ParseOperator("^") == Ok(Binary(Power));
    TwoOperators(x, "^", y, "^", z, [], ar);
  }
}
