/**
 * The compiler and the machine together, as the calculator page uses them:
 * `parseInput` lays out a program and `runCode` runs it on the machine's
 * current stack.
 */
module Pipeline {
  import opened Wrappers
  import opened Values
  import opened Bytecode
  import opened Operators
  import opened Compiler
  import opened CompilerOutput
  import opened Machine
  import opened MachineLemmas

  /** Every program `parseInput` accepts runs as its instructions say. */
  lemma {:induction false} CompiledRun(tokens: seq<Token>, stack: seq<Value>, ar: Arith)
    requires Compile(tokens).Ok?
    ensures CompileToSlots(tokens).Ok?
    ensures var h := Run(CompileToSlots(tokens).value, stack, ar);
      (h.result, h.stack) == Report(Eval(Compile(tokens).value, stack, ar))
  {
    CompileKeeps(tokens);
    RunFlatten(Compile(tokens).value, stack, ar);
  }

  /** A literal pushes its number. */
  lemma {:induction false} EvalLiteral(v: real, rest: seq<Instr>, stack: seq<Value>, ar: Arith)
    ensures Eval([PushLit(v)] + rest, stack, ar) == Eval(rest, stack + [Num(v)], ar)
  {
    assert ([PushLit(v)] + rest)[1..] == rest;
  }

  /** A binary operator with two operands replaces them by its result. */
  lemma {:induction false} EvalBinary(b: BinOp, rest: seq<Instr>, below: seq<Value>, x: Value, y: Value, ar: Arith)
    ensures Eval([Apply(Binary(b))] + rest, below + [x, y], ar) == Eval(rest, below + [ar.binary(b, x, y)], ar)
  {
    var stack := below + [x, y];
    assert ([Apply(Binary(b))] + rest)[1..] == rest;
    assert stack[..|stack| - 2] == below;
    assert Effect(Apply(Binary(b)), stack, ar) == Ok(below + [ar.binary(b, x, y)]);
  }

  /** Two literals run on an empty stack: the second is reported, the first stays behind. */
  lemma {:induction false} TwoLiterals(x: real, y: real, ar: Arith)
    ensures var h := Run(Flatten([PushLit(x), PushLit(y)]), [], ar);
      h.result == Num(y) && h.stack == [Num(x)]
  {
    var code := [PushLit(x), PushLit(y)];
    assert NoBarePush(code);
    RunFlatten(code, [], ar);
    EvalLiteral(x, [PushLit(y)], [], ar);
    EvalLiteral(y, [], [Num(x)], ar);
    assert [PushLit(x)] + [PushLit(y)] == code && [PushLit(y)] + [] == [PushLit(y)];
    assert [] + [Num(x)] == [Num(x)];
  }

  /** A literal and an operator run on a stack that already holds a value combine the two. */
  lemma {:induction false} CarriedOperand(x: real, y: real, b: BinOp, ar: Arith)
    ensures var h := Run(Flatten([PushLit(y), Apply(Binary(b))]), [Num(x)], ar);
      h.result == ar.binary(b, Num(x), Num(y)) && h.stack == []
  {
    var code := [PushLit(y), Apply(Binary(b))];
    assert NoBarePush(code);
    RunFlatten(code, [Num(x)], ar);
    EvalLiteral(y, [Apply(Binary(b))], [Num(x)], ar);
    EvalBinary(b, [], [], Num(x), Num(y), ar);
    assert [PushLit(y)] + [Apply(Binary(b))] == code && [Apply(Binary(b))] + [] == [Apply(Binary(b))];
    assert [] + [Num(x), Num(y)] == [Num(x)] + [Num(y)];
  }

  /** The stack carries over between runs: what one program leaves, the next one consumes. */
  lemma {:induction false} StackCarriesOver(ar: Arith)
    ensures var first := Run(Flatten([PushLit(3.0), PushLit(4.0)]), [], ar);
      var second := Run(Flatten([PushLit(2.0), Apply(Binary(Add))]), first.stack, ar);
      first.result == Num(4.0) && first.stack == [Num(3.0)] && second.result == ar.binary(Add, Num(3.0), Num(2.0)) && second.stack == []
  {
    TwoLiterals(3.0, 4.0, ar);
    CarriedOperand(3.0, 2.0, Add, ar);
  }

  /**
   * `x +` with nothing after the operator compiles, and on an empty stack
   * the operator lacks an operand: the run reports `x` without popping it,
   * so `x` stays behind for the next run.
   */
  lemma {:induction false} DanglingOperator(x: real, a: string, ar: Arith)
    requires ParseOperator(a).Ok? && ParseOperator(a).value.Binary?
    ensures CompileToSlots([Number(x), Sym(a)]).Ok?
    ensures var h := Run(CompileToSlots([Number(x), Sym(a)]).value, [], ar);
      h.result == Num(x) && h.stack == [Num(x)]
  {
    var op := ParseOperator(a).value;
    var tokens, code := [Number(x), Sym(a)], [PushLit(x), Apply(op)];
    TrailingOperator(x, a);
    CompiledRun(tokens, [], ar);
    assert [] + [Num(x)] == [Num(x)];
    assert Effect(PushLit(x), [], ar) == Ok([Num(x)]);
    assert Effect(Apply(op), [Num(x)], ar) == Err([Num(x)]);
    assert code[1..] == [Apply(op)];
    assert Eval(code, [], ar) == Err([Num(x)]);
  }

  /** `x a` with nothing after the operator compiles to pushing `x`, then the operator. */
  lemma {:induction false} TrailingOperator(x: real, a: string)
    requires ParseOperator(a).Ok?
    ensures Compile([Number(x), Sym(a)]) == Ok([PushLit(x), Apply(ParseOperator(a).value)])
  {
    var op := ParseOperator(a).value;
    var tokens := [Number(x), Sym(a)];
    var s1 := State([] + [PushLit(x)], []);
    var s2 := State(s1.out, [] + [Pending(op)]);
    assert Step(State([], []), Number(x)) == Ok(s1);
    assert PopAtLeast(s1, Precedence(a)) == s1;
    assert Step(s1, Sym(a)) == Ok(s2);
    assert tokens[1..] == [Sym(a)] && [Sym(a)][1..] == [];
    assert Consume(s2, []) == Ok(s2);
    assert Consume(s1, [Sym(a)]) == Ok(s2);
    assert Consume(State([], []), tokens) == Ok(s2);
    var code := [PushLit(x), Apply(op)];
    assert s2.ops[..0] == [] && s1.out + [Emit(Pending(op))] == code;
    assert Drain(s2) == Drain(State(s1.out + [Emit(Pending(op))], s2.ops[..0]));
    assert Drain(State(code, [])) == Ok(code);
  }
}
