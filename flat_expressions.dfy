/**
 * Expressions written without brackets, as `parseInput` orders them by
 * `precedence` (interpreter.js, lines 242-248 and 264-290): a tree whose
 * every operand binds at least as tightly as its operator (the right
 * operand strictly more) compiles to its postfix form, so equal operators
 * group to the left and functions apply to the number after them. A
 * function name directly after another is the one shape the rule gets
 * wrong: the first function is emitted before it has an operand.
 */
module FlatExpressions {
  import opened Wrappers
  import opened Values
  import opened Bytecode
  import opened Operators
  import opened Compiler
  import opened CompilerLemmas
  import opened CompilerOutput
  import opened CompilerExamples
  import opened Machine
  import opened MachineLemmas
  import opened Pipeline
  import opened Expressions

  /** The tokens of `e` with no brackets: `l op r`, and a function name before its argument. */
  function Flat(e: Expr): seq<Token>
  {
    match e
    case Lit(v) => [Number(v)]
    case Bin(b, l, r) => Flat(l) + [Sym(Symbol(Binary(b)))] + Flat(r)
    case Fn(u, a) => [Sym(Symbol(Unary(u)))] + Flat(a)
  }

  /** How tightly the root of `e` binds: a literal above every operator, an operation at its operator's precedence. */
  function Tightness(e: Expr): nat
  {
    match e
    case Lit(_) => 5
    case Bin(b, _, _) => Level(Binary(b))
    case Fn(u, _) => Level(Unary(u))
  }

  /**
   * The trees that bracket-free tokens denote under the precedence table:
   * the left operand of an operator binds at least as tightly as it, the
   * right operand strictly more, and a function takes a number.
   */
  predicate Layered(e: Expr)
  {
    match e
    case Lit(_) => true
    case Bin(b, l, r) =>
      Layered(l) && Layered(r) && Tightness(l) >= Level(Binary(b)) && Tightness(r) > Level(Binary(b))
    case Fn(_, a) => a.Lit?
  }

  /** Popping a stack emits its bottom entry last. */
  lemma {:induction false} UnwindBottom(bottom: Entry, rest: seq<Entry>)
    requires bottom.Pending? && AllPending(rest)
    ensures AllPending([bottom] + rest)
    ensures Unwind([bottom] + rest) == Unwind(rest) + [Emit(bottom)]
    decreases |rest|
  {
    assert AllPending([bottom] + rest) by {
      forall i | 0 <= i < |rest| + 1 ensures ([bottom] + rest)[i].Pending? {
        if i > 0 {
          assert ([bottom] + rest)[i] == rest[i - 1];
        }
      }
    }
    if rest == [] {
      assert [bottom] + rest == [] + [bottom];
      UnwindTop([], bottom);
    } else {
      var init, top := rest[..|rest| - 1], rest[|rest| - 1];
      assert rest == init + [top];
      PoppedInit(init, top, 0);
      UnwindBottom(bottom, init);
      assert [bottom] + rest == ([bottom] + init) + [top];
      UnwindTop([bottom] + init, top);
      UnwindTop(init, top);
    }
  }

  /**
   * The tokens of a layered tree, over a stack whose top binds less
   * tightly than the tree's root, emit part of its postfix form and leave
   * the rest waiting on the stack: operators at least as tight as the root,
   * which popping completes the postfix form.
   */
  lemma {:induction false} ConsumeFlat(e: Expr, out: seq<Instr>, ops: seq<Entry>) returns (done: seq<Instr>, waiting: seq<Entry>)
    requires Layered(e)
    requires ops == [] || Rank(ops[|ops| - 1]) < Tightness(e)
    ensures Consume(State(out, ops), Flat(e)) == Ok(State(out + done, ops + waiting))
    ensures AllPending(waiting) && RanksAtLeast(waiting, Tightness(e))
    ensures done + Unwind(waiting) == Postfix(e)
    decreases e
  {
    match e
    case Lit(v) =>
      done, waiting := [PushLit(v)], [];
      assert Flat(e)[1..] == [] && ops + [] == ops;
    case Fn(u, a) =>
      var op, name := Unary(u), Symbol(Unary(u));
      ParseSymbol(op, name);
      FunctionPrefix(State(out, ops), name, a.v);
      done, waiting := [PushLit(a.v)], [Pending(op)];
      UnwindTop([], Pending(op));
      assert [] + [Pending(op)] == waiting;
    case Bin(b, l, r) =>
      done, waiting := ConsumeBinFlat(b, l, r, out, ops);
  }

  /** The operator case of `ConsumeFlat`: `l op r` leaves `op` waiting under what `r` leaves. */
  lemma {:induction false} ConsumeBinFlat(b: BinOp, l: Expr, r: Expr, out: seq<Instr>, ops: seq<Entry>)
    returns (done: seq<Instr>, waiting: seq<Entry>)
    requires Layered(Bin(b, l, r))
    requires ops == [] || Rank(ops[|ops| - 1]) < Level(Binary(b))
    ensures Consume(State(out, ops), Flat(Bin(b, l, r))) == Ok(State(out + done, ops + waiting))
    ensures AllPending(waiting) && RanksAtLeast(waiting, Level(Binary(b)))
    ensures done + Unwind(waiting) == Postfix(Bin(b, l, r))
    decreases Bin(b, l, r), 0
  {
    var op := Binary(b);
    var sym, p := Sym(Symbol(op)), Level(op);
    var dl, wl := ConsumeFlat(l, out, ops);
    var afterL := State(out + dl, ops + wl);
    RanksAtLeastLower(wl, Tightness(l), p);
    PopAtLeastOut(afterL, p, ops, wl);
    StepSymbol(afterL, op);
    ConcatAssoc(out, dl, Unwind(wl));
    var below := ops + [Pending(op)];
    assert Step(afterL, sym) == Ok(State(out + Postfix(l), below));
    var dr, wr := ConsumeFlat(r, out + Postfix(l), below);
    ConsumeAppend(State(out, ops), Flat(l), [sym] + Flat(r));
    ConsumeCons(afterL, sym, Flat(r));
    ConcatAssoc(Flat(l), [sym], Flat(r));
    done, waiting := Postfix(l) + dr, [Pending(op)] + wr;
    ConcatAssoc(ops, [Pending(op)], wr);
    ConcatAssoc(out, Postfix(l), dr);
    UnwindBottom(Pending(op), wr);
    RanksAtLeastLower(wr, Tightness(r), p);
    RanksAtLeastBottom(Pending(op), wr, p);
    PostfixOfParts(Postfix(l), dr, Unwind(wr), Postfix(r), Apply(op));
  }

  /** A bound on the ranks holds for every lower bound. */
  lemma {:induction false} RanksAtLeastLower(ops: seq<Entry>, q: nat, p: nat)
    requires RanksAtLeast(ops, q) && q >= p
    ensures RanksAtLeast(ops, p)
  {
  }

  /** An entry of rank at least `p` under entries of rank at least `p`. */
  lemma {:induction false} RanksAtLeastBottom(bottom: Entry, ops: seq<Entry>, p: nat)
    requires Rank(bottom) >= p && RanksAtLeast(ops, p)
    ensures RanksAtLeast([bottom] + ops, p)
  {
    forall i | 0 <= i < |ops| + 1 ensures Rank(([bottom] + ops)[i]) >= p {
      if i > 0 {
        assert ([bottom] + ops)[i] == ops[i - 1];
      }
    }
  }

  /** An operator token steps by the operator's own level and pushes the operator. */
  lemma {:induction false} StepSymbol(st: State, op: Opcode)
    requires op.Binary? || op.Unary?
    ensures Step(st, Sym(Symbol(op)))
      == Ok(State(PopAtLeast(st, Level(op)).out, PopAtLeast(st, Level(op)).ops + [Pending(op)]))
  {
    ParseSymbol(op, Symbol(op));
    PrecedenceMatchesOpcode(Symbol(op));
  }

  lemma {:induction false} PostfixOfParts(left: seq<Instr>, done: seq<Instr>, rest: seq<Instr>, right: seq<Instr>, last: Instr)
    requires done + rest == right
    ensures (left + done) + (rest + [last]) == left + right + [last]
  {
  }

  /** `parseInput` turns the bracket-free tokens of a layered tree into its postfix form. */
  lemma {:induction false} CompileFlat(e: Expr)
    requires Layered(e)
    ensures Compile(Flat(e)) == Ok(Postfix(e))
  {
    var done, waiting := ConsumeFlat(e, [], []);
    assert [] + done == done && [] + waiting == waiting;
    DrainResult(State(done, waiting));
  }

  /**
   * The calculator computes an expression written without brackets by the
   * precedence table: `runCode` returns the value of its layered tree and
   * leaves the stack as it was.
   */
  lemma {:induction false} FlatCalculates(e: Expr, stack: seq<Value>, ar: Arith)
    requires Layered(e)
    ensures CompileToSlots(Flat(e)).Ok?
    ensures var h := Run(CompileToSlots(Flat(e)).value, stack, ar);
      h.result == Meaning(e, ar) && h.stack == stack
  {
    CompileFlat(e);
    CalculatesAs(Flat(e), e, stack, ar);
  }

  /**
   * `f g x` with two function names: both rank 4, so the second pops the
   * first before the first has an operand, and `f` is emitted first.
   */
  lemma {:induction false} NestedFunctionsSplit(f: string, g: string, v: real)
    requires ParseOperator(f).Ok? && ParseOperator(f).value.Unary?
    requires ParseOperator(g).Ok? && ParseOperator(g).value.Unary?
    ensures Compile([Sym(f), Sym(g), Number(v)])
      == Ok([Apply(ParseOperator(f).value), PushLit(v), Apply(ParseOperator(g).value)])
  {
    var opF, opG := ParseOperator(f).value, ParseOperator(g).value;
    PrecedenceMatchesOpcode(f);
    PrecedenceMatchesOpcode(g);
    var empty := State([], []);
    var s1 := State([], [Pending(opF)]);
    assert PopAtLeast(empty, Precedence(f)) == empty;
    assert Text(Sym(f)) == f && [] + [Pending(opF)] == [Pending(opF)];
    assert Step(empty, Sym(f)) == Ok(s1);
    OperatorPopsOne([], opF, g, v);
    var s2 := State([] + [Apply(opF), PushLit(v)], [Pending(opG)]);
    ConsumeCons(empty, Sym(f), [Sym(g), Number(v)]);
    assert [Sym(f)] + [Sym(g), Number(v)] == [Sym(f), Sym(g), Number(v)];
    DrainOne(s2.out, opG);
    assert s2.out + [Apply(opG)] == [Apply(opF), PushLit(v), Apply(opG)];
  }

  /**
   * So `f g x` on an empty stack applies `f` to `undefined`, then returns
   * `g x` and leaves `f(undefined)` behind on the stack.
   */
  lemma {:induction false} NestedFunctionsRun(f: string, g: string, v: real, ar: Arith)
    requires ParseOperator(f).Ok? && ParseOperator(f).value.Unary?
    requires ParseOperator(g).Ok? && ParseOperator(g).value.Unary?
    ensures CompileToSlots([Sym(f), Sym(g), Number(v)]).Ok?
    ensures var h := Run(CompileToSlots([Sym(f), Sym(g), Number(v)]).value, [], ar);
      h.result == ar.unary(ParseOperator(g).value.u, Num(v)) &&
      h.stack == [ar.unary(ParseOperator(f).value.u, Undefined)]
  {
    var tokens := [Sym(f), Sym(g), Number(v)];
    var opF, opG := ParseOperator(f).value, ParseOperator(g).value;
    NestedFunctionsSplit(f, g, v);
    CompiledRun(tokens, [], ar);
    EvalNested(opF.u, opG.u, v, ar);
  }

  /** The program `f g x` compiles to, run on an empty stack. */
  lemma {:induction false} EvalNested(f: UnOp, g: UnOp, v: real, ar: Arith)
    ensures Eval([Apply(Unary(f)), PushLit(v), Apply(Unary(g))], [], ar)
      == Ok([ar.unary(f, Undefined), ar.unary(g, Num(v))])
  {
    var first, second := ar.unary(f, Undefined), ar.unary(g, Num(v));
    var tail := [PushLit(v)] + [Apply(Unary(g))];
    assert [Apply(Unary(f)), PushLit(v), Apply(Unary(g))] == [Apply(Unary(f))] + tail;
    UnaryOnEmpty(f, tail, ar);
    EvalLiteral(v, [Apply(Unary(g))], [first], ar);
    UnaryOnTop(g, [first], Num(v), [], ar);
    assert [Apply(Unary(g))] + [] == [Apply(Unary(g))];
    assert [first] + [second] == [first, second];
  }

  /** A function on an empty stack takes `undefined` as its operand. */
  lemma {:induction false} UnaryOnEmpty(u: UnOp, rest: seq<Instr>, ar: Arith)
    ensures Eval([Apply(Unary(u))] + rest, [], ar) == Eval(rest, [ar.unary(u, Undefined)], ar)
  {
    assert ([Apply(Unary(u))] + rest)[1..] == rest;
    assert Effect(Apply(Unary(u)), [], ar) == Ok([ar.unary(u, Undefined)]);
  }

  /** A function replaces the top of the stack by its value. */
  lemma {:induction false} UnaryOnTop(u: UnOp, below: seq<Value>, x: Value, rest: seq<Instr>, ar: Arith)
    ensures Eval([Apply(Unary(u))] + rest, below + [x], ar) == Eval(rest, below + [ar.unary(u, x)], ar)
  {
    var stack := below + [x];
    assert ([Apply(Unary(u))] + rest)[1..] == rest;
    assert Pop(stack) == below;
    assert Effect(Apply(Unary(u)), stack, ar) == Ok(below + [ar.unary(u, x)]);
  }
}
