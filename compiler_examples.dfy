/**
 * How `parseInput` (interpreter.js, lines 223-260) orders the operators of
 * short expressions: two binary operators, a bracketed group, a function
 * applied to a number, and the inputs it rejects.
 */
module CompilerExamples {
  import opened Wrappers
  import opened Values
  import opened Bytecode
  import opened Operators
  import opened Compiler
  import opened CompilerLemmas

  /** An operator that pops nothing, followed by a number. */
  lemma {:induction false} OperatorPopsNothing(st: State, name: string, y: real)
    requires ParseOperator(name).Ok?
    requires st.ops == [] || Rank(st.ops[|st.ops| - 1]) < Precedence(name)
    ensures Consume(st, [Sym(name), Number(y)])
      == Ok(State(st.out + [PushLit(y)], st.ops + [Pending(ParseOperator(name).value)]))
  {
    var s1 := State(st.out, st.ops + [Pending(ParseOperator(name).value)]);
    var s2 := State(s1.out + [PushLit(y)], s1.ops);
    assert PopAtLeast(st, Precedence(name)) == st;
    assert Step(st, Sym(name)) == Ok(s1);
    assert Step(s1, Number(y)) == Ok(s2);
    assert [Sym(name), Number(y)][1..] == [Number(y)] && [Number(y)][1..] == [];
    assert Consume(s1, [Number(y)]) == Ok(s2);
  }

  /** An operator that pops the single pending operator below it, followed by a number. */
  lemma {:induction false} OperatorPopsOne(out: seq<Instr>, op: Opcode, name: string, y: real)
    requires ParseOperator(name).Ok? && Level(op) >= Precedence(name)
    ensures Consume(State(out, [Pending(op)]), [Sym(name), Number(y)])
      == Ok(State(out + [Apply(op), PushLit(y)], [Pending(ParseOperator(name).value)]))
  {
    var st := State(out, [Pending(op)]);
    var s1 := State(out + [Apply(op)], []);
    assert PopAtLeast(st, Precedence(name)) == PopAtLeast(s1, Precedence(name));
    var s2 := State(s1.out, [] + [Pending(ParseOperator(name).value)]);
    var s3 := State(s2.out + [PushLit(y)], s2.ops);
    assert Step(st, Sym(name)) == Ok(s2);
    assert Step(s2, Number(y)) == Ok(s3);
    assert [Sym(name), Number(y)][1..] == [Number(y)] && [Number(y)][1..] == [];
    assert Consume(s2, [Number(y)]) == Ok(s3);
    assert PopAtLeast(s1, Precedence(name)) == s1;
    assert s2.ops == [Pending(ParseOperator(name).value)];
    assert out + [Apply(op)] + [PushLit(y)] == out + [Apply(op), PushLit(y)];
  }

  /** `x a y` on an empty stack. */
  lemma {:induction false} FirstOperand(x: real, name: string, y: real)
    requires ParseOperator(name).Ok?
    ensures Consume(State([], []), [Number(x), Sym(name), Number(y)])
      == Ok(State([PushLit(x), PushLit(y)], [Pending(ParseOperator(name).value)]))
  {
    var s1 := State([] + [PushLit(x)], []);
    assert Step(State([], []), Number(x)) == Ok(s1);
    assert [Number(x), Sym(name), Number(y)][1..] == [Sym(name), Number(y)];
    OperatorPopsNothing(s1, name, y);
    assert s1.out + [PushLit(y)] == [PushLit(x), PushLit(y)] && [] + [Pending(ParseOperator(name).value)] == [Pending(ParseOperator(name).value)];
  }

  /**
   * `x a y b z`: when `a` ranks at least as high as `b` it is applied
   * first; so operators of equal rank, `^` included, associate to the left.
   */
  lemma {:induction false} LooserSecond(x: real, a: string, y: real, b: string, z: real)
    requires ParseOperator(a).Ok? && ParseOperator(b).Ok? && Precedence(a) >= Precedence(b)
    ensures Compile([Number(x), Sym(a), Number(y), Sym(b), Number(z)])
      == Ok([PushLit(x), PushLit(y), Apply(ParseOperator(a).value), PushLit(z), Apply(ParseOperator(b).value)])
  {
    var opA, opB := ParseOperator(a).value, ParseOperator(b).value;
    PrecedenceMatchesOpcode(a);
    FirstOperand(x, a, y);
    OperatorPopsOne([PushLit(x), PushLit(y)], opA, b, z);
    ConsumeAppend(State([], []), [Number(x), Sym(a), Number(y)], [Sym(b), Number(z)]);
    assert [Number(x), Sym(a), Number(y)] + [Sym(b), Number(z)] == [Number(x), Sym(a), Number(y), Sym(b), Number(z)];
    var out := [PushLit(x), PushLit(y)] + [Apply(opA), PushLit(z)];
    assert Drain(State(out, [Pending(opB)])) == Drain(State(out + [Apply(opB)], []));
    assert out + [Apply(opB)] == [PushLit(x), PushLit(y), Apply(opA), PushLit(z), Apply(opB)];
  }

  /** `x a y b z`: when `b` ranks strictly higher than `a` it is applied first. */
  lemma {:induction false} TighterSecond(x: real, a: string, y: real, b: string, z: real)
    requires ParseOperator(a).Ok? && ParseOperator(b).Ok? && Precedence(a) < Precedence(b)
    ensures Compile([Number(x), Sym(a), Number(y), Sym(b), Number(z)])
      == Ok([PushLit(x), PushLit(y), PushLit(z), Apply(ParseOperator(b).value), Apply(ParseOperator(a).value)])
  {
    var opA, opB := ParseOperator(a).value, ParseOperator(b).value;
    PrecedenceMatchesOpcode(a);
    FirstOperand(x, a, y);
    var st := State([PushLit(x), PushLit(y)], [Pending(opA)]);
    OperatorPopsNothing(st, b, z);
    ConsumeAppend(State([], []), [Number(x), Sym(a), Number(y)], [Sym(b), Number(z)]);
    assert [Number(x), Sym(a), Number(y)] + [Sym(b), Number(z)] == [Number(x), Sym(a), Number(y), Sym(b), Number(z)];
    var out := st.out + [PushLit(z)];
    var ops := st.ops + [Pending(opB)];
    assert ops == [Pending(opA), Pending(opB)];
    assert Drain(State(out, ops)) == Drain(State(out + [Apply(opB)], [Pending(opA)]));
    assert Drain(State(out + [Apply(opB)], [Pending(opA)])) == Drain(State(out + [Apply(opB)] + [Apply(opA)], []));
    assert out + [Apply(opB)] + [Apply(opA)] == [PushLit(x), PushLit(y), PushLit(z), Apply(opB), Apply(opA)];
  }

  /** `2 ^ 3 ^ 2` compiles as `(2 ^ 3) ^ 2`. */
  lemma {:induction false} PowerIsLeftAssociative()
    ensures Compile([Number(2.0), Sym("^"), Number(3.0), Sym("^"), Number(2.0)])
      == Ok([PushLit(2.0), PushLit(3.0), Apply(Binary(Power)), PushLit(2.0), Apply(Binary(Power))])
  {
    LooserSecond(2.0, "^", 3.0, "^", 2.0);
  }

  /** `3 + 4 * 2` multiplies first. */
  lemma {:induction false} MultiplyBindsTighter()
    ensures Compile([Number(3.0), Sym("+"), Number(4.0), Sym("*"), Number(2.0)])
      == Ok([PushLit(3.0), PushLit(4.0), PushLit(2.0), Apply(Binary(Multiply)), Apply(Binary(Add))])
  {
    TighterSecond(3.0, "+", 4.0, "*", 2.0);
  }

  /** `( x a y )`: the close bracket emits `a` and drops the bracket, which never reaches the program. */
  lemma {:induction false} GroupInside(x: real, a: string, y: real)
    requires ParseOperator(a).Ok?
    ensures Consume(State([], []), [Open(Round), Number(x), Sym(a), Number(y), Close(Round)])
      == Ok(State([PushLit(x), PushLit(y), Apply(ParseOperator(a).value)], []))
  {
    var opA := ParseOperator(a).value;
    var toks := [Open(Round), Number(x), Sym(a), Number(y), Close(Round)];
    var s0 := State([], []);
    var s1 := State(s0.out, s0.ops + [Bracket(Round)]);
    var s2 := State(s1.out + [PushLit(x)], s1.ops);
    assert Step(s0, Open(Round)) == Ok(s1);
    assert Step(s1, Number(x)) == Ok(s2);
    assert s2.ops == [Bracket(Round)];
    OperatorPopsNothing(s2, a, y);
    var s4 := State(s2.out + [PushLit(y)], s2.ops + [Pending(opA)]);
    var s5 := State(s4.out + [Apply(opA)], []);
    assert s4.ops[..1] == [Bracket(Round)];
    assert PopToBracket(s4) == PopToBracket(State(s4.out + [Apply(opA)], [Bracket(Round)]));
    assert Step(s4, Close(Round)) == Ok(s5);
    assert Consume(s4, [Close(Round)]) == Ok(s5);
    ConsumeAppend(s2, [Sym(a), Number(y)], [Close(Round)]);
    assert toks[1..][1..] == [Sym(a), Number(y)] + [Close(Round)];
    assert Consume(s0, toks) == Consume(s1, toks[1..]);
    assert Consume(s1, toks[1..]) == Consume(s2, toks[1..][1..]);
    assert s5.out == [PushLit(x), PushLit(y), Apply(opA)];
  }

  /** `( x a y ) b z` applies `a` first whatever the ranks. */
  lemma {:induction false} BracketsGroup(x: real, a: string, y: real, b: string, z: real)
    requires ParseOperator(a).Ok? && ParseOperator(b).Ok?
    ensures Compile([Open(Round), Number(x), Sym(a), Number(y), Close(Round), Sym(b), Number(z)])
      == Ok([PushLit(x), PushLit(y), Apply(ParseOperator(a).value), PushLit(z), Apply(ParseOperator(b).value)])
  {
    var opA, opB := ParseOperator(a).value, ParseOperator(b).value;
    var out := [PushLit(x), PushLit(y), Apply(opA), PushLit(z)];
    GroupThenOperator(x, a, y, b, z);
    DrainOne(out, opB);
    assert out + [Apply(opB)] == [PushLit(x), PushLit(y), Apply(opA), PushLit(z), Apply(opB)];
  }

  /** After a closed group, the next operator finds nothing to pop and waits on the stack. */
  lemma {:induction false} GroupThenOperator(x: real, a: string, y: real, b: string, z: real)
    requires ParseOperator(a).Ok? && ParseOperator(b).Ok?
    ensures Consume(State([], []), [Open(Round), Number(x), Sym(a), Number(y), Close(Round), Sym(b), Number(z)])
      == Ok(State([PushLit(x), PushLit(y), Apply(ParseOperator(a).value), PushLit(z)], [Pending(ParseOperator(b).value)]))
  {
    var opA, opB := ParseOperator(a).value, ParseOperator(b).value;
    var inside, after := [Open(Round), Number(x), Sym(a), Number(y), Close(Round)], [Sym(b), Number(z)];
    var st := State([PushLit(x), PushLit(y), Apply(opA)], []);
    GroupInside(x, a, y);
    OperatorPopsNothing(st, b, z);
    assert [] + [Pending(opB)] == [Pending(opB)];
    assert st.out + [PushLit(z)] == [PushLit(x), PushLit(y), Apply(opA), PushLit(z)];
    ConsumeAppend(State([], []), inside, after);
    assert inside + after == [Open(Round), Number(x), Sym(a), Number(y), Close(Round), Sym(b), Number(z)];
  }

  /** The final loop emits a single pending operator after the output. */
  lemma {:induction false} DrainOne(out: seq<Instr>, op: Opcode)
    ensures Drain(State(out, [Pending(op)])) == Ok(out + [Apply(op)])
  {
    assert [Pending(op)][..0] == [];
    assert Drain(State(out, [Pending(op)])) == Drain(State(out + [Apply(op)], []));
  }

  /**
   * A function name applies to the number right after it, over any stack
   * whose top ranks below the functions' precedence 4: the function waits
   * on top of that stack, and the final loop emits it right after its
   * number, before anything below it. On its own, `sqrt 16` (written
   * without the space) compiles to the number, then the function.
   */
  lemma {:induction false} FunctionPrefix(st: State, name: string, v: real)
    requires ParseOperator(name).Ok? && ParseOperator(name).value.Unary?
    requires st.ops == [] || Rank(st.ops[|st.ops| - 1]) < 4
    ensures var op := ParseOperator(name).value;
      Consume(st, [Sym(name), Number(v)]) == Ok(State(st.out + [PushLit(v)], st.ops + [Pending(op)])) &&
      Drain(State(st.out + [PushLit(v)], st.ops + [Pending(op)])) == Drain(State(st.out + [PushLit(v), Apply(op)], st.ops))
    ensures Compile([Sym(name), Number(v)]) == Ok([PushLit(v), Apply(ParseOperator(name).value)])
  {
    var op := ParseOperator(name).value;
    PrecedenceMatchesOpcode(name);
    assert Precedence(name) == 4;
    OperatorPopsNothing(st, name, v);
    DrainTop(st.out + [PushLit(v)], st.ops, op);
    assert st.out + [PushLit(v)] + [Apply(op)] == st.out + [PushLit(v), Apply(op)];
    var empty := State([], []);
    OperatorPopsNothing(empty, name, v);
    assert empty.out + [PushLit(v)] == [PushLit(v)] && empty.ops + [Pending(op)] == [Pending(op)];
    assert Consume(empty, [Sym(name), Number(v)]) == Ok(State([PushLit(v)], [Pending(op)]));
    DrainOne([PushLit(v)], op);
    assert [PushLit(v)] + [Apply(op)] == [PushLit(v), Apply(op)];
  }

  /** The final loop emits the operator on top first. */
  lemma {:induction false} DrainTop(out: seq<Instr>, ops: seq<Entry>, op: Opcode)
    ensures Drain(State(out, ops + [Pending(op)])) == Drain(State(out + [Apply(op)], ops))
  {
    assert (ops + [Pending(op)])[..|ops|] == ops;
  }

  /** An unclosed bracket fails at the end; a close bracket of another kind, or with nothing open, fails at once. */
  lemma {:induction false} MismatchedExamples()
    ensures Compile([Open(Round), Number(3.0)]) == Err(MismatchedBrackets)
    ensures Compile([Open(Round), Number(3.0), Close(Square)]) == Err(MismatchedBrackets)
    ensures Compile([Number(3.0), Close(Round)]) == Err(MismatchedBrackets)
  {
    var s1 := State([], [] + [Bracket(Round)]);
    var s2 := State([] + [PushLit(3.0)], s1.ops);
    assert Step(State([], []), Open(Round)) == Ok(s1);
    assert Step(s1, Number(3.0)) == Ok(s2);
    assert Step(s2, Close(Square)) == Err(MismatchedBrackets);
    var toks := [Open(Round), Number(3.0)];
    assert toks[1..][1..] == [];
    assert Consume(State([], []), toks) == Ok(s2);
    var toks' := [Open(Round), Number(3.0), Close(Square)];
    assert toks'[1..][1..] == [Close(Square)];
    assert Consume(State([], []), toks') == Err(MismatchedBrackets);
    var toks'' := [Number(3.0), Close(Round)];
    var t1 := State([] + [PushLit(3.0)], []);
    assert Step(State([], []), Number(3.0)) == Ok(t1);
    assert Step(t1, Close(Round)) == Err(MismatchedBrackets);
    assert Consume(State([], []), toks'') == Err(MismatchedBrackets);
  }

  /** The whitespace the tokenizer keeps between `3` and `+` fails as an operator. */
  lemma {:induction false} SpacedInputFails()
    ensures Compile([Number(3.0), Space, Sym("+"), Space, Number(4.0)]) == Err(InvalidOperator)
  {
    var toks := [Number(3.0), Space, Sym("+"), Space, Number(4.0)];
    var s1 := State([] + [PushLit(3.0)], []);
    assert Step(State([], []), toks[0]) == Ok(s1);
    assert ParseOperator(" ") == Err(InvalidOperator);
    assert Step(s1, Space) == Err(InvalidOperator);
    assert toks[1..][0] == Space;
    assert Consume(s1, toks[1..]) == Err(InvalidOperator);
  }
}
