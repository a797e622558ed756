/**
 * What `parseInput` (interpreter.js, lines 223-260) puts into `program`:
 * every number as a `PUSH` of its value, in token order, and exactly one
 * opcode for each operator token, brackets never.
 */
module CompilerOutput {
  import opened Wrappers
  import opened Values
  import opened Bytecode
  import opened Operators
  import opened Compiler
  import opened CompilerLemmas

  /** The values of the number tokens, in order. */
  function Numbers(tokens: seq<Token>): seq<real>
  {
    if tokens == [] then [] else NumberOf(tokens[0]) + Numbers(tokens[1..])
  }

  /** The opcode each operator or function token names, in order. */
  function OperatorCodes(tokens: seq<Token>): seq<Opcode>
  {
    if tokens == [] then []
    else Named(tokens[0]) + OperatorCodes(tokens[1..])
  }

  function Named(t: Token): seq<Opcode>
  {
    if t.Number? || t.Open? || t.Close? then []
    else match ParseOperator(Text(t))
      case Ok(op) => [op]
      case Err(_) => []
  }

  /** The opcodes still waiting on the operator stack. */
  function Waiting(ops: seq<Entry>): multiset<Opcode>
  {
    if ops == [] then multiset{}
    else Waiting(ops[..|ops| - 1]) + (if ops[|ops| - 1].Pending? then multiset{ops[|ops| - 1].op} else multiset{})
  }

  /** The opcodes emitted so far together with those still waiting. */
  function Pool(st: State): multiset<Opcode>
  {
    multiset(Opcodes(st.out)) + Waiting(st.ops)
  }

  /** No `PUSH` is emitted or waiting without its operand. */
  predicate Sound(st: State)
  {
    NoBarePush(st.out) && forall i :: 0 <= i < |st.ops| ==> st.ops[i] != Pending(Push)
  }

  /** Emitting a popped operator moves its opcode from the stack to the program and adds no literal. */
  lemma {:induction false} EmitKeeps(out: seq<Instr>, ops: seq<Entry>, top: Entry)
    requires top.Pending?
    ensures Literals(out + [Emit(top)]) == Literals(out)
    ensures Pool(State(out + [Emit(top)], ops)) == Pool(State(out, ops + [top]))
    ensures Sound(State(out, ops + [top])) ==> Sound(State(out + [Emit(top)], ops))
  {
    LiteralsAppend(out, [Emit(top)]);
    OpcodesAppend(out, [Emit(top)]);
    assert (ops + [top])[..|ops|] == ops;
    assert Opcodes([Emit(top)]) == [top.op];
    if Sound(State(out, ops + [top])) {
      assert (ops + [top])[|ops|] == top;
      forall i | 0 <= i < |ops| ensures ops[i] != Pending(Push) {
        assert (ops + [top])[i] == ops[i];
      }
      forall i | 0 <= i < |out| + 1 ensures (out + [Emit(top)])[i] != Apply(Push) {
        if i < |out| {
          assert (out + [Emit(top)])[i] == out[i];
        }
      }
    }
  }

  /** Unwinding `upper` above `lower` keeps the literals and the pool of opcodes. */
  lemma {:induction false} UnwindKeeps(out: seq<Instr>, lower: seq<Entry>, upper: seq<Entry>)
    requires AllPending(upper)
    ensures Literals(out + Unwind(upper)) == Literals(out)
    ensures Pool(State(out + Unwind(upper), lower)) == Pool(State(out, lower + upper))
    ensures Sound(State(out, lower + upper)) ==> Sound(State(out + Unwind(upper), lower))
    decreases |upper|
  {
    if upper == [] {
      assert out + Unwind(upper) == out;
      assert lower + upper == lower;
    } else {
      var n := |upper|;
      var top := upper[n - 1];
      var rest := upper[..n - 1];
      assert upper == rest + [top];
      PoppedInit(rest, top, 0);
      UnwindTop(rest, top);
      assert out + Unwind(upper) == (out + [Emit(top)]) + Unwind(rest);
      assert lower + upper == (lower + rest) + [top];
      EmitKeeps(out, lower + rest, top);
      UnwindKeeps(out + [Emit(top)], lower, rest);
    }
  }

  /** The value of a number token. */
  function NumberOf(t: Token): seq<real>
  {
    if t.Number? then [t.v] else []
  }

  /** One token adds its number to the literals, or its opcode to the pool, and nothing else. */
  lemma {:induction false} StepKeeps(st: State, t: Token)
    requires Step(st, t).Ok?
    ensures Literals(Step(st, t).value.out) == Literals(st.out) + NumberOf(t)
    ensures Pool(Step(st, t).value) == Pool(st) + multiset(Named(t))
    ensures Sound(st) ==> Sound(Step(st, t).value)
  {
    match t
    case Number(v) =>
      NumberKeeps(st, v);
    case Open(k) =>
      PushKeeps(st.out, st.ops, Bracket(k));
    case Close(k) =>
      CloseCaseKeeps(st, k);
    case _ =>
      OperatorCaseKeeps(st, t);
  }

  lemma {:induction false} CloseCaseKeeps(st: State, k: Kind)
    requires Step(st, Close(k)).Ok?
    ensures Literals(Step(st, Close(k)).value.out) == Literals(st.out)
    ensures Pool(Step(st, Close(k)).value) == Pool(st)
    ensures Sound(st) ==> Sound(Step(st, Close(k)).value)
  {
    var below, upper := CloseStep(st, k);
    var lower := below[..|below| - 1];
    assert below == lower + [Bracket(k)];
    assert st == State(st.out, lower + [Bracket(k)] + upper);
    CloseKeeps(st.out, lower, upper, k);
  }

  lemma {:induction false} OperatorCaseKeeps(st: State, t: Token)
    requires !t.Number? && !t.Open? && !t.Close? && Step(st, t).Ok?
    ensures Literals(Step(st, t).value.out) == Literals(st.out)
    ensures Pool(Step(st, t).value) == Pool(st) + multiset(Named(t))
    ensures Sound(st) ==> Sound(Step(st, t).value)
  {
    var op := ParseOperator(Text(t)).value;
    var lower, upper := PopAtLeastSplit(st, Precedence(Text(t)));
    assert Named(t) == [op];
    assert op != Push;
    assert st == State(st.out, lower + upper);
    UnwindKeeps(st.out, lower, upper);
    PushKeeps(st.out + Unwind(upper), lower, Pending(op));
  }

  lemma {:induction false} NumberKeeps(st: State, v: real)
    ensures Literals(st.out + [PushLit(v)]) == Literals(st.out) + [v]
    ensures Pool(State(st.out + [PushLit(v)], st.ops)) == Pool(st)
    ensures Sound(st) ==> Sound(State(st.out + [PushLit(v)], st.ops))
  {
    var out' := st.out + [PushLit(v)];
    LiteralsAppend(st.out, [PushLit(v)]);
    OpcodesAppend(st.out, [PushLit(v)]);
    if Sound(st) {
      forall i | 0 <= i < |out'| ensures out'[i] != Apply(Push) {
        if i < |st.out| {
          assert out'[i] == st.out[i];
        }
      }
    }
  }

  /** Pushing an open bracket or an operator other than `PUSH` adds the operator, if any, to the pool. */
  lemma {:induction false} PushKeeps(out: seq<Instr>, ops: seq<Entry>, e: Entry)
    ensures Pool(State(out, ops + [e])) == Pool(State(out, ops)) + (if e.Pending? then multiset{e.op} else multiset{})
    ensures Sound(State(out, ops)) && e != Pending(Push) ==> Sound(State(out, ops + [e]))
  {
    var ops' := ops + [e];
    assert ops'[..|ops|] == ops;
    if Sound(State(out, ops)) && e != Pending(Push) {
      forall i | 0 <= i < |ops'| ensures ops'[i] != Pending(Push) {
        if i < |ops| {
          assert ops'[i] == ops[i];
        }
      }
    }
  }

  /** Closing a bracket emits the operators above it and drops the bracket, keeping the pool. */
  lemma {:induction false} CloseKeeps(out: seq<Instr>, lower: seq<Entry>, upper: seq<Entry>, k: Kind)
    requires AllPending(upper)
    ensures Literals(out + Unwind(upper)) == Literals(out)
    ensures Pool(State(out + Unwind(upper), lower)) == Pool(State(out, lower + [Bracket(k)] + upper))
    ensures Sound(State(out, lower + [Bracket(k)] + upper)) ==> Sound(State(out + Unwind(upper), lower))
  {
    var below := lower + [Bracket(k)];
    UnwindKeeps(out, below, upper);
    PushKeeps(out, lower, Bracket(k));
    if Sound(State(out, below + upper)) {
      forall i | 0 <= i < |lower| ensures lower[i] != Pending(Push) {
        assert lower[i] == (below + upper)[i];
      }
    }
  }

  lemma {:induction false} ConcatAssoc<T>(a: seq<T>, b: seq<T>, c: seq<T>)
    ensures (a + b) + c == a + (b + c)
  {
  }

  lemma {:induction false} ConsumeKeeps(st: State, tokens: seq<Token>)
    requires Consume(st, tokens).Ok?
    ensures Literals(Consume(st, tokens).value.out) == Literals(st.out) + Numbers(tokens)
    ensures Pool(Consume(st, tokens).value) == Pool(st) + multiset(OperatorCodes(tokens))
    ensures Sound(st) ==> Sound(Consume(st, tokens).value)
    decreases |tokens|
  {
    if tokens != [] {
      var st' := Step(st, tokens[0]).value;
      assert Consume(st, tokens) == Consume(st', tokens[1..]);
      StepKeeps(st, tokens[0]);
      ConsumeKeeps(st', tokens[1..]);
      var l0, l1, l2 := Literals(st.out), NumberOf(tokens[0]), Numbers(tokens[1..]);
      assert Numbers(tokens) == l1 + l2;
      ConcatAssoc(l0, l1, l2);
    } else {
      assert Literals(st.out) + Numbers(tokens) == Literals(st.out);
    }
  }

  /** A successful compilation holds every number as a literal in token order and every operator token's opcode exactly once. */
  lemma {:induction false} CompileKeeps(tokens: seq<Token>)
    requires Compile(tokens).Ok?
    ensures Literals(Compile(tokens).value) == Numbers(tokens)
    ensures multiset(Opcodes(Compile(tokens).value)) == multiset(OperatorCodes(tokens))
    ensures NoBarePush(Compile(tokens).value)
  {
    var st0 := State([], []);
    var st := Consume(st0, tokens).value;
    var code := Compile(tokens).value;
    ConsumeKeeps(st0, tokens);
    assert Opcodes([]) == [] && Waiting([]) == multiset{};
    assert Pool(st0) == multiset{};
    assert Pool(st) == multiset(OperatorCodes(tokens));
    DrainResult(st);
    assert code == st.out + Unwind(st.ops);
    UnwindKeeps(st.out, [], st.ops);
    assert [] + st.ops == st.ops;
    assert Pool(State(code, [])) == multiset(Opcodes(code));
  }

  /**
   * The same in slots: two per number and one per operator, decoding back
   * to the same instructions, with the literals in token order.
   */
  lemma {:induction false} CompileOutput(tokens: seq<Token>)
    requires Compile(tokens).Ok?
    ensures Literals(Compile(tokens).value) == Numbers(tokens)
    ensures multiset(Opcodes(Compile(tokens).value)) == multiset(OperatorCodes(tokens))
    ensures |CompileToSlots(tokens).value| == 2 * |Numbers(tokens)| + |OperatorCodes(tokens)|
    ensures Unflatten(CompileToSlots(tokens).value) == Some(Compile(tokens).value)
  {
    var code := Compile(tokens).value;
    CompileKeeps(tokens);
    FlattenLength(code);
    assert |multiset(Opcodes(code))| == |Opcodes(code)|;
    assert |multiset(OperatorCodes(tokens))| == |OperatorCodes(tokens)|;
    UnflattenFlatten(code);
  }
}
