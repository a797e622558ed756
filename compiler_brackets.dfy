/**
 * Which token sequences `parseInput` (interpreter.js, lines 223-260)
 * accepts: exactly those whose symbols all name an operator or a function
 * and whose brackets balance, each close bracket matching the kind of the
 * innermost open one.
 */
module CompilerBrackets {
  import opened Wrappers
  import opened Operators
  import opened Compiler
  import opened CompilerLemmas

  /** The kinds of the open brackets on the operator stack, bottom first. */
  function Brackets(ops: seq<Entry>): seq<Kind>
  {
    if ops == [] then []
    else Brackets(ops[..|ops| - 1]) + (if ops[|ops| - 1].Bracket? then [ops[|ops| - 1].kind] else [])
  }

  /**
   * A reference checker, independent of the operator stack: it tracks only
   * the kinds of the brackets still open.
   */
  function Track(open: seq<Kind>, t: Token): Option<seq<Kind>>
  {
    match t
    case Number(_) => Some(open)
    case Open(k) => Some(open + [k])
    case Close(k) => if |open| > 0 && open[|open| - 1] == k then Some(open[..|open| - 1]) else None
    case Sym(name) => if name in OperatorNames then Some(open) else None
    case Space => None
  }

  /** The token sequence is accepted with `open` brackets already open. */
  predicate Accepts(open: seq<Kind>, tokens: seq<Token>)
    decreases |tokens|
  {
    if tokens == [] then open == []
    else match Track(open, tokens[0])
      case None => false
      case Some(open') => Accepts(open', tokens[1..])
  }

  lemma {:induction false} BracketsPush(ops: seq<Entry>, e: Entry)
    ensures Brackets(ops + [e]) == Brackets(ops) + (if e.Bracket? then [e.kind] else [])
  {
    assert (ops + [e])[..|ops|] == ops;
  }

  /** Operators on the stack hold no brackets. */
  lemma {:induction false} BracketsOverPending(lower: seq<Entry>, upper: seq<Entry>)
    requires AllPending(upper)
    ensures Brackets(lower + upper) == Brackets(lower)
    decreases |upper|
  {
    if upper == [] {
      assert lower + upper == lower;
    } else {
      var n := |upper|;
      var rest := upper[..n - 1];
      assert upper == rest + [upper[n - 1]];
      assert lower + upper == (lower + rest) + [upper[n - 1]];
      PoppedInit(rest, upper[n - 1], 0);
      BracketsPush(lower + rest, upper[n - 1]);
      BracketsOverPending(lower, rest);
    }
  }

  /** A stack holds only operators exactly when it holds no open bracket. */
  lemma {:induction false} NoBrackets(ops: seq<Entry>)
    ensures AllPending(ops) <==> Brackets(ops) == []
    decreases |ops|
  {
    if ops != [] {
      var n := |ops|;
      var rest := ops[..n - 1];
      assert ops == rest + [ops[n - 1]];
      AllPendingPush(rest, ops[n - 1]);
      BracketsPush(rest, ops[n - 1]);
      NoBrackets(rest);
    }
  }

  /** One token succeeds exactly when the reference checker accepts it, and leaves the open brackets it predicts. */
  lemma {:induction false} StepTracks(st: State, t: Token)
    ensures Step(st, t).Ok? <==> Track(Brackets(st.ops), t).Some?
    ensures Step(st, t).Ok? ==> Brackets(Step(st, t).value.ops) == Track(Brackets(st.ops), t).value
  {
    match t
    case Number(_) =>
    case Open(k) =>
      BracketsPush(st.ops, Bracket(k));
    case Close(k) =>
      var below, upper := CloseStep(st, k);
      BracketsOverPending(below, upper);
      if below != [] {
        var lower := below[..|below| - 1];
        assert below == lower + [below[|below| - 1]];
        BracketsPush(lower, below[|below| - 1]);
        assert Brackets(st.ops)[..|Brackets(st.ops)| - 1] == Brackets(lower);
      }
    case Sym(name) =>
      if name in OperatorNames {
        var lower, upper := OperatorStep(st, name);
        BracketsOverPending(lower, upper);
        BracketsPush(lower, Pending(ParseOperator(name).value));
      }
    case Space =>
  }

  lemma {:induction false} ConsumeTracks(st: State, tokens: seq<Token>)
    ensures (match Consume(st, tokens) case Ok(st') => Drain(st').Ok? case Err(_) => false)
      <==> Accepts(Brackets(st.ops), tokens)
    decreases |tokens|
  {
    if tokens == [] {
      DrainResult(st);
      NoBrackets(st.ops);
    } else {
      StepTracks(st, tokens[0]);
      if Step(st, tokens[0]).Ok? {
        ConsumeTracks(Step(st, tokens[0]).value, tokens[1..]);
      }
    }
  }

  /**
   * `parseInput` succeeds exactly when every symbol names an operator or a
   * function, no whitespace token is left in, every close bracket closes
   * an open one of its own kind, and no bracket is left open.
   */
  lemma {:induction false} CompileAccepts(tokens: seq<Token>)
    ensures Compile(tokens).Ok? <==> Accepts([], tokens)
  {
    ConsumeTracks(State([], []), tokens);
  }

  /** A whitespace token anywhere, which the source's tokenizer keeps, makes compilation fail. */
  lemma {:induction false} SpaceFails(tokens: seq<Token>)
    requires Space in tokens
    ensures Compile(tokens).Err?
  {
    CompileAccepts(tokens);
    SpaceRejected([], tokens);
  }

  lemma {:induction false} SpaceRejected(open: seq<Kind>, tokens: seq<Token>)
    requires Space in tokens
    ensures !Accepts(open, tokens)
    decreases |tokens|
  {
    if tokens[0] != Space && Track(open, tokens[0]).Some? {
      assert Space in tokens[1..];
      SpaceRejected(Track(open, tokens[0]).value, tokens[1..]);
    }
  }
}
