/**
 * How each loop of `parseInput` (interpreter.js, lines 223-260) treats the
 * operator stack, proved about the functions of module `Compiler`.
 */
module CompilerLemmas {
  import opened Wrappers
  import opened Values
  import opened Bytecode
  import opened Operators
  import opened Compiler

  /** A pending operator ranks as its name's `precedence`, so keeping the opcode instead of the name changes nothing. */
  lemma {:induction false} EntryRank(name: string)
    requires ParseOperator(name).Ok?
    ensures Rank(Pending(ParseOperator(name).value)) == Precedence(name)
    ensures Rank(Pending(ParseOperator(name).value)) > 0
  {
    PrecedenceMatchesOpcode(name);
  }

  /** Popping `top` above `rest` emits `top` first. */
  lemma {:induction false} UnwindTop(rest: seq<Entry>, top: Entry)
    requires AllPending(rest) && top.Pending?
    ensures AllPending(rest + [top])
    ensures Unwind(rest + [top]) == [Emit(top)] + Unwind(rest)
  {
    assert (rest + [top])[..|rest|] == rest;
  }

  /** Every entry of `upper` ranks at least `p`. */
  predicate RanksAtLeast(upper: seq<Entry>, p: nat)
  {
    forall i :: 0 <= i < |upper| ==> Rank(upper[i]) >= p
  }

  lemma {:induction false} RanksAtLeastPush(upper: seq<Entry>, top: Entry, p: nat)
    requires RanksAtLeast(upper, p) && Rank(top) >= p
    ensures RanksAtLeast(upper + [top], p)
  {
  }

  lemma {:induction false} PoppedInit(rest: seq<Entry>, top: Entry, p: nat)
    requires RanksAtLeast(rest + [top], p) && AllPending(rest + [top])
    ensures RanksAtLeast(rest, p) && AllPending(rest)
    ensures Rank(top) >= p && top.Pending?
  {
    assert (rest + [top])[|rest|] == top;
    forall i | 0 <= i < |rest| ensures Rank(rest[i]) >= p && rest[i].Pending? {
      assert (rest + [top])[i] == rest[i];
    }
  }

  /** A stack holds only operators exactly when its top and the rest below it do. */
  lemma {:induction false} AllPendingPush(rest: seq<Entry>, top: Entry)
    ensures AllPending(rest + [top]) <==> AllPending(rest) && top.Pending?
  {
    assert (rest + [top])[|rest|] == top;
    if AllPending(rest + [top]) {
      forall i | 0 <= i < |rest| ensures rest[i].Pending? {
        assert (rest + [top])[i] == rest[i];
      }
    }
  }

  /**
   * The operator loop of lines 244-246 splits the stack into `lower` and
   * `upper`: it pops exactly the entries of `upper`, all ranked at least
   * `p`, emitting them top first, and stops at the top of `lower`, ranked
   * below `p` (an open bracket, ranked 0, always stops it).
   */
  lemma {:induction false} PopAtLeastSplit(st: State, p: nat) returns (lower: seq<Entry>, upper: seq<Entry>)
    requires p > 0
    ensures st.ops == lower + upper
    ensures RanksAtLeast(upper, p)
    ensures lower == [] || Rank(lower[|lower| - 1]) < p
    ensures AllPending(upper)
    ensures PopAtLeast(st, p) == State(st.out + Unwind(upper), lower)
  {
    lower, upper := PopAtLeastCut(st.ops, p);
    PopAtLeastOut(st, p, lower, upper);
  }

  /** Where the operator loop stops: below the topmost run of entries ranked at least `p`. */
  lemma {:induction false} PopAtLeastCut(ops: seq<Entry>, p: nat) returns (lower: seq<Entry>, upper: seq<Entry>)
    requires p > 0
    ensures ops == lower + upper
    ensures RanksAtLeast(upper, p)
    ensures lower == [] || Rank(lower[|lower| - 1]) < p
    ensures AllPending(upper)
    decreases |ops|
  {
    var n := |ops|;
    if n > 0 && Rank(ops[n - 1]) >= p {
      var top := ops[n - 1];
      var upper';
      lower, upper' := PopAtLeastCut(ops[..n - 1], p);
      upper := upper' + [top];
      RanksAtLeastPush(upper', top, p);
      assert ops == ops[..n - 1] + [top];
      assert lower + upper == (lower + upper') + [top];
    } else {
      lower, upper := ops, [];
      assert ops + [] == ops;
    }
  }

  /** What the operator loop emits once it is known where it stops: the popped entries, top first. */
  lemma {:induction false} PopAtLeastOut(st: State, p: nat, lower: seq<Entry>, upper: seq<Entry>)
    requires p > 0 && st.ops == lower + upper
    requires RanksAtLeast(upper, p) && AllPending(upper)
    requires lower == [] || Rank(lower[|lower| - 1]) < p
    ensures PopAtLeast(st, p) == State(st.out + Unwind(upper), lower)
    decreases |upper|
  {
    if upper == [] {
      assert st.ops == lower;
    } else {
      var n := |upper|;
      var top := upper[n - 1];
      var upper' := upper[..n - 1];
      assert upper == upper' + [top];
      PoppedInit(upper', top, p);
      assert st.ops == (lower + upper') + [top];
      assert st.ops[..|st.ops| - 1] == lower + upper';
      PopAtLeastOut(State(st.out + [Emit(top)], lower + upper'), p, lower, upper');
      UnwindTop(upper', top);
      assert st.out + [Emit(top)] + Unwind(upper') == st.out + Unwind(upper);
    }
  }

  /** The close-bracket loop of lines 235-237 pops every operator above the topmost open bracket, top first. */
  lemma {:induction false} PopToBracketSplit(st: State) returns (lower: seq<Entry>, upper: seq<Entry>)
    ensures st.ops == lower + upper
    ensures AllPending(upper)
    ensures lower == [] || lower[|lower| - 1].Bracket?
    ensures PopToBracket(st) == State(st.out + Unwind(upper), lower)
    decreases |st.ops|
  {
    var n := |st.ops|;
    if n > 0 && !st.ops[n - 1].Bracket? {
      var top := st.ops[n - 1];
      var rest := st.ops[..n - 1];
      var upper';
      lower, upper' := PopToBracketSplit(State(st.out + [Emit(top)], rest));
      upper := upper' + [top];
      assert st.ops == rest + [top];
      assert lower + upper == (lower + upper') + [top];
      UnwindTop(upper', top);
      assert st.out + [Emit(top)] + Unwind(upper') == st.out + Unwind(upper);
    } else {
      lower, upper := st.ops, [];
      assert st.ops + [] == st.ops;
    }
  }

  /**
   * A close bracket succeeds exactly when the topmost open bracket on the
   * stack is of its own kind: the operators above it (`upper`) are emitted
   * and the bracket is discarded. With no open bracket (`below` empty) or
   * one of another kind it fails with `MismatchedBrackets` (lines 234-241).
   */
  lemma {:induction false} CloseStep(st: State, kind: Kind) returns (below: seq<Entry>, upper: seq<Entry>)
    ensures st.ops == below + upper
    ensures AllPending(upper)
    ensures below == [] || below[|below| - 1].Bracket?
    ensures Step(st, Close(kind)) ==
      if below != [] && below[|below| - 1] == Bracket(kind)
      then Ok(State(st.out + Unwind(upper), below[..|below| - 1]))
      else Err(MismatchedBrackets)
  {
    below, upper := PopToBracketSplit(st);
  }

  /**
   * An operator or function name pops every entry at the top of the stack
   * ranked at least its own precedence, emits them top first, and is pushed
   * (lines 242-248). Ranks strictly below stop it, which makes operators of
   * one rank, `^` included, left-associative.
   */
  lemma {:induction false} OperatorStep(st: State, name: string) returns (lower: seq<Entry>, upper: seq<Entry>)
    requires name in OperatorNames
    ensures st.ops == lower + upper
    ensures AllPending(upper)
    ensures RanksAtLeast(upper, Precedence(name))
    ensures lower == [] || Rank(lower[|lower| - 1]) < Precedence(name)
    ensures Step(st, Sym(name)) ==
      Ok(State(st.out + Unwind(upper), lower + [Pending(ParseOperator(name).value)]))
  {
    lower, upper := PopAtLeastSplit(st, Precedence(name));
  }

  /** Any other symbol, and a whitespace token, fails with `InvalidOperator` before the stack is touched (line 243). */
  lemma {:induction false} InvalidSymbolStep(st: State, t: Token)
    requires t == Space || (t.Sym? && t.name !in OperatorNames)
    ensures Step(st, t) == Err(InvalidOperator)
  {
  }

  /** The final loop emits the whole stack, top first, unless an open bracket is left (lines 252-257). */
  lemma {:induction false} DrainResult(st: State)
    ensures Drain(st) == if AllPending(st.ops) then Ok(st.out + Unwind(st.ops)) else Err(MismatchedBrackets)
    decreases |st.ops|
  {
    var n := |st.ops|;
    if n > 0 {
      var top := st.ops[n - 1];
      var rest := st.ops[..n - 1];
      assert st.ops == rest + [top];
      AllPendingPush(rest, top);
      if top.Pending? {
        DrainResult(State(st.out + [Emit(top)], rest));
        if AllPending(st.ops) {
          UnwindTop(rest, top);
          assert st.out + [Emit(top)] + Unwind(rest) == st.out + Unwind(st.ops);
        }
      }
    } else {
      assert st.out + Unwind(st.ops) == st.out;
    }
  }

  /** The `for` loop over `a + b` is the loop over `a` followed by the loop over `b`. */
  lemma {:induction false} ConsumeAppend(st: State, a: seq<Token>, b: seq<Token>)
    ensures Consume(st, a + b) ==
      match Consume(st, a)
      case Err(e) => Err(e)
      case Ok(st') => Consume(st', b)
    decreases |a|
  {
    if a == [] {
      assert a + b == b;
    } else {
      assert (a + b)[0] == a[0] && (a + b)[1..] == a[1..] + b;
      if Step(st, a[0]).Ok? {
        ConsumeAppend(Step(st, a[0]).value, a[1..], b);
      }
    }
  }
}
