/**
 * The shunting-yard compiler `parseInput` (interpreter.js, lines 223-260).
 *
 * Its input here is the token sequence the source's regular expression
 * produces, already classified the way the loop body classifies each token:
 * a number (`parseFloat` succeeds), one of the three open or close brackets,
 * a whitespace run (which the expression keeps), or any other symbol.
 *
 * The pure functions below follow the source loop by loop: `Step` is one
 * iteration of the `for` loop, `PopAtLeast` and `PopToBracket` its two inner
 * `while` loops, `Drain` the final `while` loop. `ParseInput` is the
 * imperative procedure itself, proved to compute the same result.
 */
module Compiler {
  import opened Wrappers
  import opened Values
  import opened Bytecode
  import opened Operators

  datatype Kind = Round | Square | Curly

  datatype Token = Number(v: real) | Sym(name: string) | Open(kind: Kind) | Close(kind: Kind) | Space

  /** The token's text as the source sees it (a number's digits are not modelled). */
  function Text(t: Token): string
  {
    match t
    case Number(_) => ""
    case Sym(name) => name
    case Open(k) => (match k case Round => "(" case Square => "[" case Curly => "{")
    case Close(k) => (match k case Round => ")" case Square => "]" case Curly => "}")
    case Space => " "
  }

  /**
   * An entry of `operatorStack`: an open bracket, or a pending operator.
   * The source pushes the operator's name and parses it again when it pops
   * it; the model keeps the opcode that line 243 already parsed. Both
   * functions involved are pure, so the two agree (`CompilerLemmas.EntryRank` and
   * `Operators.ParseSymbol`).
   */
  datatype Entry = Bracket(kind: Kind) | Pending(op: Opcode)

  /** `precedence` of a stack entry: a bracket falls to the default 0. */
  function Rank(e: Entry): nat
  {
    match e
    case Bracket(_) => 0
    case Pending(op) => Level(op)
  }

  predicate AllPending(ops: seq<Entry>)
  {
    forall i :: 0 <= i < |ops| ==> ops[i].Pending?
  }

  /** What `program.push(parseOperator(operatorStack.pop()))` emits for a popped operator. */
  function Emit(e: Entry): Instr
    requires e.Pending?
  {
    Apply(e.op)
  }

  /** The instructions emitted by popping every entry of `ops`, top first. */
  function Unwind(ops: seq<Entry>): seq<Instr>
    requires AllPending(ops)
  {
    if ops == [] then [] else [Emit(ops[|ops| - 1])] + Unwind(ops[..|ops| - 1])
  }

  /** The compiler's working state: the program so far and `operatorStack`. */
  datatype State = State(out: seq<Instr>, ops: seq<Entry>)

  /** The loop of lines 244-246: pop and emit while the top ranks at least `p`. */
  function PopAtLeast(st: State, p: nat): State
    requires p > 0
    decreases |st.ops|
  {
    if |st.ops| > 0 && Rank(st.ops[|st.ops| - 1]) >= p then
      PopAtLeast(State(st.out + [Emit(st.ops[|st.ops| - 1])], st.ops[..|st.ops| - 1]), p)
    else st
  }

  /** The loop of lines 235-237: pop and emit until an open bracket is on top. */
  function PopToBracket(st: State): State
    decreases |st.ops|
  {
    if |st.ops| > 0 && !st.ops[|st.ops| - 1].Bracket? then
      PopToBracket(State(st.out + [Emit(st.ops[|st.ops| - 1])], st.ops[..|st.ops| - 1]))
    else st
  }

  /** One iteration of the `for` loop (lines 228-249). */
  function Step(st: State, t: Token): Result<State, CompileError>
  {
    match t
    case Number(v) => Ok(State(st.out + [PushLit(v)], st.ops))
    case Open(k) => Ok(State(st.out, st.ops + [Bracket(k)]))
    case Close(k) =>
      var s1 := PopToBracket(st);
      if |s1.ops| == 0 || s1.ops[|s1.ops| - 1] != Bracket(k) then Err(MismatchedBrackets)
      else Ok(State(s1.out, s1.ops[..|s1.ops| - 1]))
    case _ =>
      match ParseOperator(Text(t))
      case Err(e) => Err(e)
      case Ok(op) =>
        var s1 := PopAtLeast(st, Precedence(Text(t)));
        Ok(State(s1.out, s1.ops + [Pending(op)]))
  }

  /** The whole `for` loop, token by token. */
  function Consume(st: State, tokens: seq<Token>): Result<State, CompileError>
    decreases |tokens|
  {
    if tokens == [] then Ok(st)
    else match Step(st, tokens[0])
      case Err(e) => Err(e)
      case Ok(st') => Consume(st', tokens[1..])
  }

  /** The final loop (lines 252-257): emit what is left, failing on a bracket. */
  function Drain(st: State): Result<seq<Instr>, CompileError>
    decreases |st.ops|
  {
    if |st.ops| == 0 then Ok(st.out)
    else if st.ops[|st.ops| - 1].Bracket? then Err(MismatchedBrackets)
    else Drain(State(st.out + [Emit(st.ops[|st.ops| - 1])], st.ops[..|st.ops| - 1]))
  }

  /** `parseInput` at the level of instructions. */
  function Compile(tokens: seq<Token>): Result<seq<Instr>, CompileError>
  {
    match Consume(State([], []), tokens)
    case Err(e) => Err(e)
    case Ok(st) => Drain(st)
  }

  /** `parseInput` as the source returns it: the flat slot array. */
  function CompileToSlots(tokens: seq<Token>): Result<seq<Value>, CompileError>
  {
    match Compile(tokens)
    case Err(e) => Err(e)
    case Ok(code) => Ok(Flatten(code))
  }

  /** Emitting a popped operator appends its tag, in one slot. */
  lemma {:induction false} EmitSlot(out: seq<Instr>, top: Entry)
    requires top.Pending?
    ensures Flatten(out + [Emit(top)]) == Flatten(out) + [Str(TagName(top.op))]
  {
    FlattenAppend(out, [Emit(top)]);
  }

  /** The source procedure, with its arrays `program` and `operatorStack` grown and shrunk in place. */
  method ParseInput(tokens: seq<Token>) returns (r: Result<seq<Value>, CompileError>)
    ensures r == CompileToSlots(tokens)
  {
    var program: seq<Value> := [];
    var operatorStack: seq<Entry> := [];
    ghost var out: seq<Instr> := [];
    for i := 0 to |tokens|
      invariant program == Flatten(out)
      invariant Consume(State([], []), tokens) == Consume(State(out, operatorStack), tokens[i..])
    {
      var token := tokens[i];
      assert tokens[i..][0] == token && tokens[i..][1..] == tokens[i + 1..];
      if token.Number? {
        FlattenAppend(out, [PushLit(token.v)]);
        program := program + [Str(TagName(Push)), Num(token.v)];
        out := out + [PushLit(token.v)];
      } else if token.Open? {
        operatorStack := operatorStack + [Bracket(token.kind)];
      } else if token.Close? {
        ghost var before := State(out, operatorStack);
        while |operatorStack| > 0 && !operatorStack[|operatorStack| - 1].Bracket?
          invariant program == Flatten(out)
          invariant PopToBracket(State(out, operatorStack)) == PopToBracket(before)
          decreases |operatorStack|
        {
          var top := operatorStack[|operatorStack| - 1];
          operatorStack := operatorStack[..|operatorStack| - 1];
          EmitSlot(out, top);
          program := program + [Str(TagName(top.op))];
          out := out + [Emit(top)];
        }
        if |operatorStack| == 0 || operatorStack[|operatorStack| - 1] != Bracket(token.kind) {
          return Err(MismatchedBrackets);
        }
        operatorStack := operatorStack[..|operatorStack| - 1];
      } else {
        var currentOperator := ParseOperator(Text(token));
        if currentOperator.Err? {
          return Err(currentOperator.error);
        }
        ghost var before := State(out, operatorStack);
        while |operatorStack| > 0 && Rank(operatorStack[|operatorStack| - 1]) >= Precedence(Text(token))
          invariant program == Flatten(out)
          invariant PopAtLeast(State(out, operatorStack), Precedence(Text(token))) == PopAtLeast(before, Precedence(Text(token)))
          decreases |operatorStack|
        {
          var top := operatorStack[|operatorStack| - 1];
          operatorStack := operatorStack[..|operatorStack| - 1];
          EmitSlot(out, top);
          program := program + [Str(TagName(top.op))];
          out := out + [Emit(top)];
        }
        operatorStack := operatorStack + [Pending(currentOperator.value)];
      }
    }
    ghost var before := State(out, operatorStack);
    while |operatorStack| > 0
      invariant program == Flatten(out)
      invariant Drain(State(out, operatorStack)) == Drain(before)
      decreases |operatorStack|
    {
      var top := operatorStack[|operatorStack| - 1];
      if top.Bracket? {
        return Err(MismatchedBrackets);
      }
      operatorStack := operatorStack[..|operatorStack| - 1];
      EmitSlot(out, top);
      program := program + [Str(TagName(top.op))];
      out := out + [Emit(top)];
    }
    return Ok(program);
  }
}
