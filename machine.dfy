/**
 * The stack machine of class `Interpreter` (interpreter.js, lines 23-179):
 * `runCode` walks the bytecode with a program counter, and
 * `performOperation` and `performUnaryOperation` rewrite the top of the
 * value stack.
 *
 * The pure functions `BinaryStep`, `UnaryStep` and `Exec` state what one
 * operation and a whole run do; the methods of class `Interpreter` are the
 * imperative procedures, proved to match them. The arithmetic the source
 * takes from JavaScript (`+`, `Math.pow`, `Math.sin`, ...) is a parameter.
 */
module Machine {
  import opened Wrappers
  import opened Values

  /**
   * JavaScript's arithmetic on the values the stack can hold: a binary
   * operator applied to `a` and `b` (in that order) and a `Math` function
   * applied to one value.
   */
  datatype Arith = Arith(binary: (BinOp, Value, Value) -> Value, unary: (UnOp, Value) -> Value)

  /**
   * The errors `performOperation` and `performUnaryOperation` throw, each
   * caught by `runCode`. The `'Execution complete'` error that `STOP`
   * throws needs no value: `Dispatched` ends the run on it directly.
   */
  datatype Fault = InsufficientOperands | InvalidOperator

  /** The stack after an operation, and the error it threw if any. */
  datatype Outcome = Outcome(stack: seq<Value>, fault: Option<Fault>)

  /** What `runCode` returns, and the stack and program counter it leaves. */
  datatype Halt = Halt(result: Value, stack: seq<Value>, pc: int)

  /** The top of the stack, or `NaN` when it is empty, as `runCode` reports it. */
  function Peek(stack: seq<Value>): Value
  {
    if |stack| > 0 then stack[|stack| - 1] else NaN
  }

  /**
   * `performOperation` (lines 83-132): a binary operator needs two values;
   * with fewer it throws before touching the stack. Otherwise it pops `b`,
   * then `a`, and pushes `a op b`. Any other opcode is an invalid operator.
   */
  function BinaryStep(stack: seq<Value>, op: Opcode, ar: Arith): (r: Outcome)
    ensures r.fault.None? <==> op.Binary? && |stack| >= 2
    ensures r.fault.Some? ==> r.stack == stack
    ensures r.fault == Some(InsufficientOperands) <==> op.Binary? && |stack| < 2
    ensures r.fault.None? ==>
      |r.stack| == |stack| - 1 && r.stack[..|stack| - 2] == stack[..|stack| - 2]
      && r.stack[|stack| - 2] == ar.binary(op.b, stack[|stack| - 2], stack[|stack| - 1])
  {
    if !op.Binary? then Outcome(stack, Some(InvalidOperator))
    else if |stack| < 2 then Outcome(stack, Some(InsufficientOperands))
    else
      var b := stack[|stack| - 1];
      var a := stack[|stack| - 2];
      Outcome(stack[..|stack| - 2] + [ar.binary(op.b, a, b)], None)
  }

  /**
   * `performUnaryOperation` (lines 135-179): pops without checking, so an
   * empty stack yields `undefined` as the operand; then applies the
   * function and pushes the result. Any other opcode throws after the pop.
   */
  function UnaryStep(stack: seq<Value>, op: Opcode, ar: Arith): (r: Outcome)
    ensures r.fault.None? <==> op.Unary?
    ensures r.fault.Some? ==> r.fault == Some(InvalidOperator) && r.stack == Pop(stack)
    ensures r.fault.None? ==>
      |r.stack| == (if |stack| == 0 then 1 else |stack|)
      && r.stack[..|r.stack| - 1] == Pop(stack)
      && r.stack[|r.stack| - 1] == ar.unary(op.u, if |stack| == 0 then Undefined else stack[|stack| - 1])
  {
    var a := if |stack| > 0 then stack[|stack| - 1] else Undefined;
    var rest := Pop(stack);
    if !op.Unary? then Outcome(rest, Some(InvalidOperator))
    else Outcome(rest + [ar.unary(op.u, a)], None)
  }

  /** The stack after `pop()`: unchanged when already empty. */
  function Pop(stack: seq<Value>): seq<Value>
  {
    if |stack| > 0 then stack[..|stack| - 1] else []
  }

  /** How one iteration of the loop ends: the run goes on with a new stack and counter, or it is over. */
  datatype Iteration = Continue(stack: seq<Value>, pc: nat) | Halted(halt: Halt)

  /** What one case of the `switch` does: go on with a stack, having read `width` slots, or end the run at a stack. */
  datatype Move = Next(stack: seq<Value>, width: nat) | End(stack: seq<Value>)

  /** The slot after `pc`, which `PUSH` takes as its operand: `undefined` past the end. */
  function Operand(code: seq<Value>, pc: nat): Value
  {
    if pc + 1 < |code| then code[pc + 1] else Undefined
  }

  /**
   * The `switch (opCode)` of `runCode` (lines 40-71) for the case `tag`:
   * `STOP` and every thrown error end the run; `PUSH` pushes its operand
   * and reads two slots; the `default` case reads one slot and does nothing.
   */
  function Dispatched(tag: Option<Opcode>, stack: seq<Value>, operand: Value, ar: Arith): (r: Move)
    ensures r.Next? ==> 1 <= r.width <= 2
    ensures r.Next? && r.width == 2 <==> tag == Some(Push)
    ensures r.End? && r.stack == stack <==> tag == Some(Stop) || (tag.Some? && tag.value.Binary? && |stack| < 2)
  {
    match tag
    case None => Next(stack, 1)
    case Some(Stop) => End(stack)
    case Some(Push) => Next(stack + [operand], 2)
    case Some(Binary(b)) =>
      var o := BinaryStep(stack, Binary(b), ar);
      if o.fault.Some? then End(o.stack) else Next(o.stack, 1)
    case Some(Unary(u)) =>
      var o := UnaryStep(stack, Unary(u), ar);
      if o.fault.Some? then End(o.stack) else Next(o.stack, 1)
  }

  /**
   * One iteration of the `while` loop of `runCode` (lines 36-78) at `pc`.
   * A run that ends reports the top of the stack without popping it.
   */
  function Iterate(code: seq<Value>, stack: seq<Value>, pc: nat, ar: Arith): (r: Iteration)
    requires pc < |code|
    ensures r.Continue? ==> pc < r.pc <= pc + 2
    ensures r.Halted? ==> r.halt.pc == pc && r.halt.result == Peek(r.halt.stack)
  {
    match Dispatched(DecodeTag(code[pc]), stack, Operand(code, pc), ar)
    case Next(s, width) => Continue(s, pc + width)
    case End(s) => Halted(Halt(Peek(s), s, pc))
  }

  /** The loop from program counter `pc` to its end; running off the end pops the top. */
  function Exec(code: seq<Value>, stack: seq<Value>, pc: nat, ar: Arith): Halt
    decreases |code| - pc
  {
    if pc >= |code| then Halt(Peek(stack), Pop(stack), pc)
    else match Iterate(code, stack, pc, ar)
      case Continue(next, at) => Exec(code, next, at, ar)
      case Halted(h) => h
  }

  /** An iteration that goes on leaves the rest of the run to the loop. */
  lemma {:induction false} ExecContinue(code: seq<Value>, stack: seq<Value>, pc: nat, ar: Arith, next: seq<Value>, at: nat)
    requires pc < |code| && Iterate(code, stack, pc, ar) == Continue(next, at)
    ensures Exec(code, stack, pc, ar) == Exec(code, next, at, ar)
  {
  }

  /** An iteration that ends the run decides its outcome. */
  lemma {:induction false} ExecHalted(code: seq<Value>, stack: seq<Value>, pc: nat, ar: Arith, h: Halt)
    requires pc < |code| && Iterate(code, stack, pc, ar) == Halted(h)
    ensures Exec(code, stack, pc, ar) == h
  {
  }

  /** `runCode(code)` on a machine whose stack holds `stack`: only the program counter is reset. */
  function Run(code: seq<Value>, stack: seq<Value>, ar: Arith): Halt
  {
    Exec(code, stack, 0, ar)
  }

  /** The source's `Interpreter`, with the fields of its `state` object. */
  class Interpreter {
    var programCounter: int
    var stack: seq<Value>
    var code: seq<Value>

    constructor()
      ensures programCounter == 0 && stack == [] && code == []
    {
      programCounter := 0;
      stack := [];
      code := [];
    }

    method PerformOperation(op: Opcode, ar: Arith) returns (fault: Option<Fault>)
      modifies this`stack
      ensures Outcome(stack, fault) == BinaryStep(old(stack), op, ar)
    {
      if !op.Binary? {
        return Some(InvalidOperator);
      }
      if |stack| < 2 {
        return Some(InsufficientOperands);
      }
      var b := stack[|stack| - 1];
      stack := stack[..|stack| - 1];
      var a := stack[|stack| - 1];
      stack := stack[..|stack| - 1];
      stack := stack + [ar.binary(op.b, a, b)];
      return None;
    }

    method PerformUnaryOperation(op: Opcode, ar: Arith) returns (fault: Option<Fault>)
      modifies this`stack
      ensures Outcome(stack, fault) == UnaryStep(old(stack), op, ar)
    {
      var a := Undefined;
      if |stack| > 0 {
        a := stack[|stack| - 1];
        stack := stack[..|stack| - 1];
      }
      if !op.Unary? {
        return Some(InvalidOperator);
      }
      stack := stack + [ar.unary(op.u, a)];
      return None;
    }

    /**
     * One pass of the body of the `while` loop of `runCode` (lines 37-77):
     * the case of the `switch` that the slot at the counter selects, then
     * the step to the next slot unless the run ended.
     */
    method Cycle(ar: Arith) returns (done: bool, result: Value)
      requires 0 <= programCounter < |code|
      modifies this`stack, this`programCounter
      ensures programCounter >= old(programCounter)
      ensures Iterate(code, old(stack), old(programCounter), ar)
        == if done then Halted(Halt(result, stack, programCounter)) else Continue(stack, programCounter)
    {
      var opCode := code[programCounter];
      ghost var stack0, pc0 := stack, programCounter;
      ghost var move := Dispatched(DecodeTag(opCode), stack, Operand(code, programCounter), ar);
      assert Iterate(code, stack0, pc0, ar) == match move
        case Next(s, width) => Continue(s, pc0 + width)
        case End(s) => Halted(Halt(Peek(s), s, pc0));
      match DecodeTag(opCode) {
        case None =>
          assert move == Next(stack, 1);
        case Some(Stop) =>
          assert move == End(stack);
          return true, Peek(stack);
        case Some(Push) =>
          programCounter := programCounter + 1;
          var value := if programCounter < |code| then code[programCounter] else Undefined;
          stack := stack + [value];
          assert move == Next(stack, 2);
        case Some(Binary(b)) =>
          var fault := PerformOperation(Binary(b), ar);
          if fault.Some? {
            assert move == End(stack);
            return true, Peek(stack);
          }
          assert move == Next(stack, 1);
        case Some(Unary(u)) =>
          var fault := PerformUnaryOperation(Unary(u), ar);
          if fault.Some? {
            return true, Peek(stack);
          }
          assert move == Next(stack, 1);
      }
      programCounter := programCounter + 1;
      return false, Undefined;
    }

    method RunCode(code: seq<Value>, ar: Arith) returns (result: Value)
      modifies this
      ensures this.code == code
      ensures Halt(result, stack, programCounter) == Run(code, old(stack), ar)
    {
      ghost var goal := Run(code, stack, ar);
      this.code := code;
      programCounter := 0;
      while programCounter < |this.code|
        invariant this.code == code && programCounter >= 0
        invariant Exec(code, stack, programCounter, ar) == goal
        decreases |code| - programCounter
      {
        ghost var stack0, pc0 := stack, programCounter;
        var done, value := Cycle(ar);
        if done {
          ExecHalted(code, stack0, pc0, ar, Halt(value, stack, programCounter));
          return value;
        }
        ExecContinue(code, stack0, pc0, ar, stack, programCounter);
      }
      if |stack| > 0 {
        result := stack[|stack| - 1];
        stack := stack[..|stack| - 1];
      } else {
        result := NaN;
      }
    }
  }
}
