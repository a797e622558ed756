/**
 * What a run of the stack machine means, stated on instructions instead of
 * slots, and the behaviours of `runCode` that follow from it: `STOP` keeps
 * the top where the normal end pops it, faults leave the stack as it was,
 * unknown slots are skipped, and the stack carries over between runs.
 */
module MachineLemmas {
  import opened Wrappers
  import opened Values
  import opened Bytecode
  import opened Machine

  /**
   * One instruction, read directly: the stack it leaves (`Ok`), or the
   * stack at which it ends the run (`Err`) — a `STOP`, or an operation
   * that threw.
   */
  function Effect(i: Instr, stack: seq<Value>, ar: Arith): Result<seq<Value>, seq<Value>>
  {
    match i
    case PushLit(v) => Ok(stack + [Num(v)])
    case Apply(Binary(b)) =>
      var o := BinaryStep(stack, Binary(b), ar);
      if o.fault.Some? then Err(o.stack) else Ok(o.stack)
    case Apply(Unary(u)) =>
      var o := UnaryStep(stack, Unary(u), ar);
      if o.fault.Some? then Err(o.stack) else Ok(o.stack)
    case Apply(_) => Err(stack)
  }

  /** Reference semantics on instructions: the final stack, or the stack at the instruction that ended the run early. */
  function Eval(code: seq<Instr>, stack: seq<Value>, ar: Arith): Result<seq<Value>, seq<Value>>
  {
    if code == [] then Ok(stack)
    else match Effect(code[0], stack, ar)
      case Ok(s) => Eval(code[1..], s, ar)
      case Err(s) => Err(s)
  }

  /** What `runCode` reports for a reference outcome: the top, popped only on the normal end. */
  function Report(e: Result<seq<Value>, seq<Value>>): (Value, seq<Value>)
  {
    match e
    case Ok(s) => (Peek(s), Pop(s))
    case Err(s) => (Peek(s), s)
  }

  /** Running instructions one after the other is running the first part, then the rest from where it left the stack. */
  lemma {:induction false} EvalAppend(a: seq<Instr>, b: seq<Instr>, stack: seq<Value>, ar: Arith)
    ensures Eval(a + b, stack, ar) == match Eval(a, stack, ar) case Ok(s) => Eval(b, s, ar) case Err(s) => Err(s)
  {
    if a == [] {
      assert a + b == b;
    } else {
      assert (a + b)[0] == a[0];
      assert (a + b)[1..] == a[1..] + b;
      if Effect(a[0], stack, ar).Ok? {
        EvalAppend(a[1..], b, Effect(a[0], stack, ar).value, ar);
      }
    }
  }

  /** One laid-out instruction: the loop reads its tag at `|pre|` and does what the instruction says. */
  lemma {:induction false} InstrIterate(pre: seq<Value>, i: Instr, post: seq<Value>, stack: seq<Value>, ar: Arith)
    requires i != Apply(Push)
    ensures |pre| < |pre + Slots(i) + post|
    ensures Iterate(pre + Slots(i) + post, stack, |pre|, ar) == match Effect(i, stack, ar)
      case Ok(s) => Continue(s, |pre| + |Slots(i)|)
      case Err(s) => Halted(Halt(Peek(s), s, |pre|))
  {
    var code := pre + Slots(i) + post;
    match i
    case PushLit(v) =>
      DecodeTagName(Push);
      assert code[|pre|] == Str(TagName(Push)) && code[|pre| + 1] == Num(v);
    case Apply(op) =>
      DecodeTagName(op);
      assert code[|pre|] == Str(TagName(op));
  }

  /**
   * Running laid-out instructions from their first slot reports what the
   * reference semantics reports: the slot machine and the instruction
   * reading agree for every program the compiler can produce.
   */
  lemma {:induction false} ExecFlatten(pre: seq<Value>, code: seq<Instr>, stack: seq<Value>, ar: Arith)
    requires NoBarePush(code)
    ensures var h := Exec(pre + Flatten(code), stack, |pre|, ar);
      (h.result, h.stack) == Report(Eval(code, stack, ar))
    decreases |code|
  {
    if code == [] {
      assert pre + Flatten(code) == pre;
    } else {
      var e := Effect(code[0], stack, ar);
      LayoutFirst(pre, code);
      if e.Ok? {
        FirstInstrGoesOn(pre, code, stack, ar);
        assert NoBarePush(code[1..]);
        ExecFlatten(pre + Slots(code[0]), code[1..], e.value, ar);
      } else {
        FirstInstrEnds(pre, code, stack, ar);
      }
    }
  }

  /** Laying out a program puts its first instruction's slots first. */
  lemma {:induction false} LayoutFirst(pre: seq<Value>, code: seq<Instr>)
    requires code != []
    ensures pre + Flatten(code) == pre + Slots(code[0]) + Flatten(code[1..])
  {
  }

  /** A first instruction that does not end the run hands the rest of the program its stack. */
  lemma {:induction false} FirstInstrGoesOn(pre: seq<Value>, code: seq<Instr>, stack: seq<Value>, ar: Arith)
    requires NoBarePush(code) && code != [] && Effect(code[0], stack, ar).Ok?
    ensures var c := pre + Slots(code[0]) + Flatten(code[1..]);
      Exec(c, stack, |pre|, ar) == Exec(c, Effect(code[0], stack, ar).value, |pre + Slots(code[0])|, ar)
  {
    var c := pre + Slots(code[0]) + Flatten(code[1..]);
    InstrIterate(pre, code[0], Flatten(code[1..]), stack, ar);
    ExecContinue(c, stack, |pre|, ar, Effect(code[0], stack, ar).value, |pre + Slots(code[0])|);
  }

  /** A first instruction that ends the run decides its outcome. */
  lemma {:induction false} FirstInstrEnds(pre: seq<Value>, code: seq<Instr>, stack: seq<Value>, ar: Arith)
    requires NoBarePush(code) && code != [] && Effect(code[0], stack, ar).Err?
    ensures var c, s := pre + Slots(code[0]) + Flatten(code[1..]), Effect(code[0], stack, ar).error;
      Exec(c, stack, |pre|, ar) == Halt(Peek(s), s, |pre|)
  {
    var c, s := pre + Slots(code[0]) + Flatten(code[1..]), Effect(code[0], stack, ar).error;
    InstrIterate(pre, code[0], Flatten(code[1..]), stack, ar);
    ExecHalted(c, stack, |pre|, ar, Halt(Peek(s), s, |pre|));
  }

  /** `runCode` on a laid-out program, from the machine's current stack. */
  lemma {:induction false} RunFlatten(code: seq<Instr>, stack: seq<Value>, ar: Arith)
    requires NoBarePush(code)
    ensures var h := Run(Flatten(code), stack, ar);
      (h.result, h.stack) == Report(Eval(code, stack, ar))
  {
    ExecFlatten([], code, stack, ar);
    assert [] + Flatten(code) == Flatten(code);
  }

  /**
   * A final `STOP` changes only whether the top is popped: the result is
   * the same, and the value stays on the stack.
   */
  lemma {:induction false} StopKeepsTop(code: seq<Instr>, stack: seq<Value>, ar: Arith)
    requires NoBarePush(code) && Eval(code, stack, ar).Ok?
    ensures var s := Eval(code, stack, ar).value;
      var ended := Run(Flatten(code), stack, ar);
      var stopped := Run(Flatten(code + [Apply(Stop)]), stack, ar);
      ended.result == stopped.result == Peek(s) && ended.stack == Pop(s) && stopped.stack == s
  {
    var s := Eval(code, stack, ar).value;
    RunFlatten(code, stack, ar);
    assert NoBarePush(code + [Apply(Stop)]);
    RunFlatten(code + [Apply(Stop)], stack, ar);
    EvalAppend(code, [Apply(Stop)], stack, ar);
    assert Eval([Apply(Stop)], s, ar) == Err(s);
  }

  /** One iteration behind a prefix the run never reaches reads the same slots, at shifted counters. */
  lemma {:induction false} IterateShift(pre: seq<Value>, code: seq<Value>, stack: seq<Value>, pc: nat, ar: Arith)
    requires pc < |code|
    ensures Iterate(pre + code, stack, |pre| + pc, ar) == match Iterate(code, stack, pc, ar)
      case Continue(next, at) => Continue(next, at + |pre|)
      case Halted(h) => Halted(Halt(h.result, h.stack, h.pc + |pre|))
  {
    var c, at := pre + code, |pre| + pc;
    assert c[at] == code[pc];
    match DecodeTag(code[pc])
    case None =>
    case Some(Stop) =>
    case Some(Push) =>
      if pc + 1 < |code| {
        assert c[at + 1] == code[pc + 1];
      }
    case Some(Binary(b)) =>
      var o := BinaryStep(stack, Binary(b), ar);
      if o.fault.Some? {
        assert Iterate(c, stack, at, ar) == Halted(Halt(Peek(o.stack), o.stack, at));
      }
    case Some(Unary(u)) =>
  }

  /** Program counters shift with a prefix the run never reaches. */
  lemma {:induction false} ExecShift(pre: seq<Value>, code: seq<Value>, stack: seq<Value>, pc: nat, ar: Arith)
    ensures var h := Exec(code, stack, pc, ar);
      Exec(pre + code, stack, |pre| + pc, ar) == Halt(h.result, h.stack, h.pc + |pre|)
    decreases |code| - pc
  {
    if pc < |code| {
      match Iterate(code, stack, pc, ar)
      case Continue(next, at) =>
        ExecContinue(code, stack, pc, ar, next, at);
        ShiftContinue(pre, code, stack, pc, ar, next, at);
        ExecShift(pre, code, next, at, ar);
      case Halted(h) =>
        ExecHalted(code, stack, pc, ar, h);
        ShiftHalted(pre, code, stack, pc, ar, h);
    }
  }

  /** An iteration that goes on goes on in the shifted run too, to the shifted counter. */
  lemma {:induction false} ShiftContinue(pre: seq<Value>, code: seq<Value>, stack: seq<Value>, pc: nat, ar: Arith, next: seq<Value>, at: nat)
    requires pc < |code| && Iterate(code, stack, pc, ar) == Continue(next, at)
    ensures Exec(pre + code, stack, |pre| + pc, ar) == Exec(pre + code, next, |pre| + at, ar)
  {
    IterateShift(pre, code, stack, pc, ar);
    assert |pre + code| == |pre| + |code|;
    assert Iterate(pre + code, stack, |pre| + pc, ar) == Continue(next, |pre| + at);
    ExecContinue(pre + code, stack, |pre| + pc, ar, next, |pre| + at);
  }

  /** An iteration that ends the run ends the shifted run too, at the shifted counter. */
  lemma {:induction false} ShiftHalted(pre: seq<Value>, code: seq<Value>, stack: seq<Value>, pc: nat, ar: Arith, h: Halt)
    requires pc < |code| && Iterate(code, stack, pc, ar) == Halted(h)
    ensures Exec(pre + code, stack, |pre| + pc, ar) == Halt(h.result, h.stack, h.pc + |pre|)
  {
    IterateShift(pre, code, stack, pc, ar);
    assert |pre + code| == |pre| + |code|;
    assert Iterate(pre + code, stack, |pre| + pc, ar) == Halted(Halt(h.result, h.stack, h.pc + |pre|));
    ExecHalted(pre + code, stack, |pre| + pc, ar, Halt(h.result, h.stack, h.pc + |pre|));
  }

  /** A slot that is no known tag is skipped: it only moves the final program counter. */
  lemma {:induction false} UnknownSlotSkipped(v: Value, code: seq<Value>, stack: seq<Value>, ar: Arith)
    requires DecodeTag(v).None?
    ensures var h := Run(code, stack, ar);
      Run([v] + code, stack, ar) == Halt(h.result, h.stack, h.pc + 1)
  {
    ExecShift([v], code, stack, 0, ar);
    assert ([v] + code)[0] == v;
  }

  /** An operator without enough operands ends the run with the stack untouched, reporting its top. */
  lemma {:induction false} InsufficientOperandsKeepStack(b: BinOp, rest: seq<Value>, stack: seq<Value>, ar: Arith)
    requires |stack| < 2
    ensures Run([Str(TagName(Binary(b)))] + rest, stack, ar) == Halt(Peek(stack), stack, 0)
  {
    DecodeTagName(Binary(b));
  }

  /** A function applied to an empty stack takes `undefined` as its operand and leaves its result behind. */
  lemma {:induction false} UnaryOnEmptyStack(u: UnOp, ar: Arith)
    ensures Run([Str(TagName(Unary(u)))], [], ar) == Halt(ar.unary(u, Undefined), [], 1)
  {
    DecodeTagName(Unary(u));
    assert Exec([Str(TagName(Unary(u)))], [ar.unary(u, Undefined)], 1, ar)
      == Halt(ar.unary(u, Undefined), [], 1);
  }

  /** A `PUSH` in the last slot pushes `undefined` and moves the counter two slots, past the end. */
  lemma {:induction false} PushAtEnd(stack: seq<Value>, ar: Arith)
    ensures Run([Str(TagName(Push))], stack, ar) == Halt(Undefined, stack, 2)
  {
    DecodeTagName(Push);
    assert (stack + [Undefined])[..|stack|] == stack;
  }
}
