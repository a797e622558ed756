/**
 * The flat bytecode convention shared by `parseInput` and `runCode`
 * (interpreter.js, lines 43-46 and 229-231): the program is one array of
 * slots; a `PUSH` tag is followed by its literal in the very next slot, and
 * every other tag stands alone.
 *
 * `Instr` is the instruction-level reading of such an array; `Flatten` lays
 * instructions out the way the compiler does and `Unflatten` reads them back.
 */
module Bytecode {
  import opened Wrappers
  import opened Values

  datatype Instr = PushLit(v: real) | Apply(op: Opcode)

  /** Instructions that `Flatten` can lay out unambiguously: a bare `PUSH` tag would swallow the next slot. */
  predicate NoBarePush(code: seq<Instr>)
  {
    forall i :: 0 <= i < |code| ==> code[i] != Apply(Push)
  }

  function Slots(i: Instr): seq<Value>
  {
    match i
    case PushLit(v) => [Str(TagName(Push)), Num(v)]
    case Apply(op) => [Str(TagName(op))]
  }

  function Flatten(code: seq<Instr>): (r: seq<Value>)
  {
    if code == [] then [] else Slots(code[0]) + Flatten(code[1..])
  }

  /** Reads a slot array back as instructions, or `None` when it does not follow the convention. */
  function Unflatten(slots: seq<Value>): (r: Option<seq<Instr>>)
    decreases |slots|
  {
    if slots == [] then Some([])
    else match DecodeTag(slots[0])
      case Some(Push) =>
        if |slots| >= 2 && slots[1].Num? then
          match Unflatten(slots[2..])
          case Some(rest) => Some([PushLit(slots[1].x)] + rest)
          case None => None
        else None
      case Some(op) =>
        (match Unflatten(slots[1..])
         case Some(rest) => Some([Apply(op)] + rest)
         case None => None)
      case None => None
  }

  lemma {:induction false} FlattenAppend(a: seq<Instr>, b: seq<Instr>)
    ensures Flatten(a + b) == Flatten(a) + Flatten(b)
  {
    if a != [] {
      assert (a + b)[0] == a[0];
      assert (a + b)[1..] == a[1..] + b;
      FlattenAppend(a[1..], b);
    } else {
      assert a + b == b;
    }
  }

  /** Reading back what was laid out gives the same instructions. */
  lemma {:induction false} UnflattenFlatten(code: seq<Instr>)
    requires NoBarePush(code)
    ensures Unflatten(Flatten(code)) == Some(code)
  {
    if code != [] {
      var rest := Flatten(code[1..]);
      assert NoBarePush(code[1..]);
      UnflattenFlatten(code[1..]);
      assert code == [code[0]] + code[1..];
      match code[0]
      case PushLit(v) =>
        DecodeTagName(Push);
        var slots := Flatten(code);
        assert slots == [Str(TagName(Push)), Num(v)] + rest;
        assert slots[0] == Str(TagName(Push)) && slots[1] == Num(v);
        assert slots[2..] == rest;
        assert Unflatten(slots) == Some([PushLit(v)] + code[1..]);
      case Apply(op) =>
        DecodeTagName(op);
        assert Flatten(code)[1..] == rest;
    }
  }

  /** Whatever reads back as instructions is exactly their layout: the convention has no other encodings. */
  lemma {:induction false} FlattenUnflatten(slots: seq<Value>)
    requires Unflatten(slots).Some?
    ensures Flatten(Unflatten(slots).value) == slots
    ensures NoBarePush(Unflatten(slots).value)
    decreases |slots|
  {
    if slots != [] {
      var op := DecodeTag(slots[0]).value;
      if op == Push {
        FlattenUnflatten(slots[2..]);
        assert slots == [slots[0], slots[1]] + slots[2..];
      } else {
        FlattenUnflatten(slots[1..]);
        assert slots == [slots[0]] + slots[1..];
      }
    }
  }

  /** The literals of a program, in order. */
  function Literals(code: seq<Instr>): seq<real>
  {
    if code == [] then []
    else (if code[0].PushLit? then [code[0].v] else []) + Literals(code[1..])
  }

  /** The opcodes of a program, in order. */
  function Opcodes(code: seq<Instr>): seq<Opcode>
  {
    if code == [] then []
    else (if code[0].Apply? then [code[0].op] else []) + Opcodes(code[1..])
  }

  lemma {:induction false} LiteralsAppend(a: seq<Instr>, b: seq<Instr>)
    ensures Literals(a + b) == Literals(a) + Literals(b)
  {
    if a != [] {
      assert (a + b)[0] == a[0];
      assert (a + b)[1..] == a[1..] + b;
      LiteralsAppend(a[1..], b);
    } else {
      assert a + b == b;
    }
  }

  lemma {:induction false} OpcodesAppend(a: seq<Instr>, b: seq<Instr>)
    ensures Opcodes(a + b) == Opcodes(a) + Opcodes(b)
  {
    if a != [] {
      assert (a + b)[0] == a[0];
      assert (a + b)[1..] == a[1..] + b;
      OpcodesAppend(a[1..], b);
    } else {
      assert a + b == b;
    }
  }

  /** A program takes two slots per literal and one per opcode. */
  lemma {:induction false} FlattenLength(code: seq<Instr>)
    ensures |Flatten(code)| == 2 * |Literals(code)| + |Opcodes(code)|
  {
    if code != [] {
      FlattenLength(code[1..]);
    }
  }
}
