# Stack-machine calculator: compiler and interpreter

This project models `interpreter.js` of a browser calculator in Dafny.

- **The compiler.** `parseInput` turns infix tokens into a flat program for a small stack machine. It uses the shunting-yard algorithm, with `precedence` and `parseOperator`.
- **The machine.** The `Interpreter` class runs such a program with `runCode`, `performOperation` and `performUnaryOperation`.

## The model, module by module

- `Values` models the values a program array and the stack hold: `undefined`, `NaN`, numbers (as reals; see "Left out") and strings.
  - The opcode names (`'ADD'`, `'PUSH'`, ...) are strings, as in the source.
  - `DecodeTag` is `runCode`'s `switch`. It compares a slot against the cases in source order.
- `Operators` holds `parseOperator` and `precedence`.
  - The `Level` of an opcode is the precedence of its name.
  - `Symbol` is the name that parses to an opcode.
- `Bytecode` gives an instruction-level view of a program: `PushLit(v)` or `Apply(op)`.
  - `Flatten` lays instructions out in slots the way `parseInput` writes them, with `PUSH` followed by its number.
  - `Unflatten` reads them back.
- `Compiler` holds the specification functions of `parseInput` and the method `ParseInput`.
  - `Step` handles one token. `Consume` handles a token list. `Drain` is the final loop. `Compile` and `CompileToSlots` handle the whole input.
  - `PopAtLeast` and `PopToBracket` are the inner `while` loops.
  - `ParseInput` is the imperative version, with the source's `program` and `operatorStack` and its three loops. It is proved to return exactly `CompileToSlots`.
- `CompilerLemmas`, `CompilerOutput` and `CompilerBrackets` state what the compiler does:
  - how each kind of token changes the operator stack;
  - that the numbers come out in input order;
  - that the output holds exactly the input's operators (as a multiset);
  - that input compiles if and only if its brackets nest properly and every symbol is an operator.
- `CompilerExamples` shows precedence and grouping on short expressions.
- `FlatExpressions` proves that input without brackets compiles by the precedence table. It also proves the one shape that table gets wrong: a function name directly after another.
- `Machine` is the run loop.
  - `Iterate` is one pass of `runCode`'s `while` body. `Exec` is the rest of the loop. `Run` is the whole of `runCode`.
  - The class `Interpreter` has the source's `programCounter`, `stack` and `code` fields.
  - Its methods `PerformOperation`, `PerformUnaryOperation`, `Cycle` (one iteration) and `RunCode` update those fields in place. Each is proved against the specification functions.
- `MachineLemmas` gives reference semantics over instructions: `Effect`, `Eval` and `Report`.
  - It proves that running a flattened program on the machine gives what `Eval` says.
  - It also proves the machine's behaviour at the edges: an unknown slot, too few operands, a `PUSH` in the last slot, an explicit `STOP`.
- `Pipeline` and `Expressions` connect the two halves.
  - Any accepted input runs as its instruction list says.
  - For a fully bracketed arithmetic expression, `parseInput` produces its postfix form. `runCode` then returns the expression's value and leaves the stack as it found it.

JavaScript arithmetic and `Math` functions are not modelled. They are a parameter `Arith` (`binary`, `unary`) over values, so every result holds for any arithmetic.

### Behaviour worth noting

- **The stack is kept between runs.** `runCode` resets only the program counter and the code (interpreter.js:34-35). A value left on the stack by one run is an operand for the next (`Pipeline.StackCarriesOver`, `Pipeline.DanglingOperator`).
- **`performUnaryOperation` has no operand-count check.** It pops without looking, so on an empty stack it applies the function to `undefined` (`MachineLemmas.UnaryOnEmptyStack`).
- **A `PUSH` in the last slot pushes `undefined`.** The read past the end is an ordinary JavaScript read (`MachineLemmas.PushAtEnd`). It is not an error.
- **Whitespace tokens reach `parseOperator` and are rejected.** The token expression keeps runs of whitespace as tokens, so any spaced input fails (`CompilerBrackets.SpaceFails`).
- **Only round brackets reach the compiler.** The token expression matches only `(` and `)`. The square and curly cases of `parseInput` are therefore unreachable from text. The model's compiler still takes all three kinds of bracket tokens and handles them as the code does.
- **`STOP` and faults peek at the top; a normal end pops it.** After `STOP`, an insufficient-operands fault or an invalid operator, `runCode` returns the top of the stack without popping it (interpreter.js:73-77). When the run reaches the end normally, it pops the top (interpreter.js:80). `MachineLemmas.StopKeepsTop` states both.
- **Bracket-free input follows the precedence table.** Operators of equal precedence group to the left, and a function applies to the number right after it (`FlatExpressions.CompileFlat`, `FlatExpressions.FlatCalculates`).
- **A function name right after another splits them.** The `>=` at interpreter.js:244 ranks both names 4, so the second pops the first before the first has an operand.
  - `sin sin 2` compiles to `SIN PUSH 2 SIN` (`FlatExpressions.NestedFunctionsSplit`).
  - On an empty stack it returns `sin(2)` and leaves `sin(undefined)` behind (`FlatExpressions.NestedFunctionsRun`).
  - Nesting needs brackets: `sin (sin 2)`.

## Model

| member | source | states |
|---|---|---|
| Values.TagNameInjective | interpreter.js:3-21 | the nineteen opcode names are pairwise distinct |
| Values.Dispatch | interpreter.js:40-71 | a case chosen for a slot's string carries exactly that string as its name |
| Values.DecodeTag | interpreter.js:40-71 | a slot decodes to an opcode only when it is that opcode's name string |
| Values.SwitchCovers | interpreter.js:40-71 | every opcode has a case in the run loop's switch |
| Values.DispatchFinds | interpreter.js:40-71 | the switch finds an opcode's name in any case list that contains it |
| Values.DecodeTagName | interpreter.js:40-71 | every opcode name decodes back to its opcode |
| Operators.ParseOperator | interpreter.js:181-220 | succeeds exactly on the seventeen operator names, yields a binary or unary opcode, and otherwise fails with the invalid-operator error |
| Operators.Precedence | interpreter.js:264-290 | at most 4, and positive exactly for operator names (brackets and anything else rank 0) |
| Operators.PrecedenceMatchesOpcode | interpreter.js:264-290 | the precedence of a name equals the level of the opcode it parses to |
| Operators.ParseSymbol | interpreter.js:181-220 | each binary or unary opcode has exactly one name that parses to it |
| Operators.WhitespaceIsInvalid | interpreter.js:217-218 | a whitespace-only token is rejected as an invalid operator |
| Bytecode.FlattenAppend | interpreter.js:228-259 | the slot layout of a program is the concatenation of the layouts of its parts |
| Bytecode.UnflattenFlatten | interpreter.js:43-47 | a program without bare PUSH opcodes is read back from its slots unchanged |
| Bytecode.FlattenUnflatten | interpreter.js:43-47 | slots that read back as instructions are exactly those instructions' layout, with no bare PUSH |
| Bytecode.LiteralsAppend | interpreter.js:229-231 | the numbers of a concatenated program are the concatenated numbers |
| Bytecode.OpcodesAppend | interpreter.js:236 | the opcodes of a concatenated program are the concatenated opcodes |
| Bytecode.FlattenLength | interpreter.js:229-231 | a program takes two slots per number and one per operator |
| Compiler.EmitSlot | interpreter.js:245 | emitting a pending operator appends exactly its opcode name to the program |
| Compiler.ParseInput | interpreter.js:223-260 | the imperative compiler returns exactly the program or the error of the specification `CompileToSlots` |
| CompilerLemmas.EntryRank | interpreter.js:243-247 | a pushed operator ranks at its precedence, which is positive |
| CompilerLemmas.UnwindTop | interpreter.js:252-257 | popping operators emits the top one first |
| CompilerLemmas.RanksAtLeastPush | interpreter.js:244-246 | pushing an entry of rank at least p keeps every entry above the cut at rank at least p |
| CompilerLemmas.PoppedInit | interpreter.js:244-246 | removing the top of the popped region keeps it all-pending and of rank at least p |
| CompilerLemmas.AllPendingPush | interpreter.js:252-257 | a stack holds no bracket exactly when its base holds none and its top is an operator |
| CompilerLemmas.PopAtLeastSplit | interpreter.js:244-246 | the precedence loop pops exactly the maximal top run of operators ranked at least p and emits them top first |
| CompilerLemmas.PopAtLeastCut | interpreter.js:244-246 | every operator stack splits into a base whose top ranks below p and a run of operators ranked at least p |
| CompilerLemmas.PopAtLeastOut | interpreter.js:244-246 | given such a split, the loop emits the run top first and leaves the base |
| CompilerLemmas.PopToBracketSplit | interpreter.js:235-237 | the closing loop emits every operator above the nearest bracket, top first, and stops at that bracket or an empty stack |
| CompilerLemmas.CloseStep | interpreter.js:234-241 | a close token succeeds exactly when the nearest bracket below the operators is of its own kind, pops it, and otherwise fails as mismatched |
| CompilerLemmas.OperatorStep | interpreter.js:242-248 | an operator emits the operators ranked at least its precedence, then is pushed |
| CompilerLemmas.InvalidSymbolStep | interpreter.js:243 | a whitespace token or unknown symbol fails with the invalid-operator error |
| CompilerLemmas.DrainResult | interpreter.js:252-257 | the final loop succeeds exactly when no bracket is left open, and emits the remaining operators top first |
| CompilerLemmas.ConsumeAppend | interpreter.js:228-249 | compiling two token lists in turn equals compiling their concatenation, including the error |
| CompilerOutput.EmitKeeps | interpreter.js:245 | emitting an operator moves it from the stack to the output, keeping numbers and the multiset of operators |
| CompilerOutput.UnwindKeeps | interpreter.js:244-246 | emitting a run of operators keeps the numbers and the multiset of operators |
| CompilerOutput.StepKeeps | interpreter.js:228-249 | a token appends its number, if any, to the output numbers and adds its operator, if any, to the operators held |
| CompilerOutput.CloseCaseKeeps | interpreter.js:234-241 | a close bracket keeps the output numbers and the operators held |
| CompilerOutput.OperatorCaseKeeps | interpreter.js:242-248 | an operator token adds exactly its opcode to the operators held |
| CompilerOutput.NumberKeeps | interpreter.js:229-231 | a number token appends exactly that number to the output numbers |
| CompilerOutput.PushKeeps | interpreter.js:233 | pushing an entry adds its operator, if it is one, to the operators held |
| CompilerOutput.CloseKeeps | interpreter.js:234-241 | dropping a bracket after emitting the run above it keeps numbers and operators |
| CompilerOutput.ConsumeKeeps | interpreter.js:228-249 | compiling a token list appends its numbers in input order and adds its operators as a multiset |
| CompilerOutput.CompileOutput | interpreter.js:223-260 | the slots `parseInput` returns hold two per number and one per operator, and decode back to the compiled instructions; its first two clauses repeat `CompileKeeps` |
| CompilerOutput.CompileKeeps | interpreter.js:223-260 | an accepted input's program holds its numbers in order, exactly its operators (a permutation), and no bare PUSH |
| CompilerBrackets.BracketsPush | interpreter.js:232-233 | pushing an open bracket adds its kind to the open brackets |
| CompilerBrackets.BracketsOverPending | interpreter.js:235-237 | operators above the brackets do not change the open brackets |
| CompilerBrackets.NoBrackets | interpreter.js:252-257 | the stack is all operators exactly when no bracket is open |
| CompilerBrackets.StepTracks | interpreter.js:228-249 | a token compiles exactly when the bracket-matching automaton accepts it, and both leave the same open brackets |
| CompilerBrackets.ConsumeTracks | interpreter.js:228-257 | compiling and draining succeed exactly when the automaton accepts the token list |
| CompilerBrackets.CompileAccepts | interpreter.js:223-260 | an input compiles if and only if its brackets nest by kind and every symbol is an operator |
| CompilerBrackets.SpaceFails | interpreter.js:242-243 | an input that contains a whitespace token is rejected |
| CompilerBrackets.SpaceRejected | interpreter.js:242-243 | the bracket automaton rejects any token list with a whitespace token |
| CompilerExamples.OperatorPopsNothing | interpreter.js:244-247 | an operator over a lower-ranked top is pushed without emitting anything |
| CompilerExamples.OperatorPopsOne | interpreter.js:244-247 | an operator over a pending operator of at least its precedence emits that operator first |
| CompilerExamples.FirstOperand | interpreter.js:228-247 | `x a y` at the start leaves `x`, `y` in the output with `a` pending |
| CompilerExamples.LooserSecond | interpreter.js:244-246 | in `x a y b z`, when `a` binds at least as tightly as `b`, `a` is emitted before `z` |
| CompilerExamples.TighterSecond | interpreter.js:244-246 | in `x a y b z`, when `b` binds tighter, `b` is emitted before `a` |
| CompilerExamples.PowerIsLeftAssociative | interpreter.js:244-246 | `2 ^ 3 ^ 2` compiles to `(2 ^ 3) ^ 2` |
| CompilerExamples.MultiplyBindsTighter | interpreter.js:264-290 | `3 + 4 * 2` compiles to `3 + (4 * 2)` |
| CompilerExamples.GroupInside | interpreter.js:232-241 | a bracketed `x a y` is emitted whole when its bracket closes |
| CompilerExamples.GroupThenOperator | interpreter.js:232-247 | after `(x a y)`, an operator finds only the bracket's base and waits for its right operand |
| CompilerExamples.DrainOne | interpreter.js:252-257 | the final loop emits a lone pending operator |
| CompilerExamples.BracketsGroup | interpreter.js:232-257 | `(x a y) b z` computes the group first, whatever the precedences |
| CompilerExamples.FunctionPrefix | interpreter.js:242-257 | over any stack whose top ranks below 4, a function name and a number leave the number emitted and the function waiting; the final loop emits the function right after its number, before anything below it; on its own the pair compiles to the number, then the function |
| CompilerExamples.DrainTop | interpreter.js:252-257 | the final loop emits the operator on top before the rest of the stack |
| CompilerExamples.MismatchedExamples | interpreter.js:238-254 | an unclosed bracket, a bracket closed by another kind, and a close with no open all fail as mismatched |
| CompilerExamples.SpacedInputFails | interpreter.js:242-243 | `3 + 4` written with spaces is rejected |
| Machine.BinaryStep | interpreter.js:83-132 | a binary opcode with two operands pops `b` then `a` and pushes `a op b`; with fewer it faults with insufficient operands and leaves the stack; any other opcode is an invalid operator |
| Machine.UnaryStep | interpreter.js:135-179 | the top is always popped (or `undefined` is taken from an empty stack); a unary opcode pushes its result, anything else faults as an invalid operator |
| Machine.Dispatched | interpreter.js:40-71 | only PUSH reads two slots; the run ends on the unchanged stack exactly for STOP or a binary operator short of operands |
| Machine.Iterate | interpreter.js:36-78 | an iteration advances the counter by one or two, or ends reporting the top of its stack at the current counter |
| Machine.ExecContinue | interpreter.js:72 | an iteration that goes on leaves the outcome to the rest of the loop |
| Machine.ExecHalted | interpreter.js:73-77 | an iteration that ends the run decides its result |
| Machine.Interpreter.constructor | interpreter.js:24-30 | a new interpreter has counter 0, an empty stack and no code |
| Machine.Interpreter.PerformOperation | interpreter.js:83-132 | updates the stack and reports the fault exactly as `BinaryStep` |
| Machine.Interpreter.PerformUnaryOperation | interpreter.js:135-179 | updates the stack and reports the fault exactly as `UnaryStep` |
| Machine.Interpreter.Cycle | interpreter.js:37-77 | one iteration of the loop on the fields, ending the run or going on exactly as `Iterate` says |
| Machine.Interpreter.RunCode | interpreter.js:32-81 | sets the code, and returns and leaves exactly the result, stack and counter of `Run` on the old stack |
| MachineLemmas.EvalAppend | interpreter.js:36-78 | running two programs in turn equals running their concatenation, stopping at the first fault |
| MachineLemmas.InstrIterate | interpreter.js:40-72 | one instruction in the slots does on the machine what `Effect` says, advancing past its slots |
| MachineLemmas.ExecFlatten | interpreter.js:36-80 | the loop over a flattened program, at any offset, reports what `Eval` of its instructions gives |
| MachineLemmas.LayoutFirst | interpreter.js:228-231 | a program's slots start with its first instruction's slots |
| MachineLemmas.FirstInstrGoesOn | interpreter.js:72 | a first instruction that succeeds hands its stack to the rest of the program |
| MachineLemmas.FirstInstrEnds | interpreter.js:73-77 | a first instruction that faults ends the run, reporting its stack's top |
| MachineLemmas.RunFlatten | interpreter.js:32-81 | `runCode` of a flattened program returns and leaves what `Eval` gives: the popped top on success, the peeked top on a fault |
| MachineLemmas.StopKeepsTop | interpreter.js:73-80 | a program that runs to the end pops its top; with STOP appended the same top is returned but stays on the stack |
| MachineLemmas.IterateShift | interpreter.js:36-78 | an iteration does the same on a program with slots in front of it, at the shifted counter |
| MachineLemmas.ExecShift | interpreter.js:36-80 | the rest of the run is the same with slots in front, at shifted counters |
| MachineLemmas.ShiftContinue | interpreter.js:72 | a continuing iteration continues the same way behind a prefix |
| MachineLemmas.ShiftHalted | interpreter.js:73-77 | a halting iteration halts the same way behind a prefix |
| MachineLemmas.UnknownSlotSkipped | interpreter.js:69-72 | a slot that is no opcode is skipped, and the rest runs as without it |
| MachineLemmas.InsufficientOperandsKeepStack | interpreter.js:89-91 | a binary opcode on fewer than two values ends the run at once, reporting the top and keeping the stack |
| MachineLemmas.UnaryOnEmptyStack | interpreter.js:136 | a function on an empty stack is applied to `undefined` and its result returned |
| MachineLemmas.PushAtEnd | interpreter.js:43-47 | a PUSH in the last slot pushes `undefined`, which the run then pops and returns |
| Pipeline.CompiledRun | interpreter.js:223-260 | any accepted input, run on any stack, returns and leaves what `Eval` of its instruction list gives |
| Pipeline.EvalLiteral | interpreter.js:43-47 | a literal pushes its number |
| Pipeline.EvalBinary | interpreter.js:112-127 | a binary operator replaces its two operands by `a op b` |
| Pipeline.TwoLiterals | interpreter.js:80 | of two pushed numbers the second is returned and the first stays on the stack |
| Pipeline.CarriedOperand | interpreter.js:34-35 | a value left by an earlier run is the left operand of this one |
| Pipeline.StackCarriesOver | interpreter.js:34-35 | two runs in a row share one stack: `3 4` then `2 +` gives `3 + 2` |
| Pipeline.DanglingOperator | interpreter.js:73-77 | `x +` compiles, and its run reports `x` and leaves it on the stack |
| Pipeline.TrailingOperator | interpreter.js:252-257 | a trailing operator is emitted after its left operand |
| Expressions.ConsumeCons | interpreter.js:228-249 | compiling a token and then the rest equals compiling the whole list |
| Expressions.OperatorOverBracket | interpreter.js:287-288 | an operator over an open bracket pops nothing, as the bracket ranks 0 |
| Expressions.CloseOverOperator | interpreter.js:234-241 | a close over one operator and its bracket emits the operator and drops the bracket |
| Expressions.ConsumeInfix | interpreter.js:228-249 | the tokens of a bracketed expression compile to its postfix form, whatever stack is below |
| Expressions.ConsumeBin | interpreter.js:228-249 | the same for a binary operation |
| Expressions.LeftOperand | interpreter.js:232-247 | `( l op` compiles `l` and leaves the bracket and operator stacked |
| Expressions.ConsumeFn | interpreter.js:228-249 | the same for a function application |
| Expressions.CompileInfix | interpreter.js:223-260 | a fully bracketed expression compiles to its postfix form |
| Expressions.EvalPostfix | interpreter.js:36-78 | the postfix form pushes the expression's value and leaves the stack below it alone |
| Expressions.Calculates | interpreter.js:223-260 | a bracketed expression compiles and `runCode` returns its value, leaving the stack as before |
| Expressions.CalculatesAs | interpreter.js:32-81 | tokens that compile to an expression's postfix form compute its value on any stack |
| Expressions.TwoOperators | interpreter.js:244-246 | `x a y b z` computes `(x a y) b z` when `a` binds at least as tightly as `b`, and `x a (y b z)` otherwise |
| Expressions.MultiplyFirst | interpreter.js:264-290 | `x + y * z` computes `x + (y * z)` |
| Expressions.PowerGroupsLeft | interpreter.js:244-246 | `x ^ y ^ z` computes `(x ^ y) ^ z` |

| FlatExpressions.UnwindBottom | interpreter.js:252-257 | popping a stack of operators emits its bottom entry last |
| FlatExpressions.RanksAtLeastLower | interpreter.js:244 | a rank bound on stacked operators holds for every lower bound |
| FlatExpressions.RanksAtLeastBottom | interpreter.js:244 | an operator of rank at least p under operators of rank at least p keeps the bound |
| FlatExpressions.StepSymbol | interpreter.js:242-248 | an operator token pops by its own opcode's level and pushes that opcode |
| FlatExpressions.ConsumeFlat | interpreter.js:228-249 | over a stack whose top ranks below the root's precedence, the bracket-free tokens of a layered tree emit part of its postfix form and leave operators of at least that precedence waiting, which popping completes |
| FlatExpressions.ConsumeBinFlat | interpreter.js:242-248 | the operator case: `l op r` emits `l`, leaves `op` waiting under what `r` leaves |
| FlatExpressions.CompileFlat | interpreter.js:223-260 | input without brackets compiles to the postfix form of the tree the precedence table gives it, left-associative within a level |
| FlatExpressions.FlatCalculates | interpreter.js:32-81 | `runCode` returns the value of that tree for such input, and leaves the stack as it was |
| FlatExpressions.NestedFunctionsSplit | interpreter.js:244 | `f g x` with two function names compiles to `f`, then `x`, then `g` |
| FlatExpressions.NestedFunctionsRun | interpreter.js:136 | so on an empty stack it returns `g(x)` and leaves `f(undefined)` on the stack |
| FlatExpressions.EvalNested | interpreter.js:43-67 | the program `f PUSH x g` on an empty stack leaves `f(undefined)` under `g(x)` |
| FlatExpressions.UnaryOnEmpty | interpreter.js:136 | a function on an empty stack takes `undefined` as its operand |
| FlatExpressions.UnaryOnTop | interpreter.js:135-179 | a function replaces the top of the stack by its value |

## Left out

- The page script `main.js` is not part of this model. It handles the input box, the button and the display.
- Tokenizing is not modelled. The model's compiler takes tokens already classified as numbers, symbols, brackets and whitespace.
  - The regular expression at interpreter.js:224 and `parseFloat` are out, as is the `TypeError` on input with no tokens at all.
  - Number text is not modelled either: a number token carries its value.
  - The token expression skips characters it does not match. Its alternation order lexes `sinh`, `cosh` and `tanh` as `sin`, `cos` and `tan` followed by a skipped `h`. The model does not capture this.
- Numbers are modelled as reals. `Num(x)` cannot hold infinities or negative zero, which `DIVIDE` by zero produces at interpreter.js:99. No lemma depends on this, because every result takes its arithmetic from `Arith`.
- JavaScript arithmetic, `Math` functions and floating point are not modelled. They enter as the `Arith` parameter over values, so no property depends on IEEE behaviour or on string concatenation by `+`.
- Console logging is not modelled. It has no effect on results.
- Exceptions become the `Fault` values of `BinaryStep` and `UnaryStep` and the `Result` of the compiler.
  - The `'Execution complete'` error that `STOP` throws has no value in the model: `Machine.Dispatched` ends the run on `STOP` directly.
  - The inner `default` cases at interpreter.js:101-102 and 124-125 cannot be reached, so the model has no counterpart for them.
  - The error messages' text is not kept.
- `this.state` is flattened into the class's three fields.
  - The program counter is an `int`, as JavaScript numbers cannot overflow at these sizes.
  - Aliasing of the `code` array with the caller's array is not modelled: the code is a value.
- The compiler's operator stack holds entries rather than the source's strings: a bracket of a kind, or a pending opcode already parsed.
  - This matches the source: it parses each operator when it is first read (interpreter.js:243), so a stacked name is always a valid one.
  - Popping and emitting parses that name again to the same opcode (`Operators.ParseSymbol`).
