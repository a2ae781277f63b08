# Ctron, modelled and proved

Ctron is a small language with two ways to run a program: a tree-walking interpreter, and an
emitter that writes C on top of a native runtime with threads and channels. This project models
the parts of the compiler and the runtime where one piece of state is shared by many steps, or
where two pieces of code must agree, and proves what they promise each other.

- **Threads and channels** (`Ring`, `Runtime`, `RuntimeInvariants`, `RuntimeTheorems`,
  `RuntimeWakeups`, `RuntimeCalls`). The native runtime is a step system: every access to shared
  memory is one step, and steps of different threads interleave freely. An invariant over every
  reachable state gives delivery in order and exactly once, mutual exclusion, that no wake-up is
  lost, that every call is answered for what it asked, and that no cancellation is lost, also for
  channels made while the broadcast is running.
- **The two executions** (`Syntax`, `Structured`, `FlagInterp`, `FlagMachine`, `FlagTheorem`,
  `CLang`, `Lower`, `Emitter`, `Rules`, `Simulation`, `EmitterTheorem`, `EmitterLimits`, `Helpers`,
  `OneType`, `Meaning`, `Acceptance`, `OperatorMeaning`). A structured semantics is the reference.
  The interpreter's three flags compute it, and the emitted C, with its temporaries, flattened scopes
  and hoisted results, means the same for programs that keep to the rules in `Rules`. `EmitterLimits`
  has programs outside those rules that differ. `Helpers` is both sides' own arithmetic: an operator
  takes its type from its left operand, and a loop variable has one type when interpreted and another
  when emitted. `OneType` says which programs do not notice, and has the theorem with each side
  computing in its own way. `Meaning`, `OperatorMeaning` and `Acceptance` say from the outside what
  the constructs and operators give, and which programs are emitted at all.
- **Arithmetic** (`Widths`, `Arithmetic`, `ArithmeticTheorem`, `MixedOperands`, `BitBuiltins`,
  `BitMeaning`). The interpreter's checked 128-bit arithmetic against the emitted helpers on C's
  types: agreement if and only if a condition on the operands, for every operator and width.
- **Recycled environments** (`RecyclingEnv`, `EnvMachine`, `EnvLaws`). Frames and bindings go through
  free lists and closures mark the chain they keep. Over every well-bracketed run this cannot be
  told from a store that never uses a frame twice, and the answers of that store are lexical scope.
- **The parser's ladder** (`Ladder`, `LadderParser`, `LadderRoundTrip`, `LadderShortest`,
  `LadderCommas`). Printing with parentheses only where a level asks for them, then parsing, is the
  identity, and no shorter text is read as the same tree.
- **Checks** (`MatchCheck`, `MatchTheorem`, `Comptime`, `ConstBudget`, `PackageBudget`, `BudgetLoops`,
  `BudgetMeaning`, `CycleCheck`). Exhaustive matches, budgets for compile-time evaluation, circular
  imports: each is reported exactly when it should be.
- **The memory pool and parallel lists** (`Arena`, `Chunks`). Allocations stay apart over any run;
  chunked map and reduce against the sequential ones.
- **Normal forms of text** (`Text`, `Sorting`, `Manifest*`, `Use*`, `Braces`, `Indent`, `Utf8`). A
  formatted manifest reads back to the same content and formats to itself; sorting and wrapping
  import statements is done after one pass and loses none; indentation is the nesting depth; a
  slice of encoded text is the encoding of a part of it.

Where the code works by changing things step by step, the model is a class or a method with loops
whose contracts tie the new state to a function, and the theorems are about that function. Some
promises are false of the code on some inputs. For those there is a lemma with such an input, and
the condition under which the promise holds; both are listed under "Left out".

Check everything with `dafny verify dfyconfig.toml`.

## Model

| member | source | states |
|---|---|---|
| RingBuffer.Channel.constructor | t36a.c:145 | a new channel is an empty ring with room for at least one value |
| RingBuffer.Channel.TryPut | t36a.c:146 | the locked part of a send refuses a full ring and leaves it alone, or appends the value at the back of the queue |
| RingBuffer.Channel.TryTake | t36a.c:147 | the locked part of a receive refuses an empty ring, or removes exactly the oldest value |
| RingBuffer.PutAppends | t36a.c:146 | with head, tail and count wrapping around, storing is appending to the queued values, and the ring stays a ring |
| RingBuffer.TakeRemovesFront | t36a.c:147 | taking is removing the first queued value, and the ring stays a ring |
| RuntimeInvariants.InvStep | t36a.c:115-147 | every step of every thread keeps the whole invariant: locks, registry, queues, ledgers, tasks and the progress of broadcasts |
| RuntimeTheorems.DeliversExactlyOnceInOrder | t36a.c:145-147 | in every reachable state the accepted values are the delivered ones followed by the ring's contents, and each thread's share of both histories is what its calls reported |
| RuntimeTheorems.HistoriesGrow | t36a.c:146-147 | what was accepted or delivered stays so, in its place, for the rest of the run |
| RuntimeTheorems.MutualExclusion | t36a.c:146-147 | no two threads hold one channel's lock |
| RuntimeTheorems.NoLostCancellation | t36a.c:84-123 | once a panicking task of a scope is done with the broadcast, no task of the scope sleeps or is about to sleep on any channel, whenever that channel was registered, ever after |
| RuntimeTheorems.PendingCallReturnsErr | t36a.c:146-147 | after that, a call of the scope that is waiting on a channel that stays blocked reports the cancellation after at most four steps of its own thread |
| RuntimeTheorems.LockHolderCanMove | t36a.c:84-147 | whoever holds a channel's or the registry's lock can always take its next step, and a call that is awake is stopped by a taken lock only |
| RuntimeTheorems.FailureHasACulprit | t36a.c:115-147 | a channel call fails only if some task of its own scope has panicked |
| RuntimeTheorems.JoinTellsTheTruth | t36a.c:141-144 | a join reports the result of a task that returned and an error exactly for one that panicked, after it ended |
| RuntimeWakeups.NoLostWakeup | t36a.c:146-147 | in every reachable state, whoever sleeps on a channel finds it full, or empty, or the holder of the channel's lock has just made room, or brought a value, and its next step wakes the sleeper |
| RuntimeWakeups.SleepersCannotMove | t36a.c:146-147 | so when no thread is about to signal on a channel nobody sleeps on it who could move, and senders and receivers do not both sleep on it |
| RuntimeCalls.CallsAreAnswered | t36a.c:141-147 | what a thread is told are the answers to its calls, one for one and in order: the value that was sent, a value received, a new channel of the size asked for, the task joined, or a failure; only `ct_join` takes its caller into a panic |
| RuntimeCalls.TasksAreAsAsked | t36a.c:124-144 | a task is in the scope it was spawned in, and its result is what it returned |
| FlagMachine.Machine.EvalExpr | compiler-c/src/rt_eval.c:485-774 | evaluating an expression on the record of frames and flags changes it as the interpreter's function says |
| FlagMachine.Machine.CallDecl | compiler-c/src/rt_core.c:613-660 | a call binds its parameters above the caller's frames, runs the body, and puts back the caller's pending return |
| FlagMachine.Machine.EvalBlock | compiler-c/src/rt_stmt.c:286-298 | statements run until a flag is set, and the block's frame is dropped |
| FlagMachine.Machine.EvalMatch | compiler-c/src/rt_eval.c:757-774 | the first arm whose pattern matches and whose guard holds is run in a frame of its own |
| FlagMachine.Machine.RunWhile | compiler-c/src/rt_stmt.c:229-241 | the loop with its tests of the break, continue and return flags |
| FlagMachine.Machine.RunRange | compiler-c/src/rt_stmt.c:165-228 | the iterations over a range, counted apart from the loop variable |
| FlagTheorem.FlagsComputeStructured | compiler-c/src/rt_stmt.c:36-43 | from any calm state and over any caller's frames, a call gives the structured outcome and leaves frames and flags as they were |
| FlagTheorem.LoopsClearFlags | compiler-c/src/rt_stmt.c:165-241 | after a loop no break or continue is pending, and a return is pending exactly if the structured outcome is a return |
| FlagTheorem.OperandOutlivesReturn | compiler-c/src/rt_eval.c:485-510 | where it fails: `return !{ return true }` returns `false` |
| FlagTheorem.AnnotationChecksReturn | compiler-c/src/rt_stmt.c:20-34 | where it fails: leaving an annotated `let` by `return` checks the returned value against the annotation |
| Shapes.ExprKeeps | compiler-c/src/rt_core.c:269-326 | evaluating an expression leaves every frame with the names it had |
| Emitter.Emitter.EmitValueTo | compiler-c/src/trans_stmt.c:38-88 | writes a value-position `if`, block or expression into a temporary as the lowering function says, and leaves the scope stack as it was |
| Emitter.Emitter.EmitMatch | compiler-c/src/trans_stmt.c:90-265 | writes the scrutinee's temporary, the chain of arms and the result, with the next free temporary |
| Emitter.Emitter.EmitIfStmt | compiler-c/src/trans_stmt.c:269-295 | writes an `if` in statement position |
| Emitter.Emitter.EmitLet | compiler-c/src/trans_stmt.c:300-517 | writes a `let` with a plain, propagating, matching or block value, and adds the name to the innermost scope |
| Emitter.Emitter.EmitReturn | compiler-c/src/trans_stmt.c:640-744 | writes a `return`, hoisting a `match` or block into a temporary |
| Emitter.Emitter.EmitStmt | compiler-c/src/trans_stmt.c:297-881 | writes one statement and gives the names in scope after it |
| Emitter.Emitter.EmitBlock | compiler-c/src/trans_stmt.c:883-915 | writes the statements of a block and its tail |
| Acceptance.PlainIsEmitted | compiler-c/src/trans_expr.c:345-480 | an expression is emitted if and only if it is plain and its names and functions are there |
| Acceptance.FunctionIsEmitted | compiler-c/src/trans.c:153-196 | every function built of plain expressions with bindings, assignments, choices, loops and exits is emitted |
| LowerFacts.StmtConfined | compiler-c/src/trans_stmt.c:297-881 | what is written for a statement declares only names bound in it, sets only names assigned in it, and uses only temporaries counted for it |
| Simulation.SimMatch | compiler-c/src/trans_stmt.c:90-265 | running the emitted `match` ends as the structured one does, with the same variables and the value in the result temporary |
| EmitterTheorem.EmittedCodeMeansTheSame | compiler-c/src/trans.c:153-196 | emitted code is never stuck, and a call of an emitted function halts, runs on or returns exactly when the interpreter does, with the same value |
| Meaning.TryInCall | compiler-c/src/rt_eval.c:715-754 | `?` takes the payload out of `Some` and `Ok`, and a call returns `None` or `Err` as it is |
| Meaning.EmittedTryBinds | compiler-c/src/trans_stmt.c:386-450 | so does an emitted `let x = e?` |
| Meaning.EmittedTryReturns | compiler-c/src/trans_stmt.c:652-713 | so does an emitted `return e?` |
| Meaning.NotMeans | compiler-c/src/rt_eval.c:485-488 | a condition does not hold for `false` and 0, and holds for everything else, for `!` as for what is below |
| Meaning.AndMeans | compiler-c/src/rt_eval.c:493-502 | `&&` gives what both operands give, and looks at the second only where it decides |
| Meaning.OrMeans | compiler-c/src/rt_eval.c:493-502 | so does `||` |
| Meaning.IfChooses | compiler-c/src/rt_eval.c:600-611 | a condition chooses the block or what follows `else` |
| Meaning.WhileRepeats | compiler-c/src/rt_stmt.c:229-241 | a loop ends when its condition fails, at a `break` or at a return, and else goes on |
| Meaning.PatternsFit | compiler-c/src/rt_core.c:562-610 | names fit every value and are bound to it, literals and tags fit themselves alone, and a payload pattern looks at the payload of its own tag |
| Meaning.NamesNest | compiler-c/src/rt_core.c:301-326 | a name is looked up from the innermost frame outwards, set where it is found, and bound in the innermost frame |
| Meaning.ArgumentsArrive | compiler-c/src/rt_core.c:613-660 | arguments reach their parameters by position |
| Meaning.RangesCount | compiler-c/src/rt_stmt.c:165-228 | a loop over a range passes each number once, with or without the upper bound: it adds up to half of `(a + b) (b - a + 1)` |
| OperatorMeaning.OperatorsAnswer | compiler-c/src/rt_eval.c:530-575 | on operands of the program's type both executions answer the exact sum, difference, product, quotient cut off towards zero, remainder or comparison, and nothing if it is out of the type's range, in numbers |
| OperatorMeaning.WrapsAnswer | compiler-c/src/trans_rt.c:112-126 | wrapping sums and differences give the number of the type with the residue of the exact result; at I64 the interpreter gives the exact one |
| OperatorMeaning.NegationAnswers | compiler-c/src/trans_rt.c:101-111 | negation gives the negative where it is of the type, of an unsigned zero in the interpreter only |
| OperatorMeaning.ChecksAnswer | compiler-c/src/rt_eval.c:20-32 | an annotation and a store let through what is of the type, and panic on the rest |
| Helpers.HelpersAgree | compiler-c/src/trans_rt.c:53-232 | on values of the program's own type all operators and negation agree if and only if that type is signed and narrower than 64 bits |
| Helpers.BinAgrees | compiler-c/src/rt_eval.c:530-563 | a binary operator, on operands of the program's type or loop variables in any mixture, agrees if and only if a condition on operator, type and operands holds |
| Helpers.LoopOperandsAgree | compiler-c/src/trans_stmt.c:857-878 | `+ - * / %` with a loop variable on the left, I32 to the interpreter and I64 to the emitter, agree if and only if the divisor is zero or the exact result is of both types or of neither |
| Helpers.LoopWrapAgrees | compiler-c/src/trans_rt.c:112-126 | wrapping sums of a loop variable agree if and only if the 64-bit sum is a 32-bit number |
| Helpers.FitAgrees | compiler-c/src/trans_rt.c:223-232 | the check of an annotation agrees if and only if the declaration's condition on width and value holds |
| OneType.EmittedWithHelpers | compiler-c/src/trans.c:153-196 | the emitter's theorem with the interpreter's arithmetic on one side and the emitted helpers on the other, at every width, for programs whose integers are of one type and whose loop variables are used where their type does not show |
| OneType.LoopTypesDiffer | compiler-c/src/rt_stmt.c:165-228 | where it fails: `for i in a..=a { return i + 1 > a }` at the largest I32 panics when interpreted and returns `true` when emitted |
| EmitterLimits.GuardIsIgnored | compiler-c/src/trans_stmt.c:90-265 | where it fails: a guard is not emitted |
| EmitterLimits.CatchAllDoesNotEndTheMatch | compiler-c/src/trans_stmt.c:90-265 | where it fails: an arm after a catch-all runs as well |
| EmitterLimits.UntypedArmGivesZero | compiler-c/src/trans_stmt.c:451-459 | where it fails: a `match` whose first arm has no known type initialises the variable with 0 |
| EmitterLimits.BlockValueIsNotChecked | compiler-c/src/trans_stmt.c:460-489 | where it fails: an annotation is not checked when the value is a block |
| EmitterLimits.TailIsNotReturned | compiler-c/src/trans_stmt.c:883-915 | where it fails: the tail of a function's body is evaluated and not returned |
| EmitterLimits.ValueBlockLeaks | compiler-c/src/trans_stmt.c:38-88 | where it fails: a value block opens no braces, so its names collide with those after it |
| EmitterLimits.LargeLiteralNeverMatches | compiler-c/src/trans_stmt.c:130 | where it fails: a literal pattern of 2^63 or more is cast to a signed 64-bit number and matches nothing when emitted |
| EmitterLimits.ParameterBoundAgain | compiler-c/src/trans.c:153-196 | where it fails: a parameter bound again at the top of its function is declared twice in one C block |
| EmitterLimits.PatternBoundAgain | compiler-c/src/trans_stmt.c:90-265 | where it fails: so is a pattern's variable bound again in its arm |
| EmitterLimits.IfWithoutElse | compiler-c/src/trans_stmt.c:460-489 | where it fails: `let x = if false { 1 }` binds nothing in the interpreter and 0 when emitted |
| EmitterLimits.BareReturnGivesZero | compiler-c/src/trans_stmt.c:640-744 | where it fails: `return` without a value in a function that has one gives 0 when emitted |
| EmitterLimits.InterpreterCountsOnItsOwn | compiler-c/src/rt_stmt.c:165-228 | where it fails, first half: setting the loop variable back does not repeat an iteration in the interpreter |
| EmitterLimits.CodeNeverEnds | compiler-c/src/trans_stmt.c:857-878 | where it fails, second half: the C loop counts in that variable and never ends |
| Arithmetic.WrapIsResidue | compiler-c/src/rt_core.c:186-200 | except at I64, folding gives the one value in range with the same residue |
| Arithmetic.WrapCommutes | compiler-c/src/rt_core.c:186-200 | except at I64, folding the operands of a sum or difference first changes nothing |
| ArithmeticTheorem.CheckedAgrees | compiler-c/src/trans_rt.c:53-99 | `+ - * / %` at every width: both sides panic, or both give the same value |
| ArithmeticTheorem.WrapAgrees | compiler-c/src/trans_rt.c:112-126 | wrapping `+` and `-` agree if and only if the width is not I64 or the result needs no wrapping |
| ArithmeticTheorem.NegAgrees | compiler-c/src/trans_rt.c:101-111 | negation agrees if and only if it is not of an unsigned zero |
| ArithmeticTheorem.AsAgrees | compiler-c/src/rt_eval.c:34-46 | `as` agrees if and only if it is not to I64 from a value past its range |
| ArithmeticTheorem.DeclAgrees | compiler-c/src/trans_rt.c:223-232 | the range check of a declaration agrees if and only if a condition on width and value holds |
| ArithmeticTheorem.MixedOperandsDiffer | compiler-c/src/trans_expr.c:345-480 | where it fails: U64 5 + (-1) is 4 in the interpreter and a panic in emitted code |
| MixedOperands.MixedAgrees | compiler-c/src/trans_expr.c:345-480 | with a right operand of any 64-bit type, the two sides agree if and only if it is in the helper's parameter range or one of the listed exceptions for the operator holds |
| BitBuiltins.BitsAgree | compiler-c/src/rt_eval.c:399-442 | `and`, `or` and `xor` agree on all values |
| BitBuiltins.NotAgrees | compiler-c/src/trans_conc.c:426-479 | so does the complement |
| BitBuiltins.ShlAgrees | compiler-c/src/trans_conc.c:426-479 | left shifts, panics included, agree if and only if the count means the same as a 32-bit one |
| BitBuiltins.ShrAgrees | compiler-c/src/trans_conc.c:426-479 | so do right shifts, signed ones rounding down |
| BitMeaning.BitwiseMeans | compiler-c/src/rt_eval.c:399-442 | bit by bit, `and`, `or` and `xor` are those of the bits, which are a negative number's in two's complement |
| BitMeaning.ComplementMeans | compiler-c/src/rt_eval.c:399-442 | the complement is what all ones exceed a number by, for signed types one less than its negative |
| BitMeaning.LeftShiftMeans | compiler-c/src/rt_eval.c:399-442 | a left shift within the width multiplies by a power of two, up to the residue; any other count panics |
| BitMeaning.RightShiftMeans | compiler-c/src/rt_eval.c:399-442 | a right shift divides by a power of two and rounds down |
| EnvMachine.Env.Push | compiler-c/src/rt_core.c:269-280 | a new frame on top, in the first free cell if there is one and else in the next new one |
| EnvMachine.Env.Pop | compiler-c/src/rt_core.c:281-300 | the top frame goes; its cell is the first free one now and those of its bindings are free too, unless a closure keeps it, and then no cell moves |
| EnvMachine.Env.Find | compiler-c/src/rt_core.c:301-306 | the innermost binding of the name |
| EnvMachine.Env.Let | compiler-c/src/rt_core.c:307-326 | binds in the top frame; for a name that is there no cell is taken or moved, for a new one a free cell, or a new one if none is free, is put in front |
| EnvMachine.Env.Capture | compiler-c/src/rt_core.c:17-24 | marks the whole current chain and keeps its start |
| EnvMachine.Env.DropScope | compiler-c/src/rt_stmt.c:258-279 | an unmarked frame gives up its bindings, and their cells, at the end of its block; a marked one keeps them |
| EnvMachine.Env.Enter | compiler-c/src/rt_core.c:458-485 | a closure call runs above the closure's frame, with the caller's set aside, in a cell that is always new |
| EnvMachine.Run | compiler-c/src/rt_core.c:269-326 | recycling is invisible and safe: over any bracketed run every lookup answers as a store that never reuses a frame, and every state on the way stands for that store and is safe |
| EnvMachine.RecyclingIsSafe | compiler-c/src/rt_core.c:269-300 | what safe means: free lists are finite and repeat nothing, no live cell is on them, live frames share no cell, and the chain of a marked frame is live and marked |
| EnvLaws.WritesReadBack | compiler-c/src/rt_core.c:301-326 | what is bound, or assigned to a name that is there, is read back, and no other name changes |
| EnvLaws.BlocksRestore | compiler-c/src/rt_core.c:269-300 | a block or closure call that does not assign to a name leaves it as it was, whatever it binds to it inside |
| EnvLaws.AssignmentsLeaveBlocks | compiler-c/src/rt_core.c:269-300 | what a block assigns to a name it does not bind stays behind it |
| EnvLaws.ClosuresSeeWhereTheyWereMade | compiler-c/src/rt_core.c:458-485 | lexical scope: in a closure's body a name is what it was where the closure was made, if nobody has written it since, whatever was opened, closed and called in between |
| LadderParser.Parser.ParseLevel | compiler-c/src/parser_expr.c:169-324 | one level of the ladder moves cursor, depth and diagnostics as the parsing function says |
| LadderParser.Parser.ParsePostfix | compiler-c/src/parser_expr.c:326-432 | calls, indices, members and `?` behind a primary |
| LadderParser.Parser.TypeArgsAhead | compiler-c/src/parser_expr.c:17-33 | the look past a bracket for a call |
| LadderParser.Parser.ParsePrimary | compiler-c/src/parser_expr.c:579-690 | literals, names, parentheses, tuples and lists, under the depth cap |
| LadderRoundTrip.PrintThenParse | compiler-c/src/parser_expr.c:169-432 | parsing what is printed gives the same tree, takes every token and reports nothing, for every tree within the depth cap |
| LadderRoundTrip.PrintIsInjective | compiler-c/src/parser_expr.c:169-432 | so different trees are printed differently |
| LadderShortest.PrintIsShortest | compiler-c/src/parser_expr.c:169-432 | no text that a level reads as a tree without a diagnostic has fewer tokens than the printed one, so no printed parentheses can be spared |
| LadderCommas.CallTakesComma | compiler-c/src/parser_expr.c:326-432 | a comma behind the last argument changes neither the tree nor the diagnostics |
| LadderCommas.ArrayTakesComma | compiler-c/src/parser_expr.c:579-690 | nor does one behind the last element of an array |
| LadderCommas.TupleTakesComma | compiler-c/src/parser_expr.c:579-690 | nor of a tuple |
| LadderCommas.OneWithCommaIsItself | compiler-c/src/parser_expr.c:579-690 | and `(a,)` is `a` |
| LadderCommas.MissingBracket | compiler-c/src/parser_expr.c:579-690 | a closing bracket that is missing is reported once, and what was read is kept |
| LadderCommas.MissingCallBracket | compiler-c/src/parser_expr.c:326-432 | so is a call's |
| MatchCheck.RunMatch | compiler-c/src/rt_core.c:555-610 | the arm that runs is the first whose pattern fits and whose guard agrees, with that pattern's bindings |
| MatchCheck.Check | compiler-c/src/sem.c:636-677 | reports the variants that no arm without a guard names, unless one such arm takes everything |
| MatchTheorem.CoveredNeverFalls | compiler-c/src/sem.c:636-677 | with a catch-all, or each variant taken whole by an arm without a guard, no value falls through, whatever the guards say |
| MatchTheorem.RejectedCanFall | compiler-c/src/sem.c:636-677 | a rejected match falls through for some value of the enum, whatever its payload patterns are |
| MatchTheorem.AcceptedExactly | compiler-c/src/sem.c:636-677 | where named variants are also taken whole, a match is accepted if and only if no value falls through |
| MatchTheorem.GuardsDoNotCount | compiler-c/src/rt_eval.c:757-774 | for any arms, no guards make a value fall through if and only if the arms without a guard take it |
| MatchTheorem.PayloadIsNotChecked | compiler-c/src/sem.c:636-677 | where it fails: `Some(1)` counts as all of `Some` |
| ConstBudget.Evaluator.Expr | compiler-c/src/sem.c:834-916 | evaluating an expression under the step counter |
| ConstBudget.Evaluator.Block | compiler-c/src/sem.c:918-986 | evaluating a block, with its `let`, `return` and `while` |
| ConstBudget.CheckConsts | compiler-c/src/sem.c:988-998 | the constants reported, in order |
| ConstBudget.LargerBudget | compiler-c/src/sem.c:834-998 | an evaluation that ends within its budget is the same under every larger one |
| ConstBudget.ReportedExactly | compiler-c/src/sem.c:834-998 | a constant is reported if and only if no budget lets its evaluation end within 1200 steps |
| ConstBudget.EndlessIsReported | compiler-c/src/sem.c:834-998 | an endless loop and mutual recursion are both reported |
| BudgetLoops.CountersCost | compiler-c/src/sem.c:834-986 | a counter that passes its loop `n` times, for each comparison and both directions, takes `6 n + 6` steps, gives what it has counted to, and is reported exactly from `n = 200` on |
| BudgetLoops.OperatorsGive | compiler-c/src/sem.c:834-916 | products, `&&`, `||` and minus, with the steps that a short circuit saves |
| BudgetMeaning.TailsAreReturned | compiler-c/src/sem.c:834-998 | a call is the value of its tail, or of what it returns |
| BudgetMeaning.NamesMean | compiler-c/src/sem.c:834-998 | arguments reach their parameters by position, and constants their names |
| BudgetMeaning.DivisionMeans | compiler-c/src/sem.c:834-916 | division cuts off towards zero, and by zero it cannot be evaluated |
| PackageBudget.Evaluator.Expr | compiler-c/src/pkg.c:1083-1145 | evaluating under a budget of steps and a cap on nested calls |
| PackageBudget.CheckModule | compiler-c/src/pkg.c:1147-1166 | a module's first constant in error is reported, and none exactly if all end within the budget |
| PackageBudget.LargerBounds | compiler-c/src/pkg.c:1070-1145 | an evaluation within its bounds is the same under larger ones |
| PackageBudget.ErrorExactly | compiler-c/src/pkg.c:1070-1145 | a constant is in error if and only if it needs more steps than the budget or a call deeper than the cap |
| PackageBudget.RecursionIsReported | compiler-c/src/pkg.c:1083-1145 | a function that calls itself is always reported |
| BudgetMeaning.PackageOperators | compiler-c/src/pkg.c:1083-1145 | the operators that are known give exact results, cutting off towards zero and giving zero on a division by zero; comparisons are not evaluated, which is no error |
| BudgetMeaning.PackageCalls | compiler-c/src/pkg.c:1083-1145 | a call is its tail, what it returns, or zero; a callee sees its caller's names behind its own |
| BudgetMeaning.BudgetsMean | compiler-c/src/pkg.c:1147-1166 | ten thousand steps for each millisecond of the manifest's budget, and a million without one |
| CycleCheck.Checker.SortMods | compiler-c/src/pkg.c:939-958 | puts the modules in name order and loses none |
| CycleCheck.Checker.VisitEdges | compiler-c/src/pkg.c:909-930 | after a module's edges: an edge on a cycle is reported, or all of them lead to finished modules |
| CycleCheck.Checker.Check | compiler-c/src/pkg.c:939-958 | one report if the import graph has a cycle and none if it has not, and the reported edge is on a cycle |
| CycleCheck.ReorderKeepsCycles | compiler-c/src/pkg.c:939-958 | whether there is a cycle does not depend on the order of the modules |
| Arena.Pool.Alloc | compiler-c/src/arena.c:149-192 | takes the next aligned bytes of the last block, or of a new one |
| Arena.Pool.TryExtend | compiler-c/src/arena.c:195-216 | grows an allocation in place exactly when its new bytes are free in the last block and still zero, else changes nothing |
| Arena.RunGuarantee | compiler-c/src/arena.c:115-216 | over any list of operations, allocations are aligned, inside their block and apart from each other, stay where they were, and capacity stays under four times what was handed out once there is a second block |
| Arena.AllocatedBytes | compiler-c/src/arena.c:149-216 | over any run, a byte of an allocation that nobody has written is zero if it was handed out with the allocation, and holds what the memory held before if an extension added it |
| Arena.ExtensionsAreNotCleared | compiler-c/src/arena.c:195-216 | where it fails: an extension adds a byte that is 7 |
| Arena.WrittenBytesStay | compiler-c/src/arena.c:149-216 | a byte written into an allocation stays until the next write to it, whatever is allocated or extended |
| Arena.ExtendsExactly | compiler-c/src/arena.c:195-216 | the exact condition for growing in place, and what it changes |
| Chunks.HandOut | t36a.c:175-181 | the loop that cuts the index range among the workers |
| Chunks.ChunksPartition | t36a.c:175-181 | every index is in exactly one worker's chunk, and no chunk leaves the list |
| Chunks.NoRace | t36a.c:170-175 | two busy workers never write one cell, and none writes past the list |
| Chunks.MapIsSequential | t36a.c:170-175 | however the workers interleave, the new list is the sequential map |
| Chunks.ReduceIsDeterministic | t36a.c:176-178 | the order in which the workers run does not show in their results |
| Chunks.ReduceRefinesFold | t36a.c:176-181 | for an associative operation, the chunked reduce is the left fold on every list if and only if the operation absorbs the start value |
| Chunks.SubtractionDiffers | t36a.c:176-181 | where it fails: subtraction on two elements from zero |
| Chunks.StartValueCountsTwice | t36a.c:176-181 | where it fails: a sum that starts from one |
| ManifestReader.StripComment | tools/ctcl_check.py:81-97 | the scan over a line, knowing where strings are, cuts it where the specification does |
| ManifestReader.ReadString | tools/ctcl_check.py:100-115 | a quoted string's value, or that it is malformed |
| ManifestReader.ReadValue | tools/ctcl_check.py:117-148 | booleans, integers, strings and lists, and the code for anything else |
| ManifestReader.TakeNotes | tools/ctcl_check.py:201-204 | a field takes the comments right above it, and empty lines above those are dropped |
| ManifestReader.Reader.ReadLine | tools/ctcl_check.py:153-205 | one line moves blocks, diagnostics and the block being read as the step function says |
| ManifestReader.Reader.ReadText | tools/ctcl_check.py:150-212 | the whole text |
| ManifestTheorem.ParseShape | tools/ctcl_check.py:150-212 | whatever the text, what was read can be rendered |
| ManifestDiagnostics.OpenString | tools/ctcl_check.py:81-97 | a string that is open at the end of its line is one report, and the line does nothing else |
| ManifestDiagnostics.HashComment | tools/ctcl_check.py:81-97 | a comment after `#` is reported, and then taken as one after `//` |
| ManifestDiagnostics.LineInside | tools/ctcl_check.py:192-198 | a line of a block that is no field is reported, and nothing of it is rendered |
| ManifestDiagnostics.NestedIsSkipped | tools/ctcl_check.py:163-167 | a construct that opens braces inside a block is passed over up to where they are closed, with one report, and the block goes on as if it had not been there |
| ManifestDiagnostics.LinesAreNumbered | tools/ctcl_check.py:150-180 | a text of empty lines and then one that opens no block has one report, with that line's number |
| ManifestDiagnostics.OpenBlockAtEnd | tools/ctcl_check.py:206-208 | a block that is not closed is reported at its head, and dropped |
| ManifestDiagnostics.ArgumentNeedsSpace | tools/ctcl_check.py:168-179 | an argument right behind a block's name is reported, and taken |
| ManifestDiagnostics.StringsRead | tools/ctcl_check.py:100-115 | any text in quotes is read back, unless it has a character below U+0020 |
| ManifestDiagnostics.IntegersRead | tools/ctcl_check.py:117-148 | any integer is read back, unless 64 bits cannot hold it |
| ManifestRefusals.FirstRefused | tools/ctcl_check.py:117-137 | a list is refused at its first item that is no string, with a report unless that starts with a quote and does not end with one |
| ManifestRefusals.ListEnds | tools/ctcl_check.py:117-129 | a comma behind the last item, and a bracket that is missing, are each one report |
| ManifestRefusals.LostExactly | tools/ctcl_check.py:100-148 | a value that cannot be read goes without a report if and only if it starts with a quote and does not end with one, or is a list with such an item first among those that are no strings |
| ManifestRefusals.FieldIsLost | tools/ctcl_check.py:100-101 | where "already reported" fails: a field `key = "a" b` has no report, and is not rendered |
| ManifestFixedPoint.FormatIsFixedPoint | tools/ctcl_check.py:339-366 | for every text and schema, the rendering of what was read reads back without a diagnostic to the same content in canonical order, and renders to itself |
| ManifestFixedPoint.CanonicalKeeps | tools/ctcl_check.py:339-366 | canonical order loses and invents nothing: blocks, each block's rows, and the elements of lists that are sets |
| ManifestOrder.RenderedInOrder | tools/ctcl_check.py:339-366 | what is rendered reads back with the schema's numbers of blocks never falling, arguments ascending where they tie, the schema's numbers of fields never falling in a block, and sets ascending, character by character |
| ManifestOrder.TiesStay | tools/ctcl_check.py:339-366 | blocks that tie, and fields that tie, keep the order they stood in, with their comments, values and elements |
| Sorting.InsertionSort | compiler-c/src/fmt.c:642-659 | sorting in place by shifting greater elements up gives the stable sort of what was there |
| UseRoundTrip.StmtPrints | compiler-c/src/fmt.c:512-631 | a statement that is collected prints as it stood, piece by piece |
| UseRoundTrip.StmtReads | compiler-c/src/fmt.c:512-631 | a printed statement is collected as it was, and nothing of what follows is taken into it |
| UsePass.OrderRun | compiler-c/src/fmt.c:711-764 | sorts a run by path unless a statement of it holds a comment |
| UsePass.NormalizeUses | compiler-c/src/fmt.c:711-764 | the loop over runs writes the settled statements and everything before, between and behind the runs |
| UseTheorem.TidyTwice | compiler-c/src/fmt.c:642-709 | sorting and wrapping one statement twice is doing it once; its path and whether it holds a comment stay |
| UseTheorem.TidyKeeps | compiler-c/src/fmt.c:642-709 | one statement keeps its path and its items, each as often as before, and its alias if it is not rewritten |
| UseTheorem.NoImportIsLost | compiler-c/src/fmt.c:711-764 | a file keeps every statement with its path and items, each as often as before |
| UseTheorem.NormalizeTwice | compiler-c/src/fmt.c:711-764 | a second pass changes nothing, where no statement is followed by something that would go on with it |
| UseTheorem.OnceIsNotEnough | compiler-c/src/fmt.c:711-764 | where it fails: a stray group behind the last statement of a run joins another one after sorting |
| UseTheorem.AliasIsLost | compiler-c/src/fmt.c:642-709 | where it fails: sorting the group of `use a.{ c, b } as d` drops the alias |
| UseTheorem.TextBetweenIsLost | compiler-c/src/fmt.c:711-764 | where it fails: tokens between two statements of a run are dropped |
| Braces.MatchBraces | compiler-c/src/fmt.c:437-455 | every brace gets its partner: mutual, properly nested, and none left over that could be joined |
| Braces.MatchingIsUnique | compiler-c/src/fmt.c:437-455 | there is one such assignment only |
| Indent.BlockMultiline | compiler-c/src/fmt.c:214-223 | whether a block's text has a line break |
| Indent.Run | compiler-c/src/fmt.c:298-349 | at every token the counter is the number of multi-line blocks around it, unmatched braces or not, and it never has to be kept from going below zero |
| Indent.BracesAlign | compiler-c/src/fmt.c:298-349 | a block's two braces are indented alike |
| Indent.InsideIsDeeper | compiler-c/src/fmt.c:298-349 | what is inside a multi-line block is indented further than its braces |
| Utf8.EncodingIsInjective | compiler-c/src/lexer.c:227-242 | different texts have different encodings |
| Utf8.ReadEscape | compiler-c/src/lexer.c:310-329 | an escape of any number of digits is taken exactly when they write a scalar, although the accumulator has 32 bits |
| Utf8.CharLen | compiler-c/src/rt_eval.c:678-684 | counts the bytes that do not continue a character |
| Utf8.CharLenCountsScalars | compiler-c/src/rt_eval.c:678-684 | on encoded text that is the number of scalars |
| Utf8.SliceRespectsScalars | compiler-c/src/rt_eval.c:1449-1467 | a slice from `lo`, or the first byte, to `hi`, or behind it, or the end, panics exactly when an end is inside a character or they are out of order, and otherwise is the encoding of the scalars between |

## Left out

What the members above do not promise:

- FlagTheorem.FlagsComputeStructured: `for` over arrays and iterators and the Drop calls at the end of a block are not modelled; operands that are left early by `return`, `break` or `continue`, and an annotated `let` left by `return`, are excluded, since there the flags do compute something else (`OperandOutlivesReturn`, `AnnotationChecksReturn`). The rule is sufficient; that every program outside it differs is false and not claimed.
- FlagMachine.Machine.RunRange: ranges only, not arrays or iterators. That the loop variable is an I32 is kept in its value, `CountV`, and told by `Helpers.RunType`.
- EmitterTheorem.EmittedCodeMeansTheSame: holds for programs that keep to `Rules`. The rules are sufficient; `EmitterLimits` has programs outside them that differ, and it is not claimed that every program outside them does. Both sides use one record of primitives; what each side's own arithmetic does to the statement is `OneType.EmittedWithHelpers`. The value of a call to a function without a result is not compared.
- OneType.EmittedWithHelpers: every integer annotation, parameter, result and literal is of one type `w` (a literal carries its suffix, which it may lack at I32), and so are the arguments of the call where no annotation checks them. A loop variable stands alone as the right operand of an operator, on either side of a comparison, as a bound, as the scrutinee of a `match` that does not bind it, or where an annotation or an assignment checks it. Unsigned programs do not negate (`Helpers.NegAgrees`), I64 programs do not use `+%` and `-%` (`BinAgrees`), U64 programs do not mix loop variables in but for comparisons and bounds (`FitAgrees`). The condition is sufficient for a program; for single operations the conditions are exact.
- MatchTheorem.AcceptedExactly: asks that variants which are named are also taken whole; without that a literal in a payload is accepted although `Some(2)` falls through (`PayloadIsNotChecked`). What holds for any arms is `GuardsDoNotCount`.
- ArithmeticTheorem.CheckedAgrees: asks that the right operand is in the range of the helper's parameter; the exact condition for any other is `MixedAgrees`, and `U64 5 + (-1)` is the input of `MixedOperandsDiffer`.
- RuntimeTheorems.PendingCallReturnsErr: that the thread is scheduled again is not promised by the runtime and not by the theorem.
- ConstBudget.CheckConsts: the operators are C's with truncating division on unbounded integers; what a 128-bit overflow does is not modelled. `ReportedExactly` holds for any operators.
- PackageBudget.CheckModule: as above for `long`; modules that did not parse are skipped before this.
- CycleCheck.Checker.Check: every module has parsed; paths of `use` are already split.
- Arena.RunGuarantee: sizes near 2^64, a failing `malloc` and the debug counters are not modelled; where the system puts a block is a parameter.
- Chunks.HandOut: overflow of `int` within eight of 2^31 elements is not modelled.
- ManifestReader.Reader.ReadHead: the regular expressions for a head and a field are modelled as scans of a stripped line, in `ParseHead` and `ParsePair`.
- ManifestFixedPoint.FormatIsFixedPoint: texts are sequences of characters and diagnostics are kept by code and line, without their messages. Rows without a value are dropped before sorting and not after it.
- UseTheorem.NormalizeTwice: asks, in `Apart`, that no statement is followed by a dot, or by `as` on its line, that was not taken into it; `OnceIsNotEnough` has a file where one is. A source is a list of tokens, blanks, comments and line breaks; that the pieces written are those the lexer finds in their text is not proved.
- UsePass.NormalizeUses: the scan that collects the statements is a function on the remaining pieces, `ReadDoc`, not a loop.
- UseTheorem.NoImportIsLost: aliases of rewritten groups (`AliasIsLost`) and tokens between statements of a run (`TextBetweenIsLost`) are not kept by the code.
- Indent.Run: the one further level of a broken chain of members, and what is written between tokens, are not modelled.
- Utf8.SliceRespectsScalars: an upper bound below zero is excluded, where the code reads ahead of the string, and so is an inclusive bound at the largest 64-bit number. Text holds no U+0000, which ends a C string.

Inputs on which the code does not do what it is for, each shown by a lemma:

- `return !{ return true }` returns `false` in the interpreter (`FlagTheorem.OperandOutlivesReturn`); `let x: T = { return 300 }` checks 300 against `T` (`FlagTheorem.AnnotationChecksReturn`).
- `match 0 { 0 if false => panic, _ => 1 }`, `match 0 { _ => 1, 0 => panic }`, `let x: Bool = match 0 { _ => true || false }`, `let x: T = { i }` with `i` outside `T`, `let x = if false { 1 }`, `fn f() -> T { 1 }`, `return` alone in a function with a result, a name bound inside a value block and again after it, a parameter or a pattern's variable bound again in its own block, a U64 matched against a literal of 2^63 or more, and a `for` whose body sets the loop variable: interpreted and emitted programs differ (the lemmas of `EmitterLimits`).
- `for i in a..=a { return i + 1 > a }` with `a: I32` at its largest panics when interpreted and returns `true` when emitted (`OneType.LoopTypesDiffer`); exactly when one operation on a loop variable agrees: `Helpers.LoopOperandsAgree`, `LoopWrapAgrees`, `LoopNegAgrees`.
- `5 + (-1)` with a U64 on the left is 4 interpreted and a panic emitted (`ArithmeticTheorem.MixedOperandsDiffer`); exactly when for all operands: `MixedOperands.MixedAgrees`, `ArithmeticTheorem.WrapAgrees`, `NegAgrees`, `AsAgrees`, `DeclAgrees`, `BitBuiltins.ShlAgrees`, `ShrAgrees`.
- `match v { Some(1) => …, None => … }` is accepted and `Some(2)` falls through (`MatchTheorem.PayloadIsNotChecked`).
- Extending an allocation of 8 bytes to 24 in memory that holds sevens adds bytes that are 7, although allocations are zeroed (`Arena.ExtensionsAreNotCleared`); exactly which bytes are zero: `Arena.AllocatedBytes`.
- The parallel reduce of `[1, 2]` by subtraction from 0 is 1 and not -3, by addition from 1 it is 5 and not 4 (`Chunks.SubtractionDiffers`, `Chunks.StartValueCountsTwice`).
- `use a.{ c, b } as d` loses its alias, `use a x use b` loses `x`, and `use b.c` before `use a.{ x }.{ z, y }` is not done after one pass (`UseTheorem.AliasIsLost`, `TextBetweenIsLost`, `OnceIsNotEnough`).
- A field `key = "a" b` of a manifest vanishes when it is formatted, without a report (`ManifestRefusals.FieldIsLost`), although validation (tools/ctcl_check.py:271) counts on one; exactly when: `ManifestRefusals.LostExactly`.

What is not modelled:

- The coroutine mode of the runtime, the collector, and a failing registry allocation; reads of shared words are atomic, and a panic or return of the main thread ends the run.
- Values of the two executions beyond integers, booleans and tagged values with one payload: strings, floats, structs, tuples, closures, and assignment to members and elements.
- Evaluation order inside a C expression: plain operands have no side effects on variables, and calls in them are taken left to right.
- `own` and scope blocks, errors erased in two stages, and the variants for `main` and tests; names starting with the emitter's own prefix; the text and layout of the C.
- Runs are measured by a bound on calls and iterations; `Dry` is a run that goes past it. A failed check and a panic are one outcome, `Halt`.
- Drop methods in recycled environments, and sharing between values: values are whole and copied.
- Type arguments, closures, `if`, `match` and struct literals as primaries of the ladder, and tuple members: such input gives `EOutside`.
- Matches on anything but an enum are not checked by the code, and not by the model; guards are arbitrary functions of what a pattern binds.
- The manifest's validation against its schema, the loading of schemas, and suggestions for misspelt keys.
- The formatter's spaces between tokens and its comments, the language server, and everything that touches files.
