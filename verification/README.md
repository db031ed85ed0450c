# Models of the Ü compiler, its interpreter and its language server

The project models the parts of the repository with the most state and branching, and proves what they
are for. Every module below is a model of one component, in the component's own form: the code builder,
the document, the interpreter and the memory are classes whose methods change fields; loops of the source
are loops here; each method is proved against a function on values, and the properties are proved about
that function.

- **Control-flow lowering** (`StructuredCode`, `BasicBlocks`, `Simulation`, `StraightCode`, `BuilderState`,
  `StatementRules`, `CompoundRules`, `BuildSteps`, `SwitchSteps`, `Legality`, `LegalStatements`, `StatementRuns`,
  `Reachability`, `Temporaries`, `Lowering`, `Lifetimes`, `FunctionLowering`, `SwitchRanges`). Structured statements (blocks, labelled blocks, if, while, loop,
  C-style for, tuple-for, with, switch, break, continue, return, halt) are lowered to basic blocks by a mutable
  builder with an insertion point, loop frames and destruction frames. The finished blocks are
  well-formed and do what the statements mean: the same events in the same order, and the same way of
  ending, for every environment and every run, including runs that never end; and a function is lowered exactly if it is
  legal by its syntax alone. Legality is characterized statement by statement, and the terminal flag by what runs can do. Statements have a direct semantics on
  the syntax tree; expressions are opaque events whose values may be any function of all earlier events.
- **Async-call inlining** (`AsyncCallGraph`, `InliningOrder`, `Coroutines`, `CoroutineBlocks`, `AsyncInlining`,
  `InliningSimulation`). The scheduler peels the call graph from both sides; the transformation flattens
  an awaited coroutine into its caller.
- **Return value optimization** (`ReturnValue`), the sibling pass on memory.
- **Constexpr interpreter** (`TypedMemory`, `AddressSpace`, `InstructionBudget`): typed loads and stores,
  element addresses, the three segments and their allocators, and the nested execution loops with their global
  instruction budget, which agree with a machine that has an explicit stack.
- **System V classification** (`SystemV`), section 3.2.3 of the System V Application Binary Interface, AMD64
  Architecture Processor Supplement.
- **Document tracking** (`TextChanges`, `Documents`): edits during a background build, the change log, and
  the mapping of positions.
- **Identifier translation** (`Keywords`, `Identifiers`), with a decoder as its inverse and the keywords of the language.

`Options` and `Numbers` hold what several components share.

Reading order: for each component the data types and meaning come first, then small lemmas, then the class
or method of the source, then the theorems about whole runs.

Some results are negative. The log of a document does not always lead from the compiled text to the current
one: `Documents.FirstBuildLosesEdits` and `Documents.SetTextIsNotTracked` show the runs, and
`Documents.CarefulIsNeeded` says exactly which guard decides it. Return value optimization keeps the
meaning of a run if and only if the result holds the variable's last value when the run returns
(`ReturnValue.OptimizationIsExact`). It can change the result of a function that writes the variable after its
last copy (`ReturnValue.WriteAfterCopyShows`); the source does not look for such writes and relies on its frontend.
The terminal flag is exact except for C-style for: one without condition is left by some run exactly if there is a
break to it, but the flag is never set (`Reachability.ForIsLeft`, `Reachability.EndlessFor`). A translated identifier
can be one of the converter's own names, exactly if it is a keyword that lacks the underscore of that name, such as
`enum` (`Identifiers.ReservedOnlyByKeywords`); no C header has that as an identifier.

## Model

| member | source | states |
|---|---|---|
| `FunctionLowering.BuildFunction` | source/compiler0/code_builder_lib/code_builder.cpp:2098-2136 | a function is lowered exactly if it is legal; the blocks are then well-formed (one terminator each, all branch targets inserted) and run as the body means, for every environment and fuel |
| `FunctionLowering.SameReturns` | source/compiler0/code_builder_lib/cb_block_elements.cpp:3058-3101 | the blocks return with a trace exactly when the structured body returns with it |
| `FunctionLowering.SameHalts` | source/compiler0/code_builder_lib/cb_block_elements.cpp:2981-3039 | the blocks stop in "halt" with a trace exactly when the structured body does |
| `FunctionLowering.SameDivergence` | source/compiler0/code_builder_lib/cb_block_elements.cpp:1385-1517 | the blocks run forever exactly when the structured body does |
| `FunctionLowering.NeverStuck` | source/compiler0/code_builder_lib/cb_block_elements.cpp:1798-1827 | no run reaches an "unreachable", a missing block or the end of a block, so nothing gets past a statement whose terminal flag is set |
| `FunctionLowering.EventsAsMeant` | source/compiler0/code_builder_lib/cb_block_elements.cpp:3084-3101 | after any number of steps the blocks have done a prefix of what the body does, also in runs that never end |
| `FunctionLowering.BlocksKeepLifetimes` | source/compiler0/code_builder_lib/code_builder.cpp:781-864 | at no moment has the lowered code destroyed a variable that is not alive, and when it returns none is left alive |
| `FunctionLowering.FinishedTidy` | source/compiler0/code_builder_lib/cb_block_elements.cpp:3084-3101 | after building, every block has one terminator at its end and every branch leads to an inserted block |
| `Lifetimes.ExecKeeps` | source/compiler0/code_builder_lib/code_builder.cpp:713-743 | on every way out of a statement (fall through, break, continue, return) exactly what was alive before, plus its own declarations, is alive |
| `Lifetimes.FunctionKeeps` | source/compiler0/code_builder_lib/code_builder.cpp:2098-2136 | a function that returns has destroyed each variable once |
| `Simulation.DestroyDownReverses` | source/compiler0/code_builder_lib/code_builder.cpp:843-864 | leaving frames destroys their variables in exactly the reverse order of creation, and no variable of the frames that stay |
| `Simulation.TargetPush` | source/compiler0/code_builder_lib/cb_block_elements.cpp:3162-3190 | a jump inside a new frame refers to that frame, or to what it would refer to without it |
| `Lowering.FunctionContext.CallDestructors` | source/compiler0/code_builder_lib/code_builder.cpp:713-743 | emits the destruction of a frame, last variable first |
| `Lowering.FunctionContext.CallDestructorsDown` | source/compiler0/code_builder_lib/code_builder.cpp:843-864 | emits the destruction of all frames above a depth, innermost first, and leaves them open |
| `Lowering.FunctionContext.BuildElements` | source/compiler0/code_builder_lib/cb_block_elements.cpp:3084-3101 | a list of statements: simulated by the blocks built, errors exactly if illegal, terminal flag exact |
| `Lowering.FunctionContext.BuildBlock` | source/compiler0/code_builder_lib/cb_block_elements.cpp:3058-3082 | a block with its own scope, destroyed when control falls out |
| `Lowering.FunctionContext.Build` | source/compiler0/code_builder_lib/cb_block_elements.cpp:3084-3101 | every kind of statement: blocks simulate it in every finished function that contains them, up to redirected branches |
| `Lowering.FunctionContext.BuildLabelledBlock` | source/compiler0/code_builder_lib/cb_block_elements.cpp:127-185 | a labelled block is simulated, a break to its label lands after it, and the block after it is inserted only if something leads there |
| `Lowering.FunctionContext.BuildIf` | source/compiler0/code_builder_lib/cb_block_elements.cpp:1733-1796 | the blocks of an if simulate it; without an alternative it is never terminal |
| `Lowering.FunctionContext.BuildElse` | source/compiler0/code_builder_lib/cb_block_elements.cpp:1798-1832 | the alternative and the join, which exists only if one branch can be fallen out of |
| `Lowering.FunctionContext.BuildWhile` | source/compiler0/code_builder_lib/cb_block_elements.cpp:1385-1461 | the blocks of a while iterate as it means, for ever if need be; errors exactly if the body is illegal or the label reused or a keyword; a while is never terminal |
| `Lowering.FunctionContext.BuildLoop` | source/compiler0/code_builder_lib/cb_block_elements.cpp:1463-1517 | the blocks of an endless loop simulate it; it is terminal, and has no block after it, exactly if no break leaves it |
| `Lowering.FunctionContext.BuildFor` | source/compiler0/code_builder_lib/cb_block_elements.cpp:1250-1383 | the blocks of a C-style for simulate it, with its variables in a frame that is destroyed on every way out and not by continue |
| `Lowering.FunctionContext.BuildTupleFor` | source/compiler0/code_builder_lib/cb_block_elements.cpp:1044-1248 | one copy of the body per element simulates the tuple-for; the element variable and the temporaries of the sequence are destroyed on every way out |
| `Lowering.FunctionContext.BuildPasses` | source/compiler0/code_builder_lib/cb_block_elements.cpp:1075-1235 | the passes of a tuple-for; later passes exist only if an earlier one goes on |
| `Lowering.FunctionContext.BuildWith` | source/compiler0/code_builder_lib/cb_block_elements.cpp:1572-1731 | the blocks of a with simulate it; temporaries that nothing uses die before the body, the bound variable and the other temporaries after it, on every way out |
| `Lowering.FunctionContext.DestroyUnusedTemporaryVariables` | source/compiler0/code_builder_lib/cb_reference_checking.cpp:227-270 | pass after pass the unused temporaries are destroyed and taken out of the frame; what is left in it is exactly what no pass finds unused, in its order |
| `Temporaries.UnusedGo` | source/compiler0/code_builder_lib/cb_reference_checking.cpp:227-270 | kept are exactly the temporaries that no pass finds unused, in order of creation; the others go, one pass after the other, each in order of creation |
| `Temporaries.UnusedOnly` | source/compiler0/code_builder_lib/cb_reference_checking.cpp:227-270 | a temporary goes early if and only if some pass finds it unused, and is kept if and only if none does |
| `Temporaries.KeptInOrder` | source/compiler0/code_builder_lib/cb_reference_checking.cpp:234-268 | what is kept is a subsequence of what there was |
| `Temporaries.WithRun` | source/compiler0/code_builder_lib/cb_block_elements.cpp:1572-1731 | in every run of a with: after the expression the bound variable comes to life, then exactly the unused temporaries die, then the body runs |
| `Lowering.FunctionContext.BuildJump` | source/compiler0/code_builder_lib/cb_block_elements.cpp:1519-1570 | break and continue: all frames inside the target are destroyed, and the jump recorded |
| `Lowering.FunctionContext.BuildReturn` | source/compiler0/code_builder_lib/cb_block_elements.cpp:799-1032 | return of nothing or of a scalar: all frames destroyed, temporaries first |
| `Lowering.FunctionContext.FetchLoopFrame` | source/compiler0/code_builder_lib/cb_block_elements.cpp:3162-3190 | the first frame with the label, or the innermost loop, skipping labelled blocks |
| `Lowering.FunctionContext.AddLoopFrame` | source/compiler0/code_builder_lib/cb_block_elements.cpp:3127-3160 | a new frame; a reused label and a keyword as label are errors |
| `Lowering.FunctionContext.BuildSwitch` | source/compiler0/code_builder_lib/cb_block_elements.cpp:2210-2676 | an accepted switch runs exactly the case that contains the value, or the default; the block after it exists only if something leads there |
| `Lowering.FunctionContext.BuildCases` | source/compiler0/code_builder_lib/cb_block_elements.cpp:2548-2612 | the comparison chain runs the first case that contains the value |
| `Lowering.FunctionContext.BuildDefaultSwitch` | source/compiler0/code_builder_lib/cb_block_elements.cpp:2614-2673 | the default case, reached by redirecting the last comparison |
| `Lowering.FunctionContext.CheckSwitch` | source/compiler0/code_builder_lib/cb_block_elements.cpp:2394-2536 | a switch is accepted exactly if its cases are valid and its ranges accepted |
| `StatementRules.SequenceRule` | source/compiler0/code_builder_lib/cb_block_elements.cpp:3084-3101 | blocks of two parts in a row do what both mean in a row |
| `StatementRules.LoopMatches` | source/compiler0/code_builder_lib/cb_block_elements.cpp:1385-1517 | blocks that test, run the body and go round iterate as the loop means, for ever if need be |
| `StatementRules.LabelledBlockMatches` | source/compiler0/code_builder_lib/cb_block_elements.cpp:127-185 | a break to the label, and only that, lands after the block |
| `StatementRules.IfElseMatches` | source/compiler0/code_builder_lib/cb_block_elements.cpp:1733-1832 | the branch that the condition selects runs, and control joins after it |
| `StatementRules.ReturnRule` | source/compiler0/code_builder_lib/cb_block_elements.cpp:799-1032 | a return destroys everything and ends the run |
| `StatementRules.JumpRule` | source/compiler0/code_builder_lib/cb_block_elements.cpp:1519-1570 | a jump lands at its target with the right destructions |
| `CompoundRules.PassRule` | source/compiler0/code_builder_lib/cb_block_elements.cpp:1075-1235 | one pass of a tuple-for, then the rest |
| `CompoundRules.PartitionMatches` | source/compiler0/code_builder_lib/cb_block_elements.cpp:2637-2649 | if the ranges partition the type, every value is matched by some case |
| `CompoundRules.ComparisonDecides` | source/compiler0/code_builder_lib/cb_block_elements.cpp:2560-2592 | the emitted signed or unsigned comparisons hold exactly for the values of the case |
| `CompoundRules.SwitchMatches` | source/compiler0/code_builder_lib/cb_block_elements.cpp:2540-2649 | without default the chain never falls past the last case |
| `CompoundRules.ChainOrDefault` | source/compiler0/code_builder_lib/cb_block_elements.cpp:2614-2636 | with default the chain runs the matching case or the default |
| `LegalStatements.LegalMeans` | source/compiler0/code_builder_lib/cb_block_elements.cpp:3084-3101 | a body is legal if and only if every statement in it is in order where it stands (jumps have targets, labels are fresh and no keywords, returns fit, switches are accepted) and none stands behind one that control cannot pass |
| `Reachability.ReportIsExact` | source/compiler0/code_builder_lib/cb_block_elements.cpp:3084-3101 | the terminal flag and the recorded jumps are exact: a legal body can be fallen out of, or left by a jump to some place, if and only if some run does that |
| `Reachability.ForIsLeft` | source/compiler0/code_builder_lib/cb_block_elements.cpp:1250-1383 | a C-style for is never terminal, and some run leaves it if and only if it has a condition or a break to it |
| `Reachability.EndlessFor` | source/compiler0/code_builder_lib/cb_block_elements.cpp:1250-1383 | a for without condition and break runs for ever, and is not terminal |
| `Reachability.SelectionIs` | source/compiler0/code_builder_lib/cb_block_elements.cpp:2540-2649 | in an accepted switch a value selects the only case that contains it, and the default case if and only if none does |
| `StatementRuns.ExecLocal` | source/compiler0/code_builder_lib/cb_block_elements.cpp:3084-3101 | a run that ends is the same with more fuel, and depends on no answers but those it asks for |
| `StatementRuns.WhileIs` | source/compiler0/code_builder_lib/cb_block_elements.cpp:1385-1517 | a while does what an endless loop does that tests and breaks if the test fails |
| `StatementRuns.ForIs` | source/compiler0/code_builder_lib/cb_block_elements.cpp:1250-1461 | a C-style for without step does what a scope with its variables and a while does |
| `StatementRuns.HaltIfIs` | source/compiler0/code_builder_lib/cb_block_elements.cpp:2981-3039 | halt if does what an if around a halt does |
| `StatementRuns.WithIs` | source/compiler0/code_builder_lib/cb_block_elements.cpp:1572-1731 | a with of an expression without temporaries that binds nothing evaluates it and runs the body in a scope |
| `SwitchRanges.CheckRanges` | source/compiler0/code_builder_lib/cb_block_elements.cpp:2396-2536 | without default accepted exactly if the ranges partition the type; with default exactly if they are disjoint and leave a gap |
| `SwitchRanges.ScanNeighbours` | source/compiler0/code_builder_lib/cb_block_elements.cpp:2414-2458 | neighbours of the sorted ranges show every overlap and every gap |
| `SwitchRanges.IntType.SortedDecides` | source/compiler0/code_builder_lib/cb_block_elements.cpp:2414-2536 | for sorted ranges: no overlap of neighbours iff pairwise disjoint; no gap iff complete |
| `SwitchRanges.IntType.SortDecides` | source/compiler0/code_builder_lib/cb_block_elements.cpp:2398-2412 | sorting changes no answer |
| `Legality.ToldSequence` | source/compiler0/code_builder_lib/cb_block_elements.cpp:3084-3101 | statements after one that control cannot pass are an error, and the reports of both parts add up |
| `Legality.LabelTold` | source/compiler0/code_builder_lib/cb_block_elements.cpp:127-185 | a labelled block is terminal exactly if its body is and no break leads to it |
| `Legality.PassTold` | source/compiler0/code_builder_lib/cb_block_elements.cpp:1188-1235 | a tuple-for is terminal exactly if no pass goes on and none breaks |
| `AsyncCallGraph.BuildAsyncCallsGraph` | source/code_builder_lib_common/async_calls_inlining.cpp:841-869 | the list of each function is exactly the awaited calls of known functions that stand in coroutines of that name, in the order of their sites; each call is listed as often as there are sites for it |
| `AsyncCallGraph.RecordedCounts` | source/code_builder_lib_common/async_calls_inlining.cpp:841-869 | a call is recorded as often as there are sites in coroutines that await it once and know the callee |
| `AsyncCallGraph.RecordedLists` | source/code_builder_lib_common/async_calls_inlining.cpp:841-869 | the recorded calls of one function are all of its sites, in their order, and nothing else |
| `AsyncCallGraph.WalkForward` | source/code_builder_lib_common/async_calls_inlining.cpp:910-956 | in a finite set where each function calls one, every function reaches a cycle |
| `AsyncCallGraph.WalkBackward` | source/code_builder_lib_common/async_calls_inlining.cpp:958-1004 | in a finite set where each function is called by one, every function is reached from a cycle |
| `InliningOrder.RemoveLinks` | source/code_builder_lib_common/async_calls_inlining.cpp:926-938 | removal by moving the last entry into the gap removes all occurrences of one function and keeps all others |
| `InliningOrder.PeelCallees` | source/code_builder_lib_common/async_calls_inlining.cpp:910-956 | ends for every graph and order of iteration, lookups succeed, peeled functions come after all they call, nothing that reaches a cycle is peeled |
| `InliningOrder.PeelCallers` | source/code_builder_lib_common/async_calls_inlining.cpp:958-1004 | the same from the other side |
| `InliningOrder.LeftoverIs` | source/code_builder_lib_common/async_calls_inlining.cpp:1005-1005 | left over are exactly the functions that reach a cycle and are reached from one |
| `InliningOrder.SplitCalls` | source/code_builder_lib_common/async_calls_inlining.cpp:1017-1034 | calls out of the rest are separated from the calls inside it, none lost |
| `InliningOrder.InlineAsyncCalls` | source/code_builder_lib_common/async_calls_inlining.cpp:902-1043 | every call is tried as often as there are sites for it, and the calls of a function outside the rest in the order of their sites; a call is tried after all calls of its callee unless both are left over; calls out of the rest come before calls inside it |
| `InliningOrder.AcyclicNothingLeft` | source/code_builder_lib_common/async_calls_inlining.cpp:908-910 | without cycles nothing is left over |
| `AsyncInlining.TryToInlineAsyncCall` | source/code_builder_lib_common/async_calls_inlining.cpp:587-822 | the steps of the transformation, done in place, give the inlined body |
| `CoroutineBlocks.TextMeans` | source/compiler0/code_builder_lib/cb_coroutines.cpp:833-853 | every kind of block of a coroutine can be written as instructions, and reading the instructions gives the block back |
| `CoroutineBlocks.ParseAwaitLoopBlock` | source/code_builder_lib_common/async_calls_inlining.cpp:297-392 | the walk accepts exactly a call of "resume", a call of "done" and a conditional branch; on a list that means a block these are exactly the blocks that only resume, and the two targets are those for done and not done |
| `CoroutineBlocks.ParseSuspendBlock` | source/code_builder_lib_common/async_calls_inlining.cpp:505-576 | the walk accepts exactly a call of "suspend" and a switch of two cases; on a list that means a block these are exactly the suspension points, final or not, with their targets |
| `InliningSimulation.Inlining.Advance` | source/code_builder_lib_common/async_calls_inlining.cpp:587-822 | whatever the inlined function does in one step, the caller driving a separate callee does in one or more |
| `InliningSimulation.Inlining.SameTraces` | source/code_builder_lib_common/async_calls_inlining.cpp:587-822 | for every outside schedule of resume and destroy the same effects, suspensions, completion and destructions are seen in the same order |
| `InliningSimulation.Inlining.SameEnds` | source/code_builder_lib_common/async_calls_inlining.cpp:587-822 | for every schedule both come to the same end after the same actions, or neither does |
| `InliningSimulation.Inlining.CalleeSuspends` | source/compiler0/code_builder_lib/cb_coroutines.cpp:833-853 | a suspension of the callee is one round of the await loop and a suspension of the caller |
| `InliningSimulation.Inlining.Destroyed` | source/compiler0/code_builder_lib/cb_coroutines.cpp:391-420 | destroying the caller while it awaits runs the callee's destruction first, then the caller's |
| `InliningSimulation.Inlining.Completes` | source/compiler0/code_builder_lib/cb_coroutines.cpp:430-452 | completion of the callee ends the await loop |
| `ReturnValue.FindVariable` | source/code_builder_lib_common/return_value_optimization.cpp:50-82 | finds the variable exactly if all uses of the result are copies from one local |
| `ReturnValue.TryToPerformReturnValueAllocationOptimization` | source/code_builder_lib_common/return_value_optimization.cpp:21-124 | rewrites the function exactly if there is such a variable |
| `ReturnValue.OptimizableMeans` | source/code_builder_lib_common/return_value_optimization.cpp:50-82 | block by block: there is a copy from the local to the result, every use of the result is such a copy, and no branch uses it |
| `ReturnValue.VariableIsGone` | source/code_builder_lib_common/return_value_optimization.cpp:86-123 | after the pass nothing uses the local, and nothing but the copies and the ends of its lifetime is gone |
| `ReturnValue.OptimizationIsExact` | source/code_builder_lib_common/return_value_optimization.cpp:86-123 | for every run: same events, same way of ending and same memory after the pass if and only if, when it returns, the result holds the last value of the variable |
| `ReturnValue.CopiedLastIsSound` | source/code_builder_lib_common/return_value_optimization.cpp:86-123 | every run whose last copy comes after the last write to the variable does the same after the pass |
| `ReturnValue.OptimizationIsSound` | source/code_builder_lib_common/return_value_optimization.cpp:86-123 | if on every path a return comes after a copy with no write to the variable since, every run does the same after the pass |
| `ReturnValue.SoundWithoutLifetimes` | source/code_builder_lib_common/return_value_optimization.cpp:86-123 | in a function without lifetime markers that order of writes and copies is all that is asked |
| `ReturnValue.WriteAfterCopyShows` | source/code_builder_lib_common/return_value_optimization.cpp:86-123 | a write after the copy changes the result exactly if it writes something else than what was copied |
| `TypedMemory.LoadAfterStore` | source/code_builder_lib_common/interpreter.cpp:734-844 | loading a type after storing a value of it gives the value back, for all nested structs and arrays |
| `TypedMemory.StoreFrame` | source/code_builder_lib_common/interpreter.cpp:795-844 | a store changes no byte outside the value |
| `TypedMemory.LowestFirst` | source/code_builder_lib_common/interpreter.cpp:795-844 | byte i of a stored integer or pointer is its i-th digit in base 256 |
| `TypedMemory.LoadReadsDigits` | source/code_builder_lib_common/interpreter.cpp:734-782 | the i-th digit of a loaded integer is the byte i places behind its address |
| `TypedMemory.FieldsAreTight` | source/code_builder_lib_common/interpreter.cpp:752-764 | a field begins at the first place behind the field before it that its alignment allows |
| `TypedMemory.StructsAreTight` | source/code_builder_lib_common/interpreter.cpp:752-764 | a struct ends at the first place behind its last field at which another one could begin |
| `TypedMemory.LoadElsewhere` | source/code_builder_lib_common/interpreter.cpp:734-844 | a value elsewhere is not touched |
| `TypedMemory.LoadLocal` | source/code_builder_lib_common/interpreter.cpp:734-782 | a load depends only on the bytes of the value |
| `TypedMemory.DoStore` | source/code_builder_lib_common/interpreter.cpp:795-844 | the in-place store does what the store on values does |
| `TypedMemory.LoadPart` | source/code_builder_lib_common/interpreter.cpp:551-593 | loading the element at its address is projecting it from the loaded aggregate |
| `TypedMemory.StorePart` | source/code_builder_lib_common/interpreter.cpp:551-593 | storing an element at its address updates exactly that element of the aggregate |
| `TypedMemory.PartInside` | source/code_builder_lib_common/interpreter.cpp:551-593 | an element lies inside its aggregate |
| `TypedMemory.LoadAtElementAddress` | source/code_builder_lib_common/interpreter.cpp:551-593 | for every first index and every path inside the type, loading at the computed address is projecting the path from the aggregate which that index selects |
| `TypedMemory.StoreAtElementAddress` | source/code_builder_lib_common/interpreter.cpp:551-593 | storing at the computed address updates exactly that part of that aggregate |
| `TypedMemory.BuildGEP` | source/code_builder_lib_common/interpreter.cpp:551-593 | the loop adds up first index and element offset, wrapping in 64 bits and in the pointer width |
| `AddressSpace.AddressesResolve` | source/code_builder_lib_common/interpreter.cpp:714-723 | every address of a live block belongs to its own segment, at the right place |
| `AddressSpace.AllocaKeeps` | source/code_builder_lib_common/interpreter.cpp:677-712 | stack and coroutine allocation: new block of zeros, disjoint from all others, earlier bytes unchanged, error exactly at the limit |
| `AddressSpace.MallocKeeps` | source/code_builder_lib_common/interpreter.cpp:1033-1055 | heap allocation: new block of zeros, disjoint from all others with its size noted in front, earlier bytes unchanged, error exactly at the limit |
| `AddressSpace.ReallocKeeps` | source/code_builder_lib_common/interpreter.cpp:1057-1100 | the old contents are in the result; a block that is large enough stays, otherwise a new one of the size takes its place; other blocks are untouched |
| `AddressSpace.ConstantKeeps` | source/code_builder_lib_common/interpreter.cpp:383-410 | a constant gets one address, with its bytes there |
| `AddressSpace.WriteKeeps` | source/code_builder_lib_common/interpreter.cpp:784-794 | a write inside a block changes that block only, and no size header |
| `AddressSpace.ReturnKeeps` | source/code_builder_lib_common/interpreter.cpp:311-320 | returning cuts the stack to its size before the call and drops exactly the blocks behind it; everything else stays |
| `AddressSpace.BlocksAreSeparate` | source/code_builder_lib_common/interpreter.cpp:20-26 | in every reachable state blocks share no address and resolve to themselves |
| `AddressSpace.Space.ProcessAlloca` | source/code_builder_lib_common/interpreter.cpp:677-712 | the fields change as allocation says; the address handed out is that of the new block |
| `AddressSpace.Space.ProcessMalloc` | source/code_builder_lib_common/interpreter.cpp:1033-1055 | the fields change as allocation says; the address handed out is that of the new block |
| `AddressSpace.Space.ProcessRealloc` | source/code_builder_lib_common/interpreter.cpp:1057-1100 | the size in front of the block is the size of the block; the address handed out is that of the block with the old contents |
| `AddressSpace.Space.MoveConstantToStack` | source/code_builder_lib_common/interpreter.cpp:383-410 | a constant asked for again has the same address; one that does not fit is an error |
| `InstructionBudget.LoopIsMachine` | source/code_builder_lib_common/interpreter.cpp:219-381 | the nested loops end as a machine does that takes one instruction at a time, pushes a return point at every call and resume and pops it at a return: same state, same count, same error |
| `InstructionBudget.CallIsMachine` | source/code_builder_lib_common/interpreter.cpp:189-217 | the same for a call, with the functions and depths that are refused |
| `InstructionBudget.EveryProgramStops` | source/code_builder_lib_common/interpreter.cpp:189-217 | every program stops with at most the configured number of instructions counted in all calls and resumes together, and with an error if it is that number |
| `InstructionBudget.NoReturnMeansError` | source/code_builder_lib_common/interpreter.cpp:219-381 | once a run, at whatever depth, gets into code that would never return by itself, the outermost call ends in an error |
| `InstructionBudget.CallingASpinFails` | source/code_builder_lib_common/interpreter.cpp:985-1019 | a function that calls or resumes code that jumps to itself for ever ends in an error |
| `InstructionBudget.CallThenReturn` | source/code_builder_lib_common/interpreter.cpp:985-1019 | a callee begins with the state of its caller, and the caller goes on with the state of the callee, three instructions counted |
| `InstructionBudget.Interpreter.CallFunctionImpl` | source/code_builder_lib_common/interpreter.cpp:219-381 | the loop on the fields ends as the machine does; every enclosing loop leaves once an error is recorded |
| `InstructionBudget.Interpreter.CallFunction` | source/code_builder_lib_common/interpreter.cpp:189-217 | calls of incomplete or empty functions and calls too deep are errors; all others end as the machine does |
| `InstructionBudget.Interpreter.Execute` | source/code_builder_lib_common/interpreter.cpp:851-1019 | one instruction with the calls and resumes it leads to (also 1359-1386) |
| `SystemV.MergeIsJoin` | source/compiler0/code_builder_lib/calling_convention_info.cpp:671-686 | merging takes the larger class, in any order |
| `SystemV.ClassifiedIsJoin` | source/compiler0/code_builder_lib/calling_convention_info.cpp:643-668 | each eightbyte gets the largest class of all scalars with a byte in it |
| `SystemV.ClassifyType` | source/compiler0/code_builder_lib/calling_convention_info.cpp:643-668 | the in-place recursion, with two slots always enough |
| `SystemV.MergeArgumentClasses` | source/compiler0/code_builder_lib/calling_convention_info.cpp:671-686 | the in-place merge of a class into one slot is the join |
| `SystemV.Covered` | source/compiler0/code_builder_lib/calling_convention_info.cpp:643-668 | every aligned piece of a laid-out type has a scalar in it |
| `SystemV.EveryPartHasClass` | source/compiler0/code_builder_lib/calling_convention_info.cpp:374-401 | no eightbyte below the size is without a class, so the asserted cases cannot happen |
| `SystemV.RegistersTile` | source/compiler0/code_builder_lib/calling_convention_info.cpp:369-405 | the chosen registers take exactly the bytes of the type, eightbyte by eightbyte, integer exactly if an integer scalar is there |
| `SystemV.NeedIsTakes` | source/compiler0/code_builder_lib/calling_convention_info.cpp:446-640 | the registers counted for an argument are one integer register for each eightbyte of its type with an integer or pointer in it and one floating-point register for each other one, for scalars and composites alike |
| `SystemV.KindsAreApart` | source/compiler0/code_builder_lib/calling_convention_info.cpp:462-487 | floating-point arguments take no integer register, and integers, enums, pointers and references no floating-point one |
| `SystemV.ExtensionKeepsValue` | source/compiler0/code_builder_lib/calling_convention_info.cpp:449-460 | a narrow integer or enum is extended in the one way in which the whole register, read as signed or unsigned, is the value passed |
| `SystemV.CalculateFunctionCallInfo` | source/compiler0/code_builder_lib/calling_convention_info.cpp:417-640 | each argument takes a register for every eightbyte of its type or none, never more than 6 and 8 in all, and integers are sign or zero extended by their signedness; composites of more than 16 bytes always go to the stack, those of at most 8 never, and those between exactly if there are not enough registers |
| `TextChanges.MapOldPositionToNewPosition` | source/language_server/text_change.cpp:36-61 | the loop computes the map from old to new positions |
| `TextChanges.MapNewPositionToOldPosition` | source/language_server/text_change.cpp:10-34 | the loop computes the map from new to old positions |
| `TextChanges.MapsAreInverse` | source/language_server/text_change.cpp:10-61 | the two maps are inverse partial functions |
| `TextChanges.MapIsIncreasing` | source/language_server/text_change.cpp:36-61 | the map is strictly increasing |
| `TextChanges.MapsFollowBytes` | source/language_server/text_change.cpp:10-61 | an old position maps to a new one exactly if that byte comes from it |
| `TextChanges.UndefinedOnInserted` | source/language_server/text_change.cpp:10-34 | undefined exactly on inserted text |
| `TextChanges.UndefinedOnReplaced` | source/language_server/text_change.cpp:36-61 | undefined exactly on replaced text |
| `TextChanges.SameBytes` | source/language_server/text_change.cpp:36-61 | mapped positions hold the same byte |
| `Documents.LogReplays` | source/language_server/document.cpp:167-209 | on every run without unlogged edits during a build, replaying the log on the compiled text gives the current text at every moment |
| `Documents.TakeSyncs` | source/language_server/document.cpp:1027-1057 | dropping the prefix of the log that a finished build has seen keeps that |
| `Documents.CarefulIsNeeded` | source/language_server/document.cpp:197-205 | while a build runs, every edit may be made exactly if there is a compiled state and a log |
| `Documents.SetTextIsNotTracked` | source/language_server/document.cpp:167-175 | replacing the whole text during a build loses the difference exactly if there is one |
| `Documents.FirstBuildLosesEdits` | source/language_server/document.cpp:955-962 | an edit during the first build is missing from the log |
| `Documents.UpToDate` | source/language_server/document.cpp:898-1057 | in every run: the log-length assertion holds; no rebuild required means the current text was given to the latest attempt; if that passed and is over it is the compiled text |
| `Documents.MappedPositionIsRight` | source/language_server/document.cpp:1068-1091 | on such runs a position mapped back holds the same byte in the compiled text |
| `Documents.RangeIsRight` | source/language_server/document.cpp:836-891 | mapping both ends of a range gives the range of the bytes that are left of it |
| `Documents.EditsAreMade` | source/language_server/document.cpp:177-209 | an edit of a range inside the text replaces that range, whatever builds are doing; a range that is not found changes nothing |
| `Documents.ChangesAreNotForgotten` | source/language_server/document.cpp:238-259 | after a change of the text or of an imported file a rebuild is required until the next one is started |
| `Documents.BuildsAreStarted` | source/language_server/document.cpp:898-1025 | a build of the current text is started if and only if none is running and the analysis passes |
| `Documents.BuildsAreTaken` | source/language_server/document.cpp:1027-1066 | a running build goes on until its result becomes the compiled state |
| `Documents.CatchesUp` | source/language_server/document.cpp:898-1057 | from every state one more build brings the compiled state to the current text |
| `Documents.Document.SetText` | source/language_server/document.cpp:167-175 | new text, no log, rebuild required |
| `Documents.Document.UpdateText` | source/language_server/document.cpp:177-209 | takes a finished build, then edits and logs |
| `Documents.Document.StartRebuild` | source/language_server/document.cpp:898-1025 | starts a build unless one is running |
| `Documents.Document.TryTakeBackgroundStateUpdate` | source/language_server/document.cpp:1027-1066 | takes a finished build; the asserted log length holds |
| `Documents.Document.OnPossibleDependentFileChanged` | source/language_server/document.cpp:238-259 | a changed import requires a rebuild |
| `Documents.Document.GetPositionInLastValidText` | source/language_server/document.cpp:1068-1091 | the position is found exactly if the byte was not inserted, and is where that byte comes from |
| `Documents.Document.GetIdentifierRange` | source/language_server/document.cpp:836-891 | by where each byte comes from: both ends are where the old ends are now, and of the bytes that are left exactly those of the old range lie in the new one |
| `Identifiers.TranslateIdentifier` | source/cpp_header_converter/u_ast_builder.cpp:84-150 | the loop and the appends compute the translation |
| `Identifiers.RoundTrip` | source/cpp_header_converter/u_ast_builder.cpp:82-150 | every identifier can be decoded from its translation |
| `Identifiers.NoCollisions` | source/cpp_header_converter/u_ast_builder.cpp:82-83 | no two identifiers get the same name |
| `Identifiers.OrdinaryUnchanged` | source/cpp_header_converter/u_ast_builder.cpp:84-150 | a name stays as it is if and only if it is no keyword, no keyword with an underscore, none of the converter's names, does not begin with an underscore and does not end in the postfix |
| `Identifiers.ReservedOnlyByKeywords` | source/cpp_header_converter/u_ast_builder.cpp:73-110 | a translation is one of the converter's own names if and only if it is that of a keyword, such as enum, which lacks the underscore |
| `Identifiers.KeywordsAreGood` | source/keywords_list.txt:1-130 | the language's own keywords start with a letter, none ends in a postfix of the translation and none is another one with an underscore |
| `Identifiers.TranslationIsSafe` | source/cpp_header_converter/u_ast_builder.cpp:82-150 | with the language's own keywords no two identifiers get the same name, every name starts with a letter and none is a keyword |
| `Identifiers.GoodName` | source/cpp_header_converter/u_ast_builder.cpp:84-150 | translations of C identifiers start with a letter and are no keywords |

## Left out

Control-flow lowering:

- Expressions, conversions and constructors are opaque events; overload resolution, the reference graph and the unsafe flag are not modelled.
- Lowering.FunctionContext.CallDestructors: variables moved out of are skipped by the source; here every variable of a frame is destroyed, because moving needs the types and references of expressions, which are opaque.
- Lowering.FunctionContext.BuildReturn: only returns of nothing or of a scalar; composite results and their copy to the result pointer are not modelled here, and `ReturnValue` begins from functions that have such copies.
- Coroutine statements (yield, if_coro_advance, return from coroutines), alloca and decompose declarations, assignments, assertions, static if and macros are not modelled.
- After an error in the ranges of a switch the source goes on to build the cases; here building that statement stops. Nothing but the fact that there are errors is stated about erroneous functions.
- Lowering.FunctionContext.BuildWith: which temporaries are unused in each pass is part of the statement; the reference graph that decides it is not modelled.

Async-call inlining:

- Values, arguments and the promise are not modelled; conditions may depend on the whole trace, so data flow through them is. Alloca blocks have no effect here and are left out.
- Coroutines other than the one being inlined are opaque effects of the caller and the callee.
- The call is inlined only in the form the frontend lays down (`AsyncInlining.Site.Shape`, `InliningSimulation.Inlining.Ok`): the source redirects the call to a clone before it has looked at the callee's blocks, and reads the first of a list it expects not to be empty, so both are preconditions.
- AsyncInlining.TryToInlineAsyncCall: which blocks of the callee are its coroutine blocks, and where the await is, are parameters; the source finds them by walking uses. What it does is stated for blocks in that form.
- InliningOrder.InlineAsyncCalls: a call is "tried" whether or not its callee is directly recursive; the removal of unused functions at the end is not modelled.

Return value optimization:

- ReturnValue.OptimizationIsSound: asks that no path writes the variable after its last copy before a return, and that it is read only in its lifetime; the source checks neither. Objects are whole, the result pointer is not aliased, and what the result holds at the call, which is not set yet, may differ between the two functions.

Interpreter:

- Arithmetic, overflow intrinsics, atomics, PHI nodes, byval copies, stacksave and the contents of error texts are not modelled; floats are opaque bytes.
- AddressSpace.ConstantKeeps: the bytes of a constant are given; constants that refer to other constants are not followed.
- AddressSpace.Space.MoveConstantToStack: the same, and only the constant itself is noted.
- Addresses and sizes are unbounded numbers, so allocation sizes near the word size, whose sums would wrap, are outside the model.
- A program that uses memory it was not given is outside the model; the source does not check that.

System V:

- Only x86-64 System V is modelled.
- SystemV.CalculateFunctionCallInfo: types are laid out with scalars aligned to their size and at most to 8 bytes.

Documents:

- Documents.Document.GetIdentifierRange: positions are linear; the conversion from and to line and column is not modelled.
- It is a parameter whether a background build has finished and whether the syntax analysis passes. Diagnostics, times and completion are not modelled, and text positions are not limited to 32 bits.

Identifiers:

- Names made up for anonymous declarations are not modelled.
