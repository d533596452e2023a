# Scorivm verification

Scorivm compiles a small language to three-address code in basic blocks (SIR), optimizes it, assigns machine
registers, encodes x86-64 instructions and writes a PE image. This project models those steps as Dafny functions,
classes and methods and proves that each of them keeps the meaning of the program, lays memory out as promised, or
can be read back.

## How the parts fit together

- **Semantics.** `Sir` runs a function with fuel, over one cell per virtual register and a world of memory, output
  and input. A `Machine` supplies the effect of every operation outside the function (calls, the system, the
  addresses of frame slots), so each theorem holds for all of them. Outcomes are a return, a trap, a fault (undefined
  behaviour such as a division by zero) or out of fuel. `SirModules` closes the loop: functions of one module call
  each other at any depth; `Nesting` counts that depth and the instructions run. `Arithmetic` says what the operations
  compute without naming how. `Source` is the meaning of the structured source language, independent of SIR; `Typing`
  is the check its programs pass first, and what passing it is worth.
- **Lowering.** `Builder`, `Frames` (slots are as large as their allocation asks), `FrameLayout` (where they lie),
  `BuildOps`, `Expressions`, `ShortCircuit`, `Statements`, `SimpleStatements`,
  `Conditionals` and `Loops` prove what the builder's steps do to a run. `IrBuilders`, `Lowering` and `FunctionGen`
  are the generator itself, methods on a builder object. Beside the run, `Certified` and `SsaBuild` keep a
  certificate that what has been built so far is in strict SSA form.
- **Optimizer.** One module a pass (`PropagationPass`, `DeadCode`, `Threading`, `Prune`, `FastPaths`,
  `BaseCasePass`, `ConstEvalPass`, `GlobalDce`), each a method over a mutable `SirFunction` or `SirModule`.
  `Settled` and `Tidy` say what the first three leave nothing of. `Alone`, `Courses` and `Swaps` are about the
  compile-time evaluators: which calls they have to answer, and that replacing one call makes no other harder.
  `ModuleLift`, `Refinement` and `RefinedModules` carry results about one function, with calls as an oracle, over to
  recursive modules. `Assigned` and `Fitness` say what later passes ask of a module and show that earlier ones keep
  it; `FunctionPasses` and `Optimizer` run the passes of an optimization level over a module.
- **Register allocation.** `Liveness`, `Interference`, `Coloring`, `RegAlloc`, and the simulation in `AllocSim`.
- **End to end.** `Pipeline` chains generation, propagation, dead code elimination, threading and allocation.
- **Image.** `Encoding` (operands and instructions, with a decoder written from sections 2.1.3 and 2.2.1 of volume 2
  of the Intel 64 and IA-32 Architectures Software Developer's Manual), `Assembler` (two-pass layout and
  relocations), `Imports` (the import table, walked as "The .idata Section" of the PE Format specification
  prescribes).
- **Data.** `Layout` (sizes, alignments, fields), `Arenas` (the chunked allocator), `Numbers` (printing and reading
  integers).

## Where the source does not keep the promise

- Fast-path stripping checks neither that the constant fits in 32 bits nor that the comparison is dead behind the
  branch. `FastPathLimits.StrippingIsSafe` and `FastPathLimits.SlowReadBreaks` say exactly when that matters.
- A block that `arena_realloc` cuts down and grows again within its padding keeps its old bytes there; `Realloc`
  states when gained memory is zero, `ShrinkAndGrow` is a run where it is not.
- Propagation does not fold a sum of two literals without a 0 nor a product of two without a 1, although it folds all
  other operations on literals; `Settled.LiteralsAreFound` is the exact condition.
- The code generator reads a bit-field from the unit of its own type at the field's byte. `Layout.BitFieldInUnitIff`:
  the field lies inside that unit if and only if it is no wider and does not join a unit filled to the last bit;
  `Layout.FullUnitOverruns` is a `forma` of two 8-bit fields of a byte each, whose second field lies outside.
- RSP as an index register is encoded as no index (`Encoding.StackPointerIndexIsLost`); the encoder does not check.
- Numbers are read modulo 2^64 and cut to the size of their variable. `Numbers.ReadIsExactIff`: for every text that
  holds a number, of any length and with any sign, the variable gets that number if and only if it is in the range of
  1, 2, 4 or otherwise 8 bytes. `Numbers.LongNumbersWrap` gives two texts for which it is not.

## Model

| member | source | states |
|---|---|---|
| FunctionGen.GenFunction | src/ir/ir_gen.c:1836-1902 | for every well-scoped body the generated function, on every machine with a large enough frame and for all arguments, returns the source's answer, traps when the source halts, and survives every bounded number of block entries when the source loops; it is in strict SSA form |
| FunctionGen.RunsTellAnswers | src/ir/ir_gen.c:1836-1902 | the converse: a run of a generated function that ends has computed the source's answer and kept memory outside its frame, unless the source itself faults |
| Typing.CheckedCallsDoNotFail | src/middleend/type_checker.c:681-806 | no call of an accepted function fails, however long it runs, given arguments of the parameters' types, if arithmetic and order are applied to integers, conjunction and disjunction to truth values, and nothing is divided |
| Typing.CheckedFunctionIsOk | src/middleend/type_checker.c:681-806 | every accepted function is well scoped, so code can be generated for it: variables are declared before use and once per scope, and jumps out of loops stand inside one |
| Source.MutatesExactly | src/ir/ir_gen.c:209-322 | the scan that decides which variables need a cell finds a variable exactly if an assignment to it stands somewhere in the body |
| Lowering.GenStatement | src/ir/ir_gen.c:1370-1575 | the code added for a statement executes it from any state that mirrors the variables, however it is left (falling through, `rumpe`, `perge`, `redde`, trap), touches only the current and new blocks, and keeps the SSA certificate; a declared variable gets a cell, as large as its type, exactly if it is assigned somewhere; a conditional of two simple assignments to one variable opens no block, and one whose condition is false already and that has no `secus` adds no code |
| IrBuilders.GenExpression | src/ir/ir_gen.c:616-1050 | the code added for an expression, with folding, store-to-load forwarding and short-circuit blocks, evaluates it and its assignments, and its value is a register available at the insertion point; an integer expression or comparison of literals that has a value adds no code and is that literal |
| IrBuilders.IrBuilder.BuildLoad | src/ir/ir_builder.c:342-371 | a load right behind a store to the same cell, with no store, call or copy in between, is the stored value and adds no code; any other reads the cell |
| BuildOps.NeutralFolds | src/ir/ir_builder.c:283-310 | a literal operand that never makes a difference is dropped, for the six operations on which the builder looks for it |
| FrameLayout.FramesExist | src/backend/x86_mir.c:331-342 | machines and frames as the lowering theorems assume them exist for every function and every frame size below 2^63: every slot gets as many bytes as its allocations ask for, and no two overlap |
| FrameLayout.LayFrame | src/backend/x86_mir.c:331-342 | the loop over the allocations hands out exactly the slots of that frame, rounded up to 8 bytes each, below one another |
| Arithmetic.DivisionTruncates | src/ir/ir_builder.c:240-246 | quotient and remainder satisfy l == q * r + m with |m| < |r| and m zero or of the sign of l, and there is no result exactly for r == 0 and for the minimum divided by -1 |
| Arithmetic.DivisionIsUnique | src/ir/ir_builder.c:240-246 | no other pair satisfies those three conditions |
| Arithmetic.ResultsWrap | src/ir/ir_builder.c:240-250 | sums, differences, products and left shifts are exact modulo 2^64 |
| Arithmetic.ShiftRightFloors | src/ir/ir_builder.c:240-250 | a right shift by k is the q with q * 2^k <= l < (q + 1) * 2^k |
| Arithmetic.BitwiseOnBits | src/ir/ir_builder.c:240-250 | bit k of a conjunction, disjunction or exclusive or is that of the two bits k |
| SsaBuild.AddsKeepsSsa | src/ir/ir_builder.c:196-227 | appending an instruction whose operands are available keeps the dominance certificate of a function under construction |
| SsaPaths.PathsGiveSsa | src/ir/ir_builder.c:2261-2448 | the certificate the propagation theorem asks for exists whenever every register has one definition, every path from the entry writes a register before reading it, and blocks out of reach, if any, compute nothing in circles |
| SsaPaths.SsaGivesPaths | src/ir/ir_builder.c:2261-2448 | the converse: a function with a certificate has all three properties |
| PropagationPass.PropagateConstants | src/ir/ir_builder.c:2261-2448 | copy and constant propagation with local common subexpressions and branch folding, applied through one function-wide table in block-list order, ends, leaves no branch on a constant and no read of a constant, copy or repeated computation behind it, and gives the same outcome block for block, faults included |
| Settled.LiteralsAreFound | src/ir/ir_builder.c:2315-2353 | an operation on two literals counts as a constant if and only if it has a result and is neither a sum without a 0 nor a product without a 1 |
| Settled.CommutativeExactly | src/ir/ir_builder.c:2411-2417 | the order of operands is looked past for exactly the operations whose result never depends on it |
| DeadCode.EliminateDeadCode | src/ir/ir_builder.c:2450-2487 | removal by use counts repeated until stable ends, leaves no unused side-effect free instruction, adds none, and every run that does not fault goes block for block to the same outcome |
| Threading.ThreadJumps | src/ir/ir_builder.c:2546-2601 | jump threading ends even when empty blocks form cycles, leaves nothing to thread, and keeps the outcome of every run, in both directions |
| Prune.PruneDeadBlocks | src/ir/ir_builder.c:545-619 | exactly the blocks on some path from the entry are kept, in order; the stack never outgrows its buffer; no run changes |
| RefinedModules.RefinedFunctionsRefineCalls | src/ir/ir_builder.c:2255-2602 | if every function's runs keep their outcomes with calls as an oracle, every call of the recursive module that does not fault keeps its outcome, and no call ends otherwise than before |
| RefinedModules.RefinedCallTransitive | src/ir/ir_builder.c:2255-2602 | passes that keep a call on a machine can follow one another |
| RefinedModules.SameCallsRefine | src/ir/ir_builder.c:2255-2602 | for a call that does not fault before, the outcomes before and after are the same, both ways |
| FunctionPasses.OptimizeFunctions | src/ir/ir_builder.c:2255-2602 | propagation from level 2 on, dead code elimination and threading over a whole module keep all calls at any depth, leave the module fit for the passes behind them, and leave nothing to do for any of the three, although each rewrites what the ones before it left |
| Optimizer.OptimizeModule | src/ir/ir_builder.c:2255-2900 | the passes of an optimization level in the source's order: every call of a function that is kept, at any depth, ends as before unless it faulted, and ends in no other way; what each pass brings about holds of the module it hands on, and exactly the functions still named are kept |
| Optimizer.EntryPointsAgree | src/ir/ir_builder.c:2255-2900 | so `princeps` and `__scorivm_init` are kept, and their runs that did not fault have the same outcomes before and after, both ways |
| Pipeline.CompileFunction | src/ir/ir_builder.c:2255-2602 | generation, propagation, dead code elimination and threading composed: the optimized function still answers every call as the source does, on the frame laid out for the generated code, and none of the passes has anything left to do |
| Pipeline.CompileAndAllocate | src/backend/reg_alloc.c:43-321 | from source to registers and stack slots: for all arguments, initial register contents and clobbered values, the allocated code answers every call as the source does |
| Pipeline.CodeTellsAnswers | src/backend/reg_alloc.c:43-321 | the converse: allocated code that ends has computed the source's answer, unless the source faults |
| Pipeline.CheckedCodeAnswers | src/backend/reg_alloc.c:43-321 | for accepted, division-free functions nothing is excepted: allocated code that ends has computed the source's answer or has trapped where the source halts |
| Pipeline.AllocatedAnswers | src/backend/reg_alloc.c:186-216 | optimized code stays correct under every valid assignment of registers, not only the one computed |
| FastPaths.StripFastPath | src/ir/ir_builder.c:2489-2544 | the pass finds the shape exactly when it is there; the stripped and pruned module is spelled out, and it keeps all calls when the test suffices and the comparison is dead on the slow side |
| FastPaths.StrippingKeepsCalls | src/ir/ir_builder.c:2489-2544 | under those two conditions stripping keeps every call of every function, at every depth of recursion |
| FastPathLimits.StrippingIsSafe | src/ir/ir_builder.c:2489-2544 | for every shape, opcode and side: stripping keeps all calls of all functions whose comparison is dead behind the branch if and only if the constant survives the cast to 32 bits or both sides are the same block |
| FastPathLimits.SlowReadBreaks | src/ir/ir_builder.c:2489-2544 | the other condition on paths: whenever a slow run reaches a read of the comparison, the stripped function faults there, so a call that did not fault has changed |
| FastPathLimits.SharedComparisonBreaks | src/ir/ir_builder.c:2489-2544 | for every shape with two sides there is a function whose slow path uses the comparison and whose calls stripping changes |
| FastPaths.TestIsExact | src/ir/ir_builder.c:2514-2532 | the compiled compare-and-jump decides as the comparison for every argument if and only if the constant fits in 32 bits |
| TryEvaluate.TryEvaluatePureFunc | src/ir/ir_builder.c:707-900 | an answer of the compile-time evaluator is what every run of the function on that argument returns, through recursive calls and fast paths; and for operands of the kinds it looks at, its answer is exactly that of the function run alone with calls nested at most 15 deep |
| TryEvaluate.EvaluateTwice | src/ir/ir_builder.c:707-900 | on a function whose entry jumps to itself every bound on blocks gives no answer, answers under two bounds are the same, and a larger bound loses none |
| BaseCase.ExpansionKeepsCalls | src/ir/ir_builder.c:2604-2685 | a new entry that answers one argument directly keeps every call of every function, at every depth, given that the answer is right |
| BaseCasePass.ExpandBaseCases | src/ir/ir_builder.c:2604-2685 | the whole pass, evaluator included, keeps all calls of the module; every function that fetches its parameter first and calls itself is tried on 2, 3 and 4 in turn and answers in front what it gives alone, every other is left as it is, and if one has changed all are pruned |
| BaseCasePass.ExpandedAnswersAtOnce | src/ir/ir_builder.c:2604-2685 | in the end such a function returns those answers within four blocks, calling nothing, on every machine |
| Purity.AnalysePurity | src/ir/ir_builder.c:2688-2721 | the flags left by the loop are the greatest set of functions that is closed under calls and free of forbidden instructions |
| Purity.PureCallsKeepTheWorld | src/ir/ir_builder.c:2688-2721 | no call of such a function touches memory, output or input, at any depth |
| Purity.ForbiddenExactly | src/ir/ir_builder.c:2688-2721 | calls aside, the forbidden operations are those that some machine lets change the world, memory reads and address arithmetic |
| Purity.RemovableExactly | src/ir/ir_builder.c:647-658 | what dead code removal may drop is exactly what no machine lets change the world and what does not end a block |
| VmExecutes.VmExecute | src/ir/ir_builder.c:902-1080 | the interpreter comes back within its step budget, and an answer is what every run returns, with the world unchanged, for functions that read no register from 256 on before writing it; conversely, if the flagged functions are closed under calls and write registers below 256 only, every call that returns, nests at most 20000 deep and fits the budget of 10^10 instructions is answered, in exactly the instructions its run takes |
| Nesting.NestedDelivers | src/ir/ir_builder.c:902-1080 | a call ends in an outcome if and only if it does for some bounds on depth and blocks, so the counted runs of that theorem are the runs of the module |
| Assigned.SsaIsAssigned | src/ir/ir_builder.c:902-1080 | functions in strict SSA form are of that kind, whatever their register numbers |
| Assigned.LowIsAssigned | src/ir/ir_builder.c:902-1080 | and so are all functions with at most 256 registers |
| ConstEvalPass.EvaluateConstants | src/ir/ir_builder.c:2723-2774 | replacing evaluated calls by constants keeps all calls of the module, and leaves it as fit as it was; if the pure functions fit the machine, no call of one on at most 16 literals is left that returned, within the depth and the budget, when the pass began |
| Swaps.ReplacementStaysAffordable | src/ir/ir_builder.c:2753-2766 | a replaced call makes no other call deeper or longer, so nothing becomes unanswerable on the way |
| GlobalDce.EliminateFunctions | src/ir/ir_builder.c:2838-2900 | exactly the functions that can be named from `princeps` and `__scorivm_init` are kept, in order |
| GlobalDce.KeptCalls | src/ir/ir_builder.c:2838-2900 | such a function runs exactly as before the others were dropped |
| Liveness.Solve | src/backend/reg_alloc.c:59-162 | the fixpoint loop ends, and a bit is on if and only if some path reaches a read of the register before any write |
| Coloring.Simplify | src/backend/reg_alloc.c:232-281 | every used register is pushed exactly once, and each is the one that comes first among those still in the graph: fewer than 11 neighbours before more, then more neighbours, or otherwise fewer uses per neighbour, then the lower number |
| Coloring.Select | src/backend/reg_alloc.c:282-317 | the colouring is proper, registers that cross a call never get colours 7 to 10, one pushed with fewer neighbours than its palette has colours is never spilled, and each gets the first colour of its order of preference that its neighbours above it leave |
| RegAlloc.RegAllocator.BuildAndColor | src/backend/reg_alloc.c:43-321 | from a function to a valid allocation: registers that interfere on some path differ, call-crossing ones are safe, spills are forced, level 0 spills all; order and choice are those of the heuristic, for the true interference and the true number of mentions |
| RegAlloc.RegAllocator.GetOffset | src/backend/reg_alloc.c:328-338 | spill slots of at least 8 bytes are handed out once per register, never move, are pairwise apart, and leave no byte of the spill area unused |
| AllocSim.AllocationSimulates | src/backend/reg_alloc.c:164-222 | for every valid allocation, machine, initial store and clobbered values, the run from colours and slots is block for block the run with one cell per virtual register, unless the latter faults |
| AllocSim.ColorsAreRegisters | src/backend/x86_mir.c:88-92 | the colours are different machine registers, RAX, RCX, RDX, RSP and RBP not among them, and those denied to a register needed across a call are the volatile ones of the Microsoft x64 calling convention |
| Encoding.InstRoundTrip | src/backend/pe_linker.c:135-359 | decoding an encoded instruction in front of any bytes gives back its operation, operands and length |
| Encoding.EncodableExactly | src/backend/pe_linker.c:135-359 | those instructions are the only ones: an instruction is read back as itself if and only if it is not a copy of a register to itself, raw bytes, or one whose index is RSP or whose scale is not 1, 2, 4 or 8 |
| Encoding.MemRoundTrip | src/backend/pe_linker.c:32-98 | every base, index other than RSP, scale and 32-bit displacement is decoded back, with the RSP, R12, RBP and R13 cases and the 8 or 32 bit choice |
| Encoding.MovImmRoundTrip | src/backend/pe_linker.c:43-66 | each of the four forms loads exactly the 64-bit immediate |
| Encoding.InstIsShortest | src/backend/pe_linker.c:32-359 | no bytes that decode to the same instruction are fewer than those emitted, except for a call through one of the first eight registers |
| Encoding.LongCallIsLonger | src/backend/pe_linker.c:135-359 | such a call is emitted in three bytes although two say the same |
| Encoding.StackPointerIndexIsLost | src/backend/pe_linker.c:85-98 | with RSP as index the operand decodes to one without an index |
| Assembler.PeLinker.GenerateMachineCode | src/backend/pe_linker.c:467-524 | the second pass finds every block and function where the first one put it, and the text with patched calls is the layout of the items |
| Assembler.JumpsLand | src/backend/pe_linker.c:467-524 | in that text every jump continues at the start of its target block |
| Assembler.CallsLand | src/backend/pe_linker.c:609-616 | every patched call continues at the start of its callee |
| Assembler.FallsThrough | src/backend/pe_linker.c:476-490 | behind a block that does not end in a transfer, every byte up to the start of the next block decodes as an instruction that does nothing, and the next block begins there |
| Assembler.StartsAligned | src/backend/pe_linker.c:467-524 | blocks and functions start at multiples of 16 |
| Imports.AddedKeeps | src/backend/pe_idata.c:43-88 | adding an import keeps the lists free of duplicates, adds the pair asked for (library names compared without case), and nothing else |
| Imports.SameUpToCase | src/backend/pe_idata.c:43-62 | two names are one library if and only if they differ in the case of letters only |
| Imports.ImportTable.Build | src/backend/pe_idata.c:98-196 | the back-patching writer appends exactly the image of the lists and records every slot |
| Imports.ImportTable.AddImport | src/backend/pe_idata.c:43-88 | the method on the two arrays does what `AddedKeeps` is about |
| Imports.ImportTable.GetIatOffset | src/backend/pe_idata.c:198-209 | finds the recorded slot of an imported function, and 0 for others |
| Imports.LoaderRecoversImports | src/backend/pe_idata.c:98-196 | walking those bytes as the loader does recovers the lists in order, and every address slot starts equal to its lookup slot |
| Imports.SlotIsFilled | src/backend/pe_idata.c:198-209 | the offset handed out for a function is that of the slot the loader fills for it |
| Imports.PartsAligned | src/backend/pe_idata.c:98-196 | slots and directory stand at multiples of 8, names of functions at even offsets |
| Layout.FieldsDisjoint | src/middleend/types.c:227-291 | no two fields of a `forma`, bit-fields included, share a bit |
| Layout.FieldStands | src/middleend/types.c:227-291 | in a type that is not `densa` a bit-field that fits the rest of its unit starts at the first bit behind its predecessor; every other field starts at the least aligned byte not below its end |
| Layout.DenseFieldStands | src/middleend/types.c:227-291 | in a `densa` type a bit-field starts at the next bit, any other at the next byte |
| Layout.FormaEnds | src/middleend/types.c:301-355 | a `forma` ends at the least multiple of its alignment behind its last field |
| Layout.UnioEnds | src/middleend/types.c:358-371 | the fields of a `unio` start at 0, and its size is the least multiple of its alignment that holds them |
| Layout.BasicSizes | src/middleend/types.c:301-375 | the sizes of the basic types as numbers |
| Layout.BasicAligns | src/middleend/types.c:194-225 | their alignments as numbers |
| Layout.BitFieldInUnitIff | src/middleend/types.c:243-291 | when a bit-field lies inside the unit of its own type at its byte |
| Layout.FullUnitOverruns | src/middleend/types.c:243-291 | the type whose second field does not |
| Layout.FieldsInside | src/middleend/types.c:227-375 | the layout walk and the size walk agree: every field of a `forma` or `unio` ends inside its size |
| Layout.WholeFieldsAligned | src/middleend/types.c:227-291 | whole fields of a type that is not `densa` are aligned for their own type |
| Layout.SizeIsMultipleOfAlign | src/middleend/types.c:301-375 | sizes are multiples of alignments, for every nesting of types |
| Layout.AlignIsPow2 | src/middleend/types.c:194-225 | alignments are powers of two, which the masks in the size walk need |
| Layout.TypeGetFieldLayout | src/middleend/types.c:227-291 | the cursor loop returns the layout of the first field of that name, and fails exactly when there is none |
| Layout.TypeGetSize | src/middleend/types.c:301-375 | the loop with its bit cursor computes the size all the laws above are about |
| Alignment.MaskAligns | src/utils/memory_arena.c:6 | rounding up with a bit mask, as every alignment in the source is written, is the least multiple not below, as long as nothing overflows |
| Arenas.Arena.Alloc | src/utils/memory_arena.c:31-50 | live blocks stay aligned, in one chunk and apart; the new one is zero; no other byte changes; the chunk list is exactly the bumped or grown one |
| Arenas.Arena.Realloc | src/utils/memory_arena.c:52-76 | in place exactly when it is the last block and fits; growing, shrinking or moving keeps as many bytes as both sizes have, other blocks are untouched; gained memory is zero if and only if the old padding was |
| Arenas.ShrinkAndGrow | src/utils/memory_arena.c:52-76 | the run in which gained memory is not zero |
| Numbers.PrintUint | src/ir/ir_builder.c:1116-1151 | the digit loop writes the decimal digits and stays in its 32-byte buffer |
| Numbers.FirstPrinted | src/ir/ir_builder.c:1153-1176 | the printed text starts with a digit if and only if the number is not negative, and with a minus sign otherwise, and has no leading zero |
| Numbers.Input.LegeInt | src/ir/ir_builder.c:1599-1706 | the reader's loops consume and deliver what the grammar of a number says, and deliver the number itself if and only if the variable can hold it |
| Numbers.ReadMeans | src/ir/ir_builder.c:1599-1706 | every text is read as the number it says, leading zeros and all, wrapped to 64 bits and cut to the variable; what stops the digits is consumed and nothing behind it |
| Numbers.ReadIsExactIff | src/ir/ir_builder.c:1599-1706 | for every text that holds a number, however long: the variable gets it if and only if it is in the range of the variable's size |
| Numbers.LongNumbersWrap | src/ir/ir_builder.c:1599-1706 | two texts that break the promise: 2^63 is read into eight bytes as its negative, 2^64 + 1 into one byte as 1 |
| Numbers.PrintThenRead | src/ir/ir_builder.c:1153-1706 | reading what was printed gives the number back, the minimum included, whatever non-digit or end follows |

## Left out

- The inliner (src/ir/ir_builder.c:2102-2253) and the clean-up loops after constant evaluation
  (src/ir/ir_builder.c:2776-2833).
- Floats, in expressions, folding, printing and reading.
- Narrow and unsigned integers in SIR: values are 64-bit signed with wrap-around, CAST joins equal types, and the
  unsigned condition codes are absent. Shift counts are taken modulo 64; the minimum divided by -1 is a fault, like
  division by zero.
- FunctionGen.GenFunction: the modelled language has integer and `logica` locals and parameters, assignments, all
  operators, `si`, `dum`, `per`, `rumpe`, `perge`, `redde` and traps; calls, pointers, arrays, structures, globals,
  `elige` and `sali` are not in it. A parameter of type `logica` gets a truth value, and memory is modelled a cell at a
  time: a slot has its bytes for itself, but reading part of a stored value is not modelled.
- Typing.CheckedCallsDoNotFail: the checker also accepts arithmetic and order on truth values and `&&` on integers, to
  which `Source` gives no meaning; literals outside the range of their type and the types of returned values are not
  checked.
- Lowering.GenStatement: statements of that language only.
- IrBuilders.GenExpression: expressions of that language only, so no calls, pointers, member access, casts or floats.
- Instruction selection (src/backend/x86_mir.c): allocation is proved at the level of registers and slots, and the
  encoder starts from x86 instructions. Nothing links the two.
- Bit-field access (src/ir/ir_gen.c:836-848, 953-965): only the layout of bit-fields is modelled.
- x86 forms other than those of `Encoding.X86` appear in the layout as fixed bytes (`Raw`) and are not decoded;
  operands relative to RIP and their relocations, the `_start` stub and the section headers are not modelled.
- Encoding.InstRoundTrip: says nothing about those `Raw` forms.
- Numbers.PrintUint: written as the loop it stands for. The SIR blocks `build_print_uint` emits divide unsigned numbers
  and store single bytes, which values in `Sir` do not do, so that they run this loop is not proved; nor is it for
  `PrintInt`.
- Numbers.Input.LegeInt: likewise written as the loops its blocks stand for, whose stores are of 1, 2, 4 and 8 bytes.
- TryEvaluate.TryEvaluatePureFunc: the source bounds the depth but not the number of blocks visited, so it need not
  come back; the model takes a bound on blocks as a parameter and answers nothing beyond it. That it answers is stated
  for operands of the kinds the source looks at: it fails on literal truth values in some places and on address
  arithmetic, although such runs return.
- BaseCasePass.ExpandBaseCases: uses that evaluator, with the same bound; what is tried on 3 and 4 is the function with
  the answers before in front, as in the source.
- VmExecutes.VmExecute: a precondition asks that a call passes as many arguments as its callee fetches, which the type
  checker sees to; the source would read past its argument array.
- ConstEvalPass.EvaluateConstants: asks the same of every call in the module.
- GlobalDce.KeptCalls: functions are called by name only; a call through a computed address could reach a dropped
  function.
- Pipeline.CompileFunction: the frame is laid out for the allocations of the generated code, before the passes remove
  any. It chains propagation, dead code elimination and threading; fast-path stripping, which is only
  correct under its two conditions, is not in it.
- Optimizer.OptimizeModule: has neither the inliner, the stripping nor the clean-up after constant evaluation; from
  level 2 on it asks for certificates, which the generator supplies, and for calls by name with the arguments the
  callee fetches.
- Functions without a body belong to the machine.
- Allocation failure, integer overflow in sizes and offsets, the doubling of buffers, and all input and output.
