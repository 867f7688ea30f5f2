# The code generator, verified

The library turns nested C++ lambdas (`if_`, `while_`, `call`, `variable`, `load`, `store`, expression
templates) into LLVM functions, and writes a readable listing that debuggers show. This project models
that one-pass compiler in Dafny and proves that what it emits means what the lambdas say.

Three descriptions of a program meet here:

* **Source.dfy** is the program the user wrote: lambdas as a syntax tree, with a big-step meaning whose
  outcomes are normal, break, continue, return, out of fuel and wrong (undefined behaviour, or a program
  the C++ compiler would refuse).
* **Ir.dfy** is what comes out: basic blocks, bit-pattern instructions of any width, allocas, calls, and a
  small-step machine with a stack of frames over one flat byte memory (**Memory.dfy**).
* **ModuleBuilder.dfy** is the compiler: two mutable classes with the fields of `module_builder` and
  `source_code_generator`, whose methods follow the C++ statement by statement. Every method is proved
  to change the state exactly as its function in **Lowering.dfy** and **Text.dfy** says; all theorems are
  about those functions, and so about the classes.

What is proved, by file:

| file | subject |
|---|---|
| Expressions, Actions, Simulation, Preservation, Correctness | the emitted code computes what the source computes, halts exactly when it halts, and is never stuck |
| Typing, Progress | what compiles, and exactly what can still go wrong when it runs |
| Operators, Laws, Lazy | what each operator computes, bit by bit where it is bitwise; division, casts, pointer arithmetic; the value of an expression tree wherever it is used |
| Flow, Layout, Structure, Finished, Reducible | block list, terminators, reachability, reducibility of every function |
| Emission, Ssa, Runs, Allocas | register numbering, dominance, single-entry regions, call order, hoisted allocas; that runs of the machine follow the walks these speak of, and depend on no register but those an instruction is said to use |
| DebugLines, Listings, LineNames, OneLine, FinalListing, InstructionLines | the finished listing, line by line, and the line and the lexical block every instruction names in it |
| Parser, RoundTrip | the listing parses back to the program, operators and types included |
| Comparator, StringComparator, SoaCompute, Overlap | three example generators, compiled and run; exactly where the third is element-wise |
| Control | `if_`, `break_` and `continue_` in terms of each other, and the tests' two functions made of `if_` and `while_` alone |

Bits, Types, Shapes, Growth and Agreement hold the arithmetic, the C++ types and the shared definitions.

Some facts about the code that the proofs turn up:

* `while_` generates its condition twice. The first copy is only printed, but its reads are emitted before
  the loop and stay there; they are harmless, and the simulation includes them
  (include/codegen/statements.hpp:185, :197).
* A loop header records the line after its own, because `while_` asks for the current line plus one before
  it adds its line (include/codegen/statements.hpp:183-186). When the condition loads, that line is the
  header's own or the second load's instead.
* Leaving debug intrinsics aside, debug lines move backwards in one case only: a condition that gets a variable
  before its first load.
* A program that compiles can go wrong in five ways only: an undefined division, a variable got before it is set,
  an access to memory that is not there, a `bool` loaded from a byte that is neither 0 nor 1, and a function
  that comes to its end without a return.
* `bool` is an `i1`, so `cast<bool>` keeps the low bit, unlike the C++ conversion.
* In narrow types `(p + i) + j` and `p + (i + j)` differ when `i + j` wraps.
* `create_function` clears `exited_block_` but not `current_loop_`; every `while_` puts the latter back, so
  none is left over (include/codegen/module_builder.hpp:387, include/codegen/statements.hpp:224).
* The array loop is element-wise, for every factor and every memory, exactly when it has one element at
  most or `d` does not begin inside `b` or `c`.
* An `if_` whose arms all exit still leaves a merge block. It is dead, and at the end of a function it has
  no terminator.

## Model

| member | source | states |
|---|---|---|
| Preservation.Sim | include/codegen/statements.hpp:32-225 | every lambda, from any matching state: the machine reaches the final insertion block on a normal outcome, the loop's break or continue block on those, returns the same value on a return, with matching memory, and runs at least as many steps as fuel when the source has not finished |
| Preservation.SimIf | include/codegen/statements.hpp:32-83 | the two-armed `if_`, whichever arm is taken and however it ends |
| Preservation.SimIfThen | include/codegen/statements.hpp:87-120 | the one-armed `if_` |
| Preservation.SimWhile | include/codegen/statements.hpp:180-225 | the loop, including the discarded first reads of its condition |
| Preservation.SimIteration | include/codegen/statements.hpp:192-222 | one more iteration: normal end and continue go round, break goes on after the loop, return leaves |
| Preservation.SimCall | include/codegen/statements.hpp:122-141 | a call runs the callee on a fresh frame and comes back with its result, the caller's registers and variables untouched |
| Preservation.SimFunction | include/codegen/module_builder.hpp:353-378 | calling any function of a program built by one builder gives the source's outcome, by induction on creation order |
| Control.EmptyElse | include/codegen/statements.hpp:32-120 | a two-armed `if_` with nothing in its second arm is the one-armed `if_` |
| Control.NotSwapsArms | include/codegen/statements.hpp:32-83 | negating the test of a two-armed `if_` exchanges its arms, whatever the test and however either arm ends |
| Control.ContinueAtEnd | src/statements.cpp:39-49 | a loop body that ends with `continue_` is the body without it, for every loop |
| Control.BreakAtEnd | src/statements.cpp:27-37 | a loop whose body ends with `break_` is the body under a one-armed `if_` |
| Control.ChooseCorrect | tests/examples.cpp:173-183 | the two-armed `if_` that returns from both arms, compiled and run: it halts with its argument, for both, all memory as it was |
| Control.CountCorrect | tests/examples.cpp:186-205 | the counting loop, compiled and run: it halts with its argument, for every 32-bit one, all memory as it was |
| Progress.GoesRightIff | include/codegen/statements.hpp:32-225 | a call of a program that compiles never goes wrong if and only if no run of it, through arms, loops and calls, comes to an undefined division, an unset variable, memory that is not there, a byte that is no bool, or the end of a function that should have returned |
| Progress.FaultFreeNeverStuck | include/codegen/module_builder.hpp:384-392 | such a program, compiled, never gets the machine stuck |
| Progress.EvalProgress | include/codegen/arithmetic_ops.hpp:53-87 | a well-typed expression has a value exactly when no division in it is undefined |
| Progress.ActionProgress | include/codegen/statements.hpp:143-176 | a well-typed get, set, load, store or memcmp can be carried out exactly when it does not fault |
| Progress.NoEscape | src/statements.cpp:27-49 | `break_` and `continue_` never leave the lambda of the loop they stand in |
| Preservation.AllocasGo | include/codegen/variable.hpp:37-48 | the allocas of a function, run in order, give every variable its own bytes and leave existing memory alone |
| Preservation.EnterGoes | include/codegen/module_builder.hpp:369-373 | from a call to the first instruction of the body: allocas done, arguments in their registers |
| Simulation.SimBreak | src/statements.cpp:27-37 | `break_` leads to the start of the innermost loop's break block |
| Simulation.SimContinue | src/statements.cpp:39-49 | `continue_` leads to the start of the innermost loop's header |
| Simulation.SimReturn | include/codegen/module_builder.hpp:304-310 | `return_(v)` hands the caller the pattern of v's value |
| Actions.ActionAdvances | include/codegen/statements.hpp:143-176 | get, set, load, store, declarations and memcmp each take a matching machine state to a matching one |
| Expressions.EmittedComputes | include/codegen/arithmetic_ops.hpp:53-87 | code emitted for any expression tree computes the tree's value wherever it stands, and changes nothing that existed before |
| Expressions.SelectArithCorrect | include/codegen/arithmetic_ops.hpp:54-74 | the instruction chosen by signedness is defined exactly when the operation is, and then gives its result, at every width |
| Expressions.SelectRelCorrect | include/codegen/relational_ops.hpp:53-81 | the comparison chosen by signedness holds of the patterns exactly when the relation holds of the values |
| Correctness.RunPreserved | include/codegen/module_builder.hpp:384-392 | a source run that returns is matched by a machine run with the same result and memory; one still going after some fuel is matched by as many machine steps |
| Correctness.NeverStuck | include/codegen/module_builder.hpp:384-392 | a program that does not go wrong never gets the machine stuck |
| Correctness.HaltsIffTerminates | include/codegen/statements.hpp:180-225 | the compiled program halts if and only if the source program terminates |
| Correctness.HaltsWithResult | include/codegen/module_builder.hpp:384-392 | any halting run of the machine has the source's result |
| Correctness.FuelMonotone | include/codegen/statements.hpp:180-225 | a run that finishes gives the same outcome with any larger fuel, so the meaning does not depend on it |
| Operators.BitsOfResult | include/codegen/arithmetic_ops.hpp:71-73 | bit i of an and, or, xor is the and, or, difference of the operands' bits i, at every width |
| Operators.BitsDetermine | include/codegen/arithmetic_ops.hpp:71-73 | and a pattern is determined by its bits |
| Operators.ArithmeticMeans | include/codegen/arithmetic_ops.hpp:53-87 | every operator: the result has the operands' type and is the sum, difference or product up to a multiple of the modulus, the quotient towards zero, the remainder, the bits combined; undefined are only division by zero and the signed quotient that does not fit |
| Operators.AdvanceMeans | include/codegen/arithmetic_ops.hpp:125-141 | a pointer step moves by the offset times the element's size, up to a multiple of two to the 64 |
| Operators.ValuesOf | include/codegen/module_builder.hpp:116-168 | exactly the values of every type |
| Operators.SizeCovers | include/codegen/module_builder.hpp:116-168 | every type takes the fewest bytes that hold its width, pointers eight |
| Operators.ByteOrder | include/codegen/statements.hpp:163-176 | byte i of a stored value is its bits 8i to 8i + 7 |
| Laws.DivisionIdentity | include/codegen/arithmetic_ops.hpp:59-70 | the selected quotient and remainder are defined together, and quotient times divisor plus remainder is the dividend, modulo the width |
| Laws.RemainderLaw | include/codegen/arithmetic_ops.hpp:65-70 | the remainder is smaller than the divisor and has the dividend's sign |
| Laws.CastCollapse | include/codegen/module_builder.hpp:278-283 | a cast through a type at least as wide as the last one does not matter |
| Laws.CollapseNeedsWidth | include/codegen/module_builder.hpp:278-283 | through any narrower type it does: a value that shows it |
| Laws.WidenNarrow | include/codegen/module_builder.hpp:278-283 | widening and narrowing back is the identity whatever the signs |
| Laws.CastKeepsIff | include/codegen/module_builder.hpp:278-283 | a cast keeps a value exactly when the target type has it |
| Laws.BoolCast | include/codegen/module_builder.hpp:133-140 | a cast to `bool` keeps the low bit; exactly when it agrees with a test for non-zero |
| Laws.AdvanceTwice | include/codegen/arithmetic_ops.hpp:125-141 | two pointer steps are one step by the 64-bit sum (difference) of the offsets |
| Laws.ThereAndBack | include/codegen/arithmetic_ops.hpp:125-141 | `(p + i) - i` is p for every offset of every type |
| Laws.ReassociateIff | include/codegen/arithmetic_ops.hpp:125-141 | exactly when `(p + i) + j` equals `p + (i + j)` |
| Laws.NarrowSumWraps | include/codegen/arithmetic_ops.hpp:125-141 | concrete bytes for which they differ |
| Laws.EvalExtends | include/codegen/module_builder.hpp:207-207 | a tree keeps its value as more values come into scope |
| Lazy.LazyAnywhere | include/codegen/arithmetic_ops.hpp:53-87 | from any point of a run, by any moves over statements and calls, into arms and loop bodies and round loops: code emitted there for a tree over leaves read at the first point computes what the tree was worth at that point, and leaves everything in place to compute it again |
| Lazy.LazyAtEnd | include/codegen/variable.hpp:55-66 | the same once any lambda has run to its end, whatever it set, stored, looped or called |
| Lazy.MoveGoes | include/codegen/statements.hpp:32-225 | each such move of the source is a stretch of the machine's run that ends in a matching state, in every iteration of a loop too |
| Laws.ReadThenSet | include/codegen/variable.hpp:55-66 | `get` takes a copy: a later `set` is seen by later gets only |
| Memory.LoadStore | include/codegen/statements.hpp:143-176 | a load after a store of the same type and address returns the pattern stored |
| Growth.LowerGrows | include/codegen/statements.hpp:32-225 | generating a lambda only appends: no finished block, register number, label or alloca is ever changed |
| Structure.LowerInv | include/codegen/statements.hpp:50-82 | at every statement boundary the insertion block is last and terminated exactly when `exited_block_` says so, the other listed blocks are closed, targets are listed or pending, reachability and definitions are known exactly; the lambda falls through exactly when its text does |
| Finished.FunctionWellFormed | include/codegen/statements.hpp:188-222 | every finished function: entry first, blocks listed once, one terminator each (bar the last if the body does not exit), edges forward except back to a loop header from inside that loop |
| Finished.CyclesMeetHeaders | include/codegen/statements.hpp:188-222 | every cycle of a function's graph passes through a `while_continue` block |
| Reducible.Reducible | include/codegen/statements.hpp:188-222 | every branch of a finished function goes forward in the block list or to a loop header that every walk from the entry to the branch has passed: the graph is reducible, each loop's header dominating its back edges |
| Finished.RunsOffIff | include/codegen/statements.hpp:56-82 | the final block is open and reachable if and only if some path through the text falls through: merge blocks behind arms that all exit are dead, at any nesting |
| Finished.NormalFallsThrough | include/codegen/statements.hpp:56-82 | and then only can the source run off the end |
| Ssa.SingleDefinition | include/codegen/module_builder.hpp:188-210 | no register is defined twice, nor one that holds an argument |
| Ssa.UsesDefined | include/codegen/module_builder.hpp:188-210 | on every walk from the entry, what an instruction uses has been defined on the way |
| Ssa.DefinitionDominates | include/codegen/statements.hpp:38-82 | the definition of a register dominates every use of it |
| Runs.RunsFollowWalks | include/codegen/statements.hpp:38-82 | however a run of the compiled program goes, every frame on its stack is in a block that some walk from its function's entry reaches, so what holds on all walks holds of all runs |
| Ssa.SingleEntryRegion | include/codegen/statements.hpp:38-82 | the blocks a lambda creates are entered only from the insertion block it began at, and left only to each other or to the enclosing loop's blocks |
| Ssa.CallDepthBounded | include/codegen/module_builder.hpp:353-378 | however a run goes, its stack is never deeper than the number of functions |
| Allocas.AllocasHoisted | include/codegen/variable.hpp:40-41 | the allocas are exactly the first instructions of the entry block, one for each declaration in the text, the last declared first |
| Allocas.EntryOnce | include/codegen/variable.hpp:40-41 | no walk comes back to the entry block, so a call allocates each variable once |
| Emission.TraceEmits | include/codegen/statements.hpp:192-224 | a lambda numbers its registers in order, branches to its own blocks or the innermost loop's, climbs through debug lines unless a condition gets before it loads, and gives back loop, scope and indentation |
| DebugLines.LinesInOrderIff | include/codegen/statements.hpp:183-186 | a function's debug lines never move backwards if and only if no condition gets a variable before its first load |
| DebugLines.GetThenLoadGoesBack | include/codegen/statements.hpp:183-186 | a function in which they do |
| DebugLines.LinesExist | src/module_builder.cpp:64-67 | every recorded line exists in the listing |
| DebugLines.ListingGrows | src/module_builder.cpp:64-67 | a line number keeps naming the same text from one function to the next |
| FinalListing.ListingIs | src/module_builder.cpp:64-71 | for every program, `get()` split at newlines is exactly the program's lines in order, each indented four times its nesting depth, if and only if no function, called function or variable is given a name with a newline |
| FinalListing.NamesDecideLines | include/codegen/module_builder.hpp:332-349 | those names decide it: some line of the listing contains a newline exactly when one of them does, since types, numbers and load names never bring one and every name is printed |
| FinalListing.LowerAdds | include/codegen/statements.hpp:32-225 | the lines and depths of any lambda, loads in conditions included, with the indentation put back |
| InstructionLines.InstructionNamesLine | src/module_builder.cpp:64-71 | for every program with no newline in a name, every function and every instruction but the allocas, the recorded number is the number in the final `get()` of a line with that instruction's statement, at its depth |
| InstructionLines.InstructionScope | include/codegen/statements.hpp:47-69 | the recorded scope of each of those instructions is its statement's block as the listing's indentation shows it: the function's with its name and first line, then one lexical block per lambda around the statement, with that block's first line; the branch closing a body, and a loop's header, are outside it |
| InstructionLines.TraceNamed | include/codegen/statements.hpp:32-225 | line and scope for any lambda in any listing that has its lines: gets keep those of the statement before, closing branches name the closing line and the scope outside |
| InstructionLines.HeaderRecords | include/codegen/statements.hpp:183-197 | exactly which line a loop header names, with no load, one load or more in its condition |
| DebugLines.HeaderOneAhead | include/codegen/statements.hpp:183-186 | a loop whose condition only gets: all its header's instructions record the line after the header's own |
| DebugLines.NothingLeftOver | include/codegen/module_builder.hpp:364-375 | between functions there is no loop, no open scope and no indentation |
| Listings.LinesAreIndexed | src/module_builder.cpp:64-71 | splitting `get()` at newlines gives the added lines if and only if none of them contains one |
| Listings.LowerPrints | include/codegen/statements.hpp:32-225 | the builder prints exactly the printed form of the program with types and gets erased |
| Listings.ShowErased | include/codegen/arithmetic_ops.hpp:89-103 | the stream operators print exactly the expression without the types of its leaves |
| Parser.SymbolRead | include/codegen/arithmetic_ops.hpp:89-103 | every operator's text is that operator's and no other's |
| Parser.TypeRead | include/codegen/module_builder.hpp:116-168 | every type's name, pointers to any depth, is that type's and no other's |
| Parser.ParseShow | include/codegen/relational_ops.hpp:94-106 | an expression's text, whatever follows it, parses back to the expression with its operators and cast types, read by a table of the parser's own |
| Parser.SimpleRead | include/codegen/statements.hpp:128-173 | every one-line statement's text parses back to it |
| Parser.ParsePrint | include/codegen/statements.hpp:35-73 | the lines of any tree parse back to it, one-armed and two-armed ifs told apart |
| RoundTrip.ListingRoundTrip | include/codegen/module_builder.hpp:332-349 | parsing the text of a whole program's listing gives back every function's return type, name and parameter types, and its statement tree with all operators, cast types and declared types |
| Comparator.LexTransitive | tests/examples.cpp:49-61 | lexicographic order of tuples is transitive |
| Comparator.LexTotal | tests/examples.cpp:49-61 | and total and asymmetric |
| Comparator.ChainRuns | tests/examples.cpp:40-47 | `less_cmp` chained over any integer and bool fields, ending in `return false`, decides the order of the tuples decoded at the running offsets; a bool's byte must be 0 or 1 |
| Comparator.IntTupleOk | tests/examples.cpp:40-47 | tuples of integers are fit for it whatever their bytes are |
| Comparator.ComparatorCorrect | tests/examples.cpp:49-61 | compiled and run, it halts with that answer, reading only the tuples' own bytes and writing none |
| Comparator.EquivalentIsEqual | tests/examples.cpp:40-47 | tuples neither of which is less are the same bytes |
| StringComparator.CompareIsStrLess | tests/examples.cpp:96-105 | memcmp over the shorter length and then the lengths decide dictionary order |
| StringComparator.RecordOrder | tests/examples.cpp:87-106 | the order on (int32, byte string) is strict and total |
| StringComparator.StringComparatorCorrect | tests/examples.cpp:80-106 | the compiled pair of functions, with its call and memcmp, decides that order for strings of every length, whichever number of the right sign memcmp returns |
| SoaCompute.Elementwise | tests/examples.cpp:139-145 | the loop's writes are the element-wise results, with one element at most or where d does not begin inside b or c |
| Overlap.ElementwiseIff | tests/examples.cpp:139-145 | for every layout inside the address space: the loop is element-wise for all factors and memories if and only if it has one element at most or d does not begin inside b or c |
| Overlap.LateEntry | tests/examples.cpp:139-145 | on every layout, overlapping or not, element k is made from the memory its own iteration finds |
| Overlap.CopyAheadFails | tests/examples.cpp:139-145 | two elements copied one element ahead, where the second comes out wrong |
| SoaCompute.LoopRuns | tests/examples.cpp:139-145 | the generated loop, at any length, performs the iterations in order and ends |
| SoaCompute.SoaComputeCorrect | tests/examples.cpp:136-147 | compiled and run on any such layout, it halts with `a * b[k] + c[k]` in every `d[k]`, in 32-bit arithmetic, and nothing else changed |
| ModuleBuilders.SourceCodeGenerator.AddLine | src/module_builder.cpp:64-67 | appends one indented line and returns its 1-based number |
| ModuleBuilders.SourceCodeGenerator.Get | src/module_builder.cpp:69-71 | the text is the lines added, each ended by a newline |
| ModuleBuilders.ModuleBuilder.Eval | include/codegen/arithmetic_ops.hpp:53-87 | appends exactly the tree's three-address code and returns its operand |
| ModuleBuilders.ModuleBuilder.EvalPointer | include/codegen/arithmetic_ops.hpp:125-141 | widening by the offset's signedness, negation for minus, then one address computation |
| ModuleBuilders.ModuleBuilder.EvalCast | include/codegen/module_builder.hpp:262-285 | extension or truncation chosen by the source type |
| ModuleBuilders.ModuleBuilder.EvalBitCast | include/codegen/module_builder.hpp:240-242 | same-size reinterpretation |
| ModuleBuilders.ModuleBuilder.EvalArguments | include/codegen/statements.hpp:136-137 | arguments are evaluated left to right |
| ModuleBuilders.ModuleBuilder.Variable | include/codegen/variable.hpp:37-48 | one more alloca, inserted at the front of the entry block, and its line |
| ModuleBuilders.ModuleBuilder.Get | include/codegen/variable.hpp:55-58 | a load from the slot under the current location, no line |
| ModuleBuilders.ModuleBuilder.Set | include/codegen/variable.hpp:60-66 | the line, then the expression's code, then the store |
| ModuleBuilders.ModuleBuilder.Load | include/codegen/statements.hpp:143-161 | a numbered name, its line, the address's code and the load |
| ModuleBuilders.ModuleBuilder.Store | include/codegen/statements.hpp:169-176 | value before address, then the store |
| ModuleBuilders.ModuleBuilder.Call | include/codegen/statements.hpp:122-141 | the line, the arguments' code and the call |
| ModuleBuilders.ModuleBuilder.MemCmp | include/codegen/builtin.hpp:44-59 | the line and the call |
| ModuleBuilders.ModuleBuilder.Break | src/statements.cpp:27-37 | marks the block exited and branches to the current loop's break block |
| ModuleBuilders.ModuleBuilder.Continue | src/statements.cpp:39-49 | the same for the continue block |
| ModuleBuilders.ModuleBuilder.Return | include/codegen/module_builder.hpp:304-310 | marks the block exited, prints, evaluates and returns |
| ModuleBuilders.ModuleBuilder.ReturnVoid | src/module_builder.cpp:91-97 | the same without a value |
| ModuleBuilders.ModuleBuilder.If | include/codegen/statements.hpp:32-83 | blocks created detached and pushed later, fall-through branches only where the arm has not exited, scope and indent restored |
| ModuleBuilders.ModuleBuilder.IfThen | include/codegen/statements.hpp:87-120 | the same with one arm |
| ModuleBuilders.ModuleBuilder.While | include/codegen/statements.hpp:180-225 | condition generated twice, loop exchanged and put back, back edge only where the body has not exited |
| ModuleBuilders.ModuleBuilder.Generate | include/codegen/statements.hpp:32-225 | a whole lambda, statement by statement |
| ModuleBuilders.ModuleBuilder.CreateFunction | include/codegen/module_builder.hpp:353-392 | a fresh entry block, header line, body, closing line; a reference to the new function |
| ModuleBuilders.ModuleBuilder.CreateAll | include/codegen/module_builder.hpp:384-392 | creating functions one after the other leaves exactly the compiled program the theorems are about |

## Left out

- Floating point: arithmetic, comparisons, casts and literals; the tuple comparator is proved for every list of integer and bool fields, so the example's float field is not covered.
- What LLVM does with the code: constant folding in its IR builder, optimisation passes, JIT linking, symbols, the GDB listener, and the file the listing is written to.
- C++ leaves the order of operands inside one expression unspecified; operands are evaluated left to right here, and pointer arithmetic as its own code orders it (offset, base, negation).
- In-bounds address computations that leave their object are poison in LLVM; here they wrap at 64 bits and only an access outside allocated memory is undefined.
- The counters for lines, indentation and load names are unsigned in C++ and unbounded here. The load counter is shared by every builder of a process; here it starts at zero with the one builder.
- ModuleBuilders.ModuleBuilder.MemCmp: `memcmp` is an assumed bytewise comparison that returns 0 or any int with the sign of the first difference; which one is left open, as a fixed but unknown function of the differing bytes, their addresses and the length left. The example passes it a 32-bit length where its declaration has 64 bits, and each use declares the function anew, so LLVM renames a second one in the same module; neither is modelled.
- The debug location of allocas: none here, where LLVM's builder, positioned at an existing instruction, takes over that instruction's (include/codegen/variable.hpp:40).
- Debug intrinsics, DWARF types, function attributes and alignment: no effect on the meaning.
- Constness of pointees: it only restricts what compiles.
- Progress.GoesRightIff: for programs without `bit_cast` between `bool` and a one-byte type. That compiles (include/codegen/module_builder.hpp:233-234), but LLVM has no such cast between an `i1` and an `i8`.
- Lambdas are syntax trees. C++ scoping is expressed by levels; a value used out of scope has no meaning here, where it would not compile there.
- Statements after a `break_`, `continue_` or `return_` in the same lambda: the builder would append to a closed block, and the syntax has no place for them.
- Loop conditions that store, call or branch: the builder would emit their effects twice. Conditions may get, load and compute.
- `create_function` inside another function's body, external functions, `memcpy` and `bswap`.
- Stack exhaustion: memory above the stack pointer is always free.
- Listings.LowerPrints: for conditions that only get variables; a load in a condition prints its line twice, and such listings are not parsed back (FinalListing.ListingIs covers their lines).
- RoundTrip.ListingRoundTrip: the listing does not show the types of literals, the places of gets, or which of several equally named variables or functions is meant.
