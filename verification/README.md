# Marius, verified

Marius is a small object-oriented language with a byte-code compiler and virtual machine, an Immix garbage
collector, a parser generated by Lemon, and MurmurHash3 for its hash tables. This project models the four parts that
carry the most logic, in Dafny, and proves what each is for. `dafny verify dfyconfig.toml` checks all of it.

Where the program works by changing things, so does the model: classes with fields, arrays and loops stand for
`ast::State`, `VM`, `ScopeTracker`, the Lemon state builder and action table, the generated parser, and the heap's
line maps, allocator and collector. Each such method is proved equal to a function of its inputs and the old state,
and the theorems are about those functions.

**The compiler and the virtual machine.** `Ast` holds the trees, `Emission` the byte code of each node without labels,
`CodeGenerator` the class that pushes bytes and back-patches labels and is proved to make the same bytes. `Machine` is
the interpreter as single steps over overlapping register windows, with one handler stack and one closure per
activation; `VirtualMachine` is the loop of `VM::run`, proved to take exactly those steps. `Evaluator` gives the meaning
of a tree directly, with exceptions, non-local returns and closures but without registers, jumps or stacks.
`Simulation` and `Correctness` prove that compiled code does what the evaluator says, in both directions;
`ProgramCorrectness` joins that with scope analysis.
`HandlerStacks` proves that the handler stack of every activation in every reachable state is the list of try bodies
around its instruction. `RuntimeInvariant` and `NonLocalReturn` prove which activation a `return` in a block ends.
`ScopeTracker`, `ScopeAnalysis`, `RegisterAllocation` and `ClosureAddressing` prove that names get the registers and
closure slots of their variables, that those are clear of the compiler's temporaries, and that the recorded depth and
index lead to the right slot in every reachable state; `TrackerVisitor` is the visitor that computes them.
`ScopeFindings` has two small trees, from analysis to execution, for which these parts do not work together.
`LexicalScoping` tells from names alone which variable each name means, and proves that scope analysis finds the
same. `NameEvaluator` gives the meaning of a program in which every activation has its variables by name, without
registers, slots or temporaries; `NamesAgree` proves the other evaluator equal to it, and `NameCorrectness` joins the
chain: what the machine does with the byte code is what the names of the program say. `MachineLaws` tells, without the
functions that machine and evaluators share, which values count as false, when a call starts an activation, what is
raised, where a slot lies, and which bytes stand for each node.

**Lemon.** `Grammars` defines derivations. `FirstSets` and `FollowSets` are the two fixed points, `Lr0` the mutually
recursive construction of states, `LrActions` the action lists and conflict resolution, `MergeSort` the sort under
them, `LrLookahead` the seeds and links from which follow sets come, `LrCompress` the default reductions,
`ActionTable` the packed table, `LrTables` and `LrGenerator` the arrays that are written out, `LrOrder` the orders
that states and rows are sorted by, `Lemon` the generator as one method. `LrDriver` and `LrParser` are the parser that
reads the arrays, `LrRefinement` relates it to one that reads the uncompressed lists. Each layer is tied to the next.
`LrAcceptance` proves the parser sound: it accepts at the end of the input only, and what it then accepts without a
syntax error is a sentence of the grammar. `LrCompleteness` proves the other half: where no action was given up for
another, every sentence is accepted, with its derivation tree, so that there is only one. `LrTermination` tells when
the loop of the parser ends, and that where no symbol derives itself the parser decides. `LrFindings` has a grammar on
which the generator goes wrong.

**The heap.** `ImmixBlock` is a block with its line map, `ImmixHeap` the block cursors and the allocator, `HeapSafety`
the whole runs of allocations, changes of references and collections, `Marking` the mark stack and the two alternating
marks. `AllocationLaws` proves that an allocation passes over nothing it could have used, and which lines a collection
gives back.

**MurmurHash3.** `Words` has the operators on machine words, bit by bit; `Murmur64` and `Murmur32` the two routines,
proved to tell apart all keys of one length that differ in one block only. `KnownHashes` works the published hashes out
word by word, with the arithmetic of `WordLiterals`.

Conditions that the proofs show to be needed, each stated with the input that breaks it or as an if-and-only-if:

- a number literal from -126 to -1 is loaded as a positive number (`LiteralsLoadedAsWritten`);
- the register operand of `SVAR` is read as a signed byte, so registers from 128 up are not stored (`StoredRegister`);
- an operator assignment and the variable of a `rescue` bind a fresh local when the name belongs to an enclosing scope
  (`RebindMeansVariable`; in `x = 1; { x += 1 }` the block reads a register that has no value, `RebindMisses`);
- the temporaries of a block overlap its locals when an argument is captured while a later argument or another local
  stays in a register (`BlockTemporariesClear`); `{ |x| y = 1; { x }; y }` then gives back the block `{ x }`
  (`BlockTemporariesCollide`);
- the hole search of the action table can fail, and then the row overwrites an earlier one, shares its offset, or is
  written past the array (`EndOfSearch`, `SearchCanFail`); with the tokens `A` to `E` numbered from 1 the grammar
  `s ::= A A A A A A A A A A A A A A A A E.` makes it fail, and its parser shifts an `E` after fourteen of the sixteen
  (`GeneratorSpoils`);
- the loop of the parser runs for ever on a token if and only if the states on its stack come to be what they were
  (`LoopsForEver`), which they cannot where no symbol of the grammar derives itself (`LoopEnds`);
- `msort` loses elements from 2^30 elements on (`SortsBelowLimit`);
- the header in front of an object is outside the range that is marked, and its line stays free when the object starts
  in the first 16 bytes of the next line (`HeaderMarked`); nothing is lost by it, since a hole ends one byte into its
  last line (`AllocateOk`, `AllocationsAreSafe`);
- marking an empty object at the start of the last line of a block fails the assertion in `mark_line`
  (`MarkLineAssertion`).

## Model

| member | source | states |
|---|---|---|
| Correctness.CompilerCorrect | vm/ast.cpp:93-1199 | for every method object that exists, in a runtime that hands out only such objects, with any registers: if the tree has an outcome, its byte code ends with that outcome and that world; if the tree needs more than `fuel` calls and loop turns, the machine is still running after `fuel` steps; if a check fails in one, it fails in the other |
| Correctness.HaltsExactlyAsMeant | vm/vm.cpp:58-339 | the machine halts with an outcome and a world if and only if the tree evaluates to them, unless the evaluation reads a local that has no value |
| MachineLaws.JumpsIfFalse | vm/vm.cpp:248-264 | `JMPIF` goes to the next instruction if and only if its register holds neither nil nor false |
| MachineLaws.JumpsIfTrue | vm/vm.cpp:248-264 | `JMPIT` jumps if and only if its register holds neither nil nor false |
| MachineLaws.Negates | vm/oop.hpp:287-289 | `NOT` leaves true if and only if its operand is nil or false |
| MachineLaws.Conditions | vm/oop.hpp:287-289 | in trees, a conditional, `unless`, `and` and `!` go by whether the tested value is one of nil and false, for every node and fuel |
| MachineLaws.LoopTurns | vm/oop.hpp:287-289 | a loop ends with a condition that is nil or false and turns on every other |
| MachineLaws.Rescues | vm/ast.cpp:921-982 | a typed handler takes the exception unless `===` gives nil or false, and then raises it again |
| MachineLaws.NamedConditions | vm/oop.hpp:287-289 | the same of the meaning by names |
| MachineLaws.NamedLoopTurns | vm/oop.hpp:287-289 | and of its loops |
| MachineLaws.NamedRescues | vm/ast.cpp:921-982 | and of its handlers |
| MachineLaws.Starts | vm/method.cpp:53-57 | a send starts an activation unless a method with parameters is checked and the number of arguments is not theirs, when it delivers the error of that number; where, with which registers and which closure is stated |
| MachineLaws.Activates | vm/method.cpp:53-57 | a call as a tree makes it is refused in exactly these cases |
| MachineLaws.NamedActivates | vm/method.cpp:53-57 | and one by names |
| MachineLaws.SlotsOnTheWay | vm/closure.hpp:42-68 | so many parents up stands the closure that is read or written; past the outermost nil is read and nothing is written |
| MachineLaws.Raises | vm/exception.cpp:33-41 | an exception is raised as it is, a string in a new exception, and any other value fails a check |
| MachineLaws.BytesOfNumbers | vm/ast.cpp:362-381 | numbers from -126 to 127 take one byte of operand, others four, the lowest first |
| MachineLaws.BytesOfTests | vm/code.hpp:23-56 | the instructions of the nodes that test a value, in numbers, with the distances they jump |
| MachineLaws.BytesOfScope | vm/ast.cpp:1128-1146 | the body of a method starts in the register after its parameters and locals, that of a block or file after its locals; a return follows, in a file none |
| Correctness.LiteralsLoadedAsWritten | vm/ast.cpp:362-381 | a 32-bit literal is loaded as written if and only if it is not between -126 and -1 |
| Correctness.StoredRegister | vm/vm.cpp:290-291 | a register number survives the operand of `SVAR` if and only if it is below 128 |
| ProgramCorrectness.ProgramCorrect | vm/compiler.cpp:12-54 | an analysed program within the limits of its instructions, compiled: every method object that exists, run in any window with any arguments, ends as its tree does, runs on as long as it does, and fails where it fails |
| ProgramCorrectness.CodeIsSound | vm/ast.cpp:1128-1146 | the code of every scope of an analysed program, however deeply nested, names only its own registers and slots that exist |
| NameCorrectness.ProgramMeansNames | vm/compiler.cpp:12-54 | an analysed and compiled program runs as its names say under lexical scoping: a call that ends by its names ends so on the machine, with the same outcome and the same variables; one that goes on goes on, one that fails fails |
| NameCorrectness.HaltsExactlyAsNamed | vm/vm.cpp:58-339 | the machine ends with an outcome if and only if the names say so, unless by the names a variable without a value is used or a call has too few arguments |
| NameCorrectness.FreshMemory | vm/vm.cpp:58-86 | where only the globals exist, the memory by names is there: it holds the globals under their names |
| NamesAgree.EvalFits | vm/ast.cpp:93-1199 | for every node, world and fuel: the evaluator over registers and slots gives, raises, leaves, fails or goes on as the one over names does, and afterwards every variable that has a value has it in its register or slot |
| NamesAgree.RunFits | vm/vm.cpp:58-86 | the same of a whole activation, with its arguments stored in registers or captured |
| NamesAgree.ReadFits | vm/closure.hpp:42-51 | reading the place of a name gives the value of the variable it means |
| NamesAgree.WriteFits | vm/closure.hpp:59-68 | writing the place of a name changes the variable it means and no other |
| NamesAgree.PlainIsBlind | vm/method.cpp:79-92 | a runtime in which `apply` runs every method object meets what is asked of runtimes that leave variables alone |
| LexicalScoping.AnalysisIsLexical | vm/scope_tracker.cpp:180-305 | a name gets a place if and only if the names alone tell its variable, and the depth recorded is the number of scopes between, for every node of every program |
| LexicalScoping.UseMirrors | vm/scope_tracker.cpp:206-289 | one name looked up, assigned or bound: the nearest declared variable, a new one, or the global, on both sides |
| LexicalScoping.SameReading | vm/ast.cpp:93-1199 | the order in which the visitor meets the names of each kind of node is the order of reading: a value before the name it is assigned to, the variable of a `rescue` between body and type |
| ScopeTracker.FirstParameter | vm/scope_tracker.cpp:121-134 | each parameter gets the cell of its position, and of parameters with one name the first is found |
| Simulation.Sim | vm/ast.cpp:93-1199 | for every node, from the state before its bytes: the machine reaches the state after them with the node's value in register t, the evaluator's locals in the registers below, nothing else below t changed; or it raises, leaves, fails or runs on as the evaluator does |
| Simulation.SimHandler | vm/ast.cpp:921-982 | a handler, typed or not, reached with the exception in its register does what the evaluator's handler does, raising the exception again when its type does not match |
| Simulation.SimActivate | vm/vm.cpp:58-86 | a whole activation, from a fresh closure through captured arguments to the return, delivers the outcome of its scope to its callers |
| Emission.FitsIsExact | vm/ast.hpp:68-70 | pushing opcodes and operands into a buffer of one-byte instructions loses nothing if and only if every opcode and operand is below 256 |
| CodeGenerator.State.SetLabel | vm/ast.hpp:102-104 | the slot of the label receives the distance from behind it to the end of the buffer, and nothing else changes |
| CodeGenerator.State.SetLabelAbs | vm/ast.hpp:106-108 | the slot of the label receives the length of the buffer, and nothing else changes |
| CodeGenerator.State.Drive | vm/ast.cpp:93-1199 | pushing bytes and filling in labels later appends exactly the bytes, strings and code objects of the label-free form |
| CodeGenerator.State.Compile | vm/ast.cpp:1128-1146 | with captured arguments first and the final return last, the buffer is the code object of the scope |
| VirtualMachine.VM.ReadClosure | vm/closure.hpp:42-51 | the loop up the parents reads the slot of the closure so many steps up, nil beyond the outermost, and fails its check on a bad index |
| VirtualMachine.VM.WriteClosure | vm/closure.hpp:59-68 | the loop up the parents writes that slot and nothing else |
| VirtualMachine.VM.FindReturn | vm/method.cpp:34-42 | the loop of `return_to` finds the target closure, or nothing where its check fails |
| VirtualMachine.VM.CheckUnwind | vm/vm.cpp:154-184 | a result of a send goes to the register, to the innermost handler, to this activation as its return value, or on to the caller, as the machine delivers it |
| VirtualMachine.VM.Run | vm/vm.cpp:58-339 | the loop of `run`, calling itself for sends, takes exactly the steps of the machine and hands its callers what the machine delivers to them |
| HandlerStacks.HandlersMatchTries | vm/vm.cpp:275-283 | from the start of any method object that exists, in every state of the run, the handler stack of every activation is the list of try bodies around its instruction, innermost last |
| HandlerStacks.ReachedInstruction | vm/vm.cpp:281-283 | every byte reached as an instruction is one, and a reached `POPE` finds a handler to pop |
| HandlerStacks.ExceptionGoesToInnermostTry | vm/vm.cpp:154-184 | in every state of every run, an exception goes to the innermost try around the instruction, with the exception in its register and that try and all inside it popped; without one it leaves the activation |
| HandlerStacks.StepKeeps | vm/vm.cpp:88-336 | in any state the runtime invariant allows, each instruction keeps the handler stacks matched |
| RuntimeInvariant.StepOk | vm/vm.cpp:88-336 | each instruction keeps every value, closure and activation well-typed: parents older than children, activations in the closures their methods say, each closure as large as its scope has captured variables |
| RuntimeInvariant.StartOk | vm/vm.cpp:58-86 | the state that the start of any method object makes has all that |
| RuntimeInvariant.AlwaysOk | vm/vm.cpp:58-339 | that holds in every state of every run |
| RuntimeInvariant.MethodIn | vm/ast.cpp:1128-1146 | every method object that exists holds a code object of the program's files, nested in them as the trees are |
| RuntimeInvariant.PlainIsSane | vm/method.cpp:79-92 | a runtime in which `apply` runs every method object, with any number of arguments, meets what is asked of runtimes |
| NonLocalReturn.ReturnToFinds | vm/method.cpp:34-42 | `return_to` finds the first closure of the chain that a return may end, and fails its check if and only if there is none |
| NonLocalReturn.EndsOwner | vm/vm.cpp:163-170 | a non-local return passes every activation and handler above the target's and ends that one with its value |
| NonLocalReturn.LeavesOutermost | vm/vm.cpp:163-170 | if no activation has the target closure, the return leaves the outermost run |
| NonLocalReturn.BlockReturn | vm/ast.cpp:634-647 | in every state of every run, `return` in a block names the nearest method closure of the block's defining chain; the one activation that owns it ends and its caller gets the value; if it is gone the return leaves the outermost run |
| ScopeTracker.LookupMeansVariable | vm/scope_tracker.cpp:258-289 | a look-up and an assignment get the cell of the innermost variable of that name |
| ScopeTracker.RebindMeansVariable | vm/scope_tracker.cpp:206-256 | an operator assignment and a rescue get the cell of the variable their name means if and only if it is a variable of their own scope |
| ScopeTracker.NumberAllOk | vm/scope_tracker.cpp:147-171 | whatever the order of the walk, register locals get numbers after the arguments without gap or repetition, captured ones slots from 0 |
| ScopeTracker.LeaveOk | vm/scope_tracker.cpp:147-178 | closing a scope keeps the invariant: one cell per variable, no register or slot shared, and never a change of a recorded index |
| ScopeAnalysis.TrackOk | vm/scope_tracker.cpp:180-297 | the visit of any tree resolves each of its names, and what it resolved stays resolved whatever is visited later |
| ScopeAnalysis.AnalyseOk | vm/scope_tracker.cpp:299-305 | after the analysis of a program every name in every scope is resolved against exactly the scopes around it |
| ScopeAnalysis.PlaceNamesVariable | vm/local.hpp:84-114 | `reg_p`, `depth` and `idx` of a resolved name are the register, or the depth and slot, of the variable it means |
| ScopeAnalysis.VariablesApart | vm/scope_tracker.cpp:147-178 | two variables of one scope share neither a register nor a slot |
| TrackerVisitor.Tracker.VisitRebind | vm/scope_tracker.cpp:233-256 | the loop over the enclosing scopes that has no return changes the tables as its function form does |
| TrackerVisitor.Tracker.AfterScope | vm/scope_tracker.cpp:147-178 | the loop over a scope's table numbers its locals as the function form does |
| TrackerVisitor.Tracker.Visit | vm/scope_tracker.cpp:23-297 | the visitor, changing its tables and shared local objects in place, computes the analysis |
| RegisterAllocation.LocalsBelow | vm/scope_tracker.cpp:147-178 | arguments and register locals together number more than any of their registers |
| RegisterAllocation.BlockTemporariesClear | vm/ast.cpp:1133 | the temporaries of a block are clear of its locals if and only if an argument is captured only when no later argument and no other local stays in a register |
| ScopeFindings.BlockTemporariesCollide | vm/ast.cpp:1128-1146 | a block with parameter `x` and body `y = 1; { x }; y`: the analysis captures `x` and leaves `y` in register 1, the temporaries start there, and the machine gives back the block `{ x }` where by its names the block gives 1 |
| ScopeFindings.RebindMisses | vm/scope_tracker.cpp:233-256 | `x = 1; { x += 1 }`: the file's `x` moves to the closure, the operator assignment gets a register of the block, and running the block reads that register before it has a value |
| RegisterAllocation.AnalysedIsSound | vm/ast.cpp:1128-1146 | the code of every scope of an analysed program meets the conditions of compiler correctness |
| ClosureAddressing.EmitPool | vm/ast.cpp:1128-1146 | the code pool of a scope holds the code of scopes written in it and nothing else |
| ClosureAddressing.OwnerResolved | vm/vm.cpp:67-70 | every run-time closure belongs to a scope that was analysed inside exactly the scopes its parents belong to |
| ClosureAddressing.ChainIsNesting | vm/vm.cpp:221-222 | d steps up the parents from an activation stands the closure of the scope d levels out, and beyond all of them the globals |
| ClosureAddressing.NameHasSlot | vm/closure.hpp:42-68 | in a state the runtime invariant allows, the recorded depth and index of a captured name lead to an existing slot, that of the variable of that name or of the global |
| ProgramCorrectness.NamesReachTheirSlots | vm/closure.hpp:42-68 | in every state of every run of an analysed program, the recorded depth and index of a captured name lead to an existing slot, that of the variable of that name, and `LVAR` and `SVAR` read and write that slot only |
| LrDriver.HandleOnTop | tools/lempar.c:555-600 | a configuration in the top state has the elements before its dot on top of the stack, and starts in the state below them |
| LrDriver.ReduceOk | tools/lempar.c:555-628 | a reduction pops exactly its right-hand side, fails no assertion, and leaves a path of the automaton |
| LrDriver.DriverSound | tools/lempar.c:743-850 | for any tokens: no assertion fails, every stack is a path of the automaton whose trees yield the shifted tokens, and acceptance means a derivation from the start symbol |
| LrDriver.AcceptedIsSentence | tools/lempar.c:743-850 | an input accepted without a syntax error is, up to the token it is accepted on, a sentence of the grammar with the tree the parser built |
| LrDriver.TokenLeftOut | tools/lempar.c:829-848 | after a token without an action the next is worked off as it would have been in its place; at the end of the input the parser fails |
| LrDriver.StackHolds | tools/lempar.c:496-522 | the stack never holds more than its depth, and a shift fails if and only if it is full |
| LrParser.YyParser.Shift | tools/lempar.c:496-537 | the stack grows by the entry, or is emptied when full |
| LrParser.YyParser.Reduce | tools/lempar.c:555-628 | popping, the goto and the push change the stack as the function form says |
| LrParser.YyParser.Parse | tools/lempar.c:743-850 | the do-while loop, where it ends at all, makes the turns of the function form, and ends with the token used up or the parser stopped |
| FirstSets.FindFirstSets | tools/lemon.c:668-724 | both loops end; a symbol is marked if and only if it derives the empty string; a terminal is in the set of a nonterminal if and only if that derives a form beginning with it |
| FirstSets.FirstComplete | tools/lemon.c:699-723 | sets closed under the second loop hold every terminal a derivation can begin with |
| FirstSets.RuleBegins | tools/lemon.c:699-723 | an element after nullable ones contributes only terminals the left side can begin with |
| FollowSets.FindFollowSets | tools/lemon.c:938-968 | the loop ends with the least sets that hold the seeds and are closed under every link, although complete configurations are skipped |
| FollowSets.FollowLinks | tools/lemon.c:946-961 | following the links of one configuration marks exactly the changed targets for another turn |
| Lr0.Close | tools/lemon.c:1233-1275 | walking the list while it grows yields the least set that holds the basis and is closed, without duplicates |
| Lr0.SortedEqual | tools/lemon.c:4594-4606 | comparing sorted bases element by element finds equal exactly those with the same configurations |
| Lr0.Builder.GetState | tools/lemon.c:790-829 | the recursion ends; the state found or made has the given basis; new states are complete |
| Lr0.Builder.BuildShifts | tools/lemon.c:850-898 | the state shifts on every element after a dot, once each, to the state of the advanced configurations |
| Lr0.Builder.Build | tools/lemon.c:731-784 | all states are exact closures of their bases, closed under shifts, and no two have the same basis |
| Lr0.BuiltIsAutomaton | tools/lemon.c:850-898 | what the construction leaves is an LR(0) automaton: every configuration is justified by one that waits for it or by a transition |
| LrActions.FindRulePrecedence | tools/lemon.c:639-661 | the precedence symbol of a rule is the one given, else the first symbol of its right-hand side that has a precedence, members of a multi-terminal in their order; none if and only if none has one |
| LrActions.ActionsAreOk | tools/lemon.c:974-1013 | the actions added to a state are those its transitions, complete configurations and follow sets ask for, and all of them |
| LrActions.ResolveAll | tools/lemon.c:1014-1027 | the two nested loops resolve the list in place as the function form does |
| LrActions.ConflictsResolved | tools/lemon.c:1057-1118 | of the shifts and reductions on one symbol, however many and whatever their precedences, exactly one is left: the first of them, unless a later one beats it and none of those that follow beats that one |
| MergeSort.Merge | tools/lemon.c:1566-1602 | merging two lists front by front |
| MergeSort.MSort | tools/lemon.c:1618-1642 | the loop over the bins fills them as a binary counter does and gathers them |
| MergeSort.SortsBelowLimit | tools/lemon.c:1618-1642 | the result is sorted, and a permutation of the list if and only if the list is shorter than 2^30 |
| LrCompress.TokensKept | tools/lemon.c:974-1042 | after sorting and resolving, a token has an action if and only if it had one, and every action left was there |
| LrCompress.ShiftLeft | tools/lemon.c:1057-1118 | on a token with a shift, the shift is left if and only if every reduction lacks a precedence, or the token does, or the reduction's is lower, or equal and the token is not left-associative |
| LrCompress.RuleLeft | tools/lemon.c:1057-1118 | on a token without one, the lowest rule is left if and only if no other reduction has a higher precedence, both known |
| LrCompress.HighestRule | tools/lemon.c:1057-1118 | where token and rules have precedences, a reduction that is left has the highest of the reductions, and the lowest rule of those that have it |
| LrCompress.ListOrder | tools/lemon.c:376-392 | actions are sorted by symbol, kind and rule, the rest by address downwards |
| LrCompress.FindBest | tools/lemon.c:4053-4107 | the rule that becomes the default is the one most reductions of the state are by, of equally frequent ones the first in the list, never the start rule |
| LrCompress.CompressionKeepsActions | tools/lemon.c:4053-4107 | every action a token had it keeps; a token without one gets an error or a reduction the state makes on another token |
| LrCompress.CompressedPackable | tools/lemon.c:4053-4107 | the compressed list has one action for each symbol and none the automaton does not allow |
| ActionTable.ActTab.Action | tools/lemon.c:496-524 | the pending transaction grows by the pair, its bounds with it, and the table stays as it is |
| ActionTable.ActTab.FindDup | tools/lemon.c:554-578 | the scan downwards finds the last place where the table already holds the transaction |
| ActionTable.ActTab.FindHole | tools/lemon.c:579-606 | the scan upwards finds the first hole, or ends at the end of the search |
| ActionTable.ActTab.Insert | tools/lemon.c:529-622 | the place is the one the scans choose, the entries are written there; if a scan succeeds, every look-up of this and of every earlier transaction is right afterwards |
| ActionTable.FoundIsRight | tools/lemon.c:607-621 | at a duplicate or a hole, each transaction's offset finds a lookahead if and only if it was in that transaction, with its action |
| ActionTable.RoomMeansHole | tools/lemon.c:534-545 | with more slots than used slots and both bounds of the transaction together, the search succeeds |
| ActionTable.EndOfSearch | tools/lemon.c:579-606 | what happens when the search fails is right if and only if the least lookahead is not 0 and the offset is free |
| ActionTable.SixteenInserted | tools/lemon.c:529-622 | fifteen rows with one action on lookahead 1 and one on lookahead 5, inserted into the empty table, each at the place the scans choose |
| ActionTable.SearchCanFail | tools/lemon.c:529-622 | in any run of insertions that begins with those sixteen the last search fails, that row gets the offset of the fourteenth, and this one then finds an action it does not have |
| LrTables.WriteTables | tools/lemon.c:3683-3800 | the arrays are what comes of inserting the rows in their order, whether the searches succeed or not; `found` tells exactly whether all do, and then the arrays answer for every state and symbol as its action list says |
| LrTables.StateAnswers | tools/lempar.c:383-473 | the two find functions, reading the arrays, return the packed action or the default |
| LrTables.EmptySlots | tools/lemon.c:3738-3770 | what is written for an empty slot is the number of no symbol, and of no shift, reduction, error or acceptance |
| LrTables.NoOffsetIs | tools/lemon.c:3772-3800 | the number that means "no offset" is one below the least offset, 0 included |
| LrGenerator.GeneratedTablesOk | tools/lemon.c:3683-3800 | tables written from any valid grammar, if no search failed and no rule is longer than 255, are what the driver's soundness needs |
| LrLookahead.CloseTail | tools/lemon.c:1254-1269 | the loop over the elements after an awaited nonterminal collects exactly the terminals they can begin with, and tells whether they can all be empty |
| LrLookahead.ClosePlace | tools/lemon.c:1233-1275 | at one configuration, exactly the rules it waits for get seeds and a link |
| LrLookahead.BackLinks | tools/lemon.c:864-881 | a configuration is linked back to exactly those whose dot moves on to it |
| LrLookahead.FindLinks | tools/lemon.c:903-931 | every back link becomes a forward link, and no other is added |
| LrLookahead.Propagation | tools/lemon.c:731-931 | seeds and links are exactly those of the definition |
| LrLookahead.FollowSetsAreLookaheads | tools/lemon.c:938-968 | in the least solution a terminal is in the set of a configuration if and only if it is generated for some configuration and handed on from there |
| LrLookahead.FollowSetsOf | tools/lemon.c:668-968 | first sets, seeds, links and the fixed point together yield exactly the lookaheads |
| LrLookahead.StartBeforeEnd | tools/lemon.c:769-776 | a start rule has the end of the input as its only lookahead |
| LrAcceptance.GeneratedEndsAtEnd | tools/lemon.c:4053-4107 | the written tables reduce by a start rule only on the end of the input: none becomes a default |
| LrAcceptance.AcceptedAtEnd | tools/lempar.c:743-850 | whatever tokens are fed, the parser accepts only on the end of the input |
| LrAcceptance.GeneratedParserSound | tools/lempar.c:743-850 | the parser made from any valid grammar: what it accepts without a syntax error is a sentence of the grammar, then the end of the input, and nothing else; its tree derives that sentence |
| LrCompleteness.BuiltIsFull | tools/lemon.c:731-898 | in the states the construction leaves every dot can move on, and every awaited rule and every start rule is there |
| LrCompleteness.WrittenAnswers | tools/lempar.c:383-473 | where no action was given up for another, the written tables answer every shift, reduction and transition the automaton asks for |
| LrCompleteness.TreeMoves | tools/lempar.c:743-850 | from any stack whose top state waits for a symbol, reading what a tree of that symbol yields, before a token that can follow, puts exactly that tree on the stack |
| LrCompleteness.GeneratedParserComplete | tools/lempar.c:743-850 | the parser made from a grammar without conflicts accepts every sentence followed by the end of the input, and returns its derivation tree |
| LrCompleteness.GeneratedParserExact | tools/lempar.c:743-850 | such a parser accepts a list of tokens, at some depth of its stack, if and only if the grammar derives it |
| LrCompleteness.ConflictFreeIsUnambiguous | tools/lemon.c:974-1042 | a grammar without conflicts has one derivation tree for every sentence |
| LrTermination.LoopsForEver | tools/lempar.c:743-850 | the loop on a token never ends if and only if, while it runs, the states on the stack come to be what they were some turns before |
| LrTermination.HeightBound | tools/lempar.c:555-628 | where no symbol derives itself, a tree is no higher than its yield and the number of symbols allow |
| LrTermination.LoopEnds | tools/lempar.c:743-850 | then the loop ends on every token, whatever came before it, within a number of turns known from the grammar, the depth of the stack and the tokens before |
| LrTermination.EveryTokenEnds | tools/lempar.c:743-850 | so any input is worked off token by token, and more turns change nothing |
| LrTermination.GeneratedParserDecides | tools/lempar.c:743-850 | the parser made from a grammar without conflicts in which no symbol derives itself ends on every input; it accepts only sentences, and every sentence whose tree fits the stack, with that tree |
| LrOrder.OrderedOnce | tools/lemon.c:3536-3546 | the comparison tells all rows apart, so there is one order `qsort` can leave |
| LrOrder.PackOrderOk | tools/lemon.c:3683-3708 | the rows are packed in that order, each that has an action once |
| LrOrder.LargerRowsFirst | tools/lemon.c:3536-3546 | of two rows the one with more actions is packed first, of equal ones that of the later state, a state's nonterminals before its tokens |
| LrOrder.ResortOk | tools/lemon.c:4116-4166 | the states are put in the order of their numbers of actions, the first staying first |
| LrOrder.MoreTransitionsFirst | tools/lemon.c:4116-4130 | of two states but the first, the one with actions on more nonterminals comes first, then on more tokens, then that of the higher number |
| Lemon.Generate | tools/lemon.c:1456-1500 | the generator, from the grammar to the arrays: states, exact follow sets, resolved lists, both orders and the packed rows; `done` tells exactly whether every search of the action table succeeded, and then the arrays are what the theorems ask for |
| LrFindings.ChainRunOk | tools/lemon.c:1456-1500 | the grammar of sixteen letters and one has a run of the generator, with all its states and lists |
| LrFindings.ChainPackOrder | tools/lemon.c:3683-3708 | in the order of its rows fifteen on the first letter come first, then the one on the last letter |
| LrFindings.GeneratorSpoils | tools/lemon.c:529-622 | whatever arrays are written for it, a search failed, and in the state after fourteen letters the parser shifts the last letter, on which the state has no action |
| LrFindings.SpoiledTables | tools/lemon.c:3683-3800 | such arrays are written: packing the rows of that run ends so |
| LrRefinement.FeedAgrees | tools/lempar.c:743-850 | on input without errors, parsers whose tables agree up to the numbers of states go through the same stacks and have the same result |
| LrRefinement.WrittenTablesAgree | tools/lemon.c:4137-4166 | the written tables agree so with the resolved action lists: compression, renumbering and packing change no accepted run |
| ImmixBlock.MarkCovers | vm/util/immix.hpp:344-375 | exactly these lines are in use afterwards: those that were, those the object touches, the one it starts in, and for an object no larger than a line the next |
| ImmixBlock.MarkLineAssertion | vm/util/immix.hpp:278-281 | the assertion fails if and only if the object is empty and starts the last line |
| ImmixBlock.HeaderMarked | vm/gc.cpp:568-582 | the line of an object's header is marked with it if and only if the object does not start in the first 16 bytes of its line |
| ImmixBlock.StatusMeans | vm/util/immix.hpp:377-404 | the status is free if and only if the header line alone is used, unavailable if and only if all lines are |
| AllocationLaws.CountsMean | vm/util/immix.hpp:377-404 | the counts are those of the lines in use and of the runs of free lines |
| ImmixBlock.FindHole | vm/util/immix.hpp:835-856 | the hole is a whole run of free lines, the first from where the search starts; none if and only if no line is free |
| ImmixBlock.LineTable.Mark | vm/util/immix.hpp:344-375 | the loop over the line map marks exactly the lines the range asks for, or fails its assertion |
| ImmixBlock.LineTable.UpdateStats | vm/util/immix.hpp:377-404 | one pass counts used lines and runs of free lines and sets the status |
| ImmixBlock.LineTable.Search | vm/util/immix.hpp:835-856 | the two loops find that hole and stop behind it |
| ImmixHeap.GetBlockOk | vm/util/immix.hpp:685-713 | the search for a block ends with one that has a free line and was not handed out before; every block between has none; a chunk is added, one at most, only if no block left has one, and then the block is fresh |
| ImmixHeap.NewBlockOk | vm/util/immix.hpp:936-949 | the finder then stands in a hole of a block handed out now |
| ImmixHeap.AllocateOk | vm/util/immix.hpp:967-975 | for every size up to 254*128+1 allocation ends, adds one chunk at most, and returns a range of free lines ahead of everything returned since the last collection, and clear of all but the first byte of the line before a used one |
| ImmixHeap.NoLargerHole | vm/util/immix.hpp:967-975 | no hole fits a larger size |
| AllocationLaws.AllocateFirstFit | vm/util/immix.hpp:967-975 | allocation takes the cursor if there is room up to the limit, else the first run of free lines that is large enough, in the rest of the block and then block by block; every run passed over was too small, and a chunk is added only if all that are left are |
| ImmixHeap.Allocator.NextBlock | vm/util/immix.hpp:685-713 | the loop over blocks and chunks, moving the cursors, hands out that block |
| ImmixHeap.Allocator.AllocateBytes | vm/util/immix.hpp:967-975 | the loop over holes and blocks moves cursor and limit as the function form does |
| HeapSafety.NewMisses | vm/util/immix.hpp:967-975 | a new range overlaps no object that is known, nor the header of one |
| HeapSafety.CollectSafe | vm/gc.cpp:472-531 | a collection keeps the heap safe, with whole objects, headers included, apart: every reachable object's lines are marked when statistics and cursors are reset |
| AllocationLaws.CollectReclaims | vm/gc.cpp:472-531 | after a collection a line is in use if and only if it holds the block's header or a reached object keeps it; allocation goes on in the first free lines of the first block that has any |
| HeapSafety.RunsSafe | vm/gc.cpp:472-582 | every run of allocations, changes of references and collections keeps it safe |
| HeapSafety.AllocationsAreSafe | vm/gc.cpp:472-582 | after any run, no allocation overlaps an object reachable at the last collection or allocated since, header included, and no two of those overlap |
| HeapSafety.AddressesApart | vm/util/immix.hpp:519-535 | apart in the model means apart in memory, for blocks laid out without overlap |
| Marking.Collector.MarkObject | vm/gc.cpp:215-230 | an object met again is not pushed again; one met first is pushed and marked |
| Marking.Collector.ProcessStack | vm/util/immix.hpp:1115-1128 | the loop ends with an empty stack and everything reachable pushed |
| Marking.Collector.Collect | vm/gc.cpp:472-531 | over any number of collections: each reachable object is pushed exactly once and marked, no other is, and no known object enters the next collection with its mark |
| Words.RotlSwaps | vm/util/murmur_hash3.cpp:34-42 | a rotation swaps the upper and the lower part of a word |
| Words.RotlInjective | vm/util/murmur_hash3.cpp:34-42 | a rotation loses nothing |
| Words.FoldInjective | vm/util/murmur_hash3.cpp:68-90 | exclusive-or with itself shifted loses nothing, for any shift but 0 |
| Words.FmixInjective | vm/util/murmur_hash3.cpp:68-90 | the final mix maps different words to different words |
| Words.MixInjective | vm/util/murmur_hash3.cpp:277-281 | multiplying, rotating and multiplying a piece of the key loses nothing |
| Words.TailIsLittle | vm/util/murmur_hash3.cpp:289-314 | the switch that falls through from the last byte to the first builds the little-endian number of the tail |
| WordLiterals.RotlIs | vm/util/murmur_hash3.cpp:34-42 | a rotation by division: the remainder moves up, the quotient comes in below |
| WordLiterals.XorWords | vm/util/murmur_hash3.cpp:68-90 | exclusive-or of numbers is that of their words of 64 bits |
| Murmur64.RoundKeepsStates | vm/util/murmur_hash3.cpp:272-284 | one round maps different states to different states |
| Murmur64.RoundKeepsBlocks | vm/util/murmur_hash3.cpp:272-284 | one round maps different blocks to different states |
| Murmur64.TailKeepsBytes | vm/util/murmur_hash3.cpp:289-314 | different tails of one length lead to different states |
| Murmur64.FinalKeeps | vm/util/murmur_hash3.cpp:319-331 | the finalization maps different states to different results |
| Murmur64.Murmur | vm/util/murmur_hash3.cpp:255-332 | the loop over the blocks computes the hash of the function form |
| Murmur64.SingleBlockCollisionFree | vm/util/murmur_hash3.cpp:255-332 | for any seed, two keys of one length that differ at most inside one 16-byte block, or at most in the tail, have the same hash if and only if they are equal |
| Murmur64.SeedsApart | vm/util/murmur_hash3.cpp:255-332 | no key has the same hash under two seeds |
| KnownHashes.KnownAnswer64 | vm/util/murmur_hash3.cpp:255-332 | the 43 bytes of "The quick brown fox jumps over the lazy dog" with seed 0 hash to e34bbc7bbc071b6c and 7a433ca9c49a9347, and the empty key with seed 1 to 4610abe56eff5cb5 and 51622daa78f83583, as published |
| Murmur32.Murmur | vm/util/murmur_hash3.cpp:94-146 | the loop that counts up to 0 computes the hash of the function form |
| Murmur32.SingleBlockCollisionFree | vm/util/murmur_hash3.cpp:94-146 | for any seed, two keys of one length that differ at most inside one 4-byte block, or at most in the tail, have the same hash if and only if they are equal |
| KnownHashes.KnownAnswer32 | vm/util/murmur_hash3.cpp:94-146 | the same key with seed 0 hashes to 2e4ff723, and the empty key with seed 1 to 514e28b7, as published |

## Left out

The compiler and the virtual machine:

- Correctness.CompilerCorrect: says nothing of programs that read a local before assigning it; a register that was not
  written holds whatever an earlier call left in it.
- ProgramCorrectness.ProgramCorrect: the program is one file; several files compiled apart share only their globals.
- NameCorrectness.ProgramMeansNames: native methods do not look at captured variables, change them or make closures.
  It says nothing of calls with too few arguments: nothing checks the number of arguments of a block, so no condition
  on the tree could.
- Native methods, method look-up, exception creation and the rest of the object model are parameters of the model
  (`Env`); a native method may write any registers from its receiver up, but does not call back into byte code. A
  block that is run by `apply` or `|` is a call of its code; `eval`, which shifts the arguments, is not modelled.
- Keyword sends and indirect sends, casts, cascades, classes, traits, imports, dictionaries, instance variables and
  attribute loads: further node kinds and instructions of the same shapes.
- Optional arguments: the jump around the default is patched through the wrong buffer (vm/ast.cpp:456-466).
- `Compiler::optimize`: it removes bytes without moving jumps (vm/compiler.cpp:187-236).
- A scope whose parameters repeat a name; the stack limit; the safepoint of `JMPB`; traces and line tables.
- ScopeAnalysis.TrackOk: the name table of a scope is walked in an arbitrary order, which `std::map` over string
  pointers leaves open.

Lemon:

- The scanner, options, templates, reports, and the text of the written parser, except its tables.
- Error symbol, fallback and wildcard tokens; the stack that grows; destructors.
- Linked lists and the hash tables of configurations and states are sequences and linear searches; an insertion sort
  stands for `qsort`.
- LrCompleteness.GeneratedParserComplete: says nothing of grammars with conflicts, resolved by precedence or not: what
  such a parser accepts is not all that the grammar derives.
- LrTermination.LoopEnds: the condition is that no symbol derives itself; a grammar that does not meet it may have a
  parser that ends all the same, which `LoopsForEver` tells for each stack.
- LrDriver.AcceptedIsSentence: holds for any follow sets, and so does not say that the last token is the end of the
  input; `GeneratedParserSound` does.
- LrLookahead.Propagation: makes seeds and links in a walk over the finished states, where the program makes them while
  it builds the states.
- LrTables.WriteTables: a write beyond the action table is left out and reported as `overrun`.
- LrFindings.GeneratorSpoils: is about the states in the order they are made in; that `Builder` makes them in this order
  is not part of its contract.

The heap:

- Evacuation and moving of objects, large-object policy, the trigger of collections, debug output.
- Which roots there are, and the children of each kind of object: an arbitrary set of roots and arbitrary references
  among known objects stand for them.
- HeapSafety.AddressesApart: blocks are taken to lie apart in memory; the mapping of chunks is not modelled.

MurmurHash3:

- `MurmurHash3_x86_128`, which the system does not call; words that are not little-endian.
- Murmur64.Murmur: the fall-through switch over the tail is a function, not a sequence of statements.
