# Verification of the MixT transaction compiler

MixT compiles a small imperative language whose data lives on stores of different consistency. A
program is parsed, put into A-normal form, checked, given consistency labels by inference, and split
into one phase for each label. The phases run strongest first, possibly on different machines, and
replay each other through append-only logs. This project models those passes, the interpreter of
phases, and two independent pieces (the PonyQ message queue and the arena the parser hands its trees
over in), and proves that they do what they are for.

Labels are a total order, copied into the unit interval so that any finite number of them fits;
`FlowsTo(a, b)` is `a >= b`. Every pass is a function on one statement type, `Syntax.Stmt<L>`, over the
labels known at that point. `Semantics.Exec` says what an unsplit program means: histories of all
writes, the calls each remote store received, and the returned value. `PhaseRun.Run` says what a phase
does on logs with cursors, run to its end. A return ends a program at once (`Returns.ExecStops`) and in
the phases ends the one it is in (`PhaseRun.RunStops`); the main theorems are about these. The classes
in `Environments` and `Runtime` are the objects the interpreter works on. Running is bounded by fuel; every theorem is about all fuels.

## How the parts fit

| file | part |
|---|---|
| Labels, Syntax, Semantics, Operators | labels, statements, the meaning of a program |
| Flatten, FlattenCorrect, DesugarCorrect | desugaring of loops, A-normal form |
| Symbolic, Typecheck, TypecheckCorrect | labels still to be inferred, the checker |
| Solver, SolverLists, Inference, InferenceCorrect, InferencePaths | constraints and their solution in rounds |
| Compile, EndToEnd | the front end, from a parsed program to its phases |
| NameLoops, Returns | naming of loop counters, the place of a return |
| Complete, OwnNames | what the front end finds, and when its ids and names are distinct |
| Flows, WellLabelled | what the front end accepts, and what splitting asks beyond it |
| SplitPhase, PhaseRun, Replay, SplitCorrect, Phases, Splitter, SplitterExact, Branches | splitting and replay |
| Noninterference | weaker data never reaches stronger phases |
| Frame, Prune, PruneClean, Recollapse, RecollapseFlat, RecollapsePruned | clean-up of a phase |
| Shipping, Distributed | phases on different stores |
| PhaseReturning, PiecesReturning | where returns stand in a phase and in what is shipped of it |
| Stopping, StoppingCompiled | what may follow a return |
| Environments, Runtime | holders, the phase interpreter, retries and commit |
| Samples, PieceSamples | what the examples share |
| Necessity, LoopNecessity, NestedLoops, CallContext, NameReuse, SharedNames, EarlyReturn | compiled programs that show which conditions on one store are needed |
| ShippingNeeds, SharedCounter, IdleNeeds | the same for phases on different stores |
| SharedPlaces | a program refused because two ids coincide |
| Endorse | the worklist that spreads an endorsement |
| Pony, PonyHead | the queue, step by step, and as an object; what its consumer sees |
| Arena | trees in slots |

The main theorems are `Distributed.CompiledAndDistributed` (a parsed program and its pruned, recollapsed
phases, each run where it belongs, make the same calls and return the same value),
`EndToEnd.CompilingPreservesMeaning` and `Phases.SplittingPreservesMeaning` (the phases leave every
variable's log equal to its history), `Branches.BranchesPreserveMeaning` (which asks what splitting asks
of each choice of branches by itself), `Stopping.StoppingPreservesMeaning` (which lets statements of the
returning phase follow a return), `InferenceCorrect.InferenceIsGreatest`,
`InferenceCorrect.InferenceFailsIff` and `InferencePaths.InferenceIsWeakestFlow`,
`Complete.AcceptedIffLabelled`, `Noninterference.Noninterferes`, `Splitter.SplitterNeverTrips`,
`Recollapse.RecollapsePreservesPhase`, `Endorse.PreEndorseIsLeast`, `Pony.Fifo` and `Pony.NothingLost`.

## What the code does not promise

The proofs need conditions the compiler does not check. Each is stated as a predicate on the program,
and a concrete program shows that it is needed. These are parsed programs, and each that goes wrong is
shown to compile (`Complete.CompilesTo`) to the labelled program whose phases do so.

- A variable that is bound by a stronger phase and assigned by a weaker one must be bound once in a run
  (`WellLabelled.LateOnce`), or an object is sent the wrong value: `Necessity.LateOnceIsNeeded`.
- A name must not be bound at two labels in one run (`Flows.Described`). The compiler accepts such
  programs, even in blocks side by side; a phase moves the cursor for the foreign binding and then fails
  at its own, and if pruning spares it that, another phase reads the one value for the other:
  `NameReuse.OneLabelPerNameIsNeeded`. Where one binding lies in the scope of the other, strong data
  comes to depend on weak data: `NameReuse.OneSidePerNameIsNeeded`. The splitter's assertions do not
  catch either: `Splitter.SplitterNeverTrips` holds all the same.
- This includes names the compiler generates. It numbers operations by place, and operations in an
  else-branch and in the conditional behind it can get one name: `SharedNames.OwnNamesAreNeeded` is a
  program that uses no name twice, returns the one value, and whose phases return another. Bindings get
  ids for their labels in the same way, and a program that can be labelled is refused because two ids
  coincide: `SharedPlaces.OwnIdsAreNeeded`. `OwnNames.Stepwise` is a condition on the flattened program
  under which neither happens: `OwnNames.StepwiseIsOwn`, `OwnNames.AcceptedIff`.
- A loop replayed by count must not run inside another loop, because only its last count is kept:
  `NestedLoops.UnnestedLoopsAreNeeded`. Loops of the weakest label are never replayed and may.
- Loop counters that are replayed must have different names. The naming pass can give the same name to
  a loop inside a branch and to one after it: `LoopNecessity.DistinctNamesAreNeeded`. `NameLoops.Tidy` is
  a condition on the parsed program under which neither happens: `EndToEnd.TidyCompiles`.
- A loop name must stand for loops of one label, if phases run remotely. Two branches of a conditional
  get the same names; on one store only the branch that runs matters (`Branches.BranchesPreserveMeaning`),
  but a remote phase that counts the one loop is not sent the count of the other:
  `SharedCounter.OneLabelPerLoopIsNeeded`.
- A remote call must stand in a context that may influence its object. The constraint collector relates
  the handle and the arguments to the object, but not the context. The compiler accepts a program whose
  phases then reorder the calls of an object (`CallContext.PermittedCallsAreNeeded`) and whose strong
  store gives away what a weak one answered (`CallContext.ContextsMatterToNoninterference`).
- What a phase that runs remotely assigns and later phases need must also be bound in it, or it is not
  sent back: `ShippingNeeds.ShipsBackIsNeeded`; `Shipping.UnboundWritesAreLost` says when that goes wrong.
- Nothing of another phase must follow a return. The compiler checks that nothing at all does
  (`Returns.ReturnsLast`), but on the flattened program, where the return of anything but a variable stands
  in a block of its own, and a return in a block that is followed by statements passes
  (`Returns.AcceptedIff`). So every `return e` passes unless `e` is a variable, whatever follows it, and
  stronger phases run what follows: `EarlyReturn.LastReturnsAreNeeded`. What follows a return and belongs
  to the phase that returns does no harm, because that phase stops there:
  `Stopping.StoppingPreservesMeaning`. `Returns.AcceptedReturnsLast` and `EndToEnd.CheckedReturns` say
  exactly when the check is enough.
- Pruning removes empty conditionals before it drops the last cursor moves, so it can leave a conditional
  with two empty branches: `IdleNeeds.EmptyConditionalStays`. `PruneClean.PruneCleansIff` says exactly when
  it leaves none.
- A variable that only nested empty conditionals look at stays in a phase's requirements:
  `IdleNeeds.NestedConditionStaysRequired`. This costs a transfer, not correctness.
- The endorsement worklist drops each item before its round. That is sound only because it starts with
  two markers: `Endorse.TwoMarksAreNeeded`.
- In a debug build the destructor of a queue that nothing was ever pushed to fails its assertion that the
  sentinel is not marked as released: `Pony.DestructorAsserts`.

## Model

| member | source | states |
|---|---|---|
| Phases.SplittingPreservesMeaning | transactions/mtl/split_phase.hpp:471-505 | for every well-labelled program (one label and one binding phase for each name, calls in contexts that may influence their objects, late variables bound once, replayed counters not reused) in which nothing follows a return, and every terminating run of it up to its return, the phases, strongest first and each up to a return in it, terminate too and leave each log equal to the variable's write history, each remote store with the same calls in the same order, and the same result |
| Phases.SplittingRuns | transactions/mtl/split_phase.hpp:471-505 | the same without the condition on returns, for program and phases that run past them |
| Stopping.StoppingPreservesMeaning | transactions/mtl/split_phase.hpp:471-505 | splitting preserves meaning also where statements follow a return, with program and phases each stopping at it, if those statements belong to the phase that returns and the return is always reached before them |
| StoppingCompiled.CompiledStoppingPreservesMeaning | transactions/mtl/transaction.hpp:125-165 | the same from the parsed program on |
| Stopping.CutStops | transactions/mtl/run_phase.hpp:229-235 | a return ends a program: whatever stands behind a statement that always returns can be left out and no outcome changes |
| Stopping.PhaseCutStops | transactions/mtl/run_phase.hpp:428-452 | a return ends its phase, for any phase and any store: what stands behind it is neither run nor seen |
| Branches.BranchesPreserveMeaning | transactions/mtl/split_phase.hpp:471-505 | splitting preserves meaning if every choice of branches outside loops, taken by itself, has one label and one binding phase for each name, binds late variables once and reuses no replayed counter; branches that exclude each other may use the same names and counters at different labels |
| Branches.CompiledBranchesPreserveMeaning | transactions/mtl/transaction.hpp:125-165 | the same from the parsed program on |
| Branches.SameBranches | transactions/mtl/split_phase.hpp:380-403 | a phase that replays a run does the same whether or not the branches the run did not take are there |
| Branches.ChosenIsOrderly | transactions/mtl/split_phase.hpp:471-505 | what meets the conditions as a whole meets them in every choice of branches, so this asks no more |
| PhaseReturning.StopsIsRun | transactions/mtl/run_phase.hpp:229-235 | a phase in which nothing follows a return does the same whether a return ends it or not |
| PhaseReturning.ProjectAtEnd | transactions/mtl/split_phase.hpp:281-286 | the phases of a program in which nothing follows a return are such phases |
| PhaseReturning.PhasesStopIsRun | transactions/mtl/run_phase.hpp:428-452 | and only the weakest phase returns, so ending phases at returns changes nothing over all phases |
| Phases.PhasesFrom | transactions/mtl/interp.hpp:38-48 | from any point between two phases the remaining phases finish the run |
| Phases.PhaseEnds | transactions/mtl/environments.hpp:205-237 | the store one phase leaves is the one the next phase expects: everything stronger complete, nothing else begun |
| SplitCorrect.Simulates | transactions/mtl/split_phase.hpp:113-141 | replay invariant: at every point of a phase each readable variable's cursor stands at the last write the source has made so far, and one statement of the source keeps it so |
| SplitCorrect.SimulatesAssign | transactions/mtl/split_phase.hpp:243-263 | an assignment pushes in its own phase, moves a cursor in weaker ones and vanishes in stronger ones, and each keeps the replay invariant |
| SplitCorrect.SimulatesIf | transactions/mtl/split_phase.hpp:380-403 | every phase a condition may influence takes the branch the source takes; others may skip both |
| SplitCorrect.SimulatesForEach | transactions/mtl/split_phase.hpp:314-345 | a counted loop repeats the body as often as the stronger phase's loop went round, with the replay invariant kept in every round |
| SplitCorrect.SimulatesLet | transactions/mtl/run_phase.hpp:132-149 | a binding lands at the end of its log, or replays the entry an earlier phase left |
| Replay.ReadAgrees | transactions/mtl/environments.hpp:184-237 | under the replay invariant a read through the cursor returns the value the source reads at that point |
| Replay.OwnWrite | transactions/mtl/environments.hpp:205-223 | a push at the end of a log keeps log and history equal |
| Replay.StrongerWrite | transactions/mtl/run_phase.hpp:295-299 | moving a cursor over an entry of an earlier phase keeps the replay invariant |
| Replay.Vanish | transactions/mtl/split_phase.hpp:127-141 | what only weaker phases do is invisible to a stronger one |
| WellLabelled.Confined | transactions/mtl/label_inference.hpp:135-267 | a statement in a context of some label writes only variables, stores and counters no stronger than the context, and histories only grow |
| Splitter.SplitterNeverTrips | transactions/mtl/split_phase.hpp:54-84 | on every lexically scoped program that meets its constraints, whatever names it binds again at other labels and wherever its calls stand, no phase trips the splitter's assertions on variable labels, presence of bindings, binding labels and loop counters |
| EndToEnd.AcceptedNeverTrips | transactions/mtl/split_phase.hpp:54-84 | in particular on everything the passes before splitting accept |
| SplitterExact.AcceptsExactly | transactions/mtl/split_phase.hpp:54-84 | the splitter accepts a phase exactly if what the phase refers to may influence it and is bound in it or inherited, what it binds it may influence, and the loops it repeats were counted before |
| Splitter.ProvidesIs | transactions/mtl/split_phase_impl_utils.hpp:60-76 | a phase provides exactly the variables bound by statements of its label and the counters of its own loops, also where a name is bound at several labels |
| Noninterference.Noninterferes | transactions/mtl/label_inference.hpp:138-261 | of a lexically scoped program that meets its constraints, two terminating runs that start alike on everything at least as strong as a label end alike on it (histories, counters, remote calls), if no name is bound on both sides of the label and calls on objects at least that strong stand in contexts at least that strong, which the collector does not ask for |
| Noninterference.WellLabelledNoninterferes | transactions/mtl/label_inference.hpp:138-261 | where every call stands in a context that may influence its object and every name has one label, this holds at every label |
| EndToEnd.AcceptedNoninterferes | transactions/mtl/transaction.hpp:125-143 | the same of what the compiler makes of an accepted program, at a given label |
| TypecheckCorrect.CheckFlows | transactions/mtl/typecheck_and_label_impl.hpp:89-212 | a checked program under any labelling that meets its collected constraints is lexically scoped, every statement carries the label its context, its operands and its targets determine, and everything flows where it may; nothing is asked of names bound twice or of the places of calls |
| TypecheckCorrect.CheckCallFlows | transactions/mtl/typecheck_handle_operations.hpp:8-26 | the handle and the arguments of a call flow to its object, and it executes at the weakest of their labels, the object's and the context's |
| Flows.FlowsIsOk | transactions/mtl/label_inference.hpp:213-221 | such a program is well labelled if one signature describes its names and its calls stand in contexts that may influence their objects |
| Flows.OkIsFlows | transactions/mtl/label_inference.hpp:213-221 | and a well-labelled program is described and its calls are so placed: well labelled means no more than that |
| Flows.PermittedEverywhere | transactions/mtl/label_inference.hpp:213-221 | calls that are permitted from every label on are permitted |
| Compile.FrontEndFlows | transactions/mtl/transaction.hpp:125-143 | whatever checking and inference accept is lexically scoped and labelled as its flows demand, with no further condition |
| Compile.FrontEndIsWellLabelled | transactions/mtl/transaction.hpp:125-143 | it is well labelled if, beyond what is checked, one signature describes it and its calls stand in contexts that may influence their objects |
| Compile.CheckedProgram | transactions/mtl/collect_proper_label.hpp:358-374 | a checked program is what inference expects: reduced labels, no minimum with bottom inside, every unknown label bound somewhere, and no constraint with a minimum as its target |

| Symbolic.ResolvedMinValue | transactions/mtl/top.hpp:54-191 | resolving a minimum early, and letting bottom absorb, does not change its value under any labelling |
| Symbolic.ReplaceInValue | transactions/mtl/replace_label.hpp:14-153 | replacing an unknown label by its value, inside minima too, does not change values |
| InferenceCorrect.InferenceIsGreatest | transactions/mtl/label_inference.hpp:474-496 | on success no unknown label remains, every constraint collected from the original program holds, those whose target minimum was replaced included, and the labelling is the greatest that meets the collapsed constraints; without minimum targets it is the greatest that meets the collected ones |
| InferenceCorrect.InferenceFailsIff | transactions/mtl/label_inference.hpp:448-496 | inference fails exactly if a target minimum has no known part or no labelling meets the collapsed constraints; without minimum targets exactly if no labelling meets the collected ones |
| InferencePaths.InferenceIsWeakestFlow | transactions/mtl/label_inference.hpp:385-496 | the label decided for a binding is the weakest of the known labels from which a chain of constraints leads to it |
| InferenceCorrect.CollapseMeans | transactions/mtl/label_inference.hpp:285-351 | collapsed constraints imply the collected ones, also where a minimum as target is replaced by its known part, and are implied by them where no target is a minimum |
| InferenceCorrect.CollapseIs | transactions/mtl/label_inference.hpp:285-351 | collapsing gives exactly one constraint for each part of each source; a minimum as target is replaced by the weakest known label inside it |
| InferenceCorrect.MinimumTargetsAskForMore | transactions/mtl/label_inference.hpp:308-346 | where a target is a minimum they may ask for more: constraints that a labelling meets and whose collapsed form none meets |
| InferenceCorrect.CollapseFails | transactions/mtl/label_inference.hpp:308-346 | collapsing succeeds exactly if every minimum in a target, an inner one too, has a known part |
| InferenceCorrect.HelperInstantiates | transactions/mtl/replace_label.hpp:14-153 | rewriting the program round by round gives the program with every label evaluated under the solution |
| InferenceCorrect.InferredIsKnown | transactions/mtl/label_inference.hpp:474-496 | no unknown label remains after the last round |
| Solver.RoundKeeps | transactions/mtl/label_inference.hpp:406-465 | one round, substituting in the rest of the list only and sorting again as it goes, loses no constraint |
| Solver.RoundGreatest | transactions/mtl/label_inference.hpp:406-465 | what a round replaces can have no greater label in any labelling that meets the constraints, and a round fails only if there is none |
| Solver.RoundsSound | transactions/mtl/label_inference.hpp:385-465 | the labels decided in all rounds together meet all given constraints |
| Solver.RoundsGreatest | transactions/mtl/label_inference.hpp:385-465 | no labelling that meets the constraints exceeds what the rounds decide |
| Solver.SortKnownFirst | transactions/mtl/label_inference.hpp:13-61 | the comparator is no order among known sources, but sorting puts constraints with known sources before all others |
| SolverLists.MinimizeKeepsLast | transactions/mtl/label_inference.hpp:353-375 | a minimized list holds each constraint that is not trivial once, where it occurred last, in the same order |
| Flatten.FlattenIsAnf | transactions/mtl/flatten_expressions.hpp:227-447 | flattening ends within the depth limit if the number of unnamed subexpressions allows it, and leaves true A-normal form |
| Flatten.FlattenCapturesNothing | transactions/mtl/flatten_expressions.hpp:20-21 | no generated name is bound where it is already in scope |
| Flatten.RemoveLayerShrinks | transactions/mtl/flatten_expressions.hpp:24-222 | each step names exactly one operation and leaves one fewer |
| FlattenCorrect.FlattenMeans | transactions/mtl/flatten_expressions.hpp:227-547 | flattening preserves every outcome on any fuel: final histories, remote calls, result, faults and running out |
| FlattenCorrect.RemoveLayerValue | transactions/mtl/flatten_expressions.hpp:24-222 | an expression with a subexpression named has the value it had |
| Operators.OperandsDecide | transactions/mtl/run_phase.hpp:50-122 | an operation has a value exactly if both operands have one and it is no division by zero, and then it depends on their values, in order, and on nothing else |
| Operators.AddLaws | transactions/mtl/run_phase.hpp:50-56 | adding zero changes nothing, adding one more gives one more |
| Operators.SubLaw | transactions/mtl/run_phase.hpp:58-64 | subtraction undoes addition |
| Operators.MulLaws | transactions/mtl/run_phase.hpp:66-72 | multiplication distributes over addition on both sides, with unit one |
| Operators.DivLaw | transactions/mtl/run_phase.hpp:74-80 | division by anything but zero gives the quotient whose remainder is smaller than the divisor and zero or of the dividend's sign |
| Operators.ComparisonLaws | transactions/mtl/run_phase.hpp:82-122 | comparisons give the boolean constants; exactly one of `<`, `=` and `>` holds, `>` is `<` the other way round, and `<` holds exactly if the difference is negative |
| Operators.JunctionLaws | transactions/mtl/run_phase.hpp:90-104 | `&` and `|` have their truth tables, with any value but zero for true |
| Operators.CallSends | transactions/mtl/run_phase.hpp:169-181 | a call sends its name, its handle's value and its arguments' values in order, exactly if all of them have one |
| Operators.SendAppends | transactions/mtl/run_phase.hpp:169-181 | a call arrives behind all earlier ones at its object's store and nowhere else, and its answer may depend on all of them |
| Operators.ConditionLaws | transactions/mtl/run_phase.hpp:343-353 | a condition is true exactly where `&` takes it for true, and comparing it with zero swaps the branches |
| Operators.LoopLaws | transactions/mtl/run_phase.hpp:355-369 | the same of the condition of a loop; a loop whose condition is false at once only sets its counter to zero |
| Operators.AssignmentLaw | transactions/mtl/run_phase.hpp:220-227 | what is assigned is what is read from then on; other variables, calls, counters and the result stay |
| Operators.BindingLaw | transactions/mtl/run_phase.hpp:132-149 | binding a variable is assigning to it in front of the body |
| Operators.CallLaw | transactions/mtl/run_phase.hpp:205-218 | a call whose answer is bound sends what one whose answer is dropped sends, and what is then read is the answer of the object's store to all calls it received |
| Operators.ReturnLaw | transactions/mtl/run_phase.hpp:229-235 | a return gives its expression's value and changes nothing else |
| DesugarCorrect.DesugarDoes | transactions/mtl/flatten_expressions.hpp:600-649 | a loop that tests a flag and evaluates its condition in its body does what the loop does, on one more unit of fuel |
| DesugarCorrect.DesugarTimeout | transactions/mtl/flatten_expressions.hpp:600-649 | it does not end where the loop does not |
| DesugarCorrect.FlatteningPreservesMeaning | transactions/mtl/flatten_expressions.hpp:650-671 | both passes together preserve termination, faults, the histories of the program's own variables, its calls and its result |
| DesugarCorrect.FlatteningIsAnf | transactions/mtl/flatten_expressions.hpp:650-671 | within the depth limit the result of both passes is in A-normal form, and no name is captured |
| NameLoops.TidyNamesOnce | transactions/mtl/name_while.hpp:47-84 | in a program without nested loops, in whose lists only the last statement that holds a loop holds it in a list of its own, no run reuses a counter |
| NameLoops.NamedNestedDiffer | transactions/mtl/name_while.hpp:47-52 | in any program, no loop gets the counter of a loop inside it |
| NameLoops.CheckNamed | transactions/mtl/name_while.hpp:28-96 | naming loops commutes with checking |
| Returns.AcceptedReturnsLast | transactions/mtl/name_while.hpp:40-84 | the check of return positions puts every return last exactly if no block with a return is followed by statements |
| Returns.AcceptedIff | transactions/mtl/name_while.hpp:40-84 | the check accepts a program exactly if no branch and no loop holds a return and no return is directly followed by statements of its list |
| Returns.StopsIsExec | transactions/mtl/run_phase.hpp:229-235 | where nothing follows a return, ending the program there and then makes no difference |
| Returns.ReturnIsReached | transactions/mtl/run_phase.hpp:440-452 | a program that passes the check and has a return reaches it in every run that ends, so the last phase never ends without a value |
| EndToEnd.CompiledReturns | transactions/mtl/transaction.hpp:125-143 | compiling keeps returns last, and puts none last that was not |
| EndToEnd.CheckedReturns | transactions/mtl/name_while.hpp:62-84 | of a program whose compiled form passes the check, nothing follows a return exactly if in the compiled form no block with a return is followed by statements |
| EarlyReturn.LastReturnsAreNeeded | transactions/mtl/name_while.hpp:62-84 | `return 1; strong.put()`: its compiled form passes the check, the program returns and sends nothing, and its strong phase sends `put` |
| EndToEnd.CompilingPreservesMeaning | transactions/mtl/transaction.hpp:125-165 | from a parsed program in which nothing follows a return through flattening, checking, inference, naming and splitting, where the compiled program meets what splitting asks: if it terminates, so do its phases, each up to a return in it, with the histories of its variables as their logs, the same calls and the same result |
| EndToEnd.CompiledFlows | transactions/mtl/split_phase.hpp:507-514 | whatever the passes before splitting accept is lexically scoped and labelled as its flows demand, and is the flattened program with labels and loop names |
| EndToEnd.CompiledIs | transactions/mtl/split_phase.hpp:507-514 | under the conditions on names, calls and counters it meets what splitting asks |
| EndToEnd.TidyCompiles | transactions/mtl/name_while.hpp:47-84 | a tidy parsed program is compiled to one whose counters no run reuses |
| Necessity.LateOnceIsNeeded | transactions/mtl/environments.hpp:205-223 | a compiled program that binds a variable twice in a strong phase and assigns it in a weak one: the assignment lands behind both bindings, the phase reads the second of them instead, and an object is sent 5 instead of 1 |
| NestedLoops.UnnestedLoopsAreNeeded | transactions/mtl/run_phase.hpp:355-380 | a compiled program with a loop inside a loop: only the last count is kept, and the weaker phase makes one call instead of two |
| LoopNecessity.DistinctNamesAreNeeded | transactions/mtl/name_while.hpp:47-84 | a compiled program with a loop in a branch and one after it, which get the same counter: the weaker phase makes one call instead of two |
| CallContext.PermittedCallsAreNeeded | transactions/mtl/label_inference.hpp:213-221 | the compiler accepts a program with a call in too weak a context, and its phases send an object's calls in another order than the program |
| CallContext.ContextsMatterToNoninterference | transactions/mtl/label_inference.hpp:213-221 | two runs of that program that start alike at the strongest label and end with different calls in the strong store |
| NameReuse.OneLabelPerNameIsNeeded | transactions/mtl/split_phase.hpp:127-141 | a compiled program that binds a name weakly in one block and strongly in the next: it sends 5, its strong phase fails, and its pruned phases send 1 |
| NameReuse.OneSidePerNameIsNeeded | transactions/mtl/label_inference.hpp:138-142 | a compiled program that binds a name weakly inside the scope of a strong binding of it, and two runs that start alike at the strongest label and differ there in the end |
| SharedNames.OwnNamesAreNeeded | transactions/mtl/flatten_expressions.hpp:20-21 | a parsed program that binds no name twice and in whose flattened form a weak sum and a strong product get one name: it returns 1, its strong phase fails, and its pruned and recollapsed phases return 3 |
| SharedPlaces.OwnIdsAreNeeded | transactions/mtl/typecheck_and_label_impl.hpp:89-98 | a program that can be labelled and is refused, because a weak and a strong binding get one id |
| OwnNames.StepwiseIsOwn | transactions/mtl/flatten_expressions.hpp:20-21 | if, wherever something is bound in an else-branch or further on in a list, what comes before it binds only along one line, then no generated name is bound twice and every binding has an id of its own |
| OwnNames.AcceptedIff | transactions/mtl/label_inference.hpp:474-496 | such a program is accepted exactly if its flattened form can be labelled so that it meets its flows |
| Complete.AcceptedIffLabelled | transactions/mtl/transaction.hpp:125-143 | where every binding has an id of its own, the front end accepts exactly the programs that can be labelled so that they meet their flows, and gives them the strongest such labels |
| Complete.FlowsCheck | transactions/mtl/typecheck_and_label_impl.hpp:89-212 | a program whose labels meet its flows is checked, and its labels are those the checked program has under some labelling that meets the collected constraints |
| Complete.LabelledIsAccepted | transactions/mtl/transaction.hpp:125-143 | a program that can be labelled, bindings with one id alike, is accepted, with labels at least as strong |
| Complete.StrongestIsGiven | transactions/mtl/label_inference.hpp:474-496 | a labelling that no other exceeds anywhere is the one the front end gives |
| Frame.DropRuns | transactions/mtl/remove_unused.hpp:57-103 | a phase runs the same without the cursor moves of variables whose position it does not look at |
| Frame.RunAgrees | transactions/mtl/run_phase.hpp:132-400 | a phase does not see what it does not mention |
| Prune.PruningPreservesPhase | transactions/mtl/split_phase.hpp:485-505 | dropping unneeded moves, removing empty conditionals, opening up sequences and dropping moves again changes no log, counter, call or result |
| Prune.PruneMentions | transactions/mtl/split_phase.hpp:492-502 | after pruning every variable a phase mentions is required by it or bound in it, and it binds and writes what it did |
| Prune.ClearRuns | transactions/mtl/remove_empties.hpp:281-341 | removing conditionals with two empty branches changes no outcome that is not a fault |
| Prune.CollapseRuns | transactions/mtl/AST_split.hpp:792-926 | opening up nested sequences and dropping empty ones changes no outcome |
| PruneClean.ClearCleans | transactions/mtl/remove_empties.hpp:281-341 | clearing leaves no conditional with two empty branches at any depth, no nested sequence and no empty statement in a sequence |
| PruneClean.PruneCleansIff | transactions/mtl/split_phase.hpp:489-502 | a pruned phase has no such conditional exactly if no conditional that stays holds nothing but moves of variables that only removed conditionals looked at |
| PruneClean.PruneNeeds | transactions/mtl/split_phase.hpp:489-502 | a variable a pruned phase requires is used by it or was looked at inside a removed conditional; one it does not use is required exactly if no outermost removed conditional looked at it |
| IdleNeeds.NestedConditionStaysRequired | transactions/mtl/remove_empties.hpp:281-300 | a compiled program whose last phase, pruned, still requires and replays a variable that only an inner empty conditional looked at |
| IdleNeeds.EmptyConditionalStays | transactions/mtl/split_phase.hpp:489-502 | a compiled program whose last phase, pruned, still holds a conditional with two empty branches |
| Recollapse.RecollapsePreservesPhase | transactions/mtl/recollapse.hpp:157-181 | putting the expressions of a phase's own names back where they are used preserves its outcome, but for those names, if each is used only while its expression keeps its value |
| Recollapse.RecollapseRuns | transactions/mtl/recollapse.hpp:81-280 | the same at every point of a run, with substitutions pending |
| RecollapseFlat.ProjectSafe | transactions/mtl/recollapse.hpp:281-297 | flattened code meets that condition in every phase, for the generated names the phase binds |
| RecollapseFlat.FlattenInFront | transactions/mtl/flatten_expressions.hpp:436-547 | flattening binds each generated name right in front of the one statement that uses it |
| RecollapseFlat.RecollapseUndoesFlattening | transactions/mtl/recollapse.hpp:90-102 | substituting all generated names back into a flattened program gives exactly the program before flattening |
| RecollapseFlat.RecollapseUndoesBoth | transactions/mtl/recollapse.hpp:90-102 | and for a program without loops exactly the parsed one |
| RecollapsePruned.PruneSafe | transactions/mtl/transaction.hpp:154-161 | a phase that may be recollapsed may be after pruning |
| Shipping.ShippingSuffices | transactions/mtl/runnable_transaction.hpp:392-407 | phases that get only their requirements and give back only what they provide make the same calls and return the same as on one store, if what a remote phase writes for later ones is bound in it |
| Shipping.StepServes | transactions/server/transaction_listener.hpp:79-98 | after each phase the client's store has what the remaining phases need |
| Shipping.UnboundWritesAreLost | transactions/mtl/runnable_transaction.hpp:392-407 | of a variable needed later and not bound by a remote phase the client's log is right exactly if the run did not write it, so certainly if the phase has no write of it |
| Shipping.UnneededStays | transactions/mtl/runnable_transaction.hpp:392-407 | a log or counter that neither a remote phase nor a later one needs is at the client afterwards what it was before |
| Shipping.SentCount | transactions/mtl/runnable_transaction.hpp:392-407 | exactly the counters a phase requires and does not provide are sent, with their values |
| Shipping.SentAt | transactions/mtl/runnable_transaction.hpp:392-407 | a remote phase starts with the logs it requires and does not provide, and with no other |
| ShippingNeeds.ShipsBackIsNeeded | transactions/mtl/runnable_transaction.hpp:392-407 | a compiled program that meets every condition for splitting: its three phases return its value on one store, and the last one fails when the middle one runs remotely |
| SharedCounter.OneLabelPerLoopIsNeeded | transactions/mtl/runnable_transaction.hpp:392-407 | a compiled program with two loops of different labels and one name in the branches of a conditional: on one store its phases do what it does, and the weak one fails when it runs remotely |
| Distributed.PiecesFit | transactions/mtl/runnable_transaction.hpp:392-407 | the pruned and recollapsed phases of a well-labelled program refer only to what they require or bind, and bind disjoint variables |
| Distributed.DistributionPreservesMeaning | transactions/mtl/interp.hpp:14-48 | running the split, pruned, recollapsed phases, each locally or remotely and up to a return in it, makes the calls and returns the value of the program, if nothing follows a return in it |
| Distributed.PiecesReturnLast | transactions/mtl/transaction.hpp:154-161 | pruning and recollapsing keep returns where they are: only the last piece returns, and nothing follows its return |
| Distributed.CompiledAndDistributed | transactions/mtl/transaction.hpp:144-181 | the same from the parsed program on, through all passes |
| Environments.TypeHolder.Bind | transactions/mtl/environments.hpp:214-223 | appends to the log and moves the cursor one step; fails exactly if the cursor then stands outside the log, and reads back the new entry if it stood at the last one |
| Environments.TypeHolder.Append | transactions/mtl/environments.hpp:205-212 | appends to the log and moves the cursor one step, wherever it stood; reads back the new entry if it stood at the last one |
| Environments.TypeHolder.Advance | transactions/mtl/environments.hpp:225-230 | moves the cursor one step and leaves the log |
| Environments.TypeHolder.ResetIndex | transactions/mtl/environments.hpp:198-203 | puts the cursor before the first entry and leaves the log |
| Runtime.TxnStore.EvalVar | transactions/mtl/environments.hpp:231-237 | reading a variable through its holder gives what the store holds for it at its cursor, or the argument or constant it names |
| Environments.ValueHolder.Bind | transactions/mtl/environments.hpp:87-106 | replaces the value, whether or not there was one |
| Environments.ValueHolder.CopyFrom | transactions/mtl/environments.hpp:21-121 | copies a counter, set or not |
| Runtime.TxnStore.Run | transactions/mtl/run_phase.hpp:160-400 | the interpreter on holders does to the store what a run of the phase up to its first return does to its value; a return ends it and keeps what was done |
| Runtime.TxnStore.RunLoop | transactions/mtl/run_phase.hpp:355-369 | a loop counts its rounds in its holder |
| Runtime.TxnStore.RunCounted | transactions/mtl/run_phase.hpp:371-380 | a counted loop goes round as often as its holder says |
| Runtime.TxnStore.Clone | transactions/mtl/runnable_transaction.hpp:148-159 | a clone has the same contents and shares no holder |
| Runtime.TxnStore.Take | transactions/mtl/runnable_transaction.hpp:148-159 | taking over a store copies it holder by holder |
| Runtime.TxnStore.StartPhase | transactions/mtl/runnable_transaction.hpp:199-204 | beginning a phase resets all cursors and nothing else |
| Runtime.TxnStore.Commit | transactions/mtl/run_phase.hpp:419-426 | a finished attempt is taken over, any other leaves no trace |
| Runtime.TxnStore.CommonInterp | transactions/mtl/run_phase.hpp:419-486 | whatever attempts are aborted, the store afterwards is that of one successful run from the original store, or unchanged if the phase gives up or fails |
| Runtime.TxnStore.RunTransaction | transactions/mtl/interp.hpp:38-48 | the phases commit one after the other; at an abort of one that may abort, exactly the phases before it are committed |
| Endorse.PreEndorseIsLeast | transactions/mtl/endorse_relabel.hpp:187-200 | the worklist ends with the least set of variables that holds what is endorsed and is closed under the references of its bindings |
| Endorse.ClosedIs | transactions/mtl/endorse_relabel.hpp:123-145 | a set is closed exactly if it holds every variable endorsed anywhere, also inside a binding, and every variable that the binding of one of its variables mentions |
| Endorse.RoundIs | transactions/mtl/endorse_relabel.hpp:123-150 | one round adds exactly what is endorsed and what the bindings of current items refer to |
| Endorse.RoundAdvances | transactions/mtl/endorse_relabel.hpp:187-195 | every round sees new items or shortens the list |
| Endorse.CombineExtends | transactions/mtl/worklist.hpp:12-47 | combining two extensions of a list loses nothing of either and repeats nothing |
| Endorse.TwoMarksAreNeeded | transactions/mtl/endorse_relabel.hpp:197-200 | started with one marker, the worklist would miss a variable |
| Pony.StepInv | transactions/ponyq/ponyq.hpp:144-181 | every step of every producer and of the consumer keeps the queue's invariant |
| Pony.Fifo | transactions/ponyq/ponyq.hpp:144-181 | over every interleaving of any number of producers with the consumer, the nodes popped are a prefix of the nodes pushed, in the order of their swaps, and the nodes released are those popped, one behind |
| Pony.NothingLost | transactions/ponyq/ponyq.hpp:107-157 | whenever no push is between swap and link, the chain from the sentinel visits everything not yet popped, in order, and ends at the tail |
| Pony.EmptyMeans | transactions/ponyq/ponyq.hpp:170-187 | a pop finds nothing only if nothing is left or the next push is not over |
| Pony.StepRefines | transactions/ponyq/ponyq.hpp:144-181 | seen from outside the queue is a FIFO: a push takes effect at its swap, a pop when the head moves on |
| Pony.LinksAreLive | transactions/ponyq/ponyq.hpp:144-157 | no producer writes the link of a released node |
| Pony.ReleasedOnce | transactions/ponyq/ponyq.hpp:170-181 | a node is live when it is released, and no push under way or waiting node refers to it |
| Pony.MarksAre | transactions/ponyq/normalq.hpp:16-19 | the nodes a debug build does not mark as released are those in use, but for the first sentinel until the queue has moved past it |
| Pony.DestructorAsserts | transactions/ponyq/ponyq.hpp:124-140 | the destructor's assertion that the sentinel is not marked as released holds exactly if anything was ever pushed |
| Pony.PonyQ.Push | transactions/ponyq/ponyq.hpp:144-157 | an uninterrupted push appends its node |
| Pony.PonyQ.Pop | transactions/ponyq/ponyq.hpp:170-181 | an uninterrupted pop is its two steps |
| Pony.PonyQ.Peek | transactions/ponyq/ponyq.hpp:184-187 | pops only if there is no head |
| PonyHead.HeadsInOrder | transactions/ponyq/ponyq.hpp:101-187 | over every run the nodes the consumer sees as head are the node the queue was built with and then those pushed, in the order of their swaps, none skipped |
| PonyHead.HeadIs | transactions/ponyq/ponyq.hpp:101-181 | there is no head exactly if the last look for the next node found none; before the first one the head is the node the queue was built with |
| PonyHead.PopsFront | transactions/ponyq/ponyq.hpp:170-181 | an uninterrupted pop takes the front node off what remains, unless that was gone before |
| PonyHead.PeekShowsFront | transactions/ponyq/ponyq.hpp:184-187 | an uninterrupted peek shows the front of what remains, or nothing if nothing does, and takes nothing off |
| PonyHead.PushesBack | transactions/ponyq/ponyq.hpp:144-157 | an uninterrupted push puts its node at the back of what remains |
| Pony.PonyQ.Destroy | transactions/ponyq/ponyq.hpp:124-140 | once no push is under way, destruction makes every node ever pushed the head, in order, and releases each once |
| Arena.SlotArena.Allocate | transactions/mtl/new-parsing/allocator.hpp:27-43 | takes the first open slot, or none if all are taken |
| Arena.SlotArena.Encode | transactions/mtl/new-parsing/ast.hpp:1513-1796 | a tree is put into the next open slots, root first, exactly if there are enough of them, and nothing else is changed |
| Arena.DecodeLayout | transactions/mtl/new-parsing/ast.hpp:890-1491 | decoding a tree's slots gives the tree, whatever the other slots hold |
| Arena.TrimKeepsIff | transactions/mtl/new-parsing/ast.hpp:900-917 | a name is read back as it is exactly if it neither begins nor ends with a blank or a zero character |
| Arena.LayoutForward | transactions/mtl/new-parsing/ast.hpp:1513-1796 | every reference leads to a later slot, and the references of a node to ever later ones |
| Arena.RoundTrip | transactions/mtl/new-parsing/ast.hpp:1777-1796 | a transaction that fits is encoded and decoded to itself exactly if the arena is large enough |

## Left out

- Remote holders and aliasing: the values a store of some label answers with depend on all calls it has received, and that store is kept as one history for each label, not as holders of remote objects.
- Tracking and tombstones are not part of this model.
- Nontermination is modelled by fuel that runs out; the theorems relate outcomes for every fuel.
- `&&` and `||` evaluate both operands, as flattened code does; division by zero is a fault.
- Values are integers, booleans are 0 and 1, and type checking proper (yields, overloads) is left out.
- Flattening of operation arguments, field references, dereferences and `isValid`: calls take variables only, so a call bound to a generated name, which recollapsing would move, does not arise.
- Endorse, Ensure and their relabelling are modelled only in the worklist, and there by data dependencies; the branches for control dependencies never append.
- LetRemote: its body is checked in a weaker context than the constraints are collected in.
- The sorting and the type-level sets of the mutils library are not part of this model; sorting is an insertion sort with the code's comparator, removal of duplicates keeps the last.
- Wrap-around of the `char` counters in generated names: they are integers. Generated names are constructors, so a user's name never begins like one.
- Names in the arena are trimmed of blanks and zero characters at both ends; a name of exactly the array's length is taken to fit.
- Freeing an arena slot, which mixes indices counted from zero and from one.
- The order in which the nodes of an arena copy their names and encode their children.
- The low bit of the queue's tail pointer, its memory orders (all steps are sequentially consistent), `blocking_pop`, `peek_or_build` and `ReturningQueue`.
- Pony.PonyQ.Destroy: does not set the pointers to null at the end, because the object is gone.
- Phases.SplittingPreservesMeaning: takes as conditions what the code relies on and does not check: one label and one binding phase for each name and one label for each loop name (`Described`), calls in contexts that may influence their objects (`CallsPermitted`), `LateOnce`, `LoopsOnce` and `ReturnsLast`, the last of which `Stopping.StoppingPreservesMeaning` weakens.
- Branches.BranchesPreserveMeaning: chooses branches outside loops only; inside a loop both may be taken.
- Noninterference.Noninterferes: takes `Sides` and `CallsFrom` as conditions, which the collector does not ask for.
- InferenceCorrect.InferenceIsGreatest: where a target is a minimum the labelling is the greatest only of those that meet the collapsed constraints; the type checker produces no such target.
- EndToEnd.CompilingPreservesMeaning: takes the conditions of splitting on the compiled program, so on generated names too.
- Pony.DestructorAsserts: a producer that pushes the first sentinel, which the assertion in `push` would let pass in a debug build, is left out.
- Distributed.CompiledAndDistributed: asks that nothing at all follow a return; says nothing about a program that faults or does not end, as pruning may remove the evaluation that faults.
- Runtime.TxnStore.CommonInterp: back-off times are left out, and a phase that may not abort is given finitely many aborted attempts.
- SQL stores, connections, serialization, networking, parsing of text, printing and code generation.
