# Verification of the Ghi compiler's core

This project models the parts of the Ghi compiler whose correctness is hardest to
see from the code, in Dafny 4.11, and proves what they promise. `dafny verify
dfyconfig.toml` checks the whole project.

## What is modelled

**Control-flow lowering.** Ghi's `try`/`catch`/`finally`, labelled jumps and
`return` become Go closures and one integer signal. `Syntax` and `Machine` give
source statements and generated statements one big-step meaning: closures are
calls, deferred functions run in reverse when a call ends, a panic in a deferred
function replaces a pending one. Expressions are evaluated by an arbitrary
function of the expression and the program's state, so every theorem covers every
value, side effect and exception; fuel bounds only the turns of each loop, and
each theorem holds for every fuel. `Lowering`, `FunctionLowering` and `DeferScope`
are the transformation, `ControlFlow` the same pass as an object with counters,
`Legal` what Go's checker guarantees, `Lowerable` which bodies are lowered without
an error and `Untouched` which are left alone, `Headers`, `LoweringFacts` and
`Simulation` the proof, `Terminating` and `TerminatingExact` the terminating-block
test, `CatchChain` the handler a list of catch clauses is parsed into,
`DeferredCalls` the fate of deferred callbacks.

**Three flow analyses**, each as a function, as the mutable object the compiler
uses, with the maps (`Facts`) that it shares, writes in place and clones, and with
a soundness proof against a machine: definite initialization of constructor fields
(`Construction`, `ConstructorCheck`, `Constructors`), nil-check narrowing
(`Nullable`, `NullableFlow`, `NullMachine`, `NullRules`, `NullSound`, `Narrowing`)
and initialization of named results on generated code (`NamedResults`,
`ResultCheck`, `ResultsSound`, `ResultsRuns`, `Results`).

The constructor check is compared with the paths of the program, which are defined
on its text without the analysis (`ProgramPaths`). Every run is a path (`RunPaths`,
with `Growth` for what a run never undoes), and every path is a run of some
evaluator: a script of answers drives it (`PathRuns`, `MeetRuns`). The exits and
verdicts of the analysis are those of the paths (`ConstructorPaths`,
`ConstructorReads`), so that acceptance means what it should for the runs, in both
directions (`Constructors`). `ConstructorView` tells the paths as the check sees them,
and for these its verdict is exact on every body. The named-result check is compared
in the same way with the paths of the generated text (`ResultPaths`, `ResultReads`).

`NarrowMeaning` shows that narrowing does not change a run, `NarrowMarks` which
dereferences it marks behind a test, `NarrowProofs` what it takes for proved where,
`NarrowExact` that it marks exactly what is proved, `NarrowText` and `NarrowTracked`
what it reads off the text, `NarrowPosts` when a narrowed post statement is safe where
a `continue` reaches it.

**The source-origin map** (`SourceEdits`, `SourceMap`, `CoverageSource`), **caches
and state machines** (`FrameCache`, `Imports`, `Certificates`, `Reuse`,
`BuildCache`, `Watch`) and **the inheritance model** (`Ancestors`, `MethodSlots`).

## Where the code does less than it promises

Each of these is shown by a concrete input and fenced by a condition.

- A local variable that hides a named result receives the value of a `return`
  inside `try` (`Shadowing.HiddenResultChangesOutcome`); the assignment is right
  exactly when every slot name denotes its own cell there
  (`Shadowing.ReturnInTryExact`). Behind a returning `try` of the function itself
  such a variable is copied into the result, even if the `return` gives no value
  (`Shadowing.HiddenTailChangesOutcome`); that return is right exactly when every
  slot name in scope denotes its own cell (`Shadowing.TailExact`). Hiding a result is
  harmless anywhere else, and preservation covers such functions.
- The variables of catch clauses that did not match stay in scope in later
  clauses and hide outer variables of the same name (`CatchChain.OuterVariables`).
- The constructor check sees no exit inside a labelled statement
  (`Constructors.LabelHidesReturn`); what it assumes covers the statement's runs
  if no path leaves it other than at its end or with an exception, and, where the
  evaluator alone decides its paths, only if (`Constructors.LabelledExact`). That is
  so (`PathRuns.Open`) without `panic` statements and constant tests, if every `try`
  body can throw and every finalizer ends normally or by throwing. Labelled statements
  that no path leaves early are admitted below.
- It lets an assignment target rely on a target further left, and never looks at the
  targets of `range` (`Constructors.AssignmentReadsLate`,
  `Constructors.RangeTargetsReadLate`). What an accepted constructor reads early it
  reads in such a place (`Constructors.AcceptedReadsLate`), and none does exactly when
  no path makes such a read of an unset field (`Constructors.ReadsLateExactly`).
- The constructor check also rejects bodies no run of which goes wrong: it treats a
  constant test like any other and a `panic` like a call, ignores fields that a
  `range` clause or a labelled statement sets, and takes every `try` body to throw.
  `Constructors.RejectedNeedlessly` shows one, `ConstructorView.AcceptsSeen` says which.
  Away from these, and where no finalizer is left by `return` or a jump, acceptance
  without an overlooked read is exact (`Constructors.AcceptsExactly`).
- Narrowing does not see a write or an address taken through parentheses
  (`Narrowing.NilAssignmentExact`, `Narrowing.AddressExact`) and narrows a post
  statement with what holds at the end of the body only
  (`Narrowing.PostAfterContinue`). From the state at a `continue` that is safe
  exactly when the first tracked variable the post finds nil is not at a mark; if it
  checks no nil variable, exactly when no marked one is nil
  (`NarrowPosts.NarrowedPostExact`). The soundness theorems ask that what the post
  relies on be proved at every `continue` into its loop.
- The named-result check does not check a post statement from a labelled
  `continue` (`Results.PostUnseen`); that hides no early read exactly when the
  results the post mentions are assigned there (`Results.PostReadsLate`). It treats
  targets as above. Where, in the states it computes itself, what it overlooks is
  assigned, no accepted function reads early (`Results.ResultsReadLate`).
- A concrete type named like a type parameter on the chain is captured
  (`Ancestors.CaptureBreaksComposition`); arguments compose exactly when none is
  (`Ancestors.ArgumentsCompose`). The same capture lets a method be overridden with
  a signature that a descendant sees as another one
  (`MethodSlots.CaptureBreaksOverriding`). It sees both alike exactly when no name of
  the signature is rebound on the way down (`MethodSlots.OverridingExact`), and over
  any number of overridings exactly when each name keeps its meaning
  (`MethodSlots.SignaturesExact`); names and visibility of slots do not depend on it.
- An expression that begins or ends with an inserted byte of a recorded range, at the
  other end of that range, takes its boundary from there; it still separates what is
  inside from what is not exactly when the range's own byte there has been edited away
  (`CoverageSource.UnalignedMixes`, `CoverageSource.UnalignedStart`,
  `CoverageSource.UnalignedEnd`).
- An expression rewritten to a single byte without an origin forgets where its original
  ended: rewriting it again records the first original byte only, unless the original
  had just one (`CoverageSource.RewrittenAgain`).
- A change of the sources that is undone between two polls goes unnoticed, and the
  program that runs may then have been compiled from the sources in between
  (`Watch.UnseenRoundTrip`, `Watch.CompiledFromDisk`).

## Model

| member | source | states |
|---|---|---|
| `LoweringFacts.FindBreakFinds` | internal/compiler/control_flow.go:199-216 | a `break` goes to the innermost enclosing target, with a label to the innermost one that carries it, and to none only if there is none |
| `LoweringFacts.FindContinueFinds` | internal/compiler/control_flow.go:199-216 | a `continue` goes to the innermost enclosing loop, with a label to the innermost loop that carries it, passing over switches, and to none only if there is none |
| `FunctionLowering.LoweringPreservesOutcome` | internal/compiler/control_flow.go:90-380 | for every legal body that lowers without an error and in which no local hides a named result from a `return` with values inside `try` or from a returning `try` at function level, every evaluator and every bound on loop turns, the generated function and the source function end the same way, in the same program state, with the same results, deferred callbacks included |
| `FunctionLowering.LowersExactly` | internal/compiler/control_flow.go:151-302 | a body lowers without an error if and only if every `break` and `continue` has a target, one that leaves a `try` jumps to a loop or switch around it, no value is returned from inside a `try` of a function without results, and every header stays at most one statement |
| `Untouched.WithoutTry` | internal/compiler/control_flow.go:90-127 | a legal function without `try` comes out as it went in |
| `Untouched.StaysTerminated` | internal/compiler/control_flow.go:106-126 | a legal function with results whose source passes the terminating test is generated as one that does, by the panic appended behind a lowered `try` |
| `FunctionLowering.BodyPreserved` | internal/compiler/control_flow.go:143-302 | for the same bodies, the lowered body simulates the source body, and a body that passes the terminating test does not complete normally |
| `FunctionLowering.CodeRuns` | internal/compiler/control_flow.go:106-125 | the declarations put before the body leave the state the body expects, and the appended unreachable panic never takes effect |
| `FunctionLowering.FragmentLeavesNoSignal` | internal/compiler/control_flow.go:336-379 | at every closure depth, code that completes normally has cleared the signal |
| `FunctionLowering.FunctionLeavesNoSignal` | internal/compiler/control_flow.go:90-127 | a generated function body that completes normally leaves the signal at zero |
| `FunctionLowering.CallbacksRun` | internal/compiler/runtime_emit.go:221-226 | callbacks on the shared list, deferred by the runtime after a recover and before the panic is raised again, have the effect that native defers would have had, whatever completion is pending |
| `Simulation.SimBlock` | internal/compiler/control_flow.go:143-149 | lowered statement lists agree with the source at any closure depth: same state, and each completion shown as a native jump, a signal or a closure return |
| `Simulation.SimTry` | internal/compiler/control_flow.go:304-380 | a lowered `try`, with the tests emitted after it, agrees with the source `try` for every completion of body, handler and finalizer |
| `Simulation.SimFinalizer` | internal/compiler/control_flow.go:340-347 | the finalizer closure completes the `try` as the source does: its own return, jump or exception replaces a pending return or jump, only an exception replaces a pending exception, and otherwise the saved signal comes back |
| `Simulation.SimHandler` | internal/compiler/control_flow.go:336-339 | the handler starts with a clear signal, whatever signal the body had set before it threw |
| `Simulation.SimLoop` | internal/compiler/control_flow.go:227-240 | loops whose jumps are partly signals turn and end as in the source |
| `Simulation.SimSwitch` | internal/compiler/control_flow.go:241-246 | switches with fallthrough and jumps out of nested `try` agree with the source |
| `LoweringFacts.TestsResume` | internal/compiler/control_flow.go:351-369 | after a `try`, the tests turn a pending signal for a target at this depth into that target's native jump, clear it, and let every other signal pass |
| `LoweringFacts.TailReturns` | internal/compiler/control_flow.go:370-371 | inside a closure the closing test hands any pending signal one closure up |
| `LoweringFacts.TailReturnsSlots` | internal/compiler/control_flow.go:372-378 | at function level the closing test turns the return signal into a return of the result slots |
| `LoweringFacts.PushTarget` | internal/compiler/control_flow.go:231-233 | entering a loop or switch keeps all flow codes in force distinct and above the return code |
| `LoweringFacts.LowerGrows` | internal/compiler/control_flow.go:162-302 | lowering never moves the code counter back |
| `LoweringFacts.SimReturnBelow` | internal/compiler/control_flow.go:176-195 | a `return` inside a closure leaves its value in the result slots and the return signal pending |
| `Terminating.TerminatingBlock` | internal/compiler/control_flow.go:382-415 | a block that passes the test never completes normally, through nested if/else and try/catch/finally |
| `Terminating.TerminatingTry` | internal/compiler/control_flow.go:396-408 | a terminating finalizer, or a terminating body with a terminating handler, keeps a `try` from completing normally |
| `TerminatingExact.TestExact` | internal/compiler/control_flow.go:382-415 | a block of statements the test looks into passes it if and only if no path through the text comes out at its end, `try` with and without handler and finalizer included |
| `TerminatingExact.LiveExact` | internal/compiler/control_flow.go:382-415 | any block without dead code passes the test if and only if nothing comes out at its end, where jumps, loops, switches and labelled statements count as if something did |
| `TerminatingExact.TerminatesExactly` | internal/compiler/control_flow.go:382-415 | where the evaluator alone decides the paths of such a block, it passes if and only if no run of any evaluator completes normally |
| `Shadowing.ReturnInTryExact` | internal/compiler/control_flow.go:178-187 | assigning the slot names writes what `return` writes, for every list of values, if and only if every slot name denotes its own result cell there |
| `Shadowing.HiddenResultChangesOutcome` | internal/compiler/control_flow.go:178-187 | a function with a hidden result whose generated code returns something else than its source |
| `Shadowing.TailExact` | internal/compiler/control_flow.go:372-378 | returning the slots by name changes nothing, whatever the variables hold, if and only if every slot name in scope denotes its own result cell |
| `Shadowing.HiddenTailChangesOutcome` | internal/compiler/control_flow.go:372-378 | a function with a bare `return` inside `try` whose generated code returns a local variable that hides the result |
| `DeferScope.ScopeLowered` | internal/compiler/defer_scope.go:12-34 | rewriting every owned `defer` of lowered code gives the code lowered with registration throughout |
| `ControlFlow.Pass.FindTarget` | internal/compiler/control_flow.go:199-216 | the loop over targets finds what the specification names |
| `ControlFlow.Pass.EmitTests` | internal/compiler/control_flow.go:351-369 | the loop emits exactly the tests of the specification, in its order |
| `ControlFlow.Pass.StmtCode` | internal/compiler/control_flow.go:162-302 | the traversal produces the specified code and advances counters and flags as specified |
| `ControlFlow.Pass.TryCode` | internal/compiler/control_flow.go:304-380 | likewise for `try`, with one saved-signal temporary per finalizer |
| `ControlFlow.Pass.BlockCode` | internal/compiler/control_flow.go:143-149 | likewise for statement lists |
| `ControlFlow.LowerFunctionBody` | internal/compiler/control_flow.go:90-127 | the whole pass, with scoped defers rewritten afterwards, yields the code for which preservation is proved, and reports an error exactly if the text does not lower |
| `CatchChain.ChainSelects` | internal/compiler/exception_parse.go:147-158 | exactly the first clause, in source order, whose type the exception has runs, with its variable bound to it; without one the same exception is thrown again |
| `CatchChain.ChainRethrows` | internal/compiler/exception_parse.go:156-156 | every parsed chain ends in a rethrow |
| `CatchChain.OuterVariables` | internal/compiler/exception_parse.go:150-155 | the body of a clause sees an outer variable if and only if neither it nor an earlier clause uses that name |
| `Headers.LastFirst` | internal/compiler/runtime_emit.go:222-226 | recovering, deferring the callbacks in registration order and panicking again runs the callback registered last first |
| `DeferredCalls.CallbacksRunOnce` | internal/compiler/runtime_emit.go:222-226 | each callback runs once, last registered first, also after one has thrown; the function ends with the last exception thrown, else as it was ending |
| `DeferredCalls.DefersRunAtExit` | internal/compiler/defer_scope.go:12-34 | callbacks registered at any depth of nested `try` run that way when the generated function ends |
| `Constructors.AcceptedInitializes` | internal/compiler/construction_flow.go:35-232 | every run of an accepted constructor that ends normally or by `return` has assigned every required field and called the required parent constructor; labelled statements that no path leaves early are admitted |
| `Constructors.AcceptedReadsLate` | internal/compiler/construction.go:60-87 | in an accepted constructor no run reads a required field before it is assigned, in finalizers after a throwing handler too, unless some path that leaves the field unset reads it in an assignment target behind a target that is the field, or in a `range` target |
| `Constructors.ReadsLateExactly` | internal/compiler/construction_flow.go:53-63 | in an accepted constructor whose paths the evaluator alone decides no run of any evaluator reads a required field early if and only if there is no such path |
| `Constructors.AcceptsExactly` | internal/compiler/construction_flow.go:35-232 | for a constructor whose paths the evaluator alone decides: for every evaluator no run reads a required field early and every run that completes has set them all, if and only if it is accepted and there is no such path |
| `Constructors.PathsAreRuns` | internal/compiler/construction_flow.go:35-232 | a path through the text leaves a field unset if and only if some evaluator has a run that does |
| `RunPaths.RunIsPath` | internal/compiler/construction_flow.go:35-232 | however a run of a statement ends with a field unset, some path through the text does too |
| `RunPaths.EarlyIsMet` | internal/compiler/construction_flow.go:35-232 | what a run reads early, some path reads before setting it |
| `PathRuns.PathTaken` | internal/compiler/construction_flow.go:35-232 | every path is taken by the evaluator that gives the answers of its script |
| `MeetRuns.MeetTaken` | internal/compiler/construction_flow.go:35-232 | every early read on a path is reached by the evaluator that follows its script |
| `Constructors.GeneratedConstructor` | internal/compiler/construction.go:88-121 | what `AcceptedInitializes` and `AcceptedReadsLate` say, for the generated code with its deferred calls |
| `ConstructorReads.AcceptsPaths` | internal/compiler/construction_flow.go:35-232 | a constructor is accepted only if, for each required field on its own, no path makes a read of it that the check looks at before setting it and none that completes leaves it unset; where the analysis is exact, whenever that is so |
| `ConstructorPaths.MergeExact` | internal/compiler/construction_flow.go:17-33 | merging keeps one exit per flow, which holds a field if and only if every merged exit with that flow does |
| `ConstructorPaths.PathsLack` | internal/compiler/construction_flow.go:35-48 | the exits of a statement list lack a field if some path of the program to an exit of that kind does, and where the analysis is exact only then: intersecting states where paths meet loses nothing |
| `ConstructorPaths.TryLacks` | internal/compiler/construction_flow.go:201-232 | likewise for `try`, where every kind of exit of body and handler passes through the finalizer |
| `ConstructorPaths.CasesLack` | internal/compiler/construction_flow.go:149-175 | likewise for the clauses of a switch: what falls into a clause adds no way to lack a field |
| `ConstructorView.AcceptsSeen` | internal/compiler/construction.go:110-117 | any constructor is accepted if and only if, for each required field, no path that the check sees reads it before setting it, and none leaves it unset at the end or at a `return`; what it sees passes a `panic` like a call and a labelled statement at once |
| `ConstructorView.ListEnds` | internal/compiler/construction_flow.go:35-48 | the exits of any statement list lack a field if and only if some path that the check sees ends that way with the field unset |
| `ConstructorView.StepUses` | internal/compiler/construction_flow.go:50-199 | from any state a statement is rejected if and only if some path that the check sees reads a required field that is unset; once everything required is set none is |
| `ConstructorView.MentionsExact` | internal/compiler/construction_flow.go:187-197 | what counts as mentioned in a labelled statement is what some statement in it names, as a target or in an expression |
| `ProgramPaths.ChainThrows` | internal/compiler/construction_flow.go:213-214 | a catch chain may rethrow before anything is set, so the finalizer is also checked from the entry state |
| `Constructors.LabelHidesReturn` | internal/compiler/construction_flow.go:187-197 | a constructor that may return inside a labelled loop, `outer: for { if c { break outer }; return }`, is accepted although that run leaves the field unset |
| `Constructors.LabelledExact` | internal/compiler/construction_flow.go:187-198 | for every evaluator the exits given to a labelled statement cover its runs if no path leaves it by `return`, by an unlabelled jump or `fallthrough` out of it, or by a jump to an outer label; where the evaluator alone decides its paths, only if |
| `Constructors.RejectedNeedlessly` | internal/compiler/construction_flow.go:89-101 | a constructor that sets its field behind the test `true` is rejected, although every run of every evaluator sets it |
| `Constructors.AssignmentReadsLate` | internal/compiler/construction_flow.go:53-63 | an accepted assignment reads no field early for any evaluator if and only if its target operands are readable before it |
| `Constructors.TargetReadsEarly` | internal/compiler/construction_flow.go:57-63 | `this.a, x[this.a] = e, e` is accepted and reads the field first |
| `Constructors.RangeTargetsReadLate` | internal/compiler/construction_flow.go:130-138 | a turn of an accepted range loop reads no field early for any evaluator if and only if its targets are readable at entry |
| `ConstructorCheck.Check.MergeExits` | internal/compiler/construction_flow.go:17-33 | the nested loops compute the specified merger, and every exit of the result has a map of its own |
| `ConstructorCheck.Check.Follow` | internal/compiler/construction_flow.go:35-48 | with exits that share maps and assignments that write to them, the traversal computes the specified exits and records a rejection exactly when the specification does; it writes to the maps of its entry and to no other |
| `ConstructorCheck.Check.StepOne` | internal/compiler/construction_flow.go:50-199 | likewise for each statement, which writes to the map of the exit it starts from and to no other |
| `ConstructorCheck.Check.FollowTry` | internal/compiler/construction_flow.go:201-232 | likewise for `try`, whose clones leave the entry map untouched |
| `ConstructorCheck.Check.FollowTurns` | internal/compiler/construction_flow.go:117-127 | the post statement, followed in the map of each exit that turns, disturbs no exit that leaves the loop |
| `ConstructorCheck.Check.Validate` | internal/compiler/construction.go:110-117 | a constructor is accepted exactly when the specification accepts it |
| `Narrowing.NarrowingSound` | internal/compiler/nullable_flow.go:402-429 | no dereference that the pass marks as checked ever meets nil, whatever calls do and however often loops turn, if what a post statement relies on is proved at every `continue` into its loop |
| `NarrowMeaning.NarrowingPreservesMeaning` | internal/compiler/nullable_flow.go:402-429 | where no position asks for a non-nil value, a narrowed function runs exactly as it did before: same calls, state and completion (with the same condition on post statements) |
| `NarrowMeaning.ChecksRedundant` | internal/compiler/nullable_flow.go:127-206 | any narrowed function whose post statements meet that condition runs as it would with every dereference in it still checked |
| `NarrowMeaning.BlockMarks` | internal/compiler/nullable_flow.go:231-346 | taking the marks away from a narrowed list of statements gives back the statements it was made from |
| `NullSound.EvalSound` | internal/compiler/nullable_flow.go:76-206 | evaluating a narrowed expression neither faults nor changes a tracked variable, and what its value lets the pass assume is true |
| `NullSound.LoopSound` | internal/compiler/nullable_flow.go:292-297 | what a loop never writes stays proved through any number of turns |
| `NullSound.ClausesSound` | internal/compiler/nullable_flow.go:350-400 | clause bodies start from what their guards, or the failure of all guards, prove, and from nothing where a clause may fall into them |
| `NullSound.IfSound` | internal/compiler/nullable_flow.go:280-291 | after an `if` the proof holds on every path that completes normally |
| `NullSound.StmtSound` | internal/compiler/nullable_flow.go:231-346 | every narrowed statement runs without a fault, changes only what it names, and ends with its new proof true |
| `NullRules.ProofMentioned` | internal/compiler/nullable_flow.go:231-346 | a proof holds only variables that some condition before it mentions |
| `Narrowing.NilAssignmentExact` | internal/compiler/nullable_flow.go:244-247 | assigning nil keeps the proof true if and only if the target is not a proved variable in parentheses |
| `Narrowing.AddressExact` | internal/compiler/nullable_flow.go:420-423 | passing an address keeps the proof true for every callee if and only if the operand is not a proved variable in parentheses |
| `NarrowMarks.StmtMarks` | internal/compiler/nullable_flow.go:231-346 | in any statement that neither writes a variable nor compares it with nil, every dereference of the variable is marked if it is proved before, none is otherwise, and it is proved after if and only if before |
| `NarrowMarks.BranchMarked` | internal/compiler/nullable_flow.go:280-284 | in the branch of a condition that is taken only if a variable is not nil, by a test among its conjuncts and with no later one against it, every use is marked, whatever the branch does but write or test the variable; for both branches and every condition |
| `NarrowMarks.NilBranchUnmarked` | internal/compiler/nullable_flow.go:280-284 | no use is marked in the other branch of a nil check |
| `NarrowMarks.AssumeExact` | internal/compiler/nullable_flow.go:75-125 | what a condition tells of a variable is what its last nil test says among the conjuncts left after pushing negation inward; without one it tells nothing |
| `NarrowMarks.LoopMarked` | internal/compiler/nullable_flow.go:292-297 | a loop condition that needs a variable marks every use in body and post statement |
| `NarrowMarks.OperandMarked` | internal/compiler/nullable_flow.go:135-191 | the right operand of a short-circuit operator, and either arm of a ternary, is marked under every condition that needs the variable for reaching it |
| `NarrowMarks.EarlyExitMarked` | internal/compiler/nullable_flow.go:285-287 | behind a terminating branch everything is marked if its condition fails only for a variable that is not nil |
| `NarrowMarks.OtherwiseExitMarked` | internal/compiler/nullable_flow.go:288-291 | the same behind an `if` whose `else` terminates |
| `NarrowMarks.SwitchMarked` | internal/compiler/nullable_flow.go:360-378 | a guard of a switch without a tag that needs a variable marks all uses in its clause, one that fails only for a variable that is not nil those in all clauses after it, the default included |
| `NarrowExact.StmtExact` | internal/compiler/nullable_flow.go:231-346 | in every statement a use of a tracked variable is marked if and only if every path to it, as the pass tells paths apart, proves the variable |
| `NarrowExact.ClausesExact` | internal/compiler/nullable_flow.go:350-400 | likewise in guards and bodies of clauses, each guard after the failure of those before it |
| `NarrowExact.ExprExact` | internal/compiler/nullable_flow.go:127-206 | likewise in expressions, operand by operand |
| `NarrowProofs.StmtProves` | internal/compiler/nullable_flow.go:231-346 | a tracked variable is proved behind a statement if and only if no path through it leaves it unproved; branches that do not come back add no path, a loop or switch forgets what is written in it, a label everything |
| `NarrowProofs.ClauseProves` | internal/compiler/nullable_flow.go:350-400 | a clause that nothing falls into starts with a variable proved if and only if each of its guards proves it after the failure of those before, or, for the default, the failure of all guards |
| `NarrowText.WritesExact` | internal/compiler/nullable_flow.go:217-230 | a statement writes a variable if and only if some assignment or range clause in it has the bare variable among its targets |
| `NarrowText.FallExact` | internal/compiler/nullable_flow.go:390-400 | a body may fall through if and only if a `fallthrough` stands in it |
| `NarrowText.TerminatesExact` | internal/compiler/control_flow.go:382-415 | a branch without dead code terminates if and only if no path comes out of it |
| `NarrowTracked.TrackedExact` | internal/compiler/nullable_flow.go:402-429 | a variable is tracked if and only if it is a nullable local whose address is taken nowhere in the body and which no closure in it captures |
| `Narrowing.PostAfterContinue` | internal/compiler/nullable_flow.go:292-297 | a `continue` reaches a marked dereference in a post statement with a nil variable |
| `NarrowPosts.NarrowedPostExact` | internal/compiler/nullable_flow.go:292-297 | from a state at a `continue`, a post statement of strict operators narrowed with the end-of-body proof faults for no evaluator if and only if the first tracked variable it finds nil is not at a mark; if no variable it checks is nil, if and only if no marked one is; its marks are on variables proved at the end of the body |
| `NullableFlow.Flow.Suppose` | internal/compiler/nullable_flow.go:76-125 | works on fresh copies and computes what the condition tells |
| `NullableFlow.Flow.InvalidateWrites` | internal/compiler/nullable_flow.go:217-230 | deletes in place exactly the variables the statement names |
| `NullableFlow.Flow.Statement` | internal/compiler/nullable_flow.go:231-346 | with proofs shared and deleted from in place, computes the specified statement and proof |
| `NullableFlow.Flow.Conditions` | internal/compiler/nullable_flow.go:350-378 | the loop over clauses computes every clause's guards and entry proof, the default's from the failure of all |
| `NullableFlow.Flow.SwitchCases` | internal/compiler/nullable_flow.go:350-400 | both loops together compute the specified clauses and leave the caller's proof alone |
| `Results.ResultsAssigned` | internal/compiler/named_results.go:61-313 | in accepted code every `return` finds every required result assigned, through callbacks and labelled jumps, and deferred calls cannot change that |
| `Results.ResultsReadLate` | internal/compiler/named_results.go:47-60 | accepted code never reads a required result before it is assigned, if in the states the check computes the operands of assignment targets are assigned before the assignment, those of `range` targets before the loop, and what a post statement reads at each labelled `continue` of its loop |
| `Results.SourceReturnsAssigned` | internal/compiler/named_results.go:296-313 | accepting the generated code vouches for the source function |
| `ResultReads.AcceptsExactly` | internal/compiler/named_results.go:61-313 | a function is accepted if and only if no path through its text reaches a `return` that relies on a required result, or a read of one that the check looks at, with the result unassigned; for all generated code, labels and callbacks included |
| `ResultPaths.PathsLack` | internal/compiler/named_results.go:61-74 | the exits of a statement list lack a result if and only if some path through the text to an exit of that kind does |
| `ResultPaths.TryLacks` | internal/compiler/named_results.go:270-292 | likewise for a call of Try and its three callbacks |
| `ResultPaths.CasesLack` | internal/compiler/named_results.go:215-245 | likewise for the clauses of a switch, entered by a guard or by falling through |
| `ResultsRuns.CallSound` | internal/compiler/named_results.go:259-269 | a function literal called by Try ends normally or throws, and its returns count as normal ends |
| `ResultsRuns.TrySound` | internal/compiler/named_results.go:270-292 | the exits computed for a call of Try cover every run of its three callbacks |
| `ResultsRuns.LabeledSound` | internal/compiler/named_results.go:189-197 | jumps to a label end at the labelled statement, where nothing is taken as proved |
| `ResultsRuns.LoopSound` | internal/compiler/named_results.go:128-151 | analysing a loop body once covers any number of turns, also those begun by a labelled `continue` |
| `ResultsRuns.ClausesSound` | internal/compiler/named_results.go:215-245 | clauses entered by a guard or by falling through end as one of the exits computed |
| `Results.AssignmentReadsLate` | internal/compiler/named_results.go:78-90 | an accepted assignment reads no result early for any evaluator if and only if its target operands are readable before it |
| `Results.RangeTargetsReadLate` | internal/compiler/named_results.go:152-160 | a turn of a range loop reads no result early for any evaluator if and only if its targets are readable at entry |
| `Results.PostUnseen` | internal/compiler/named_results.go:139-148 | a post statement reached by a labelled `continue` is accepted although it reads an unassigned result |
| `Results.PostReadsLate` | internal/compiler/named_results.go:139-148 | from the state at a labelled `continue` a post statement reads no required result early for any evaluator if and only if those it mentions are assigned there |
| `ResultCheck.Check.MergeExits` | internal/compiler/named_results.go:24-40 | the nested loops compute the specified merger, and every exit of the result has a map of its own |
| `ResultCheck.Check.Follow` | internal/compiler/named_results.go:61-74 | with exits that share maps and assignments that write to them, the traversal computes the specified exits, restores the callback counter and fails exactly when the specification does; it writes to the maps of its entry and to no other |
| `ResultCheck.Check.StepOne` | internal/compiler/named_results.go:75-214 | likewise for each statement, which writes to the map of the exit it starts from and to no other |
| `ResultCheck.Check.FollowCases` | internal/compiler/named_results.go:215-245 | likewise for the clauses of a switch, each from a clone |
| `ResultCheck.Check.FollowCallback` | internal/compiler/named_results.go:259-269 | likewise for a callback, followed in the map it is given with the counter raised meanwhile |
| `ResultCheck.Check.FollowFinally` | internal/compiler/named_results.go:285-289 | the finalizer is followed in the map of each pending exit itself, which disturbs no other pending exit |
| `ResultCheck.Check.FollowTry` | internal/compiler/named_results.go:270-292 | likewise for a call of Try, whose clones leave the entry map untouched |
| `ResultCheck.Check.Validate` | internal/compiler/named_results.go:296-313 | a function is accepted exactly when the specification accepts it |
| `SourceMap.EditsKeepExact` | internal/compiler/coverage_source.go:85-110 | after a list of sorted disjoint edits the map has one entry per byte, entries with an origin name an equal original byte, and they increase strictly |
| `SourceMap.MapAlwaysExact` | internal/compiler/coverage_source.go:85-110 | the same after any sequence of edit lists |
| `SourceMap.OffsetsAgree` | internal/compiler/coverage_source.go:62-110 | for every offset outside all edits the map puts its origin exactly at the edited offset, and every other entry has no origin |
| `SourceEdits.Monotone` | internal/compiler/coverage_source.go:62-83 | edited offsets keep the order of offsets |
| `SourceEdits.Strict` | internal/compiler/coverage_source.go:62-83 | a surviving byte stays strictly before any later offset, on either side of insertions made there |
| `SourceEdits.Covered` | internal/compiler/coverage_source.go:100-109 | every byte of the result is a surviving byte at its edited offset, or inserted |
| `SourceEdits.WrapperCovered` | internal/compiler/coverage_source.go:36-41 | a range recorded around edits covers everything they insert, at its ends too |
| `SourceEdits.CutExact` | internal/compiler/coverage_source.go:62-83 | an offset has no new place if and only if an edit replaces text on both sides of it |
| `SourceMap.RangeKept` | internal/compiler/coverage_source.go:89-92 | a range goes on separating what comes from inside its original range from what does not, unless an edit cuts an end or removes it |
| `SourceMap.RangeStays` | internal/compiler/coverage_source.go:89-92 | a range is not lost as long as no edit cuts its ends and some byte in it survives |
| `SourceMap.InsertedOutside` | internal/compiler/coverage_source.go:89-92 | what an edit inserts before a range or behind it, exactly at an end too, stays outside the moved range |
| `SourceMap.NestedStay` | internal/compiler/coverage_source.go:89-92 | nested ranges stay nested unless an edit cuts an end |
| `CoverageSource.BoundariesSeparate` | internal/compiler/coverage_source.go:44-60 | ends taken from bytes with an origin, or from separating ranges that share them, give a range that separates the map |
| `CoverageSource.OriginalExact` | internal/compiler/coverage_source.go:44-60 | an end has an original if and only if its byte has an origin or some recorded range begins or ends with that byte |
| `CoverageSource.RewrittenAgain` | internal/compiler/coverage_source.go:30-60 | the ends of a range recorded by one rewrite, asked for again by the next, give the same original ends, except that a result of one byte without an origin forgets the end of a longer original |
| `CoverageSource.UnalignedStart` | internal/compiler/coverage_source.go:51-58 | a range that begins with the originless last byte of a recorded range and takes its original start from that range's end separates the map if and only if no byte of that range still comes from its last original byte |
| `CoverageSource.UnalignedEnd` | internal/compiler/coverage_source.go:51-58 | the same for a range that ends with the originless first byte of a recorded range |
| `CoverageSource.UnalignedMixes` | internal/compiler/coverage_source.go:51-58 | a map and a recorded range for which such a range does not separate |
| `CoverageSource.TableAt` | internal/compiler/coverage_source.go:115-126 | the table of line starts locates the line of every offset |
| `CoverageSource.SourceMapping.EditedSourceOffset` | internal/compiler/coverage_source.go:62-83 | the loop with a running delta computes the specified offset |
| `CoverageSource.SourceMapping.Apply` | internal/compiler/coverage_source.go:85-110 | replays edits on map and ranges; the map is exact for the new source, and every range that separated the map before separates it afterwards |
| `CoverageSource.SourceMapping.ApplyExpression` | internal/compiler/coverage_source.go:30-42 | records the rewritten expression by where the edits move its ends, with what its end bytes give as original range, exactly when both ends have an original and they are in order; recorded ranges move with the edits and go on separating the map, and the new one separates it if its originless ends are those of the first ranges that touch them |
| `CoverageSource.SourceMapping.ExpressionBoundary` | internal/compiler/coverage_source.go:44-60 | a byte's own origin, else what the first recorded range with that end says; there is an answer exactly if the byte has an origin or some recorded range begins or ends with it |
| `CoverageSource.SourceMapping.Finish` | internal/compiler/coverage_source.go:111-127 | builds the line tables of final and original source |
| `CoverageSource.SourceMapping.Search` | internal/compiler/coverage_source.go:141-141 | bisection finds the first entry beyond the offset |
| `CoverageSource.SourceMapping.Position` | internal/compiler/coverage_source.go:128-145 | the position of a byte of the final source becomes line and column of the original byte it comes from, or no position |
| `FrameCache.EveryRunSound` | internal/compiler/runtime_emit.go:118-145 | in every state that any interleaving of lookups, decodings and stores reaches, every answer is the decoded trace, the cache is within its limit, and what was inserted is what was evicted followed by the queue |
| `FrameCache.StoreKeeps` | internal/compiler/runtime_emit.go:131-145 | a store keeps keys unique and equal to the entries, within the limit |
| `FrameCache.StoreQueues` | internal/compiler/runtime_emit.go:136-142 | a new key goes to the back of the queue and pushes out at most the oldest |
| `FrameCache.Frames.Store` | internal/compiler/runtime_emit.go:131-145 | the ring updated in place does that and answers the decoded trace, also if the key was stored meanwhile |
| `FrameCache.CaptureStack` | internal/compiler/runtime_emit.go:77-103 | traces of any depth are complete; only a sequence of counters that fits a key is used as one, and each is kept in the cache for its depth, behind what is there |
| `Imports.Search.Resolve` | internal/compiler/generate.go:50-73 | accepts exactly the acyclic import graphs, and ranks them when it does |
| `Imports.Search.Visit` | internal/compiler/generate.go:51-67 | a visit finishes the namespace and everything below it, or exhibits a cycle |
| `Imports.RankedAcyclic` | internal/compiler/generate.go:50-67 | a graph whose imports have smaller ranks has no cycle |
| `Certificates.KeyCertifies` | internal/compiler/semantic_cache.go:34-70 | with a collision-free hash, equal keys in two projects imply the same environment, inheritance graph, sources and imports for the namespace and everything it transitively imports |
| `Certificates.InputsDetermineKey` | internal/compiler/semantic_cache.go:47-67 | conversely, a namespace below which nothing changed keeps its key, in whatever order imports and classes are listed |
| `Certificates.OneArrangement` | internal/compiler/semantic_cache.go:59-60 | sorting makes the encoded list independent of the order of imports |
| `Certificates.Keys.KeyFor` | internal/compiler/semantic_cache.go:47-67 | the recursion with a memo map ends on acyclic graphs and computes the key |
| `Reuse.Cache.Settle` | internal/compiler/semantic_cache.go:124-138 | the deletion loop ends with the largest subset of the candidates in which every inheritance edge has both ends in or both out |
| `Reuse.OrderIrrelevant` | internal/compiler/semantic_cache.go:127-137 | the result does not depend on the order in which classes are visited |
| `Reuse.SurvivesIffSafe` | internal/compiler/semantic_cache.go:124-138 | a namespace stays reused if and only if everything connected with it by inheritance is a candidate |
| `BuildCache.AcceptedIsPublished` | internal/compiler/build_cache.go:173-192 | after any history of completed and interrupted stores and outside changes, an accepted state describes exactly the files a completed store published for its key |
| `BuildCache.CompletedIsAccepted` | internal/compiler/build_cache.go:168-192 | a completed store is accepted for its key unless it is empty, and one interrupted after it began is never accepted |
| `BuildCache.Cache.Store` | internal/compiler/build_cache.go:197-257 | stopped at any file operation, it leaves the disk untouched, without a readable state file, or complete; it completes exactly if it may make one operation per stale or changed file and two for the state; unchanged files are not written |
| `BuildCache.Cache.ReadSnapshot` | internal/compiler/build_cache.go:173-192 | accepts exactly a nonempty complete state whose digests are those of the files |
| `BuildCache.Cache.WriteChanged` | internal/compiler/build_cache.go:217-232 | writes only files whose digest differs and completes the generation |
| `Watch.EveryRun` | internal/watch/watch.go:197-263 | in every reachable state at most one program runs, and idle means that the observed sources are those of the last build not discarded |
| `Watch.InvAfterAll` | internal/watch/watch.go:197-263 | the loop's invariant over every sequence of events |
| `Watch.TakesOver` | internal/watch/watch.go:213-249 | a finished build takes over if and only if it compiled and started, the sources on disk are those it was started for, and no poll saw others meanwhile, even if they changed back |
| `Watch.CompiledFromDisk` | internal/watch/watch.go:176-193 | the program that takes over is that of the sources then on disk if and only if its compiler read last while they were the ones it was started for |
| `Watch.RunsOn` | internal/watch/watch.go:213-249 | over any events, failed and discarded builds included, a program goes on running if and only if it does not exit and no compiled build ends for the sources then on disk with no poll having seen others; once displaced it never comes back |
| `Watch.PendingExact` | internal/watch/watch.go:197-263 | a build is pending after an event if and only if the event calls for one (a poll that saw other sources, a failed scan at the end of a build, a discarded build) or one was pending and did not just start; builds are numbered by their starts |
| `Watch.BuildsAnswered` | internal/watch/watch.go:197-263 | over any events no more builds start than events called for one; with nothing pending and no such event none starts, so a failed build is not repeated on unchanged sources |
| `Watch.KeptRests` | internal/watch/watch.go:232-249 | a build that is not discarded leaves nothing pending, whether it compiled or not |
| `Watch.UnseenRoundTrip` | internal/watch/watch.go:218-232 | a change undone between two polls is not noticed, and leaves a program running that was compiled from sources no longer on disk |
| `Watch.Watcher.FinishBuild` | internal/watch/watch.go:213-249 | the fields after a build ended, for every outcome of scan, build and start |
| `Watch.Watcher.Run` | internal/watch/watch.go:197-263 | the loop's fields follow the state machine on every sequence of events |
| `Ancestors.ArgumentsCompose` | internal/compiler/inheritance.go:239-262 | for any class on the chain, the arguments for the far ancestor are those that class gives it under the arguments it is given itself, if and only if no name in them but its own parameters is rebound on the way down |
| `Ancestors.ApartUncaptured` | internal/compiler/inheritance.go:239-262 | where no concrete type is named like a parameter of the chain, none is |
| `Ancestors.ArgumentsScoped` | internal/compiler/inheritance.go:239-262 | the arguments speak only of the descendant's own parameters and concrete types |
| `Ancestors.ArgumentsDirect` | internal/compiler/inheritance.go:239-262 | the arguments for the direct parent are those written in the class |
| `Ancestors.SubstituteTwice` | internal/compiler/inheritance.go:182-235 | two substitutions are one simultaneous substitution if and only if the second rebinds no name that the first leaves alone |
| `Ancestors.UnderTwice` | internal/compiler/inheritance.go:239-262 | a type carried down the chain in two stages is the type carried down at once if and only if no name in it is rebound on the way |
| `Ancestors.CaptureBreaksComposition` | internal/compiler/inheritance.go:239-262 | a chain on which a concrete type named like a parameter makes the law fail |
| `MethodSlots.TableIsLookup` | internal/compiler/class_model.go:56-104 | the table has exactly one entry per method that lookup finds, equal to what it finds |
| `MethodSlots.FindNearest` | internal/compiler/class_model.go:56-104 | lookup finds the method of the nearest class on the chain that declares the name, and none only if none does |
| `MethodSlots.SlotsExtend` | internal/compiler/class_model.go:343-363 | in every accepted hierarchy each ancestor's slots are a prefix: same names, never less visible, private ones unchanged; and a slot has the same signature, as the class sees it through its type arguments, if and only if every name in it keeps its meaning on the way down |
| `MethodSlots.SignaturesExact` | internal/compiler/class_model.go:343-360 | the method a class finds has the signature of the one an ancestor finds, as the class sees both, over any number of overridings, if and only if every name of that signature means the same through the overriding classes and directly |
| `MethodSlots.OverridingExact` | internal/compiler/class_model.go:343-360 | a method that overrides another with the same signature is seen with that signature by a descendant if and only if no name of the signature is rebound between the overriding class and the descendant |
| `MethodSlots.OverridesExact` | internal/compiler/class_model.go:343-363 | an override is accepted if and only if it is marked as one, the method it overrides is not private and has the same signature, and whoever may use that method may use this one |
| `MethodSlots.RankExact` | internal/compiler/class_model.go:273-297 | one visibility ranks at least as high as another if and only if whoever the other lets use a method may use it |
| `MethodSlots.ApartKeepsSignatures` | internal/compiler/class_model.go:343-360 | where no concrete type is named like a parameter of the chain, every overriding method keeps the signature it overrides for every descendant |
| `MethodSlots.SeenBelow` | internal/compiler/class_model.go:252-270 | a signature seen from a class is what its parent sees under the arguments for the parent, if and only if they rebind no name in it but the parameters of the declaring class |
| `MethodSlots.CaptureBreaksOverriding` | internal/compiler/class_model.go:343-360 | an accepted chain on which a descendant sees an overriding method with another signature than the method it overrides |
| `MethodSlots.AllMethods` | internal/compiler/class_model.go:85-104 | the loops that overwrite slots build the specified table |
| `MethodSlots.Accessible` | internal/compiler/class_model.go:282-297 | climbing from the caller grants protected access exactly to the owner and its descendants |

## Left out

- Type switches, select, goto, user recover, goroutines, channels and native Go panics: no part of the statement language.
- Nested function literals are opaque expressions; each is a function of its own, to which the same theorems apply.
- The check that catch types derive from Exception only rejects programs.
- A compound assignment is a plain assignment whose value reads its target.
- Functions that mix named and blank results.
- The constructor check's rejection of an escaping `this`, of virtual calls and of parent methods: syntactic rejections with no state.
- Type switches and nested function literals in constructors: the analysis does not look into them, and neither does the model. Labelled statements are covered where no path leaves them early.
- Evaluation order inside one expression, and when a deferred call evaluates its operands, as far as nil is concerned.
- The in-place rewriting of syntax nodes, the changed flag that asks for another round, and further rounds over nodes already marked, in narrowing; switch and parameter types enter only as positions that want a non-nil value.
- Results.ResultsAssigned: a name stands for one object, as Go's checker resolves it; functions in which a declaration hides a required result are not covered under their own spelling.
- Results.ResultsReadLate: the same functions are not covered.
- Results.SourceReturnsAssigned: the same functions are not covered.
- ConstructorCheck.Check.Validate: says that a constructor is rejected, not which message comes first.
- FrameCache.CaptureStack: keys are counter sequences without the zero padding; how frames are decoded is an arbitrary function.
- Relocation of type names between namespaces when ancestor arguments are composed; they are taken to be relocated already.
- The rejection of duplicate members, unknown parents and unimplemented interfaces, and the detection of inheritance cycles: classes are finite chains.
- Unknown imports, imports of `main` and of test namespaces: rejected before the search.
- Certificates.KeyCertifies: takes file paths and namespace names to be told apart by their form, because the encoding lists both as pairs without a separator.
- Parsing of cached declarations, the namespaces' cached file lists and helper counts.
- Real files, locks, hashing, processes and clocks: file maps, an injective hash, an atomic lock, and events for timers, polls and exits.
- Narrowing over a post statement with a short-circuit operator, a ternary or a nested statement has the sufficient condition of the soundness theorems, not the exact one of `NarrowPosts`.
- Watch.Watcher.Run: a compiler reads all sources at one moment; events stand for the select statement's choices; the debounce interval is an event, and the temporary binaries' removal is not modelled.
- Scanning, parsing, formatting, diagnostics, commands, debug metadata and receiver specialization.
