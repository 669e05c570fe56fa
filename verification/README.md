# Verification of the Tiger compiler's middle and back end

The Dafny files here model the passes between parsing and code generation of the Tiger
compiler, and prove what each of them promises. `dafny verify dfyconfig.toml` checks
everything.

The passes share one syntax tree (`Ast.dfy`) whose nodes carry identities, so that links from
uses to declarations can be stated, and one meaning of programs (`Semantics.dfy`): a big-step
evaluator with fuel over 32-bit two's complement integers, with `break`, nested functions that
see the variables around them, and primitives that append an event to a trace and take their
result from an oracle over that trace. Division by zero, `INT_MIN / -1`, a missing variable and a
break out of a function are `Undefined`; running out of fuel is `OutOfFuel`.

| files | pass |
|---|---|
| `Binder`, `Binding`, `BindErrors` | scope stacks against an environment-passing resolver; which links and errors result |
| `Renamer`, `Rebinding`, `RenameBind` | unique names, and what binding the renamed tree again gives |
| `RenamedDecs`, `RenamedNames`, `RenameBack`, `RenameSim` | which declarations are renamed, which names a renamed tree has, that nothing else changes, and that it means the same |
| `ReadOnly`, `TypeChecker`, `IndexRule` | the rule that keeps the index of a `for` unchanged, the checker of it, and what it refuses |
| `Types`, `Compatibility`, `LlvmTypes` | aliases and their cycles, compatibility, translation of recursive records |
| `Desugar`, `DesugarSim`, `DesugarBind`, `DesugarBreaks`, `Refold` | `for` into `while`: the meaning kept, the links that binding the result again gives, the targets of breaks, and that the tree can be read back |
| `RenameDesugar` | renaming followed by desugaring |
| `Escapes`, `EscapeSites`, `Lifting` | the variables that functions need from the frames around them |
| `Cfg`, `Lower*`, `ValuePositions`, `Translator` | lowering to basic blocks, which expressions have a value, and the machine that runs the blocks |
| `Legality` | what the passes before the translator establish is what it relies on |
| `Pipeline`, `Example*` | a source program as the user wrote it against the code compiled from its renamed and desugared tree; programs that meet the conditions |
| `Tasks`, `Schedule` | task descriptions, and the scheduler |
| `Timer`, `EscapeText` | nested timers, escaped strings |

Passes that the compiler runs by updating objects (`Binder`, `TypeChecker`, `Renamer`,
`EscapesCollector`, `Translator`, `LLVMTypeVisitor`, `TaskRegister`, `timer`, named types) are
classes whose methods are proved against functions of the old state; the properties are then
proved of those functions. Passes that rebuild a tree are functions.

## Main results

- **Lowering preserves meaning** (`LowerSim.Sim`, `LowerMain.CompiledCorrectly`). Whatever the
  expression, the state and the fuel, if the source ends normally then the emitted code reaches
  the final insertion point with every variable in its cell, the value in `value_` and the same
  trace; if it breaks, the code reaches the end of the loop it breaks. Calls, recursion, nested
  functions and lifted variables are included: a variable of an outer activation is reached
  through the pointers handed over at each call.
- **Emitted graphs are well formed** (`LowerShape.Shape`) at every step: one open block, every
  other started block with exactly one terminator, phis that list exactly the predecessors of
  their block even after a break in a branch, and an enclosing function untouched by a nested one.
- **Divergence too** (`LowerForever.CompiledExactly`, `LowerForever.ForeverTogether`). A source run
  that is not over after some fuel gives the machine at least as many steps. So, for a program
  without undefined behaviour, the code ends with a value and a trace if and only if the source
  does, and runs forever if and only if the source does.
- **Lifted calls match headers** (`LowerTables.Tables`, `LowerTables.CallsMeetHeaders`), because the
  collected sets are closed under calls (`Lifting.CollectorServesTranslator`).
- **The nested fixpoint is exact** (`Escapes.CollectEscapes`): each function gets the escapable
  variables used by the functions it reaches through calls, no more and no less, although inner
  chunks hide their changes from outer ones.
- **Exactly the right declarations are renamed**, to names that are all different
  (`RenamedDecs.RenamedExactly`). **Renaming preserves meaning** (`RenameSim.RenamePreserves`), and so does **desugaring**
  (`DesugarSim.DesugarCorrect`): same result, same trace and same divergence at the same fuel, for
  all bounds including `INT_MAX`. After renaming there is no condition on names
  (`RenameDesugar.RenameDesugarPreserves`). Nothing but the loops is changed: folding them back gives
  back the tree (`Refolding.RefoldDesugar`).
- **End to end** (`Pipeline.EndToEnd`, `Pipeline.EndToEndExactly`): from a program with `for` loops
  and any names to its code, in both directions. The conditions on the final tree follow from the
  passes that run on it (`Pipeline.PassesServe`).
- **Binding** (`Binder.Binder.Visit`, `Binding.ResolveLinks`), with the exact number of errors of each
  kind (`Binding.UndeclaredExact`, `BindErrors.RedeclaredExact`, `BindErrors.RefusedExact`), **renaming
  then binding** (`RenameBind.RenameThenBind`, `RenameBind.UsesFollowDefinitions`) and
  **desugaring then binding** (`DesugarBind.LinksKeptExactly`).
- **Loop indices**: a program is refused if and only if some loop assigns to its own index
  (`IndexRule.AcceptsExactly`), and in an accepted one no loop ever changes it
  (`ReadOnly.ForIndexUnchanged`).
- **Alias cycles** (`Types.NamedTypes.DeclareChunk`) and **recursive records**
  (`LlvmTypes.LLVMTypeVisitor.Translate`); a visit ends if and only if no cycle of types without a
  record is ahead of it (`LlvmTypes.EndsExactly`, `LlvmTypes.AllEndExactly`).
- **Scheduling**: what requests that end do (`Scheduling.TaskRegister.EnableAll`), and which end
  (`Scheduling.EndsExactly`, `Scheduling.EachEndsExactly`).
- **Time** (`Timer.Conservation`, and for each task `Timer.EachTask`), **escaping** (`EscapeText.RoundTrip`).

## Where the code is not what one would expect

- The binder enters a variable, and the index of a `for`, before it visits the initialiser and the
  bounds (src/bind/binder.cc:172, src/bind/binder.cc:201). The semantics does the same.
  Desugaring evaluates the bounds outside the scope of the index, so it needs them not to mention
  it; `DesugarSim.IndexInBoundDiffers` is a program for which the two differ.
- The scanner lets users write `_lo` and `_hi` (src/parse/scantiger.ll:87). The desugaring visitor
  alone would let its inserted variables capture them (`DesugarSim.UserLoIsCaptured`;
  `DesugarBind.LinksKeptExactly` says exactly when). But both desugaring tasks depend on `rename`
  (src/desugar/tasks.hh:38, src/desugar/tasks.hh:50-54), and no variable of a renamed tree is called
  `_lo` or `_hi` (`RenamedNames.RenamedApart`).
- The renamer writes a use when it visits it (src/bind/renamer.cc:49), so a call of a function
  declared later in the same chunk keeps the old name: `RenameBind.ForwardCallKeepsOldName`.
  `RenameBind.UsesFollowDefinitions` says exactly for which trees this does not happen.
- `Named::sound` stops at arrays (src/type/named.cc:42), so `type a = array of a` is accepted, and
  `LLVMTypeVisitor` does not end on it: `LlvmTypes.ArrayOfItselfNeverEnds`. `LlvmTypes.EndsExactly`
  says exactly which visits end.
- The task register does not detect cycles (src/task/task-register.cc:110):
  `Scheduling.MutualNeverEnds`. `Scheduling.EndsExactly` says exactly which requests end if no task
  is disjunctive. A cycle through a later alternative of a disjunctive task is not followed
  (`Scheduling.AlternativeEnds`), and one through its first alternative may be broken on the way,
  but then tasks are executed twice (`Scheduling.BrokenCycleRepeats`).
- The collector also collects, for a function, its own escapable variables, and gives a set to
  `_main` (src/llvmtranslate/escapes-collector.cc:93). The exactness results are about these sets.
- The comment on the desugaring speaks of a loop condition `i < _hi`; the code emits `while 1` and
  leaves by a break (src/desugar/desugar-visitor.cc:98, src/desugar/desugar-visitor.cc:116). The
  model follows the code.
- The flags behind refused breaks are reset, not restored, by nested constructs
  (src/bind/binder.cc:90): a break in an argument of a call is refused, but not after a call nested
  in that argument. `BindErrors.RefusedExact` and `BindErrors.BreaksExact` say of every break whether
  it is refused.

## Model

| member | source | states |
|---|---|---|
| `LowerSim.Sim` | src/llvmtranslate/translator.cc:375-559 | forward simulation of every expression: a normal end reaches the final insertion point with related store, trace and value, a break reaches the end of its loop, and nothing outside the visible variables changed |
| `LowerSim.SimOp` | src/llvmtranslate/translator.cc:375-419 | the same for operators: left before right, wrap-around arithmetic, comparisons widened to 0 or 1 |
| `Int32.QuotRemainder` | src/llvmtranslate/translator.cc:375-419 | division rounds toward zero: the remainder is smaller than the divisor and has the sign of the dividend |
| `Int32.ApplyMeans` | src/llvmtranslate/translator.cc:375-419 | sums, differences and products are right up to a multiple of 2^32, comparisons are 0 or 1 and agree with each other, and only a division may have no result |
| `LowerSim.SimVar` | src/llvmtranslate/translator.cc:248-264 | reading a variable loads the cell of the activation that owns it, also through lifted pointers |
| `LowerSim.SimAssign` | src/llvmtranslate/translator.cc:438-445 | an assignment stores the value of its right side in that cell and nowhere else |
| `LowerSim.SimSeq` | src/llvmtranslate/translator.cc:421-436 | a sequence has the value of its last expression, and stops at a break |
| `LowerSim.SimIf` | src/llvmtranslate/translator.cc:447-504 | the branch chosen by the condition runs and its value comes out of the phi |
| `ValuePositions.VoidsExactly` | src/type/type-checker.cc:453-466 | an expression has a value, and an `if` a phi, exactly if all the places its value may come from have one: both branches, the last of a sequence, the body of a `let` |
| `LowerSim.SimWhile` | src/llvmtranslate/translator.cc:506-540 | every terminating run of a loop, left by its test or by a break, ends after the loop |
| `LowerSim.SimBreak` | src/llvmtranslate/translator.cc:542-559 | a break goes to the end of the loop it is bound to, in the state it was in |
| `LowerSim.SimScope` | src/llvmtranslate/translator.cc:581-590 | declarations in order, then the body, and the scope is left as it was entered |
| `LowerSim.SimVarDec` | src/llvmtranslate/translator.cc:733-757 | a variable gets its first value in the running activation, as a global in `_main` and as a slot elsewhere |
| `LowerSim.SimCall` | src/llvmtranslate/translator.cc:684-731 | a call of a function or a primitive behaves as in the source, with its arguments evaluated in order |
| `LowerSim.SimInvoke` | src/llvmtranslate/translator.cc:630-682 | entering a body binds pointers and formals, and returning restores the caller |
| `LowerMain.CompiledCorrectly` | src/llvmtranslate/translator.cc:85-95 | if the body of `_main` ends normally so does the compiled program, with the same calls of primitives and the same value |
| `LowerForever.CompiledExactly` | src/llvmtranslate/translator.cc:85-95 | for a program without undefined behaviour, the code ends with a value after some calls of primitives if and only if the source does |
| `LowerForever.ForeverTogether` | src/llvmtranslate/translator.cc:85-95 | the code of such a program runs forever if and only if the source does |
| `LowerForever.StillRunning` | src/llvmtranslate/translator.cc:85-95 | while the source program runs so does its code, step for unit of fuel |
| `LowerForever.Long` | src/llvmtranslate/translator.cc:375-559 | the same for every expression, wherever the machine stands |
| `LowerForever.LongLoop` | src/llvmtranslate/translator.cc:506-540 | going round a loop takes at least one step, whatever the test and the body do |
| `LowerForever.LongInvoke` | src/llvmtranslate/translator.cc:630-682 | entering a body takes at least one step, so unbounded recursion does not end either |
| `LowerMain.MainReady` | src/llvmtranslate/translator.cc:592-667 | after the headers and the start of `_main` everything the translation relies on holds |
| `LowerMain.CompiledSound` | src/llvmtranslate/translator.cc:85-95 | the whole code is a well-formed graph whose calls all agree with the headers |
| `Pipeline.EndToEnd` | src/desugar/tasks.hh:37-54 | if a program with its own names and `for` loops ends, the code compiled from its renamed and desugared tree ends with the same value and trace |
| `Pipeline.EndToEndExactly` | src/desugar/tasks.hh:37-54 | if moreover the source has no undefined behaviour, its code ends that way only if the source does, and runs forever if and only if the source does |
| `Pipeline.PassesServe` | src/desugar/libdesugar.hxx:24-60 | a program that may be renamed and desugared, is then bound again, checked and collected, meets every condition of `EndToEnd` |
| `Legality.PassesEstablish` | src/llvmtranslate/translator.cc:85-95 | a tree bound without errors, with values used only where there is one, and with the collector's sets, is legal for the translator |
| `Legality.Typing` | src/bind/binder.cc:46-298 | in a tree so bound and checked every name denotes the declaration the environment finds, and every break the innermost loop of its function |
| `Pipeline.TranslateProgram` | src/llvmtranslate/translator.cc:72-95 | running the translator on the primitives and `_main` yields exactly the code of the theorems |
| `Example.ProgramIsLegal` | src/llvmtranslate/translator.cc:630-731 | a program with a function that changes a variable lifted to it meets every condition of the translation theorem |
| `Example.LoopIsLegal` | src/desugar/desugar-visitor.cc:103-126 | a desugared loop meets every condition as well |
| `ExampleIf.CodePrintsSeven` | src/llvmtranslate/translator.cc:447-504 | the code of an `if` whose branches are sequences with a value prints the value of the branch taken |
| `Example.LoopIsCompilable` | src/desugar/tasks.hh:37-54 | a program with a `for`, whatever its index is called, meets every condition of the way from source to code |
| `LowerShape.Shape` | src/llvmtranslate/translator.cc:375-559 | translating an expression keeps the graph well formed and touches only the open block, new blocks and edges to loop ends |
| `LowerShape.ShapeIf` | src/llvmtranslate/translator.cc:447-504 | the phi of an `if` lists exactly the two blocks that reach the merge block, whatever blocks the branches ended in |
| `LowerShape.ShapeWhile` | src/llvmtranslate/translator.cc:506-540 | the three blocks of a loop are sealed or open as they should be, also with breaks inside |
| `LowerShape.ShapeBreak` | src/llvmtranslate/translator.cc:542-559 | code after a break goes to a fresh block, so the broken block keeps its one terminator |
| `LowerShape.ShapeCall` | src/llvmtranslate/translator.cc:684-731 | calls, whose arguments may add blocks, keep the graph well formed, and touch nothing but the open block and new ones |
| `LowerShape.ShapeVarDec` | src/llvmtranslate/translator.cc:733-757 | the same for declarations, whose initialisers may add blocks |
| `LowerShape.ShapeDecs` | src/llvmtranslate/translator.cc:581-590 | after the bodies of a chunk, every block and edge that existed before is unchanged, the open block included |
| `LowerShape.ShapeDec` | src/llvmtranslate/translator.cc:630-682 | a nested body has blocks of its own, all sealed, and the insertion point comes back to the open block of the outer function |
| `LowerTables.Tables` | src/llvmtranslate/translator.cc:209-246 | translating an expression keeps all tables consistent: headers, locals and every call emitted |
| `LowerTables.CallsMeetHeaders` | src/llvmtranslate/translator.cc:592-628 | every call emitted agrees with the recorded header of its callee: as many arguments as it has parameters, and for each lifted parameter an access of the caller to that variable |
| `LowerScopes.HeadersExact` | src/llvmtranslate/translator.cc:592-628 | one header for each function of a chunk, in order: its lifted variables, then its formals |
| `LowerTables.LiftedAtHand` | src/llvmtranslate/translator.cc:702-720 | every lifted argument of a call is already in `locals_` of the caller and is an access to the right variable |
| `LowerTables.TablesCall` | src/llvmtranslate/translator.cc:684-731 | lifted arguments in the order of the header, then the actuals, as many as the header has |
| `LowerTables.TablesDec` | src/llvmtranslate/translator.cc:630-682 | a body is translated with all of its lifted variables bound, and the tables of the function around it come back |
| `LowerTables.TablesVarDec` | src/llvmtranslate/translator.cc:733-757 | a declared variable is accessed as a global in `_main` and as a slot elsewhere |
| `LowerReady.Access` | src/llvmtranslate/translator.cc:97-107 | the access found for a visible variable, here or in another function, names that variable and no other |
| `LowerReady.ElsewhereGlobal` | src/llvmtranslate/translator.cc:101-107 | the search through other functions finds the global, for a variable of `_main` that is lifted nowhere |
| `Translation.Translator.constructor` | src/llvmtranslate/translator.cc:72-83 | an empty module whose insertion point is the entry of `_main` |
| `Translation.Translator.Translate` | src/llvmtranslate/translator.cc:91-95 | visiting an expression takes the builder to the state the theorems are about, and restores the current function |
| `Translation.Translator.Access` | src/llvmtranslate/translator.cc:97-107 | the current function's own entry first, then the first function that has one |
| `Translation.Translator.VisitOp` | src/llvmtranslate/translator.cc:375-419 | left, then right, then the operator |
| `Translation.Translator.VisitAssign` | src/llvmtranslate/translator.cc:438-445 | the access of the variable first, then the value, then the store |
| `Translation.Translator.VisitSeq` | src/llvmtranslate/translator.cc:421-436 | the loop over the expressions; an empty sequence has value 0 |
| `Translation.Translator.VisitIf` | src/llvmtranslate/translator.cc:447-504 | test, both branches, phi when there is a value |
| `Translation.Translator.VisitWhile` | src/llvmtranslate/translator.cc:506-540 | three blocks, with `loop_end_` set before the test is visited |
| `Translation.Translator.VisitCall` | src/llvmtranslate/translator.cc:684-731 | lifted arguments, then actuals, then the call |
| `Translation.Translator.LiftedArguments` | src/llvmtranslate/translator.cc:708-715 | the loop over the callee's set; looking up a missing entry creates it |
| `Translation.Translator.VisitScope` | src/llvmtranslate/translator.cc:581-590 | chunks in order, then the body |
| `Translation.Translator.VisitVarDec` | src/llvmtranslate/translator.cc:733-757 | in `_main` known after its initialiser, elsewhere before |
| `Translation.Translator.VisitHeaders` | src/llvmtranslate/translator.cc:592-628 | one header for each function of the chunk, lifted variables before formals |
| `Translation.Translator.VisitBodies` | src/llvmtranslate/translator.cc:581-590 | the bodies in order; nothing for primitives |
| `Translation.Translator.VisitBody` | src/llvmtranslate/translator.cc:630-682 | saved insertion point and function are restored after the body |
| `Translation.Translator.FillBody` | src/llvmtranslate/translator.cc:651-674 | arguments bound, body translated, return emitted |
| `Translation.Translator.BindArguments` | src/llvmtranslate/translator.cc:651-667 | the two loops over lifted variables and formals |
| `Escapes.CollectEscapes` | src/llvmtranslate/escapes-collector.cc:114-120 | the set of each function is exactly the escapable variables used directly by some function it reaches through zero or more calls |
| `Escapes.VisitProgram` | src/llvmtranslate/escapes-collector.cc:36-50 | chunks one after the other; what was accounted for stays so |
| `Escapes.Collector.VisitChunk` | src/llvmtranslate/escapes-collector.cc:36-50 | the loop on `did_modify_` ends, closes the chunk under calls and uses, and puts the flag back |
| `Escapes.Collector.VisitDecs` | src/llvmtranslate/escapes-collector.cc:46-59 | one pass: if the flag stays clear then everything in the chunk is accounted for |
| `Escapes.Collector.VisitDec` | src/llvmtranslate/escapes-collector.cc:52-62 | the stack of functions is as before, and the flag tells whether this function changed |
| `Escapes.Collector.Visit` | src/llvmtranslate/escapes-collector.cc:64-101 | unless the current function got something new, every call and use in the expression is accounted for |
| `Escapes.Collector.VisitCall` | src/llvmtranslate/escapes-collector.cc:64-83 | arguments first, then what the callee has so far |
| `Escapes.Collector.VisitCallee` | src/llvmtranslate/escapes-collector.cc:75-82 | the caller gets all of the callee's set, and the flag is set exactly if that changed something |
| `Escapes.Collector.VisitVarUse` | src/llvmtranslate/escapes-collector.cc:85-101 | an escapable variable goes to the set of the current function |
| `Escapes.Collector.VisitScope` | src/llvmtranslate/escapes-collector.cc:36-50 | an inner chunk whose changes were hidden is nevertheless accounted for |
| `Escapes.Chain` | src/llvmtranslate/escapes-collector.cc:36-50 | later code leaves earlier code accounted for: a callee is in an enclosing chunk or in one already done |
| `Escapes.Exact` | src/llvmtranslate/escapes-collector.cc:36-101 | sets that are closed, and contain nothing unneeded, are exactly what reachability asks for |
| `EscapeSites.RelationsExactly` | src/llvmtranslate/escapes-collector.cc:64-101 | a function directly uses exactly the escapable variables, and calls exactly the functions, that its own text has a place for |
| `Escapes.LinkedScoped` | src/bind/binder.cc:255-276 | the scoping that the collector relies on follows from binding |
| `Lifting.CollectorServesTranslator` | src/llvmtranslate/escapes-collector.cc:64-83 | with the collected sets every use is its own, lifted or global, and every callee's set is contained in its caller's |
| `Lifting.CollectedLifts` | src/llvmtranslate/escapes-collector.cc:64-101 | the same for any expression inside a program whose sets are closed |
| `DesugarSim.DesugarCorrect` | src/desugar/desugar-visitor.cc:67-126 | a program accepted by the checker, with bounds clear of the index and of breaks and without a `_lo` or `_hi` that would be captured, has the same outcome, trace and divergence after desugaring |
| `DesugarSim.DesugarPreserves` | src/desugar/desugar-visitor.cc:103-126 | the same for every expression in matching environments, `_lo` and `_hi` of enclosing loops in between |
| `DesugarSim.PreservesFor` | src/desugar/desugar-visitor.cc:103-126 | lower bound, then upper bound, each once, then the loop |
| `DesugarSim.PreservesLoop` | src/desugar/desugar-visitor.cc:110-123 | from any iteration on the `while` does what the `for` does, and ends at the last index |
| `DesugarSim.LoopTail` | src/desugar/desugar-visitor.cc:119-121 | what follows the body leaves at the last index and otherwise adds one, without wrap-around, also for `INT_MAX` |
| `DesugarSim.IndexInBoundDiffers` | src/desugar/desugar-visitor.cc:110-113 | a program whose upper bound mentions the index means something else after desugaring |
| `DesugarSim.UserLoIsCaptured` | src/desugar/desugar-visitor.cc:110-113 | without renaming, a body that assigns a variable `_lo` from around the loop assigns the inserted one |
| `DesugarBind.LinksKeptExactly` | src/desugar/desugar-visitor.cc:103-126 | binding the desugared tree gives every variable use of the user its old declaration if and only if no bound uses its own index and no loop captures a `_lo` or `_hi` |
| `DesugarBind.SameLinks` | src/desugar/desugar-visitor.cc:103-126 | the same for every expression, in scopes that agree on its free names |
| `DesugarBind.DistinctDesugar` | src/desugar/desugar-visitor.cc:103-126 | the inserted nodes are new: no two nodes of the desugared tree are the same |
| `RenameDesugar.RenameDesugarPreserves` | src/desugar/tasks.hh:37-54 | renaming and then desugaring keeps outcome, trace and divergence, whatever the names are |
| `RenameDesugar.SafeApart` | src/desugar/desugar-visitor.cc:110-113 | where nothing is called `_lo` or `_hi` nothing is captured |
| `Desugaring.NoForLeft` | src/desugar/desugar-visitor.cc:103-126 | no `for` is left anywhere in the desugared tree |
| `Refolding.RefoldDesugar` | src/desugar/desugar-visitor.cc:103-126 | folding every inserted `let` back into its `for` undoes the desugaring: names, types, formals and results are all kept, in trees with loops as well |
| `Refolding.DesugarInjective` | src/desugar/desugar-visitor.cc:103-126 | different trees are different after desugaring |
| `Desugaring.CopiesTheRest` | src/astclone/cloner.cc:20-293 | a tree without `for` is copied as it stands, down to the nodes |
| `Desugaring.BreaksKept` | src/desugar/desugar-visitor.cc:103-126 | every break targets the image of the loop it targeted, and the inserted ones their new `while` |
| `DesugarBreaks.TargetsKeptExactly` | src/desugar/desugar-visitor.cc:103-126 | every break keeps its target if and only if no bound of a loop has a break that leaves it |
| `ReadOnly.ForIndexUnchanged` | src/type/type-checker.cc:417-439 | running the body of an accepted `for` never changes its index, through nested functions and loops |
| `ReadOnly.EvalKeeps` | src/type/type-checker.cc:470-488 | running accepted code leaves every variable that is read-only there unchanged |
| `IndexRule.AcceptsExactly` | src/type/type-checker.cc:470-488 | a bound program is accepted if and only if no loop has in its body, at any depth, an assignment linked to its own index |
| `IndexRule.AcceptsByLinks` | src/type/type-checker.cc:417-439 | the same for every part of a program, given the indices of the loops around it |
| `TypeChecker.Checker.Check` | src/type/type-checker.cc:470-488 | no error is reported if and only if no index in scope is assigned to, and the read-only set is as before |
| `TypeChecker.Checker.CheckArguments` | src/type/type-checker.cc:337-345 | the arguments of a call are looked at only while there is no error, which changes no verdict |
| `TypeChecker.Checker.CheckFor` | src/type/type-checker.cc:417-439 | the index is read-only in the body only, and is taken out again |
| `TypeChecker.Checker.CheckScope` | src/type/type-checker.cc:441-451 | the same through declarations |
| `TypeChecker.Checker.CheckDecs` | src/type/type-checker.cc:470-488 | the same through the bodies of functions, whose formals are not read-only |
| `ScopedMap.Get` | lib/misc/scoped-map.hxx:54-67 | the innermost scope that holds the key wins |
| `ScopedMap.BeginFlattens` | lib/misc/scoped-map.hxx:28-33 | opening a scope changes no lookup |
| `ScopedMap.PutFlattens` | lib/misc/scoped-map.hxx:46-52 | an entry changes the lookup of its key and no other |
| `Binder.Binder.constructor` | src/bind/binder.cc:23-32 | nothing is in scope |
| `Binder.Binder.Visit` | src/bind/binder.cc:46-298 | every visit restores all stacks, and writes the links and counts that the environment-passing resolver computes |
| `Binder.Binder.VisitVarUse` | src/bind/binder.cc:116-130 | linked to the innermost declaration, or one undeclared-name error |
| `Binder.Binder.VisitTypeUse` | src/bind/binder.cc:96-114 | the same for type names, `int` and `string` apart |
| `Binder.Binder.VisitCall` | src/bind/binder.cc:76-94 | the name, then the arguments |
| `Binder.Binder.VisitBreak` | src/bind/binder.cc:46-74 | linked to the top of the loop stack, or refused |
| `Binder.Binder.VisitLet` | src/bind/binder.cc:188-199 | scopes are opened and closed around it |
| `Binder.Binder.VisitFor` | src/bind/binder.cc:201-215 | index in scope of its bounds, loop on the stack during the visit |
| `Binder.Binder.VisitWhile` | src/bind/binder.cc:217-230 | loop on the stack during the visit |
| `Binder.Binder.VisitVarDec` | src/bind/binder.cc:172-186 | the variable is in scope of its own initialiser |
| `Binder.Binder.VisitScope` | src/bind/binder.cc:188-199 | each chunk in the scope of those before it; only innermost scopes change |
| `Binder.Binder.VisitFunctionChunk` | src/bind/binder.cc:255-276 | all functions of a chunk are in scope of all its bodies, and repeated names are counted |
| `Binder.Binder.VisitDec` | src/bind/binder.cc:132-160 | a function enters the scope of its chunk before its body |
| `Binder.Binder.VisitRoutine` | src/bind/binder.cc:132-160 | formals, result and body in scopes of their own |
| `Binder.Binder.CountRepeatedFormals` | src/bind/binder.cc:278-298 | as many errors as the specification counts, by one pass with a set of names seen |
| `Binder.Binder.VisitTypeChunk` | src/bind/binder.cc:232-253 | all types of a chunk are in scope of all its bodies, and repeated names are counted |
| `Binding.ResolveLinks` | src/bind/binder.cc:76-298 | every use is linked to the declaration in scope and no other, every bound break to the innermost loop, and nodes outside are left alone |
| `Binding.UndeclaredExact` | src/bind/binder.cc:76-130 | as many undeclared-name errors as there are uses of names not in scope |
| `BindErrors.RepeatedFormalsExact` | src/bind/binder.cc:278-298 | one error for each position in a list of formals whose name occurs before; none if and only if all names differ |
| `BindErrors.RepeatsExact` | src/bind/binder.cc:255-276 | the same for the functions of a chunk |
| `BindErrors.RepeatedTypesExact` | src/bind/binder.cc:232-253 | the same for the types of a chunk |
| `BindErrors.RedeclaredExact` | src/bind/binder.cc:132-298 | as many redeclaration errors as there are declarations that repeat a name of their chunk or list, and functions `_main` after the first, anywhere in the tree |
| `BindErrors.RefusedExact` | src/bind/binder.cc:46-74 | exactly the breaks without a target are refused: those outside loops, and those under a flag that nothing before them has cleared |
| `BindErrors.BreaksExact` | src/bind/binder.cc:46-74 | every other break is linked to the innermost loop |
| `BindErrors.FirstEntered` | src/bind/binder.cc:255-276 | while a chunk is visited the first function of each name is in scope, and all other names are as before |
| `BindErrors.LastStays` | src/bind/binder.cc:132-160 | after a chunk the last function of each name is in scope |
| `BindErrors.FirstTypeEntered` | src/bind/binder.cc:232-253 | the first type of each name is in scope of all bodies of its chunk |
| `BindErrors.LastTypeStays` | src/bind/binder.cc:162-170 | after a chunk the last type of each name is in scope |
| `BindErrors.LastFormalStays` | src/bind/binder.cc:132-160 | in a body a name denotes the last formal of that name |
| `Renaming.NewNameInjective` | src/bind/renamer.cc:17-47 | the counter can be read off a new name, so new names differ |
| `Renaming.NewNameUnlike` | src/bind/renamer.cc:17-47 | a new name is neither a built-in type, nor `_main`, nor an inserted variable, nor the old name |
| `Renaming.NewNameForm` | src/bind/renamer.cc:40-47 | a new name is the old one, an underscore and the counter |
| `Renaming.DecimalValue` | src/bind/renamer.cc:40-47 | the counter is written in base 10, without leading zeros |
| `Renaming.DeclareUnique` | src/bind/renamer.cc:40-47 | renaming one more declaration keeps all names distinct |
| `Renaming.Renamer.SetDecName` | src/bind/renamer.cc:31-47 | the declaration gets a name no other has |
| `Renaming.Renamer.SetUseName` | src/bind/renamer.cc:49-76 | the use gets the name that its definition has at that moment |
| `Renaming.Renamer.Visit` | src/bind/renamer.cc:17-76 | what the walk writes into all nodes, in the order of the walk |
| `Renaming.Renamer.VisitDec` | src/bind/renamer.cc:17-29 | primitives and `_main` keep their names |
| `Rebinding.RenameFolds` | src/bind/renamer.cc:17-76 | the renamer is a fold over the declarations and uses in the order it meets them |
| `Rebinding.CarriedExactly` | src/bind/renamer.cc:49-76 | exactly the uses that come after the renaming of their definition carry its final name |
| `RenameBack.NamesBack` | src/bind/renamer.cc:17-76 | renaming changes names and nothing else: writing the old names again gives back the tree |
| `RenameBind.FinalNames` | src/bind/renamer.cc:17-76 | what was written for all declarations met is distinct, each made from its old name, and uses were written after them |
| `RenamedDecs.RenamedExactly` | src/bind/renamer.cc:17-47 | exactly the variables, indices, formals, types, and functions that have a body and are not called `_main` are renamed, each after its old name; in the renamed tree their names are all different, and every other function keeps its name |
| `RenameBind.UsesFollowDefinitions` | src/bind/renamer.cc:49-76 | every use carries the final name of its definition if and only if no use comes before the renaming of its definition |
| `RenameBind.RenameThenBind` | src/bind/renamer.cc:17-76 | binding a renamed tree again gives the same links, error counts and flags |
| `RenameBind.Rebind` | src/bind/binder.cc:76-298 | the same for every expression in scopes that follow each other |
| `RenameBind.ForwardCallKeepsOldName` | src/bind/renamer.cc:49-58 | a call of a later function of the chunk keeps the old name, which nothing has any more |
| `RenamedNames.RenamedApart` | src/bind/renamer.cc:17-76 | no variable of a renamed tree is called `_lo` or `_hi`, whatever the user wrote |
| `RenameSim.RenamePreserves` | src/bind/renamer.cc:17-76 | a renamed program has the outcome, trace and divergence of the program, at every amount of fuel |
| `RenameSim.Preserves` | src/bind/renamer.cc:17-76 | the same for every expression in environments that differ in names only |
| `Types.NamedTypes.IsSound` | src/type/named.cc:38-50 | the loop with a list of visited names answers whether the chain of names ends |
| `Types.NamedTypes.VisitHeaders` | src/type/type-checker.cc:611-621 | names without bodies |
| `Types.NamedTypes.VisitBody` | src/type/type-checker.cc:623-634 | an error, and Void for a body, exactly for the last name of a declared cycle |
| `Types.NamedTypes.DeclareChunk` | src/type/type-checker.cc:640-647 | afterwards no chain of names is cyclic; every name keeps its declared body except the last of each cycle, which is Void; one error for each |
| `Types.OneLast` | src/type/type-checker.cc:623-634 | a cycle has at most one last name |
| `Types.SomeLast` | src/type/type-checker.cc:623-634 | a cycle has a last name |
| `Types.ClosesLoops` | src/type/named.cc:38-50 | the check fails at the last name of a cycle |
| `Types.LoopsClose` | src/type/named.cc:38-50 | the check fails only at the last name of a cycle |
| `Compatibility.CompatibleExact` | src/type/named.cc:52-56 | two types are compatible exactly when their actual types are the same and not nil, or one is nil and the other a record |
| `Compatibility.CompatibleSymmetric` | src/type/record.cc:41-44 | compatibility is symmetric although each class tests it in its own way |
| `Compatibility.CompatibleThroughNames` | src/type/named.hxx:20-24 | any number of names may stand between |
| `Compatibility.ActualUnique` | src/type/named.hxx:20-24 | a chain of names leads to one actual type only |
| `Compatibility.SettledActual` | src/type/type-checker.cc:640-647 | after a checked chunk no chain of names ends in a missing body |
| `Compatibility.FieldIndex` | src/type/record.cc:28-38 | the position of the first field of that name, or -1 if there is none |
| `Compatibility.FieldType` | src/type/record.cc:20-26 | the type of the first field of that name, if any |
| `LlvmTypes.LLVMTypeVisitor.Translate` | src/llvmtranslate/llvm-type-visitor.cc:24-28 | afterwards exactly the records reachable from the type, and those there before, have a struct, each one, and every struct its body, field by field |
| `LlvmTypes.LLVMTypeVisitor.VisitType` | src/llvmtranslate/llvm-type-visitor.cc:30-96 | the visit of a type that ends gives the memo and the type of the fuelled specification |
| `LlvmTypes.LLVMTypeVisitor.VisitRecord` | src/llvmtranslate/llvm-type-visitor.cc:64-88 | the empty struct is entered before the fields are visited, so recursion ends |
| `LlvmTypes.LLVMTypeVisitor.VisitAll` | src/llvmtranslate/llvm-type-visitor.cc:78-82 | one translated type for each field, in order |
| `LlvmTypes.VisitAdds` | src/llvmtranslate/llvm-type-visitor.cc:64-96 | a visit that ends adds structs only for records it can reach through records without one, each with its body |
| `LlvmTypes.EndsExactly` | src/llvmtranslate/llvm-type-visitor.cc:57-96 | a visit ends if and only if no cycle of types without a record is reachable through records that have no struct yet |
| `LlvmTypes.AllEndExactly` | src/llvmtranslate/llvm-type-visitor.cc:57-96 | all visits of a program end if and only if every cycle of its types passes through a record |
| `LlvmTypes.ArrayOfItselfNeverEnds` | src/llvmtranslate/llvm-type-visitor.cc:90-96 | `type a = array of a` passes the check of the type checker, but its visit ends with no amount of fuel |
| `Tasks.SplitDependencies` | src/task/task.cc:23-32 | the loop over the dependency string gives its normalised pieces |
| `Tasks.SplitJoins` | src/task/task.cc:23-32 | the pieces joined again are the string, without the space at its end if it has one |
| `Tasks.JoinSplits` | src/task/task.cc:23-32 | names joined by spaces are found again |
| `Tasks.PiecesPlain` | src/task/task.cc:23-32 | no name found in a list of dependencies has a space in it |
| `Tasks.NormalizeAlike` | src/task/task.cc:59-66 | two spellings name the same task if and only if they differ in underscores for dashes only |
| `Tasks.NormalSame` | src/task/task.cc:59-66 | exactly the names without underscores are left as they are |
| `Tasks.MakeTask` | src/task/task.cc:14-42 | name, full name with the short option, and dependencies |
| `Scheduling.TaskRegister.RegisterTask` | src/task/task-register.cc:75-96 | the first task of a name is kept, a second one is an error |
| `Scheduling.TaskRegister.EnableTask` | src/task/task-register.cc:98-113 | a request that ends does to order and errors what the fuelled specification says |
| `Scheduling.TaskRegister.ResolveDependencies` | src/task/task-register.cc:118-149 | the same for the missing dependencies of a task: all for an ordinary one, at most one for a disjunctive one |
| `Scheduling.TaskRegister.FindEnabled` | src/task/task-register.cc:118-137 | the dependencies already in the order, in their order, and one error for each unknown one |
| `Scheduling.TaskRegister.EnableAll` | src/task/task-register.cc:98-149 | after any requests that end: every occurrence of a task follows what it needs, only needed tasks are there, requested ones are, and, where no way comes back, none more than once more often than requested |
| `Scheduling.EndsExactly` | src/task/task-register.cc:107-111 | without disjunctive tasks a request ends if and only if no way of dependencies from it, among tasks not in the order yet, comes back |
| `Scheduling.EachEndsExactly` | src/task/task-register.cc:107-111 | the same for any sequence of requests |
| `Scheduling.ClearEnds` | src/task/disjunctive-task.cc:23-30 | with disjunctive tasks as well, a request ends if no way of followed dependencies comes back |
| `Scheduling.Trapped` | src/task/task-register.cc:98-149 | a request that ends enables none of a set of ordinary tasks each of which depends on another of them |
| `Scheduling.EnableGrants` | src/task/task-register.cc:98-149 | a request that ends enables the task last, after what it needs, and before it only tasks it leads to |
| `Scheduling.EnableOnce` | src/task/task-register.cc:139-148 | where no way comes back, each task added is new, and added once |
| `Scheduling.DisjunctiveExactly` | src/task/disjunctive-task.cc:23-30 | a disjunctive task adds nothing but itself once one of its dependencies is there; otherwise it asks for the first and for no other |
| `Scheduling.FollowedExactly` | src/task/disjunctive-task.cc:23-30 | what may be followed is exactly what a task asks for when nothing is there yet |
| `Scheduling.ErrorsExactly` | src/task/task-register.cc:98-137 | a request that ends reports the unknown dependencies of every task it adds, each time it adds it, and nothing else |
| `Scheduling.MutualNeverEnds` | src/task/task-register.cc:107-111 | a request for one of two tasks that need each other ends with no amount of fuel |
| `Scheduling.AlternativeEnds` | src/task/disjunctive-task.cc:23-30 | a cycle through a later alternative is not followed: the request ends |
| `Scheduling.BrokenCycleRepeats` | src/task/disjunctive-task.cc:23-30 | a way that comes back may still end, but then executes tasks twice |
| `Timer.Conservation` | lib/misc/timer.cc:163-191 | over any run, what was charged, plus the interval of the running top, plus the gaps between readings, is the time during which the stack was not empty |
| `Timer.OneReading` | lib/misc/timer.cc:163-191 | with one clock reading for each operation there are no gaps |
| `Timer.StepTotal` | lib/misc/timer.cc:163-191 | one operation charges the interval of the old top and nothing else, also when a task is nested in itself |
| `Timer.EachTask` | lib/misc/timer.cc:163-191 | over any run each task is charged for exactly the time during which it was on top, and keeps its first start and its last stop |
| `Timer.Timer.PushTask` | lib/misc/timer.cc:163-178 | the old top is stopped, a new or existing entry is started on top |
| `Timer.Timer.PopTask` | lib/misc/timer.cc:180-191 | the top is stopped and removed, the one below started |
| `Timer.Timer.StopVar` | lib/misc/timer.cc:38-48 | the interval since `begin` goes to `elapsed` |
| `Timer.Timer.StartVar` | lib/misc/timer.cc:23-36 | `begin` is now, and `first` is kept from the first start |
| `EscapeText.RoundTrip` | lib/misc/escape.cc:20-58 | a decoder of backslash letters and three octal digits gives back every byte string |
| `EscapeText.Injective` | lib/misc/escape.cc:20-58 | distinct strings have distinct escaped forms |
| `EscapeText.AllPrintable` | lib/misc/escape.cc:41-53 | only printable characters are written |
| `EscapeText.ByteForms` | lib/misc/escape.cc:43-52 | printable bytes other than the backslash and the quote stand for themselves and no others do; eight bytes have a letter; the rest take four bytes |
| `EscapeText.PadOctal` | lib/misc/escape.cc:50-51 | the number written in base 8, width 3, filled with zeros, is three octal digits for every byte |
| `EscapeText.DigitsMean` | lib/misc/escape.cc:50-51 | numbers are written in the base of the stream, without leading zeros |
| `EscapeText.OStream.PutNumber` | lib/misc/escape.cc:50-51 | digits in the base of the stream, filled on the left |
| `EscapeText.OStream.PutByte` | lib/misc/escape.cc:43-52 | one byte escaped, by the table, as it stands or in octal |
| `EscapeText.OStream.PutEscaped` | lib/misc/escape.cc:20-58 | the escaped string is written and the flags and fill of the stream are put back |

## Left out

- LowerMain.CompiledCorrectly: says nothing of source runs that are `Undefined`, whose code may do anything; `_main` has no formals and is not called.
- LowerForever.ForeverTogether: that both run forever, not that they call the same primitives meanwhile.
- LowerSim.Sim: covers integers, variables, operators, sequences, assignments, `if`, `while`, `break`, calls and declarations; not nil, strings, records, arrays and casts.
- LowerSim.SimVar: the type of a variable is an integer; void variables, which have no cell, are not modelled.
- LowerSim.SimIf: results are integers or nothing; pointer results and their null default are not modelled.
- LowerSim.SimVarDec: integer variables only.
- Translation.Translator.constructor: the entry block of `_main` is there from the start, where the code makes it when it visits the body.
- Translation.Translator.Access: the search through other functions goes in the order of their headers, where the code goes in the order of a map keyed by addresses; for the variables that are looked up so, all answers are the same global.
- Translation.Translator.VisitCall: a callee is known by its declaration, where the code looks up its name in the module.
- Legality.PassesEstablish: of the type checker it takes what `Legality.Checked` says as given: values where they are needed, no variable in its own initialiser, results of functions; that the type checker refuses every other tree is not modelled.
- Escapes.CollectEscapes: `is_escapable` is an arbitrary input; what the pass that sets it computes is not modelled. `Lifting.Flagged` is what the translator needs of it.
- Lifting.CollectorServesTranslator: the order of a header's lifted variables is arbitrary but fixed; in the code it is the order of the set.
- Refolding.RefoldDesugar: asks that no index of a `for` has a type name, for which the grammar has no place.
- DesugarSim.DesugarCorrect: string comparisons are not desugared; the tree is built directly, where the code prints it and parses it again.
- DesugarSim.UserLoIsCaptured: about the visitor alone; the tasks of the compiler rename first.
- Binding.ResolveLinks: of a break it says only that if it is bound then to the innermost loop; `BindErrors.BreaksExact` says which are bound.
- RenameBind.RenameThenBind: needs a bound tree without repeated or unbound names and without forward uses, in which no primitive is called like a new name; `RenameSim.RenamePreserves` needs the same.
- Scheduling.EndsExactly: with disjunctive tasks the condition is sufficient only (`Scheduling.ClearEnds`), as `Scheduling.BrokenCycleRepeats` shows.
- Scheduling.TaskRegister.EnableTask: error texts, option parsing and modules are left out.
- Timer.Timer.PushTask: a task is an entry of a map, where the code shares a pointer between the map and the stack; merging and printing timers are left out. Clock readings are inputs.
- EscapeText.OStream.PutByte: bytes from 128 on are not printable, as in the C locale.
- LlvmTypes.LLVMTypeVisitor.Translate: classes and functions as types are left out.
- TypeChecker.Checker.Check: only the rule about the index of a `for`; errors of the other rules of the type checker, which would also stop the visit of arguments, are not modelled.
- TypeChecker.Checker.CheckFor: only that rule; the integer and void checks of a `for` are left out.
- TypeChecker.Checker.CheckScope: only that rule.
- TypeChecker.Checker.CheckDecs: only that rule.
- LLVM itself: blocks, registers, cells and calls are an abstract machine with unbounded registers; attributes, linkage and verification are not part of this model.
- Allocation is abstract: a slot is a cell named by the activation and the declaration, always present.
- The scanner, the parser, the pretty-printer, imports and the round trip of trees through text.
- The object extension, and the rest of the type checker, escape analysis and run-time library.
- Source locations, error texts and the ownership of nodes.
