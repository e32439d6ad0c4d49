# Valor: moving suspended coroutines between processes

Valor lets a suspended C++ coroutine continue in another process. A source tool, *valet*, rewrites the
coroutine so that it saves its live locals before each `co_await` and can jump back in later; a header,
`valor.h`, gives the promise and handle that carry the saved state. This project models the rewriting, the
promise protocol and the machine on which rewritten coroutines run, and proves that a coroutine which is
suspended, serialized, rebuilt from scratch elsewhere and continued behaves like the original run that was
never interrupted.

## What is modelled

**Language and machine** (`Language.dfy`). A block-structured coroutine language: declarations, assignments,
outputs, blocks, `if`, `while`, awaits (discarding their result, declaring a variable with it, or assigning
it) and return. Locals are frame slots, outermost first; a slot may be uninitialized, and reading such a slot,
or a name out of scope, is a fault. Code pending in each open compound forms a stack. The same machine runs
the code a user writes and the rewritten code, which also has a dispatch over the jump table, `save`,
`resize`, labels, `load`, and the await that takes a supplied result. A computed goto (`Find`, `Jump`) rebuilds
the continuation of a label inside nested compounds, running loop heads again, and leaves the slots of skipped
declarations uninitialized. A world gives the answers of the awaits and says at which suspensions the
coroutine is moved instead of being resumed in place. Function bodies whose branches are unbraced are written
with the braces added; an await is always a whole statement directly inside a compound. `Runs.dfy` has rules for
running a program move by move.

**Meaning** (`Meaning.dfy`, `Countdown.dfy`). A second semantics for what users write: an evaluator over the
structure of the code, with nested scopes of named variables and fuel for loops, which shares no step, stack or frame
with the machine. Runs of the machine end as it says, and so do rewritten and moved runs. A countdown with a loop
and a branch goes through it.

**Two schemes** (`Rewrite.dfy`). *Emitted* is what valet produces (save, await, label, load). *Carrying* is the
hand-written form of `valor.cc` (save, resize, label, load, and an await skipped when a result was supplied).
`HandForm.dfy` shows that the hand-written coroutine is literally the carrying rewriting of its source.

**Simulation** (`Points.dfy`, `Restore.dfy`, `Simulation.dfy`, `Transparency.dfy`). The original run and the
rewritten run are related through every phase of an await, in place or moved. Consequences for whole runs,
ending or not, are in `Transparency.dfy`; `Safety.dfy` adds that well-scoped programs never fault, and
`Limits.dfy` the exact conditions under which locals come back.

**Matching** (`Scopes.dfy`, `Collector.dfy`). Which variables are saved at an await, decided from offsets and
enclosing compounds, and the callback as a class that collects stages from deliveries in any order.

**Rewriting a text** (`Buffer.dfy`, `Text.dfy`, `TextRewrite.dfy`, `Emit.dfy`, `Layout.dfy`, `Relabel.dfy`,
`Patch.dfy`). The source is a text of tokens with blanks (white space, line breaks, comments) anywhere between
them, and offsets count blanks, so that one statement ends where another begins only if nothing stands between
the two. Pieces are inserted at such offsets, and the tokens of the result are compared with those of the
rewritten code.

**The tool from end to end** (`Parse.dfy`, `Erasure.dfy`, `Tool.dfy`). A reader of tokens gives the code that a
compiler sees in the emitted text; what code does does not depend on its offsets; so what the emitted text does
can be compared with what the source text does.

**Strings and line numbers** (`Lines.dfy`, `Strings.dfy`). A reader of `#line` directives (ISO/IEC 14882:2020,
section 15.7), and the exact strings valet inserts for all functions of a file, in verbose and quiet mode.

**Reading the strings** (`Reader.dfy`, `Reading.dfy`, `ReadingPreamble.dfy`, `Insertions.dfy`). A reader that takes an
inserted text apart row by row at its separators, without the functions that built it, and tells which tokens it
stands for. Every inserted string says the tokens that the rewriting inserts, at its place. Offsets are
those of characters here. Variable names are identifiers, and a coroutine type is written on one line without a
semicolon.

**Protocol and ownership** (`Wire.dfy`, `Protocol.dfy`, `Ownership.dfy`). The serialized state, the promise and
handle as classes with mutable fields, whose methods execute the machine's steps, and the books of frame
ownership over any sequence of handle operations.

**Smaller algorithms** (`TypeWalk.dfy`, `Switching.dfy`). The walk over a possibly cyclic graph of record types,
and the two cooperating counters as coroutines and as fibers.

**What goes wrong** (`Failures.dfy`, `Touching.dfy`). Concrete coroutines, deliveries and sources on which a
condition is not met.

The rewritten code is assumed to be compiled with the given semantics, awaits are assumed to leave locals alone
(documented in the repository's README), and text inserted at an offset goes after what was inserted there before.

## What must hold of the source, and what happens otherwise

- No local in scope shadows another. `Limits.ShadowedLocalsAreLost`: a rebuilt frame comes back whole exactly if every
  hidden slot is that of a parameter holding the default value. `Failures.ShadowingChangesRun`: a coroutine that, moved
  while a local shadows its parameter, shows 0 in place of its argument.
- Each hop supplies a result. `Limits.HopNeedsResult`: the locals come back exactly then, unless the frame already
  equals the freshly rebuilt one. `HandForm.KNeedsResult`: the repository's `k`, continued without a result, loses `j`
  and faults.
- A hop starts after a save. `Limits.HopBeforeSaveRestarts`: otherwise the coroutine restarts on default arguments.
- At most 65535 stages. `Wire.StateRoundTrip`: a stage number survives exactly up to there, and a positive multiple
  of 65536 reads as "nothing saved".
- Of two awaits whose statements touch, the first is delivered first. `Tool.Process`: the emitted tokens are right
  exactly then. `Touching.WrongIfTouching`: delivered backwards, two awaits in a row are in the wrong order exactly if
  there is nothing between their statements, and `Touching.WrongOrderLosesState`: the state then goes stale, and a
  coroutine moved twice asks the second await again and never ends as its source.
- The source does not renumber the lines at which text is inserted. `Strings.ToolPreservesLines`: line numbers are
  preserved exactly then. `Strings.RenumberedIsLost`: a source whose await moves from line 9 to line 2.
- A record walk meets only records. `TypeWalk.Walker.Walk`: it completes exactly then.
- Handles are moved between distinct objects, and only owners are started. `Ownership.SelfMoveLeaks`,
  `Ownership.StartNeedsOwner`: ownership stays single exactly then.

## Model

| member | source | states |
|---|---|---|
| Transparency.MigrationTransparent | valet.h:135-191 | at every moment of a run moved at any suspensions, the original has shown the same outputs and await events after between an eighth as many and as many moves; each has ended, with the same result, exactly if the other has; suspended together, their locals are equal |
| Transparency.SameOutcome | valet.h:135-191 | the moved run ends with a result (or fault) and a trace exactly if the unmoved original run does |
| Transparency.SameEvents | valet.h:135-191 | for runs that need not end: every event of one is eventually an event of the other, in the same order, with explicit bounds |
| Transparency.SchemesAgree | valor.cc:46-84 | on bodies whose awaits discard their results, emitted and value-carrying forms end alike wherever each is moved |
| Transparency.StateInSync | valor.h:104-122 | at every suspension, in started and rebuilt frames alike, the state names the stage of that await and holds the current values of exactly the locals in scope |
| Transparency.ResultsUsedOnce | valor.cc:57-64 | each hop makes exactly its own await be bypassed, once; at every suspension and at the end the bypassed awaits are exactly those hopped at, in order |
| Transparency.LocalLoadIsIdentity | valor.h:88-122 | resumed in place, emitted code reaches its label and a load that fires, because the awaiter is stored, and changes no local |
| Tool.ToolTransparent | valet.h:109-191 | the text the tool emits, compiled, called and moved anywhere, ends as the compiled source text does, if touching awaits were delivered in source order |
| Tool.Process | valet.h:109-161 | matching and rewriting together emit exactly the tokens of the rewritten body, if and only if of two awaits whose statements touch the first was delivered first |
| Tool.OrderOfTable | valet.h:109-156 | the stage table is in source order at shared offsets if and only if the deliveries were |
| Touching.WrongIfTouching | valet.h:146-156 | two awaits in a row delivered backwards are in the wrong order if and only if nothing stands between their statements |
| Touching.WrongOrderLosesState | valet.h:146-156 | touching awaits delivered backwards give code in which the state at the second await names the first; moved twice it never ends as its source |
| Touching.SeparatedIsRight | valet.h:146-156 | separated awaits delivered backwards give the tokens of the rewritten body |
| Simulation.KeepsRelated | valet.h:135-191 | the relation between original and rewritten run holds after any number of moves, the original not being left behind |
| Simulation.SimulationStep | valet.h:146-191 | one move of the rewritten coroutine is matched by at most one of the original, and only boundedly often by none |
| Simulation.DispatchStep | valet.h:162-180 | in a rebuilt coroutine, dispatch lands at the label of the saved stage, in the right compounds, with the right names in scope |
| Simulation.LoadStep | valor.h:115-122 | behind the label, the load makes the locals equal to those of the suspended original, whatever the rebuilt frame held |
| Simulation.AskStep | valor.cc:57-64 | without a supplied result, the rewritten await suspends exactly when, and with the event, the original does |
| Meaning.RunsAsMeant | valet.h:135-161 | where the evaluator comes to an end, the machine's run of the user's code ends in the same way, with the same events and values; where its fuel does not suffice, the run is still going on, having shown the same events |
| Meaning.EndsAsMeant | valet.h:135-161 | where the machine's run ends, the evaluator does, in the same way, with as much fuel as the run has moves |
| Meaning.MovedAsMeant | valet.h:135-191 | the rewritten coroutine, moved at any suspensions, ends with a result (or fault) and events if and only if the evaluator says so of the user's code |
| Countdown.CountsDown | valet.h:109-191 | a loop with a branch and an await, called with any number, with the stages collected for it and moved anywhere, shows exactly the expected events and ends |
| Safety.SavedSetsSuffice | valet.h:112-115 | a well-scoped program never reads a local that was neither loaded nor declared since its frame was rebuilt |
| Safety.SafeStep | valet.h:112-115 | scoping and initialization are kept by every step of user code |
| Rewrite.JumpTable | valet.h:162-180 | n stages give n + 1 distinct entries, entry i the label behind which stage i's await continues |
| Rewrite.FindLabel | valet.h:181-191 | a label stands in the rewritten code exactly where its await stands in the original, in the same compounds and scope |
| Restore.LoadRestores | valor.h:113-122 | loading what was saved, in any variable order, turns any frame with the same names into the saved frame |
| Restore.LoadWrites | valor.h:115-122 | a load writes the listed variables with the saved values in order, and nothing else |
| Restore.SaveSucceeds | valor.h:113-113 | initialized locals can all be saved, and what is saved are their values in order |
| Limits.ShadowedLocalsAreLost | valet.h:148-149 | saving by name alone, the rebuilt frame comes back whole if and only if every hidden slot is a parameter holding the default value |
| Failures.ShadowingChangesRun | valet.h:148-149 | a coroutine, well-formed but for a local shadowing its parameter, with the table collected for it, shows 0 in place of its argument once moved |
| Limits.HopNeedsResult | valor.h:115-117 | after dispatch, label and load the locals are back if and only if a result was supplied or the rebuilt frame was equal already |
| Limits.HopBeforeSaveRestarts | valor.h:104-112 | continued from an empty state, the coroutine runs as its original on default arguments |
| Wire.StateRoundTrip | valor.h:104-122 | at every arity the values come back; the stage number does if and only if it fits 16 bits |
| HandForm.KIsRewriting | valor.cc:45-84 | the hand-written coroutine is exactly the value-carrying rewriting of its source with two stages |
| HandForm.KOk | valor.cc:57-77 | its stages list exactly the variables in scope at the two awaits |
| HandForm.KMigrates | valor.cc:86-104 | for any argument, answers and amounts of work on its two variables, moved or not at either suspension, it returns 14 with its source's trace, the first result going into `j` |
| HandForm.KNeedsResult | valor.cc:95-97 | continued from its second suspension without a result, nothing is loaded although the state holds both values, and the run faults |
| Scopes.SavesIsLexical | valet.h:109-116 | the test by offset and enclosing compounds selects exactly the parameters, the locals declared earlier in compounds around the await, and the local the await itself initializes |
| Scopes.ChosenIsListed | valet.h:193-211 | the same for the rest of any compound, by nearest compound and compounds around |
| Scopes.FindNames | valet.h:112-115 | the names in scope at an await in the semantics are those on entry and the visible locals, in order |
| Collector.CollectedExactly | valet.h:109-116 | whatever the order of deliveries, one record per await, its scope, and each passing variable as often as it was delivered with it |
| Collector.CollectedInOrder | valet.h:193-203 | records stand in the order in which their awaits were first delivered |
| Collector.ListedAsDelivered | valet.h:109-116 | each record lists exactly the variables that were delivered with its await and pass the scope test, in the order of their delivery |
| Collector.EarlierListed | valet.h:112-115 | of two variables delivered once with an await, one is listed before the other if and only if it was delivered before it |
| Collector.TableFromAnyOrder | valet.h:109-116 | when each pairing is delivered once, the collected table has one stage per await listing exactly the lexical environment there |
| Collector.Valet.EnsureStageFor | valet.h:193-203 | finds the record of an await, or appends an empty one with its enclosing compounds |
| Collector.Valet.Run | valet.h:109-116 | one callback finds or appends the record of its own await, puts its variable behind those already there if it passes the test, and changes nothing else |
| Collector.Valet.RunAll | valet.h:109-116 | after all callbacks the collected records are those specified |
| Buffer.InsertAt | valet.h:144-156 | inserting at the offset shifted by earlier insertions is inserting at the original offset, after earlier pieces there |
| Buffer.RewriteBuffer.Insert | valet.h:144-156 | the edited text is the original with all pieces at their original offsets |
| Buffer.OnlyInserts | valet.h:135-160 | deleting the inserted pieces gives back the original text |
| Layout.BareDetermines | valet.h:144-156 | insertions of equal sizes give the same tokens if and only if the pieces agree at every offset |
| Text.SemiAfter | valet.h:216-233 | finds the first semicolon after a token, with the distance to the end of the text as measure |
| Layout.OrderMatters | valet.h:146-156 | the visiting order gives loads before saves if and only if stages at shared offsets were visited in source order |
| Layout.BlanksDoNotMatter | valet.h:135-160 | with loads before saves, the tokens of the rewritten text are those of the rewritten tokens, wherever there are blanks |
| TextRewrite.MidIsCode | valet.h:135-160 | the pieces around the awaits of any code make it the text of the rewritten code |
| Patch.InsertionsAreRewriting | valet.h:135-160 | the insertions into a text with blanks give exactly the tokens of the rewritten body with its preamble if and only if stages at shared offsets were visited in source order |
| Emit.SemiEndsAwait | valet.h:216-233 | from any token of an await before it, the search finds the semicolon of that very statement |
| Patch.EndOfAwait | valet.h:216-233 | in a text with blanks, the search from an await finds the semicolon that ends its statement |
| Patch.RewriteBody | valet.h:135-161 | the loop over stages makes exactly these insertions |
| Lines.LinesPreserved | valet.h:142-156 | in the rewritten text every original character keeps its line number if and only if every insertion bears the number of the character it precedes |
| Lines.StampSets | valet.h:178-190 | whatever was read before, behind a piece ending in a line directive a new line begins with the given number |
| Strings.ToolPreservesLines | valet.h:137-191 | for all functions of a file, in verbose and quiet mode, the rewritten text keeps all line numbers if and only if the source does not renumber the lines of the insertions; which text goes where is Insertions.ToolStampsAreEdits |
| Strings.PlainSourceKeepsLines | valet.h:137-191 | from a source whose lines are no line directives, every character is attributed to its physical line |
| Strings.RenumberedIsLost | valet.h:142-156 | in a source that says "#line 9", the await on line 9 is attributed to line 2 afterwards |
| Strings.Preamble | valet.h:162-180 | the entry-by-entry loop builds the specified preamble text |
| ReadingPreamble.PreambleRead | valet.h:162-180 | the preamble, read row by row, takes the promise's stage through a table to a label; entry 0 is the start label and entry i is label i, up to the number of stages; then the start label stands there |
| Reading.SaveRead | valet.h:181-186 | the save string reads as one call of `save` with the stage number and then exactly the variables, in order |
| Reading.LoadRead | valet.h:187-191 | the load string reads as the label of the stage and one call of `load` with exactly the variables, in order |
| Insertions.StampsAreEdits | valet.h:142-156 | the strings inserted into a function say, in order, what the rewriting inserts: the preamble behind the brace, then for each stage its save at the await and its load behind the semicolon |
| Insertions.ToolStampsAreEdits | valet.h:137-158 | and so for all functions of a file, those of each function standing together |
| Protocol.Frame.Save | valor.h:113-113 | leaves the state that reads back as the values, and as the stage if and only if it fits |
| Protocol.Frame.Load | valor.h:115-122 | writes the saved values in order if the vector is non-empty, and nothing otherwise |
| Protocol.Frame.Advance | valor.h:88-122 | one step of the body, with dispatch, save, resize, load, suspension and the ternary done by the promise, is the machine's step; what the machine does with user code is Meaning.RunsAsMeant |
| Protocol.SerCtx.MoveAssign | valor.h:37-37 | copies the handle and moves ownership; assigned to itself, an object ends without ownership |
| Protocol.SerCtx.Call | valor.h:44-44 | begins or resumes an unfinished coroutine and runs it to its next suspension or its end; leaves a finished one alone |
| Protocol.Start | valor.h:127-131 | runs the body of an unfinished coroutine to its first suspension, does nothing to a finished or empty one, and returns a new owning handle |
| Protocol.Continue | valor.h:145-151 | runs from a fresh frame on default arguments with the given state and results, as the machine's hop has it, to the next suspension or the end |
| Protocol.MoveElsewhere | valor.cc:86-98 | serializing and continuing runs from the machine's hop, but for its history |
| Protocol.RunToEnd | valor.cc:99-103 | calling the coroutine while it is unfinished reaches the end of the machine's run |
| Ownership.OwnershipConserved | valor.h:30-38 | from nothing, over any run of proper operations, every created frame is owned, destroyed or lost to an overwriting move, exactly one of these and once |
| Ownership.BalanceStep | valor.h:35-38 | each operation keeps the books of every frame |
| Ownership.SelfMoveLeaks | valor.h:37-38 | after any proper run, moving an object onto itself keeps the books if and only if it owns nothing |
| Ownership.StartNeedsOwner | valor.h:127-131 | after any proper run, starting keeps ownership single if and only if the handle is an owner or has no frame |
| Ownership.MovedFromStillRefers | valor.h:37-37 | after any proper run, an owner moved from still refers to its frame, which the other object now owns alone; to start it is improper and gives the frame two owners |
| TypeWalk.Walker.Walk | vapor/vapor.cc:142-195 | from a closed list the walk ends, adding exactly the reachable types, each once; it completes if and only if all of them are records |
| TypeWalk.Walker.WalkRec | vapor/vapor.cc:142-195 | what one call in the middle of a walk adds and keeps, with and without recursion |
| Switching.Coro2 | balor/cmp_sw.cc:53-86 | exactly n + 2 resumptions, counts n + 2 and n + 1 |
| Switching.Pair.ResumeCounter | balor/cmp_sw.cc:53-58 | one resumption counts, then finishes or records itself and runs one turn of the timer |
| Switching.Pair.ResumeTimer | balor/cmp_sw.cc:74-79 | one turn counts and decrements, and finishes exactly when the number was zero |
| Switching.AnySchedule | balor/cmp_sw.cc:8-20 | under every schedule the second fiber finishes on its turn n + 1, the first not before it and on its next turn |
| Switching.RoundRobin | balor/cmp_sw.cc:8-20 | under strict alternation both finish with n + 2 and n + 1, the counts of the coroutine version, and not a turn earlier |
| Switching.NegativeNeverEnds | balor/cmp_sw.cc:8-20 | from a negative number the second fiber never finishes |

## Left out

- Parsing, the matcher engine, diagnostics, option handling and file output of the tool: the syntax tree, the
  deliveries and ordered insertion are taken as given.
- The wire format of the serialization library: it is not part of this model; a state is a scalar or a structured value.
- Overflow of user integers and the address-dependent work on variables in `valor.cc`: integers are unbounded and the
  work on each variable adds a parameter.
- Declarations in `for` and `if` headers: the scope analysis would list them where they are out of scope (valet.h:207).
- Several awaits in one full expression, member coroutines, references, templates, lambdas, gotos in user code and
  exceptions: unsupported by the repository.
- Side effects of an awaiter when it is resumed: a hop skips them; only what an await asks is an event.
- User names beginning with `_valet_`, and the promise pointer as a local: the rewritten code only reads it.
- Line directives: a line that only looks like one, inside a block comment or a raw string, counts as one, and spliced
  lines are not joined. Offsets count tokens and blanks, not the characters of each.
- Pointer stability of the awaiter vector: elements are values in a sequence, and moved-out results stay readable.
- The type-erased `awaiter` query (valor.h:49): a stub.
- `timer` and `coro` of the switching benchmark, which by their own comment exhaust the stack.
- The layout assertions and the printing in the record walk, and the tree patching around it.
- Rewrite.RewriteCode: a carrying rewriting is modelled on code, not on text, because no tool emits it.
- Collector.TableFromAnyOrder: covers bodies whose awaits are bare statements, the only ones the emitted form fits.
- Switching.Coro2: starts from a number that is not negative; below zero the original counts until integer overflow.
