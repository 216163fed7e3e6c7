# Pons: flow analyses and protocol checkers

A model of the analysing parts of Pons and proofs of what they compute.

**The Python analyser.** A builder turns the structured body of a function into a graph
of basic blocks. It keeps a stack of frames, a set of raise targets, and one copy of each
`finally` for every way out of it. Two analyses of local variables, liveness and
may-unbound, are solved on that graph with a worklist over bitsets, replayed event by
event, and summed up by source location into the reports `dead-store` and
`read-before-init`. Runs of a function are given independently of the graph: a condition
goes either way, an iterable ends anywhere, and an exception may start before any
statement and at the end of a `try` body, of its `else` and of a handler; `try` and
`finally` follow section 8.4 of the Python Language Reference, but for the two points
below. The main results say that the walks of the graph and the runs of the function, as
it is lowered, are the same traces, that both reports are exact about these runs, in both
directions, and when these are the runs of the function as it is written.

**The PHP analyser.** Statements are compiled against the block that comes next, and a
worklist computes, for every variable, the request lines its value may come from and the
output contexts it is not safe for. The compiled graph spells exactly the runs, and a flow
is reported just when some run carries the line to the sink. A unit is given up exactly
when it is not modelled or a budget is exhausted, with the error that comes first.

**The protocol checkers.** The Wharf transfer checker, the checker of explicit contracts,
and the length-prefixed framer. What each of them has to answer is stated from its input
alone, without its state machine: by the accepted events of a session, by membership in
the transitions and operations of a contract, by the encodings of frames. The checkers
answer that, and nothing else can be answered.

## Where the Python reports are not exact

The comment above the lowering of `try` says that handlers do not cover `else`
(`crates/pons-core/src/cfg/builder.rs:941`). Outside every `try` region, and without a
`finally`, the code does otherwise. The last block of the body is given its raise edges
and stays the current block (938-939); the `else` then adds its first events to that same
block, because a statement starts a block of its own only inside a region (396-406). The
handler is therefore entered as if the `else` had begun. Runs are given under `Rules` that
say so (`LOWERED`) or not (`WRITTEN`).

* For every legal function the graph spells exactly the `LOWERED` runs
  (`Correctness.SpellsRuns`), and the reports are exact about them
  (`EndToEnd.UnboundReadsExact`, `EndToEnd.DeadStoresExact`).
* A `try` *spoils* if no `finally` guards it, its `else` leads with events and its body can
  complete. What reaches its handlers is then, and only then, not what its body throws
  (`Entries.EntriesIff`, `Spoiling.ThrownIff`; in any builder state, `Simulation.SimSpill`).
* A function is *harmless* if no `try` that spoils can be reached outside every `try`
  region, which can be read off its text (`Agreement.Harmless`). Its runs are then the same
  under both rules, and the graph and both reports are exact about the function as it is
  written. If the `try` statements that spoil can be told apart by their events, this is
  also necessary (`Spoiling.ExactIff`).
* `Misreports.SpoiledStore` and `Misreports.SpoiledRead` say when the reports are wrong:
  for stores and deletions at the end of a body that spoils, just when a run can make them.
  `Unsealed.ReportsRead` and `Unsealed.MissesRead` are instances.
* A function is *sealed* if it has no `try` outside every region, and without a `finally`,
  whose `else` leads with events (`Sealing.SealedIff`). That is sufficient, not necessary:
  functions that are not sealed are still exact if such a `try` comes after a statement
  that never completes, or has a body that never completes (`Unsealed.StillExact`).

The second point is the alias of a handler. The comment at lines 990-991 says that its
implicit deletion happens on the exceptional exit too, and so does the reference. The
events are made only where the handler body completes (981-992), so an exception or a jump
out of the handler leaves the alias bound. `TIDY` rules delete it on every way out.
`Aliases.HandledIff` says when that makes a difference to a handler, `Aliases.MissesAlias`
gives a function on which a read is missed, and where no handler has an alias the reports
mean the same under both rules (`EndToEnd.ReadBeforeInit`, `EndToEnd.DeadStore`).

## Layout

| files | what they hold |
|---|---|
| `Cfg`, `Queries` | graphs, walks and the traces they spell; predecessors and reachability |
| `Python`, `Endings` | statements and their runs; legal and sealed functions; how runs can end |
| `Lower`, `Builder` | the graph as functions on builder states; the builder object that computes them |
| `Growth`, `Alike`, `Shape` | what lowering leaves alone and what it does not look at |
| `Outcomes`, `Simulation`, `Exactness`, `Correctness` | runs are walks; walks are runs; the two together |
| `Agreement`, `Sealing` | when the rules make no difference |
| `Occurring`, `Locating`, `Spoiling`, `Entries` | what a `try` that spoils does to runs and to arrivals |
| `LocalSet`, `Dataflow`, `Solver`, `Paths`, `Pruning` | bitsets, block equations, the worklist, meet over all paths, unreachable blocks |
| `Findings`, `EndToEnd`, `Ordered` | the reports and what they mean for runs |
| `Misreports`, `Unsealed`, `Aliases` | where the reports are wrong |
| `PhpFacts`, `PhpCompile`, `PhpBuilder`, `PhpPaths`, `PhpExact`, `PhpModelled`, `PhpLayout` | PHP facts, statements, the compiler, its correctness, when it gives up, and where blocks lie |
| `PhpFlow`, `PhpWorklist`, `PhpSolver`, `PhpFlows` | exact states, the worklist and its budgets, the flows of a unit |
| `Stream`, `Wharf`, `WharfLaws`, `Protocol`, `ProtocolLaws`, `Text` | the framer and the two trace checkers |
| `Wrappers` | optional values and errors |

## Model

| member | source | states |
|---|---|---|
| Correctness.RunsAreWalks | crates/pons-core/src/cfg/builder.rs:392-477 | every run of any legal body, as it is lowered, whole or cut short anywhere, through nested loops, handlers, `else` and `finally` crossed by jumps, is spelled by a walk from ENTRY; a run that leaves the function by a walk to EXIT |
| Correctness.WalksAreRuns | crates/pons-core/src/cfg/builder.rs:883-895 | the converse: every walk spells a run prefix and every walk to EXIT a run that leaves, so no walk enters a `finally` for one reason and leaves it for another |
| Correctness.SpellsRuns | crates/pons-core/src/cfg/builder.rs:535-563 | for any legal body the walks of the graph spell exactly the runs, and the walks to EXIT exactly the runs that leave the function |
| Alike.AlikeBlock | crates/pons-core/src/cfg/builder.rs:107-112 | lowering never looks at the edges a block has: without some of them it makes the same graph without them |
| Python.CutBlock | crates/pons-core/src/cfg/builder.rs:396-406 | the runs are closed under observing them only part of the way |
| Endings.EndsExactly | crates/pons-core/src/cfg/builder.rs:392-477 | how the runs of a block can end can be read off its text, whatever its events |
| Simulation.SimSpill | crates/pons-core/src/cfg/builder.rs:938-948 | in any builder state outside every `try` region and for any closed set of arrivals: what completes the body of a `try` without `finally` arrives at each handler with what the `else` leads with as well |
| Simulation.SimEntries | crates/pons-core/src/cfg/builder.rs:928-948 | in any builder state and for any closed set of arrivals: what the body of a `try` throws, as the graph has it, arrives at each handler |
| Entries.EntriesAreThrows | crates/pons-core/src/cfg/builder.rs:928-948 | in the graph of a function with the `try` among its statements, a handler is reached by nothing but that |
| Entries.EntriesIff | crates/pons-core/src/cfg/builder.rs:938-948 | the handlers are reached by exactly what the body throws as it is written, if and only if the `try` is not reached, is guarded by a `finally`, has an `else` that leads with nothing, or a body that never completes |
| Spoiling.ThrownIff | crates/pons-core/src/cfg/builder.rs:938-948 | the same of one `try` outside every region, in terms of runs alone |
| Spoiling.HarmlessIff | crates/pons-core/src/cfg/builder.rs:938-948 | a body is harmless just when no `try` that spoils can be reached |
| Locating.ReachedRuns | crates/pons-core/src/cfg/builder.rs:392-477 | a `try` that the text says can be reached is reached by a run, which can go on with any run of it |
| Agreement.HarmlessSameRuns | crates/pons-core/src/cfg/builder.rs:938-948 | a harmless function has the same runs as it is lowered and as it is written |
| Agreement.SealedIsHarmless | crates/pons-core/src/cfg/builder.rs:938-948 | sealed functions are harmless |
| Unsealed.StillExact | crates/pons-core/src/cfg/builder.rs:938-948 | functions that are harmless and not sealed: a `try` after `return`, and one whose body returns |
| Spoiling.ExactIff | crates/pons-core/src/cfg/builder.rs:938-948 | if the `try` statements that spoil can be told apart by their events, the graph spells just the runs as they are written if and only if the function is harmless |
| Spoiling.NextLowered | crates/pons-core/src/cfg/builder.rs:938-948 | as it is lowered, the last event of such a body is followed by the first of the `else` or by nothing |
| Spoiling.NextWritten | crates/pons-core/src/cfg/builder.rs:941-948 | as it is written, some run follows it by what a handler starts with |
| Misreports.SpoiledStore | crates/pons-core/src/dataflow.rs:277-305 | a store that such a body ends with, a handler starts by reading and the `else` leads by redefining: dead-store is wrong about it if and only if a run can make it |
| Misreports.SpoiledRead | crates/pons-core/src/dataflow.rs:307-322 | a parameter that such a body ends by deleting, a handler starts by reading and the `else` leads by defining: the read is never reported, and a run makes it unbound if and only if the deletion can be made |
| Unsealed.TryElseBuilt | crates/pons-core/src/cfg/builder.rs:896-1017 | the graph of `try: a` / `except: b` / `else: c`, block by block: one block holds both `a` and `c` and has an edge to the handler |
| Unsealed.MissesRead | crates/pons-core/src/cfg/builder.rs:941-945 | an instance: a function on which read-before-init misses a read some run makes unbound |
| Unsealed.ReportsRead | crates/pons-core/src/cfg/builder.rs:941-945 | an instance: a function on which dead-store reports a store some run reads |
| Sealing.SealedIff | crates/pons-core/src/cfg/builder.rs:938-948 | sealed is exactly: in whatever state the builder is, lowering the `else` of any `try` of the body makes no events in the block the body ended in, which has its raise edges by then |
| Sealing.TailKeptIff | crates/pons-core/src/cfg/builder.rs:938-948 | for one `try` in any builder state: that block keeps its events if and only if the `else` leads with none, a `finally` guards it, or the `try` is inside a `try` region |
| Aliases.HandledIff | crates/pons-core/src/cfg/builder.rs:981-994 | unbinding the alias on every way out of a handler changes its runs if and only if there is an alias and the handler has a statement |
| Aliases.MissesAlias | crates/pons-core/src/cfg/builder.rs:990-992 | a function on which read-before-init misses a read of an alias that was unbound when its handler raised |
| Correctness.BuildShape | crates/pons-core/src/cfg/builder.rs:66-98 | for every body: edges in range, none into ENTRY, none out of EXIT, and all events are about the locals of the function |
| Shape.LoweredBlock | crates/pons-core/src/cfg/builder.rs:382-388 | lowering changes the events of no existing block but the current one, which gets exactly those the statements lead with; frames and raise targets come back as they were |
| Growth.GrownBlock | crates/pons-core/src/cfg/builder.rs:392-477 | from a state whose current block has no edges yet, no block that has a successor ever gets another event, only the current block and new blocks get new edges, and the current block gets exactly the events the statements lead with |
| Lower.LowerStmt | crates/pons-core/src/cfg/builder.rs:392-477 | a statement gives back the frame stack and the raise targets it was given, and terminates although a jump lowers enclosing `finally` bodies again |
| Lower.Jump | crates/pons-core/src/cfg/builder.rs:535-563 | a jump gives back the frame stack and the raise targets, and only adds blocks |
| Builder.Builder.NewBlock | crates/pons-core/src/cfg/builder.rs:102-105 | appends one empty block and returns its number |
| Builder.Builder.Edge | crates/pons-core/src/cfg/builder.rs:107-112 | adds the successor unless it is there already |
| Builder.Builder.EdgesToRaise | crates/pons-core/src/cfg/builder.rs:114-118 | adds an edge to every raise target, in order |
| Builder.Builder.TailRaise | crates/pons-core/src/cfg/builder.rs:126-130 | the same from the current block, inside a `try` region only |
| Builder.Builder.Emit | crates/pons-core/src/cfg/builder.rs:132-138 | adds the events to the current block |
| Builder.Builder.Block | crates/pons-core/src/cfg/builder.rs:382-388 | the loop over statements computes the lowering of the block |
| Builder.Builder.Stmt | crates/pons-core/src/cfg/builder.rs:392-406 | inside a `try` region the block before can raise and a new one is started; then the statement |
| Builder.Builder.Body | crates/pons-core/src/cfg/builder.rs:407-476 | each kind of statement computes its lowering |
| Builder.Builder.Jump | crates/pons-core/src/cfg/builder.rs:535-563 | the loop down the frame stack, which truncates and restores it, computes the recursive unwinding |
| Builder.Builder.RunFinally | crates/pons-core/src/cfg/builder.rs:548-557 | one copy of a `finally` under truncated frames, after which frames and raise targets are restored |
| Builder.Builder.If | crates/pons-core/src/cfg/builder.rs:566-616 | computes the lowering of `if` |
| Builder.Builder.Alternatives | crates/pons-core/src/cfg/builder.rs:581-614 | the loop over `elif` and `else` computes the recursive lowering |
| Builder.Builder.While | crates/pons-core/src/cfg/builder.rs:622-648 | computes the lowering of `while`, with no false edge for `while True` |
| Builder.Builder.For | crates/pons-core/src/cfg/builder.rs:654-691 | computes the lowering of `for`, with no zero-trip edge for a non-empty literal |
| Builder.Builder.LoopBody | crates/pons-core/src/cfg/builder.rs:732-745 | the body under its loop frame, which is popped again |
| Builder.Builder.ElseBody | crates/pons-core/src/cfg/builder.rs:748-755 | the `else` of a loop from the block the loop ends in |
| Builder.Builder.OpenTry | crates/pons-core/src/cfg/builder.rs:911-934 | blocks, frame and raise targets at the entry of the body of a `try` |
| Builder.Builder.Else | crates/pons-core/src/cfg/builder.rs:938-948 | raise edges of the body's tail, then `else` outside the handlers |
| Builder.Builder.Handlers | crates/pons-core/src/cfg/builder.rs:951-994 | the loop over handlers computes their lowering and the blocks they end in |
| Builder.Builder.Try | crates/pons-core/src/cfg/builder.rs:896-1017 | computes the lowering of `try`, with a normal and an exceptional copy of `finally` |
| Builder.Build | crates/pons-core/src/cfg/builder.rs:66-98 | the object's graph is the lowered graph of the body |
| Builder.UnwindRaise | crates/pons-core/src/cfg/builder.rs:548-557 | restoring the raise targets between `finally` copies changes nothing a jump builds |
| Queries.Preds | crates/pons-core/src/cfg/mod.rs:129-137 | the nested loops compute the predecessor list of every block |
| Queries.PredsInvert | crates/pons-core/src/cfg/mod.rs:129-137 | that list has a block once for every edge from it: the exact inverse of the successors |
| Queries.Reach | crates/pons-core/src/cfg/mod.rs:142-152 | the stack loop marks exactly the blocks some walk from ENTRY reaches |
| LocalSets.LocalSet.Empty | crates/pons-core/src/dataflow.rs:36-40 | no members, capacity rounded up to words |
| LocalSets.LocalSet.Full | crates/pons-core/src/dataflow.rs:43-49 | exactly the locals below n; padding bits stay clear |
| LocalSets.LocalSet.Contains | crates/pons-core/src/dataflow.rs:55-57 | the bit test is membership |
| LocalSets.LocalSet.Insert | crates/pons-core/src/dataflow.rs:63-65 | adds one member in place |
| LocalSets.LocalSet.Remove | crates/pons-core/src/dataflow.rs:71-73 | removes one member in place |
| LocalSets.LocalSet.UnionWith | crates/pons-core/src/dataflow.rs:78-86 | union in place over the overlapping words; the result says whether the set grew |
| LocalSets.LocalSet.Same | crates/pons-core/src/dataflow.rs:28-32 | comparing words is comparing capacities and sets |
| LocalSets.SameMembers | crates/pons-core/src/dataflow.rs:28-32 | words of one capacity are equal just when the sets of their bits are |
| Solver.Solve | crates/pons-core/src/dataflow.rs:132-205 | the worklist returns the least solution of the block equations, the facts into and out of every block agreeing, in at most N + locals x edges visits |
| Solver.VisitBlock | crates/pons-core/src/dataflow.rs:169-192 | one visit recomputes the facts of a block from its sources and queues its targets just when the fact leaving it has changed |
| Solver.MeetSources | crates/pons-core/src/dataflow.rs:171-179 | the boundary fact joined with the facts of all sources |
| Solver.Flows | crates/pons-core/src/dataflow.rs:135-157 | sources and targets by direction; may-unbound ignores unreachable predecessors |
| Solver.BoundarySet | crates/pons-core/src/dataflow.rs:259-266 | all locals but the parameters forward, none backward |
| Solver.Apply | crates/pons-core/src/dataflow.rs:243-251 | one event on the bitset is the transfer of its kind, for both analyses |
| Dataflow.VisitGrows | crates/pons-core/src/dataflow.rs:184-192 | a visit only makes facts grow, and never past any solution |
| Dataflow.WorkStep | crates/pons-core/src/dataflow.rs:169-192 | a visit keeps the invariant: blocks that are not queued meet their equations |
| Dataflow.WorkDone | crates/pons-core/src/dataflow.rs:169-193 | when the queue is empty the facts are the least solution |
| Dataflow.WorkBound | crates/pons-core/src/dataflow.rs:167-192 | the visits that growth can still cause, at the start: locals x edges |
| Paths.UnboundMeetsPaths | crates/pons-core/src/dataflow.rs:254-275 | a local is in may-unbound at a block start if and only if some walk from ENTRY arrives with it unbound, on any graph |
| Paths.LiveMeetsPaths | crates/pons-core/src/dataflow.rs:233-252 | a local is live at a block start if and only if some path from there reads it before a definition or deletion |
| Pruning.PruneKeepsFacts | crates/pons-core/src/dataflow.rs:137-157 | emptying the unreachable blocks changes no fact of either analysis at a reachable block |
| Findings.LiveAfterExact | crates/pons-core/src/dataflow.rs:207-231 | replayed backward, the fact just after an event is exact about the paths on from it |
| Findings.UnboundBeforeExact | crates/pons-core/src/dataflow.rs:207-231 | replayed forward, the fact just before an event is exact about the walks to it |
| Findings.ReplayStores | crates/pons-core/src/dataflow.rs:286-297 | one block, last event first: its stores are added to the summary, dead only if dead in every copy so far |
| Findings.ReplayReads | crates/pons-core/src/dataflow.rs:315-319 | one block, first event first: its unbound checkable reads are added |
| Findings.DeadStores | crates/pons-core/src/dataflow.rs:280-305 | lists a location if and only if a reportable store there is reachable and none that is reachable is read on any path; strictly ascending, each with the event and the report of the store met first |
| Findings.UnboundReads | crates/pons-core/src/dataflow.rs:310-322 | lists a location if and only if some walk reaches a checkable read there with the local unbound; strictly ascending, each with the read met first |
| EndToEnd.UnboundReadsExact | crates/pons-core/src/dataflow.rs:307-322 | on any legal function: reported if and only if some run, as it is lowered, reads the local while it is unbound |
| EndToEnd.DeadStoresExact | crates/pons-core/src/dataflow.rs:277-305 | on any legal function: reported if and only if some run, as it is lowered, stores there and no run reads what it stored before the next definition or deletion, over all `finally` copies |
| EndToEnd.SameReports | crates/pons-core/src/dataflow.rs:277-322 | under rules that agree on a function, both reports mean the same |
| EndToEnd.ReadBeforeInit | crates/pons-core/src/dataflow.rs:310-322 | building, solving and reporting in one: the listed locations are exactly those, and every listed event is a read that some run makes of a local that is then unbound; on harmless functions the same of the runs as they are written, and where no handler has an alias it does not matter when one is unbound |
| EndToEnd.DeadStore | crates/pons-core/src/dataflow.rs:280-305 | the same of the dead stores, and every entry is a store that some run makes, with the report of its kind |
| PhpFacts.JoinFact | crates/pons-core/src/php.rs:31-35 | the loop over lines computes the join of two facts |
| PhpFacts.JoinHas | crates/pons-core/src/php.rs:31-35 | a join holds what either fact holds |
| PhpFacts.ClearHas | crates/pons-core/src/php.rs:36-41 | clearing removes just the given contexts, whatever the line |
| PhpFacts.EvalDistributes | crates/pons-core/src/php.rs:53-71 | a value holds a line for a context if and only if its expression emits it or copies it from some variable that holds it |
| PhpFlow.StateHolds | crates/pons-core/src/php.rs:340-343 | after any operations a variable has a line for a context if and only if its last assignment emits it, or copies it from a variable that had it by then: assignments replace |
| PhpFlow.EvalDelivers | crates/pons-core/src/php.rs:53-71 | evaluating after any operations gives just what the expression is delivered in that sense |
| PhpFlow.EvalJoins | crates/pons-core/src/php.rs:53-71 | evaluation distributes over the join of states, through joins and sanitisers |
| PhpBuilder.Builder.Add | crates/pons-core/src/php.rs:185-192 | appends a block, or fails at 1024 |
| PhpBuilder.Builder.Stmt | crates/pons-core/src/php.rs:193-326 | compiles a statement against the block that comes next, errors included |
| PhpBuilder.Builder.Stmts | crates/pons-core/src/php.rs:201-207 | statements last to first |
| PhpBuilder.Builder.If | crates/pons-core/src/php.rs:211-229 | the condition is looked at first; both branches are compiled against the same next block |
| PhpBuilder.Builder.Alternatives | crates/pons-core/src/php.rs:214-227 | alternatives last to first |
| PhpBuilder.Builder.While | crates/pons-core/src/php.rs:230-236 | the condition is allocated first and given its successors last |
| PhpBuilder.Builder.Jump | crates/pons-core/src/php.rs:237-250 | jumps of the innermost loop, or an error |
| PhpPaths.CompileFrame | crates/pons-core/src/php.rs:184-326 | compiling changes no block allocated before, and all edges stay in range |
| PhpExact.CompileExact | crates/pons-core/src/php.rs:184-326 | from the head, the paths that leave to the next block, to the loop's edges, end, or stop at an operation are exactly the runs that complete, break, continue, return, or are about to perform it |
| PhpExact.NoJumps | crates/pons-core/src/php.rs:241-241 | outside a loop no compiled statement has a run that ends as a jump |
| PhpModelled.CompileServed | crates/pons-core/src/php.rs:185-326 | every statement meets its demands, new blocks and faults, in the order of the source, up to the first that cannot be met: with which error it fails, and after how many blocks |
| PhpModelled.DemandsModelled | crates/pons-core/src/php.rs:193-326 | no demand is a fault if and only if every expression and condition is modelled and every jump is plain and inside a loop; the demands are then as many as the blocks of the statement |
| PhpModelled.CompilesIff | crates/pons-core/src/php.rs:185-326 | a unit compiles if and only if it is modelled and its blocks, with the exit, are at most 1024; otherwise the error is that of the first demand that cannot be met |
| PhpLayout.CompileLaid | crates/pons-core/src/php.rs:193-326 | compiling appends the blocks of a statement where its layout says: the body of a loop after its condition, other parts before theirs, statements and alternatives last to first, and every block with its successors in order |
| PhpLayout.LaidOnce | crates/pons-core/src/php.rs:193-326 | there is one such layout, and with it one graph |
| PhpFlow.ClosedHolds | crates/pons-core/src/php.rs:347-358 | at a fixed point every path's state is in the state of the block it reaches |
| PhpFlow.FixedIsExact | crates/pons-core/src/php.rs:328-367 | at a fixed point the states hold exactly what some path carries, under strong updates |
| PhpSolver.JoinInto | crates/pons-core/src/php.rs:349-354 | the loop over variables computes the join and says whether anything is new |
| PhpSolver.Visit | crates/pons-core/src/php.rs:347-358 | giving a block's state to its successors keeps the invariant, queueing is paid for by growth, and it is the steps of the worklist, successor by successor |
| PhpSolver.Relax | crates/pons-core/src/php.rs:347-358 | one successor: nothing unsound is added and no closed block is left open unqueued |
| PhpWorklist.GrowsBrings | crates/pons-core/src/php.rs:350-354 | comparing facts before and after a join decides whether some variable gets a line for a context that it did not have |
| PhpWorklist.TransferOnce | crates/pons-core/src/php.rs:334-358 | the steps of the worklist, given by what states hold and not by functions, leave one way to go on |
| PhpWorklist.HaltsOneWay | crates/pons-core/src/php.rs:334-346 | where a worklist halts, it has finished, is out of steps or out of names, and only one of these |
| PhpSolver.RelaxRooms | crates/pons-core/src/php.rs:348-357 | every time a block is queued the room for growth has fallen |
| PhpSolver.TriplesFit | crates/pons-core/src/php.rs:340-358 | a state holds at most 6 x variables x lines facts |
| PhpSolver.Solve | crates/pons-core/src/php.rs:328-367 | exact states and exact `<unreachable>` marks if and only if the worklist finishes; the 50,000-transfer error if and only if one more transfer begins after as many, the 512-variable error if and only if within them what leaves a block has more; and neither on a graph with blocks x (1 + 6 x variables x lines) at most 50,000 and at most 512 variables |
| PhpFlows.UnitRuns | crates/pons-core/src/php.rs:417-425 | a block with an operation is reached having performed `t` just as some run is about to perform it after `t` |
| PhpFlows.EvalExact | crates/pons-core/src/php.rs:436-438 | evaluating on the solved state gives what evaluating along some path gives |
| PhpFlows.FlagsExact | crates/pons-core/src/php.rs:436-443 | a source line passes the filter if and only if some path carries it for one of the sink's contexts |
| PhpFlows.Sources | crates/pons-core/src/php.rs:437-443 | the flagged lines, ascending |
| PhpFlows.Extract | crates/pons-core/src/php.rs:431-455 | one flow for every reachable tainted sink, in the order of the blocks, its sources exactly the lines that taint it, ascending |
| PhpFlows.AnalyseUnit | crates/pons-core/src/php.rs:416-457 | a flow with a source line is reported at a sink if and only if some run performs the sink on a value that carries the line for one of its contexts; one flow for every tainted sink block, in the order of the layout; an error if and only if the unit is not modelled, has too many blocks, or the worklist runs out of steps or names, and then that error |
| Stream.Frames.Push | crates/pons-protocols/src/stream.rs:11-32 | by all the bytes it has been given: the frames this chunk completes, or an error just when after whole frames a header over 1 MiB has arrived, one message for the chunk that has it and another for every later push |
| Stream.Frames.Finish | crates/pons-protocols/src/stream.rs:33-38 | succeeds if and only if the bytes it has been given are whole frames of at most 1 MiB |
| Stream.CutsDoNotMatter | crates/pons-protocols/src/stream.rs:11-32 | the final framer, whether any push fails, and the frames depend on the bytes alone, not on the cuts |
| Stream.AbsorbEncoded | crates/pons-protocols/src/stream.rs:16-30 | the encoding of any frames of at most 1 MiB gives back those frames |
| Stream.AbsorbParses | crates/pons-protocols/src/stream.rs:16-30 | the bytes are always the encoding of the frames returned and what is pending, or a header over 1 MiB after them |
| Stream.FramesExact | crates/pons-protocols/src/stream.rs:11-38 | all pushes and the finish succeed with these frames if and only if the bytes are their encoding |
| Stream.FailsExactly | crates/pons-protocols/src/stream.rs:18-24 | the framer fails if and only if after whole frames a header over 1 MiB arrives |
| Stream.FinishesExactly | crates/pons-protocols/src/stream.rs:11-38 | after any pushes the finish succeeds if and only if the bytes are the encoding of some frames |
| Stream.EveryPush | crates/pons-protocols/src/stream.rs:11-32 | after any pushes the next one answers by the bytes alone, and with an error ever after an overlong header, changing nothing |
| Stream.AnswersOnce | crates/pons-protocols/src/stream.rs:11-32 | what a push has to answer is one thing |
| Stream.BigEndian | crates/pons-protocols/src/stream.rs:19-19 | four bytes give a length, the most significant first |
| Stream.LengthHeader | crates/pons-protocols/src/stream.rs:19-19 | the header of the length that four bytes give is these four bytes |
| Wharf.Judge | crates/pons-protocols/src/wharf.rs:69-177 | the event loop refuses exactly the first blank session or step back in time; otherwise every event has the verdict that the events accepted before it call for, the denials are listed in order, and sessions and nonces are what the accepted events make them |
| Wharf.Close | crates/pons-protocols/src/wharf.rs:178-186 | one closing violation for every session left open, in the order of their names |
| Wharf.Check | crates/pons-protocols/src/wharf.rs:65-188 | succeeds exactly on traces of a size and order that can be checked; the report is what has to be told: one violation for every event its past does not allow, with the reason, in order, and then the sessions whose accepted events leave them open, by name |
| WharfLaws.KeptCheckable | crates/pons-protocols/src/wharf.rs:65-75 | what is left of such a trace after deleting any events is one too, if anything is left |
| Wharf.DenialsCount | crates/pons-protocols/src/wharf.rs:170-176 | one violation for every denied event |
| Wharf.SessionsExplained | crates/pons-protocols/src/wharf.rs:73-169 | in every reachable state a session is exactly what its accepted events make it; a committed one has five, Authenticate, Bind, Transfer, Verify, Commit in turn, on one non-blank artifact, all before it expires |
| Wharf.NoncesOnce | crates/pons-protocols/src/wharf.rs:88-91 | no nonce is accepted twice in a trace, and the remembered ones are just the accepted ones |
| Wharf.ContinuesIff | crates/pons-protocols/src/wharf.rs:103-160 | a session takes an action before it expires if and only if with it the accepted events are still the first of Authenticate, Bind, Transfer, Verify, Commit on one artifact |
| Wharf.NextVerdict | crates/pons-protocols/src/wharf.rs:73-169 | the next event is accepted if and only if it is a first authentication with a new nonce, the next event in turn of its session, or a rollback in time of an open one; and otherwise it is denied for the reason that goes with its case |
| Wharf.VerdictsAreRuled | crates/pons-protocols/src/wharf.rs:69-177 | every verdict follows from the events accepted before it, by that rule |
| Wharf.SameLedger | crates/pons-protocols/src/wharf.rs:69-177 | only one list of verdicts does |
| Wharf.ReportsTold | crates/pons-protocols/src/wharf.rs:65-188 | a report says what the events accepted call for |
| Wharf.ToldOnce | crates/pons-protocols/src/wharf.rs:65-188 | and that is one report |
| WharfLaws.DeniedDeleted | crates/pons-protocols/src/wharf.rs:63-64 | deleting any denied events changes neither the final state nor the verdict of any event left |
| WharfLaws.DeletedReports | crates/pons-protocols/src/wharf.rs:63-64 | with denied events deleted the trace is reported with one violation less for each and the same sessions left open |
| WharfLaws.ChosenReports | crates/pons-protocols/src/wharf.rs:73-169 | sessions that share no nonce with the others are, checked alone, left open or not as they are among the others |
| WharfLaws.Noninterference | crates/pons-protocols/src/wharf.rs:73-169 | deleting all events of sessions that share no nonce with the others changes no verdict and no final state of the others |
| WharfLaws.ExpiredStaysOpen | crates/pons-protocols/src/wharf.rs:103-108 | no continuation clears a session left open past its expiry |
| Protocol.Validate | crates/pons-protocols/src/lib.rs:92-141 | succeeds if and only if the contract is valid, and otherwise names the first thing that is wrong |
| Protocol.ValidateTransitions | crates/pons-protocols/src/lib.rs:112-120 | the loop over a set of seen pairs accepts exactly known, named and unambiguous transitions, and otherwise names the first that is not |
| Protocol.ValidateStates | crates/pons-protocols/src/lib.rs:105-111 | counting a set of states decides that they are distinct |
| Protocol.AdvanceEntry | crates/pons-protocols/src/lib.rs:178-212 | one event of one instance: it takes the contract's transition from its state, entered at that line, or stays; a violation for every operation forbidden there, and one for a denied transition in a strict contract, in that order |
| Protocol.Walk | crates/pons-protocols/src/lib.rs:163-213 | the event loop succeeds exactly on well-formed traces of known calls, and otherwise names the first bad event; every instance ends where its events take it, and the violations are those of the events and operations, in order, and no others |
| Protocol.Close | crates/pons-protocols/src/lib.rs:214-230 | one closing violation for every instance that moved and ends outside the required states, in the order of their names |
| Protocol.CheckTrace | crates/pons-protocols/src/lib.rs:155-232 | an error exactly when contract or trace cannot be checked, and the first there is; otherwise what has to be told: the violations by event and operation, and then the instances left outside the required states, by name |
| Protocol.ReportsTold | crates/pons-protocols/src/lib.rs:155-232 | a report says what the transitions and operations of the contract call for, stated by membership in them, event by event |
| Protocol.ToldOnce | crates/pons-protocols/src/lib.rs:155-232 | and that is one report |
| Protocol.ChronicleOnce | crates/pons-protocols/src/lib.rs:178-201 | the course of the instances of a trace is one |
| Protocol.MovedIff | crates/pons-protocols/src/lib.rs:196-201 | an instance has moved if and only if it has taken a transition to another state than the initial one |
| ProtocolLaws.Projection | crates/pons-protocols/src/lib.rs:163-213 | in any interleaving an instance ends as it would alone, with the violations it would have alone |
| ProtocolLaws.OnlyCheckable | crates/pons-protocols/src/lib.rs:155-177 | the trace of one instance can be checked if the whole can |
| ProtocolLaws.ProjectedReports | crates/pons-protocols/src/lib.rs:155-232 | what is reported about an instance is what is reported when it is checked alone: the same violations on the way, a closing one in both cases or in neither |
| ProtocolLaws.OrderDoesNotMatter | crates/pons-protocols/src/lib.rs:112-120 | permuting the transitions of a contract changes neither which traces can be checked nor their reports |

## Left out

- Parsing, grammars, the collection of names and the walking of expressions: a simple statement is the list of events it makes, an unmodelled PHP expression is an error in its place, and whether a condition is `True` or an iterable is a non-empty literal is a flag.
- `with`: whether a later `finally` copy inside it makes weak definitions depends on the order of building, and suppressed exceptions have no edge.
- `match`: its arms follow the header directly, so the events of failed guards are not on the paths of later arms.
- Comments, which make no block, and the byte ranges of statements.
- Exceptions raised by a loop condition or an iterator on a later turn, and in the middle of the events of one simple statement, such as the second deletion of `del x, d[k]`: the code has no raise edge there.
- The pass over correlated guards, which the source describes as a heuristic on text.
- The lookup of names, `Location`, rendering, and opaque functions.
- Text of formatted errors: an error is its kind, with the names it mentions.
- Protocol.CheckTrace: does not model how the list of required states is printed in the message of the closing violations.
- Spoiling.ExactIff: is stated where the `try` statements that spoil can be told apart by their events; where they cannot, a wrong walk may spell the same trace as a right one, and `Entries.EntriesIff` says what arrives.
- Entries.EntriesIff: is stated for a `try` among the statements of a function body; `Simulation.SimSpill` covers every other place in one direction, `Exactness.ExactTry` in the other.
- PhpFlows.AnalyseUnit: is one unit; the walk that finds the units of a file and withholds flows for namespaces, imports and templates is left out.
- Discovery, configuration, policies, output formats, clocks and the command line.
