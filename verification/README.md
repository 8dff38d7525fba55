# Verified model of the graph-harness engine

A Dafny model of the Go engine in `engine/`: the plan data model, the structural validator, the
recovery ladder, the write-ahead log and the single-writer event loop that ties them together,
with proofs about whole runs. `dafny verify dfyconfig.toml` checks everything.

## How it is built

- `Plans`, `Graphs`: plans and their field-level check; the adjacency of a plan, with nodes named
  by their position (the unique ids of a valid plan make this the same thing), edges kept in
  order and with repetitions; walks and cycles.
- `Topo`, `Validate`: Kahn's algorithm against a greedy specification, and the five checks against
  mathematical reachability. Acyclicity proved here is what the run theorems use.
- `Recovery`: the three-level ladder, alone and over arbitrary sequences of failures.
- `Wal`, `Traces`: both logs; the state changes of a run and the entries they are rendered to.
  `Codecs`: a line codec that meets the assumptions `Wal` makes of JSON.
- `Machine`: the loop's closures as functions of the loop's state, and whole runs as sequences of
  completion events chosen by an adversary (any outstanding worker, any result).
- `Steps`, `Invariants`, `LoopHead`: every helper of the loop is a sequence of four kinds of quiet
  step, so the invariant is checked for four steps, one absorbed event and one drained event.
- `Dispatching`, `Scans`, `Logs`: what the plan-order scans amount to: who gets a slot and with which
  inputs, who is promoted and skipped, and, entry by entry, what one pass of the loop logs.
- `Theorems`, `Refinement`: the results about whole runs. `Outcomes`: what is reported of them. `Ladders`: runs climb the recovery ladder.
- `Skipping`, `Failures`, `Budgets`: where the code does not do what its comments say about any_of
  siblings, finishing every node and retry budgets, exactly when it does. `Sketches`, `Instances`:
  small plans that `Run` accepts, and runs of them that show the difference.
- `Scheduler`: class `Loop` holds the loop's variables and runs its loops; each method is proved
  equal to the function of `Machine` it stands for, and `Run` is proved against all of it.

A worker is "returns any `Result`"; only the refinement theorem makes it a function of node,
inputs and attempt number. `json.Valid` and the JSON line format are parameters. The results about
runs assume `Checked` (and `Acyclic`), which `Scheduler.AcceptedIsChecked` derives from the two
validations that `Run` performs.

## Where the code and its comments differ

The model follows the code.

- The loop is said to run until every node is terminal (`engine/scheduler/doc.go:10`,
  `engine/scheduler/scheduler.go:49-52`). It stops earlier when a failed node leaves a successor
  pending: `Instances.PendingForever`. An uncancelled run finishes every node exactly if whatever a
  failed node feeds was skipped or is an any_of join with a winner (`Theorems.AllTerminalIff`), and a
  plan is finished by all its runs exactly if it has no edges (`Failures.AlwaysFinishesIff`).
- `RetryBudget` is said to cap a node's retries (`engine/plan/types.go:114`) and to override
  `MaxRetries` (`engine/recovery/recovery.go:68`), but it is only range-checked. `Budgets.BudgetIgnored`:
  a transient failure of a running node is retried as long as the policy allows it, whatever the
  budget; `Instances.ZeroBudgetRetried` is a one-node run. The cap holds in every reachable state
  exactly if it is at least the policy's or no run ever starts the node (`Budgets.RetryBudgetExact`).
  So it is the policy's that counts for every node that some run has made ready
  (`Budgets.RetryBudgetIff`), and, read off the plan, for every node that races no node it waits for,
  such as an exit node (`Budgets.RaceFreeBudgetIff`). On the ladder alone: `Budgets.BudgetCapsLadderIff`.
- A retry makes a node `ready`, not `pending` (`engine/scheduler/scheduler.go:414-418` against
  `engine/plan/types.go:56`), and a structural failure also passes through `failed_retryable`.
- `types.go:86` says all_of joins require executed; the test also accepts skipped
  (`scheduler.go:158`). No reachable state uses that: `Theorems.AllOfUsesExecutedOnly`.
- `types.go:22` says the remaining any_of siblings are skipped. An unfinished sibling is skipped if no
  join needs it, and only if none needs it once the skips are done; if none of its unfinished all_of
  successors is a sibling too, the two are the same (`Skipping.SiblingSkippedIff`). In general it is
  skipped exactly if nothing needs it at one of its turns in the scan (`Scans.SkipOrder`). A sibling that
  feeds only any_of joins is skipped exactly if each of them has a winner (`Skipping.RacerSkippedIff`).
  `Instances.SiblingMayStay` is a run with a sibling that stays.
- A sibling that stayed is not looked at again when the need ends later. How that happens in general
  is `Instances.LeftBehind`, a run is `Instances.SiblingNotRevisited`, and exactly when the skips of
  one winner end the last need of a node, read off the state before them, is `Skipping.NeedEndsIff`
  (the all_of joins that need it having no sibling behind them; without that, `Skipping.NeedEndsBySkips`).
  In a plan in which no all_of node that feeds an any_of join has a predecessor that feeds one, it
  cannot happen: `Skipping.NoIdleSiblings`.
- The escalation is called strict (`recovery.go:61`). With mixed failure kinds a patch can be
  followed by a plain retry: exactly when is `Recovery.RungDropsIff`, an instance is
  `Recovery.RungCanDrop`; in the log of a run it shows as `Ladders.LoggedRungDropsIff`. For one failure
  kind it is strict: `Recovery.LadderOneKind`.
- The `fail` action and its log trigger cannot occur in a run, because the scheduler fails a node on
  the replan request before the policy could answer `fail` (`Traces.LegalMove` has no such move).
- `wal.go:114` speaks of the last non-empty record; the code tests for the last line. A torn record
  is tolerated with or without a newline behind it, and reported once an empty line follows:
  `Wal.TornThenBlank`; the exact condition is `Wal.FileCorruptIff`.
- The log is what "lets the scheduler recover after a crash" (`engine/wal/doc.go:3-5`), and a file cut
  anywhere does replay (`Theorems.CrashRecovery`). But reopening it does not repair the tail: unless
  the cut fell on a line boundary the next record is lost, and with two or more the log is corrupt
  (`Wal.ResumeAfterCrash`). And `Append` accepts records that the scanner of `Replay` refuses; one of
  them makes the whole log unreadable (`Wal.FileRoundTrip`).
- The log is called a replayable trace of the run (`scheduler.go:104-106`). It is one exactly if the
  run id is fresh (`Scheduler.FreshIdIff`); `Run` does not check that.
- The retry branch at the loop head (`scheduler.go:336-342`) is dead: `LoopHead.PollIsQuiet`.

## Model

| member | source | states |
|---|---|---|
| Plans.BasicValidate | engine/plan/types.go:158-202 | accepts exactly the plans with non-empty unique ids, valid enums, non-negative numbers and existing, non-looping edges; otherwise the error is the first fault in checking order |
| Graphs.BuildAdjacency | engine/validate/validate.go:25-48 | the two neighbour maps are the plan's edges in edge order and describe one multiset of edges |
| Graphs.NeighboursInEdgeOrder | engine/scheduler/scheduler.go:92-102 | on the plan: the predecessors of a node are the sources of the edges into it, one per edge and in edge order; likewise its successors |
| Graphs.EdgeMultiplicity | engine/validate/validate.go:43-46 | a predecessor or successor entry is repeated as often as the plan repeats the edge |
| Graphs.GraphOfWellFormed | engine/scheduler/scheduler.go:92-102 | predecessor and successor lists agree, stay within the plan and have no self-loops |
| Topo.TopoOrder | engine/validate/validate.go:57-96 | the queue algorithm with in-degree counting computes the greedy order and reports an error iff a node is missing from it |
| Topo.SortByPlanOrder | engine/validate/validate.go:99-109 | sorts the queue's cells in place by plan position and keeps every element |
| Topo.TopoPrefix | engine/validate/validate.go:55-95 | the order holds exactly the nodes that no cycle reaches, each once and after its predecessors |
| Topo.TopoCompleteIffAcyclic | engine/validate/validate.go:91-95 | every node is ordered iff the graph has no directed cycle |
| Topo.TopoLeast | engine/validate/validate.go:51-53 | on an acyclic graph the result is a topological order and no other one is lexicographically smaller |
| Topo.TopoLeastMaximal | engine/validate/validate.go:50-96 | with or without cycles: the result is the lexicographically least among the predecessor-respecting orders that no node can continue |
| Topo.AcyclicHasRank | engine/validate/validate.go:57-96 | the computed order ranks every node above its predecessors |
| Validate.Flood | engine/validate/validate.go:212-255 | either worklist marks exactly the nodes reached from the nodes without neighbours on the other side |
| Validate.FloodMeaning | engine/validate/validate.go:210-246 | the two markings are "some entry leads here" and "this leads to some exit" |
| Validate.ReachabilityProblems | engine/validate/validate.go:207-268 | lists, in plan order, exactly the nodes no entry reaches and the nodes that reach no exit |
| Validate.AnyOfCandidates | engine/validate/validate.go:153-160 | marks exactly the predecessors of any_of nodes |
| Validate.Check | engine/validate/validate.go:130-198 | reports exactly the problems that the plan has, each once and in the order of the checks: CycleFound iff a cycle exists, with the number of nodes that a cycle reaches; Unreachable iff no entry leads to the node, DeadNode iff it leads to no exit; TooFewCandidates iff any_of with fewer than two predecessor entries; BadSchema iff its schema does not parse; DestructiveCandidate iff destructive and feeding an any_of join |
| Validate.FirstOfAll | engine/scheduler/scheduler.go:72-74 | of such a list the first element is the problem that no other one precedes, and the list is empty iff there is no problem |
| Validate.CheckSilentIff | engine/validate/validate.go:115-129 | no problem iff acyclic, any_of nodes have two or more predecessor entries, schemas parse, and no destructive node feeds an any_of join |
| Validate.AcyclicImpliesReachable | engine/validate/validate.go:141-147 | in an acyclic graph every node is reached from an entry and reaches an exit, so check 2 never fires alone |
| Recovery.NewStandardPolicy | engine/recovery/recovery.go:77-85 | clamping loses nothing: the effective budgets are those of the unclamped policy |
| Recovery.FourDecisions | engine/recovery/recovery.go:111-151 | each of the four decisions, with its action, level and reason, is taken iff its rung is the first one left |
| Recovery.LadderBudgets | engine/recovery/recovery.go:99-102 | over any failure sequence retries are min(R, transient failures), patches stay within P, and a replan implies all patches are spent |
| Recovery.LadderOrder | engine/recovery/recovery.go:106-108 | replan only after all patches and at most once before, fail only after a replan |
| Recovery.LadderTerminates | engine/recovery/recovery.go:109-110 | every failure sequence of length R+P+2 contains a fail decision |
| Recovery.LadderOneKind | engine/recovery/recovery.go:96-104 | for one failure kind decision i is retry, patch, replan or fail by its position alone |
| Recovery.RungDropsIff | engine/recovery/recovery.go:111-132 | the rung goes down exactly when a structural failure is followed by a transient one with fewer than R transient failures before |
| Recovery.RungCanDrop | engine/recovery/recovery.go:111-132 | with budgets 1 and 1, structural then transient gives patch then retry |
| Wal.StableSortCorrect | engine/wal/wal.go:125-125 | the sort by Seq is sorted, loses nothing and keeps the order of equal numbers |
| Wal.MemLog.Append | engine/wal/wal.go:156-161 | appends at the end |
| Wal.MemLog.Replay | engine/wal/wal.go:164-175 | the run's entries, stably sorted by Seq |
| Wal.FilterMeaning | engine/wal/wal.go:164-172 | the filter keeps exactly the run's entries, in their order |
| Wal.FileLog.Append | engine/wal/wal.go:59-75 | an open file grows by the encoded entry and a newline; a failed encoding or a closed log leaves it unchanged, a short write leaves a torn record, and each of these is an error |
| Wal.FileLog.Replay | engine/wal/wal.go:82-127 | an error if the file cannot be opened or read or a line does not fit the scanner; else parses, filters and sorts as specified by `FileReplay`, whose meaning is `ScanMeaning`, `CorruptionReported` and `ReplayMeaning` |
| Wal.FileLog.Close | engine/wal/wal.go:131-143 | gives up the handle even if closing fails, keeps the contents, and succeeds as a no-op the second time |
| Wal.ScanLines | engine/wal/wal.go:94-105 | the lines of the file, a last line without newline counting unless it is empty; refused exactly if a line reaches the 16 MiB buffer |
| Wal.ScanMeaning | engine/wal/wal.go:94-105 | written out with newlines, the lines are the file again; one trailing carriage return each is dropped; refused iff a line has 16777216 bytes or more |
| Wal.ReplayMeaning | engine/wal/wal.go:82-127 | a file that fits and has no bad line before the last replays to the parsed entries of the run, stably sorted by Seq |
| Wal.TornTailRecovery | engine/wal/wal.go:77-81 | a file cut at any byte replays to exactly the run's complete records in Seq order, if its lines fit the scanner, which they do if the records did |
| Wal.FileRoundTrip | engine/wal/wal.go:57-127 | everything appended for a run is replayed if every record fits the scanner; otherwise nothing is |
| Wal.LongestRecord | engine/wal/wal.go:94-97 | a record of 16777215 bytes is replayed, one of 16777216 makes the log unreadable |
| Wal.CorruptionReported | engine/wal/wal.go:107-123 | the parse loop reports the first unparseable line that is not the last, and only such a line |
| Wal.FileCorruptIff | engine/wal/wal.go:79-81 | on a whole file: a corruption error iff every line fits and some line before the last does not parse |
| Wal.TornThenBlank | engine/wal/wal.go:113-119 | a record torn anywhere at the end is passed over with or without its newline, and reported by its line number once an empty line follows |
| Wal.ResumeAfterCrash | engine/wal/wal.go:47-75 | appends after a cut: replayed behind the whole records if the cut is on a line boundary; otherwise one is lost silently and two or more make the log corrupt at the torn line |
| Codecs.GoodCodecExists | engine/wal/wal.go:13-22 | what the log assumes of its line format can be met |
| Traces.RebuildState | engine/scheduler/scheduler.go:104-127 | folding rendered entries gives each node's state |
| Traces.RenderedRun | engine/scheduler/scheduler.go:107-127 | rendered entries are numbered so that filtering and sorting leave them as they are |
| Traces.WrittenAs | engine/scheduler/scheduler.go:107-127 | entry k is move k: its run, node id, number, states, payload, and its trigger by the text in the code |
| Steps.HandleSteps | engine/scheduler/scheduler.go:351-380 | everything the loop does after applying a result is promotions, skips, dispatches and round counts, each under its guard |
| Invariants.StepInv | engine/scheduler/scheduler.go:184-289 | each promotion, loser skip, dispatch and round count keeps the whole invariant |
| Invariants.AbsorbInv | engine/scheduler/scheduler.go:389-434 | so does applying any result to a running node |
| Invariants.DrainOneInv | engine/scheduler/scheduler.go:468-481 | so does an event drained after cancellation |
| Invariants.PromoteJoin | engine/scheduler/scheduler.go:153-163 | a promotable pending node has only executed predecessors (all_of) or an executed one (any_of) |
| Invariants.SkipIsSafe | engine/scheduler/scheduler.go:436-462 | a loser that is not still needed leaves only any_of joiners with a winner and skipped all_of joiners |
| LoopHead.PromoteEffect | engine/scheduler/scheduler.go:182-190 | a promotion scan makes exactly the pending nodes ready whose join is met before it |
| LoopHead.PromoteCloses | engine/scheduler/scheduler.go:182-190 | after a promotion scan no pending node is promotable |
| Scans.SeedOrder | engine/scheduler/scheduler.go:129-134 | exactly the nodes without predecessors become ready, in plan order |
| Scans.PromoteOrder | engine/scheduler/scheduler.go:182-190 | exactly the pending nodes whose join is met become ready, in plan order, and nothing else changes |
| Scans.SkipOrder | engine/scheduler/scheduler.go:197-222 | the candidates of the winner's any_of joins, joins and candidates in edge order, are skipped iff unfinished, not the winner and needed by no join after the skips before them; nothing else changes |
| Dispatching.ScheduleMeaning | engine/scheduler/scheduler.go:260-289 | exactly these are dispatched, in plan order, and nothing else changes: nobody while a destructive node runs; a ready destructive node iff nothing runs and no node before it is ready; any other ready node iff the slots last for the ready non-destructive nodes up to it and no destructive one took the run |
| Dispatching.SlotsInPlanOrder | engine/scheduler/scheduler.go:264-288 | of two ready nodes the later one is dispatched only if the earlier one is, unless that is destructive; a destructive node is dispatched only if nothing runs and no other ready node comes before it, and then alone |
| Dispatching.InputsMeaning | engine/scheduler/scheduler.go:166-180 | for either join: the inputs are the outputs of exactly the executed predecessors |
| Dispatching.RunningInputs | engine/scheduler/scheduler.go:166-180 | in every reachable state a running node works on the outputs of exactly those predecessors that the trace shows executed at its last dispatch |
| LoopHead.ScheduleSettles | engine/scheduler/scheduler.go:260-289 | dispatching turns only ready nodes into running ones and conserves work: afterwards all slots are taken, or a destructive node runs, or every ready node is destructive and a worker runs; nothing is ready unless a worker runs |
| LoopHead.PollIsQuiet | engine/scheduler/scheduler.go:327-343 | the loop head waits iff a worker runs and some node is unfinished, and never dispatches |
| LoopHead.RunAtHead | engine/scheduler/scheduler.go:327-381 | the invariant, the promotion fixed point and work conservation hold at the loop head of every run |
| LoopHead.TrajectoryOf | engine/scheduler/scheduler.go:327-381 | every run has its sequence of loop-head states, from the start to the run's state, one pass of the loop body each |
| Logs.PassMoves | engine/scheduler/scheduler.go:351-380 | one pass makes the event's own moves, then the skips, then the promotions, then the dispatches, each in its scan's order |
| Logs.PassLogged | engine/scheduler/scheduler.go:389-434 | after any run the replayed log ends with its last pass in the code's words: "success", or "fail_retryable" or "fail_structural" with the error text and then "retry", "patch" or "replan_requested" with its reason as the budgets say; then "skip", "deps_met" and "dispatch" entries with empty payload |
| Logs.StartLogged | engine/scheduler/scheduler.go:129-134 | the log begins with "deps_met" for the entry nodes and "dispatch" for those that get a slot, each in plan order |
| Logs.DrainLogged | engine/scheduler/scheduler.go:468-481 | a cancelled run's log ends with "cancelled" for the running nodes in the order in which their workers report |
| LoopHead.ReachableInv | engine/scheduler/scheduler.go:313-384 | the invariant holds in every reachable state, cancelled or not |
| Theorems.WorkerAccounting | engine/scheduler/scheduler.go:226-258 | inFlight counts the outstanding workers and stays within maxParallel; at most one per node; running nodes have one; every other worker belongs to a skipped node |
| Theorems.DestructiveIsolation | engine/scheduler/scheduler.go:260-289 | a destructive node's worker is the only outstanding one, and a destructive node is never skipped |
| Theorems.AllOfUsesExecutedOnly | engine/scheduler/scheduler.go:153-180 | an all_of node that was ever ready has all predecessors executed, and its worker got exactly their outputs |
| Theorems.SkipSafety | engine/scheduler/scheduler.go:192-222 | a skipped node has successors, its any_of successors have a winner and its all_of successors are skipped |
| Skipping.LosersSkipped | engine/scheduler/scheduler.go:197-222 | resolving a join touches only unfinished siblings of the winner, skips every one that nothing needed and none that something still needs |
| Skipping.SiblingSkippedIff | engine/plan/types.go:22-22 | an unfinished sibling is skipped if no join needs it and only if none needs it after the skips; iff no join needs it, when none of its unfinished all_of successors is itself a sibling |
| Skipping.RacerSkippedIff | engine/scheduler/scheduler.go:192-196 | a sibling that feeds only any_of joins is skipped iff each of them has a winner |
| Skipping.NeedEndsIff | engine/scheduler/scheduler.go:436-462 | the skips of a winner end the last need of a node iff everything that needs it before them is an all_of join that races the winner and is needed by nobody, provided these joins have no sibling behind them |
| Skipping.NeedEndsBySkips | engine/scheduler/scheduler.go:436-462 | after the skips nothing needs a node iff whatever needed it before was an all_of join that was itself skipped |
| Skipping.NoIdleSiblings | engine/scheduler/scheduler.go:192-222 | in a plan where no all_of node that feeds an any_of join has a predecessor that feeds one, at every loop head each unfinished candidate of a join with a winner is needed by another join |
| Instances.SiblingMayStay | engine/scheduler/scheduler.go:211-215 | in a five-node plan that `Run` accepts, with the default parallelism or more: a run after whose first success the winner's sibling still runs, because it also races elsewhere |
| Instances.LeftBehind | engine/scheduler/scheduler.go:197-222 | in any plan: a running node kept only by an all_of node that races elsewhere runs on unneeded once that race is decided |
| Instances.SiblingNotRevisited | engine/scheduler/scheduler.go:197-222 | in a six-node plan that `Run` accepts: a run after whose second success the first winner's sibling still runs although no join needs it |
| Theorems.TerminalForever | engine/plan/types.go:74-76 | state, output and attempts of a terminal node never change again, neither in the run nor in the drain of a cancellation |
| Theorems.StaleResultIgnored | engine/scheduler/scheduler.go:359-366 | an event of a node that is not running comes from a skipped node, changes nothing on it, and its result has no influence |
| Theorems.StalledNode | engine/scheduler/scheduler.go:328-336 | after an uncancelled return an unfinished node is pending behind failed or pending predecessors: all of them if any_of, and a failed one if none is pending |
| Theorems.NoSilentDeadlock | engine/scheduler/scheduler.go:327-343 | every unfinished node then has a failed ancestor; if nothing failed everything is terminal |
| Theorems.AllTerminalIff | engine/scheduler/doc.go:9-10 | a returned run of an acyclic plan leaves every node terminal iff every successor of a failed node was skipped or is an any_of join with an executed predecessor |
| Failures.AlwaysFinishesIff | engine/scheduler/doc.go:9-10 | all returned runs of an acyclic plan leave every node terminal iff the plan has no edges |
| Failures.SpendsAll | engine/scheduler/scheduler.go:405-434 | any run in which a node is ready or running goes on to one in which it has failed with every retry spent |
| Failures.WasRunning | engine/scheduler/scheduler.go:389-434 | a node that was executed, has failed or has spent an attempt was running at some loop head |
| Instances.PendingForever | engine/scheduler/scheduler.go:328-336 | a two-node plan that `Run` accepts and a returned run of it that leaves the second node pending |
| Ladders.RunClimbs | engine/scheduler/scheduler.go:405-434 | in every reachable state a node's attempts are the ladder's for the failures in its part of the log, and its logged decisions are the ladder's, one per failure |
| Ladders.RetriesCountFailures | engine/recovery/recovery.go:99-102 | a node's retries are its transient failures so far, up to the policy's cap |
| Ladders.LoggedRungDropsIff | engine/recovery/recovery.go:111-132 | consecutive logged decisions of a node step down iff a structural failure is followed by a transient one with fewer than R transient failures before |
| Theorems.AttemptConservation | engine/scheduler/scheduler.go:405-434 | dispatch counts are 0, retries+patches or one more, by state; failed means all patches spent, and all retries too if the last failure was transient |
| Theorems.RunIsBounded | engine/scheduler/scheduler.go:49-52 | rounds are events + 1, dispatches at most N(1+R+P), log entries at most N(4+3(R+P)), for any results in any order |
| Theorems.RunContinues | engine/scheduler/scheduler.go:345-380 | a run that has not returned has an outstanding worker whose event is accepted whatever its result |
| Theorems.RunCompletes | engine/scheduler/scheduler.go:49-52 | for results chosen in any way from the run so far, any run extends to one that has returned after at most N(1+R+P) events |
| Theorems.MeaningOfSuccess | engine/scheduler/scheduler.go:483-504 | success iff every node is executed or skipped; then exits are executed; executed nodes lie on executed paths from an entry |
| Theorems.CancelledRun | engine/scheduler/scheduler.go:346-349 | if the drain ends, exactly the running nodes became cancelled, no worker is left, and success is not reported |
| Theorems.PeakIsMaximum | engine/scheduler/scheduler.go:315-321 | the loop's MaxReady is the largest number of ready nodes that any round observed, and one round observed it |
| Theorems.ParallelismIsWidth | engine/scheduler/scheduler.go:291-321 | without any_of joins nothing is skipped, active nodes form an antichain, and MaxReady is the size of an antichain |
| Theorems.WalRefinement | engine/scheduler/scheduler.go:104-127 | replay, with other runs interleaved, gives entries 0,1,2,... that chain per node through legal state changes, each with its trigger text and, where it has none, an empty payload; they fold to the live states |
| Theorems.CrashRecovery | engine/wal/doc.go:3-5 | a log file cut at any byte, with other runs interleaved, replays to the run's trace up to some move and folds to every node's state at that move; uncut it gives the live states |
| Budgets.BudgetCapsLadderIff | engine/plan/types.go:114-114 | whatever the failures, retries stay within a budget iff the policy's cap does |
| Budgets.BudgetIgnored | engine/recovery/recovery.go:67-69 | in any run of any plan, a transient failure of a running node is retried while its retries are below the policy's cap, whatever its RetryBudget |
| Instances.ZeroBudgetRetried | engine/recovery/recovery.go:67-69 | a one-node plan that `Run` accepts, and a run that exceeds its RetryBudget of 0 |
| Budgets.RetriesStayWithin | engine/plan/types.go:114-114 | a node's retries stay within any budget that is at least the policy's cap, in every reachable state |
| Budgets.RetryBudgetIff | engine/plan/types.go:114-114 | for a node that some run has made ready or running, retries stay within its RetryBudget in every reachable state iff the policy's cap does |
| Budgets.RetryBudgetExact | engine/plan/types.go:114-114 | for every node: iff the policy's cap does, or no run ever starts the node |
| Budgets.RaceFreeStarts | engine/scheduler/scheduler.go:182-222 | in an acyclic plan some run starts every node none of whose any_of joins has a candidate it waits for |
| Budgets.RaceFreeBudgetIff | engine/plan/types.go:114-114 | for such a node, exit nodes among them, retries stay within its RetryBudget in every reachable state iff the policy's cap does |
| Refinement.SequentialConsistent | engine/validate/validate.go:50-53 | evaluating nodes in `TopoOrder` order gives each node the end its predecessors' ends determine |
| Refinement.AbsorbMoves | engine/scheduler/scheduler.go:389-434 | on the event's node: one logged move on success, a failure move and the decision's move otherwise |
| Refinement.RunRefinesSequential | engine/scheduler/scheduler.go:63-384 | every returned run of an all_of plan with a functional executor has the states, outputs, per-node moves and success flag of the sequential evaluation |
| Refinement.ExecutorCompletes | engine/scheduler/scheduler.go:49-62 | for every executor, any run with its results extends to one that has returned with its results, within the bound |
| Refinement.ScheduleIndependence | engine/scheduler/scheduler.go:49-62 | two such runs agree whatever their event orders and MaxParallel |
| Scheduler.Loop.constructor | engine/scheduler/scheduler.go:81-90 | all nodes pending with fresh attempts, nothing in flight, whatever the log holds |
| Scheduler.Loop.Transition | engine/scheduler/scheduler.go:104-127 | changes one state and appends one entry with the run, the node's id, the next number, the states before and after, trigger and payload; the log stays the rendered trace and other runs' entries stay |
| Scheduler.Loop.OtherRunAppends | engine/wal/wal.go:156-175 | entries of another run leave this run's part of the log as it is |
| Scheduler.Loop.SeedEntries | engine/scheduler/scheduler.go:129-134 | equals `SeedFrom` |
| Scheduler.Loop.DepsSatisfied | engine/scheduler/scheduler.go:138-164 | decides the join condition |
| Scheduler.Loop.InputsFor | engine/scheduler/scheduler.go:166-180 | the outputs of exactly the executed predecessors, whatever the join |
| Scheduler.Loop.PromotePending | engine/scheduler/scheduler.go:182-190 | equals `PromoteFrom` |
| Scheduler.Loop.StillNeeded | engine/scheduler/scheduler.go:436-462 | decides whether some joiner still needs the node |
| Scheduler.Loop.SkipLosers | engine/scheduler/scheduler.go:192-222 | equals `SkipJoiners` |
| Scheduler.Loop.Dispatch | engine/scheduler/scheduler.go:234-258 | equals `LaunchOne`: running, one more worker, its inputs |
| Scheduler.Loop.Schedule | engine/scheduler/scheduler.go:260-289 | dispatches, in plan order, exactly the nodes that get a slot in the sense of `ScheduleMeaning` |
| Scheduler.Loop.ReadyCount | engine/scheduler/scheduler.go:291-300 | the number of ready nodes |
| Scheduler.Loop.AllTerminal | engine/scheduler/scheduler.go:302-309 | whether every node is terminal |
| Scheduler.Loop.Observe | engine/scheduler/scheduler.go:313-324 | updates peak and round counter together |
| Scheduler.Loop.ApplyResult | engine/scheduler/scheduler.go:386-434 | equals `Machine.ApplyResult` |
| Scheduler.Loop.HandleEvent | engine/scheduler/scheduler.go:351-380 | equals `Handle` |
| Scheduler.Loop.Head | engine/scheduler/scheduler.go:327-343 | equals `Poll` |
| Scheduler.Loop.DrainAll | engine/scheduler/scheduler.go:464-481 | equals `Drain` over the reporting workers |
| Scheduler.Loop.Finish | engine/scheduler/scheduler.go:483-504 | one entry per node with its state and no others, the loop's rounds and peak, success iff every node is executed or skipped |
| Scheduler.Loop.Begin | engine/scheduler/scheduler.go:129-325 | from the blank state: the state at the first loop head |
| Scheduler.Loop.Play | engine/scheduler/scheduler.go:327-381 | the event loop goes through the states of the run's trajectory and says whether it then waits for another event |
| Scheduler.Loop.Abort | engine/scheduler/scheduler.go:346-349 | drains the workers and gives the outcome of the drained state |
| Scheduler.FreshIdIff | engine/scheduler/scheduler.go:104-106 | after a run, replaying its id gives the rendered trace iff the log held nothing under that id before |
| Scheduler.ConfigOf | engine/scheduler/scheduler.go:76-79 | a positive MaxParallel is taken as it is, any other becomes the number of nodes; policy and run id are the caller's |
| Sketches.SketchAccepted | engine/scheduler/scheduler.go:67-79 | the plans of the instances, and any whose edges lead to later nodes and whose any_of joins have two candidates, pass both validations |
| Scheduler.AcceptedIsChecked | engine/scheduler/scheduler.go:67-79 | a plan that passes both validations satisfies every assumption of the run theorems |
| Scheduler.RunChecked | engine/scheduler/scheduler.go:104-384 | reports `Done`, `Aborted` or still waiting exactly as the run's state says; the log has the rendered trace appended under the run's id and no entry of another run |
| Scheduler.Run | engine/scheduler/scheduler.go:63-384 | first plan fault, else a problem iff there is one, namely the one no other precedes, else the outcome of the run the environment played; of a returned or cancelled run it reports events + 1 rounds, the most ready nodes a round observed, and every node's final state (cancelled if it was running), and a cancelled run is no success; the log grows under this run's id only |
| Scheduler.ReportMeaning | engine/scheduler/scheduler.go:23-29 | for an accepted plan and any returned run: one entry per node with its state, success iff no node failed, rounds are events + 1 and at most 1+N(1+R+P), MaxReady is the peak |
| Outcomes.CancelledReport | engine/scheduler/scheduler.go:464-504 | for a run cancelled after any events and drained in any order: running nodes are reported cancelled and all others as they were, the drain counts no round and no peak, and success is not reported |

## Left out

- Providers, executors, contracts' output validation, the command line and the spike: subprocess, HTTP and CLI plumbing.
- Time: timeouts, contexts, cancel functions and timestamps. A skipped running node keeps its worker until its event arrives; the entries have no TS field.
- The token bucket and RatePerSec: a throttle inside the worker, which the loop does not see.
- Recovery policies other than StandardPolicy, and runs whose log appends fail (the code ignores the error); the scheduler's log is the in-memory one.
- File handles and mutexes; that opening a log for append can fail.
- Wal.FileLog.Append: which fault the file system causes is a parameter; a short write keeps a prefix of the record.
- Wal.FileLog.Replay: an open or read error is a parameter; its message is not modelled.
- The JSON byte format: the line codec is a parameter with the properties stated in `GoodCodec` (no newline, decodes back, no proper prefix decodes) and, for appends after a crash, in `NoGlue` (a record behind the beginning of another is no record), which a JSON object on one line has; payloads are opaque strings and an absent payload is the empty string.
- Theorems.CancelledRun: says what holds if the drain ends; that it ends cannot be promised, because a worker may never report.
- Plan parsing and printing, plan-level contracts, `ActionRef`: they do not influence scheduling.
