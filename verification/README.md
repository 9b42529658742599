# Verified models of the workflow engine, worker-id leases, audit chain and run protocols

This project models the parts of the repository whose correctness depends on orders of events: the
static-DAG workflow engine of the control plane, the worker-id leases and the database lock of the
server, the audit hash chain with its anchors and export, the approval broker and the run event log,
and one-time login factors. Every operation that updates state is a class method proved against a
value-level function; every protocol is a state machine over atomic steps, and the theorems are about
all its interleavings. `dafny verify dfyconfig.toml` checks the project.

## The workflow engine

- `workflow_def.dfy`, `validate.dfy`: definitions and their validation. Kahn's algorithm accepts
  exactly the edge lists that have a topological numbering, for every order of the queue.
- `engine_state.dfy`: the state of a run as a value and what each node type does to it. The executor
  (agents, approvals), the JSON Logic evaluator and cancellation during a backoff are function
  parameters (`World`); the executor's answers may depend on how many calls came before.
- `engine.dfy`: the `Engine` object. `engine_loops.dfy` gives the meaning of loops: a run is a tree of
  executions, a loop a list of rounds, and `Run` ends in the state its tree computes.
- `engine_invariants.dfy`, `engine_steps.dfy`, `engine_fork.dfy`, `engine_frames.dfy`,
  `engine_measure.dfy`, `engine_schedule.dfy`, `engine_setup.dfy`, `reachability.dfy`: the run
  invariant, why every operation keeps it, why a run ends, and how an engine is built.
- `engine_theorems.dfy`: trace grammar, causal order, fork and join, rejection feedback.
  `engine_scope.dfy`: what expressions, conditions and retried agents see. `engine_rest.dfy`: what a
  finished run leaves behind. `engine_values.dfy`: what one execution of each node type means, value by
  value, in the field names and constants of the definition language.
- `engine_origin.dfy`, `engine_rounds.dfy`, `engine_stuck.dfy`, `engine_traces.dfy`: rounds of a loop.
  Where the edges of a run come from, what a round leaves behind, which loop bodies get stuck, and the
  log of a round. `engine_lives.dfy`: the log of each node since its last reset, in any nest of loops.
- `engine_bounds.dfy`, `engine_limits.dfy`: how often a node can start.
- `engine_examples.dfy`: definitions and their runs that show where these properties end.
- `confluence.dfy`, `confluence_proof.dfy`, `confluence_engine.dfy`: every order in which `Run` may
  visit ready nodes ends in the same fixed point. `skip_pass.dfy`: the pass after it, whose outcome
  does depend on the order. `engine_order.dfy` numbers the nodes of every run, clones included, and says
  exactly when it does.

What the code relies on and does not check is a hypothesis here:

- `ForksApart`: fork templates are distinct, are not forks themselves, and clone ids are new. The code
  would otherwise overwrite a node state that another map entry still points to.
- `LoopsDown`: every loop's body entry is a node, and the edges together with the loop-to-entry links
  have no cycle. Without it `execLoop` can recurse without end.
- Loop bodies may overlap and contain forks. "Tame" nodes are those outside every loop body and the
  clones of forks outside every loop body; trace, causal and join theorems over the whole log are about
  them, because a loop resets its body. `NodeGrammar` is the trace theorem of every node since its last
  reset, `RoundGrammar` and `RoundStartsAfterSources` are the trace and causal theorems of body nodes,
  round by round.
- Confluence is for definitions without loops, an executor whose answers depend only on node and
  attempt (`Steady`), and expressions that mention only context keys, their own node, and nodes that
  settle before them (`Reading`, `ReadsAncestors`; `RacingRead` shows that the last is needed). It compares states up to error texts, the order of
  edge lists and the event log, which depend on the order by design.

Findings about the code, each with a lemma:

- The last pass of `Run` depends on map order: `LastPassIff` says exactly when some order ends in
  a deadlock and another in success (an always edge between two nodes that never ran, whose source is
  not a condition), `OrderMattersExample` gives a run.
- An untaken condition with a fallback always deadlocks the run. `edgeActive` (engine.go:378-391)
  reports the keyless always edge of a condition that never executed as active, since no branch key
  equals its empty branch, so the last pass finds the node behind it active instead of skipping both,
  in every order: `FallbackDeadlocks`, `FallbackExample`. The comment in the code (engine.go:143-144)
  promises that untaken branches become skipped.
- A loop gets stuck as soon as a body node does not run: a node on a branch not taken stays pending, and
  `runBody` (nodes.go:259-263) then reports it. `StuckIff` says exactly when that happens after a round,
  `SmoothIff` which bodies are never stuck and which always are in some world. A body with two branches
  (`BranchedBodySticks`) is stuck after its first round, and so is one whose fork made a clone for a join
  in the body (`ForkedBodySticks`), because the loop never runs the clone.
- Two loops may share body nodes, and then the product of attempts and iterations does not bound the
  starts of a shared node: `SharedBodyExample`. `StartsBounded` is the bound that holds.

## Worker ids and locks

Times are nanoseconds of a clock that runs equally fast everywhere (`clock.dfy`). Timers and durations
are exact; whole milliseconds are counted where the code counts them: in the expiry and the lease in the
database, in the stamp of the last renewal, and in the threshold it is compared with. Every clock that
counts them may do so with a skew of its own.

`wuid.dfy` is a timed state machine: any number of workers claim, renew, lose and give back ids; every
SQL statement is one atomic step; a statement whose caller was told of an error may still be executed
later. The allocation lock is not used by any proof. `wuid_exact.dfy` shows that the timing condition
is exact: ids are never shared by unclosed live workers if and only if `Prompt(config)` holds, which
compares the lease with the renew and retry intervals, a bound on database calls and the lateness of
timers. `PromptIff` makes it one inequality, and `ShortIsPrompt` says what it comes to for short leases:
with five seconds, four calls and two late timers have to fit in a third of them. `ClosedMayShare` shows
why the theorem speaks of unclosed workers: a close during a background claim lets the worker come back
alive. `wuid_close.dfy` says which claims can do so (`LiveAgainIff`). `wuid_worker.dfy` has the `Worker`
and `ClaimId` statement by statement. Claim tokens are fresh.

`dlock.dfy` is the database lock, `keep_alive.dfy` its auto-refresh as a timed state machine: ticker,
buffered tick, refresh with a late or lost answer, cap on holding, close. The `Alive` flag can outlive the
lease: `keep_alive_exact.dfy` says for which leases and delays it cannot (`AliveIff`). Three ticks fit in
a lease and the loop gives up after two thirds of it, so the third tick is always due when the lease
ends, however long it is: unless the lease is cut by a cap on holding (`ShortHoldIff`), calls and timers
together must take less than a millisecond (`ExactInMillis`). `OverstayBounded` says by how much a live
lock can be past its lease, two calls and two late timers.

## The audit chain

`audit_chain.dfy`: rows, the head, append transactions with stale reads, and tamper evidence. The
digest is a parameter; the theorems say "agree field by field, or here is a collision", and
`TamperProof` is the injective case. `audit_service.dfy`: `AppendTo`, the paged verifier and the
cursor-paged export with other transactions committing between their statements. `audit_anchor.dfy`,
`audit_anchor_store.dfy`: anchors and the write-once store. The anchor hash does not cover the
signature fields although its documentation says it commits every other field; the theorem is about
the fields it covers. Anchor calls that do not overlap keep the anchors acceptable; for two that
overlap and both put, `OverlapBreaksChain` says that the result never links up short of a collision.

## Run protocols and one-time factors

`broker.dfy` is the approval broker, `runs.dfy` the event log with its subscribers and the echo of the
message bus, `run_manager.dfy` the run object and the final status, `mfa.dfy` TOTP codes, recovery
codes and login challenges; `text.dfy` has the trimming and the lengths they share with the audit log. Findings, each
with its exact condition: a wait can return a decision before it is announced (`EarlyReturnExample`),
exactly when it arrives between the recording and the announcement (`EarlyIff`); the log can be out of
sequence order (`OutOfOrderExample`), exactly when numbers are published in another order than they were
taken (`OrderIff`); the final status can miss every failure (`LateReviewExample`), exactly when each failed
node has a decision recorded last (`FailureMissedIff`).

## Model

| member | source | states |
|---|---|---|
| WorkflowDef.CloneIdInjective | apps/control-plane/internal/workflow/nodes.go:154-156 | a clone id determines its template and index: clone ids of one or two templates never collide |
| WorkflowDef.CloneIdText | apps/control-plane/internal/workflow/nodes.go:154-156 | the id of clone i is its template, a number sign and i in decimal digits without leading zero |
| Validation.InDegrees | apps/control-plane/internal/workflow/validate.go:62-68 | the count of every node is the number of edges into it, parallel edges counted |
| Validation.InitialQueue | apps/control-plane/internal/workflow/validate.go:69-74 | exactly the nodes of in-degree 0, each once, in some order |
| Validation.ScanOutEdges | apps/control-plane/internal/workflow/validate.go:76-88 | keeps the invariant of Kahn's algorithm: a count is the number of edges from nodes not popped, and a node is enqueued exactly once, when its count reaches 0 |
| Validation.AllPopped | apps/control-plane/internal/workflow/validate.go:89-91 | when the queue is empty, every node was popped if and only if the edges have a topological numbering |
| Validation.OrderIsNumbering | apps/control-plane/internal/workflow/validate.go:75-91 | an order with every source before its target numbers the graph |
| Validation.Kahn | apps/control-plane/internal/workflow/validate.go:61-91 | for every queue order, the check passes if and only if the edges have a topological numbering |
| Validation.Validate | apps/control-plane/internal/workflow/validate.go:18-117 | accepts exactly the definitions with header, unique ids, known edges, a numbering, routed gates and no refused node; what it reports is wrong with the definition, and a cycle exactly when that is the first thing wrong |
| Validation.RefusedIff | apps/control-plane/internal/workflow/validate.go:119-166 | what a node of each type is refused for: a missing spec or field, no iterations, attempts outside 1 to 10, a wait outside 0 to 3600 seconds, an unknown type |
| Reachability.ClosureExact | apps/control-plane/internal/workflow/engine.go:100-111 | a closed set of reachable nodes is the closure of its start |
| Reachability.Reachable | apps/control-plane/internal/workflow/engine.go:100-111 | the depth-first search returns each reachable unseen node once, and every edge out of a node found leads to a node seen |
| EngineSetup.IndexEdges | apps/control-plane/internal/workflow/engine.go:88-91 | both indexes hold the edges of the definition, in its order |
| EngineSetup.LoopBody | apps/control-plane/internal/workflow/engine.go:92-96 | a loop's body is duplicate-free and exactly the nodes reachable from its entry |
| EngineSetup.LoopBodies | apps/control-plane/internal/workflow/engine.go:92-96 | every loop node is given exactly its body |
| EngineSetup.New | apps/control-plane/internal/workflow/engine.go:67-98 | succeeds exactly on valid definitions, with a fresh run, exact bodies and exact templates |
| EngineSetup.BodiesClosed | apps/control-plane/internal/workflow/engine.go:92-111 | no edge leads out of the loop bodies |
| EngineSetup.EngineReady | apps/control-plane/internal/workflow/engine.go:63-98 | a valid definition with apart forks and loops that go down is one every engine theorem applies to |
| EngineSetup.FreshInv | apps/control-plane/internal/workflow/engine.go:67-98 | the state of a new engine satisfies the run invariant |
| EngineSetup.Launch | apps/control-plane/internal/workflow/engine.go:67-155 | validate, build, run: a run of a valid definition terminates, is a schedule of node executions to a fixed point followed by some order of skips, and keeps the invariant; it starts from a scope that holds each field of an object context under its own name, any other value under "context", and nothing else |
| Engine.Engine.MarkNode | apps/control-plane/internal/workflow/engine.go:262-273 | sets the status and appends the next numbered event, with an output only when completed |
| Engine.Engine.RecordRejectionFeedback | apps/control-plane/internal/workflow/engine.go:275-286 | the feedback of a node changes if and only if a rejected edge of the gate leads to it |
| Engine.Engine.BuildScope | apps/control-plane/internal/workflow/nodes.go:13-37 | for every iteration order the scope holds the output of each completed node and, under every other key, what the context has: each field of an object, any other value under "context", nothing without one; refused exactly for a malformed context |
| Engine.Engine.PublishOutput | apps/control-plane/internal/workflow/nodes.go:285-293 | a parseable output becomes visible under the node's id and nothing else changes |
| Engine.Engine.ExecTrigger | apps/control-plane/internal/workflow/nodes.go:39-45 | completes with its source |
| Engine.Engine.ExecAgent | apps/control-plane/internal/workflow/nodes.go:47-62 | one call with the engine-built input; success clears error and feedback, failure keeps the feedback and records the error |
| Engine.Engine.ExecApproval | apps/control-plane/internal/workflow/nodes.go:64-81 | waits, records the decision and on a rejection hands its feedback on; completes either way |
| Engine.Engine.ExecCondition | apps/control-plane/internal/workflow/nodes.go:83-116 | publishes the text of the value as branch, "true" and "false" for the booleans, and completes, or fails when no out-edge takes it |
| Engine.Engine.ExecTransform | apps/control-plane/internal/workflow/nodes.go:118-128 | completes with the value or fails with the error |
| Engine.Engine.Expand | apps/control-plane/internal/workflow/nodes.go:152-168 | the loop adds one clone, its edges and its item for each element |
| Engine.Engine.ExecFork | apps/control-plane/internal/workflow/nodes.go:130-175 | expands and completes with the count, or fails without touching the graph |
| Engine.Engine.ExecJoin | apps/control-plane/internal/workflow/nodes.go:177-191 | fails at the first failed source, otherwise completes |
| Engine.Engine.ResetNodes | apps/control-plane/internal/workflow/nodes.go:205-213 | every body node is pending again with output, branch, approval, attempts and error cleared; nothing else changes |
| Engine.Engine.BodyPass | apps/control-plane/internal/workflow/nodes.go:243-254 | one pass executes ready body nodes, lowers the load of the body, or finds none ready |
| Engine.Engine.RunBody | apps/control-plane/internal/workflow/nodes.go:234-266 | terminates with no body node ready, and reports the first one that is not terminal |
| Engine.Engine.ExecLoop | apps/control-plane/internal/workflow/nodes.go:193-232 | runs rounds of reset and body until the condition holds, an error, or the iterations are used up, and says which |
| Engine.Engine.Retry | apps/control-plane/internal/workflow/engine.go:315-348 | counts the attempt and resets the node, unless it has none left or the run is cancelled during its backoff |
| Engine.Engine.Settle | apps/control-plane/internal/workflow/engine.go:246-258 | a failed execution is retried or logged as failed, once |
| Engine.Engine.ExecByType | apps/control-plane/internal/workflow/engine.go:223-245 | every node type, the unimplemented and unknown ones included, ends in the state its function gives |
| Engine.Engine.ExecuteNode | apps/control-plane/internal/workflow/engine.go:222-259 | executing a ready node terminates, keeps the invariant and changes only nodes below it |
| Engine.Engine.Visit | apps/control-plane/internal/workflow/engine.go:125-136 | a visited node is executed exactly if it is eligible and ready, and then the measure of the run drops |
| Engine.Engine.Pass | apps/control-plane/internal/workflow/engine.go:123-137 | a pass in any map order, visiting any of the nodes added meanwhile, makes the measure drop or leaves a fixed point |
| Engine.Engine.RunToFixedPoint | apps/control-plane/internal/workflow/engine.go:123-141 | the main loop terminates at a fixed point |
| Engine.Engine.SkipNode | apps/control-plane/internal/workflow/engine.go:145-153 | skips a pending node or reports it active, as some order of the last pass does |
| Engine.Engine.SkipUntaken | apps/control-plane/internal/workflow/engine.go:143-154 | the last pass in any map order is a pass over exactly the eligible pending nodes in some order |
| Engine.Engine.Run | apps/control-plane/internal/workflow/engine.go:113-155 | a whole run: scope of context and outputs, schedule, fixed point, last pass; the invariant holds at the fixed point and at the end |
| EngineFork.ForkKeeps | apps/control-plane/internal/workflow/nodes.go:130-175 | expanding a fork keeps the whole run invariant; a fork that fails leaves the state as it was |
| EngineFork.ExecuteKeeps | apps/control-plane/internal/workflow/engine.go:222-259 | executing any ready node keeps the invariant: log, life of each node, causal order, joins, forks, feedback |
| EngineFork.ResetKeeps | apps/control-plane/internal/workflow/nodes.go:205-213 | so does resetting a loop body |
| EngineLoops.StepOutcome | apps/control-plane/internal/workflow/nodes.go:193-266 | one step of a run, with all rounds of a loop inside, keeps the invariant and changes only nodes below its own |
| EngineLoops.ScheduleKeeps | apps/control-plane/internal/workflow/engine.go:123-141 | every schedule keeps the invariant |
| EngineLoops.PlainSchedule | apps/control-plane/internal/workflow/engine.go:123-141 | without loops a schedule is a plain sequence of executions |
| EngineMeasure.LoadDrops | apps/control-plane/internal/workflow/nodes.go:241-258 | each execution in a body lowers a load weighted by the loops nested in it, although it resets nodes below |
| EngineSchedule.MeasureDrops | apps/control-plane/internal/workflow/engine.go:123-141 | each execution of the main loop uses an attempt of a static node, or of a clone with the static ones untouched |
| EngineTheorems.TraceGrammar | apps/control-plane/internal/workflow/engine.go:222-273 | the log is numbered 1..n; a node's events are Running (Retrying Running)* with at most MaxAttempts runs and at most one terminal event, which is last and is the node's status |
| EngineTheorems.TerminalEventIsStatus | apps/control-plane/internal/workflow/engine.go:261-273 | a terminal event carries the final status of its node |
| EngineTheorems.StartsAfterSources | apps/control-plane/internal/workflow/engine.go:168-204 | when a node starts, every source of its in-edges has logged its last event, a terminal one, and the selector of the edge holds to the end unless the node is a join |
| EngineTheorems.JoinAfterClones | apps/control-plane/internal/workflow/nodes.go:130-191 | a join fed by a fork starts only after the fork and every clone logged their terminal events; once terminal it failed exactly when a source failed |
| EngineTheorems.JoinCompletes | apps/control-plane/internal/workflow/nodes.go:130-191 | a completed join means a completed fork and, for the count it published, every clone completed |
| EngineTheorems.OwedIsOutstanding | apps/control-plane/internal/workflow/engine.go:275-286 | the feedback kept for a node is its latest rejection with no successful run of it since |
| EngineTheorems.FeedbackReachesAgent | apps/control-plane/internal/workflow/engine.go:288-313 | over whole runs, an agent's input has "rejection_feedback" exactly when its latest rejection is not yet followed by a success, with category, detail and what else that rejection gave, field by field; a context value of that name never arrives |
| ConfluenceEngine.LoopFreeReady | apps/control-plane/internal/workflow/engine.go:63-98 | a valid definition without loops and with apart forks satisfies the hypotheses of confluence and of Run |
| EngineRest.StepsRest | apps/control-plane/internal/workflow/engine.go:123-141 | between executions every node of a run is pending or terminal, loops and their bodies included |
| EngineRest.FinalStatuses | apps/control-plane/internal/workflow/engine.go:141-155 | after any run without error, loops included and whatever the executor does, every node outside bodies and templates is terminal and its last event is its status |
| EngineScope.OutputsVisible | apps/control-plane/internal/workflow/nodes.go:10-37 | at every moment of a run, loops included, expressions see each completed node's output under its id and the untouched context elsewhere |
| EngineScope.SkippedVisible | apps/control-plane/internal/workflow/engine.go:143-154 | the last pass leaves the scope alone |
| EngineScope.ConditionSelects | apps/control-plane/internal/workflow/nodes.go:83-116 | a condition completes exactly when its branch leads somewhere, and the edges later found active are those its value selects: keyed "true" for true, "false" for false, the text itself for a text, the fallback for null |
| EngineScope.OnlyTakenBranch | apps/control-plane/internal/workflow/engine.go:375-391 | a node that started behind a completed condition is on the branch the condition published, or on the fallback when no edge has that key |
| EngineScope.RetrySeesError | apps/control-plane/internal/workflow/engine.go:288-348 | an agent is retried exactly when it failed, its retry spec has attempts left and it was not cancelled in a backoff; its next input names that failure under "last_error", a success leaves none |
| EngineValues.ContextVisible | apps/control-plane/internal/workflow/nodes.go:13-37 | at every moment of a run the scope shows, under every key that is no node, exactly what the context has there |
| EngineValues.ConditionByValue | apps/control-plane/internal/workflow/nodes.go:83-116 | executing a condition: the value of its expression decides the branch, the output, the edges that hold and whether it fails |
| EngineValues.LoopByValue | apps/control-plane/internal/workflow/nodes.go:193-232 | a loop completes, with the number of rounds, exactly if after its last round every body node has ended and the condition is none of null, false, 0, "", [] and {}; it goes round again exactly on one of these, and never more than maxIterations times |
| EngineValues.ResetByValue | apps/control-plane/internal/workflow/nodes.go:205-213 | a round begins with every body node pending and all its fields as at first; the scope and everything else stay |
| EngineValues.AgentByValue | apps/control-plane/internal/workflow/nodes.go:47-62 | executing an agent: one call with the scope and the two reserved keys, and what a success or a failure leaves in status, scope, feedback, error and attempts |
| EngineValues.AttemptsRespected | apps/control-plane/internal/workflow/engine.go:315-348 | in every run a node outside loop bodies starts once, or at most as often as the retry spec of its agent allows |
| EngineValues.GateByValue | apps/control-plane/internal/workflow/nodes.go:64-81 | executing a gate: it completes with its decision, and a rejection changes the feedback of the targets of its rejected edges and of nobody else |
| EngineValues.ForkByValue | apps/control-plane/internal/workflow/nodes.go:130-175 | executing a fork: one pending clone for each item, in order, with its item and its edges from the fork and to the first join behind it; every other node, edge and value stays; it fails exactly on an error, a value that is no list or a missing template |
| EngineValues.PlainByValue | apps/control-plane/internal/workflow/nodes.go:39-191 | what triggers, transforms and joins show, and when they and the unimplemented types fail |
| EngineOrigin.EdgeOrigins | apps/control-plane/internal/workflow/nodes.go:130-175 | in every run the edges around the nodes of the definition are its own and those of the clones of a fork, into the join that fork feeds |
| EngineRounds.TerminalIff | apps/control-plane/internal/workflow/nodes.go:234-258 | after a round of a body without loops a body node is terminal if and only if its in-edges let it run |
| EngineRounds.StuckIff | apps/control-plane/internal/workflow/nodes.go:214-266 | after such a round the loop is stuck if and only if some body node has an in-edge whose source is not terminal or, at a node that is no join, whose selector fails |
| EngineRounds.StuckIffPending | apps/control-plane/internal/workflow/nodes.go:214-266 | after a round of any body, loops in it included, the loop is stuck if and only if some body node is pending and blocked by an in-edge |
| EngineStuck.BranchedBodySticks | apps/control-plane/internal/workflow/nodes.go:234-266 | a loop whose body has contrary edges to two nodes that are no joins is stuck after its first round, in every world |
| EngineStuck.ForkedBodySticks | apps/control-plane/internal/workflow/nodes.go:130-175 | a loop is stuck after every round in which a fork of its body whose join is in the body made a clone |
| EngineStuck.SmoothNeverSticks | apps/control-plane/internal/workflow/nodes.go:234-266 | a loop whose body is smooth, its edges into nodes that are no joins certain to hold and no fork feeding a join, is stuck in no world |
| EngineStuck.RoundExists | apps/control-plane/internal/workflow/nodes.go:193-232 | every loop has a round in every world, so statements on all its rounds are not empty |
| EngineStuck.SmoothIff | apps/control-plane/internal/workflow/nodes.go:193-266 | smooth bodies get stuck in no world; any other body gets stuck in every round of some world |
| EngineLives.NodeGrammar | apps/control-plane/internal/workflow/nodes.go:193-258 | in every run, loops in loops included, the events of each node of the definition since its last reset follow the grammar: at most MaxAttempts runs, a terminal event last and only last, and that is the status of the node |
| EngineTraces.RoundGrammar | apps/control-plane/internal/workflow/nodes.go:205-258 | in each round the events of a body node follow the grammar: at most MaxAttempts runs, a terminal event last and only last, and that is the status the round leaves |
| EngineTraces.RoundStartsAfterSources | apps/control-plane/internal/workflow/nodes.go:234-258 | in each round a body node starts only after its sources: they are silent from then on, those in the body have logged their end in this round, and the selector holds unless the node is a join |
| EngineBounds.ScheduleCounts | apps/control-plane/internal/workflow/engine.go:123-141 | the starts a run logs for a node are its executions in the tree of the run |
| EngineBounds.SchedulePays | apps/control-plane/internal/workflow/engine.go:123-141 | executions of a node are paid for by its attempts at the start and at each reset or expansion that makes it fresh; a body node pays with its resets alone |
| EngineLimits.ScheduleRefilled | apps/control-plane/internal/workflow/nodes.go:193-232 | a node is reset at most as often as the loops around it start, times their iterations |
| EngineLimits.StartsBounded | apps/control-plane/internal/workflow/engine.go:123-141 | in every run a node starts at most its attempts times the sum, over the loops whose body holds it, of their iterations times their own bound; bodies may share nodes |
| EngineLimits.CloneStartsBounded | apps/control-plane/internal/workflow/nodes.go:130-175 | a clone starts at most its template's attempts for each start of its fork |
| EngineLimits.DisjointProduct | apps/control-plane/internal/workflow/nodes.go:193-232 | when no node is in two bodies the bound is the product of the attempts and the iterations of the loops around the node |
| EngineExamples.SharedBodyExample | apps/control-plane/internal/workflow/engine.go:92-96 | a valid definition of two one-round loops with one entry, and its run: the entry starts twice, its bound, while the product is one |
| ConfluenceProof.Diamond | apps/control-plane/internal/workflow/engine.go:123-137 | two schedulable nodes, forks included, leave each other schedulable and commute |
| ConfluenceProof.MoveToFront | apps/control-plane/internal/workflow/engine.go:123-137 | a node that can go first can be moved to the front of any complete schedule |
| ConfluenceProof.Confluent | apps/control-plane/internal/workflow/engine.go:123-141 | complete schedules end in one core and execute each node equally often |
| ConfluenceEngine.SameReady | apps/control-plane/internal/workflow/engine.go:168-204 | readiness depends only on the core |
| ConfluenceEngine.Simulate | apps/control-plane/internal/workflow/engine.go:222-259 | what the engine does to a ready node is one step of the core, for every node type |
| ConfluenceEngine.FollowsLeads | apps/control-plane/internal/workflow/engine.go:123-141 | every schedule of the engine is one of the core |
| ConfluenceEngine.RunsAgree | apps/control-plane/internal/workflow/engine.go:123-141 | two runs of a loop-free definition on one context, in whatever map order, reach the same nodes, statuses, outputs, branches, attempts, edges and scope, and execute each node equally often |
| ConfluenceEngine.LaunchesAgree | apps/control-plane/internal/workflow/engine.go:67-141 | so do two launches, from what Launch says about each alone |
| EngineExamples.RacingRead | apps/control-plane/internal/workflow/nodes.go:118-128 | an expression that mentions a node that need not settle first: two orders of one run end with different outputs |
| EngineOrder.RunIsUpward | apps/control-plane/internal/workflow/nodes.go:130-175 | the edges of every run, those of clones included, go up in one numbering, but for those of a node to itself |
| SkipPass.DeadlocksIff | apps/control-plane/internal/workflow/engine.go:143-154 | some order deadlocks if and only if a pending node is active at the start or skipping one pending node makes another active |
| EngineOrder.LastPassIff | apps/control-plane/internal/workflow/engine.go:143-154 | for every run of a valid definition: some order of the last pass succeeds if and only if no pending node has an active in-edge, and the outcome depends on map order if and only if, besides, an always edge leads from one pending node, not a condition, to another |
| EngineExamples.OrderMattersExample | apps/control-plane/internal/workflow/engine.go:123-154 | a valid definition and its run to the fixed point, from any fresh start: one order of the last pass deadlocks and the other skips both nodes |
| EngineExamples.FallbackExample | apps/control-plane/internal/workflow/engine.go:123-154 | a valid definition and its run to the fixed point with an untaken condition that has a fallback: every order of the last pass deadlocks at the fallback |
| EngineScope.FallbackDeadlocks | apps/control-plane/internal/workflow/engine.go:143-154 | whenever a condition that never ran has a keyless always edge to a pending node, the last pass reports a deadlock in every order |
| Wuid.StepKeeps | apps/server/internal/infra/wuid/wuid.go:186-412 | every step of every worker keeps the protocol invariant under prompt timing |
| Wuid.NeverShared | apps/server/internal/infra/wuid/wuid.go:186-412 | over every interleaving two unclosed live workers never share an id, and each one's row carries its token unexpired |
| Wuid.AlwaysDense | apps/server/internal/infra/wuid/wuid.go:232-291 | whatever the timing, row ids are exactly 0..max with max at most 65535 |
| Wuid.GrantLasts | apps/server/internal/infra/wuid/wuid.go:232-291 | whatever the timing and without the lock, a granted id keeps its token until its lease has run out or it is given back |
| WuidExact.PromptIff | apps/server/internal/infra/wuid/wuid.go:310-358 | whether the timing is prompt is one inequality between lease, intervals, give-up threshold and delays |
| WuidExact.PromptEnough | apps/server/internal/infra/wuid/wuid.go:310-358 | two simple cases of it: a quick retry, or a second failure that always comes too late to be tolerated |
| WuidExact.ShortIsPrompt | apps/server/internal/infra/wuid/wuid.go:310-358 | a lease of 10 milliseconds to 15 seconds, in whole milliseconds, is prompt if and only if four calls and two late timers fit in its last third |
| WuidExact.DefaultIsPrompt | apps/server/internal/infra/wuid/wuid.go:342-358 | the one-hour lease is prompt while three calls and a late timer fit in 1195 seconds |
| WuidExact.UniqueIffPrompt | apps/server/internal/infra/wuid/wuid.go:311-412 | ids are unique in every run if and only if the timing is prompt |
| WuidExact.ClosedMayShare | apps/server/internal/infra/wuid/wuid.go:414-442 | a run in which a worker closed during a background claim ends up live and its given-back id is shared |
| WuidClose.LiveAgainIff | apps/server/internal/infra/wuid/wuid.go:296-442 | after a close, and unless it begins another claim before its loop ends, a worker can come back to life if and only if it is in a claim that is not yet lost |
| WuidClose.EndedStaysDown | apps/server/internal/infra/wuid/wuid.go:296-308 | once the loop of a closed worker has ended the worker never changes |
| WuidWorker.Database.ClaimId | apps/server/internal/infra/wuid/wuid.go:228-291 | statement by statement with others in between: the lowest row expired at the search is the one claimed, if still expired at its update; otherwise the id after the highest one read, exhausted exactly above 65535 and in conflict exactly if somebody inserted it meanwhile; one row for one lease, and nothing on failure |
| WuidWorker.AloneClaims | apps/server/internal/infra/wuid/wuid.go:228-291 | without interference the outcome of a claim is a function of the table |
| WuidWorker.Worker.Answered | apps/server/internal/infra/wuid/wuid.go:310-340 | the outcome of a heartbeat sets liveness, renewal time and delay as the protocol step does: a third of the lease after a success, at most five seconds after a failure, lost once two thirds of the lease, in milliseconds, have passed |
| WuidWorker.Worker.Reacquired | apps/server/internal/infra/wuid/wuid.go:377-397 | a new id and token replace the old, the worker is live again and sleeps a third of the lease |
| WuidWorker.Worker.DeclareLost | apps/server/internal/infra/wuid/wuid.go:399-412 | the worker is not live afterwards and the callback fires once per loss |
| WuidWorker.Worker.RenewLease | apps/server/internal/infra/wuid/wuid.go:360-375 | extends exactly the row that still carries the worker's token, by the lease in milliseconds, and says so |
| WuidWorker.Worker.BeginClose | apps/server/internal/infra/wuid/wuid.go:414-428 | the first close stops the worker, later ones do nothing |
| WuidWorker.Worker.EndClose | apps/server/internal/infra/wuid/wuid.go:428-442 | gives back the row held after the heartbeat ended, if it still carries the token |
| DLock.LeaseLasts | apps/server/internal/infra/dlock/dlock.go:187-232 | over any interleaving a held row stays with its owner until its expiry, which never moves earlier, or until the owner unlocks |
| DLock.Exclusive | apps/server/internal/infra/dlock/dlock.go:187-232 | after an owner acquires or refreshes at t nobody else acquires before t + ttl has passed unless it unlocks |
| DLock.FreeCanBeTaken | apps/server/internal/infra/dlock/dlock.go:187-215 | a new, unlocked or run-out name can be acquired, whatever others do in between short of taking it |
| KeepAlive.OverstayBounded | apps/server/internal/infra/dlock/dlock.go:234-292 | in every run of the keep-alive loop, among statements of others, a live lock got its last lease no longer ago than the lease and twice the bounds on a call and on lateness |
| KeepAliveExact.AliveIff | apps/server/internal/infra/dlock/dlock.go:234-292 | without a cap on holding, or with one too long to matter, live implies unexpired in every run, and live implies holding the row in every run, if and only if the timing is exact: no tick that can find the lock alive is answered after the lease |
| KeepAliveExact.ExactInMillis | apps/server/internal/infra/dlock/dlock.go:234-285 | for a lease of at least 10 milliseconds, in whole milliseconds, the timing is exact if and only if call and lateness stay within two thirds of a millisecond, one third, or nothing, give or take two nanoseconds, by the remainder of the lease modulo three |
| KeepAliveExact.FiveSeconds | apps/server/internal/infra/dlock/dlock.go:234-285 | a five-second lock holds its row while alive if and only if calls and timers take at most a third of a millisecond, give or take two nanoseconds |
| KeepAliveExact.ShortHoldIff | apps/server/internal/infra/dlock/dlock.go:262-266 | with a cap of at most a third of the lease the same holds if and only if the first tick, as late as it can be, comes within the lease |
| KeepAliveExact.ExactIsHeld | apps/server/internal/infra/dlock/dlock.go:234-292 | exact timing is enough whatever the cap on holding |
| DLock.Database.Acquire | apps/server/internal/infra/dlock/dlock.go:187-215 | insert-if-missing then conditional update, others in between: succeeds exactly on a free or own row |
| DLock.Lock.Refresh | apps/server/internal/infra/dlock/dlock.go:217-232 | extends exactly the row still held, by the lease in milliseconds, and says so |
| DLock.Lock.Ticked | apps/server/internal/infra/dlock/dlock.go:260-292 | what a keep-alive tick makes of its refresh: liveness, last renewal, whether the loop ends |
| DLock.Lock.Unlock | apps/server/internal/infra/dlock/dlock.go:294-318 | drops the row once, only if still held; later calls do nothing |
| AuditChain.TamperEvident | apps/server/internal/modules/audit/audit.go:503-535 | two tables that verify at one sequence with one head hash agree field by field on every row, or show a collision |
| AuditChain.TamperProof | apps/server/internal/modules/audit/audit.go:618-626 | with an injective digest they agree |
| AuditChain.AcceptsIff | apps/server/internal/modules/audit/audit.go:503-535 | a table verifies at a head exactly if each row has its number, the hash of the row before it and the digest of its own fields, and the last has the hash of the head |
| AuditChain.PrefixAccepts | apps/server/internal/modules/audit/audit.go:503-535 | what verifies at n verifies at every m up to n, with row m's hash |
| AuditChain.GoodAccepts | apps/server/internal/modules/audit/audit.go:493-501 | a good log verifies at its head |
| AuditChain.CommitKeeps | apps/server/internal/modules/audit/audit.go:182-231 | an append on a head that is current keeps the chain; one on a stale head changes nothing |
| AuditChain.CommitIff | apps/server/internal/modules/audit/audit.go:182-231 | an append goes through exactly if its number and hash are new and the head has not moved; hashes stay different |
| AuditChain.AppendsKeepChain | apps/server/internal/modules/audit/audit.go:172-231 | over any interleaving of append transactions, with stale reads and aborts, rows are exactly 1..head, linked from the empty hash, and never change |
| AuditChain.GoodRows | apps/server/internal/modules/audit/audit.go:182-231 | what a good log holds, row by row |
| AuditChain.LaterAccepts | apps/server/internal/modules/audit/audit.go:503-535 | a head read at some moment verifies against every later table |
| AuditService.OthersBeyond | apps/server/internal/modules/audit/audit.go:182-231 | appends by others leave the rows up to a head alone |
| AuditService.ReadHeadUndisturbed | apps/server/internal/modules/audit/audit.go:503-535 | so do whole batches of them between pages, on a tampered table too |
| AuditService.Service.AppendTo | apps/server/internal/modules/audit/audit.go:182-231 | commits exactly when the head read is still current and the row is new; the row holds what was reported, field by field, follows that head, is sealed with its digest and is the last of its tenant; nothing is removed or changed, and otherwise only what others did is added |
| AuditService.UnrecordableIff | apps/server/internal/modules/audit/audit.go:608-616 | what is refused: an outcome other than success, denied and failure, a blank tenant or event type, a text over its limit in bytes |
| AuditService.Service.CheckPage | apps/server/internal/modules/audit/audit.go:515-531 | a page passes if and only if each of its rows links to the one before |
| AuditService.Service.VerifyPrefix | apps/server/internal/modules/audit/audit.go:503-535 | 500-row offset pages with appends between them give the verdict of one unpaged scan; n rows that link up take n / 500 + 1 pages |
| AuditService.Service.Verify | apps/server/internal/modules/audit/audit.go:263-286 | valid exactly when there is no head or the rows up to it link up to its hash, whatever is appended meanwhile |
| AuditService.Service.ExportBatch | apps/server/internal/modules/audit/audit.go:436-470 | a batch continues the export where the cursor stands, up to the first row whose hash fails |
| AuditService.Service.WriteExport | apps/server/internal/modules/audit/audit.go:430-479 | writes the rows up to the head that no filter field excludes and no other, in order, each once, or stops before the first of them whose hash fails |
| AuditAnchor.AnchoredPrefixIntact | apps/server/internal/modules/audit/audit.go:369-406 | when the anchors are accepted, the local rows up to the latest anchor are those it committed, field by field, or a collision exists |
| AuditAnchor.AnchorsTamperEvident | apps/server/internal/modules/audit/anchor.go:255-263 | two anchor chains with one last hash agree on everything the hash covers, or a collision exists |
| AuditAnchor.AnchorsAlwaysAccepted | apps/server/internal/modules/audit/audit.go:288-353 | any run of appends and non-overlapping Anchor calls keeps anchors increasing, linked, never ahead of the head, and accepted |
| AuditAnchor.AnchorIsIdempotent | apps/server/internal/modules/audit/audit.go:314-319 | anchoring again without an append returns the same anchor and puts nothing |
| AuditAnchor.RollbackDetected | apps/server/internal/modules/audit/audit.go:288-406 | after any run a table cut back below the latest anchor still verifies on its own, but the anchors are not accepted over it and Anchor refuses its head |
| AuditAnchor.OverlapBreaksChain | apps/server/internal/modules/audit/audit.go:320-352 | two overlapping calls that both put leave a linked chain if and only if the seals of two different anchors collide |
| AuditAnchor.MadeIs | apps/server/internal/modules/audit/audit.go:320-337 | the anchor made for a head: schema, tenant, head and time, linked to the last anchor, sealed over all of that, signed if a signer is configured |
| AuditAnchor.AnchorsLinkedIff | apps/server/internal/modules/audit/anchor.go:255-263 | what linked anchors are, one by one: link, seal over all fields but itself and the signature, signature checked if there is one |
| AuditAnchorStore.AnchorStore.Put | apps/server/internal/modules/audit/anchor.go:172-195 | writes once: an existing object is never replaced |
| AuditAnchorStore.AnchorStore.List | apps/server/internal/modules/audit/anchor.go:197-217 | lists every object, oldest first |
| AuditAnchorStore.SameListing | apps/server/internal/modules/audit/anchor.go:197-217 | a store has one listing |
| AuditAnchorStore.CommitHead | apps/server/internal/modules/audit/audit.go:288-353 | broken if and only if the head does not verify or is behind an anchor; otherwise answers with the anchor of that head, or puts the one made for it; refuses if the signer does; no object ever changes |
| AuditAnchorStore.VerifyAnchors | apps/server/internal/modules/audit/audit.go:369-406 | valid exactly when the anchors link up, signatures check and the rows up to the latest verify against its hash, with appends going on; then every anchor fits the one before |
| Broker.OneDecision | apps/control-plane/internal/workflow/approval.go:82-139 | in every interleaving a gate gets at most one decision, which never changes, every wait that returns one returns that one, and it is announced at most once |
| Broker.SendNeverBlocks | apps/control-plane/internal/workflow/approval.go:124-139 | the channel a decision is sent to is empty, so Resolve never blocks |
| Broker.BlockedWaitIsLate | apps/control-plane/internal/workflow/approval.go:89-102 | a wait that blocked returns only after the announcement |
| Broker.UnannouncedIff | apps/control-plane/internal/workflow/approval.go:109-139 | a decision is unannounced if and only if its Resolve stands between recording and announcing |
| Broker.EarlyIff | apps/control-plane/internal/workflow/approval.go:82-139 | in every run a wait returns before the announcement if and only if it arrived while a Resolve of its gate stood between recording and announcing |
| Broker.EarlyReturnExample | apps/control-plane/internal/workflow/approval.go:84-134 | a run in which a wait returns a decision before it is announced |
| Broker.ApprovalBroker.Register | apps/control-plane/internal/workflow/approval.go:82-95 | the critical section of Wait is the protocol step |
| Broker.ApprovalBroker.Record | apps/control-plane/internal/workflow/approval.go:109-130 | the critical section of Resolve is the protocol step: refused after a decision or for a rejection without one of the four categories, without detail or with a text of more than 4000 bytes, recorded otherwise |
| Broker.UnfitIff | apps/control-plane/internal/workflow/approval.go:35-54 | a rejection is unfit without feedback, with a category that is none of the four, without detail or with a text of more than 4000 bytes of UTF-8 |
| Runs.LoggedOnce | apps/control-plane/internal/server/runs.go:165-190 | with concurrent emitters and echoes each sequence number is logged at most once, each emitter's events in its order and all of them once it is idle; echoes add nothing |
| Runs.FanOut | apps/control-plane/internal/server/runs.go:75-97 | a subscriber's history and channel together are a subsequence of the log without duplicates, and the whole log while its buffer of 64 never filled |
| Runs.LeftIsSilent | apps/control-plane/internal/server/runs.go:75-97 | a subscriber that has left is sent nothing more |
| Runs.OutOfOrderExample | apps/control-plane/internal/server/runs.go:412-415 | two emitters can log in the wrong order |
| Runs.OrderIff | apps/control-plane/internal/server/runs.go:412-415 | in every run the log is in sequence order if and only if the emitters publish in the order in which they took their numbers |
| Runs.SerialInOrder | apps/control-plane/internal/server/runs.go:412-415 | it is when no number is taken while another one is unpublished |
| RunManager.Run.Publish | apps/control-plane/internal/server/runs.go:75-85 | appends and delivers to every subscriber with fewer than 64 events waiting, in any map order |
| RunManager.Run.AddSubscriber | apps/control-plane/internal/server/runs.go:87-97 | registration and snapshot are one step |
| RunManager.Run.RemoveSubscriber | apps/control-plane/internal/server/runs.go:90-97 | a subscriber that leaves is no longer delivered to |
| RunManager.Run.NextSeq | apps/control-plane/internal/server/runs.go:134-139 | numbers go up by one |
| RunManager.Run.Recorded | apps/control-plane/internal/server/runs.go:110-119 | tells whether the number is logged |
| RunManager.Run.Echo | apps/control-plane/internal/server/runs.go:172-188 | an echo of a logged event changes nothing, any other is published |
| RunManager.FinalStatus | apps/control-plane/internal/server/runs.go:348-378 | failed on error, paused exactly on a rejection at a pausing gate, otherwise failed exactly when some node's last event is a failure |
| RunManager.FailureIsSeen | apps/control-plane/internal/server/runs.go:366-378 | when each decision is recorded before its gate's last event, the run fails exactly when the engine's last event of some node is a failure |
| RunManager.NodeFailureSeenIff | apps/control-plane/internal/server/runs.go:366-378 | over a whole log, the failure of a node is seen if and only if no decision is recorded after it |
| RunManager.FailureMissedIff | apps/control-plane/internal/server/runs.go:290-378 | the status misses the failures of a run if and only if there are some and the last record of each failed node is a decision |
| RunManager.LateReviewExample | apps/control-plane/internal/server/runs.go:290-296 | such a log: a cancelled gate whose decision comes late |
| Mfa.StepOf | apps/server/internal/modules/authn/mfa.go:467-480 | a code is accepted only for a step k with (k - 1) * 30000 <= now < (k + 2) * 30000 milliseconds whose code it is, refused only if there is none, and the current step goes first |
| Mfa.FactorsAreOneTime | apps/server/internal/modules/authn/mfa.go:151-500 | over every interleaving with stale reads, accepted steps of an enrolment strictly increase and each step k was accepted at a time within (k - 1) * 30000 and (k + 2) * 30000 milliseconds, a recovery code is spent at most once, a challenge gives at most one session and its attempts stay within the maximum |
| Mfa.ChallengePaysOnce | apps/server/internal/modules/authn/mfa.go:241-303 | over every interleaving the answers to a challenge consume as many factors as they open sessions, at most one; a lost challenge yields no session, accepted step or spent code |
| Mfa.SessionWasOpen | apps/server/internal/modules/authn/mfa.go:241-303 | in every run a session is opened only by an answer to a challenge that was unexpired, unanswered and had attempts left when read, and that nobody closed since |
| Mfa.ChangesByValue | apps/server/internal/modules/authn/mfa.go:191-395 | what confirming, regenerating and switching off leave behind, when they take effect: credential, recovery codes, challenges, and the factor they took |
| Mfa.SweepSparesOpen | apps/server/internal/modules/authn/mfa.go:397-415 | a new challenge sweeps away the answered and the expired ones and no other |
| Mfa.ValidateTotp | apps/server/internal/modules/authn/mfa.go:467-480 | the loop over the three candidate steps returns what the specification says: every code of a step within that time is valid, and no other |
| Mfa.Tables.ConsumeFactor | apps/server/internal/modules/authn/mfa.go:436-465 | the conditional updates consume the factor as specified and leave the challenges alone |
| Mfa.FactorByValue | apps/server/internal/modules/authn/mfa.go:436-465 | six digits are a step, accepted if later than the one read and the one stored; anything else not blank is a recovery code, accepted if there and unused |
| Mfa.SpellingIsFree | apps/server/internal/modules/authn/mfa.go:515-517 | recovery codes are compared without hyphens and spaces and with letters in upper case |
| Mfa.Tables.AnswerChallenge | apps/server/internal/modules/authn/mfa.go:241-303 | a login commits as one step, its session opened exactly when it says so; a rollback restores the factor |

## Left out

- Engine: the list of active nodes kept beside the states is never read and is not modelled; error texts are shortened; an output is raw JSON that is empty, malformed or a value.
- Engine: events are appended, the `OnEvent` hook and wall-clock backoff are not modelled; a backoff is only the choice between retrying and cancellation.
- EngineLoops: clones made by a fork inside a loop body are not part of the body, as in the code; the main scheduler may run them, and the theorems on tame nodes leave them out.
- EngineTheorems.TraceGrammar: for tame nodes; a body node starts a new trace in every round (`EngineTraces.RoundGrammar`).
- EngineTheorems.StartsAfterSources: for tame nodes; the log of a body node mixes its rounds (`EngineTraces.RoundStartsAfterSources`).
- EngineValues.AttemptsRespected: for tame nodes, in the log of the whole run; `EngineLimits.StartsBounded` bounds the starts of body nodes.
- EngineTraces.RoundGrammar: for bodies without loops; a nested loop resets its own body several times in one round of the outer one, and `EngineLives.NodeGrammar` is the statement that covers it.
- EngineTraces.RoundStartsAfterSources: for bodies without loops; a nested loop that shares nodes with the body around it resets sources of nodes that have started.
- EngineTheorems.JoinAfterClones: for forks outside loop bodies, because a loop never runs the clones of a fork in its body.
- EngineRounds.StuckIff: for bodies without loops, whose nodes a round runs without resetting them; `EngineRounds.StuckIffPending` is for all bodies.
- EngineRounds.TerminalIff: for bodies without loops; a nested loop that shares nodes with the body around it can reset the source of a node that has ended.
- EngineStuck.SmoothIff: for bodies without loops that are entered only from inside and have no edge that waits for a join to fail; with an edge from outside, whether a round sticks depends on what ran before the loop.
- KeepAliveExact.AliveIff: without a cap on holding, or with a long one; for caps of at most a third of the lease there is `KeepAliveExact.ShortHoldIff`, and for those between only `KeepAliveExact.ExactIsHeld`.
- WuidClose.LiveAgainIff: about the claim in progress; a worker may also begin a claim between its close and the end of its loop.
- ConfluenceEngine.RunsAgree: stated for the fixed point before the last pass, because that pass depends on map order (`EngineOrder.LastPassIff`).
- Wuid: the content of the diagnostic columns and static worker ids in the state machine are not modelled.
- Wuid: a renewal that sets the expiry to the value it already had counts as one affected row.
- DLock: the blocking `Lock` loop with its backoff is a repeated acquisition and adds no step of its own.
- AuditAnchorStore: a disabled store, the check on the length of a tenant id and transport errors of the store are not modelled.
- AuditAnchor: a tenant's objects are those filed under its own key prefix; buckets, retention and the Ed25519 arithmetic are not modelled, a signature is a check that holds of what the signer made.
- AuditService: JSON encoding of lines, the export manifest and the content digest are not modelled; WriteExport is the sequence of rows written.
- AuditService: reads and listings of single events are plain queries and are left out.
- Broker: a category is one of four constants, missing, or an unlisted text.
- Runs: one instance; events emitted by other instances only pass through the echo handler, which publishes them if their number is new.
- Mfa: one principal; sessions are counted, not described; encryption of secrets, password checks, audit entries and revocation of other sessions are not modelled; recovery codes are upper-cased in ASCII.
- Mfa: step-up challenges in stepup.go follow the same pattern as login challenges and are not part of this model.
- HTTP, WebSocket, NATS, SMTP, S3 and SQL plumbing, configuration, logging and metrics.
