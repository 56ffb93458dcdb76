# HelixGrid verification

HelixGrid schedules workflows: a coordinator written in Go validates task graphs, hands out leases to workers and
publishes events; a Python SDK reads a workflow language; a Java verifier replays event logs; a Python laboratory runs a
second implementation of the coordinator and shrinks failing scenarios. This project models the parts of these programs
that decide, and proves what they promise. `dafny verify dfyconfig.toml` checks everything.

Objects that the programs update in place are classes (`Workflow`, `Store`, `EventBus`, `EventStream`, `Verifier`,
`CycleFinder`, the chaos `Model`, the lexers and parsers); each of their methods is proved to take the step of a function
on values, and the theorems over all runs, traces, graphs and texts are lemmas about those functions. The clock, fresh
random ids and the iteration order of hash maps are parameters, so the theorems hold for every choice of them.

| files | what they model |
|---|---|
| `StringOrder`, `Graph`, `Kahn`, `WorkflowSpec` | `ValidateSpec`, retry policies, Kahn's algorithm with a sorted frontier |
| `Schedule`, `ListOrder`, `Makespan` | `EstimateMakespan`, the one list schedule it follows, and Graham's bounds |
| `CriticalPath`, `LongestPath` | `longestPath` and `descendantsCount` |
| `Runtime`, `Recompute` | `Workflow.Recompute`, `Workflow.Cancel` and the transition table |
| `StoreModel`, `StoreInvariant`, `StoreOperations`, `StoreRuns`, `StoreFinality`, `StoreTransitions`, `StoreBudget`, `StoreTiming`, `StoreRetry`, `StoreScheduling`, `StoreAnswers`, `StoreEvents`, `StoreIdempotency`, `StoreExamples`, `Store` | the coordinator's lease protocol, as a state machine and as a class |
| `Delivery`, `EventStream` | the event bus and the server-sent event loop |
| `DslGraph`, `DslCriticalPath` | `find_cycle`, `topological_order`, `critical_path` |
| `DslLexer`, `DslParser`, `DslSpelling`, `DslGrammar`, `DslRoundTrip`, `DslProgram`, `DslPrinter` | the workflow language: its grammar, lexer, parser and formatter |
| `Replay`, `ReplaySoundness`, `ReplayRecords`, `Verifier` | the replay verifier |
| `ChaosModel`, `ChaosReplay`, `ChaosAcceptance`, `ChaosSound`, `ChaosInvariant`, `ChaosChecks`, `ChaosAnswers`, `ChaosExamples`, `ChaosLab` | the chaos laboratory's model, its traces and its own checks |
| `Shrinker`, `TaskRemoval` | the delta debugger |
| `Json`, `JsonRoundTrip`, `JsonGrammar`, `JsonProgram` | the JSON reader and writer of the verifier, and the grammar they agree on |

Five promises hold only under a condition. For each there is an if-and-only-if over all inputs or runs, and a concrete input
that fails:

- formatting and parsing a workflow gives it back exactly if it passes the parser's own checks and no string in it holds U+0008
  or U+000C, which the formatter escapes and the lexer does not know (`DslRoundTrip.RoundTripExactly`; a name of one backspace:
  `DslRoundTrip.BackspaceRejected`);
- a flush of the event stream catches up exactly if no undelivered event of the workflow has left the buffer
  (`Delivery.FlushCatchesUp`; two events and a buffer for one: `Delivery.FlushLoses`);
- the verifier accepts the trace of a chaos run exactly if every accepted completion followed a start of that lease, although
  the model completes a lease that was never started (`ChaosAcceptance.AcceptedIffStarted`; add, register, lease, complete:
  `ChaosExamples.UnstartedCompletion`);
- `Attempt` exceeds `MaxAttempts` exactly if retries, expiries and the attempt not handed back together do, because an expiry
  gives the task back without looking at its budget, which tools/chaos_lab/model.py:927 denies. This is shown for the
  coordinator (`StoreBudget.BudgetExceeded`, and at the poll that does it `StoreBudget.GrantExceeds`; the second poll of
  `StoreExamples.SecondAttempt`) and for the chaos model (`ChaosChecks.BudgetExceeded`, `ChaosChecks.BudgetExact`; the second
  lease of `ChaosExamples.SecondAttempt`);
- `check_invariants` of the chaos model raises nothing at any point of a run exactly if no lease operation hands out a task whose
  attempts are used up and no registration resets a dropped worker that still holds leases (`ChaosChecks.ChecksExact`; drop and
  register again: `ChaosExamples.ForgottenLease`).

## Model

| member | source | states |
|---|---|---|
| WorkflowSpec.ValidateSpec | coordinator/internal/core/model.go:209-326 | Succeeds exactly on valid specifications and then returns the lexicographically least topological order of exactly the task ids; every error names a defect that is really present, and the cycle error appears exactly when the other checks pass and the graph has a cycle. |
| Kahn.Drain | coordinator/internal/core/model.go:300-325 | The sorted frontier outputs every task exactly when the graph has no cycle, and then in the least topological order; otherwise it outputs some tasks, once each. |
| Kahn.FrontierExhausted | coordinator/internal/core/model.go:307-325 | Once no further task is available, the greedy order is complete if and only if the graph is acyclic. |
| WorkflowSpec.ListingOrderIrrelevant | coordinator/internal/core/model.go:277-325 | Rearranging the task list changes neither the graph nor the order returned. |
| WorkflowSpec.RetryDelay | coordinator/internal/core/model.go:190-207 | The doubling loop yields the capped power-of-two backoff of the normalized policy, always positive and at most a day. |
| Makespan.EstimateMakespan | coordinator/internal/core/analytics.go:352-429 | Rejects a bad worker count, specification or duration with its reason; on all other inputs it terminates without the "no progress" error and returns the completion time of the list schedule in ascending id order, which is feasible and never idles a slot while a task could start. |
| Makespan.EstimateUnique | coordinator/internal/core/analytics.go:352-429 | For given tasks, durations and workers there is exactly one value that a list schedule in ascending id order attains, so the estimate is determined. |
| ListOrder.ListScheduleUnique | coordinator/internal/core/analytics.go:387-427 | Precedence, the number of slots, never idling, and letting no task start while one with a smaller id that could have started waits, fix the start of every task. |
| ListOrder.SmallerStartsFirst | coordinator/internal/core/analytics.go:384-425 | If every task takes time: a task with a smaller id that is released when another starts has started by then. |
| Makespan.EstimateBounds | coordinator/internal/core/analytics.go:352-429 | With m workers the estimate M is at least every dependency chain and at least the total work over m; m times M is at most the total work plus m - 1 times some chain; M is the total work for one worker and a longest chain when there is a worker per task; and M is at most 2 - 1/m times any feasible schedule. |
| Schedule.GrahamBound | coordinator/internal/core/analytics.go:383-427 | In every work-conserving schedule some dependency chain pays for all idle slot time. |
| Schedule.CompetitiveRatio | coordinator/internal/core/analytics.go:352-429 | No feasible schedule on the same slots is shorter by more than the factor 2 - 1/m. |
| LongestPath.LongestPath | coordinator/internal/core/analytics.go:176-214 | Over a topological order, the dynamic program reports the critical path of the graph, with its weight. |
| LongestPath.CriticalMeans | coordinator/internal/core/analytics.go:176-214 | The reported path is a dependency path from a root to a sink that is at least as heavy as every dependency path. |
| LongestPath.DescendantsCount | coordinator/internal/core/analytics.go:156-174 | The count reported for a task is the number of its transitive dependents. |
| CriticalPath.CriticalUnique | coordinator/internal/core/analytics.go:176-214 | There is only one critical path, ties included. |
| Runtime.Workflow.Recompute | coordinator/internal/core/model.go:365-426 | The loop over the order, with its flags, computes the pass that `Recomputed` specifies. |
| Runtime.Workflow.Cancel | coordinator/internal/core/model.go:428-441 | Cancels exactly the unfinished tasks, in whatever order the map is visited. |
| Recompute.RecomputeFixpoint | coordinator/internal/core/model.go:365-426 | One pass over a topological order reaches a fixpoint: a second pass at the same time changes nothing. |
| Recompute.PassRule | coordinator/internal/core/model.go:365-405 | In an unfinished workflow a task waiting for a retry becomes ready exactly if it has no retry time or that time has come; a pending one is cancelled if a dependency failed or was cancelled, and otherwise becomes ready exactly if all have succeeded; every other record stays. |
| Recompute.PassVerdict | coordinator/internal/core/model.go:406-426 | A pass finishes the workflow with success exactly if all tasks have succeeded, and with failure exactly if one has failed and none is ready, leased, running or waiting; otherwise it runs. |
| Recompute.CancelRule | coordinator/internal/core/model.go:428-441 | Cancelling an unfinished workflow cancels, now, exactly the tasks that have not succeeded, failed or been cancelled, and changes no other field of any task. |
| Recompute.NoDeadlock | coordinator/internal/core/model.go:365-426 | A workflow that a pass leaves unfinished is running and has a ready, leased, running or waiting task. |
| Recompute.FailureClosure | coordinator/internal/core/model.go:365-426 | A workflow that becomes failed has only finished tasks, and its cancelled tasks are exactly the transitive dependents of its failed ones. |
| StoreRuns.RunInv | coordinator/internal/core/store.go:66-367 | After every run, leases and tasks name each other with matching token, owner, expiry and attempt; every worker counter equals the number of its leases and is within capacity; every workflow state is true of its tasks. |
| StoreRuns.LeasesMatchTasks | coordinator/internal/core/store.go:179-341 | There are as many leases as leased or running tasks. |
| StoreRuns.SlotsMatchLeases | coordinator/internal/core/store.go:179-367 | The worker counters add up to the number of leases. |
| StoreRuns.LiveLease | coordinator/internal/core/store.go:238-255 | A lease names a task that carries exactly its fields, its worker holds a slot and its workflow is unfinished, so no guard clamps and a renewal needs no stale check. |
| StoreRuns.NeverStale | coordinator/internal/core/store.go:218-336 | No operation of any run reports a stale lease or a task that is not running. |
| StoreRuns.RunsNeverStall | coordinator/internal/core/model.go:365-426 | In every reachable store an unfinished workflow has a task that can make progress. |
| StoreFinality.RunFinal | coordinator/internal/core/store.go:66-367 | From any point of a run on, a closed token never becomes a lease again, and a finished workflow or task never changes. |
| StoreFinality.CompletionAcceptedOnce | coordinator/internal/core/store.go:290-336 | After an accepted completion every later completion of the same token is answered with "lease not found". |
| StoreTransitions.RunFollowsEdges | coordinator/internal/core/model.go:142-163 | In every run each step moves each task along at most one edge of the transition table, or along two through `READY` (a poll) or `RUNNING` (a completion); tasks never vanish, new ones start pending, and no requested transition is refused. |
| StoreTransitions.RecomputeHonoured | coordinator/internal/core/model.go:365-405 | Recomputation only asks for transitions that the table allows, so ignoring the error of `TransitionTask` loses nothing. |
| StoreTransitions.CompleteFollowsEdges | coordinator/internal/core/store.go:290-336 | A completion takes its task through `RUNNING` to succeeded, waiting or failed as the report and the attempts left say, and the recomputation that follows leaves it there. |
| StoreTransitions.CancelFollowsEdges | coordinator/internal/core/store.go:101-144 | The direct assignments of a cancellation follow edges of the table. |
| StoreTransitions.ExpireSettles | coordinator/internal/core/store.go:354-367 | The direct assignment of an expiry gives a leased or running task back as ready and touches no other task. |
| StoreBudget.Accounting | coordinator/internal/core/store.go:199-367 | In every run `Attempt` is the number of leases granted to the task, at most `MaxAttempts` plus its expiries; failing completions never exceed `MaxAttempts`; at most one success is published; waiting means attempts are left and failed means none is. |
| StoreBudget.BudgetExceeded | coordinator/internal/core/store.go:290-367 | In every run the attempts of a task that is not cancelled are its retries, its expiries and one more while an attempt is running or has ended for good; `Attempt` exceeds `MaxAttempts` exactly if that sum does. |
| StoreBudget.GrantExceeds | coordinator/internal/core/store.go:179-216 | A poll hands out an attempt beyond `MaxAttempts` exactly if retries and expiries had used the budget up. |
| StoreExamples.SecondAttempt | coordinator/internal/core/store.go:354-367 | A run of four calls after which a task with `MaxAttempts` 1 is attempted for the second time. |
| StoreIdempotency.RunKeys | coordinator/internal/core/store.go:66-85 | In every reachable store every idempotency key stands for a workflow that exists, and no two keys for the same one. |
| StoreIdempotency.CreatedOnce | coordinator/internal/core/store.go:66-85 | Once a request with a key was answered with a workflow, every later request with that key is answered with the same workflow and changes nothing. |
| StoreScheduling.LeaseNextServes | coordinator/internal/core/store.go:179-216 | A live worker is refused only if it is full or nothing ready matches its labels; otherwise it gets the first such task, in order, of a workflow with the least creation time, and all dependencies of that task have succeeded. |
| StoreTiming.SweepCloses | coordinator/internal/core/store.go:338-367 | A sweep closes exactly the leases that have run out, and keeps the others with their fields and their tasks' records; for each task one `lease.expired` is published exactly if its lease was closed. |
| StoreTiming.PollCloses | coordinator/internal/core/store.go:179-216 | A poll closes exactly the leases that have run out, reports each once, keeps the others with their tasks' records, and adds at most the lease that it grants. |
| StoreRetry.StepStill | coordinator/internal/core/store.go:66-367 | Whatever is called before its retry time, a task waiting for a retry stays exactly as it is, unless its workflow is cancelled. |
| StoreRetry.SweepWakes | coordinator/internal/core/model.go:365-405 | A sweep makes a task that waits for a retry ready exactly if its retry time has come. |
| StoreRetry.RetryLife | coordinator/internal/core/store.go:290-367 | In every run, a completion that fails with attempts left sets the retry time to the time of the completion plus the power-of-two delay of the attempt; until then the task waits through all calls but a cancellation; a sweep wakes it exactly from then on. |
| StoreEvents.RunTold | coordinator/internal/core/store.go:66-380 | After every run the workflow events published about each workflow, in order, are its creation, its start and, exactly if it has ended, the one event that says how; nothing is published about an unknown one. |
| StoreEvents.CreateAnswers | coordinator/internal/core/store.go:66-85 | A creation under a new key adds one running workflow whose tasks are ready if they have no dependency and otherwise pending, all fresh, remembers the key, and changes nothing else. |
| StoreEvents.CreateLog | coordinator/internal/core/store.go:78-83 | A creation publishes the creation, the start, and then one `task.ready` for each task without dependencies, in the order of the workflow. |
| StoreEvents.CancelAnswers | coordinator/internal/core/store.go:101-144 | A cancellation closes exactly the leases of the workflow, cancels its unfinished tasks, clears every lease field in it and leaves the other workflows alone. |
| StoreEvents.CancelLog | coordinator/internal/core/store.go:112-141 | It publishes one `task.cancelled` for each task that had not ended, in the order of the workflow, and then the cancellation. |
| StoreAnswers.GuardAnswers | coordinator/internal/core/store.go:218-336 | A token is served exactly if its lease is known and has not run out; an unknown one changes nothing, and one that has run out is closed and its task handed back. |
| StoreAnswers.StartAnswers | coordinator/internal/core/store.go:218-236 | Starting marks a leased task as running since now and changes nothing else; starting it again changes nothing. |
| StoreAnswers.RenewAnswers | coordinator/internal/core/store.go:238-255 | Renewing sets the expiry to twenty seconds from now, in the lease and in its task, and changes nothing else. |
| StoreAnswers.LogAnswers | coordinator/internal/core/store.go:257-288 | A chunk is refused for its stream, for more than 64 KiB or for more than 32 MiB in all, in this order; otherwise exactly its bytes are added to the output of the task. |
| StoreAnswers.SizeIsUtf8 | coordinator/internal/core/store.go:265-283 | The size that is accounted for is the number of bytes of the text in UTF-8. |
| StoreAnswers.CompleteAnswers | coordinator/internal/core/store.go:290-336 | A completion closes exactly its lease and leaves its task succeeded, failed or waiting for the retry time, with the report, the time and no lease. |
| StoreAnswers.PolicySpelled | coordinator/internal/core/model.go:165-188 | The normalized policy, number by number: defaults for what is missing, and caps for all. |
| StoreAnswers.RegisterAnswers | coordinator/internal/core/store.go:146-155 | A registration adds one worker with between one and 256 slots, all free. |
| StoreAnswers.HeartbeatAnswers | coordinator/internal/core/store.go:157-164 | A heartbeat changes nothing but the time of the last heartbeat of a known worker. |
| StoreAnswers.PollAnswers | coordinator/internal/core/store.go:179-186 | A poll of an unknown worker, of one without a heartbeat for 45 seconds, or of a full one does nothing but sweep. |
| StoreAnswers.OfferSpelled | coordinator/internal/core/store.go:174-197 | A ready task is offered exactly to the workers that have every label it asks for, a label they lack counting as empty. |
| StoreAnswers.GrantAnswers | coordinator/internal/core/store.go:198-213 | A grant makes the task leased for twenty seconds, takes one slot of the worker and counts one more attempt. |
| Store.Store.CreateWorkflow | coordinator/internal/core/store.go:66-85 | The object takes the step of `StoreModel.CreateWorkflow`, validates a new key's specification, keeps the invariant and adds one fresh workflow or none. |
| Store.Store.CancelWorkflow | coordinator/internal/core/store.go:101-144 | The loop that deletes leases while ranging over them takes the step of `StoreModel.CancelWorkflow`, for every iteration order, and keeps the invariant. |
| Store.Store.RegisterWorker | coordinator/internal/core/store.go:146-155 | Adds one worker with the clamped capacity and keeps the invariant. |
| Store.Store.HeartbeatWorker | coordinator/internal/core/store.go:157-164 | Updates the heartbeat of a known worker only, and keeps the invariant. |
| Store.Store.LeaseNext | coordinator/internal/core/store.go:179-216 | Sweep, sort and scan take the step of `StoreModel.LeaseNext` and keep the invariant. |
| Store.Store.StartLease | coordinator/internal/core/store.go:218-236 | Takes the step of `StoreModel.StartLease` and keeps the invariant. |
| Store.Store.RenewLease | coordinator/internal/core/store.go:238-255 | Takes the step of `StoreModel.RenewLease` and keeps the invariant. |
| Store.Store.AppendLog | coordinator/internal/core/store.go:257-288 | Takes the step of `StoreModel.AppendLog` and keeps the invariant. |
| Store.Store.CompleteLease | coordinator/internal/core/store.go:290-336 | Takes the step of `StoreModel.CompleteLease` and keeps the invariant. |
| Store.Store.Sweep | coordinator/internal/core/store.go:338-367 | Deleting expired leases while ranging over them, then recomputing, takes the step of `StoreModel.Sweep` and keeps the invariant. |
| EventStream.EventBus.Publish | coordinator/internal/core/model.go:467-482 | Appends the event with the next id, evicts from the bounded buffer and offers the event to every subscriber without blocking. |
| EventStream.EventBus.SubscribeReplay | coordinator/internal/core/model.go:504-530 | Returns the buffered events of the workflow after an id and installs the subscription in the same step. |
| EventStream.EventStream.FlushReplay | coordinator/internal/api/server.go:285-297 | Sends what the buffer holds after the last id sent, as far as the connection takes it; the guard against repeats never fires. |
| EventStream.EventStream.Select | coordinator/internal/api/server.go:301-325 | A pass of the loop flushes exactly on a ping or on a new event of its workflow, and keeps delivery exactly once and in order while nothing undelivered was evicted. |
| Delivery.RunDelivers | coordinator/internal/api/server.go:264-325 | At every moment of every run, whatever the channel dropped, the client has been sent exactly the events of its workflow above its `Last-Event-ID` up to the last id sent, in order, as long as no undelivered one was evicted before a wake-up. |
| Delivery.DeliveredSpelled | coordinator/internal/api/server.go:264-325 | Event by event: the client has each event of its workflow after the id it asked for and up to the last id sent, no other, each once, in ascending order of ids. |
| Delivery.ClientDelivered | coordinator/internal/api/server.go:264-325 | The same for a connection from its first replay on, with any non-negative `Last-Event-ID`, even one ahead of the log. |
| Delivery.FlushCatchesUp | coordinator/internal/api/server.go:285-297 | A flush that is not cut short catches up with everything published if and only if no undelivered event of the workflow has left the buffer. |
| Delivery.FlushLoses | coordinator/internal/api/server.go:285-297 | Two events of one workflow, a buffer for one: no flush catches up. |
| Delivery.Reconnects | coordinator/internal/api/server.go:264-325 | A client that always reconnects with the last id it received gets, over any number of connections and whatever is published during and between them, every event of its workflow since its first request exactly once and in order, as long as no undelivered one was evicted before a wake-up. |
| Delivery.ReconnectCatchesUp | coordinator/internal/api/server.go:264-325 | When the last of these connections flushes without being cut short, the client has everything published since its first request if and only if no undelivered event has left the buffer. |
| DslGraph.FindCycle | sdk/python/src/helixgrid/dsl.py:612-645 | The depth-first search returns nothing exactly when the graph of known tasks has no cycle; otherwise a closed walk along dependency edges. |
| DslGraph.TopologicalOrder | sdk/python/src/helixgrid/dsl.py:588-609 | Succeeds exactly for unique ids without a cycle, with the least topological order; the failure carries what the cycle search finds. |
| DslGraph.Agreement | sdk/python/src/helixgrid/dsl.py:588-645 | For unique ids the two searches agree. |
| DslCriticalPath.FindCriticalPath | sdk/python/src/helixgrid/dsl.py:648-680 | Fails on repeated ids and cycles. Otherwise, if all weights are positive or every dependency is a task, there is a heaviest path of the graph of known tasks, the critical one for positive weights: it is returned with its weight if it starts at a task without dependencies, and otherwise the lookup error names the first dependency of that task. |
| DslCriticalPath.MissingExactly | sdk/python/src/helixgrid/dsl.py:648-680 | With positive weights the lookup error appears exactly if the critical path of the known graph starts at a task that lists dependencies. |
| DslCriticalPath.PathsAgree | sdk/python/src/helixgrid/dsl.py:648-680 | With positive weights the coordinator and the SDK report the same path and the same weight. |
| DslRoundTrip.RoundTrip | sdk/python/src/helixgrid/dsl.py:716-761 | Formatting and then parsing a workflow with unique task ids, non-empty commands and an acceptable timeout and retry policy gives it back if and only if no string in it holds U+0008 or U+000C; otherwise parsing fails. |
| DslRoundTrip.RoundTripExactly | sdk/python/src/helixgrid/dsl.py:716-761 | For every workflow node: formatting and parsing gives it back if and only if its task ids are distinct, its commands are not empty, its timeouts and retry policies are in range, and no string in it holds U+0008 or U+000C. |
| DslRoundTrip.BackspaceRejected | sdk/python/src/helixgrid/dsl.py:748-751 | A workflow whose name is one backspace is formatted to text that does not parse. |
| DslRoundTrip.ParsedOk | sdk/python/src/helixgrid/dsl.py:232-452 | Whatever the parser accepts has distinct task ids, non-empty commands, and timeouts and retry policies in range. |
| DslRoundTrip.AcceptedReparses | sdk/python/src/helixgrid/dsl.py:716-761 | Every accepted source can be formatted and parsed again, with the same result and a stable text, if and only if no string in it holds U+0008 or U+000C. |
| DslRoundTrip.FormattingIsStable | sdk/python/src/helixgrid/dsl.py:716-761 | Formatting what was parsed from formatted text changes nothing. |
| DslLexer.LexItems | sdk/python/src/helixgrid/dsl.py:92-229 | Lexing spaced pieces of text gives exactly their tokens when every quoted string is readable, and fails otherwise. |
| DslSpelling.LexesExactly | sdk/python/src/helixgrid/dsl.py:92-229 | The lexer yields given tokens if and only if the text is a sequence of lexemes that stand for them: blanks and comments that stand for nothing, strings in either quotes with every spelling of their characters, and words, numbers and durations as long as they can be. |
| DslSpelling.RejectsExactly | sdk/python/src/helixgrid/dsl.py:92-229 | It fails exactly on the texts that are no such sequence. |
| DslGrammar.ParsesExactly | sdk/python/src/helixgrid/dsl.py:232-484 | A text parses as a workflow if and only if the grammar derives its tokens and gives them that meaning: ends of line, compact tasks, lists or one string as a command, retry options in any order with optional commas, fields at most once, names at most once, durations of at most a day. |
| DslGrammar.DurationSays | sdk/python/src/helixgrid/dsl.py:457-468 | A duration is accepted as so many milliseconds exactly if it is a number and a unit that make so many, at most a day. |
| DslProgram.Lexer.AllTokens | sdk/python/src/helixgrid/dsl.py:92-229 | The lexer object, advancing its index, yields the tokens that `Lex` specifies or fails with it. |
| DslProgram.Parser.Parse | sdk/python/src/helixgrid/dsl.py:232-452 | The parser object accepts and returns what `ParseTokens` specifies. |
| DslProgram.ParseSource | sdk/python/src/helixgrid/dsl.py:482-484 | Lexing and parsing together compute `Parse`, the function of the round trip. |
| DslPrinter.FormatSource | sdk/python/src/helixgrid/dsl.py:716-761 | For every workflow node, negative numbers included, the lines appended and joined are the text `Format` of the round trip. |
| DslPrinter.Sorted | sdk/python/src/helixgrid/dsl.py:718-734 | Enumerates the keys of a map in ascending order, once each. |
| Verifier.Verifier.Accept | tools/replay-verifier/src/main/java/dev/helixgrid/verifier/Main.java:231-546 | The object, with its maps and counters, takes the step of `Replay.Accept` on every event, legal or not. |
| Verifier.Verifier.Finish | tools/replay-verifier/src/main/java/dev/helixgrid/verifier/Main.java:547-616 | The final checks report an error exactly when some replayed task shows one, and change nothing else. |
| ReplaySoundness.CleanIffLegal | tools/replay-verifier/src/main/java/dev/helixgrid/verifier/Main.java:294-546 | A handler reports no error exactly for the events that a declarative rule book allows in the replayed state. |
| ReplayRecords.Records | tools/replay-verifier/src/main/java/dev/helixgrid/verifier/Main.java:331-546 | What every event, legal or not, makes of the replayed record of every task, field by field: state, attempt, lease, start and finish. |
| ReplayRecords.TraceStates | tools/replay-verifier/src/main/java/dev/helixgrid/verifier/Main.java:231-546 | After any trace exactly the tasks that task events named are known, and each is in the state that its last event named, or cancelled if its workflow was cancelled since and it had not ended. |
| ReplayRecords.NextAccepted | tools/replay-verifier/src/main/java/dev/helixgrid/verifier/Main.java:231-546 | The next event draws no error exactly if its sequence number is new and above the last, and it is filtered out or the rule book allows it. |
| ReplaySoundness.TraceSound | tools/replay-verifier/src/main/java/dev/helixgrid/verifier/Main.java:231-546 | A trace without errors has pairwise disjoint leases per task with strictly increasing attempts, given or implied; starts, completions, cancellations and expiries that name a worker name the owner of the lease; and every worker's active tasks are exactly those whose lease it owns. |
| ChaosAcceptance.RunAccepted | tools/chaos_lab/model.py:290-778 | Replaying the events of any run in which accepted completions follow starts, and then the final checks, finds no error. |
| ChaosAcceptance.AcceptedIffStarted | tools/chaos_lab/model.py:518-565 | The trace of a run is free of errors if and only if every accepted completion followed a start. |
| ChaosAcceptance.CompletionNeedsStart | tools/chaos_lab/model.py:518-565 | Completing a live lease draws no error exactly if the lease was started. |
| ChaosExamples.UnstartedCompletion | tools/chaos_lab/model.py:518-533 | Adding, registering, leasing and completing without a start is a run whose trace draws an error. |
| ChaosInvariant.RunInv | tools/chaos_lab/model.py:290-778 | In every reachable model, whether or not completions follow starts, leases and tasks name each other, a lease is started exactly while its task runs, no finished workflow has a lease, and a succeeded workflow has only succeeded tasks. |
| ChaosChecks.RunChecks | tools/chaos_lab/model.py:821-962 | In every reachable model the event sequence, worker capacity, lease, lease field, dependency, terminal workflow, retry time, timestamp and output checks, and all attempt checks but the budget, raise nothing. |
| ChaosChecks.IndexExact | tools/chaos_lab/model.py:857-875 | A lease is missing from the index of its worker at some point of a run exactly if some registration resets a dropped worker that holds leases. |
| ChaosChecks.BudgetExact | tools/chaos_lab/model.py:922-932 | A task exceeds its budget at some point of a run exactly if some lease operation hands out a task whose attempts are used up. |
| ChaosChecks.ChecksExact | tools/chaos_lab/model.py:821-962 | `check_invariants` raises nothing at every point of a run if and only if neither of the two happens. |
| ChaosChecks.OutputExact | tools/chaos_lab/model.py:956-962 | The output check holds in a reachable model exactly if the limit is not negative or there is no task. |
| ChaosChecks.BudgetExceeded | tools/chaos_lab/model.py:403-458 | In every run the attempts of a task are its grants, at most the budget plus its expiries; for a task that is not cancelled they exceed the budget exactly if retries, expiries and the attempt not handed back do. |
| ChaosExamples.SecondAttempt | tools/chaos_lab/model.py:632-652 | A run after which a task with one attempt has been attempted twice and the checks fail. |
| ChaosExamples.ForgottenLease | tools/chaos_lab/model.py:366-401 | A run in which a dropped worker registers again while it holds a lease, after which the checks fail. |
| ChaosLab.Model.TransitionTask | tools/chaos_lab/model.py:699-706 | Refuses exactly the transitions outside the table; every caller proves that it is not refused. |
| ChaosLab.Model.AddWorkflow | tools/chaos_lab/model.py:290-327 | Takes the step of `ChaosModel.AddWorkflow`, accepting exactly the valid graphs and storing their least topological order. |
| ChaosLab.Model.LeaseNext | tools/chaos_lab/model.py:403-458 | Sweeps, recomputes, and leases the candidate that comes first by creation time, workflow id and place in the order; it leases nothing to a worker that could serve only if there is no candidate. |
| ChaosLab.Model.Start | tools/chaos_lab/model.py:460-478 | Takes the step of `ChaosModel.Start`. |
| ChaosLab.Model.Renew | tools/chaos_lab/model.py:480-488 | Takes the step of `ChaosModel.Renew`. |
| ChaosLab.Model.AppendLog | tools/chaos_lab/model.py:490-508 | Takes the step of `ChaosModel.AppendLog`. |
| ChaosLab.Model.Complete | tools/chaos_lab/model.py:518-565 | Takes the step of `ChaosModel.Complete`, through the transitions one at a time. |
| ChaosLab.Model.CancelWorkflow | tools/chaos_lab/model.py:588-609 | The loop that closes leases task by task takes the step of `ChaosModel.CancelWorkflow` in every model whose leases name their tasks. |
| ChaosLab.Model.Sweep | tools/chaos_lab/model.py:618-630 | Expires the expired leases by expiry and token, then recomputes the workflows by id, and takes the step of `ChaosModel.Sweep`. |
| ChaosLab.Model.Recompute | tools/chaos_lab/model.py:654-697 | Takes the step of `ChaosModel.Recompute` with its events. |
| ChaosAnswers.SweepCloses | tools/chaos_lab/model.py:618-652 | A sweep closes exactly the visited leases that have run out; every other lease and its task stay. |
| ChaosAnswers.ExpireAnswers | tools/chaos_lab/model.py:632-652 | An expiry closes a lease exactly if it has run out, hands its task back and takes it off its worker. |
| ChaosAnswers.PassWakes | tools/chaos_lab/model.py:654-697 | A pass wakes a task that waits for a retry exactly if its time has come, and keeps every record that is neither pending nor waiting. |
| ChaosAnswers.PassSettles | tools/chaos_lab/model.py:654-697 | A pending task is cancelled if a dependency is failed or cancelled after the pass, and otherwise becomes ready exactly if all have succeeded. |
| ChaosAnswers.DelaySpelled | tools/chaos_lab/model.py:81-90 | The loop of `delay_for_attempt` yields the base, doubled for every earlier attempt, up to the maximum. |
| ChaosAnswers.CompleteSpelled | tools/chaos_lab/model.py:518-565 | A completion closes its lease, frees the slot of its worker and records the report. |
| ChaosAnswers.LogSpelled | tools/chaos_lab/model.py:490-508 | A chunk is refused for its stream, its size or the output in all, in this order. |
| ChaosAnswers.PollSpelled | tools/chaos_lab/model.py:403-458 | Which workers are served, and the lease they get. |
| ChaosLab.RunLinked | tools/chaos_lab/model.py:588-609 | In every reachable model an unfinished task that holds a lease is the one the lease names, so `cancel_workflow` meets its precondition at any point of any run. |
| Shrinker.Ddmin | tools/chaos_lab/shrinker.py:100-132 | Terminates and returns a subsequence that still fails and has at most one action or is 1-minimal; an attempt was accepted exactly if something was removed. |
| TaskRemoval.WithoutTask | tools/chaos_lab/shrinker.py:272-292 | Computes the task list with every task of that id removed and the dependencies of the first of them spliced into every list that names it. |
| TaskRemoval.RemovalKeepsMeaning | tools/chaos_lab/shrinker.py:272-292 | Removing a task from a valid graph of two tasks or more gives a graph that `validate_dag` accepts and in which the remaining tasks reach each other exactly as before. |
| TaskRemoval.ValidateDag | tools/chaos_lab/model.py:329-364 | Accepts exactly the valid graphs, with the least topological order. |
| TaskRemoval.RemoveTasks | tools/chaos_lab/shrinker.py:188-226 | The pass keeps the failure and every task that an action mentions, leaves a valid graph in which the remaining tasks reach each other as before, and leaves nothing untried: every task that is kept is mentioned, or its removal was tried on some intermediate list and the failure went away, or it is the only one left. |
| TaskRemoval.RemovesAll | tools/chaos_lab/shrinker.py:188-226 | If every list fails, the pass leaves one task or only tasks that actions mention. |
| JsonRoundTrip.RoundTrip | tools/replay-verifier/src/main/java/dev/helixgrid/verifier/Json.java:167-433 | Parsing what was written gives the value back: the same structure, the same strings of UTF-16 units, the same keys in the same order and numbers equal by value. |
| JsonGrammar.ParsesExactly | tools/replay-verifier/src/main/java/dev/helixgrid/verifier/Json.java:157-463 | A text parses as a value if and only if the grammar says that it denotes it: any white space around the tokens, every escape in either case, with surrogate pairs, and numbers with fractions and exponents of either sign. |
| JsonGrammar.RejectsExactly | tools/replay-verifier/src/main/java/dev/helixgrid/verifier/Json.java:157-463 | Parsing fails exactly on the texts that denote no value. |
| JsonProgram.ParseText | tools/replay-verifier/src/main/java/dev/helixgrid/verifier/Json.java:157-165 | The parser object with its one unit of lookahead computes `Json.Parse`, failures included. |
| JsonProgram.AppendValue | tools/replay-verifier/src/main/java/dev/helixgrid/verifier/Json.java:205-232 | The recursive writer appends exactly the text `Json.Write`. |

## Left out

- `AnalyzeGraph` levels, bottleneck ranking, saturation and the other float scores: reporting.
- Integer widths: durations, weights and counters are unbounded, where Go and Java wrap at 64 or 32 bits.
- HTTP, JSON decoding in Go, the byte framing of events, network clients and user interfaces: input and output.
- Copies returned to callers, `GetWorkflow` and the listings: no decision is taken in them.
- Event data, log texts, messages and source positions, except the attempt number that the verifier reads.
- The worker process, the simulator and the SQL schema: timing, random durations and an incomplete state machine.
- Ids and keys are ordered by character codes, which agrees with the byte order of Go only for ASCII.
- The acceptance of coordinator traces: the coordinator wakes a waiting task without publishing that it is ready (coordinator/internal/core/store.go:347-351), so with retries the verifier rightly objects; the theorem is stated for the chaos model, which publishes.
- The size limit of the order in `lease_next` of the chaos model: places compare as numbers, as their eight digits do below one hundred million.
- The snapshot, the digest and the random generator of the chaos laboratory. Its lease records carry no copy of their token and no closed flag: a token is the key of a record, and closed records have a map of their own.
- `stale_complete`, `stale_renew`, `duplicate_complete` and the rejection counters of the chaos model: they only refuse.
- `_simplify_actions` and `_remove_workers` of the shrinker: reruns of the same predicate without a minimality claim.
- Statistics and reports of the verifier.
- Verifier.Verifier.Finish: counts errors only; the warnings of the final checks are left out.
- `validate`, `compile_node`, `graphviz` and `statistics` of the workflow language.
- ChaosLab.Model: tasks, workflows, workers and leases are values in its dictionaries, so sharing between a dictionary and a local variable of the original is not captured.
- Verifier.Verifier: the replayed tasks and workers are values in its maps, not shared objects.
- ChaosLab.Model.CancelWorkflow: requires that an unfinished task holding a lease is the one the lease names; `ChaosLab.RunLinked` proves this for every reachable model.
- DslRoundTrip.RoundTrip: `\u` escapes of surrogates, which Python reads as lone surrogates, are treated as errors; the formatter never writes them. Splitting a command string like a shell is a parameter.
- DslSpelling.LexesExactly: `\u` escapes of surrogates, which Python reads as lone surrogates, are treated as errors.
- DslGrammar.ParsesExactly: how a command string is split like a shell is a parameter of the grammar as it is of the parser.
- DslCriticalPath.FindCriticalPath: for graphs that have both unknown dependencies, which `validate` rejects, and weights that are not positive, says only that the lookup error names an unknown dependency.
- ChaosChecks.ChecksExact: assumes a positive lease duration, which the constructor demands, and an output limit that is not negative; `ChaosChecks.OutputExact` covers negative limits. Retry policies are normalized, as every task normalizes its own.
- StoreBudget.BudgetExceeded: says nothing of cancelled tasks, because a cancellation reports no event that tells whether it ended an attempt; `StoreBudget.Accounting` bounds their attempts as well. The same holds for `ChaosChecks.BudgetExceeded`.
- JsonProgram.ParseText: only ASCII digits are digits, where Java accepts the decimal digits of every script in fractions, exponents and hexadecimal escapes; the writer produces none of those.
- JsonGrammar.ParsesExactly: the digits of the grammar are the ASCII digits, as for `JsonProgram.ParseText`.
- JsonRoundTrip.RoundTrip: numbers are held as an unscaled integer and a 32-bit scale, and no other limit of `BigDecimal` is modelled.
- ReplaySoundness.TraceSound: needs no workflow filter and no slash in workflow ids, because active tasks are listed under the two ids joined by a slash.
