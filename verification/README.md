# Chronos, modelled and proved

Chronos is a deterministic, event-sourced workflow engine that is replicated through Raft. This project models its
core in Dafny and proves what that core is for. Five parts are modelled, each in the form the program has it.

**The workflow state machine.** `Reducer` states, as functions on values, how every command becomes events and how
every event changes a workflow. `Steps` and `Forms` say what an accepted command does to the whole state; `Invariant`,
`CanonicalForms`, `Submission` and `Preservation` show that every accepted command keeps one invariant; `Runs` and
`Theorems` draw the consequences for every reachable state and every run: timers correspond to tasks, nothing is ever
stuck, fences decide who may report, sagas compensate in order and completely. `Acceptance` proves when commands are
accepted, the race between lease and timeout included. `InPlace` is the same operations as the program runs them, on a
mutable `State` and a mutable `EventPlan`, proved to meet the functions.

**The engine.** `Ledgers` states the engine as a value; `Replays`, `Chronicle` and `Snapshots` prove replay, receipt
partition and snapshot round trips for every history. `CoreEngine` is the engine on the heap: request deduplication,
checkpoint and rollback, staging on copies owned by a transaction, and atomic multi-batch apply. `Retention` covers
compaction and eviction.

**The scheduler.** `Usage`, `Quotas` and `Scheduler` prove that running totals equal a recount, that no run exceeds a
limit, and what the scan for leasable tasks finds; `Selection` is the credit-keeping scheduler object and `Fairness`
the theory of its picks.

**The durable store.** The key-value store is a value with atomic batches and an ordered write log; a crash keeps a
prefix of it that includes every synced batch. `Keys` and `Receipts` are the codecs. A *book* (`Archives`) is
everything a store has accepted or refused as a conflict: its states, its receipts with their log positions and its
conflict outcomes. `Filings`, `Segments`, `Results` (each attempt reported once, and the task-result segments) and
`Transfers` relate a book to the records that hold it; `Residents` relates it to the engine that keeps only active
workflows and to the outcomes that applying answers with. `RaftLogs` and `Storage` are the store object with its crash
recovery. `Membership` and `Lookups` are the layered filter in front of lookups, with the protocol between the writer
that hides and shows it and any number of lookups as a machine over single steps.

**The proposal pipeline.** `Pipelines` proves what keeps a planner in step with a log, and states the pipeline and the
Raft log it plans against as one machine (open, prepare, append, sweep, evict, fail, apply, Raft motion): planning
ahead of commit is exact in every run of it. `Coordination` is the runtime loop as an object: where each request is,
when it is answered, which log position it is expected at; it carries the steps of that machine with it, so its
planner is exact too. `Driver` is the local runner, proved to end with a completed workflow except for named reasons.

Raft is used through its contract: a node leads a term once, what a leader appends stays while it leads in the same
term, what is applied stays, entries to save are contiguous and above the commit index, and incoming snapshots were
made by some store and lie above the commit index. Derived identifiers and command hashes are injective by
construction (`Id` and `Hash` are datatypes), while a caller may still supply any identifier, a derived one included.
Integers are unbounded with the 32- and 64-bit bounds, wraps and guards of the program written out.

Three statements are sharper, or narrower, than their plain wording:

- Segmented keys are injective only for values shorter than 2^32 bytes, because the length prefix has 32 bits;
  `Keys.LongValuesCollide` gives two different lists of values with one key, `Keys.SegmentedRoundTrip` the exact
  condition for parsing back.
- Once lease and timeout are both due, firing the timeout can be refused when the retry deadline overflows 64 bits;
  `Acceptance.DeadlineRace` gives the exact condition for both commands.
- With one eligible namespace the lower share bound of `Fairness.PrefixShare` is met with equality, so it is stated as
  closed; for two or more it is stronger than the open bound n w - (k - 1) W.

Every lemma carries `{:induction false}`: proofs use no induction but the calls they make. A `hide` at the head of a
contract or a body says which definitions are not needed there; it changes no meaning.

## Model

| member | source | states |
|---|---|---|
| `Validate.HasCycle` | internal/core/validate.go:111-141 | the counting loop answers "no cycle" exactly when the tasks can be ranked strictly after their dependencies |
| `Validate.ValidateDefinition` | internal/core/validate.go:9-84 | the loop over tasks and edges accepts exactly the definitions that are valid as stated declaratively (unique ids, retry bounds, fan-out aggregates, a ranking) |
| `CanonicalForms.CanonicalValid` | internal/core/clone.go:64-92 | canonical form keeps a definition valid, so a submission that validates is never refused by its own event |
| `Backoff.ComputeRetryDelay` | internal/core/workflow_transitions.go:207-225 | the doubling loop with its overflow guard computes min(cap, initial * multiplier^retries) with every intermediate value in 64 bits |
| `Backoff.RetryDelayValidated` | internal/core/validate.go:86-100 | for every validated policy the delay is the closed form and lies between the initial backoff and the cap |
| `Backoff.RetryDelayMonotone` | internal/core/workflow_transitions.go:207-225 | more retries never wait less |
| `Submission.SubmitForm` | internal/core/reducer.go:58-82 | an accepted submission gives a fresh task table in canonical form, with a start timer or with the dependency-free tasks ready |
| `Forms.StartForm` | internal/core/reducer.go:84-153 | an accepted start replaces one task by its next attempt, with fence and attempt one higher, and schedules its timeout exactly when it has one |
| `Forms.RenewForm` | internal/core/reducer.go:267-291 | an accepted renewal only lengthens the lease of the holder, never past the timeout |
| `Forms.ExpireForm` | internal/core/reducer.go:293-317 | an accepted expiry releases the attempt and cancels its timeout, and changes nothing else |
| `Forms.CompleteForm` | internal/core/reducer.go:155-224 | an accepted completion is the completed task, then its fan-out, then every task that became ready, then the end of the workflow if all are completed |
| `Forms.FinishCompensationForm` | internal/core/reducer.go:155-186 | a finished compensation starts the next one, or ends the workflow as compensated when none is left |
| `Forms.FailForm` | internal/core/reducer.go:226-265 | an accepted failure report is followed by a retry while the budget lasts, else by compensation or failure of the workflow |
| `Forms.FireStartForm` | internal/core/workflow_transitions.go:263-285 | firing the start timer makes the workflow run and its dependency-free tasks ready |
| `Forms.FireRetryForm` | internal/core/workflow_transitions.go:263-289 | firing a retry timer makes exactly its task startable again |
| `Forms.FireTimeoutForm` | internal/core/workflow_transitions.go:290-317 | firing a timeout fails the attempt as a failure report would |
| `Forms.CancelForm` | internal/core/workflow_transitions.go:324-353 | an accepted cancellation cancels every active task and scheduled timer, then compensates or ends |
| `Steps.AddReadyForm` | internal/core/workflow_transitions.go:75-101 | the one-by-one ready loop makes ready at once exactly the eligible tasks, whatever their order |
| `Preservation.ExpandedRanking` | internal/core/workflow_transitions.go:424-461 | a fan-out keeps a dependency ranking of the whole task graph |
| `Runs.DecideKeeps` | internal/core/reducer.go:26-56 | every accepted command of any kind leads from one state that satisfies the workflow invariant to another |
| `Runs.ReachableInv` | internal/core/reducer.go:26-56 | the invariant holds in every state that any sequence of commands reaches |
| `Theorems.TimerTaskCorrespondence` | internal/core/workflow_transitions.go:355-406 | in every reachable state at most one scheduled timer answers any lookup; timeouts are scheduled exactly for leased tasks with a timeout, retries exactly for pending tasks with a nonzero retry count, a start exactly for a scheduled workflow, nothing for one that ended |
| `Theorems.TerminalIsFinal` | internal/core/reducer.go:336-348 | a workflow that has ended refuses every command and never changes again |
| `Theorems.NeverStuck` | internal/core/workflow_transitions.go:588-605 | until it has ended, every reachable workflow has a startable task, a live lease or a scheduled timer |
| `Theorems.DependenciesFirst` | internal/core/reducer.go:501-530 | in every reachable running workflow a task is ready, running or completed only after all its dependencies completed |
| `Theorems.RunMoves` | internal/core/reducer.go:532-651 | along any run attempts, completion sequences and compensations of a task never go back |
| `Theorems.SagaOrder` | internal/core/workflow_transitions.go:147-161 | over every run compensations begin one at a time, at most once for each task and in strictly decreasing order of completion |
| `Theorems.OneCompensationAtATime` | internal/core/workflow_transitions.go:534-553 | in every reachable state at most one compensation is in progress |
| `Theorems.CompensatedIsComplete` | internal/core/workflow_transitions.go:572-586 | a workflow ends as compensated or cancelled only when every completed task with a compensation has been compensated |
| `Theorems.OnlyNewestFence` | internal/core/reducer.go:319-334 | only the holder of the newest fence, which equals the attempt number, can complete, fail, renew or expire |
| `Theorems.StaleFenceRejected` | internal/core/reducer.go:319-334 | once a task is started again, no command with an older fence is accepted at any later point of the run |
| `Theorems.LeaseWithinTimeout` | internal/core/reducer.go:606-623 | in every reachable state a lease ends no later than the scheduled timeout of its attempt |
| `Theorems.RetryCounterNeverWraps` | internal/core/workflow_transitions.go:463-481 | in every reachable state the retry count is below the attempt budget, so its 32-bit increment never wraps |
| `Acceptance.DeadlineRace` | internal/core/workflow_transitions.go:290-317 | once both deadlines have passed, expiry is accepted exactly when the lease ends first and timeout exactly when both end together and no retry deadline overflows; so never both, and without that overflow always one |
| `Usage.ComputeUsage` | internal/core/usage.go:11-47 | the counting loop gives the declared usage, whatever order it meets the tasks in |
| `Usage.EffectShrinks` | internal/core/usage.go:11-47 | no command after submission raises a workflow's reserved tasks, through fan-out, retry, cancel and compensation; only a start raises its running count, by one |
| `Usage.CompleteShrinks` | internal/core/reducer.go:187-224 | a completion gives back at least one reserved task, its fan-out children included |
| `Quotas.SubmitUsage` | internal/scheduler/scheduler.go:438-446 | a submitted workflow reserves no more than the admission check counted for its definition |
| `Quotas.StepObeys` | internal/scheduler/scheduler.go:187-225 | an admitted command exceeds no global or namespace limit |
| `Quotas.QuotasHold` | internal/scheduler/scheduler.go:165-231 | over every run of staged batches no limit on workflows, tasks or running tasks is ever exceeded, although tasks are checked only at submission |
| `Scheduler.Inspect` | internal/scheduler/scheduler.go:368-436 | the scan over active workflows gives exact global and namespace totals |
| `Scheduler.Account` | internal/scheduler/scheduler.go:267-280 | adding or taking out a workflow moves every total of its scopes by its own usage and no other |
| `Scheduler.Admit` | internal/scheduler/scheduler.go:233-265 | the checks against the running totals agree with the checks against a fresh count |
| `Scheduler.Reaccount` | internal/scheduler/scheduler.go:267-280 | taking out the old usage and adding the new keeps the running totals equal to a full recount |
| `Scheduler.StageCommand` | internal/scheduler/scheduler.go:169-231 | one command of the batch loop: accepted with exact totals, or the whole transaction undone |
| `Scheduler.PrepareBatch` | internal/scheduler/scheduler.go:169-231 | the loop with running totals accepts and answers exactly as the specification that recounts after each command; retained it leaves that state, dropped or refused it leaves the engine as it was |
| `Selection.Scheduler.Plan` | internal/scheduler/scheduler.go:282-338 | a plan names the first task of the namespace with the largest raised credit, exactly when one is eligible and no 64-bit sum overflows, and carries the credits after the charge |
| `Selection.Scheduler.Commit` | internal/scheduler/scheduler.go:340-348 | a commit installs the planned credits once; a plan from before another commit is refused and changes nothing |
| `Fairness.CreditsBalance` | internal/scheduler/scheduler.go:306-337 | over any number of picks with a fixed eligible set the credits sum to zero |
| `Fairness.CreditsAbove` | internal/scheduler/scheduler.go:306-337 | no credit ever falls to minus the total weight |
| `Fairness.CreditsBelow` | internal/scheduler/scheduler.go:306-337 | no credit exceeds (k - 1)(W - 1) for k namespaces of total weight W |
| `Fairness.PrefixShare` | internal/scheduler/scheduler.go:306-337 | after n picks W times the count of a namespace lies between n w - (k - 1)(W - 1) and n w + W - 1 |
| `Fairness.WindowShare` | internal/scheduler/scheduler.go:306-337 | every window of W consecutive picks gives each namespace exactly its weight |
| `Fairness.Periodic` | internal/scheduler/scheduler.go:306-337 | the picks repeat with period W |
| `Fairness.GuardsPass` | internal/scheduler/scheduler.go:307-325 | while k W fits in 64 bits the overflow guards of a plan never fire in any stretch |
| `Lawfulness.ApplyLawful` | internal/core/reducer.go:366-480 | any event, reachable or not, keeps keyed tables and unique attempt timers, so lookups by map iteration are deterministic |
| `Lawfulness.AnyTimeoutIsTheOne` | internal/core/workflow_transitions.go:58-65 | whichever matching timeout the map iteration meets first is the only one |
| `InPlace.State.FindTimeout` | internal/core/workflow_transitions.go:58-65 | whichever matching timer is met, the result is the scheduled timeout of the attempt, or none |
| `InPlace.State.FindCompensation` | internal/core/workflow_transitions.go:147-161 | the selection loop returns the completed compensable task with the greatest completion sequence |
| `InPlace.State.ApplyFanoutExpanded` | internal/core/workflow_transitions.go:424-461 | children inserted while they are checked give the table of the declarative expansion, or a refusal |
| `InPlace.State.Move` | internal/core/reducer.go:388-470 | the event switch on the mutable state does what the pure transition does |
| `InPlace.ApplyOne` | internal/core/reducer.go:366-480 | applied in place or on a copy, an event gives the same state or the same error; isolated, the given object is untouched |
| `InPlace.EventPlan.Add` | internal/core/workflow_transitions.go:26-43 | a plan grows by one event, stamped and applied to its own state |
| `InPlace.EventPlan.AddReadyTasks` | internal/core/workflow_transitions.go:75-101 | the loop over sorted tasks with in-place updates meets the pure loop |
| `InPlace.EventPlan.AddRetry` | internal/core/workflow_transitions.go:227-248 | a retry is scheduled with its timer exactly while attempts are left and the deadline fits |
| `InPlace.EventPlan.AddTerminalFailure` | internal/core/workflow_transitions.go:192-205 | the wind-down cancels tasks and timers and then compensates or fails |
| `InPlace.Materialize` | internal/core/workflow_transitions.go:103-137 | the derived children are those of the canonical items in key order, or the first error |
| `InPlace.DecideCommand` | internal/core/reducer.go:26-56 | deciding on a staged object mutates only that object and deciding on an isolated one mutates nothing; both give the events, state and errors of the pure decision |
| `Ledgers.StoreIndexKeeps` | internal/core/retention.go:58-69 | storing a request, new or replaced, keeps the per-workflow index equal to one computed from the requests |
| `Ledgers.DropIndexKeeps` | internal/core/retention.go:71-86 | deleting a request keeps it too, and leaves no empty index entry |
| `Plans.DecideBuilt` | internal/core/workflow_transitions.go:26-43 | every accepted command is built by applying its events one by one to the state it found |
| `Replays.PreparedReplays` | internal/core/engine.go:106-177 | the stamped events of a command, applied one by one, give exactly the state it planned, numbered on from the version it found |
| `Chronicle.ReplayRebuilds` | internal/core/engine.go:298-322 | for every history of commands, replaying the journal rebuilds the live states, receipts, request index and active set |
| `Chronicle.ReceiptsCover` | internal/core/engine.go:79-97 | for every history an event number is in a receipt of the workflow exactly when it is between 1 and the version |
| `Chronicle.ReceiptsDisjoint` | internal/core/engine.go:79-97 | and it is at one place of one receipt only |
| `Snapshots.RestoreOfSnapshot` | internal/core/snapshot.go:9-90 | for every history, restoring the snapshot succeeds and gives the engine back, journal and counters aside |
| `Snapshots.SnapshotOfRestored` | internal/core/snapshot.go:28-90 | any snapshot that Restore accepts is reproduced by snapshotting the restored engine |
| `CoreEngine.Engine.ResolveState` | internal/core/retention.go:38-44 | the resident object, or a fresh one the loader decodes |
| `CoreEngine.Engine.StoreRequest` | internal/core/retention.go:58-69 | the request table and its index after a store |
| `CoreEngine.Engine.DeleteRequest` | internal/core/retention.go:71-86 | the request table and its index after a delete |
| `CoreEngine.Engine.ApplyPrepared` | internal/core/engine.go:79-97 | the tables after a prepared command, whether its state is a new object or the one already resident |
| `CoreEngine.Engine.ExtendCheckpoint` | internal/core/engine.go:390-403 | an entry is saved the first time it is named and never again |
| `CoreEngine.Engine.Rollback` | internal/core/engine.go:405-426 | saved entries are put back, the journal is cut and the indexes are exact again, whatever half-done states the refused plan left |
| `CoreEngine.Engine.PrepareAndApply` | internal/core/engine.go:74-177 | the mutable engine answers and changes as the pure one; a refused or repeated command leaves it as it was |
| `CoreEngine.StagingTransaction.PrepareAndApply` | internal/core/staging.go:26-37 | in-place staging answers each command and leaves the engine exactly as isolated planning would; a refused command undoes the whole transaction |
| `CoreEngine.StagingTransaction.ResolveState` | internal/core/staging.go:51-71 | the first use of a workflow puts a private copy in the table; later uses find it |
| `CoreEngine.StagingTransaction.Rollback` | internal/core/staging.go:43-49 | states, active set, requests, index, journal and counters are those of the beginning, down to the original state objects |
| `CoreEngine.StagingTransaction.Commit` | internal/core/staging.go:39-41 | a commit keeps what was staged and closes the transaction |
| `CoreEngine.DraftBatch` | internal/core/engine.go:212-272 | a batch is answered from a known record, refused as a conflict or applied to the draft, with the engine untouched |
| `CoreEngine.ApplyBatches` | internal/core/engine.go:199-296 | a success equals folding the batches one at a time, repeats answered from the first record; an error in any batch leaves the engine untouched |
| `Retention.CompactCoherent` | internal/core/retention.go:97-113 | compacting an ended workflow keeps active set and request index exact |
| `Retention.EvictCoherent` | internal/core/retention.go:88-95 | evicting one does too |
| `Theorems.HeaderGood` | internal/core/retention.go:97-113 | what compaction leaves of an ended workflow satisfies the workflow invariant, so it refuses every command as before |
| `Pipelines.HandlesAlike` | internal/coordinator/runtime.go:633-653 | a planner that mirrors the engine of the whole log, ended workflows up to compaction, accepts and rejects every command alike and still mirrors it |
| `Pipelines.SpeculationExact` | internal/coordinator/runtime.go:633-653 | a whole proposal is accepted or refused by the planner exactly as by the engine of the log through the last staged entry, with the same entries |
| `Pipelines.EntriesApply` | internal/coordinator/runtime.go:694-754 | staged entries apply in log order without error and give the staged state |
| `Pipelines.CommitInStep` | internal/storage/application.go:155-175 | any prefix of what a planner is ahead by applies to the committed state, and what is left is still in step |
| `Pipelines.EvictInStep` | internal/core/retention.go:88-95 | evicting from the planner a workflow that nothing it is ahead by touches keeps it in step; Pipelines.IdleUntouched establishes that condition |
| `Pipelines.CompactInStep` | internal/core/retention.go:97-113 | compacting an ended workflow in the planner keeps them in step |
| `Pipelines.PlannerExact` | internal/coordinator/runtime.go:508-589 | in every run of the machine, whenever the pipeline is valid, the log through its last position followed by what is still being prepared applies without error from the empty engine, and the planner accepts and rejects every proposal, with the same answers, exactly as the engine that this gives |
| `Coordination.Runtime.Admit` | internal/coordinator/runtime.go:442-462 | one turn of admission: a request is admitted with a token exactly when it is not canceled, this node leads and a token is free; otherwise it is answered at once |
| `Coordination.Runtime.Collect` | internal/coordinator/runtime.go:846-855 | the queue takes from the channel in order, up to the window |
| `Coordination.Runtime.DropCanceled` | internal/coordinator/runtime.go:869-875 | canceled requests at the head of the queue are answered in order |
| `Coordination.Runtime.StartPreparation` | internal/coordinator/runtime.go:591-615 | of what is queued and then on the channel, in that order, exactly the requests that are neither canceled nor refused are taken up, at most the limit, and the others passed on the way are answered; the machine starts the group |
| `Coordination.Runtime.StartProposal` | internal/coordinator/runtime.go:475-532 | every way it stops is told with its reason; it starts a group only on a valid pipeline, whose planner was there or is taken now with the whole log applied in this term |
| `Coordination.Runtime.Settle` | internal/coordinator/runtime.go:707-732 | of a prepared group refused and immediate requests are answered, staged ones become active at consecutive positions, and after an unready one the rest goes back to the front of the queue |
| `Coordination.Runtime.FinishPreparation` | internal/coordinator/runtime.go:694-754 | if no duplicate is missing, Raft takes the group and this node still leads at its end, exactly the staged requests become active at consecutive positions, the others are answered, and the sweep goes over all; otherwise everything in flight is answered |
| `Coordination.Runtime.Sweep` | internal/coordinator/runtime.go:782-844 | the in-place filter keeps exactly the unfinished proposals and answers exactly the finished ones, in order |
| `Coordination.Runtime.CheckProposal` | internal/coordinator/runtime.go:782-844 | a proposal is answered with results only when its own entry has been applied at the position it expected; a lost pipeline answers all in flight |
| `Coordination.Runtime.FailPipeline` | internal/coordinator/runtime.go:978-1002 | everything in flight is answered once, and a preparation under way finishes into nothing |
| `Coordination.Runtime.FailPending` | internal/coordinator/runtime.go:1101-1132 | everything that arrived has been answered exactly once and no token is held |
| `Coordination.Runtime.Turn` | internal/coordinator/runtime.go:357-432 | every turn of the loop keeps the whole invariant: one place for each request, tokens equal to bounded unanswered requests, window of 48, active proposals at their expected log positions, and the pipeline where the steps of the machine of module Pipelines have led it |
| `Coordination.OnePlace` | internal/coordinator/runtime.go:1134-1140 | under that invariant a request that arrived once is in exactly one of queue, preparing, active and answered, and is answered at most once |
| `Coordination.PlacedGroup` | internal/coordinator/runtime.go:877-910 | a group numbered past the end of the log is where it is expected once the leader has appended it |
| `Bytes.PrefixRange` | internal/storage/codec.go:51-64 | a key lies between a prefix and its upper bound exactly when it starts with the prefix |
| `Bytes.ComputePrefixUpper` | internal/storage/codec.go:55-64 | the decrementing loop computes that bound, none for all-0xFF prefixes |
| `Keys.NumberKeyOrder` | internal/storage/codec.go:27-33 | number keys sort as numbers and give their number back |
| `Keys.ComputeSegmentedKey` | internal/storage/codec.go:35-49 | the appending loop writes each value after its 32-bit length |
| `Keys.ComputeSegmentedValues` | internal/storage/retention.go:215-237 | the cursor loop accepts and returns what the recursive parser does |
| `Keys.SegmentedRoundTrip` | internal/storage/retention.go:215-237 | a segmented key parses back exactly when it has values and all are short and not empty |
| `Keys.SegmentedParsed` | internal/storage/retention.go:215-237 | every key that parses is the key of the values it gave |
| `Keys.SegmentedInjective` | internal/storage/codec.go:35-49 | keys of values below 2^32 bytes are equal only when built alike |
| `Keys.LongValuesCollide` | internal/storage/codec.go:35-49 | the bound is needed: a value of 2^32 zero bytes has the key of 2^30 + 1 empty values |
| `Keys.SegmentScan` | internal/storage/segments.go:49-56 | the segments of one workflow are exactly the keys in the prefix range of its key, met in applied order |
| `Receipts.ReadUintExact` | internal/storage/receipt.go:110-120 | the varint reader accepts exactly the minimal encodings of 64-bit numbers |
| `Receipts.BinaryCodec` | internal/storage/receipt.go:73-103 | decoding accepts exactly the encodings of valid records and gives the record back |
| `Receipts.EncodeRecord` | internal/storage/receipt.go:56-71 | the appending encoder writes the specified bytes, and refuses exactly the invalid records |
| `Receipts.DecodeRecord` | internal/storage/receipt.go:73-103 | the decoding loop computes the specified decoder |
| `Receipts.ReceiptRoundTrip` | internal/storage/receipt.go:56-103 | decoding an encoded valid record gives it back |
| `Filings.ExpandExact` | internal/storage/receipt.go:142-184 | the (first, last) slice of its segment that a stored receipt points at expands to the accepted receipt |
| `Segments.BuildSegments` | internal/storage/segments.go:58-100 | grouping, sorting and linking succeed exactly on sources whose segments are valid and join up |
| `Segments.Rebuild` | internal/storage/segments.go:58-100 | from the receipts of a store from any position on, in whatever order, exactly the store's own segments from there are built |
| `Segments.Events` | internal/storage/application.go:473-504 | the segments of a workflow in key order join to its whole history |
| `Archives.EndedStays` | internal/core/reducer.go:366-480 | no sequence of events, reachable or not, revives an ended workflow |
| `Archives.PostKept` | internal/storage/application.go:155-218 | an accepted batch keeps the book: receipts once each, positions in order, histories numbered from one and explaining the states |
| `Residents.EngineFollows` | internal/storage/application.go:155-175 | an engine that holds only active workflows and loads the rest takes committed batches exactly as one that holds everything |
| `Residents.ResidentApplies` | internal/storage/application.go:155-327 | and after evicting what ended it is the resident engine of the longer book |
| `Transfers.StageIndex` | internal/storage/application.go:263-293 | the index updates, workflow by workflow |
| `Transfers.IndexExact` | internal/storage/application.go:263-293 | the incrementally kept active index equals one computed from states and receipts |
| `Transfers.StageApplied` | internal/storage/application.go:219-303 | the batch of an applied group turns the records of a book into the records of the longer book: states, receipts, event and task-result segments, conflict outcomes and index |
| `Transfers.RebuildIndex` | internal/storage/retention.go:17-115 | whatever index is there, a full rebuild from workflows and receipts succeeds and writes the active index that upkeep with every apply and install would have left |
| `Transfers.LoadActiveEngine` | internal/storage/retention.go:117-197 | loading succeeds on the records of any book and gives its resident engine |
| `Transfers.ReadReceipts` | internal/storage/retention.go:330-352 | every stored receipt is read back expanded, each once |
| `Transfers.LookupsExact` | internal/storage/retention.go:252-295 | looking up a workflow or a request in the records is looking it up in the book |
| `Transfers.Install` | internal/storage/snapshot.go:109-240 | installing the image of a book succeeds and writes exactly the receipts, event segments, task-result segments, conflict outcomes, workflows and active index its maker holds |
| `Transfers.ImageRestores` | internal/core/snapshot.go:28-90 | the image of any store's book is accepted by Restore and gives its states and receipts |
| `RaftLogs.SuffixReplaced` | internal/storage/raft.go:61-97 | deleting a conflicting suffix and setting the new entries keeps log records and in-memory terms equal |
| `RaftLogs.PutTerms` | internal/storage/raft.go:120-132 | the truncate-and-append loop gives the terms of the kept prefix and the new entries |
| `RaftLogs.PrefixDropped` | internal/storage/snapshot.go:16-101 | compacting a prefix keeps them equal |
| `RaftLogs.ReadTerms` | internal/storage/store.go:174-230 | reading the log back gives the terms, and refuses a gap |
| `Storage.CheckReady` | internal/storage/raft.go:12-58 | the checks refuse exactly a gap, an older snapshot, a hard state that goes back and a commit outside the log |
| `Storage.TakeImage` | internal/storage/snapshot.go:16-60 | the image depicts the applied book at the applied index with its term, and its engine part restores to the states and receipts of the book |
| `Storage.TransferExact` | internal/storage/snapshot.go:109-259 | a store that installs an image holds the records of the store that made it, task results and conflict outcomes included |
| `Storage.LoadApplication` | internal/storage/application.go:19-97 | on every good store, with or without the index marker, the applied records pass their check, a missing index is rebuilt and the resident engine of the book is loaded |
| `Storage.Store.SaveReady` | internal/storage/raft.go:12-132 | refused exactly when the checks fail and then without effect; otherwise hard state, snapshot, log records and terms are the new ones and the store stays recoverable |
| `Storage.Store.Commit` | internal/storage/raft.go:105-119 | a batch is one step of the write log; only a commit index may be left unsynced |
| `Storage.Store.Apply` | internal/storage/application.go:111-327 | committed entries are accepted exactly when they follow the applied index with the log's terms, their batches apply and no segment is over its bound; then one synced batch extends the book and every request is reported, a repeated one at the place of its first acceptance; else nothing changes |
| `Storage.Store.CreateSnapshot` | internal/storage/snapshot.go:16-101 | made exactly when something was applied since the last one; the image depicts the book and restores to it, and log and applied records are compacted through the applied index |
| `Storage.Store.InstallSnapshot` | internal/storage/snapshot.go:109-259 | a snapshot ahead of the applied index replaces the application state by the book it depicts, in one synced batch |
| `Storage.Store.Load` | internal/storage/store.go:73-113 | loading succeeds from every good state of the store, with or without the index marker, with snapshot, applied, commit and last in order; a snapshot that is ahead is installed |
| `Storage.Store.Crash` | internal/storage/store.go:73-113 | after a crash that keeps any prefix of the writes including every synced one, loading rebuilds the same terms, applied index, records and resident engine; if a snapshot was ahead, it is installed and its book is there |
| `Storage.Store.constructor` | internal/storage/store.go:115-172 | a new store is valid, with a blank snapshot applied at position one |
| `Membership.ProbeInBounds` | internal/storage/membership.go:106-123 | every probe stays within the words of its layer |
| `Membership.Layer.Add` | internal/storage/membership.go:106-112 | an added hash is contained, and none that was is lost |
| `Membership.Filter.Add` | internal/storage/membership.go:145-174 | across layer growth an added value is contained and no earlier one is lost |
| `Membership.Filter.Contains` | internal/storage/membership.go:125-137 | the search over layers answers what the filter holds |
| `Membership.AddAccepted` | internal/storage/membership.go:181-188 | the filters stay complete for what was durable and for every receipt and submitted workflow of the group |
| `Lookups.DurableIndex.LookupRequest` | internal/storage/membership.go:237-244 | a filtered lookup is a direct lookup of the durable record, whether or not the filter is in sight |
| `Lookups.DurableIndex.LookupWorkflow` | internal/storage/membership.go:228-235 | the same for workflows |
| `Lookups.DurableIndex.ApplyGroup` | internal/storage/application.go:307-316 | a commit, successful or not, goes through the steps swap, commit, add and store, each of which keeps the filters in sight complete, and the filters are present afterwards |
| `Lookups.DurableIndex.InstallIndex` | internal/storage/snapshot.go:241-247 | so does an install, whose new filters are complete for the image |
| `Lookups.BuildFilters` | internal/storage/membership.go:190-226 | filters rebuilt on opening hold every durable receipt and workflow |
| `Driver.NextTimer` | cmd/chronos/main.go:475-488 | the loop returns the scheduled timer with the first deadline, ties by identifier |
| `Driver.RunTasks` | cmd/chronos/main.go:387-420 | a pass over the runnable tasks lowers the reserved-task count, or stops for one of the named reasons |
| `Driver.Turn` | cmd/chronos/main.go:360-420 | each turn lowers the reserved-task count or fires the start timer, or stops at the end of the clock or with a command refused for one of the named reasons |
| `Driver.Run` | cmd/chronos/main.go:341-440 | the loop always ends, never with "cannot progress" or "did not start"; after commands that are the submission and then, each at the state and clock the earlier ones led to, starts, completions and firings, it ends with every task completed and a journal that replays to the same state, unless the definition is not valid or too long to number, the clock is at its end, the version has no room for one more command, the lease or timeout of a start overflows 64 bits, or a child of a fan-out has the identifier of a task |
| `Driver.RequestsNew` | cmd/chronos/main.go:391-420 | the request identifiers the runner derives are never ones it used before |
| `Driver.DriverCanGo` | cmd/chronos/main.go:360-385 | while the workflow has not ended a task can be started or a timer fired |
| `Driver.DrivenComplete` | cmd/chronos/main.go:411-418 | completing the held task strictly lowers the reserved-task count |
| `Forms.RetryForm` | internal/core/workflow_transitions.go:227-248 | a retry is either not due, or leaves exactly one pending task with one more retry and its timer |
| `Forms.TerminalFailureForm` | internal/core/workflow_transitions.go:192-205 | a terminal failure winds down every active task and timer and then begins the latest compensation or fails |
| `Forms.TimeoutCancellation` | internal/core/workflow_transitions.go:67-73 | cancelling the timeout of a held task settles exactly that timer, and is never refused below the version bound |
| `Forms.ExpansionForm` | internal/core/workflow_transitions.go:103-137 | an accepted fan-out gives a canonical expansion of at most the declared number of children |
| `Steps.AddActiveCancellationsForm` | internal/core/workflow_transitions.go:163-174 | the loop cancels exactly the active tasks |
| `Steps.AddScheduledTimerCancellationsForm` | internal/core/workflow_transitions.go:176-190 | the loop cancels exactly the scheduled timers |
| `Preservation.ConcludeKeeps` | internal/core/workflow_transitions.go:192-205 | winding down into compensation or an end keeps the invariant |
| `Preservation.FailKeeps` | internal/core/reducer.go:226-265 | a failed attempt and what follows it keep the invariant |
| `Preservation.FinishCompensationKeeps` | internal/core/reducer.go:155-186 | a finished compensation keeps the invariant |
| `Preservation.CompleteKeeps` | internal/core/reducer.go:155-224 | a completion with its fan-out and ready scan keeps the invariant |
| `Preservation.SubmitKeeps` | internal/core/reducer.go:58-82 | a submitted workflow satisfies the invariant |
| `Invariant.TimeoutLookup` | internal/core/workflow_transitions.go:58-65 | the timeout lookup of a held task (retry and start timers are covered by Theorems.TimerTaskCorrespondence) finds the timer of its current attempt, exactly when the task has a timeout |
| `Lawfulness.ChosenUnique` | internal/core/workflow_transitions.go:147-161 | the compensation to run next is determined |
| `Acceptance.ExpireAccepted` | internal/core/reducer.go:293-317 | an overdue expiry is accepted exactly when the lease ends before the timeout |
| `Acceptance.FireAccepted` | internal/core/workflow_transitions.go:290-317 | an overdue timeout is accepted exactly when lease and timeout end together and no retry deadline overflows |
| `Usage.StartUsage` | internal/core/reducer.go:84-153 | a start reserves nothing and adds exactly one running task |
| `Usage.ComputeReservedTasks` | internal/scheduler/scheduler.go:438-446 | the loop counts each task with its declared fan-out |
| `Quotas.UsedAfter` | internal/scheduler/scheduler.go:218-223 | a command changes the totals by the usage of its own workflow |
| `Quotas.StageAllObeys` | internal/scheduler/scheduler.go:169-231 | a staged batch exceeds no limit if none was exceeded before |
| `Scheduler.WorkflowUsage` | internal/core/usage.go:11-47 | the usage of a resident or loaded workflow, or none |
| `Scheduler.CheckAdmission` | internal/scheduler/scheduler.go:245-265 | a workflow is admitted exactly when globally and in its namespace one more workflow and its reserved tasks fit |
| `Scheduler.CheckRunning` | internal/scheduler/scheduler.go:233-243 | a start is admitted exactly when globally and in the namespace one more running task fits |
| `Selection.Scheduler.Raise` | internal/scheduler/scheduler.go:306-316 | the raising loop gives every eligible credit its weight, refused exactly when a sum leaves 64 bits |
| `Selection.Scheduler.Choose` | internal/scheduler/scheduler.go:317-322 | the loop returns the first of the largest raised credits |
| `Selection.FirstTask` | internal/scheduler/scheduler.go:327-337 | the task that sorts first by workflow, task and capability |
| `Selection.EligibleNames` | internal/scheduler/scheduler.go:296-306 | exactly the namespaces that have a task and may run one more, each once |
| `Fairness.RoundExact` | internal/scheduler/scheduler.go:306-337 | after W picks every namespace has had exactly its weight and every credit is zero |
| `Fairness.CreditMoves` | internal/scheduler/scheduler.go:306-337 | between two picks a credit gains its weight each time and pays W for each pick |
| `InPlace.State.Clone` | internal/core/clone.go:110-167 | a copy is a new object with equal contents |
| `InPlace.ApplySubmission` | internal/core/reducer.go:482-499 | a submission gives a new state object with the table of its definition |
| `InPlace.EventPlan.AddTimeoutCancellation` | internal/core/workflow_transitions.go:67-73 | cancelling in place the timeout that the lookup finds |
| `InPlace.EventPlan.AddActiveCancellations` | internal/core/workflow_transitions.go:163-174 | the loop over sorted tasks meets the pure one |
| `InPlace.EventPlan.AddScheduledTimerCancellations` | internal/core/workflow_transitions.go:176-190 | the loop over sorted timers meets the pure one |
| `InPlace.EventPlan.AddFailureOutcome` | internal/core/reducer.go:246-265 | a retry, the failure of a compensation, or a terminal failure |
| `InPlace.EventPlan.AddExpansion` | internal/core/reducer.go:197-207 | a fan-out is expanded, and items without a fan-out are refused |
| `InPlace.FindLeased` | internal/core/reducer.go:319-334 | the holder check: status, attempt, worker and fence |
| `Replays.StoredReplays` | internal/core/engine.go:106-177 | events replay under the identifiers and hashes they are stored with as they were planned |
| `Chronicle.LiveSane` | internal/core/engine.go:79-97 | after every history active set and request index equal those computed from the tables |
| `Snapshots.CollectedIsHistory` | internal/core/snapshot.go:28-90 | gathering the receipts of a workflow and sorting their events gives its history |
| `CoreEngine.PlanOn` | internal/core/engine.go:106-177 | planning on a resolved state object and stamping gives the planned events and the object that holds the next state |
| `CoreEngine.StampEvents` | internal/core/engine.go:106-177 | the stamping loop numbers the events on from the version |
| `CoreEngine.Engine.FindRequest` | internal/core/retention.go:46-56 | a resident record, or one the loader finds |
| `CoreEngine.ApplyOwned` | internal/core/reducer.go:354-364 | events applied in place to one object give the folded state or the first error |
| `CoreEngine.InstallAll` | internal/core/engine.go:280-283 | the loop files every provisional state and keeps the active set |
| `Theorems.EndedRefuses` | internal/core/retention.go:97-113 | nothing is accepted on a workflow that has ended |
| `Pipelines.PreparesAlike` | internal/coordinator/runtime.go:633-653 | planner and engine of the whole log prepare a command alike |
| `Pipelines.StagesAlike` | internal/coordinator/runtime.go:633-653 | and admit or refuse it alike under the quotas |
| `Pipelines.StageInStep` | internal/coordinator/runtime.go:543-568 | staging a proposal keeps planner and log in step |
| `Coordination.Runtime.Enqueue` | internal/coordinator/runtime.go:857-860 | a request joins the end of the queue with its token |
| `Coordination.Runtime.OpenPipeline` | internal/coordinator/runtime.go:508-520 | a pipeline is open exactly when its planner is still valid, or there was none and the whole log is applied in this term; an invalid one is failed |
| `Coordination.Runtime.TakeUp` | internal/coordinator/runtime.go:591-605 | what is passed at the head, in order, is answered while canceled; the next request is taken up, or answered when it may not be staged |
| `Coordination.Runtime.Append` | internal/coordinator/runtime.go:733-748 | once the leader appends a settled group every active proposal is where it is expected |
| `Coordination.Runtime.FinishGroup` | internal/coordinator/runtime.go:702-754 | the same for a group whose pipeline was valid when it was ready |
| `Coordination.Runtime.Receive` | internal/coordinator/runtime.go:374-432 | every event of the loop keeps the invariant, an answer once given stays, and results are given only for entries applied where expected |
| `Coordination.Runtime.Observe` | internal/coordinator/runtime.go:969-976 | whatever Raft does between two looks, active proposals stay placed while this node leads in the same term |
| `Coordination.Runtime.Drain` | internal/coordinator/runtime.go:1123-1132 | everything left on the channel is answered |
| `Coordination.Runtime.ResetPipeline` | internal/coordinator/runtime.go:997-1002 | with nothing in flight the planner is dropped |
| `Keys.ParseSegments` | internal/storage/retention.go:215-237 | the values of a key of short values parse back in order |
| `Receipts.ReadTextExact` | internal/storage/receipt.go:122-128 | the string reader accepts exactly a length and that many bytes |
| `Segments.BuildsSegments` | internal/storage/segments.go:58-100 | the groups built from receipts in any order are the segments in accepted order |
| `Segments.SegmentsLink` | internal/storage/segments.go:58-113 | segments in key order join up, the first of a complete list starting at one |
| `Transfers.StageSlips` | internal/storage/application.go:247-252 | the receipts of a group are filed as pointers |
| `Transfers.StageSegments` | internal/storage/application.go:253-259 | the segments of a group, refused exactly when one is over its bound |
| `Transfers.SegmentsGrow` | internal/storage/application.go:253-259 | old segments and the new group's are together the segments of the longer book |
| `Residents.AppliesAlike` | internal/storage/application.go:155-175 | a batch is accepted, repeated, in conflict or refused by the resident engine as by one that holds everything |
| `Residents.EvictedIsRetained` | internal/storage/application.go:322-324 | evicting what ended among the touched workflows leaves exactly the resident part |
| `Transfers.LoadWorkflows` | internal/storage/retention.go:117-160 | the active workflows are loaded, refused exactly when one is missing or ended |
| `Transfers.LoadRequests` | internal/storage/retention.go:160-197 | the active requests are loaded, refused exactly when a receipt is missing or of another workflow |
| `Storage.KeepEntries` | internal/storage/raft.go:35-47 | the loop keeps exactly the entries past the base, refused exactly at a gap |
| `Storage.LoadLog` | internal/storage/store.go:174-230 | the log of a good store is read back whole |
| `Storage.CheckRecords` | internal/storage/application.go:51-97 | with the snapshot not ahead, the check accepts exactly applied records that lie one for one between snapshot and applied index with the terms of the log |
| `Storage.SuffixGood` | internal/storage/raft.go:61-132 | replacing a suffix above the commit index keeps the store good |
| `Storage.SnapshotGood` | internal/storage/raft.go:61-132 | replacing log and snapshot above the commit index keeps the store good |
| `Storage.InstalledGood` | internal/storage/snapshot.go:109-259 | installing the snapshot that is ahead keeps the store good |
| `Storage.CompactedGood` | internal/storage/snapshot.go:68-101 | compacting through the applied index keeps the store good |
| `Storage.BehindGood` | internal/storage/raft.go:134-139 | an earlier state that differs in the commit index alone is good too |
| `Storage.InstallImage` | internal/storage/snapshot.go:109-240 | the records written from an image are those of the book it depicts |
| `Storage.CheckEntries` | internal/storage/application.go:121-154 | the checks accept exactly entries that follow the applied index, are committed and carry the log's terms |
| `Storage.PlanApply` | internal/storage/application.go:111-306 | a group is accepted exactly when its entries pass, its batches apply and its segments fit; then the batch and the next engine are those of the longer book, and the outcomes report conflicts where they were met and other requests where their receipt was filed |
| `Storage.StageRecords` | internal/storage/application.go:219-226 | the applied records and index of a group keep the store good |
| `Storage.Store.SaveEntries` | internal/storage/raft.go:83-132 | the log suffix is replaced in one batch, in records and in memory alike |
| `Storage.Store.SaveSnapshot` | internal/storage/raft.go:61-82 | the log is replaced as a whole by a snapshot and what follows it |
| `Membership.Layer.Contains` | internal/storage/membership.go:114-123 | the probe loop answers whether every probed bit is set |
| `Membership.Filter.AddAll` | internal/storage/membership.go:139-143 | every value of a list is contained afterwards |
| `Lookups.DurableIndex.constructor` | internal/storage/membership.go:190-226 | an opened store has a complete index |
| `Driver.RunTask` | cmd/chronos/main.go:388-420 | one task from start to completion lowers the reserved-task count, or stops for one of the named reasons |
| `Driver.StartTask` | cmd/chronos/main.go:393-410 | the start of a runnable task gives a lease that is live now; it is refused only when lease or timeout overflows or the version has no room |
| `Driver.CompleteTask` | cmd/chronos/main.go:411-418 | the completion lowers the reserved-task count; it is refused only when a child collides with a task or the version has no room |
| `Driver.FireTimer` | cmd/chronos/main.go:495-501 | a fired timer is the start of the workflow, which happens once; it is refused only when the version has no room |
| `Driver.Continues` | cmd/chronos/main.go:360-420 | a command that the runner makes at the state and clock of its run continues the run |
| `Driver.EventOfKind` | cmd/chronos/main.go:519-526 | the loop returns the first event of the kind, or none |
| `Driver.DrivenStart` | cmd/chronos/main.go:393-410 | a start leaves exactly that task held |
| `Driver.DrivenFire` | cmd/chronos/main.go:364-385 | while nothing failed and nothing is held the only timer that fires is the start |
| `Driver.DrivenSubmit` | cmd/chronos/main.go:355-359 | the submission begins a run that the runner can drive |
| `Acceptance.StartAccepted` | internal/core/reducer.go:84-153 | below the version bound a ready task can be started by any named worker whose lease and timeout fit in 64 bits |
| `Acceptance.CompleteAccepted` | internal/core/reducer.go:155-224 | a completion by the holder before lease and timeout end is accepted when its items materialize and the version has room: timeout cancellation, fan-out event, ready scan and end never refuse it |
| `Acceptance.FireStartAccepted` | internal/core/workflow_transitions.go:263-285 | the start timer of a scheduled workflow fires from its deadline on |
| `Acceptance.SubmitAccepted` | internal/core/reducer.go:58-82 | the submission of any valid definition that the version can number is accepted |
| `Acceptance.MaterializedCanonical` | internal/core/workflow_transitions.go:103-137 | what a fan-out materializes passes the check that applying its event makes |
| `Driver.DrivenStartAccepted` | cmd/chronos/main.go:393-410 | the start that the runner makes is accepted if its lease fits, under a request identifier it never used |
| `Driver.DrivenCompleteAccepted` | cmd/chronos/main.go:411-418 | the completion that the runner makes is accepted unless a child collides with a task |
| `Driver.DrivenFireAccepted` | cmd/chronos/main.go:495-501 | the firing that the runner makes is accepted |
| `Driver.DrivenSubmitAccepted` | cmd/chronos/main.go:355-359 | the submission of a valid definition is accepted |
| `Results.TransitionPasses` | internal/core/reducer.go:366-480 | whatever the event, reachable or not, no task leaves, its types stay, its attempt never goes back and no lease is given twice |
| `Results.HistoryTold` | internal/core/reducer.go:354-364 | every history that applies reports the end of an attempt, in each phase, at most once, and each reported attempt is over in the state it leads to |
| `Results.EventsMoveOn` | internal/core/reducer.go:354-364 | no sequence of events takes a task away or changes what a result of it is derived from |
| `Results.ResultsOnce` | internal/storage/segments.go:206-208 | the identity (workflow, task, phase, attempt) of a task result occurs once in every book |
| `Results.ResultValid` | internal/storage/segments.go:179-193 | every task result of a book is valid |
| `Results.CollectResults` | internal/storage/application_encoding.go:63-82 | the loop over receipts and their events derives the results of completed, failed, timed-out and compensated events, refused exactly when one cannot be placed |
| `Results.CollectedGives` | internal/storage/application_encoding.go:63-82 | collected from the receipts from any position on, in any order, they are exactly the results of the book from there |
| `Results.BuildResults` | internal/storage/segments.go:126-157 | grouping and sorting succeed exactly on lists of valid results with no identity and no number in a segment twice, and each segment then holds its results in order |
| `Results.ResultsFit` | internal/storage/segments.go:126-177 | the results of a book from any position on are never refused |
| `Results.ArrangedExact` | internal/storage/segments.go:126-177 | and the segments built from them, in whatever order they come, are exactly the segments of the book from there |
| `Results.LoadResults` | internal/storage/snapshot.go:319-343 | reading the segments of any book, with the checks of identity and position, succeeds and gives all its results |
| `Transfers.StageResults` | internal/storage/application.go:253-262 | the task-result segments of an applied group are never refused and are those of the longer book from its first new position on |
| `Transfers.ResultsGrow` | internal/storage/application.go:253-262 | old task-result segments and the new group's are together those of the longer book, although results are derived from the states of their time |
| `Transfers.InstallResults` | internal/storage/snapshot.go:214-225 | the task-result segments of an image are accepted and are those of the book |
| `Transfers.InstallConflicts` | internal/storage/snapshot.go:144-165 | conflict outcomes are installed as they are, refused exactly when one has no request, no hash, no term or a position outside the image |
| `Storage.NoteConflicts` | internal/storage/application.go:176-191 | the loop notes the conflicts of a group as the specification does, the latest for each request and hash |
| `Archives.PostsNoted` | internal/storage/application.go:176-191 | every noted conflict names a request, a hash and an applied position, so an image of the book is accepted |
| `Lookups.StepKeeps` | internal/storage/application.go:307-316 | every step (swap out, failed or successful commit, one addition, store; load pointer, probe, read) keeps the filters in sight complete for what is durable and every lookup under way right for what was durable when it loaded its pointer |
| `Lookups.AlwaysInOrder` | internal/storage/application.go:307-316 | in every interleaving of commits, installs and lookups the filters that a lookup can load are complete |
| `Lookups.LookupsAnswered` | internal/storage/membership.go:228-244 | in every interleaving a lookup that loads its pointer after a key is durable answers with its record, and whatever it answers is durable, even when later groups change the filter it holds |
| `Lookups.PresentAtApply` | internal/storage/application.go:307-316 | in every interleaving the filters are there when the next batch is about to commit, so they are never replaced by empty ones |
| `Lookups.DurableStays` | internal/storage/application.go:219-303 | what is durable stays durable under every commit |
| `Lookups.NewSubmitted` | internal/storage/membership.go:181-188 | every workflow that a group brings is among the submitted ones added to the filter |
| `Lookups.CompleteGuards` | internal/storage/membership.go:125-137 | filters on the heap are complete exactly when their contents, as the step machine sees them, are |
| `Lookups.DurableIndex.LoadPointer` | internal/storage/membership.go:228-244 | the filters a lookup loads are complete for what is durable then |
| `Lookups.DurableIndex.FinishRequest` | internal/storage/membership.go:237-244 | a record that was durable at the load is found; what is found is durable |
| `Lookups.DurableIndex.FinishWorkflow` | internal/storage/membership.go:228-235 | the same for workflows |
| `Lookups.DurableIndex.SwapOut` | internal/storage/application.go:307-307 | the filters are out of sight and saved while a batch commits |
| `Lookups.DurableIndex.AddGroup` | internal/storage/application.go:312-315 | out of sight, the saved filters become complete for the committed group and lose nothing |
| `Lookups.DurableIndex.Show` | internal/storage/application.go:316-316 | complete filters come in sight |
| `Scheduler.Offered` | internal/scheduler/scheduler.go:382-434 | the scan of one workflow lists exactly the tasks that can be leased with the given capabilities |
| `Scheduler.InspectFor` | internal/scheduler/scheduler.go:368-436 | the counts of the capability scan are those of a recount, and its candidates are exactly the tasks that active workflows offer, each under its namespace |
| `Scheduler.Serve` | internal/scheduler/scheduler.go:282-348 | n plans and commits over a fixed eligible set leave the credits of the fairness theorems, and the i-th lease goes to the i-th pick |
| `Validate.Visit` | internal/core/validate.go:128-139 | one visit of the queue keeps the counts of unvisited dependencies exact and ranks the visited task last |
| `Storage.DepictedRestores` | internal/storage/snapshot.go:109-124 | the engine part of every image is accepted by Restore and gives the states and receipts of the book |
| `Pipelines.StepKeeps` | internal/coordinator/runtime.go:508-1002 | every step (open at the applied tail, start a group, prepare a proposal, finish, sweep and evict, fail, apply entries, Raft motion with foreign entries or truncation) keeps the planner in step with the log through the last position and with the group being prepared |
| `Pipelines.AlwaysValid` | internal/coordinator/runtime.go:357-432 | that holds in every run |
| `Pipelines.OpenKeeps` | internal/coordinator/runtime.go:508-516 | a planner taken from the applied state is in step, because the log is applied up to its end |
| `Pipelines.FinishKeeps` | internal/coordinator/runtime.go:694-754 | appending a prepared group moves its entries from what is being prepared to the log, each position claimed by its proposal |
| `Pipelines.SweepKeeps` | internal/coordinator/runtime.go:782-844 | answering finished proposals and evicting their workflows keeps the planner in step |
| `Pipelines.IdleUntouched` | internal/coordinator/runtime.go:938-959 | a workflow that no active proposal lists is touched by no entry past the applied index, so filtering evictions by active proposals makes them safe |
| `Pipelines.MotionKeeps` | internal/coordinator/runtime.go:969-976 | whatever Raft does, a pipeline whose term, leadership and last position still match is on the same log |
| `Pipelines.ApplyKeeps` | internal/storage/application.go:155-175 | applying entries, own or foreign, keeps the planner in step when it is valid |
| `Pipelines.ValidExact` | internal/coordinator/runtime.go:633-653 | a valid pipeline decides exactly |
| `Pipelines.NeverRefused` | internal/storage/application.go:155-218 | in every run, whenever the pipeline is valid, applying any prefix of its entries is not refused |
| `Coordination.Runtime.PlansExactly` | internal/coordinator/runtime.go:633-653 | in every state of the loop with a valid pipeline the planner of the machine it follows decides exactly |
| `Coordination.Runtime.AdmitAll` | internal/coordinator/runtime.go:442-473 | at least one and at most sixteen offers are taken, fewer only when the tokens run out; each is queued or answered |
| `Coordination.Runtime.Work` | internal/coordinator/runtime.go:633-653 | the goroutine prepares the next proposal of its group without touching the loop |
| `Coordination.Runtime.SweepNode` | internal/coordinator/runtime.go:938-959 | the machine sweeps the same proposals and evicts what it may |
| `Residents.ReportAll` | internal/storage/application.go:176-218 | the outcomes of a group are never refused: a conflict is reported where it was met, any other request with the place of the one receipt of its identifier and hash |
| `Residents.EngineTells` | internal/storage/application.go:155-175 | the resident engine answers every batch, repeats and conflicts included, as the book does |
| `Residents.FindOrigin` | internal/storage/application.go:191-212 | the backward search through the group and then the stored receipt finds a place exactly for requests that are filed |

## Left out

- Reducer: payload, input and output maps are values, so aliasing between nested slices and maps of a state, an event and a caller is not modelled; copying of states is, in `InPlace` and `CoreEngine`.
- Snapshots.RestoreOfSnapshot: journal and counters are excluded, because a snapshot does not carry them; which error Restore reports for a bad snapshot is not modelled.
- Snapshots: sorting of receipts and events is modelled as stable insertion; inputs with equal keys are refused before the order could matter.
- Order of derived identifiers: digests are ordered as a datatype, not as hexadecimal text; results hold for any strict total order used consistently.
- Ledgers: counters are unbounded; 64-bit wrap of the metrics is not modelled.
- Coordination: the fallback of startProposal without a preparation goroutine, read requests, hand-off counters and the contents of answers are not modelled; what looking a request up gives enters as a parameter, and when the loop ends (failPending) the machine is not followed further.
- Pipelines: one proposal is prepared in one step, so entries applied while it is being staged count as applied before or after it; refusals before staging (a canceled caller, a pending or conflicting resident request) enter as a choice. Entries of other nodes are any that lead to states with the workflow invariant.
- Storage.Store.Apply: the engine is a value in the store and its answer is a parameter equal to the specified one, so the checkpoint and rollback of the heap engine are not in this contract; they are proved in CoreEngine.
- Storage: configuration states, cluster identity and fault-injection points are not modelled.
- Storage: an image holds receipts as engine requests joined with their origins, not the two lists that the program joins by request and hash; its conflict outcomes carry identity and origin, the code and message being constants.
- Lookups: an install step assumes that the snapshot carries what is durable here, which Raft gives for a snapshot above the commit index; the two probes and the shard lock inside a filter are one step.
- Results.LoadResults: says what is read from the segments of a book; what else is refused, and with which error, is not modelled.
- Segments.Events: says what is read from the segments of a store; what else is refused is not modelled.
- Storage.Store.Crash: the survivor's commit index may be an earlier one, because the program leaves commit-only writes unsynced; everything else is exact.
- Membership: the words of a layer are a sparse table that reads as zero where unset; setting one bit and reading one word are not separate steps.
- Membership: the hash is an arbitrary function, so no bound on false positives is claimed.
- Driver: the named reasons are sufficient, not necessary: the room asked of the version counter is for the longest possible command, so close to its end a command may still be accepted.
- Acceptance.DeadlineRace: assumes room for the events of one command below the 64-bit version bound.
- Selection.Scheduler.Plan: takes the scan of the engine as a value; `Scheduler.InspectFor` computes it, and dropping empty capability names before the scan is not modelled.
- Encoding: gob, JSON, snappy, protocol buffers, SHA-256 and the snapshot framing are taken as exact round trips; parallel encoding is not modelled.
- stageLogBatches, cacheReadyEntries and decodeCommitted of internal/coordinator/coordinator.go: a cache in front of a codec; it would only add easy members.
- HTTP, gRPC sessions, event streaming, redirects, observability, fault laboratory, benchmarks and the other commands: plumbing without protocol state.
- Elections and message handling of Raft: a library, used through the contract above.
