# Durable execution, verified

This project models the durable-execution engine of the `dbos` crate: workflows are ordinary code whose
every operation is checkpointed in a system database, and a crash is survived by running the body again
against the checkpoints. The model follows the engine's own parts:

- **The tables** (`Tables`, `StatusTable`, `Operations`, `Fork`): the rows of the system database and each
  SQL transaction as a function from the database before to the database after it. The rows of one
  workflow are grouped with its status row, because they are keyed by its id and deleted with it.
- **The database and the context** (`Database`, `Context`): the same transactions as methods of classes that
  update their fields in place, statement by statement, with rollback; each is proved against the
  function, and the last lemmas of `Context` show which transitions of the replay machine each context method makes.
- **The replay machine** (`Histories`, `Replay`, `ReplayProofs`, `ReplayTheorems`, `Effects`, `Mailbox`,
  `Sleeping`, `Observations`, `Delivery`, `ForkProofs`): any number of executions of any number of workflows, overlapping, crashing and restarting from
  step counter -1, interleaved transaction by transaction with messages from outside, with the clock, and with
  every transaction on workflow rows. A body is a total function from the outcomes it has seen to its next action.
- **Workflow rows** (`RowMachine`, `RowTheorems`, `Lifecycle`): start, enqueue, outcome, cancel, resume, fork, recovery,
  promotion, retention and deletion in any order.
- **The scheduler** (`Queue`, `QueueTheorems`, `ClaimLocks`, `ClaimOverlaps`, `Workers`): an atomic dequeue and the limits it
  keeps over whole runs; the same dequeue statement by statement with snapshots and row locks; the
  in-memory worker counters.
- **Streams** (`StreamReader`), **migrations** (`Migrations`) and **payload formats** (`Base64`, `Json`,
  `JsonProofs`, `Serialize`).

Every transaction is atomic, primary keys and unique indexes hold, and generated identifiers are distinct.
The clock never goes backwards within a run of the replay machine. Times, fresh identifiers, results of step
bodies and the rows a query may pick among equals are parameters.

## What the code does not promise

- `sleep` returns the time still to wait, which is not checkpointed, although its documentation calls it the duration
  waited. `Sleeping.SleepReturnIsStable` shows that a sleep for `ms` returns the same to every execution in every run if
  and only if `ms` is 0; `SleepReturnDiffers` is, for every other `ms`, a run with a crash whose replay returns less.
  Bodies in the model do not see the value.
- Row locks alone do not keep the global cap. Two dequeues by executors of different application versions that take
  their snapshots before either commits lock different rows, and both commit: `ClaimOverlaps.LocksDoNotCap` is such
  a run for every cap of one or more, and `LocksCapOnlyZero` makes that exact. `TurnsKeepCap` shows that the cap
  holds at statement level in every run in which no dequeue of a queue (or partition) commits between the snapshot
  and the commit of another.
- Untagged decoding changes a value that holds a legacy type wrapper, and the parser refuses values nested too
  deep: `Serialize.UntaggedPlain` and `UntaggedBase64` say exactly when a value is read back, and
  `WrapperIsNotReadBack` gives values that are not.
- Comments in `db/status.rs:108` and `runtime/workflow.rs:372` say that a dequeue counts as an attempt. The code counts
  recoveries outside queues only, and so does the model: `RowTheorems.RunsAreBounded` bounds those runs, and
  `QueueTheorems.ClaimsAreUnbounded` gives, for every retry limit and every n, a run in which a queued workflow with that
  limit is claimed n times.
- A reader treats a `DELAYED` producer as inactive (`db/streams.rs:144`) and says `closed` for any inactive producer.
  `StreamReader.ReadStreamBlocking` returns that flag, and beside it which of the two endings it was.

## Model

| member | source | states |
|---|---|---|
| ReplayProofs.RunKeeps | crates/dbos/src/runtime/context.rs:56-201 | in every state of every run, each workflow's tables are those of one crash-free execution prefix and each execution has read a prefix of it |
| ReplayProofs.NextKeeps | crates/dbos/src/runtime/context.rs:56-704 | every transition keeps that, never changes a recorded row, and keeps every history readable |
| ReplayProofs.CommitShape | crates/dbos/src/db/steps.rs:78-114 | a committed operation adds its checkpoint and its effect and nothing else; a failed one leaves every checkpoint alone |
| ReplayTheorems.RowsNeverChange | crates/dbos/src/db/steps.rs:74-114 | while a workflow exists its recorded operation rows never change, and what was read off them reads the same later |
| ReplayTheorems.ReplaySeesRecorded | crates/dbos/src/runtime/context.rs:145-172 | an execution has seen at each step id exactly the outcome that any later state still has recorded there |
| ReplayTheorems.NoUnexpectedStep | crates/dbos/src/db/steps.rs:54-71 | a deterministic body is never told that another step was recorded at its id |
| ReplayTheorems.TablesAreCrashFree | crates/dbos/src/runtime/context.rs:56-201 | the tables of every workflow equal those one uninterrupted execution leaves after the recorded operations |
| ReplayTheorems.FinishedIsCrashFree | crates/dbos/src/runtime/workflow.rs:268-318 | a finished execution returned what one crash-free execution fed the recorded outcomes returns, and left its tables |
| ReplayTheorems.ResultsAgree | crates/dbos/src/runtime/workflow.rs:268-318 | any two executions of a workflow that finish, at any times, return the same result |
| ReplayTheorems.SleepIsOver | crates/dbos/src/runtime/context.rs:635-704 | no execution gets past a durable sleep before the recorded deadline |
| ReplayTheorems.OneDeadline | crates/dbos/src/runtime/context.rs:656-698 | racing and restarted executions wait for the one deadline recorded first |
| ReplayTheorems.SleepReturnsAgree | crates/dbos/src/runtime/context.rs:699-703 | two executions at one sleep return the same duration if and only if no time passed between them or the deadline was over |
| Sleeping.WaitsAtMost | crates/dbos/src/runtime/context.rs:656-703 | an execution, however often restarted, sleeps no longer than it asked for |
| Sleeping.SleepReturnDiffers | crates/dbos/src/runtime/context.rs:699-703 | for every sleep of at least a millisecond, a run with a crash whose replay returns less than the first execution got |
| Sleeping.SleepReturnIsStable | crates/dbos/src/runtime/context.rs:632-645 | a sleep for `ms` returns the same duration to every execution in every run if and only if `ms` is 0 |
| ReplayTheorems.EventReadIsLastSet | crates/dbos/src/db/notifications.rs:145-162 | in every reachable state an event read finds the value its workflow set last |
| Observations.EventIsTrue | crates/dbos/src/runtime/context.rs:471-555 | what `get_event` returns to any execution, first time or on replay, is the value its target had set last in some state so far, tagged with its format; or nothing, when in some state so far the event was not set and the recorded deadline was over |
| Observations.ChildIsThere | crates/dbos/src/runtime/context.rs:203-246 | a child's handle, first time and on replay, is that of a workflow of the child's name that is there, unless it was deleted |
| ReplayTheorems.ForkIsPrefixInRun | crates/dbos/src/db/management.rs:446-502 | a fork of a reachable state is the state its original had before the start step, and each event is the last one set before it |
| ForkProofs.ForkIsPrefixState | crates/dbos/src/db/management.rs:446-502 | copying the rows below a step out of a crash-free state gives the crash-free state cut at that step |
| ForkProofs.ForkOfFork | crates/dbos/src/db/management.rs:446-502 | forking a fork at an earlier step gives the checkpoints, events and streams of forking the original there |
| ForkProofs.EventsAreCurrent | crates/dbos/src/db/management.rs:475-485 | the event rows of a crash-free state are those of greatest step id in its history |
| ForkProofs.EventIsLastSet | crates/dbos/src/runtime/context.rs:410-452 | the current event of a key is the value of the last `set_event` of that key |
| Effects.ReplayedOnce | crates/dbos/src/runtime/context.rs:577-630 | each operation of a history has left exactly its own effect rows at its step id |
| Effects.RowsHaveOperations | crates/dbos/src/runtime/context.rs:443-465 | every history row and stream entry belongs to an operation |
| Effects.ExactlyOnceEffects | crates/dbos/src/runtime/context.rs:410-467 | in every reachable state each checkpointed operation has left its event or stream entry exactly once, with its value in its format, and no other such row exists |
| Effects.StreamsAreWellShaped | crates/dbos/src/db/streams.rs:23-63 | every stream in every reachable state has offsets 0..n-1, increasing step ids, and a close sentinel only last |
| Delivery.StreamHoldsWritten | crates/dbos/src/runtime/context.rs:560-630 | in every reachable state the log of a stream holds exactly the texts its workflow has written, in order, in their format, and then at most a close sentinel |
| Delivery.WriteIsDelivered | crates/dbos/src/runtime/context.rs:560-568 | in every reachable state the one entry of each checkpointed `write_stream` decodes to the value written |
| Delivery.ReaderGetsValues | crates/dbos/src/db/streams.rs:112-159 | a reader gathers exactly the values written by then, in order, and all of them from its first offset on once it meets the sentinel |
| Delivery.EventIsDelivered | crates/dbos/src/runtime/context.rs:546-553 | what `get_event` returns decodes to the value that was set last in some state so far |
| Delivery.MessageIsDelivered | crates/dbos/src/runtime/context.rs:373-405 | what one workflow sends, the `recv` that takes the message decodes, first time and on every replay |
| Mailbox.OwnIsPerformed | crates/dbos/src/db/steps.rs:78-114 | the observed operations are those the body asked for at their step ids, and all of them when the workflow is no fork |
| Mailbox.SendExactlyOnce | crates/dbos/src/runtime/context.rs:250-303 | committed sends and messages correspond one to one, and the message waits at its destination as sent |
| Mailbox.MessagesAreSent | crates/dbos/src/db/notifications.rs:14-45 | a message appears only by a post from outside or with the commit of a send |
| Mailbox.MailboxConservation | crates/dbos/src/runtime/context.rs:373-397 | consumed messages and own `recv` rows of non-null output correspond one to one, and none was consumed before an older unread one |
| Mailbox.RecvReplaysSame | crates/dbos/src/runtime/context.rs:308-406 | every execution sees at a `recv` exactly the message it took, first time and on replay |
| RowMachine.StatusMoves | crates/dbos/src/db/status.rs:209-268 | which transaction may take a status to which |
| RowMachine.RowMovesKeepOk | crates/dbos/src/db/management.rs:265-358 | every change of a row keeps the row invariants |
| RowMachine.DbStaysOk | crates/dbos/migrations/27_create_partial_dedup_id_index.sql:6 | every transaction keeps the row invariants and at most one row per queue and deduplication id |
| RowTheorems.RowsAlwaysOk | crates/dbos/src/db/status.rs:126-270 | waiting rows have a queue and no start, running rows of a queue have one, `completed_at` is set exactly for finished rows, outputs and errors exactly for their status, deduplication ids only on active rows |
| RowTheorems.RunsAreRecoveries | crates/dbos/src/runtime/workflow.rs:257-266 | only a recovery runs the body of an existing row, and it raises the attempts by one within the limit |
| RowTheorems.FreshRunsOnce | crates/dbos/src/runtime/workflow.rs:239-266 | while a row exists, fresh starts with its id run the body exactly once if one inserted it, else never |
| RowTheorems.RunsAreBounded | crates/dbos/src/db/status.rs:209-228 | runs since insertion or the last resume never exceed `max_retries + 1` |
| RowTheorems.SettledForever | crates/dbos/src/db/management.rs:334-346 | SUCCESS and ERROR are left only by deletion |
| RowTheorems.CancelledUntilResumed | crates/dbos/src/db/status.rs:240-270 | CANCELLED is left only by resume or deletion, whatever outcome races with it |
| RowTheorems.ColumnsNeverChange | crates/dbos/src/db/status.rs:143-153 | name, input, origin, creation time, priority, partition, owner, timeout and delay never change while the row exists |
| RowTheorems.DeadlineIsSetOnce | crates/dbos/src/db/queue.rs:194-203 | a deadline, once set by the first claim, outlives crashes, recoveries and later claims until a resume |
| Lifecycle.OutcomeIsStored | crates/dbos/src/db/status.rs:240-270 | a row that is not cancelled becomes SUCCESS with the output or ERROR with the error of its body, and six of its columns change; a cancelled row and every other one stay |
| Lifecycle.SettledHoldsLastResult | crates/dbos/src/runtime/workflow.rs:295-317 | in every reachable state a settled row holds the result of the last outcome written for its workflow |
| Lifecycle.FirstStartRuns | crates/dbos/src/runtime/workflow.rs:239-266 | a start that finds no row inserts its own and runs the body |
| Lifecycle.RecoveryIsExact | crates/dbos/src/db/status.rs:209-228 | recovery of a running workflow outside any queue counts one attempt and runs the body again if and only if the attempts before it are at most `max_retries`, if that is positive; otherwise the row is dead-lettered and in no queue |
| Lifecycle.CrashesRunExactly | crates/dbos/src/runtime/recovery.rs:28-72 | in every run a workflow that only crashes and is recovered has its body started once per recovery and once before, `max_retries + 1` times in all; the next recovery dead-letters it and none starts it again |
| Lifecycle.DelayedUntilDue | crates/dbos/src/db/queue.rs:13-27 | a delayed workflow stays DELAYED until a promotion reads the clock at its time or later, unless it is cancelled, resumed or given an outcome |
| Lifecycle.ForkIsQueued | crates/dbos/src/db/management.rs:411-436 | a fork is its original's name and input with its own attempts and no deadline; exactly the dequeues of the queue, partition and version asked for may claim it, any version if none was given |
| Lifecycle.ForkCopies | crates/dbos/src/db/management.rs:438-465 | it has exactly the checkpoints below the start step and no messages; the original is only marked and nothing else changes |
| RowTheorems.ChangesAreFramed | crates/dbos/src/db/management.rs:265-548 | every row transaction, deletion under a live execution included, is one the replay machine tolerates, unless it inserts a row under the id of an execution that outlived its own |
| Queue.DequeueIsPrefix | crates/dbos/src/db/queue.rs:99-238 | a dequeue claims a prefix of the sorted eligible rows, exactly as long as every limit allows, and changes no other row |
| Queue.ClaimedColumns | crates/dbos/src/db/queue.rs:191-217 | a claimed row is PENDING with the caller's executor and version, started now, marked exactly when the queue is rate limited, with a deadline if it has a timeout and had none; no other column changes |
| Queue.DequeueIsGreedy | crates/dbos/src/db/queue.rs:119-189 | a dequeue claims as many of the waiting rows of its version or none as its worker slots, the global cap and the rate limit leave, neither more nor fewer; only marked rows started in the trailing period use up the rate |
| Queue.DequeueInOrder | crates/dbos/src/db/queue.rs:174-181 | it claims waiting rows only, lower priority number first, then the older; none left out goes before a claimed one |
| Queue.SelectionIsPrefix | crates/dbos/src/db/queue.rs:174-181 | what the query returns continues to a full sorted listing |
| Queue.PrefixIsSelection | crates/dbos/src/db/queue.rs:174-181 | every prefix of a sorted listing is a possible answer of the query |
| Queue.SelectionShortens | crates/dbos/src/db/queue.rs:205-231 | stopping the claim loop early leaves an answer of the shorter query |
| QueueTheorems.GlobalConcurrency | crates/dbos/src/db/queue.rs:143-166 | in every reachable state the PENDING rows of a queue or partition number at most its global concurrency |
| QueueTheorems.SlidingRateWindow | crates/dbos/src/db/queue.rs:119-141 | for every time T the rows started in (T - period, T] number at most the limit |
| QueueTheorems.ClaimsEnterWindow | crates/dbos/src/db/queue.rs:191-217 | every claimed row is in the window of each period that the time of the claim falls into |
| QueueTheorems.RunningHasStarted | crates/dbos/src/db/queue.rs:194-203 | in every reachable state a PENDING row of a queue has a start time, so the window misses none that runs |
| QueueTheorems.ClaimsWithinRate | crates/dbos/src/db/queue.rs:191-231 | recent starts and claims together stay within the limit |
| QueueTheorems.OnlyDequeuesStart | crates/dbos/src/db/queue.rs:191-203 | no transaction but a dequeue makes a queued row PENDING |
| QueueTheorems.StartedWorkIsFound | crates/dbos/src/db/status.rs:352-376 | a row whose body a start decided to run is listed for recovery by the executor that runs it, exactly while PENDING and at its own version |
| QueueTheorems.ClaimedWorkReturns | crates/dbos/src/db/queue.rs:29-49 | a claimed row is recoverable by its claimant, and put back it is eligible again at its old place |
| QueueTheorems.ClaimsAreUnbounded | crates/dbos/src/runtime/recovery.rs:28-38 | claims and recoveries of a queued workflow are never counted: for every retry limit and every n there is a run that claims it n times |
| ClaimLocks.ClaimsMatch | crates/dbos/src/db/queue.rs:194-231 | the conditional update of a locked candidate always finds it ENQUEUED |
| ClaimLocks.ClaimsAreExclusive | crates/dbos/src/db/queue.rs:109-237 | between two committed claims of one row another transaction put it back to ENQUEUED |
| ClaimLocks.CommitIsSelection | crates/dbos/src/db/queue.rs:168-237 | a committed dequeue that skipped no row, hence every capped one, claims exactly what the atomic dequeue claims of its snapshot |
| ClaimLocks.UndisturbedIsAtomic | crates/dbos/src/db/queue.rs:109-237 | when nothing was written since its snapshot either, its commit is the atomic dequeue |
| ClaimLocks.TurnsKeepCap | crates/dbos/src/db/queue.rs:143-237 | at statement level the cap holds in every state of every run in which dequeues of the scope take turns |
| ClaimOverlaps.LocksDoNotCap | crates/dbos/src/db/queue.rs:143-181 | for every cap of at least one, a run in which two overlapping dequeues of different application versions commit and exceed it |
| ClaimOverlaps.LocksCapOnlyZero | crates/dbos/src/db/queue.rs:143-181 | without taking turns every run keeps the cap if and only if it is 0 |
| Workers.WorkerConcurrency | crates/dbos/src/runtime/queue.rs:97-259 | each counter equals the dispatched unfinished bodies and never exceeds the worker cap |
| Workers.WorkerCounts.WorkerCount | crates/dbos/src/runtime/queue.rs:104-110 | the counter of a queue and partition, 0 when there is none |
| Workers.WorkerCounts.IncWorker | crates/dbos/src/runtime/queue.rs:112-118 | adds one to that counter and changes no other |
| Workers.WorkerCounts.DecWorker | crates/dbos/src/runtime/queue.rs:120-124 | takes one from that counter and changes no other |
| Workers.WorkerCounts.Dispatch | crates/dbos/src/runtime/queue.rs:193-208 | counts a registered workflow and drops an unregistered one uncounted |
| StreamReader.RowsAreTail | crates/dbos/src/db/streams.rs:82-90 | the rows from an offset on are the tail of a gapless log |
| StreamReader.ReadStreamEntries | crates/dbos/src/db/streams.rs:74-106 | exactly the rows before the first sentinel, and whether there is one |
| StreamReader.ReadStreamBlocking | crates/dbos/src/db/streams.rs:112-159 | however the log grows, the values are exactly its entries from the start to the cursor, all of them when the sentinel is seen; a PENDING or ENQUEUED producer keeps the reader waiting; the answer is the values with the closed flag, or the error |
| StreamReader.ReadStreamAsync | crates/dbos/src/runtime/mod.rs:316-393 | the channel delivers exactly those values in order, then at most one error |
| StreamReader.LogsGrow | crates/dbos/src/db/streams.rs:49-61 | over runs of the replay machine a log only grows at its end |
| StreamReader.PollsGrow | crates/dbos/src/db/streams.rs:121-158 | polls at later and later states of a run meet the readers' assumption |
| Migrations.SchemaDb.WriteVersion | crates/dbos/src/db/migrate.rs:425-440 | inserts the version row the first time and updates it thereafter |
| Migrations.SchemaDb.CleanupInvalidIndexes | crates/dbos/src/db/migrate.rs:442-470 | drops every invalid index, dying anywhere without harm |
| Migrations.SchemaDb.OnlineStep | crates/dbos/src/db/migrate.rs:364-370 | wherever an online migration dies the database stays valid; completed, it is applied and recorded |
| Migrations.SchemaDb.CatalogStep | crates/dbos/src/db/migrate.rs:371-378 | a catalog migration is applied and recorded at once |
| Migrations.SchemaDb.RunMigrations | crates/dbos/src/db/migrate.rs:334-382 | a run that dies anywhere loses no recorded version; one that completes leaves the uninterrupted schema and no invalid index |
| Migrations.SchemaDb.RunAgainAndAgain | crates/dbos/src/db/migrate.rs:334-382 | the same through any sequence of crashes and re-runs, with one version row |
| Migrations.MigrateFromNothing | crates/dbos/src/db/migrate.rs:277-319 | the shipped list takes an empty database to version 40 and its uninterrupted schema |
| Base64.EncodeDecodes | crates/dbos/src/serialize.rs:85-86 | decoding an encoding returns the bytes |
| Base64.DecodeEncodes | crates/dbos/src/serialize.rs:101-103 | only the encoding of a text decodes to it |
| JsonProofs.PrintParses | crates/dbos/src/serialize.rs:66-79 | compact JSON parses back to its value exactly when it is not nested too deep |
| Serialize.TaggedRoundTrip | crates/dbos/src/serialize.rs:66-117 | a value written with its format is read back |
| Serialize.Base64IsNotJson | crates/dbos/src/serialize.rs:128-136 | the base64 form of compact JSON is no JSON text, no marker and not null |
| Serialize.UntaggedBase64 | crates/dbos/src/serialize.rs:101-136 | without a recorded format the base64 form or nil marker is read back |
| Serialize.UntaggedPlain | crates/dbos/src/serialize.rs:149-166 | without a recorded format compact JSON is read back if and only if it is not too deep and holds no legacy wrapper |
| Serialize.WrapperIsNotReadBack | crates/dbos/src/serialize.rs:252-257 | every wrapped date comes back as the text of its date |
| Serialize.BigIntIsRevived | crates/dbos/src/serialize.rs:259-268 | the wrapper of every 64-bit integer comes back as the number with exactly its decimal text |
| Serialize.EnvelopeIsLowered | crates/dbos/src/serialize.rs:150-160 | a SuperJSON envelope decodes to its value, lowered by its annotations |
| Serialize.IntegerReadsBack | crates/dbos/src/serialize.rs:259-268 | the text of every 64-bit integer is a JSON number and reads back as the integer |
| Serialize.RevivesWrappers | crates/dbos/src/serialize.rs:246-284 | revival changes a value if and only if it holds a wrapper it understands |
| Serialize.CompactIsNotSentinel | crates/dbos/src/db/streams.rs:14-16 | no encoded value collides with the close sentinel |
| Database.SystemDatabase.CheckOperationExecution | crates/dbos/src/db/steps.rs:18-72 | missing, cancelled, unrecorded, misnamed and recorded steps told apart |
| Database.SystemDatabase.RecordOperationResult | crates/dbos/src/db/steps.rs:74-114 | inserts a checkpoint or reports the one that is there, changing nothing |
| Database.SystemDatabase.CheckChildWorkflow | crates/dbos/src/db/steps.rs:139-158 | the child recorded at a step, if any |
| Database.SystemDatabase.InsertNotification | crates/dbos/src/db/notifications.rs:14-45 | delivers a message, or fails when the destination is missing |
| Database.SystemDatabase.NotificationExistsUnconsumed | crates/dbos/src/db/notifications.rs:47-64 | true exactly when consuming from the topic would take a message, whichever of the oldest that is |
| Database.SystemDatabase.ConsumeOldestNotification | crates/dbos/src/db/notifications.rs:66-91 | consumes exactly one message, an oldest unread one of its topic, and returns it |
| Database.SystemDatabase.UpsertWorkflowEvent | crates/dbos/src/db/notifications.rs:93-116 | sets the current value of one key |
| Database.SystemDatabase.InsertWorkflowEventHistory | crates/dbos/src/db/notifications.rs:118-143 | sets the history row of one step and key |
| Database.SystemDatabase.WriteStreamEntry | crates/dbos/src/db/streams.rs:21-63 | appends at the next offset, or refuses a closed stream and changes nothing |
| Database.SystemDatabase.InsertWorkflowStatus | crates/dbos/src/db/status.rs:126-238 | inserts a new row, refuses a taken deduplication id, another name or another queue and changes nothing then, touches an existing row otherwise, and dead-letters one whose attempts exceed `max_retries + 1` |
| Database.SystemDatabase.StartWorkflow | crates/dbos/src/runtime/workflow.rs:239-266 | the row transaction of a start; a new row runs, a settled one never, an existing one only by its own start or a recovery within the limit |
| Database.SystemDatabase.UpdateWorkflowOutcome | crates/dbos/src/db/status.rs:240-270 | stores the result of the body as output or error unless the row is cancelled, and changes no other row |
| Database.SystemDatabase.CancelWorkflows | crates/dbos/src/db/management.rs:264-289 | afterwards every given workflow that exists is finished; one that was not fails every later look-up and holds no place in any queue; nothing else changes |
| Database.SystemDatabase.ResumeWorkflows | crates/dbos/src/db/management.rs:325-358 | afterwards every given workflow without an outcome has its attempts back, no deadline, its checkpoints, and may be claimed by exactly the dequeues of the queue that match it; nothing else changes |
| Database.SystemDatabase.DeleteWorkflows | crates/dbos/src/db/management.rs:291-301 | no look-up finds a given workflow afterwards; the others stay as they were |
| Database.SystemDatabase.ClearQueueAssignment | crates/dbos/src/db/queue.rs:29-49 | pushes a claimed row back to its queue and says whether it did |
| Database.SystemDatabase.TransitionDelayedWorkflows | crates/dbos/src/db/queue.rs:13-27 | promotes exactly the delayed rows whose time has come; every other row stays as it was |
| Database.SystemDatabase.GetQueuePartitions | crates/dbos/src/db/queue.rs:51-67 | exactly the partitions with enqueued work |
| Database.SystemDatabase.ForkWorkflowAt | crates/dbos/src/db/management.rs:360-506 | the new row and its four copies, or an error and no change |
| Database.SystemDatabase.SelectCandidates | crates/dbos/src/db/queue.rs:168-189 | a sorted selection of eligible rows of the greatest allowed length |
| Database.SystemDatabase.MaxTasks | crates/dbos/src/db/queue.rs:143-163 | worker slots left or the iteration maximum, capped by free global slots |
| Database.SystemDatabase.ClaimAll | crates/dbos/src/db/queue.rs:204-231 | claims the candidates in order until the rate limit is used up |
| Database.SystemDatabase.DequeueWorkflows | crates/dbos/src/db/queue.rs:95-238 | claims what the atomic dequeue claims; every claimed row is PENDING, the caller's, started now and marked as its queue is limited, and no other row changes |
| Database.SystemDatabase.NthNewest | crates/dbos/src/db/management.rs:519-532 | the creation time of the n-th newest row |
| Database.SystemDatabase.GarbageCollect | crates/dbos/src/db/management.rs:508-549 | removes exactly the rows neither active nor as new as the later of the two bounds; unless the given cutoff is the later one, at least as many rows stay as the threshold says |
| Database.SystemDatabase.RecoverPendingWorkflows | crates/dbos/src/runtime/recovery.rs:13-74 | each such row is re-enqueued, restarted, dead-lettered or left, on its own; every other row stays |
| Context.Retried | crates/dbos/src/runtime/step.rs:23-71 | fails only when all `max_retries + 1` attempts fail; otherwise it is the first success |
| Context.FailuresAreReported | crates/dbos/src/runtime/step.rs:39-71 | one failed attempt is reported as it is; with a retry, the number of retries and the texts of both attempts, a line each |
| Context.ExecuteStepWithRetry | crates/dbos/src/runtime/step.rs:39-71 | the loop returns that outcome, the texts of the failed attempts joined |
| Context.WorkflowContext.NextStepId | crates/dbos/src/runtime/context.rs:56-58 | the next step id, from 0 |
| Context.WorkflowContext.ReplayStep | crates/dbos/src/runtime/context.rs:145-172 | the recorded value or error of a step |
| Context.WorkflowContext.RecordStep | crates/dbos/src/runtime/context.rs:174-201 | checkpoints an outcome, or conflicts and changes nothing |
| Context.WorkflowContext.RunStep | crates/dbos/src/runtime/context.rs:76-98 | runs a step and records its result once, replays it later, runs inline inside a step |
| Context.WorkflowContext.RunStepWith | crates/dbos/src/runtime/context.rs:100-123 | the same with retries: only the outcome of the whole retry loop is recorded |
| Context.WorkflowContext.Send | crates/dbos/src/runtime/context.rs:248-303 | message and checkpoint commit together or not at all, the message as sent |
| Context.WorkflowContext.SetEvent | crates/dbos/src/runtime/context.rs:408-467 | event, history row and checkpoint commit together or not at all, both rows with the value in its format |
| Context.WorkflowContext.WriteStreamRaw | crates/dbos/src/runtime/context.rs:577-630 | stream entry and checkpoint commit together or not at all, the entry last in its stream with the value in its format |
| Context.WorkflowContext.RecordSleep | crates/dbos/src/runtime/context.rs:647-698 | records a deadline or reads back the one recorded first |
| Context.WorkflowContext.Sleep | crates/dbos/src/runtime/context.rs:632-645 | waits exactly what is left of the recorded deadline |
| Context.WorkflowContext.AwaitMessage | crates/dbos/src/runtime/context.rs:350-371 | stops at the first turn that sees a message or the deadline |
| Context.WorkflowContext.AwaitEvent | crates/dbos/src/runtime/context.rs:507-530 | stops at the first turn that sees the event or the deadline, with what it saw |
| Context.WorkflowContext.ConsumeAndRecord | crates/dbos/src/runtime/context.rs:373-405 | consumes an oldest message and records it in one transaction |
| Context.WorkflowContext.Recv | crates/dbos/src/runtime/context.rs:305-406 | two step ids, a second waiter refused, the deadline before the wait, the message with its checkpoint; it returns the picked message in its format, or nothing |
| Context.WorkflowContext.GetEvent | crates/dbos/src/runtime/context.rs:469-555 | two step ids, the deadline before the wait, the value found with its checkpoint; it returns the event as the last turn saw it, in its format, and nothing only when it was not there and the deadline was over |
| Context.WorkflowContext.RunWorkflow | crates/dbos/src/runtime/context.rs:203-246 | the recorded child, or a new one whose row and record commit together; the handle is that of a row of the child's name |
| Context.GuardIsCrash | crates/dbos/src/db/steps.rs:30-41 | a method the status guard stops changes no table and is a crash of the replay machine |
| Context.OperationIsReplayed | crates/dbos/src/runtime/context.rs:76-303 | a step, send, set_event or stream write is one look-up and at most one commit of the replay machine, with the same tables and outcome |
| Context.ChildIsReplayed | crates/dbos/src/runtime/context.rs:203-246 | so is starting a child |
| Context.SleepIsReplayed | crates/dbos/src/runtime/context.rs:635-698 | `sleep` up to its wait is a look-up and at most one recorded deadline |
| Context.SleepWakes | crates/dbos/src/runtime/context.rs:699-703 | its wait may end exactly when nothing of the deadline remains |
| Context.TimedIsReplayed | crates/dbos/src/runtime/context.rs:320-332 | a recorded `recv` or `get_event` is one look-up that returns what is recorded |
| Context.TimedSleeps | crates/dbos/src/runtime/context.rs:320-350 | an unrecorded one is two look-ups and at most one recorded deadline before its wait |
| Context.RecvPolls | crates/dbos/src/runtime/context.rs:352-371 | in any later state a turn of the wait ends it exactly when `AwaitMessage` stops |
| Context.RecvCommits | crates/dbos/src/runtime/context.rs:373-405 | the last transaction of `recv` is the commit, with the same tables and outcome: the picked message or nothing |
| Context.GetEventPolls | crates/dbos/src/runtime/context.rs:510-530 | a turn of the wait ends it exactly when `AwaitEvent` stops, with what that saw |
| Context.GetEventCommits | crates/dbos/src/runtime/context.rs:532-554 | the last transaction of `get_event` is the commit, with the same tables and outcome: the event found or nothing |

## Left out

- HTTP admin server, conductor client, telemetry, configuration, the `Client` type, `list_workflows` filters: thin calls and wire shapes.
- The result of a child: awaiting it is not checkpointed, so bodies see only the child's id.
- Replay.Next: a missing or cancelled workflow met by the status guard ends an execution like a crash; the guard itself is in `Operations.CheckOperation`. No new row takes the id of an execution that outlived its deleted row: such an execution would go on against the wrong row.
- Error codes: they do not survive replay, so bodies see error texts only; the JSON envelope around a text is not modelled.
- Step ids are unbounded; the 32-bit counter of the code wraps after 2^31 operations.
- Context.WorkflowContext.Recv: whether another `recv` of the process waits on the topic, and what each turn sees of the database and clock, are parameters.
- LISTEN/NOTIFY, waiters, polling intervals, jitter and backoff delays: a wake-up may come at any time.
- Lifecycle.SettledHoldsLastResult: that the outcome written is the result of a finished execution is not composed with the replay machine, where `ReplayTheorems.FinishedIsCrashFree` says what that result is.
- StreamReader.ReadStreamBlocking: when the producer is inactive only the contiguous slice read so far is claimed, not completeness.
- StreamReader.ReadStreamAsync: a receiver dropped early is not modelled.
- ClaimLocks.ClaimsAreExclusive: other writers take and release their lock in one step; the order among rows of equal priority and age is free.
- QueueTheorems.GlobalConcurrency: each dequeue is one atomic step, and all executors use the same limits for a queue.
- Migrations.SchemaDb.RunMigrations: runners do not overlap; the SQL text of migrations and its rendering are parameters, and a catalog migration is any function of the schema.
- JsonProofs.PrintParses: a number is its text, so printing, rounding and overflow of floating point are not modelled (for integers see `Serialize.IntegerReadsBack`); the nesting limit of the parser is a parameter.
- Serialize.DecodeSuperjson: the walk that applies SuperJSON annotations is a parameter.
- Argument envelopes of workflow inputs: the same JSON round trip around one value.
- Column values no transaction here reads (authentication, class and application names, attributes, step timestamps).
