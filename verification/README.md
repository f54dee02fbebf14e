# Romancy: a model of durable execution, and proofs about it

Romancy runs workflows as ordinary code and survives crashes by recording every outcome in a
write-once history, from which an interrupted workflow is re-run. Around that lie leased locks,
timers, channels, saga rollback, recur, an outbox and leader election. This project models these
parts in Dafny and proves what they promise over whole runs, with workers that may die between
any two storage statements.

## How the model is built

* **One instance, statement by statement.** `Tables.Row` is what the tables hold of one instance.
  Every step of the protocol is a list of `Action`s, one per storage statement; a crash keeps a
  prefix of the list and loses the open transaction. "A crash anywhere" is "any prefix".
* **Workflow code** is deterministic: a function from the outcomes it has seen to its next call
  (`Workflows.Workflow`). Its reference meaning is the uninterrupted run fed by an oracle.
* **Executions.** `Replay.Exec` is one execution over a history: cached calls are answered from
  the cache, others performed, and it ends, suspends, or runs out of `fuel` calls (the process is
  then still running, or dead; nothing after it takes place).
* **The machine** (`Machine`) interleaves everything that touches an instance: starting and
  resuming, the stale-lock cleanup, timers, deliveries, timeouts, recur restarts, cancellations,
  polls and the passing of time; any of these may die after any statement. Three invariants of it
  are proved. `Integrity`: unique ids, records that keep out of the way of calls, and what
  "completed" claims, through any steps whatever. `Accounts` and `Reachable`: the forms of ids and
  the books of transactions and compensations, through all steps the system can take
  (`Machine.Possible`). `Safety` and `CallOrder`: the records in the order of the calls, through
  exactly the steps that keep it (`Safety.InOrder`). `Meaning`, `Registration`, `Wakeups`, `Logs`
  and `Timers` draw the conclusions.
* **Down to the columns.** `Effects` writes out, in the columns of the tables, every row that each step
  can leave, for every death in it; `Answers` what workflow code is told by a call and by every later
  replay of its record. Neither leans on the functions that define the steps.
* **The code itself.** `Storage.SqliteStorage`, `HistoryIterators.HistoryIterator`,
  `Engines.Engine` with its `ExecutionContext`, `Apps.App`, the three rollback loops in
  `Compensations`, `Outbox.Relayer`, `Channels.ChannelStorage` and `Leader.Election` update their
  fields as the Go code does; each method is proved to do what the action, plan or function of the
  protocol says, so the theorems about the protocol are theorems about them. `Row(i)` ties the
  storage class to `Tables.Row`; `Engine.ResumptionIsStep` ties a resumption to the machine's step,
  and `App.HandleExpiredTimer` keeps the invariant of the machine because it takes two of its steps.

| module | part |
|---|---|
| Prelude, Ordering | options, filters, ORDER BY |
| ActivityIds, Workflows, Replay | ids, workflow code, one execution |
| Clock, Locks, Leases, Leader | truncated clocks, leases, leadership |
| Tables, Machine | the tables of one instance, and every step that touches them |
| Integrity, Accounts, Reachable, Safety, CallOrder | the invariants |
| Answers, Effects | what workflow code is told, and what every step leaves, column by column |
| Meaning, Registration, Wakeups, Timers, Logs | what the invariants mean for whole runs |
| Findings, Deadlines, StaleTimers | what does not hold, and exactly when |
| Saga, Compensations | rollback, and the three loops that perform it |
| Storage, HistoryIterators, Engines, Apps | the code over the tables |
| Retries, Outbox, Pagination, Channels | the other loops |

## Assumptions

* No execution outlives its lease, so the steps of one instance are serialised by its lock
  (nothing in the engine refreshes a lock). Two goroutines of one worker do not enter the same lock
  at once. Contexts made from an execution carry no worker id (`context.go:98-108`), so deliveries
  made by publishing workflows all lock under the empty id; they too are taken not to meet.
* Storage statements succeed, except where a query is modelled as failing (history pages and the
  list of compensations). The activity's transaction is the only one open, for its own instance.
* Activities are not named `compensation`, and not so that their ids begin with `channel:`, the
  ids of records the engine makes for itself (`Replay.WellNamed`). Statements about sleeps ask that
  no activity is named `sleep` (`Timers.SleepsAlone`).
* Handlers take up what some poll has found, however long ago, and an execution reads the clock of
  its step (`Machine.Possible`). What does not need even that says so: `Integrity`,
  `Meaning.ReplayPreservesMeaning`, `Meaning.OneOutcome` and `Logs` are about any steps at all.
* Where a completed instance's value is claimed, no execution has left it completed after rolling a
  transaction back (`Integrity.StraightRun`): the outcome of such a transaction is in no record.
  `Integrity.ExecFeedsExactly` shows that this is exactly where records and run part. Workflow code
  that passes on the errors of transactional activities (`Replay.Propagates`) keeps to it in every
  run (`Integrity.PropagatingIsStraight`).
* Only where the records are claimed to stand in the order of the calls, workflow code passes on such
  errors (`Findings.SwallowedErrorLeavesThePath` shows why), and runs are ordered
  (`CallOrder.OrderedRun`): a timer or timeout that a handler records is recorded already or answers
  the next call, and no worker dies between deleting the history and deleting the subscriptions of a
  recurring instance with a wait left over, unless it is that of the workflow's first call.
  `CallOrder.RunKeepsExactly` says that the order is kept all along in exactly these runs, and
  `CallOrder.CurrentIsOrdered` that they include all whose handlers take up what polls of the same
  iteration have found.

## What turned out not to hold

The code is modelled as it is; these are theorems about it.

* A wake source can be lost. `Wakeups.WakeLostExactly` lists every moment at which that happens,
  and shows that it happens at no other; `Wakeups.LossIsForever` that it is for ever. The cleanup
  does not resume instances waiting for a message, clears locks beyond the 100 it lists, and clears
  a lock before it resumes; a delivery clears the wait before it sets the status running.
* Archiving at a recur copies and deletes in two statements; a run keeps the log exactly if nothing
  dies in between (`Logs.LogIsConserved`).
* A broadcast message is lost or repeated in five ways, and in no other: a waiting subscriber that
  is not got to, a publisher that dies between record and cursor, a publisher that comes late, a
  registration after its check, a receive that dies after moving the cursor
  (`Channels.FaithfulExactly`). A timeout or a subscription that dies half-way does no harm.
* `SleepUntil` takes no id once its time has passed. Whether the next sleep is then skipped depends
  on the clock of the execution, exactly (`Deadlines.NextSleepIsSkippedExactly`).
* Outside a transaction a completed activity loses its compensation exactly if the worker dies
  right after recording it (`Findings.PlainActivityLosesCompensation`).
* A sleep can end early exactly if a poll has found a timer of its id before it was registered, which
  a recur makes possible, and its instance is not locked until then
  (`StaleTimers.CanEndEarlyExactly`, `StaleTimers.StaleTimerEndsSleep`).
* Workflow code that goes on after a failed transactional activity is replayed with that activity
  called again, and with the records of what it did next (`Integrity.ExecFeedsExactly`,
  `Findings.SwallowedErrorLeavesThePath`).
* The outbox sends at least once: a relayer that dies after a send and before its mark sends the event
  again (`Outbox.DyingSendsAgain`).
* An interrupted rollback goes on as a rollback exactly if the failure follows from recorded outcomes;
  else the failed activity is called again, and the workflow may go on, with what it did before
  compensated (`Findings.RollbackSettlesExactly`).
* A rollback whose queries fail is passed over, and the instance is marked failed all the same, with
  its compensations left (`Engines.Engine.Fail`).
* The app's rollback does not count a missing executor as an error, and can report success where the
  engine's reports an error (`Compensations.AppForgetsMissing`).
* `MaxInterval` does not cap the first delay (`Retries.CappedExactly`), although the policy's
  documentation calls it the maximum delay between retries (`retry/policy.go:20-21`).

## Model

| member | source | states |
|---|---|---|
| ActivityIds.RenderInjective | context.go:156-162 | two ids render alike only for the same name and the same counter, whatever characters the name has |
| Workflows.IdsDiffer | context.go:156-162 | no two calls of one execution have the same id |
| Answers.IdNumbersCalls | context.go:156-162 | a call's id is its name, a colon, and one more than the number of calls and subscriptions of that name before it |
| Workflows.CacheIsHistory | internal/replay/engine.go:227-259 | over a history with unique ids the cache holds exactly the outcomes of its cacheable events |
| Workflows.CacheByKind | internal/replay/engine.go:227-259 | a completed activity and a received message are answered with their text as a result, a failed activity and a timeout with theirs as an error, other records answer nothing |
| Workflows.RunIsUninterrupted | internal/replay/engine.go:219-298 | the uninterrupted run fed with recorded outcomes sees exactly those, in order, call by call |
| Locks.AvailableExactlyFrom | internal/storage/sqlite.go:515-542 | a lock granted until a deadline can be taken by others exactly from the first full second after it, never at or before it, at most a second late |
| Leases.RunKeepsSound | internal/storage/sqlite.go:515-607 | over every interleaving of acquire, re-acquire, refresh, release and cleanup, whoever may still take itself for the holder is the holder in the table |
| Leases.AtMostOneHolder | internal/storage/sqlite.go:515-607 | at every instant of every run at most one worker holds an unexpired lease |
| Leases.LeaseHoldsUntilDeadline | internal/storage/sqlite.go:515-607 | a lock taken at t for T seconds cannot be taken, cleared or released by another up to and including t+T, whatever others did meanwhile |
| Leases.LeaseEndsWithinASecond | internal/storage/sqlite.go:515-542 | an unreleased lock can be taken by anyone from t+T+1s |
| Replay.TransactionIsAtomic | activity.go:168-217 | a transactional activity, cut anywhere, leaves the tables as they were or everything it does; a failed one leaves nothing |
| Replay.PlainCallRows | activity.go:220-251 | without a transaction a crash leaves nothing up to the record, the bare record right after it, and everything from then on |
| Replay.CacheAnswers | internal/replay/engine.go:227-259 | the cache answers a call exactly if the call lies within the recorded path, with the recorded outcome |
| Replay.ExecKeeps | internal/replay/engine.go:219-337 | an execution over a history that begins an uninterrupted run leaves, wherever it is cut, a longer one that does; complete, it ends where workflow code ends after those outcomes |
| Replay.ExecDisciplined | activity.go:106-165 | at every cut workflow code stands on the recorded path, and user code is called only for the next call of it, while that has no record |
| Replay.ExecReplays | internal/replay/engine.go:227-298 | where workflow code ends or suspends after the recorded outcomes, an execution invokes and records nothing and ends there |
| Answers.RecordIsSeen | internal/replay/engine.go:227-298 | whatever happens to an instance in the iteration, every execution that gets to the call a record answers is told what the record says: nothing for a sleep, the text as a result or as an error by the kind of the record |
| Answers.DeliveryIsSeen | internal/storage/sqlite.go:1355-1470 | a delivery to a waiting instance, cut anywhere from its record on, has added exactly the message with its text under the id of the wait, and every later execution that gets to that receive is given the text |
| Answers.TimeoutIsSeen | app.go:1569-1638 | a recorded timeout is told as an error with its text, never as a message |
| Answers.FiringIsSeen | app.go:742-771 | a sleep whose timer was handled is over |
| Answers.ActivityIsPerformed | activity.go:168-251 | the next call, if an activity without a record, is told the outcome of its attempts, recorded as a completion or a failure with the text, with its write and its compensation entry; a failed transactional one leaves nothing |
| Answers.ReceiveIsPerformed | channels.go:299-378 | a receive takes a pending message under its own id, and else suspends on its channel until the clock plus its timeout, if it has one |
| Answers.SleepIsPerformed | events.go:149-184 | a sleep suspends under its id until the clock plus its duration |
| Answers.EndIsReached | internal/replay/engine.go:298-352 | where workflow code ends on what its records say, an execution ends with that value, error or new input, and does nothing |
| Integrity.StepGrows | internal/storage/sqlite.go:612-620 | within an iteration any step, cut anywhere, only adds to the history, at its end, and leaves no transaction open |
| Integrity.RunUnique | internal/storage/sqlite.go:612-620 | no run of any steps gives an id two records |
| Integrity.UncachedIsUnrecorded | internal/replay/engine.go:227-259 | a call without a cache entry has no record at all |
| Integrity.RunIntact | internal/replay/engine.go:588-615 | through any steps the records that answer no call stay under ids no call has |
| Integrity.ExecFeedsExactly | activity.go:168-217 | any execution, from any point its records feed it to: what workflow code has then seen is what a replay of the new records hands out, if and only if no transaction was rolled back in it |
| Integrity.RunClaims | internal/replay/engine.go:298-352 | through any steps of which none leaves the instance completed after rolling a transaction back, a completed instance has a value with which its workflow returns, fed from its own records |
| Integrity.PropagatingIsStraight | activity.go:194-203 | workflow code that passes on errors of transactional activities never completes after rolling one back, in any run |
| Reachable.StepSound | app.go:623-1729 | every possible step, cut anywhere, keeps the forms of ids and the books: writes and entries belong to completed activities, at most once each, and completed transactional ones have theirs |
| Reachable.RunSound | app.go:623-1729 | and so does every possible run |
| Safety.PassKeeps | internal/replay/engine.go:509-553 | a rollback, cut anywhere, keeps the invariant and adds only records that answer no call |
| Safety.RecurKeeps | internal/replay/engine.go:426-466 | a recurring instance, cut anywhere, begins an iteration on the path, except exactly between the two deletions with a wait left over that is not of the first call of the workflow |
| CallOrder.StepKeepsExactly | app.go:623-1729 | every possible step of executions, cleanup, timers, deliveries, timeouts, restarts, cancellations and polls, cut anywhere, keeps the records in the order of the calls, if and only if the timer or timeout it gets to record is recorded or answers the next call, and it does not die between the deletions of a recur with a wait left over that is not of the first call |
| CallOrder.RunKeepsExactly | app.go:623-1729 | a possible run keeps the order all along if and only if each of its steps does so |
| CallOrder.CurrentIsOrdered | app.go:680-713 | and each does if handlers take up what polls of the same iteration have found and no worker dies between those deletions |
| Effects.TimerFires | app.go:742-771 | every row handling a timer can leave: locked, then the timer row gone, then the completion recorded under its id |
| Effects.MessageArrives | internal/storage/sqlite.go:1355-1470 | every row a delivery can leave: locked, the message recorded with its text under the id of the receive, or of the channel and the message if none waits, the wait ended, running, free; without a subscription, or with the id taken, locked and free |
| Effects.ReceiveTimesOut | app.go:1569-1638 | every row a timeout can leave: locked, the timeout recorded with its text, the wait ended, running, free |
| Effects.InstanceRestarts | app.go:1705-1725 | every row a restart can leave: locked, running, free |
| Effects.InstanceIsCancelled | app.go:983-1048 | every row a cancellation can leave: locked, rolled back in part or whole, cancelled unless ended in between, free; nothing for an instance seen ended |
| Effects.ConclusionRow | internal/replay/engine.go:302-466 | every row the end of an execution can leave: value with status; rollback, failure record with its message, status; archive, deletions, record with the new input, status; timer with its second, status; wait with its second, status; and at last the lock is free |
| Effects.InstanceResumes | internal/replay/engine.go:194-216 | every row a resumption can leave: locked, running, then those of the execution, then those of its end |
| Effects.LockIsCleared | internal/storage/sqlite.go:569-607 | a cleanup clears the lock, and then resumes a listed instance that is running or sleeping, and no other |
| Effects.ActsExactly | internal/storage/sqlite.go:515-542 | a handler acts exactly if the lock is free, its worker's own or expired before the present second; the cleanup only in the last case |
| Effects.PollFinds | internal/storage/sqlite.go:764-806 | a poll adds exactly the timers whose second has come and the waits whose second has passed |
| Meaning.RecordsFollowCalls | internal/replay/engine.go:219-298 | in such runs the records are, one by one, what an uninterrupted run sees when fed with them |
| Meaning.ReplayPreservesMeaning | internal/replay/engine.go:219-337 | after any steps at all, each cut anywhere, of which none left it completed after rolling a transaction back, a completed instance has the value with which the uninterrupted run returns when it is fed with the recorded outcomes |
| Meaning.PropagatingReplayPreservesMeaning | internal/replay/engine.go:219-337 | the same after any steps at all, where workflow code passes on errors of transactional activities |
| Meaning.OneOutcome | internal/storage/sqlite.go:612-620 | once an id has a record it stays the only one under the id through any steps at all of the iteration, timeouts of waits found at any time included, and every replay answers from it |
| Meaning.RerunIsIdempotent | internal/replay/engine.go:219-337 | executing a workflow over any records that make it return, in whatever order they came, calls nothing, records nothing, and leaves that value |
| Meaning.CompletedStaysCompleted | internal/replay/engine.go:194-352 | after any steps as above a completed instance that is run again by any worker at any time, far enough to return, makes no call and no record and keeps its value |
| Meaning.TransactionsAllOrNothing | activity.go:134-217 | in every reachable state, id by id: at most one write and at most one compensation entry, both only with a recorded completion; a completed transactional activity has exactly one write and, if it is compensated, exactly one entry |
| Meaning.TransactionsByCall | activity.go:134-217 | the same call by call where records follow calls: a transactional call has written once exactly if it is recorded as completed; its entry exists, no id has two, no entry lacks a completion |
| Registration.StepInOrder | internal/storage/sqlite.go:902-912 | every step keeps compensation ids growing and their timestamps from falling |
| Registration.OnlyResults | internal/replay/engine.go:588-615 | a record under a compensation's id is that compensation's result |
| Registration.RollbackIsReady | internal/storage/sqlite.go:917-945 | every reachable state satisfies what the rollback theorems ask for |
| Registration.CallsUnrecorded | activity.go:116-165 | at every cut of every step, user code (activity or compensation) is called only under an id without a record |
| Registration.NeverCalledAgain | activity.go:116-165 | no continuation of a possible run in the same iteration calls user code under an id that has a record, whatever workflow code makes of errors |
| Saga.LifoReversesRegistration | internal/storage/sqlite.go:917-945 | with a clock that does not run back the order of rollback is the reverse of registration, equal timestamps included |
| Saga.PassContinues | internal/replay/engine.go:526-553 | a pass over a half-done rollback, cut anywhere, does the next entries in LIFO order, and calls those and at most one more |
| Saga.RollbackSurvivesCrashes | internal/replay/engine.go:509-615 | after any number of interrupted rollbacks and a full one: one result per compensation in LIFO order, each a failure with the error or a success without one just as that compensation ended in one of the attempts, nothing else changed, each called once plus once per crash that met it in flight, and a further pass does nothing |
| Saga.CalledOncePlusInFlight | internal/replay/engine.go:526-553 | the number of calls of one compensation |
| Saga.ResultsReverseRegistration | internal/replay/engine.go:509-615 | the results stand in reverse registration order |
| Compensations.RollbackRecords | internal/replay/engine.go:509-615 | a rollback appends one record for every entry without a result, newest first, and nothing else: a failure with the error exactly if the entry failed, else a success without one, under the entry's id and with its name |
| Compensations.VerdictsMean | app.go:1052-1099 | the engine returns the error of the first entry that fails, a missing executor included, the app that of the last entry whose executor fails, and each none exactly if there is none |
| Compensations.EngineRollback.ExecuteCompensations | internal/replay/engine.go:509-553 | with its queries answered and a runner, performs the rollback of the specification (whose records `RollbackRecords` states), calls the pending entries that have an executor, returns the first error; without, changes nothing, and that is no error exactly if only the runner is missing |
| Compensations.AppRollback.ExecuteCompensations | app.go:1052-1099 | with its queries answered, performs the rollback of the specification (see `RollbackRecords`), calls the same entries, returns the last error of an executor; else changes nothing and reports an error |
| Compensations.Executor.ExecuteCompensations | compensation/executor.go:90-124 | with its queries answered, performs the rollback of the specification (see `RollbackRecords`), calls the same entries, returns the first error; else changes nothing and reports an error |
| Compensations.LoopsAgree | compensation/executor.go:90-124 | the three loops take the same entries in the same order and append the same ids with the same verdicts |
| Compensations.AppForgetsMissing | app.go:1074-1080 | about the errors the two loops return: the app reports none that the engine does not, and the engine one that the app does not exactly if an entry left to do has no executor and no executor that is called fails |
| Wakeups.WakeLostExactly | internal/replay/engine.go:375-466 | every possible step that dies anywhere keeps a wake source, except at the listed moments, and loses it at each of those |
| Wakeups.NoLostWakeup | app.go:716-784 | every possible run that avoids those moments leaves an instance with a wake source |
| Wakeups.WholeHandlersLose | internal/storage/sqlite.go:569-607 | with handlers taken as a whole only two such moments remain, both on a sleep whose timer row is gone |
| Wakeups.WholeHandlersKeepWake | internal/replay/engine.go:375-466 | apart from those two, whole handlers and executions that die between any two statements lose no wake source |
| Wakeups.StuckForever | internal/storage/sqlite.go:476-510 | background tasks and publishers never get a stuck instance on |
| Wakeups.LossIsForever | internal/storage/sqlite.go:1399-1460 | if nothing else is under way, losing the last wake source makes the instance stuck |
| Wakeups.WakeSourceWakes | app.go:1784-1824 | an unfinished instance with a wake source has its workflow code run within four steps of background tasks, publishers and time |
| Timers.TimerKeepsExpiry | internal/storage/sqlite.go:683-692 | while a timer row remains no step changes its expiry |
| Timers.FiringRecordsOnce | app.go:757-771 | handling a found timer leaves one completion record and no row, however often |
| Timers.SleepNotEarly | events.go:149-184 | a sleep whose timer stands, not found yet, is never over a second or more before its expiry, through crashes, repeated registrations and whatever workflow code does elsewhere |
| Timers.SleepExpires | events.go:166-184 | an execution that suspends on a sleep does so until its clock plus the duration of that sleep, under the id of that call |
| Logs.StepConservesLogExactly | internal/storage/sqlite.go:1639-1658 | archive and history gain exactly the accepted events, in order, if and only if the step does not die between the copy and the deletion of a non-empty history |
| Logs.LogIsConserved | internal/replay/engine.go:426-466 | over any run with any number of recurs archive and history together are the accepted events in order, if and only if no worker died between copying a non-empty history and deleting it |
| Logs.RecurStartsAfresh | internal/replay/engine.go:426-466 | after any completed step that deletes the history, started by a worker or by the cleanup, the history holds the recur event alone, without timers, subscriptions or outcomes |
| Findings.SwallowedErrorLeavesThePath | activity.go:168-217 | a swallowed error of a transactional activity followed by a recorded activity leaves a history that begins no run of the workflow |
| Findings.RecordKeepsPathExactly | internal/storage/sqlite.go:612-620 | a new record of an outcome keeps the history the beginning of a run exactly if it answers the next call |
| Findings.FiringKeepsPathExactly | app.go:742-771 | handling a found timer does exactly if it is the timer of the next call, whenever it was found |
| Findings.LeftoverWaitLeavesThePath | internal/replay/engine.go:426-466 | a recur that dies after deleting the history and before deleting the subscriptions lets a delivery to a left-over wait make the first record; from the second deletion on nothing is delivered |
| Deadlines.UntilSuspends | events.go:202-209 | before its time SleepUntil suspends until exactly that time, under an id a later sleep can have |
| Deadlines.NextSleepIsSkippedExactly | events.go:202-209 | for any workflow and place: once SleepUntil is recorded, an execution is told that the following sleep is over exactly if it comes at that time or later; before, it replays up to that sleep and suspends on it |
| Deadlines.LastSleepIsSkippedExactly | events.go:202-209 | a workflow that ends after that sleep suspends on it exactly before that time, and else ends without it |
| Findings.PlainActivityLosesCompensation | activity.go:220-251 | of all points at which the worker can die, exactly the one right after the record leaves a completed activity without its entry |
| StaleTimers.StaleTimerEndsSleep | app.go:716-771 | a run from a new instance on in which a timer found before a recur ends the sleep of the same id in the next iteration at once |
| StaleTimers.CanEndEarlyExactly | app.go:716-771 | where a timer stands, its second to come, the system cannot end the sleep early unless some poll has found a timer of that id before; without a worker entering a lock it holds, it can if and only if that is so and the lock is free or lapses in time |
| Findings.RollbackSettlesExactly | internal/replay/engine.go:308-328 | however much of a rollback is done, the next execution comes back to the failure; it goes straight on with the rollback if and only if the failure follows from recorded outcomes, and else calls the failed activity again |
| Storage.SqliteStorage.TryAcquireLock | internal/storage/sqlite.go:515-542 | succeeds exactly if the lock is available; then it is the acquiring action, else nothing changes |
| Storage.SqliteStorage.ReleaseLock | internal/storage/sqlite.go:545-553 | releases only the worker's own lock |
| Storage.SqliteStorage.CleanupStaleLocks | internal/storage/sqlite.go:569-607 | clears exactly the expired locks; lists only running or sleeping instances, at most 100, all of them if fewer |
| Storage.SqliteStorage.FindResumableWorkflows | internal/storage/sqlite.go:476-510 | finds only running instances without a lock or with one of no named owner, all of them below the limit |
| Storage.SqliteStorage.UpdateInstanceStatus | internal/storage/sqlite.go:296-304 | the status action; nothing for a missing instance |
| Storage.SqliteStorage.UpdateInstanceOutput | internal/storage/sqlite.go:318-326 | the output action, which completes the instance |
| Storage.SqliteStorage.CancelInstance | internal/storage/sqlite.go:332-350 | cancels exactly an existing instance that has not ended |
| Storage.SqliteStorage.AppendHistory | internal/storage/sqlite.go:612-620 | the first record of an id wins; inside a transaction it is held back |
| Storage.SqliteStorage.GetHistoryPaginated | internal/storage/sqlite.go:625-668 | the first events beyond an id in id order, at most so many, and that there are more exactly if one is left out |
| Storage.SqliteStorage.RegisterTimerSubscription | internal/storage/sqlite.go:683-692 | the first expiry of a timer wins |
| Storage.SqliteStorage.RemoveTimerSubscription | internal/storage/sqlite.go:755-761 | removes that timer only |
| Storage.SqliteStorage.FindExpiredTimers | internal/storage/sqlite.go:764-806 | finds only due timers, each once, earliest first; one that is left out is not earlier than those found, and then the limit is reached |
| Storage.SqliteStorage.AddCompensation | internal/storage/sqlite.go:902-912 | adds an entry under the next id with its millisecond; inside a transaction it is held back |
| Storage.SqliteStorage.GetCompensations | internal/storage/sqlite.go:917-945 | every entry of the instance, as often as it is there, each before all that are older; equal timestamps by id |
| Storage.SqliteStorage.SubscribeToChannel | internal/storage/sqlite.go:979-1007 | subscribing again changes the mode and no waiting state; a broadcast subscription starts a cursor at the newest message unless there is one |
| Storage.SqliteStorage.RegisterChannelReceiveAndReleaseLock | internal/storage/sqlite.go:1071-1105 | the wait, the status and the release, in this order |
| Storage.SqliteStorage.ClearChannelWaitingState | internal/storage/sqlite.go:1326-1334 | clears the wait of that channel only |
| Storage.SqliteStorage.GetChannelSubscribersWaiting | internal/storage/sqlite.go:1287-1322 | exactly the instances that wait on the channel |
| Storage.SqliteStorage.DeliverChannelMessageWithLock | internal/storage/sqlite.go:1355-1470 | the delivering step, whose rows `Effects.MessageArrives` states: nothing without the lock; gives up on a missing subscription or a recorded id; else records the message under the receive's id, moves the cursor of a broadcast subscription, wakes and releases |
| Storage.SqliteStorage.FindExpiredChannelSubscriptions | internal/storage/sqlite.go:1484-1526 | finds only timed-out waits, each once, earliest first; one that is left out is not earlier than those found, and then the limit is reached |
| Storage.SqliteStorage.ArchiveHistory | internal/storage/sqlite.go:1639-1658 | copies the history behind the archive, then deletes it |
| Storage.SqliteStorage.CleanupInstanceSubscriptions | internal/storage/sqlite.go:1704-1726 | deletes the instance's timers, subscriptions and group memberships; delivery cursors stay |
| Storage.SqliteStorage.BeginTransaction | internal/storage/sqlite.go:110-117 | opens an empty transaction without callbacks |
| Storage.SqliteStorage.CommitTransaction | internal/storage/sqlite.go:120-140 | held-back statements take effect together, then the callbacks run in order; without a transaction it fails |
| Storage.SqliteStorage.RollbackTransaction | internal/storage/sqlite.go:144-150 | drops what was held back, and runs no callback |
| Storage.SqliteStorage.RegisterPostCommitCallback | internal/storage/sqlite.go:173-180 | adds a callback, or fails outside a transaction |
| HistoryIterators.HistoryIterator.FetchBatch | internal/storage/history_iterator.go:77-94 | the buffer becomes the next events of what remains |
| HistoryIterators.HistoryIterator.Next | internal/storage/history_iterator.go:51-74 | the next remaining event; none at the end, and none from the first failed query on |
| HistoryIterators.HistoryIterator.Collect | internal/storage/history_iterator.go:111-124 | all remaining events, each once and in id order, for any batch size, or the error |
| HistoryIterators.GetExecutedCompensationIDs | internal/replay/engine.go:556-585 | the paged scan computes the set one pass over the whole history gives, and fails exactly if one of its queries does |
| Engines.ExecutionContext.GenerateActivityID | context.go:156-162 | counts the name, and renders the count |
| Engines.ExecutionContext.GetCachedResult | internal/replay/engine.go:93-107 | a result before an error, and a hit counted |
| Engines.ExecutionContext.RecordActivityResult | context.go:212-228 | the outcome is appended and cached |
| Engines.ExecuteInTransaction | activity.go:168-217 | begin, run, record, then commit with the compensation or roll back |
| Engines.ExecuteWithoutTransaction | activity.go:220-251 | run, record, register the compensation |
| Engines.ReceivePending | channels.go:299-367 | a pending message is recorded under the receive's id |
| Engines.NextId | events.go:37-72 | the id of the call, and a subscription before a receive; the counters stay those of the calls made |
| Engines.Subscribe | channels.go:74-123 | counts like a call, and subscribes for broadcast |
| Engines.RunWorkflow | internal/replay/engine.go:265-298 | the loop over workflow code does the plan of one execution, and ends as it does |
| Engines.LoadCaches | internal/replay/engine.go:219-262 | the two caches filled from the iterator are the cache of the history: results hold the text of completed activities and received messages, errors that of failed activities and timeouts, and neither holds other records |
| Engines.Engine.HandleTimerSuspend | internal/replay/engine.go:389-408 | the timer row, then the status |
| Engines.Engine.HandleRecurSuspend | internal/replay/engine.go:426-466 | archive, delete subscriptions, record the recur, set the status, in this order |
| Engines.Engine.Fail | internal/replay/engine.go:308-336 | rolls back if the queries of the rollback are answered, else compensates nothing; records the failure and marks the instance failed in either case |
| Engines.Engine.Complete | internal/replay/engine.go:339-352 | stores the value and marks the instance completed |
| Engines.Engine.Conclude | internal/replay/engine.go:302-466 | the end of an execution does to the tables what the protocol's does, but for a rollback whose queries fail, which is left out |
| Engines.Engine.ExecuteWorkflow | internal/replay/engine.go:219-372 | the whole execution does to the tables what the protocol's does, with all queries answered exactly that, and but for a rollback whose queries fail, which is left out; a history that cannot be loaded changes nothing |
| Engines.Engine.ResumeWorkflow | internal/replay/engine.go:194-216 | without the lock nothing changes; with it: locked, set running, executed and released, or only released if the history cannot be loaded |
| Engines.Engine.ResumptionIsStep | internal/replay/engine.go:194-216 | what a resumption leaves is what the machine's complete resuming step leaves, and that of a restart if the history cannot be loaded |
| Apps.App.FireTimer | app.go:742-771 | the firing step of the machine: lock, remove the row, record the completion; the lock stays held |
| Apps.App.HandleExpiredTimer | app.go:716-784 | a firing step followed by a resuming step under the same lock; these are possible steps of the machine, so a sound instance stays sound |
| Apps.App.HandleChannelTimeout | app.go:1569-1638 | a timeout step, or nothing without the lock |
| Apps.App.Restart | app.go:1705-1725 | a restarting step, or nothing without the lock |
| Apps.App.CancelWorkflow | app.go:983-1048 | a cancelling step, without its rollback if a query fails; refuses ended and locked instances, and reports an instance that ended in between |
| Retries.ExecuteWithRetry | activity.go:272-387 | every attempt but the last failed, below any limit, with an error that is not terminal and whose chain meets none that is not to be retried; the result tells exactly whether the last attempt succeeded, failed terminally, or failed at the limit or with an error not to be retried, else it was interrupted; and it waits after every attempt but the last, and for as long as it is let after an interrupted one |
| Retries.WaitIsBounded | retry/policy.go:91-116 | all waiting, the part of an interrupted wait included, is at most one of the larger interval with its jitter for each wait, hence at most (MaxAttempts - 1) times that |
| Retries.BackoffIsExponential | retry/policy.go:91-105 | without jitter the first delay is the initial interval, the k-th that times the (k - 1)-th power of the multiplier in whole nanoseconds, or the maximum interval if that is less |
| Retries.JitterIsWithin | retry/policy.go:108-116 | jitter moves a delay by at most its share, and not at all at its middle draw |
| Retries.FixedWaitIsFull | activity.go:360-387 | with a fixed interval the loop waits it in full after every attempt |
| Retries.CappedExactly | retry/policy.go:91-105 | without jitter every delay is at most MaxInterval exactly if the initial interval is |
| Outbox.Relayer.ProcessPendingEvents | outbox/relayer.go:201-240 | a poll handles the oldest pending events up to the batch size, one after the other, until told to stop; each of them is then published if its send succeeded, pending with one attempt more if not, and failed if it had reached the limit; every other event is as it was |
| Outbox.Relayer.GetPendingOutboxEvents | internal/storage/sqlite.go:821-851 | pending events in the order of their creation, up to the limit; one that is left out is younger than all of them |
| Outbox.SendsAreBounded | outbox/relayer.go:201-240 | over any run cut anywhere: sends at most counted attempts at most maxRetries, published only after a successful send, failed only at the limit |
| Outbox.PublishedForGood | outbox/relayer.go:201-240 | an event below the limit whose send succeeds in a poll that gets through it is published with that send as its last: no later poll or addition, cut anywhere, touches it |
| Outbox.DyingSendsAgain | outbox/relayer.go:222-239 | a poll that dies in an event leaves it pending, with an attempt counted, or sent without a trace; then it is sent again and only then published |
| Outbox.PollDrops | outbox/relayer.go:201-240 | a poll that runs through its batch lowers the sum of the remaining attempts by at least the size of the batch |
| Outbox.Drains | outbox/relayer.go:201-240 | after as many polls as that sum nothing is pending, whatever the receiver does |
| Pagination.TokenRoundTrip | internal/storage/sqlite.go:403-415 | a token comes back as its cursor, also for ids that contain the separator |
| Pagination.RowsAfter | internal/storage/sqlite.go:403-423 | the query for a row's cursor matches exactly the rows after it in the list |
| Pagination.RowsAreNewestFirst | internal/storage/sqlite.go:353-472 | the list holds exactly the rows that pass the filter, once each, the latest start first, then by descending id |
| Pagination.ListInstances | internal/storage/sqlite.go:353-472 | at most the limit of the first rows of the query, 50 for none; whether there are more; and exactly then a token, which reads as the cursor of the last row |
| Pagination.ListAll | internal/storage/sqlite.go:353-472 | following the tokens ends, and the pages together are the whole filtered list, each row once, the latest start first and then by descending id, for every page size |
| Channels.SubscribingKeeps | internal/storage/sqlite.go:979-1007 | subscribing keeps delivery faithful; a new subscriber starts behind every message there is and before every later one, and subscribing again never moves the cursor |
| Channels.FaithfulExactly | channels.go:177-378 | delivery stays faithful through every step, deaths at any statement of a delivery, a receive, a subscription or a timeout and late publishers included, but the five slips, and through none of those |
| Channels.PublishingExactly | channels.go:461-512 | a publication serves everyone as it should exactly if no waiting subscriber is passed over or left between record and cursor |
| Channels.LateDeliveryExactly | internal/storage/sqlite.go:1355-1470 | a delivery by a publisher that comes late does harm exactly if it answers an open receive, or moves the cursor of an idle subscriber to another message than the last one received |
| Channels.ReceivedIsTheLog | internal/storage/sqlite.go:1151-1187 | after any run without a slip an instance has received published messages in order, each once, and of the retained ones exactly those between its first cursor and its present one: no skip, no repeat |
| Channels.ServedAtOnce | channels.go:386-512 | a waiting subscriber that is served has the message as it was published, waits no more, and its cursor stands at it |
| Channels.ReceivedNext | channels.go:280-378 | a subscriber that has received all there was gets the next published message, with its text, with its next receive |
| Channels.RecurKeepsPlace | internal/storage/sqlite.go:1704-1726 | a recur ends a subscription and not its cursor: subscribed again, the instance goes on where it was |
| Channels.LateRegistrationSkips | channels.go:299-378 | a message published between check and registration is passed over for good |
| Channels.RecordedIsRepeated | internal/storage/sqlite.go:1420-1442 | a message recorded by a publisher that dies before moving the cursor is received again |
| Channels.StrayIsPassedOver | internal/storage/sqlite.go:1396-1442 | a message handed to a subscriber that waits no longer is passed over by its receives |
| Channels.ChannelStorage.SubscribeToChannel | internal/storage/sqlite.go:979-1007 | subscription, and a cursor at the last message unless there is one |
| Channels.ChannelStorage.GetPendingChannelMessagesForInstance | internal/storage/sqlite.go:1151-1232 | the first ten retained messages after the cursor |
| Channels.ChannelStorage.Receive | channels.go:280-378 | the first pending message, or a registered wait |
| Channels.ChannelStorage.WakeWaitingSubscribers | channels.go:461-512 | every listed subscriber that can be locked and whose receive has no record gets the message; on a competing channel up to the first delivery only |
| Channels.ChannelStorage.Publish | channels.go:386-450 | stores the message and wakes the listed subscribers |
| Leader.JitterIsAQuarter | app.go:429-434 | the jittered period stays within a quarter of the heartbeat |
| Leader.JitterSpans | app.go:429-434 | and spans that range: three quarters at the least draw, the heartbeat itself at the middle one |
| Leader.LeadershipIsContinuous | app.go:492-542 | with a lease of three heartbeats a worker that has taken the lock and tries again before two jittered heartbeats have passed holds it throughout: its tries succeed, all others fail |
| Leader.SystemLock.TryAcquireSystemLock | internal/storage/sqlite.go:1588-1614 | succeeds exactly if the lock is missing, expired or the worker's own |
| Leader.Election.TryAcquireLeadership | app.go:513-542 | the flag agrees with whether the tasks run and with the row; tasks start once per term and stop at its end |
| Leader.Election.RunLeaderElection | app.go:492-510 | tick by tick an answered try takes the row wherever it is free, lapsed or its own, and the worker leads exactly while it holds it; one start of the tasks per term; at the end the tasks are stopped and every start cancelled |
| Leader.Election.Shutdown | app.go:182-190 | gives the lock back if it was held |

## Left out

- The other databases (`internal/storage/postgres.go`, `internal/storage/mysql.go`): the same protocols with a select before the update; only the single-statement form of SQLite is modelled.
- JSON encoding, event data beyond an opaque text, and the type assertion on cached values: values come back as they were recorded. A timer's completion data, which `Sleep` drops, is empty.
- HTTP, CloudEvents, hooks, listeners, tracing and logging: they do not touch the tables.
- Competing channels beyond the wake-up loop: the code does not deliver a message to one subscriber overall, since the pending query joins on another key than claims use.
- Channel modes, mode conflicts, direct channels, groups and `Unsubscribe`.
- Statuses that nothing in the engine sets (`pending`, `waiting_for_event`), which some queries list.
- Manual activity ids, which may collide with generated ones.
- Executions that outlive their lease, and one worker entering its own lock twice.
- The loops that hand found lists to the handlers under a semaphore (`app.go:680-713` and the like): the handlers are modelled for one found instance each.
- Storage.SqliteStorage.FindResumableWorkflows: the order by age, since the time of the last update of an instance is not modelled.
- Meaning.RecordsFollowCalls: for the runs of `CallOrder.OrderedRun`, since the order is lost in others (`CallOrder.RunKeepsExactly`); `Meaning.ReplayPreservesMeaning` does not ask for it.
- Meaning.TransactionsByCall: the same; `Meaning.TransactionsAllOrNothing` is the statement for all possible runs.
- Engines.ReceivePending: which message is pending, and the cursor that moves with it, come from outside (`Env.pending`); both are in `Channels.ChannelStorage.Receive`.
- Channels.ChannelStorage.Receive: the claim of a message on a competing channel, and the retry after a lost claim.
- Channels.ChannelStorage.GetPendingChannelMessagesForInstance: the query for competing channels.
- Channels.ChannelStorage.Publish: inside a transaction the wake-up runs as a post-commit callback (`Storage.SqliteStorage.CommitTransaction`); here it follows at once.
- Late deliveries in `Channels` are of messages that are still retained. A recur that dies between deleting the history and deleting the subscriptions is no step there; what it makes of a delivery is in `Findings.LeftoverWaitLeavesThePath`.
- The archive table made by the migrations lacks the column `original_id` that `ArchiveHistory` writes; the model follows the statement.
- Saga.RollbackSurvivesCrashes: speaks of a fixed set of entries; an instance whose rollback was interrupted after an unrecorded error calls the failed activity again (`Findings.RollbackSettlesExactly`) and may register more.
- Engines.RunWorkflow: runs for `fuel` calls, because workflow code may never end; running out of fuel models an execution that is still under way.
- Retries.ExecuteWithRetry: without an attempt limit it is given an attempt at which it stops, since otherwise it need not end; rounding of floating-point numbers is not modelled beyond the truncation to whole nanoseconds.
- Pagination.TokenRoundTrip: the time in a token is written as its number of seconds, not in RFC 3339; any text without the separator would do.
- Adaptive backoff of idle polls (`app.go:438-448`, `outbox/relayer.go:187-197`) and random jitter of waits: pure arithmetic without a property that spans operations.
- Outbox cleanup and the transport of events; the sender is a function from event and attempt to success.
- Whether recur restarts with its new input: the runner reads the stored input (`workflow.go:84-110`), so nothing is claimed about it.
