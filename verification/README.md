# go-again: a Dafny model of the scheduler, its storages and the retrier

This project models the two cores of go-again and proves what they promise over whole runs.

- **The scheduler** (`pkg/scheduler/scheduler.go`) is a step machine. Every job loop, execution, `Schedule`, `Remove` and
  `Stop` call has a program counter, and one action is one step of one of them (`SchedulerModel`). The sections that hold
  the scheduler's mutex are split at each storage call, because loops and executions reach the storage without that mutex.
  A step that would block (the semaphore, a wait group, the mutex) is not enabled. Context cancellation, elapsed timers,
  the end time and the order of Stop's map iteration are free choices of the steps, so a theorem about all runs is a
  theorem about all interleavings. `SchedulerCalls` says what each client call does, run alone and among other steps;
  `SchedulerRecords` says what the storage holds in terms of a run's steps.
- **The storages** are objects whose methods update their maps or tables in place, each proved equal to a function on the
  contents as a value (`MemoryStorage`, `SqliteStorage`). A SQLite transaction is one atomic change of three tables.
  `StorageRefinement` relates the two; `HistoryPruning` covers one-off pruning. `HistoryContents` says what both hold in
  terms of the writes alone: which results, under which limits and age rule, and with which times.
- **The retrier** (`retrier.go`) has its two loops as methods with loops, run against an oracle that gives the result of
  each call and the outcome of each select (`Retrier`), and both are proved against one closed form built from the final
  attempt. `TimerAllocation` is the shared timer pool as a resource allocator; `TimerPool` and `Registry` are the objects;
  `Backoff` is the schedule of waits; `Execution` is one HTTP execution on top of the retrier.
- **Both together** (`SharedRetriers`): a job brings a retrier or gets a new one, jobs may share one, and an execution
  records only after its call on the retrier has returned. `StopHangs`, `SharedTermination` and `HangWitness` say when Stop
  returns. Every state of the whole projects onto reachable states of its parts (`SharedRetriers.PartsReachable`), so the
  theorems about the scheduler alone hold in it.

The scheduler theorems are about the in-memory storage, fresh and used by one scheduler only, and writes that succeed.
The liveness results of `StopTermination` are about the scheduler alone and assume that every call on a retrier returns;
`SharedTermination` removes that assumption.

## Where the code and its documentation differ

- `Completed` is documented as natural completion, for example MaxRuns reached, and `Canceled` as cancellation before it
  (`pkg/scheduler/types.go:72-75`). Neither holds of every loop. One that notices its cancellation in the select
  (`pkg/scheduler/scheduler.go:540-542`) reports Completed even with runs left to make
  (`OutcomeWitness.CompletedWithoutCompletion`); if its last run was made, that report is right. One that notices it at its
  top (`pkg/scheduler/scheduler.go:522-526`) reports something else even when its last run is made, because the context is
  tested before the budget (`OutcomeWitness.CanceledAfterCompletion`). `SchedulerOutcomes.ReportedWronglyIff` says that
  these are the only two ways, and `SchedulerOutcomes.ReportedWronglyByRecord` says the same of the recorded runs. What each
  final state does mean is `SchedulerReasons.FinalStateReasons`.
- An id that is registered again keeps the terminal flag of its first registration, because `UpsertStatus` never clears
  it. Its state then never leaves Scheduled except to Removed (`SchedulerTheorems.StateMeaning`), also after Stop
  (`SchedulerReasons.StoppedStatesFinalIff`) and through recovery (`Recovery.LeftActiveIff`,
  `Recovery.ReRegisteredStaysScheduled`).
- `Validate` compares Interval * MaxRetries with Timeout and calls it the total time of all retries. The backed-off total
  can exceed the timeout (`RetryTheorems.ValidMayNotFit`); `Backoff.AlwaysFitsIff` is the exact condition.
- More than MaxRetries concurrent calls on one retrier can block each other for good in the timer pool
  (`TimerAllocation.FullBlockIff`, `TimerAllocation.BlockIsPermanent`), and with them Stop, which is documented to cancel
  all jobs and wait for completion (`pkg/scheduler/scheduler.go:206`). `HangWitness.StopCanHangIff` is the exact condition
  on the concurrency limit, the run budgets and the retries, and `StopHangs.BlockedRetrierHoldsStop` says that such a Stop
  never returns.

## Model

| member | source | states |
|---|---|---|
| `SchedulerTheorems.StopQuiescence` | pkg/scheduler/scheduler.go:207-233 | in every run, once a Stop call has returned, every later state has no live loop and no live execution, none was started since, and every status is terminal with no active run |
| `SchedulerTheorems.RestStays` | pkg/scheduler/scheduler.go:125-131 | a stopped scheduler whose wait group is zero can spawn nothing: no step adds a loop or an execution |
| `SchedulerTheorems.ReturnedSteps` | pkg/scheduler/scheduler.go:208-214 | a Stop call returns only with an empty wait group, and stays returned |
| `SchedulerTheorems.ZeroMeansGone` | pkg/scheduler/scheduler.go:173-232 | the wait group is never negative, and is zero exactly when every loop has exited and every execution is gone |
| `StopTermination.NoDeadlock` | pkg/scheduler/scheduler.go:495-594 | in every reachable state with a mutex holder or anything alive, the holder, a loop or an execution can step, provided that calls on retriers return: semaphore, mutex and wait groups never deadlock |
| `StopTermination.StopWaitEnds` | pkg/scheduler/scheduler.go:207-233 | while a Stop call waits, loops and executions take at most a fixed number of further steps whatever clients do, and, provided that calls on retriers return, one can step until the wait group is zero |
| `StopTermination.WorkDecreases` | pkg/scheduler/scheduler.go:521-545 | once all jobs are cancelled, every step of a loop or execution lowers the measure |
| `StopTermination.CallsKeepMeasure` | pkg/scheduler/scheduler.go:125-214 | after Stop's marking, client calls leave the measure alone |
| `StopTermination.AtMostOneMoreRun` | pkg/scheduler/scheduler.go:521-545 | after a job's context is cancelled its loop spawns at most one more execution, and only one that was already counted |
| `StopTermination.ExecCanStep` | pkg/scheduler/scheduler.go:578-672 | an execution whose call on its retrier returns is never blocked: recording, releasing its slot and signing off are always possible |
| `StopTermination.SlotCanMove` | pkg/scheduler/scheduler.go:578-581 | a loop waiting for a slot can take one, or another loop is about to use the slot it holds |
| `HangWitness.StopCanHangIff` | pkg/scheduler/scheduler.go:207-233 | with retriers of MaxRetries R, a reachable state has a Stop call waiting, something alive and nothing able to step exactly if R is at least one, there is no concurrency limit or it exceeds R, and there is no bound on the runs asked of a retrier (the total of its registrations' MaxRuns) or it exceeds R |
| `HangWitness.HangReachable` | retrier.go:477-480 | for every such limit, MaxRuns and R, one job with one retrier of its own leads to such a state |
| `StopHangs.StuckNeedsClog` | timer.go:37-47 | whenever something is alive and nothing can step, some retrier has all of its calls blocked, has a retry budget, and neither the limit nor the run budgets of its registrations keep its calls within it |
| `StopHangs.BlockedRetrierHoldsStop` | retrier.go:360-361 | once all calls on a retrier are blocked, the wait group never empties and no Stop call ever returns |
| `StopHangs.NoDeadlockUnlessBlocked` | pkg/scheduler/scheduler.go:596-604 | with the calls on retriers explicit, the mutex holder, a loop, an execution or a call can step unless such a retrier is blocked |
| `StopHangs.CallsHoldSlots` | pkg/scheduler/scheduler.go:578-594 | the calls under way on a retrier never outnumber the slots taken |
| `StopHangs.CallsWithinDemand` | pkg/scheduler/scheduler.go:528-530 | the calls under way on a retrier never outnumber the MaxRuns of its registrations added up, where all have one |
| `SharedTermination.StopWaitEndsOrBlocks` | pkg/scheduler/scheduler.go:207-233 | while a Stop call waits, loops, executions and calls take a bounded number of steps, and one is possible until the wait is over or such a retrier is blocked |
| `SharedTermination.StopWaitEndsOutright` | pkg/scheduler/scheduler.go:207-233 | if every retrier has no retries, or at least as many as the concurrency limit or as the MaxRuns of its registrations add up to, the wait ends outright |
| `SharedTermination.DrainStep` | retrier.go:366-398 | once all jobs are cancelled, every step of a loop, an execution or a call lowers one measure, and no client step raises it |
| `SharedRetriers.KeepsInv` | pkg/scheduler/scheduler.go:479-490 | every step keeps calls and executions paired: a call under way belongs to one started execution of a job with that retrier |
| `SharedRetriers.RegisterUses` | pkg/scheduler/scheduler.go:479-490 | a registration uses the retrier it brings, as it is when others use it too, or else a fresh one |
| `SharedRetriers.PartsReachable` | pkg/scheduler/scheduler.go:600-604 | the scheduler and the pools inside every reachable whole are reachable on their own |
| `SchedulerTheorems.RunConservation` | pkg/scheduler/scheduler.go:596-670 | for each id, ActiveRuns counts the executions started and not recorded, Runs those recorded, their sum is the number started, and the history is the last recorded results, numbered |
| `SchedulerRecords.HistoryIsResults` | pkg/scheduler/scheduler.go:656-670 | in every run, Runs counts the results that executions of the id recorded, the history is the last of them in order and numbered, as many as the limit, and LastRun is the last |
| `SchedulerRecords.StoredJobsAreRun` | pkg/scheduler/scheduler.go:142-171 | whenever the mutex is free the storage holds, for each registered id and no other, the very job its loop runs |
| `SchedulerTheorems.RecordAlwaysDecrements` | pkg/scheduler/storage.go:231-235 | recording a result always takes away exactly one active run; the guard never suppresses it |
| `SchedulerCalls.RemoveRemoves` | pkg/scheduler/scheduler.go:185-204 | from every reachable state with a free mutex the steps of a Remove of a registered id are possible one after the other, and at its end the id is in neither map, its status shows Removed and is closed, its loop is cancelled, and nothing else is touched |
| `SchedulerCalls.RemoveOfUnknown` | pkg/scheduler/scheduler.go:189-193 | a Remove of an id that is not registered changes nothing |
| `SchedulerCalls.RemoveStaysOnCourse` | pkg/scheduler/scheduler.go:185-204 | in every run, whatever interleaves, a Remove of a registered id keeps the mutex until it has removed the id |
| `SchedulerTheorems.RemoveWinsEveryRace` | pkg/scheduler/scheduler.go:195-204 | once a Remove has marked the status, its last step before it returns true, the state is Removed until the id is registered again, whatever interleaves |
| `SchedulerCalls.ScheduleRegisters` | pkg/scheduler/scheduler.go:125-182 | from every reachable state with a free mutex, unless the scheduler has stopped or the id is registered, the steps of Schedule are possible, and at its end the job is registered with an uncancelled loop of its own, stored, and shows Scheduled |
| `SchedulerCalls.ScheduleRefused` | pkg/scheduler/scheduler.go:125-145 | a Schedule after Stop or of a registered id changes nothing |
| `SchedulerCalls.StopStopsAll` | pkg/scheduler/scheduler.go:207-233 | from every reachable state with a free mutex the steps of the first Stop are possible, and at its end it waits, nothing is registered or stored, every registered loop is cancelled and every open registered status closed as Stopped, and other statuses are untouched |
| `SchedulerCalls.LaterStopWaits` | pkg/scheduler/scheduler.go:208-214 | a later Stop call only waits |
| `SchedulerTheorems.RemovedSticks` | pkg/scheduler/storage.go:146-247 | no single step other than a new registration changes a Removed status |
| `SchedulerTheorems.RegistrationAgreement` | pkg/scheduler/scheduler.go:142-229 | whenever the mutex is free, the job map and the storage hold the same ids |
| `SchedulerTheorems.SaveNeverFindsDuplicate` | pkg/scheduler/scheduler.go:142-153 | an id the scheduler does not know is never refused by the storage |
| `SchedulerTheorems.CleanupSparesReplacement` | pkg/scheduler/scheduler.go:548-559 | no step of an old loop unregisters or deletes a later registration of its id |
| `SchedulerTheorems.RunBudget` | pkg/scheduler/scheduler.go:521-538 | with MaxRuns set and the id used once, recorded runs never exceed MaxRuns |
| `SchedulerTheorems.NaturalEndIsComplete` | pkg/scheduler/scheduler.go:503-538 | a loop that ends uncancelled and without an end time finalizes with Runs = MaxRuns, no active run, and a history of the last min(MaxRuns, limit) results |
| `SchedulerTheorems.ConcurrencyLimit` | pkg/scheduler/scheduler.go:578-594 | tokens equal the slots held, at most the limit of executions are between spawn and release, and a release never blocks |
| `SchedulerTheorems.EverySlotReturned` | pkg/scheduler/scheduler.go:578-594 | with a limit, when everything has ended no slot is still taken |
| `SchedulerTheorems.StateMeaning` | pkg/scheduler/storage.go:122-247 | what the visible state means for an id registered once, and for an id registered again |
| `SchedulerTheorems.KeepsInv` | pkg/scheduler/scheduler.go:125-672 | every step keeps the whole invariant |
| `SchedulerInvariants.KeepsShape` | pkg/scheduler/scheduler.go:125-233 | every step keeps the job map, the mutex phases and the calls consistent; an unregistered running loop is cancelled |
| `SchedulerInvariants.EarlyFrame` | pkg/scheduler/scheduler.go:495-546 | a step of a loop before its clean-up changes its own loop only, spawns at most one execution, its own, and leaves calls, job map and stored jobs alone |
| `SchedulerRegistration.KeepsRegistration` | pkg/scheduler/scheduler.go:142-229 | every step keeps the stored ids equal to the registered ones up to the id in the mutex holder's hands |
| `SchedulerRegistration.LoopStepSparesOthers` | pkg/scheduler/scheduler.go:548-559 | a loop's step leaves the other registrations in place |
| `SchedulerCounters.KeepsCounters` | pkg/scheduler/scheduler.go:578-594 | every step keeps both kinds of wait group and the semaphore equal to what they count |
| `SchedulerInvariants.ExecStepMoves` | pkg/scheduler/scheduler.go:585-593 | an execution step advances one execution and moves only the matching counter |
| `SchedulerLedger.KeepsLedger` | pkg/scheduler/storage.go:182-247 | every step keeps the stored counters and histories an exact account of the executions |
| `SchedulerLedger.StoreAfter` | pkg/scheduler/scheduler.go:146-229 | each step makes at most one storage write, and which |
| `SchedulerLedger.RecordEntry` | pkg/scheduler/storage.go:203-247 | a record finds an active run and moves the counters, the log and the history together |
| `SchedulerLifecycle.KeepsLifecycle` | pkg/scheduler/storage.go:122-247 | every step keeps states legal, finished registrations terminal and open ones owned |
| `SchedulerLifecycle.UpsertFindsTerminal` | pkg/scheduler/storage.go:128-140 | a new registration of a known id always finds its terminal flag set |
| `SchedulerLifecycle.OwnedUntilTerminal` | pkg/scheduler/scheduler.go:189-229 | ownership of an open registration ends only with its terminal mark |
| `SchedulerBudget.KeepsBudget` | pkg/scheduler/scheduler.go:519-545 | every step keeps the run counter equal to the executions spawned plus a pending one, within MaxRuns |
| `SchedulerBudget.CancelledRunsFrozen` | pkg/scheduler/scheduler.go:522-526 | a cancelled loop counts no further run |
| `SchedulerOutcomes.ReportedWronglyIff` | pkg/scheduler/types.go:72-75 | for every loop past its ticking part, with a job complete when all its runs are made or its loop saw its end time pass: Completed is reported of an incomplete job exactly if the loop was cut short in the select with runs left, and a complete job is reported as something else exactly if the loop noticed its cancellation at its top with all runs made |
| `SchedulerOutcomes.ReportedWronglyByRecord` | pkg/scheduler/scheduler.go:521-542 | the same for an id registered once and without an end time, with the runs its status has recorded in place of those its loop counted |
| `SchedulerOutcomes.AllRunsRecorded` | pkg/scheduler/scheduler.go:503-506 | once the loop of an id registered once has waited for its executions, the status has recorded every run the loop counted |
| `SchedulerOutcomes.WaysOut` | pkg/scheduler/scheduler.go:501-546 | a loop leaves its ticking part once and in one of three ways: naturally, in the select, or asking for its context's state; only the last gives up the outcome Completed |
| `SchedulerOutcomes.CancelledInSelectShowsCompleted` | pkg/scheduler/scheduler.go:540-542 | from every reachable state with a cancelled loop in the select, its status open and its executions done, its own steps close the status as Completed |
| `OutcomeWitness.CompletedWithoutCompletion` | pkg/scheduler/scheduler.go:540-542 | a reachable state shows Completed with one of five runs recorded |
| `OutcomeWitness.CanceledAfterCompletion` | pkg/scheduler/scheduler.go:522-530 | a reachable state shows Canceled with the only run of a job recorded |
| `SchedulerReasons.FinalStateReasons` | pkg/scheduler/scheduler.go:837-859 | in every run, Removed needs a Remove of that id and no registration since, Stopped a Stop that found the status open or a loop of that id ended after Stop, Canceled a cancelled loop of that id that read the scheduler as not stopped, and Completed a loop of that id that left naturally or in the select |
| `SchedulerReasons.OutcomeIsSettled` | pkg/scheduler/scheduler.go:844-859 | a loop with an outcome other than Completed asked about its context, and settled on Removed exactly if its id was removed and not registered since at that step |
| `SchedulerReasons.RemovedIff` | pkg/scheduler/scheduler.go:185-204 | a status shows Removed exactly if a Remove marked it and the id was not registered since |
| `SchedulerReasons.RegistrationsCount` | pkg/scheduler/storage.go:122-143 | an id has a status from its first registration on, and counts as reused from the second on |
| `SchedulerReasons.StoppedStatesFinalIff` | pkg/scheduler/scheduler.go:219-227 | after Stop returned, a status shows a final state exactly if its id was registered at most once, or removed and not registered since |
| `SchedulerReasons.RegisteredShows` | pkg/scheduler/storage.go:122-179 | while an id is registered for the second time or later its status shows Scheduled with the terminal flag set |
| `SchedulerReasons.KeepsReasons` | pkg/scheduler/scheduler.go:501-546 | every step keeps these reasons: a loop asks for its context's state only when cancelled, and reports Stopped only after Stop |
| `SchedulerReasons.StateAfter` | pkg/scheduler/storage.go:122-247 | no step but a Remove's mark, a Stop's mark or a loop's finalization of an open status makes a status show a new final state |
| `MemoryStorage.RunKeepsStoreOk` | pkg/scheduler/storage.go:61-247 | after any writes with any limits every history is contiguous and ends at Runs, counters agree, and LastRun is the last row |
| `MemoryStorage.RecordKeepsEntryOk` | pkg/scheduler/storage.go:212-236 | recording keeps the history contiguous for every limit |
| `MemoryStorage.InMemoryJobsStorage.Save` | pkg/scheduler/storage.go:61-72 | adds the job, or refuses a known id and changes nothing |
| `MemoryStorage.InMemoryJobsStorage.Delete` | pkg/scheduler/storage.go:75-86 | removes the job and says whether there was one |
| `MemoryStorage.InMemoryJobsStorage.UpsertStatus` | pkg/scheduler/storage.go:122-143 | the in-place update equals the specified change of one entry |
| `MemoryStorage.InMemoryJobsStorage.MarkRemoved` | pkg/scheduler/storage.go:146-161 | closes a known entry as Removed, whatever its flag |
| `MemoryStorage.InMemoryJobsStorage.MarkTerminal` | pkg/scheduler/storage.go:164-179 | closes an open entry and leaves a closed one alone |
| `MemoryStorage.InMemoryJobsStorage.MarkExecutionStart` | pkg/scheduler/storage.go:182-200 | counts an active run; the state follows only while open |
| `MemoryStorage.InMemoryJobsStorage.RecordExecutionResult` | pkg/scheduler/storage.go:203-247 | appends, trims and updates the counters as specified |
| `MemoryStorage.InMemoryJobsStorage.Status` | pkg/scheduler/storage.go:263-273 | the snapshot of a known id |
| `MemoryStorage.InMemoryJobsStorage.History` | pkg/scheduler/storage.go:293-308 | the copying loop returns exactly the retained rows |
| `SqliteStorage.SQLiteJobsStorage.Save` | pkg/scheduler/storage_sqlite.go:179-203 | inserts the job row, or refuses a duplicate key |
| `SqliteStorage.SQLiteJobsStorage.Delete` | pkg/scheduler/storage_sqlite.go:206-221 | deletes the job row and says whether one was affected |
| `SqliteStorage.SQLiteJobsStorage.UpsertStatus` | pkg/scheduler/storage_sqlite.go:287-313 | a known row changes its state and time only, its terminal flag, active runs and sequence carried through load and save; an unknown id gets a fresh row |
| `SqliteStorage.SQLiteJobsStorage.MarkRemoved` | pkg/scheduler/storage_sqlite.go:316-337 | a known row, terminal or not, becomes Removed and terminal; an unknown id writes nothing |
| `SqliteStorage.SQLiteJobsStorage.MarkTerminal` | pkg/scheduler/storage_sqlite.go:340-361 | an open row takes the state and the terminal flag; a terminal row or an unknown id is left alone |
| `SqliteStorage.SQLiteJobsStorage.MarkExecutionStart` | pkg/scheduler/storage_sqlite.go:364-388 | the active runs of a known row go up by one; its state becomes Running only while it is not terminal |
| `SqliteStorage.SQLiteJobsStorage.RecordExecutionResult` | pkg/scheduler/storage_sqlite.go:391-435 | insert, trim by sequence, prune by age and count, all or nothing |
| `SqliteStorage.SQLiteJobsStorage.Status` | pkg/scheduler/storage_sqlite.go:448-457 | the snapshot rebuilt from the row |
| `SqliteStorage.SQLiteJobsStorage.History` | pkg/scheduler/storage_sqlite.go:509-562 | the cursor loop returns the job's rows in ascending sequence order, and an empty list only for a known id |
| `SqliteStorage.SQLiteJobsStorage.PruneHistoryWithRetention` | pkg/scheduler/storage_sqlite.go:570-608 | prunes as specified, touches no job or status row, and returns the exact drop in row count |
| `StorageRefinement.SqliteWithoutRetentionIsMemory` | pkg/scheduler/storage_sqlite.go:179-562 | without retention, after any writes, every read and the next write are answered as by the in-memory storage |
| `StorageRefinement.SqliteRefinesMemory` | pkg/scheduler/storage_sqlite.go:942-952 | with a row cap, the same against the in-memory storage run with the capped limits |
| `HistoryContents.MemoryHistoryIs` | pkg/scheduler/storage.go:203-247 | in memory, with one limit for a job's results: Runs is their number and the history exactly the last of them, numbered, as many as the limit, or 20 without one |
| `HistoryContents.SqliteHistoryIs` | pkg/scheduler/storage_sqlite.go:391-435 | in SQLite without an age rule: the history is exactly the last of the results, as many as the smaller of the limit and the row cap |
| `HistoryContents.SqliteHistoryWithAgeIs` | pkg/scheduler/storage_sqlite.go:409-429 | with an age rule and a clock that does not go back within a job: of those, in order, exactly the ones without a finish time between zero and the cutoff, which is the last result's time less MaxAge |
| `HistoryContents.AgeFilterByPayload` | pkg/scheduler/storage_sqlite.go:954-960 | whatever the limits: a run is in the SQLite history exactly if it is in the row-limited in-memory one and its payload did not finish, at a positive time, before the cutoff |
| `HistoryContents.SqliteHistoryNeverExceeds` | pkg/scheduler/storage_sqlite.go:942-952 | after any writes, with any rules and clocks, a read returns at most as many rows as the row cap and as the limit asked with the last result, or 20 |
| `HistoryContents.RowsNeverExceed` | pkg/scheduler/storage_sqlite.go:875-892 | the same for the table, after any mix of writes and prunes |
| `HistoryContents.StatusTimes` | pkg/scheduler/storage.go:122-247 | a status keeps the creation time of its first registration, carries the time of its last change, and has its terminal flag set exactly if it was ever closed |
| `HistoryContents.SqliteStatusTimes` | pkg/scheduler/storage_sqlite.go:287-435 | so it is in SQLite |
| `StorageRefinement.AgeRetentionIsExactFilter` | pkg/scheduler/storage_sqlite.go:409-429 | with an age rule and a clock that does not go back within a job, after any writes the history of each job is its row-limited in-memory history without the rows that the cutoff of its own last result expires, within that result's effective limit |
| `StorageRefinement.SimStep` | pkg/scheduler/storage_sqlite.go:391-435 | every write keeps the simulation, with each job's rows exact for its own latest cutoff, and is answered alike |
| `StorageRefinement.RecordRows` | pkg/scheduler/storage_sqlite.go:875-906 | insertion, sequence trimming and age pruning keep the rows of a job related to its retained runs, gaps included |
| `StorageRefinement.RecordTableAt` | pkg/scheduler/storage_sqlite.go:852-906 | which keys a record leaves in the table, and with which rows |
| `StorageRefinement.RecordWindowAt` | pkg/scheduler/storage.go:216-225 | which sequences the in-memory history retains after a record |
| `StorageRefinement.RowsListUnexpired` | pkg/scheduler/storage_sqlite.go:509-550 | the ordered read lists exactly the unexpired retained runs |
| `StorageRefinement.TouchSame` | pkg/scheduler/storage_sqlite.go:714-748 | a status write changes the entry and its row, through the JSON conversions, alike |
| `HistoryPruning.PruneKeepsHighestSurvivors` | pkg/scheduler/storage_sqlite.go:908-940 | per job, pruning keeps exactly the highest-sequence rows among the age survivors, as many as allowed, unchanged |
| `HistoryContents.PruneByPayload` | pkg/scheduler/storage_sqlite.go:908-960 | on every table that writes and prunes lead to, the age rule spares exactly the rows whose payload has no finish time between zero and the cutoff, and pruning keeps the highest sequences among them, as many as allowed, unchanged |
| `HistoryPruning.PruneTwiceIsOnce` | pkg/scheduler/storage_sqlite.go:570-608 | pruning again with the same cutoff deletes nothing |
| `HistoryPruning.InsertsNeverCollide` | pkg/scheduler/storage_sqlite.go:409-415 | after any mix of writes and prunes, recording never violates the history key |
| `HistoryPruning.SequenceCountsRecords` | pkg/scheduler/storage_sqlite.go:410-415 | after any mix of writes and prunes, last_sequence counts the results ever recorded |
| `OrderedRows.TopNSize` | pkg/scheduler/storage_sqlite.go:924-932 | descending row numbers up to n keep exactly n rows, or all when there are fewer |
| `OrderedRows.AscendingUnique` | pkg/scheduler/storage_sqlite.go:510-515 | a set of sequences has one ascending enumeration |
| `HistoryQuery.QueryJobHistory` | pkg/scheduler/scheduler.go:304-325 | the filtering loop and the tail limit select as specified; unknown ids are reported |
| `HistoryQuery.QueryClosedForm` | pkg/scheduler/scheduler.go:310-324 | on a contiguous history the result is exactly the sequences from the highest of the three lower bounds up to Runs, ascending |
| `HistoryQuery.QueryReturns` | pkg/scheduler/scheduler.go:304-325 | after any writes a query returns a retained run exactly if its sequence is at least FromSequence and above Runs - Limit, each filter applying when positive |
| `HistoryQuery.QueryAfterAnyRun` | pkg/scheduler/storage.go:216-229 | the closed form holds after any storage writes |
| `Recovery.ReconcileRecoveredState` | pkg/scheduler/scheduler.go:353-371 | the loop empties the stored jobs, closes the active ones as Canceled and touches no other status |
| `Recovery.LeftActiveIff` | pkg/scheduler/scheduler.go:353-371 | for every state of every run, inside a call or not, a job recovered from it keeps an active state exactly if its id had been registered before and was not removed since its last registration |
| `Recovery.RecoveredAs` | pkg/scheduler/scheduler.go:353-371 | a status that showed a final state or whose id had been registered before stays as it is; any other is closed as Canceled with its runs and history |
| `Recovery.LeftActiveWhenFree` | pkg/scheduler/scheduler.go:353-371 | with the mutex free, every stored job keeps an active state exactly if its id had been registered before |
| `Recovery.ReRegisteredStaysScheduled` | pkg/scheduler/storage.go:122-143 | such a job exists: removed once and registered again |
| `TimerAllocation.TimersPartition` | timer.go:14-65 | pooled and held timers are always the initial MaxRetries + 1, each once, and a timer put back always finds room |
| `TimerAllocation.BlockNeedsManyCalls` | retrier.go:477-480 | if all live calls are blocked then MaxRetries is at least one and there are more than MaxRetries of them |
| `TimerAllocation.FullBlockIff` | retrier.go:240-241 | n live calls can all be blocked in some reachable state exactly if MaxRetries >= 1 and n > MaxRetries |
| `TimerAllocation.BlockIsPermanent` | timer.go:37-47 | from a full block only arrivals are possible, and they join it |
| `TimerAllocation.CallEnds` | retrier.go:482-493 | a call that concludes or whose wait is cut short gives back what it holds and is done; giving back never blocks |
| `TimerAllocation.AttemptsReachable` | retrier.go:246-292 | with retries to make, a call alone gets through to each of its MaxRetries + 1 attempts |
| `TimerPool.TimerPool.constructor` | timer.go:14-34 | the filling loop leaves exactly `size` distinct, stopped, drained timers |
| `TimerPool.TimerPool.Get` | timer.go:37-47 | hands out the oldest timer, reset to the pool's duration |
| `TimerPool.TimerPool.Put` | timer.go:50-65 | takes a timer back stopped and drained, or drops it when full; no pooled timer can wake its next user early |
| `Registry.Registry.RegisterTemporaryErrors` | registry.go:41-46 | appends the errors |
| `Registry.Registry.UnRegisterTemporaryErrors` | registry.go:54-67 | the nested loops remove, per target, the first entry that matches it |
| `Registry.RemoveEachTakes` | registry.go:58-66 | for several targets: at most one entry per target goes, each matching one of them, none is added, and of the entries that match a target as many fewer are left as the target is given, down to none |
| `Registry.Registry.IsTemporaryError` | registry.go:97-113 | true exactly if the error has a listed error in its chain |
| `ErrorChains.IsIffInChain` | registry.go:106-110 | an error matches a target exactly if the target is the error or anything it wraps, at any depth |
| `Retrier.Retrier.Do` | retrier.go:213-299 | whatever the pooled object held, the error trace, the calls, the notifications and the waits are the expected ones; invalid configurations and nil functions make no call |
| `Retrier.Retrier.DoWithContext` | retrier.go:333-399 | the same for the loop whose attempts can be interrupted |
| `Retrier.Retrier.HandleAttemptError` | retrier.go:495-540 | records the failure and decides between stopping, giving up and going on |
| `Retrier.Retrier.RunAttemptWithContext` | retrier.go:542-572 | the attempt's result, or the error of what interrupted it |
| `Retrier.Retrier.WaitRetry` | retrier.go:468-493 | the scheduled wait and the error of an interrupted one |
| `Retrier.Retrier.CheckRetry` | retrier.go:456-466 | an explicit list decides alone; without one the registry does, and an empty registry retries everything |
| `Retrier.FinalAttempt` | retrier.go:246-292 | the first attempt that is not followed by another; every earlier one failed retryably with its wait elapsed |
| `RetryTheorems.RetryTraceExact` | retrier.go:246-298 | at most MaxRetries + 1 calls, Attempts is this call's failures in order plus at most one, OnRetry sees 0, 1, 2, ..., Last is nil exactly if the final call succeeded |
| `RetryTheorems.FinalAttemptDecides` | retrier.go:246-292 | the final call is the first that is not a retryable failure with budget left and its wait run out; if it failed, Last is its failure unless the wait after it was cut short, and OnRetry and a wait follow it exactly in that case |
| `RetryTheorems.ScheduledWaitIs` | retrier.go:468-474 | the k-th wait is the interval times the k-th power of the factor, truncated, plus its own jitter |
| `RetryTheorems.ListDecidesAlone` | retrier.go:456-466 | with an explicit list only its entries make a failure retryable, without one only the registry's, and with neither every failure is |
| `RetryTheorems.WrapperIffExhausted` | retrier.go:270-298 | the extra entry is there exactly if every allowed attempt failed retryably, and wraps the last failure |
| `RetryTheorems.RunBoth` | retrier.go:366-398 | `Do` and `DoWithContext`, run by a valid retrier on the same results and waits without an interruption, leave the same trace, whatever their pooled objects held |
| `RetryTheorems.LoopsAgree` | retrier.go:246-298 | the expected trace depends on nothing past the final attempt |
| `RetryTheorems.InterruptionKeepsPrefix` | retrier.go:366-376 | an interruption during attempt k leaves the k failures before it and its cause, with the label of what interrupted; a timeout names the attempt |
| `RetryTheorems.CutWaitKeepsPrefix` | retrier.go:482-493 | a wait cut short after attempt k leaves k + 1 failures and its cause, with the label of what interrupted; a timeout names the attempt and its failure |
| `RetryTheorems.ScheduledWaitsBound` | retrier.go:468-480 | the waits of one call obey the geometric bound |
| `RetryTheorems.ValidIff` | retrier.go:146-182 | which configurations are valid; every refusal is an invalid-retrier error |
| `Backoff.BackoffSumBound` | retrier.go:468-474 | k waits total more than the geometric sum minus k, less than it plus k*Jitter, and at least k*Interval |
| `Backoff.BaseDelayGrows` | retrier.go:470-471 | base delays are at least the interval and never decrease |
| `Backoff.AlwaysFitsIff` | retrier.go:141-175 | the scheduled waits fit the timeout for every jitter exactly if the backed-off total plus the largest jitter does |
| `RetryTheorems.ValidMayNotFit` | retrier.go:146-182 | a configuration that passes every test of Validate and whose waits can exceed its timeout |
| `Execution.RetriedIffMatched` | pkg/scheduler/scheduler.go:768-784 | a failure is retried exactly if every filter source is empty or one matches it |
| `Execution.ListedStatusIsRetried` | pkg/scheduler/scheduler.go:649-651 | a listed failure status is retried while budget remains and nothing interrupts |
| `Execution.UnlistedStatusIsFinal` | pkg/scheduler/scheduler.go:653-653 | an unlisted failure status is final if there is a filter and none of it matches |
| `Execution.NoFilterRetriesAll` | retrier.go:457-460 | with every filter empty every failure is retried |
| `Execution.SuccessfulTrace` | pkg/scheduler/scheduler.go:643-647 | a trace without a last error ends in a success response after retryable failures only |
| `Execution.Execute` | pkg/scheduler/scheduler.go:596-668 | whatever the outcome, the report carries the attempts that counted themselves, the status of the latest of them that was answered, or 0, and the trace's last error; a report of success carries a 2xx status (section 15.3 of RFC 9110) and one attempt more than its retryable failures; an invalid retrier reports no attempt |
| `Execution.AttemptErrorMeans` | pkg/scheduler/scheduler.go:645-654 | an attempt fails exactly without a 2xx response; a failed request keeps its cause, a listed status carries the retry mark, any other its bare status |

## Left out

- HTTP requests, callbacks, headers and bodies: an attempt is an oracle's answer; the callback is the time between recording and releasing the slot.
- URL validation, job normalization and id generation: a job enters the model normalized, with its id.
- Real time: start, end and tick times are free choices of the steps; storage clocks are parameters.
- Retriers that callers also use outside the scheduler, and several schedulers on one retrier: all calls on a retrier are executions of one scheduler.
- Storage writes that fail in the scheduler's runs, storages shared with others, and the SQLite storage under the scheduler's machine.
- SQL text, the driver, JSON encoding and bootstrap: tables are maps, transactions atomic, encoding lossless.
- The order of listings by id (`IDs`, `Statuses`) and the pagination of `QueryJobStatuses`.
- Attempt goroutines abandoned after an interruption: they are outside the scheduler's wait group.
- Integer overflow and float64 rounding: the interval product is exact, and backoff uses exact reals with truncation.
- `errors.Join` trees and pointer identity of errors: an error is a chain, and equal values are the same error.
- Closing and draining the timer pool, the once-guards, `SetRegistry`, logging and the option setters.
- StopTermination.NoDeadlock: assumes that every call on a retrier returns; StopHangs.NoDeadlockUnlessBlocked is the form without that assumption.
- StopTermination.StopWaitEnds: assumes that every call on a retrier returns; SharedTermination.StopWaitEndsOrBlocks is the form without that assumption.
- StopTermination.ExecCanStep: assumes that the execution's call on its retrier returns; in SharedRetriers the call takes its own steps.
- TimerPool.TimerPool.Get: requires a pooled timer, because with none the call blocks; blocking itself is in TimerAllocation.
- MemoryStorage.InMemoryJobsStorage.Save: the entry pointers of the status map are modelled as map values, so aliasing of entries is not captured.
