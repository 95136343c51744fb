# Proofs about EventicleJS

EventicleJS is an event-sourcing and saga framework over a document store.  Most of what it promises is promised
by several small pieces of asynchronous code together: a saga instance is never worked on by two tasks at once, no
update of its record is lost, no timer outlives it, every committed event is sent, a replay ends with everything
read.  This project models those pieces and proves what every run of them keeps.

Where tasks interleave, each `await` is a point at which something else may happen: the state is a datatype, every
uninterrupted turn is a label, `Step` gives its effect, and an invariant is shown inductive over all runs
(`ValidRun`, `After`).  Beside the machines stand classes with the fields of the source's classes; each of their
methods is one uninterrupted turn (or one whole call, where nothing can interfere) and its contract equates the new
state with a step of the machine, or states outright what the call promises.  User handlers, reducers and
predicates are function parameters.

| module | what it is about |
|---|---|
| `SagaScheduler` | the promise chain per saga instance; its refinement of one FIFO queue per instance |
| `SagaEngine`, `SagaHistory` | chains, task bodies, start steps, stored records and schedules together; no lost update |
| `SagaTimers`, `SagaArmed`, `SagaStartRace`, `SagaEnded` | timer agreement in both directions and the end of an instance, exactly when they hold, and when an ended instance is called |
| `SagaCalls` | what a handler's calls mean for record, timers and schedules |
| `SagaHandlers`, `SagaDispatch` | the statements of one task on real objects; dispatch of an event, hot and cold lanes |
| `LocalRunner` | the single-node timer runner: records, handles and concatenated keys |
| `JsonQuery`, `JsonPreorder` | partial comparison, and exactly when it is transitive |
| `FilterTable`, `FilterClauses`, `InMemStore` | the filter loop, what each clause keeps, sorting, paging, the tables |
| `StreamSubscriptions` | the in-process log and its cursor subscriptions |
| `RedisReplay`, `KafkaReplay`, `KafkaSignals`, `Decimals` | the cold replay loops, when they stop and how often they signal |
| `ThrottledProducers`, `Outbox` | batching with retries; the outbox as a transaction protocol |
| `Aggregates`, `AggregateWriters`, `AggregateObjects` | persisting and replaying event-sourced aggregates, with one writer and with many |

## What the proofs found

- The step that starts an instance is not queued in the scheduler.  If the start handler calls `endSaga()` without
  preserving the data, a task that has already read the record can overtake the deletion: a handler then runs for a
  deleted instance and a timer can be left armed for good.  Timer agreement and "no handler after deletion" hold in
  all runs exactly when no start handler does that (`SagaStartRace`).
- The comment at `src/events/saga/index.ts:208-210` says an ended saga gets no further events.  The instance query
  does not test `ended` (`src/events/saga/handlers.ts:69-77`).  The code is modelled: an ended instance at rest is
  called again exactly when its record is preserved (`SagaEnded`).
- A tick that meets a busy subscription returns from inside the `try` whose `finally` resets `processing`
  (`src/events/core/eventclient-datastore.ts:63-82`), so the tick after it begins a second loop and two handlers of
  one subscription overlap.  Order and delivery at most once survive.  Handlers stay apart exactly when no loop is
  met by a second tick with an item left (`StreamSubscriptions.OneHandlerExactlyWhen`).
- The outbox sender resets `isFlushing` before its removal commits, so a second flush can overlap and send a batch
  again without any failure.  Without failures each entry is sent once exactly when no flush reads a row that another
  open flush still holds.  After "unknown producer" its own retry finds `isFlushing` still set and does nothing.
- Each retry of the batching producer also slices records off the queue; they are neither sent nor rejected.
  Nothing is lost exactly when every retry begins with an empty queue.
- The Redis stop test compares ids as strings and with `>=`: it can end a replay with entries unread.
- The Kafka replay calls `onDone` once for each message that settles with the catch-up test true.  At most one call is
  certain exactly when a watermark is never reached or no message follows the one that reaches it
  (`KafkaSignals.AtMostOneCallExactlyWhen`).  Its shortcut for an empty topic compares two counts and is right for all
  watermarks exactly when the offsets name as many partitions as the metadata.
- `persist` empties `newEvents` before it asks the store, so a failing step loses the batch: a sole writer loses
  nothing exactly when no persist with events fails.  Its lock ends before its transaction; one record per key holds
  in all runs exactly when the store shows writes at once (`Aggregates.OneRowExactlyWhen`).
- The timer runner's keys are plain concatenations; arming one schedule can disarm another.
- Partial matching is reflexive, but not transitive for patterns that an array could match by its indices or its
  `length`; `JsonPreorder` gives the exact condition.  OBJECT and LIKE clauses overwrite the verdict of the clauses
  before them.
- GT, GTE, LT and LTE drop a row only if it compares the other way, so a row without the property is found by all of
  them; BETWEEN does not find it.

## Model

| member | source | states |
|---|---|---|
| SagaScheduler.SerialExecution | src/events/saga/saga-scheduler.ts:122-135 | in every reachable state at most one task of an instance runs, and none has started or been skipped before every earlier one of its instance has finished and been cleaned up |
| SagaScheduler.QueueMapIsLiveKeys | src/events/saga/saga-scheduler.ts:127-133 | the map holds exactly the instances that still have a chain whose `finally` has not run, so it is empty once every chain has settled |
| SagaScheduler.PeriodIsContiguous | src/events/saga/saga-scheduler.ts:122-131 | a busy period is all the tasks of the instance since the last cleanup, in enqueue order, with everything before it over |
| SagaScheduler.BusyPeriod | src/events/saga/saga-scheduler.ts:125-131 | the tasks that run in a busy period are a prefix up to and including the first failure; all later ones are rejected with that failure's error without running |
| SagaScheduler.NextPeriodStartsClean | src/events/saga/saga-scheduler.ts:122-134 | after a cleanup the next task may start whatever the last period ended with |
| SagaScheduler.KeysAreIndependent | src/events/saga/saga-scheduler.ts:122-135 | steps of different instances commute: in either order both stay possible and end in the same state |
| SagaScheduler.EnabledElsewhere | src/events/saga/saga-scheduler.ts:122-135 | a step of one instance, enqueueing included, neither enables nor disables a step of another |
| SagaScheduler.EnqueueIsIndependent | src/events/saga/saga-scheduler.ts:122-135 | enqueueing for one instance commutes with every step of another |
| SagaScheduler.KeyCanMove | src/events/saga/saga-scheduler.ts:122-135 | an instance with an unsettled chain always has a step of its own to take: it never waits on another instance |
| SagaScheduler.RefinesFifo | src/events/saga/saga-scheduler.ts:111-136 | every step of the linked promises and the tail map is one step of the instance's FIFO queue and leaves all other queues alone |
| SagaScheduler.RunRefinesFifo | src/events/saga/saga-scheduler.ts:111-136 | over every run the queue accepts each step and ends in the state the promises stand for |
| SagaScheduler.InvStep | src/events/saga/saga-scheduler.ts:122-135 | every step keeps the chain invariant: seriality, contiguous predecessors, live tails, why each task ran or did not |
| SagaScheduler.DefaultSagaScheduler.Enqueue | src/events/saga/saga-scheduler.ts:122-134 | the task goes to the end of its instance's queue |
| SagaScheduler.DefaultSagaScheduler.Then | src/events/saga/saga-scheduler.ts:123-125 | the task starts exactly if the predecessor resolved, otherwise the rejection passes on, and nothing earlier of the instance is still live |
| SagaScheduler.DefaultSagaScheduler.TaskDone | src/events/saga/saga-scheduler.ts:125-127 | the task's own promise settles with its outcome |
| SagaScheduler.DefaultSagaScheduler.Finally | src/events/saga/saga-scheduler.ts:127-131 | the map entry survives exactly if a later task of the instance was enqueued |
| SagaScheduler.DefaultSagaScheduler.ChainSettles | src/events/saga/saga-scheduler.ts:125-134 | the promise that `enqueue` returned settles |
| SagaEngine.InvStep | src/events/saga/handlers.ts:29-62 | every step of tasks, starts and timers keeps: a record is its start content folded through the tasks that have written it, and a task at work holds exactly that content |
| SagaEngine.OneBody | src/events/saga/saga-scheduler.ts:114-120 | two task bodies of one instance are never in progress together |
| SagaEngine.AddTimers | src/events/saga/handlers.ts:171-175 | after the adds exactly the old and the added names are active, and an old name keeps its kind |
| SagaEngine.RemoveTimers | src/events/saga/handlers.ts:180-182 | after the removes exactly the names not removed are active |
| SagaHistory.NoLostUpdate | src/events/saga/handlers.ts:29-62 | under any interleaving a stored record has grown from what its start handler returned through the tasks that succeeded, in enqueue order: each handler was given what the one before had left, and all it returned, data included, is in what it left; the `events` are the start event and theirs; a failed or skipped task left no trace |
| SagaHistory.LastWriterWins | src/events/saga/handlers.ts:34-38 | the data stored is the data returned by the handler of the last task that has written the record, or by the start handler if none has |
| SagaHistory.HandlerSeesRecord | src/events/saga/handlers.ts:42-53 | in every run a handler is given the record as it is stored at that moment |
| SagaHistory.RejectedLeavesNoTrace | src/events/saga/handlers.ts:29-40 | a task whose promise rejected has not written the record |
| SagaHistory.ResolvedWasApplied | src/events/saga/handlers.ts:138-168 | a task whose promise resolved has written the record, unless it is a timer task that found none |
| SagaHistory.FoldEvents | src/events/saga/handlers.ts:48-51 | the fold appends exactly the handled events, in order; timer tasks append none |
| SagaTimers.TimerAgreement | src/events/saga/handlers.ts:170-198 | in every run whose start handlers keep their instance, each schedule held for an instance between steps is an active timer of its stored, not ended record; so an ended instance holds none, preserved or not |
| SagaArmed.HeldExactlyWhen | src/events/saga/handlers.ts:170-198 | in every run whose start handlers keep their instance, a schedule that has not expired is held for an instance between steps if and only if it is an active timer of its stored, not ended record: none is left over and none is lost |
| SagaArmed.ArmedStep | src/events/saga/handlers.ts:20-40 | every step but the expiry of the schedule itself keeps: whoever holds the record will have armed its active timers |
| SagaTimers.NoHandlerAfterDeletion | src/events/saga/handlers.ts:20-62 | once an instance is deleted no event or timer handler runs for it again, queued tasks included, and its record does not return |
| SagaTimers.TStep | src/events/saga/handlers.ts:20-40 | every step keeps: a schedule is known to the task at work, to the start step, or to the stored record at rest |
| SagaTimers.OpsCoverOld | src/events/saga/handlers.ts:170-184 | a timer dropped from the record is among the calls still to be made to the runner |
| SagaStartRace.TimersAgreeExactlyWhen | src/events/saga/handlers.ts:116-122 | for every start result: timers agree in all runs if and only if the start handler does not end the saga without preserving it |
| SagaStartRace.NoLateCallExactlyWhen | src/events/saga/handlers.ts:116-122 | for every start result: no handler is ever invoked for a deleted instance if and only if the same condition holds |
| SagaStartRace.LateTimerIsOrphaned | src/events/saga/handlers.ts:116-122 | otherwise a run exists that leaves a schedule armed for a deleted instance with nothing in progress |
| SagaEnded.EndedIsCalledExactlyWhen | src/events/saga/handlers.ts:69-84 | for every instance that is not being worked on, and is ended or gone: a handler can be called for it in some continuation if and only if its record is stored and preserved |
| SagaEnded.EndedIsPreserved | src/events/saga/handlers.ts:20-27 | an ended record with nothing queued or in progress for it is a preserved one |
| SagaEnded.NextTaskIsHandled | src/events/saga/handlers.ts:42-62 | the next event or timer of a stored instance at rest reaches its handler, whether it is ended or not |
| SagaEnded.PreservedInstance | src/events/saga/index.ts:208-226 | every start handler that ends its saga and preserves it can leave such an instance at rest, and every event that arrives then is handled |
| SagaCalls.RunnerAfter | src/events/saga/handlers.ts:153-184 | after a step the runner holds exactly the added and the old schedules, less the one that fired and less the removed ones |
| SagaCalls.RemoveWins | src/events/saga/handlers.ts:170-184 | a timer both upserted and removed is gone, in whatever order the handler made the calls |
| SagaCalls.KindIsKept | src/events/saga/handlers.ts:173-175 | upserting an active timer leaves its stored kind as it was |
| SagaCalls.CallsTold | src/events/saga/index.ts:145-226 | the record a task leaves, in terms of the handler's calls alone: the value last set for each key and the old one for keys never set, the handled event appended, ended and preserved as last asked, active the timers upserted or kept and not removed, with the kind they first had |
| SagaCalls.HandlerLeaves | src/events/saga/handlers.ts:29-40 | all of what a handler returned, and nothing else, goes into the record: its data, its event, its timers, its end |
| SagaCalls.StartStarts | src/events/saga/handlers.ts:93-136 | the same for the record that a start handler makes |
| SagaCalls.AloneTold | src/events/saga/handlers.ts:42-62 | record, schedules and outcome of a task that nobody interferes with, in terms of the calls alone; without a record or with `set("id", ...)` nothing changes |
| SagaHandlers.SagaInstance.Invoke | src/events/saga/index.ts:145-226 | a handler's calls are collected, not carried out; setting "id" throws |
| SagaHandlers.ProcessTimersInSagaInstance | src/events/saga/handlers.ts:170-184 | stored timers and runner after all adds and then all removes |
| SagaHandlers.RemoveAllTimersForInstance | src/events/saga/handlers.ts:186-198 | every active timer of a stored instance leaves the runner |
| SagaHandlers.HandleSagaInstanceEnd | src/events/saga/handlers.ts:20-27 | an ended instance loses its timers, and its record unless it is preserved |
| SagaHandlers.PersistStep | src/events/saga/handlers.ts:29-40 | record, active timers and runner after the executor has returned |
| SagaHandlers.SagaHandleEvent | src/events/saga/handlers.ts:42-62 | the store, the runner and the task's outcome after an event task nobody interferes with, in terms of the handler's calls: every value last set is stored, every other key keeps its value |
| SagaHandlers.HandleTimerEvent | src/events/saga/handlers.ts:138-168 | the same for a timer task; a one-shot timer that fired is forgotten first, a cron stays |
| SagaHandlers.DropFired | src/events/saga/handlers.ts:156-159 | a fired one-shot timer leaves the record and the runner; a cron stays |
| SagaHandlers.BodyAlone | src/events/saga/handlers.ts:29-62 | what those methods compute is a run of the engine in which only that task moves |
| SagaDispatch.LaneKeepsOrder | src/events/saga/index.ts:554-586 | a lane dispatches exactly its own events, in log order; the cold lane's are those for which the predicate said no or threw |
| SagaDispatch.LanesPartition | src/events/saga/index.ts:539-586 | every event is dispatched exactly once over the two lanes if and only if the two evaluations of the predicate agree on being hot |
| SagaDispatch.RunLane | src/events/saga/index.ts:554-586 | the subscription's loop dispatches that lane |
| SagaDispatch.Matching | src/events/saga/handlers.ts:69-77 | the instances found are those of the saga with the property's value, ended ones included |
| SagaDispatch.MatchingInOrder | src/events/saga/handlers.ts:69-77 | they are found in table order, by the saga's name and the property's value and nothing else |
| SagaDispatch.MatchingIgnoresEnded | src/events/saga/handlers.ts:69-77 | which instances are found does not depend on which are ended |
| SagaDispatch.RunMatching | src/events/saga/handlers.ts:81-84 | the tasks run are those of the matching instances up to the first that fails |
| SagaDispatch.DispatchSagaEvent | src/events/saga/index.ts:472-498 | matching instances get their tasks; without any, at most one instance is started; a matcher, start test, start handler or task that throws goes to the error handler |
| SagaDispatch.DispatchOnce | src/events/saga/handlers.ts:64-91 | a dispatch runs each matching instance's task at most once, exactly once if none fails; starts one instance if and only if there is a start handler whose test lets the event pass and no instance to handle it; and calls the error handler at most once, exactly if something threw |
| SagaDispatch.ErrorsArePassedOn | src/events/saga/index.ts:472-498 | the error handler is given the error of what failed |
| LocalRunner.RemoveLeavesNothing | src/local-schedule-job-runner.ts:128-161 | if everything armed has a record, the record-driven removal leaves its key neither armed nor stored |
| LocalRunner.AlwaysBacked | src/local-schedule-job-runner.ts:38-183 | over any sequence of calls, firings, crashes and restarts with any keys, colliding or not: everything armed has a record, one string has at most one armed key, a key just added is armed and one just removed is neither armed nor stored |
| LocalRunner.AddKeepsOthersExactlyWhen | src/local-schedule-job-runner.ts:87-120 | adding leaves every stored key armed if and only if no other stored key concatenates to the same string |
| LocalRunner.RemoveKeepsOthersExactlyWhen | src/local-schedule-job-runner.ts:128-143 | the same for removing |
| LocalRunner.OnePartTellsApart | src/local-schedule-job-runner.ts:77-91 | schedules that differ in one part only, as two instances' timers of one name do, never share a key |
| LocalRunner.OneTimerIsInjective | src/local-schedule-job-runner.ts:77-91 | so one timer's keys are injective over all instances |
| LocalRunner.CollidingKeysDisarm | src/local-schedule-job-runner.ts:77-91 | two different schedules whose keys concatenate alike: arming the second disarms the first |
| LocalRunner.SequentialCalls | src/local-schedule-job-runner.ts:38-183 | over any sequence of calls, firings, crashes and restarts with injective keys, armed and stored keys are both the plain set of schedules added and not yet removed or fired |
| LocalRunner.ArmAllInjective | src/local-schedule-job-runner.ts:163-183 | re-arming stored keys in any order arms them all if they are injective |
| LocalRunner.Half.ManageSimpleTimerSchedule | src/local-schedule-job-runner.ts:87-120 | the entry is armed, its key filed, and whatever was filed under the same string disarmed |
| LocalRunner.Half.ManageCronTimerSchedule | src/local-schedule-job-runner.ts:47-85 | the same for crons, whose existing record is rewritten |
| LocalRunner.Half.RemoveSchedule | src/local-schedule-job-runner.ts:128-161 | nothing is armed or stored for the key, and no other record is touched |
| LocalRunner.Half.FireTimeout | src/local-schedule-job-runner.ts:104-114 | the fired timer's entry is emitted, it is no longer armed and its records go |
| LocalRunner.Half.Startup | src/local-schedule-job-runner.ts:163-183 | the stored keys are armed one after the other in some order, and with injective keys exactly they are armed at the end |
| LocalRunner.Half.ValidIsBacked | src/local-schedule-job-runner.ts:47-120 | every armed handle has a stored record and at most one handle is armed for a string |
| LocalRunner.LocalScheduleJobRunner.AddScheduledTask | src/local-schedule-job-runner.ts:38-45 | the key is held, in its own half only |
| LocalRunner.LocalScheduleJobRunner.RemoveSchedule | src/local-schedule-job-runner.ts:128-161 | the key is held by neither half |
| LocalRunner.LocalScheduleJobRunner.CrashAndStartup | src/local-schedule-job-runner.ts:163-183 | records survive a crash, and start-up arms exactly them when their strings are distinct |
| JsonQuery.ComparesEveryKey | src/datastore/object-query-util.ts:28-70 | the comparison holds if and only if it holds for every own key of the pattern, array indices and string positions included |
| JsonQuery.PlainFieldsMatch | src/datastore/object-query-util.ts:28-70 | a pattern of plain fields matches the objects that have them all with just those values |
| JsonQuery.ItemsMatch | src/datastore/object-query-util.ts:9-26 | a list of plain values matches the arrays that have them all, a pattern in a list the arrays with an item that it matches, a plain value only itself |
| JsonQuery.Reflexive | src/datastore/object-query-util.ts:9-70 | every tree matches itself |
| JsonQuery.Transitive | src/datastore/object-query-util.ts:9-70 | matching is transitive through nested objects and arrays when no object of the pattern that an array could match has a `length` key or, other than {}, stands under a key; the other two trees are arbitrary |
| JsonQuery.ArrayTransitive | src/datastore/object-query-util.ts:9-26 | the same for arrays |
| JsonQuery.CleanIsFirm | src/datastore/object-query-util.ts:28-70 | patterns whose object keys are neither array indices nor `length` are of that kind |
| JsonPreorder.TransitiveExactlyWhen | src/datastore/object-query-util.ts:9-70 | for every pattern whose arrays under a key hold primitives or a single item: it matches transitively if and only if it is of that kind |
| JsonPreorder.ValueTransitiveExactlyWhen | src/datastore/object-query-util.ts:44-68 | the same for what stands under a key |
| JsonPreorder.SecondItemMakesUp | src/datastore/object-query-util.ts:13-25 | a pattern with an array of two objects that is not of that kind and transitive all the same, because whatever the second item matches the first one matches too |
| JsonQuery.LengthBreaksTransitivity | src/datastore/object-query-util.ts:32-43 | three trees that break transitivity with a `length` key |
| JsonQuery.IndexBreaksTransitivity | src/datastore/object-query-util.ts:32-60 | three trees that break it with an index key |
| JsonQuery.LikeCompare | src/datastore/object-query-util.ts:72-99 | LIKE finds the text in the property at the end of the path, or in some string of the array there, and throws on another primitive in that array |
| JsonQuery.AnyIncludes | src/datastore/object-query-util.ts:77-87 | the loop over an array throws if and only if an item is a number or a boolean, and otherwise finds the text if some string includes it |
| FilterTable.FilterTableUsingObjectComparison | src/datastore/object-query-util.ts:101-197 | throws if and only if some clause throws on some row; otherwise returns exactly the rows, in order, that satisfy every clause from the last OBJECT or well-formed LIKE onward |
| FilterTable.ThrowsOnSome | src/datastore/object-query-util.ts:103-195 | the loop throws on a table if and only if some row makes some clause throw |
| FilterTable.FieldsAllMatch | src/datastore/object-query-util.ts:105-195 | the inner loop ends with the accumulated effect of all clauses |
| FilterTable.ApplyClause | src/datastore/object-query-util.ts:107-190 | the accumulator after one clause, for every operator |
| FilterTable.AccumulatedIsSuffix | src/datastore/object-query-util.ts:105-195 | an accumulator that some clauses overwrite is the conjunction from the last of them onward |
| FilterTable.LoopDecides | src/datastore/object-query-util.ts:105-195 | so a row is kept if and only if it satisfies that suffix, unless a clause throws |
| FilterTable.KeptRows | src/datastore/object-query-util.ts:192-196 | the result's rows are the table's rows that are kept |
| FilterTable.SelectedInOrder | src/datastore/object-query-util.ts:103-195 | the rows kept stand in table order, each as often as in the table |
| FilterClauses.OneByOne | src/datastore/object-query-util.ts:101-197 | on a table a query throws if and only if it throws on some row, and finds exactly the rows it retains |
| FilterClauses.PlainValueKeeps | src/datastore/object-query-util.ts:188-190 | a plain value retains the rows that have just it and drops all others |
| FilterClauses.EqKeeps | src/datastore/object-query-util.ts:120-124 | EQ does the same; it never holds of an object or array, and without a value it retains the rows without the property |
| FilterClauses.InKeeps | src/datastore/object-query-util.ts:111-119 | IN retains the rows whose plain value is in the list, and none without a list |
| FilterClauses.ComparisonsKeep | src/datastore/object-query-util.ts:125-144 | on numbers GT, GTE, LT and LTE retain exactly the rows with a greater, not smaller, smaller, not greater number |
| FilterClauses.ComparisonsFind | src/datastore/object-query-util.ts:101-197 | on a table of numbers they find exactly those rows, in table order, and never throw |
| FilterClauses.ComparisonsDrop | src/datastore/object-query-util.ts:125-144 | for values of any types they drop exactly the rows that compare the other way |
| FilterClauses.AbsentIsKept | src/datastore/object-query-util.ts:125-144 | so they retain every row without the property |
| FilterClauses.BetweenKeeps | src/datastore/object-query-util.ts:145-149 | BETWEEN retains the numbers between the bounds, both included, and no row without the property; without a value it throws |
| FilterClauses.BetweenDrops | src/datastore/object-query-util.ts:145-149 | for values of any types it retains exactly the rows at or above the one bound and at or below the other |
| FilterClauses.ObjectKeeps | src/datastore/object-query-util.ts:150-156 | OBJECT retains the rows the pattern matches; text is parsed first, and throws if it does not parse |
| FilterClauses.ContainsPlainKeeps | src/datastore/object-query-util.ts:173-180 | ARRAY_CONTAINS with a plain value retains the arrays that have it and the strings it occurs in, and throws on everything else |
| FilterClauses.ContainsPatternKeeps | src/datastore/object-query-util.ts:173-186 | with a pattern it retains the arrays with an item that it matches, drops the rows without the property and throws on any other value |
| FilterClauses.ContainsNothingThrows | src/datastore/object-query-util.ts:173-186 | without a value it throws unless the property is absent or an empty array |
| FilterClauses.LikeKeeps | src/datastore/object-query-util.ts:72-99 | LIKE retains the rows whose value at the end of the path, or some string of the array there, has the text in it; it throws if that array holds a number or a boolean |
| FilterClauses.EmptyPathKeeps | src/datastore/object-query-util.ts:72-75 | a LIKE with an empty path answers as one with the path "undefined" |
| FilterClauses.BadLikeDrops | src/datastore/object-query-util.ts:157-167 | a LIKE value that is plain or lacks `path` or `like` drops every row |
| FilterClauses.UnknownKeeps | src/datastore/object-query-util.ts:110-187 | an unknown operator retains every row |
| FilterTable.KeptIsConjunction | src/datastore/object-query-util.ts:105-195 | with nothing before the last overwriting clause the filter is the conjunction of all clauses |
| FilterTable.WronglyKeptExactlyWhen | src/datastore/object-query-util.ts:155-169 | the rows kept against the conjunction are exactly those that fail before the last overwriting clause and pass from there on |
| FilterTable.OrderDoesNotMatter | src/datastore/object-query-util.ts:106-191 | without overwriting clauses any reordering of the query keeps and throws the same |
| FilterTable.OrderCanMatter | src/datastore/object-query-util.ts:150-156 | with one, a reordering that keeps another row |
| FilterTable.WeakerPatternFindsMore | src/datastore/object-query-util.ts:150-156 | if pattern p matches pattern q, every row an OBJECT query for q finds is found by one for p, for every p that `JsonQuery.Transitive` covers |
| InMemStore.StableSortSorts | src/datastore/inmem-data-store.ts:125-138 | with a consistent comparator the result is a permutation, ordered, with ties in insertion order |
| InMemStore.StableSortIsUnique | src/datastore/inmem-data-store.ts:125-138 | a list is a stable ordered permutation of the rows if and only if it is that result |
| InMemStore.SortedIsStable | src/datastore/inmem-data-store.ts:112-139 | mutually comparable values under the first sort key make the comparator consistent, ascending and descending |
| InMemStore.NumbersInOrder | src/datastore/inmem-data-store.ts:112-139 | rows with numbers under the first sort key come ascending, or descending for "DESC", with ties in table order |
| InMemStore.SortOnAbsentKey | src/datastore/inmem-data-store.ts:125-138 | a sort on a key no record has leaves insertion order, as in cold replay |
| InMemStore.PagesAreTheResult | src/datastore/inmem-data-store.ts:153-178 | pages 1 to ceil(n / pageSize) concatenate to the whole result, all but the last full |
| InMemStore.PagesAreAPrefix | src/datastore/inmem-data-store.ts:161-171 | the first k pages are the first k * pageSize results |
| InMemStore.PageZeroIsPageOne | src/datastore/inmem-data-store.ts:162-166 | page 0 and every page below it is page 1 |
| InMemStore.FindsExactly | src/datastore/inmem-data-store.ts:102-142 | the answer has each row that the filter keeps as often as the table, and no other; unsorted it is in table order; it throws exactly if the filter throws on some row |
| InMemStore.InMemDataStore.FindEntity | src/datastore/inmem-data-store.ts:102-142 | the filtered rows, sorted; no table changes |
| InMemStore.InMemDataStore.FindEntityPaginated | src/datastore/inmem-data-store.ts:153-178 | a page of that result, with the count of the whole result |
| InMemStore.InMemDataStore.CreateEntity | src/datastore/inmem-data-store.ts:185-201 | an item with an id throws; otherwise the record goes to the end of its table and no other table changes |
| InMemStore.InMemDataStore.SaveEntity | src/datastore/inmem-data-store.ts:203-209 | throws without id or table; otherwise replaces the record in place or appends it |
| InMemStore.InMemDataStore.DeleteEntity | src/datastore/inmem-data-store.ts:211-219 | removes that one record |
| InMemStore.InMemDataStore.DeleteMany | src/datastore/inmem-data-store.ts:221-230 | removes exactly the rows `findEntity` answers, and keeps the others in order |
| StreamSubscriptions.RefinesLog | src/events/core/eventclient-datastore.ts:56-90 | with unique non-empty ids every run delivers a prefix of the stream in emit order, each item at most once, even if handlers throw and loops overlap; and a subscription with no loop running that was ticked since the last emit and the last throw has delivered everything |
| StreamSubscriptions.OneHandlerExactlyWhen | src/events/core/eventclient-datastore.ts:63-82 | over every run: no two handlers of a subscription are ever awaited together if and only if no running loop is met by a second tick while an item is left |
| StreamSubscriptions.HandlersCanOverlap | src/events/core/eventclient-datastore.ts:63-82 | three emits during the first handler: the second tick resets `processing` and the third begins a second loop |
| StreamSubscriptions.LoopsTerminate | src/events/core/eventclient-datastore.ts:68-78 | each settled handler lowers the items left plus the loops running by one |
| StreamSubscriptions.DrainsExactlyWhen | src/events/core/eventclient-datastore.ts:34-46 | draining any stream yields it in order and once if and only if its ids are unique and non-empty |
| StreamSubscriptions.InvStep | src/events/core/eventclient-datastore.ts:56-84 | the cursor always is the id of the last item delivered; `processing` means a loop is running, though not the other way round |
| StreamSubscriptions.Stream.GetNextAfter | src/events/core/eventclient-datastore.ts:34-46 | the scan finds the item after the first one with the cursor's id |
| StreamSubscriptions.StreamSubscription.Process | src/events/core/eventclient-datastore.ts:63-82 | a tick on a busy subscription resets `processing` and does nothing else; otherwise a loop begins with the next item |
| StreamSubscriptions.StreamSubscription.HandlerResolved | src/events/core/eventclient-datastore.ts:75-82 | its loop goes on with the next item, or ends, whatever `processing` says |
| StreamSubscriptions.StreamSubscription.HandlerThrew | src/events/core/eventclient-datastore.ts:75-82 | its loop ends with the cursor past the item and `processing` reset |
| StreamSubscriptions.TickSubs | src/events/core/eventclient-datastore.ts:88-90 | every subscription is ticked |
| RedisReplay.IncrementIsNext | src/events/core/eventclient-redis.ts:89-92 | incrementing the text of an id gives the text of its successor |
| RedisReplay.NothingBetween | src/events/core/eventclient-redis.ts:89-92 | no id lies strictly between an id and its increment |
| RedisReplay.TextOrder | src/events/core/eventclient-redis.ts:419-421 | for ids of equal widths the string order is the order of ids |
| RedisReplay.CursorAfter | src/events/core/eventclient-redis.ts:412 | the cursor after an entry is past it and at or below everything later |
| RedisReplay.ColdReplay | src/events/core/eventclient-redis.ts:364-426 | the entries visited are a prefix in increasing order; an empty or short batch means all were visited; the stop test means the first full batch whose cursor passes it; the replay is closed if and only if `close()` comes no later than its last await, with exactly the entries visited that the awaits before that have reached; otherwise `onDone` is called |
| RedisReplay.ReplayUntil | src/events/core/eventclient-redis.ts:377-426 | the same for any stop test, and the loop terminates |
| RedisReplay.AwaitsAreReadsAndEntries | src/events/core/eventclient-redis.ts:377-422 | a replay that nobody closes takes one await for each entry visited and one for each read |
| RedisReplay.AwaitsBound | src/events/core/eventclient-redis.ts:377-422 | which is at most twice the entries and one |
| RedisReplay.EntriesAfter | src/events/core/eventclient-redis.ts:377-422 | after k full batches and x awaits more, k batches and what x awaits reach have been visited |
| RedisReplay.Round | src/events/core/eventclient-redis.ts:377-422 | one round of the loop: it visits at least one more entry or ends for the stated reason |
| RedisReplay.Fetch | src/events/core/eventclient-redis.ts:378-384 | the range read answers exactly the next entries not visited |
| RedisReplay.VisitBatch | src/events/core/eventclient-redis.ts:390-413 | every entry of the batch is visited, failed handlers included, until closed |
| RedisReplay.CompleteExactlyWhen | src/events/core/eventclient-redis.ts:415-421 | a replay that is not closed visits everything if and only if no full batch before the end leaves a cursor that passes the stop test |
| RedisReplay.EarlyStopMissesOnlyLast | src/events/core/eventclient-redis.ts:419-421 | with ids as wide as the last generated one, which is at or above the last entry, the test stops early if and only if one entry is left, it is the immediate successor of the last visited, and nothing was generated after it |
| RedisReplay.EndsAtFirstStop | src/events/core/eventclient-redis.ts:415-421 | a replay that is not closed visits exactly the entries up to the first full batch before the end whose cursor passes the test |
| RedisReplay.AdjacentIdsStopEarly | src/events/core/eventclient-redis.ts:419-421 | every unclosed replay of "5-0", "5-1" in batches of one leaves the second entry unread |
| RedisReplay.WiderIdsStopEarly | src/events/core/eventclient-redis.ts:419-421 | every unclosed replay of "9-0", "10-0", "11-0" in batches of one leaves two entries unread |
| KafkaReplay.DoneIsComplete | src/events/core/eventclient-kafka.ts:490-528 | for any interleaving of partitions, redelivery included: once done is signalled every message below every watermark has had its handler finish or fail |
| KafkaReplay.CaughtUpStays | src/events/core/eventclient-kafka.ts:493-499 | in offset order the catch-up test once true stays true |
| KafkaReplay.SettleKeepsTestExactlyWhen | src/events/core/eventclient-kafka.ts:490-499 | a message that settles while the test is true, redelivered or not, leaves it true if and only if it is not below its own partition's watermark less one |
| KafkaReplay.EndsExactlyWhen | src/events/core/eventclient-kafka.ts:493-499 | with everything delivered the test is true if and only if every non-empty partition serves an offset at or past its watermark less one |
| KafkaReplay.RedeliveryUndoesTheTest | src/events/core/eventclient-kafka.ts:490-499 | a redelivered message can make the test false again |
| KafkaSignals.CallsAreLateMessages | src/events/core/eventclient-kafka.ts:490-525 | over every run the calls of `onDone` made and to come are as many as the messages that settled with the test true |
| KafkaSignals.AtMostOneCallExactlyWhen | src/events/core/eventclient-kafka.ts:490-525 | for every topic and snapshot: `onDone` is called at most once in every in-order run if and only if some watermark is never reached, or no partition serves a message after the first that meets its own part of the test, or, with all watermarks 0, there is at most one message |
| KafkaReplay.DoneCanRepeat | src/events/core/eventclient-kafka.ts:501-525 | a run in which `onDone` is called twice |
| KafkaReplay.EmptyExitExactlyWhen | src/events/core/eventclient-kafka.ts:534-542 | with as many watermarks as partitions the shortcut for an empty topic is taken if and only if every watermark is 0 |
| KafkaReplay.EmptyExitIsRightExactlyWhen | src/events/core/eventclient-kafka.ts:387-408 | for every set of partitions with offsets: the shortcut is right for all watermarks if and only if there are as many as in the metadata |
| KafkaReplay.EmptyExitCanMiss | src/events/core/eventclient-kafka.ts:534-542 | otherwise it can be taken with messages unread |
| KafkaReplay.ColdStream.constructor | src/events/core/eventclient-kafka.ts:387-408 | the snapshot: nothing consumed, the watermarks, and the partitions without messages |
| KafkaReplay.ColdStream.MessageSettled | src/events/core/eventclient-kafka.ts:490-499 | the loop over the watermarks decides the catch-up test |
| ThrottledProducers.Accounting | src/events/core/kafka-throttle.ts:54-78 | every record pushed is in exactly one of queue, in flight or settled, and sliced off; one batch at most is in flight; each place is in push order |
| ThrottledProducers.NothingDroppedExactlyWhen | src/events/core/kafka-throttle.ts:140-144 | no record is lost if and only if every retry begins with an empty queue |
| ThrottledProducers.ToldExactlyWhen | src/events/core/kafka-throttle.ts:159-201 | over every run a record's promise resolves if and only if the broker accepted a batch it was in, rejects if and only if the broker finally refused one, and never both |
| ThrottledProducers.SentAreResolved | src/events/core/kafka-throttle.ts:166-170 | `recordsSent` is the number of promises resolved |
| ThrottledProducers.FlushTakesTheFront | src/events/core/kafka-throttle.ts:140-146 | a flush takes the oldest records, as many as a batch may hold; a retry slices off as many |
| ThrottledProducers.DroppedNeverSettles | src/events/core/kafka-throttle.ts:143-144 | a record sliced off is never resolved or rejected afterwards |
| ThrottledProducers.PushOrder | src/events/core/kafka-throttle.ts:124-202 | with nothing lost, settled, in-flight and queued records in this order are the push order |
| ThrottledProducers.NoRetryNoLoss | src/events/core/kafka-throttle.ts:124-202 | a run without retriable errors loses nothing and settles in push order |
| ThrottledProducers.RetryCanDrop | src/events/core/kafka-throttle.ts:143-144 | a run in which one retry loses a record |
| ThrottledProducers.ThrottledProducer.Push | src/events/core/kafka-throttle.ts:65-77 | the record goes to the end of the queue |
| ThrottledProducers.ThrottledProducer.FlushFromTimer | src/events/core/kafka-throttle.ts:129-164 | nothing while a flush is on; otherwise the head of the queue becomes the batch in flight |
| ThrottledProducers.ThrottledProducer.FlushAgain | src/events/core/kafka-throttle.ts:133-164 | the old batch is sent again and the head of the queue is sliced off |
| ThrottledProducers.ThrottledProducer.BatchSent | src/events/core/kafka-throttle.ts:166-170 | the batch's promises resolve |
| ThrottledProducers.ThrottledProducer.BatchFailed | src/events/core/kafka-throttle.ts:171-201 | a retry follows, or every promise of the batch rejects (`ThrottledProducers.ToldExactlyWhen`) |
| Outbox.AtLeastOnceNoPhantom | src/events/core/outbox/outbox-kafka-sender.ts:106-190 | over every run with failing sends, rollbacks and overlapping flushes: a committed entry is in the outbox or was sent, only committed entries are sent, and no entry of a rolled-back emit ever is |
| Outbox.RemovalIsSent | src/events/core/outbox/outbox-kafka-sender.ts:150-156 | a row leaves the outbox only at the commit of a flush that read it, sent it and removed it |
| Outbox.NeverStuck | src/events/core/outbox/outbox-kafka-sender.ts:106-190 | over every run `isFlushing` is set only while a flush is open, so once all have ended the next tick begins one |
| Outbox.WaitsForInner | src/events/core/outbox/outbox-kafka-sender.ts:164-175 | a flush that has started another after "unknown producer" waits for as long as that one is open |
| Outbox.InvStep | src/events/core/outbox/outbox-kafka-sender.ts:106-190 | every step keeps this for all open flushes and emits |
| Outbox.SentOnceExactlyWhen | src/events/core/outbox/outbox-kafka-sender.ts:106-163 | for every run without failures that ends with no flush open: each entry is sent once, and the log followed by the outbox is the order of commits, if and only if no flush reads a row that another open flush is still sending or removing |
| Outbox.OverlapSendsTwice | src/events/core/outbox/outbox-kafka-sender.ts:156-163 | without any failure an overlap sends an entry twice |
| Outbox.RetryIsSkipped | src/events/core/outbox/outbox-kafka-sender.ts:164-175 | as long as flushes do not overlap, the flush after "unknown producer" finds `isFlushing` set and never begins |
| Outbox.FlushAlone | src/events/core/outbox/outbox-kafka-sender.ts:106-190 | a flush nobody interferes with is a run of the machine with the effect that `KafkaOutboxSender.Flush` states |
| Outbox.Without | src/events/core/outbox/outbox-event-client.ts:27 | removal keeps exactly the rows not named |
| Outbox.EventOutbox.RemoveOutboxEntries | src/events/core/outbox/outbox-event-client.ts:27 | the loop over the rows keeps those not named, in order |
| Outbox.KafkaOutboxSender.Flush | src/events/core/outbox/outbox-kafka-sender.ts:106-190 | outbox, broker log and count after a whole flush, for every way its collaborators can fail |
| Aggregates.OneRecordPerKey | src/events/tenant-aggregate-root.ts:172-218 | under any interleaving of persists each (tenant, type, id) has at most one record, and its history is the batches of the stored persists in lock order |
| Aggregates.HistoryGrows | src/events/tenant-aggregate-root.ts:200-209 | a key's history only ever grows at its end |
| Aggregates.InvStep | src/events/tenant-aggregate-root.ts:176-218 | every step keeps lock ownership, order, and that a pending write is the whole history with the batch appended |
| Aggregates.AtOnceIsSafe | src/events/tenant-aggregate-root.ts:176-218 | with a store whose writes show at once, checkpoints without `history` and `domainId` are all that is needed |
| Aggregates.OneRowExactlyWhen | src/events/tenant-aggregate-root.ts:176-217 | with harmless checkpoints every run leaves at most one record per key if and only if the store shows writes at once |
| Aggregates.LockEndsBeforeCommit | src/events/tenant-aggregate-root.ts:176-217 | with writes that show at the commit, a run without failures that ends with two records for one key |
| Aggregates.CheckpointIsHarmlessExactlyWhen | src/events/tenant-aggregate-root.ts:20-27 | what is written is the key's whole history with the batch, under its id, if and only if the checkpoint has no `history` and `domainId` of its own, or repeats theirs |
| AggregateWriters.NothingLostExactlyWhen | src/events/tenant-aggregate-root.ts:180-209 | from a load on, with one writer at a time, over every run: stored history and new events are all the object has been reduced with if and only if the store failed no persist that had taken events and none that has is still open |
| AggregateWriters.FailureLoses | src/events/tenant-aggregate-root.ts:180-209 | for every event and key a run in which one failing step, finding or writing, loses the event raised |
| AggregateWriters.LoadSyncs | src/events/tenant-aggregate-root.ts:84-101 | loading while no persist of the key is open brings an object into line with the store, whatever was lost before |
| AggregateWriters.ReplayExactlyWhen | src/events/tenant-aggregate-root.ts:12-18 | the replay is the one state to which the events' reducers lead from the initial one, each applied to the state before it; an event without a reducer changes nothing |
| AggregateWriters.ReplayAddsUp | src/events/tenant-aggregate-root.ts:12-18 | for a reducer that adds an amount on one kind of event, the replay is the sum over the events of that kind |
| AggregateWriters.LoadedIsLive | src/events/tenant-aggregate-root.ts:84-101 | load, raise, persist, load: with nothing lost, open or new, the reducers lead the next object that loads the key to exactly the live state of the one that wrote it |
| AggregateObjects.AggregateRoot.RaiseEvent | src/events/aggregate-root.ts:176-190 | only missing fields are filled, with the id the aggregate had before; the event's reducer is applied to the state, if there is one; the event is appended; the live state stays the replay of all events raised |
| AggregateObjects.AggregateRoot.Hydrate | src/events/tenant-aggregate-root.ts:12-18 | the state ends where the reducers of the stored history lead from the initial state |
| AggregateObjects.TenantAggregateRepository.Persist | src/events/tenant-aggregate-root.ts:172-218 | on success the key's history gains exactly the new events and other keys keep theirs; on failure nothing is stored; `newEvents` is empty either way |
| AggregateObjects.TenantAggregateRepository.Load | src/events/tenant-aggregate-root.ts:84-101 | null if and only if there is no record; otherwise the state to which the reducers of its history lead |

## Left out

- Connections, topic creation, health flags, metrics, logging and tracing: foreign input and output; only their abstract outcomes (a send succeeds, fails for now, fails) are kept.
- src/bullmq-schedule-job-runner.ts, the codecs, the XState aggregate, adapters, views, commands and the idempotent, transactional and proxy clients: library calls or short wrappers that would only add easy members.
- The Kafka idle timeout that calls `onDone` after ten seconds without a message, and the 60 second warning of a saga step: wall-clock time.
- SagaEngine.InvStep: one saga per engine, so that schedules are named by instance and timer; `findEntity` by instance id is a lookup, as ids are fresh UUIDs.
- SagaHistory.NoLostUpdate: handlers do not touch the reserved keys of the record; `saveEntity` and the runner's calls succeed, and the roll-back of a saga step's transaction is not modelled; a missing timer handler is a handler that changes nothing, and `withLock` on a start handler only delays it.
- SagaTimers.TimerAgreement: holds for runs whose start handlers keep their instance; `SagaStartRace.TimersAgreeExactlyWhen` shows that this is the exact condition.
- SagaArmed.HeldExactlyWhen: the same condition, and the schedule does not expire in the run; a one-shot timer that has expired stays active in the record until its task has run.
- SagaTimers.NoHandlerAfterDeletion: the same condition, with `SagaStartRace.NoLateCallExactlyWhen`.
- SagaEnded.EndedIsCalledExactlyWhen: the same condition on the start handlers of the run.
- LocalRunner.SequentialCalls: calls to the runner one after the other; overlapping calls for one key are not modelled.
- SagaDispatch.DispatchSagaEvent: roll-back of half-registered lanes and the closing of subscriptions are not modelled.
- JsonQuery.Transitive: trees without null and numbers without fractions.
- JsonPreorder.TransitiveExactlyWhen: for patterns with several items, some of them objects, in an array under a key the condition is sufficient only; `JsonPreorder.SecondItemMakesUp` shows that it is not necessary there.
- FilterTable.ApplyClause: how JavaScript orders values of different types, prints a value and parses JSON are parameters; objects under IN and EQ are compared by reference and so never equal; keys of `Object.prototype` are not modelled.
- InMemStore.InMemDataStore.FindEntity: a table's rows are a sequence in insertion order (record ids are UUIDs, so `Object.keys` does not reorder them), and copies by JSON are the identity; `getEntity` and `purge` are left out.
- RedisReplay.IncrementIsNext: `parseInt` is exact here, also for sequence numbers above 2^53.
- RedisReplay.ColdReplay: the stream does not change during the replay.
- ThrottledProducers.Accounting: a producer whose reconnection fails inside a retry keeps its batch in flight for ever; topic confirmation before the push is a delay.
- Outbox.SentOnceExactlyWhen: runs in which no step of a flush fails (emits may roll back); after a failure the same entry may be sent again, and `Outbox.AtLeastOnceNoPhantom` is what holds.
- Aggregates.OneRecordPerKey: no other code writes the aggregate's table, checkpoints leave `history` and `domainId` alone, and no persist takes a lock while a write under the same lock waits for its commit; reducers do not throw.
- AggregateObjects.TenantAggregateRepository.Persist: one call at a time; interleaving is in the machine. `loadBulk` and `history` are left out.
