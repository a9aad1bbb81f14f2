# DurableGo: the lease protocol, verified

DurableGo runs workflows made of dependency-aware activities. A worker claims a ready activity under a
lease with an owner, an expiry and a fencing token; it may extend the lease by heartbeats and ends it by
reporting completion or failure; a scheduler pass takes back leases that have run out and releases
retries whose time has come. The same protocol exists twice: as an in-memory engine of maps under one
mutex, and as SQL transactions over PostgreSQL tables. This project models both, and the worker runtime
that calls them, and proves what they have in common and where they differ.

Check everything with `dafny verify dfyconfig.toml`.

## How the model is built

* `Machine` is the one abstract protocol: a state of workflow records, activity records and event logs,
  and twelve moves (launch, claim, heartbeat, complete, retry, fail, reject, reap, reap-and-fail,
  release, finish, cancel). A move changes records and appends events in one go. The chosen activity,
  expiry times and retry times are parameters of a move, which is where the back ends differ.
* `Invariants`, `Runs`, `Logs` and `Topology` prove theorems about every state and every run of the
  machine.
* `EngineSteps` says what each call of the in-memory engine does, as a function of its state and the
  clock readings it takes; `EngineRuns` proves that every run of calls is a run of the machine. `Engine`
  is the engine itself: a class with the engine's fields, whose methods and loops are proved to make
  exactly those steps. `Starts` reads off a definition when a start is accepted and what it stores. `Ids`
  covers the printed ids, their order, and the joined idempotency keys.
* `Courses` are sequences of engine calls from any state. What can happen is shown by building them:
  `Cancellation` says exactly what can still happen after a cancellation, `Handouts` exactly when work of
  a workflow, failed or not, is still handed out. `Announcements` says which failures the log announces.
  `Surprises` has runs of any new engine for behaviour one might not expect.
* `Scheduler`, `Progress` and `Driver` are about what keeps things moving: the scheduler pass, that
  nothing is overlooked, and what exactly one worker completes.
* `Tables` and `Statements` describe the rows of the database and its SQL statements; `Postgres` is the
  store as a class whose methods are transactions. Beside the rows it keeps the run of the machine that
  its transactions amount to, and every method says which moves it adds and what it does to the rows.
  `Agreement` shows that the
  loops of the engine and the set-based statements end in the same records, and where claims differ;
  `Disagreements` has starts that the two answer differently.
* `Transactions` cuts a run into database transactions. `PostgresStart` takes the concurrent Start apart
  into its statements, `Races` the completions of the last activities of a workflow, and `LostFinish`
  makes a store in which such a race loses the finish; `Snapshot` treats releases decided on an older
  snapshot, `Backoff` the rounding of delays.
* `Worker` has the closed system of engine, workers and unreliable messages, and the worker runtime as a
  class whose methods are proved to make events of that system. `Outcomes` says what the outcome of a
  handler does to its activity there. `StoreWorld` is the closed system of the database and its workers.

Concurrency: every public method of the engine holds its mutex, so any concurrent use is a sequence of
atomic calls. Database transactions are taken as atomic in `Postgres`; `PostgresStart`, `Races` and
`Snapshot` look at the interleavings where that is not enough. There a transaction sees a committed state
with its own updates on top, and a committed state later than another is one that a run reaches from it:
committed transactions are stretches of one run. Ids drawn by the database, rows locked by other
transactions, the order in which RETURNING lists rows, and the outcome of a handler are parameters or
free choices.

Time: a call of the engine may read the clock several times, a transaction has one reading. The engine's
clock can be replaced by any function, so its calls and runs are stated for any readings; what needs a
clock that does not go back says so (`Increasing(clock)`, `steady`). Courses, which show what can happen,
are built under such a clock. The database's clock is taken not to go back.

## What the proofs found

* A message that comes after its lease was reaped but before the activity is claimed again is refused as
  an invalid transition and leaves no event; only while somebody else runs the activity is it refused as
  stale and logged (`EngineRuns.OldTokensChangeNothing`, `Surprises.ReapedLeavesNoTrace`). The guarantee
  in line 67 of the repository's README speaks of rejection after a newer claim, and that much always holds.
* Claim does not look at the workflow. Whatever its status, work of a workflow is still handed out, now or
  later, if and only if one of its activities is ready, or running with an attempt left, or waiting for
  none but completed activities and such as a worker holds under a live lease
  (`Handouts.HandsOutIfOffered`). So after a failure work is handed out exactly if another activity is in
  such a state (`Handouts.HandsOutAfterFailure`, `Handouts.HandsOutAfterPass`,
  `Surprises.FailedStillHandsOut`).
* After a cancellation an activity can be handed out again if and only if it was running then with an
  attempt left (`Cancellation.ClaimedAgainAfterCancel`, `Surprises.CancelledStillHandsOut`), and exactly
  as often as it has attempts left, one lease after the other (`Cancellation.AttemptsCanBeUsedUp`).
* Cancelled can turn into failed (`Surprises.CancelledCanFail`) and into nothing else
  (`Runs.StatusIsMonotone`). A cancellation is final if and only if no activity of the workflow was
  running (`Cancellation.CancelIsFinal`).
* A lease that expires for the last time fails the workflow without a `workflow.failed` event in the
  engine (`Surprises.SilentFailure`): its log has that event exactly if a worker reported a failure
  (`Announcements.EngineFailureEvent`). In the database every failed workflow has it
  (`Postgres.EveryDatabaseState`). The replay therefore has to let `activity.lease_expired_failed` fail
  the workflow by itself (`Logs.LogsTellAll`).
* Dependency cycles are accepted (`Driver.CyclesAreAccepted`). Whatever is on or behind one is never
  claimed (`Topology.BehindCycleNeverAttempted`, `Topology.BehindNeverRuns`), and a worker that keeps to
  its leases completes exactly the rest (`Driver.StartedWorkflowsFinish`).
* If the engine's clock goes back, a completion can overlook what it unblocks
  (`Surprises.ClockBackOverlooks`): exactly what waits for a time after the reading taken for it
  (`Progress.OverlookedIfEarly`). Otherwise nothing is ever overlooked (`Progress.EveryStateIsSettled`).
* The engine's `%06d` ids are in order of creation up to 999,999 and not beyond
  (`Ids.IdOrderIsCreationOrder`); two namespaces can share a joined idempotency key exactly when one
  followed by NUL starts the other (`Ids.JoinsClash`).
* The back ends answer the same start differently in three cases: a dependency listed twice breaks a
  primary key in the database only; a repeated start whose definition is invalid is a duplicate for the
  engine and invalid for the database; and where two namespaces share a joined key, which takes a NUL, the
  engine gives back the other's workflow (`Statements.StartsCompared`, `Statements.NoClashWithoutNul`;
  `Disagreements` has one of each).
* An empty task queue becomes "default" in the database only. The engine hands such an activity to every
  worker, the database only to those that ask for any queue or for "default"
  (`Agreement.QueuesCompared`, `Agreement.ClaimsCompared`).
* The NOT EXISTS condition for a release lets a dependency on a missing name pass, on which the engine
  would wait (`Tables.MissingNameDiffers`); they agree because a start admits no missing names
  (`Tables.NoneOpenMeansDone`).
* The database answers a message about an activity that was never claimed with an internal error instead
  of an invalid transition: its lease expiry is NULL, and the comparison does not fit the boolean it is
  scanned into (`Statements.RepliesAgree`).
* Two last completions that overlap can each miss the other; the workflow then stays running although all
  its activities are completed (`Races.TwoLastCompletionsCanMiss`, and `LostFinish.TwoLeft` for a store
  that comes to this by its own transactions). The workflow is finished if and only
  if the last transaction to run the finishing statement did so after all the others had committed
  (`Races.FinishedIffLastJudgeSawCommits`). If it was missed, no later transaction touches the workflow but
  its cancellation, because every transaction that finishes a workflow completes one of its activities
  first, and none is left to complete (`Transactions.MissedForGood`, `Transactions.OnlyCancellationEnds`).
* In the concurrent Start the conflict branch is dead code as long as ensureNamespace locks the namespace
  row, and harmless otherwise; "did not commit" is never answered (`PostgresStart.LockedStartsNeverConflict`,
  `PostgresStart.NeverDidNotCommit`).
* The database claims oldest first by the time of the start, which every row keeps (`Postgres.CreatedAtStart`);
  the engine by the printed id, which is the same up to 999,999 activities (`EngineRuns.ClaimIsOldestFirst`).
* An activity fails with attempts left only if a worker claimed it that has no handler of its name
  (`Outcomes.FailsEarlyWithoutHandler`).
* A lease time below one second is no lease at all in the database (`Backoff.ShortLeaseLapsesAtOnce`).

## Model

| member | source | states |
|---|---|---|
| Invariants.KeepsInv | internal/execution/engine.go:142-377 | Every move keeps: references and names are well-formed, token = attempt <= maxAttempts, whatever was let through has its dependencies completed, a workflow is failed iff an activity is, completed only if all are, running only if none failed or was cancelled, keys are unique |
| Invariants.RunKeepsInv | internal/execution/engine.go:142-377 | The invariant holds in every state of every run that starts in a state that has it |
| Invariants.EmptyInv | internal/execution/engine.go:117-134 | A new engine satisfies the invariant |
| Invariants.MoveEvolves | internal/execution/engine.go:191-376 | No move deletes a record, changes a definition, lowers a counter, touches a completed activity or adds an activity to an old workflow |
| Invariants.DoneStays | internal/execution/engine.go:433-450 | Completed dependencies stay completed for ever |
| Invariants.FailedTogether | internal/execution/engine.go:318-322 | After every move a workflow is failed exactly if one of its activities is |
| Invariants.LetThroughBy | internal/execution/engine.go:195-198 | An activity gets past its dependencies only if it was past them before, has none, or they are completed |
| Runs.LeaseEffect | internal/execution/engine.go:240-255 | What each move does to one activity's status, attempt, token, owner and expiry: only a claim starts a lease and raises the token, only the outcomes end one, only heartbeats move the expiry |
| Runs.RunningIsHeld | internal/execution/engine.go:240-243 | In every reachable state a running activity is held under owner and token of one earlier claim that has neither been superseded nor ended since |
| Runs.AcceptedOnlyFromHolder | internal/execution/engine.go:497-502 | Heartbeat, completion and failure are accepted only from the worker of the latest claim, under that claim's token, before the lease ended |
| Runs.GrantsDiffer | internal/execution/engine.go:243 | Two claims of one activity never carry the same token; later ones carry larger tokens |
| Runs.OneOutcomePerToken | internal/execution/engine.go:277-324 | At most one completion, retry, failure or expiry takes effect per activity and token |
| Runs.CompletedWasReported | internal/execution/engine.go:277-296 | In every reachable state a completed activity was completed by the worker that its token was granted to, under that token |
| Runs.LeaseWindowsDisjoint | internal/execution/engine.go:268-272 | When an activity is claimed again, the latest expiry promised to the previous holder by its claim or its heartbeats has passed, unless that holder's own failure report gave the activity back |
| Runs.BackoffIsServed | internal/execution/engine.go:312-316 | After a failure report that is retried the activity is not claimed before its retry time, whatever happens in between |
| Runs.CompletionIsFinal | internal/execution/engine.go:289-295 | After a completion the activity is never claimed, extended or ended again |
| Runs.WeightDrops | internal/execution/engine.go:312-318 | With R attempts left, running 3R+3, waiting 3R+2, ready 3R+1 and finished 0 drop at every change of status and change at no other move |
| Runs.AtMostSoManyChanges | internal/execution/engine.go:359-373 | An activity changes its status at most 3 * maxAttempts + 2 times in any run |
| Runs.AtMostSoManyClaims | internal/execution/engine.go:240-243 | An activity is claimed at most maxAttempts - attempt more times; attempt and token both count its claims |
| Runs.StatusIsMonotone | internal/execution/engine.go:318-347 | Completed and failed workflows stay so, and a cancelled one can only become failed; when it can, CancelIsFinal says |
| Cancellation.CancelIsFinal | internal/execution/engine.go:318-348 | After an accepted Cancel some sequence of calls fails the workflow if and only if one of its activities was running at that moment |
| Runs.ClaimsAfterCancel | internal/execution/engine.go:326-348 | After a cancellation only activities that were running at that moment can be claimed, each at most maxAttempts - attempt more times; that they can is ClaimedAgainAfterCancel |
| Cancellation.ClaimedAgainAfterCancel | internal/execution/engine.go:233-239 | After an accepted Cancel some sequence of calls hands out an activity of the workflow if and only if it was running then and had an attempt left |
| Cancellation.AttemptsCanBeUsedUp | internal/execution/engine.go:359-363 | Some sequence of calls hands out a running activity n more times if and only if it has n attempts left, whatever became of its workflow |
| Cancellation.GrantsCountAttempts | internal/execution/engine.go:240-243 | Over any sequence of calls an activity's attempt grows by exactly the number of calls that hand it out |
| Courses.ClaimUntil | internal/execution/engine.go:231-241 | Claims go by the least id, so a ready activity is handed out after all ready ones before it, and then under its next token and a full lease |
| Handouts.HandsOutIfOffered | internal/execution/engine.go:226-258 | Whatever the status of a workflow, some sequence of calls hands out work of it if and only if one of its activities is ready, or running with an attempt left, or waiting with every direct upstream completed or running under a live lease |
| Handouts.HandsOutAfterFailure | internal/execution/engine.go:298-324 | Right after the report that fails a workflow work of it is still handed out if and only if another activity was ready, running with an attempt left, or waiting for none but completed activities and such as a worker still holds, the failed one not among them |
| Handouts.HandsOutAfterPass | internal/execution/engine.go:358-374 | A pass, whichever workflows it fails, neither takes work off offer nor puts work on offer |
| Surprises.CancelledCanFail | internal/execution/engine.go:364-367 | From any new engine a run of calls in which a cancelled workflow becomes failed |
| Surprises.CancelledStillHandsOut | internal/execution/engine.go:233-239 | From any new engine a run of calls that hands out an activity of a cancelled workflow |
| Surprises.SilentFailure | internal/execution/engine.go:364-367 | From any new engine a run of calls after which a workflow is failed and its log has no workflow.failed |
| Surprises.FailedStillHandsOut | internal/execution/engine.go:233-239 | From any new engine a run of calls that hands out an activity of a failed workflow |
| Surprises.ReapedLeavesNoTrace | internal/execution/engine.go:406-415 | Right after a lease was reaped no stale rejection can be logged for its activity |
| Logs.MoveHistory | internal/execution/engine.go:473-483 | A move appends its own entries to the log of its own workflow and nothing anywhere else |
| Logs.KeepsPartitioned | internal/execution/engine.go:473-483 | Every move keeps: numbers increase inside each log, and all logs together use each of 1..nextEvent exactly once |
| Logs.LogsOnlyGrow | internal/execution/engine.go:473-483 | Along every run each log is a prefix of what it becomes later |
| Logs.KeepsAccounted | internal/execution/engine.go:246-375 | Every move keeps, per activity: claimed = completed + retried + failed + expired + expired for good + (1 if running), attempt = token = claimed |
| Logs.ReplaysAgree | internal/execution/engine.go:246-375 | What the replay function makes of a move's entries agrees with what the move made of the record |
| Logs.KeepsReplayable | internal/execution/engine.go:191-376 | Every move keeps: replaying a workflow's log gives the stored status, attempt and token of each activity and the workflow's status |
| Logs.LogsTellAll | internal/execution/engine.go:191-483 | In every state of every run the logs are numbered without gap or repeat, balance, and replay to the stored records |
| Announcements.WhoTellsOfFailure | internal/persistence/postgres.go:455-474 | In every run a workflow is failed exactly if its log tells of a failure report or a last expiry; it has workflow.failed for every failure where last expiries are announced, for reports only where they are not |
| Announcements.EngineFailureEvent | internal/execution/engine.go:318-367 | In every reachable engine state a log has workflow.failed exactly if a worker's failure report is in it; the silent failures are exactly those by last expiry alone |
| Topology.RunsInOrder | internal/execution/engine.go:289-294 | In every reachable log a claim comes after the completion of every direct upstream, and a completion after a claim |
| Topology.UpstreamFirst | internal/execution/engine.go:417-450 | A claim of an activity comes after the completion of every transitive upstream |
| Topology.CycleNeverClaimed | internal/execution/engine.go:168-174 | An activity on a dependency cycle is never claimed |
| Topology.DownstreamNeverClaimed | internal/execution/engine.go:168-174 | Nor is one downstream of a cycle |
| Topology.BehindCycleNeverAttempted | internal/execution/engine.go:195-198 | In every reachable state activities on or behind a cycle are at attempt 0 |
| Topology.BehindNeverRuns | internal/execution/engine.go:195-198 | In every reachable state an activity on or behind a cycle waits or is cancelled, at attempt 0 |
| Topology.CompletedIsAcyclic | internal/execution/engine.go:452-465 | A completed workflow has no dependency cycle |
| Ids.SortedLists | internal/execution/engine.go:485-492 | Sorting lists every id once, in ascending byte order |
| Ids.SortedUnique | internal/execution/engine.go:485-492 | There is only one ascending listing of a set of ids |
| Ids.ValueOfPadded | internal/execution/engine.go:208 | Reading back a number printed with at least six digits gives the number |
| Ids.IdsInjective | internal/execution/engine.go:179-208 | Different counters print as different workflow and activity ids |
| Ids.PrintedIds | internal/execution/engine.go:179-208 | The ids are "wf_" and "act_" followed by the decimal number, in at least six digits |
| Ids.SixDigitsInOrder | internal/execution/engine.go:208 | Up to 999,999 the ids of activities sort in order of creation |
| Ids.IdOrderIsCreationOrder | internal/execution/engine.go:485-492 | All ids up to n sort in order of creation if and only if n <= 999,999 |
| Ids.JoinsClash | internal/execution/engine.go:149 | Two namespaces can share a joined key if and only if they are equal or one of them followed by NUL starts the other |
| Ids.JoinInjective | internal/execution/engine.go:149 | For namespaces without NUL the joined key determines namespace and key |
| EngineSteps.Validate | internal/execution/engine.go:158-174 | The validation loops accept exactly the definitions with present, distinct names whose dependencies name activities |
| EngineSteps.CanStart | internal/execution/engine.go:146-190 | An accepted start draws fresh ids and takes a free key: the machine can launch it |
| EngineSteps.CanCancel | internal/execution/engine.go:330-345 | An accepted cancellation lists exactly the pending activities of its workflow |
| EngineSteps.CompletionLeads | internal/execution/engine.go:289-295 | An accepted completion, with its releases and the finish, is a sequence of moves within its clock readings |
| EngineRuns.StepLeads | internal/execution/engine.go:142-377 | Every call, under any clock, is a sequence of moves of the machine; between its first and last clock reading if the clock does not go back |
| EngineRuns.StepKeepsEngineInv | internal/execution/engine.go:117-134 | Every call keeps the invariant and the agreement of the engine's maps: members per workflow, issued ids, idempotency index |
| EngineRuns.EngineRunLeads | internal/execution/engine.go:142-404 | Every run of calls, under any clock, is a run of the machine; with non-decreasing times if the clock does not go back |
| EngineRuns.EveryEngineState | internal/execution/engine.go:142-404 | Under any clock, in every reachable state of the engine all invariants hold, the logs tell all, and the idempotency index is exactly the list of stored workflows with a key |
| EngineRuns.RefusedMessage | internal/execution/engine.go:260-309 | A message that does not hold the lease changes no record; it leaves one stale event, of the kind of the message, if the activity is running and nothing otherwise |
| EngineRuns.AcceptedIsLogged | internal/execution/engine.go:271-323 | An accepted heartbeat or failure report leaves exactly its own events: a retry exactly if the error can be retried and an attempt is left, otherwise the failures of activity and workflow |
| EngineRuns.GrantIsLogged | internal/execution/engine.go:246 | A granted claim leaves exactly one activity.claimed, in the log of its workflow |
| EngineRuns.OldTokensChangeNothing | internal/execution/engine.go:406-415 | After a newer claim every message under an older token is refused and changes no record, in every continuation; the error is StaleLease exactly while the activity is running |
| EngineRuns.ClaimIsOldestFirst | internal/execution/engine.go:231-241 | Claim grants the oldest ready match as long as at most 999,999 activities were created |
| EngineRuns.DuplicateMeansStored | internal/execution/engine.go:149-154 | For namespaces without NUL a start is a duplicate of w if and only if w is stored with that namespace and key |
| EngineRuns.RepeatedStart | internal/execution/engine.go:149-190 | Repeating an accepted start gives back its workflow from any later state |
| EngineRuns.ApplicationKeyIsUnique | internal/execution/engine.go:248-255 | Two receipts, granted at any two moments of a run, carry the same application key if and only if they are for the same activity |
| Starts.StartAccepts | internal/execution/engine.go:143-174 | A start is accepted if and only if the workflow has a namespace, a name and activities, whose names are present and distinct and whose dependencies name activities, and the joined key is free |
| Starts.StartStoresWorkflow | internal/execution/engine.go:176-190 | An accepted start stores one new workflow: the definition's namespace and name, the key, running; the others stay |
| Starts.StartStoresActivity | internal/execution/engine.go:194-220 | The k-th activity is stored under the k-th new id with the queue, dependencies, attempts and backoff that the definition names, the defaults only where it names nothing positive, and ready exactly if it depends on nothing |
| Starts.StartStoresNothingElse | internal/execution/engine.go:191-222 | An accepted start stores no other activity and changes none |
| Scheduler.OneByOneIsSimultaneous | internal/execution/engine.go:350-377 | Visiting the activities one by one, in any order, gives the records of one simultaneous update, and counts what it changes |
| Scheduler.CountIsDifferences | internal/execution/engine.go:369-373 | What a pass counts is exactly the records that differ afterwards |
| Scheduler.NothingLeft | internal/execution/engine.go:358-374 | After a pass no running lease is expired and no due retry with completed dependencies waits |
| Scheduler.PassIsIdempotent | internal/execution/engine.go:350-377 | A second pass at the same time does nothing, whatever the orders |
| Scheduler.EnginePass | internal/execution/engine.go:350-377 | The engine's pass over sorted ids is that simultaneous update and leaves nothing to do |
| Scheduler.TwoStages | internal/persistence/postgres.go:427-479 | Expiring all lapsed leases at once and then releasing all due retries at once is the same update with the same count |
| Progress.StepSettles | internal/execution/engine.go:293-294 | Under readings that do not go back no call leaves behind an untried activity whose dependencies are all completed, or a running workflow whose activities are all completed |
| Progress.EveryStateIsSettled | internal/execution/engine.go:289-295 | That holds in every reachable state of the engine, if its clock does not go back |
| Progress.OverlookedIfEarly | internal/execution/engine.go:417-431 | Under any clock a completion overlooks a member of its workflow if and only if it waits, never tried and with its dependencies completed, for a time after the reading taken for it |
| Surprises.ClockBackOverlooks | internal/execution/engine.go:422-424 | A run of calls under a clock that goes back, after which an activity is overlooked |
| Progress.StartReleasesNothing | internal/execution/engine.go:222 | The release at the end of Start never finds anything to release, under any clock |
| Progress.RunningWorkflowCanGoOn | internal/execution/engine.go:417-465 | In every reachable state a running workflow has an activity that is ready, running, or waiting only for its retry time, if and only if it has one that is not completed and behind no dependency cycle |
| Driver.RoundCompletesOne | internal/execution/engine.go:226-296 | A claim from any queue, completed within its lease, with readings that may advance, completes exactly one activity behind no cycle and leaves the rest untouched or released |
| Driver.DriveCompletesAll | internal/execution/engine.go:226-296 | With n activities open and behind no cycle a driver that completes within its leases is granted exactly n claims, after which exactly the activities behind no cycle are completed, and exactly the workflows without a cycle |
| Driver.StartedWorkflowsFinish | internal/execution/engine.go:142-296 | After starting any workflows, n of whose activities are on or behind no cycle, n claims complete exactly those n, and exactly the workflows without a cycle |
| Driver.CyclesAreAccepted | internal/execution/engine.go:168-174 | Every engine accepts a definition whose activity depends on itself, and files an activity that is behind a cycle |
| Clocks.Clock.Now | internal/execution/engine.go:125-140 | A reading of the clock, which any function can be; that of a steady clock is never before the previous one |
| Engine.Engine.constructor | internal/execution/engine.go:117-134 | A new engine is empty, with 30 seconds and 3 attempts where nothing positive was given |
| Engine.Engine.AppendEvent | internal/execution/engine.go:473-483 | One event with the next number is appended to the workflow's log |
| Engine.Engine.SortedActivityIDs | internal/execution/engine.go:485-492 | The ids in the one ascending order |
| Engine.Engine.DependenciesComplete | internal/execution/engine.go:433-450 | The nested loops find out whether every dependency names a sibling and all siblings of that name are completed |
| Engine.Engine.ReleaseIfDue | internal/execution/engine.go:419-429 | A retry that is due at its own clock reading is released, and anything else is left alone |
| Engine.Engine.ReleaseReady | internal/execution/engine.go:417-431 | The loop releases, in member order and each at its own clock reading, exactly what is due |
| Engine.Engine.CompleteWorkflowIfDone | internal/execution/engine.go:452-465 | A running workflow is finished exactly if all its activities are completed |
| Engine.Engine.Schedule | internal/execution/engine.go:194-220 | One activity record with the queue, dependencies, attempts and backoff that the definition names, defaults where it names nothing positive, listed under its workflow and announced |
| Engine.Engine.Start | internal/execution/engine.go:142-224 | An accepted start stores the workflow and, under its members in order, every activity as its definition says; no earlier record changes, and nothing at all when the answer is a duplicate or a rejection |
| Engine.Engine.Claim | internal/execution/engine.go:226-258 | The least ready id that matches the queue is granted under the next token and a full lease, or nothing exactly if there is none; the receipt carries workflow, name, attempt, token and expiry of the record, and workflow:name as the application key |
| Engine.Engine.ActivityLocked | internal/execution/engine.go:406-415 | Lets exactly running activities through; otherwise its answer is the answer to the message, whoever sent it |
| Engine.Engine.Heartbeat | internal/execution/engine.go:260-275 | The holder's lease runs from the new reading; a stale message is logged; anything else changes nothing |
| Engine.Engine.Complete | internal/execution/engine.go:277-296 | The holder's activity is completed, what became due is released, the workflow finished if done; a stale message is logged |
| Engine.Engine.Fail | internal/execution/engine.go:298-324 | A retry with backoff times attempt if the error can be retried and attempts are left, else activity and workflow fail with both events; a stale message is logged |
| Engine.Engine.Cancel | internal/execution/engine.go:326-348 | A running workflow and its pending activities are cancelled and announced in member order |
| Engine.Engine.Turn | internal/execution/engine.go:357-374 | One turn of the scheduler's loop reaps, fails or releases exactly when its case applies, and says whether it did |
| Engine.Engine.RunSchedulerPass | internal/execution/engine.go:350-377 | The pass visits all activities in sorted order at one reading and counts the changes |
| Tables.NoneOpenMeansDone | internal/persistence/postgres.go:676-685 | On well-formed rows the NOT EXISTS condition says that all dependencies are completed |
| Tables.MissingNameDiffers | internal/persistence/postgres.go:676-685 | Where a dependency names no sibling the two conditions differ |
| Tables.LapsedMeansExpired | internal/persistence/postgres.go:432 | The SQL expiry condition, NULL included, is the engine's |
| Tables.FirstExists | internal/persistence/postgres.go:208-210 | Among some ready rows there is one that ORDER BY created_at, id puts first |
| Tables.FirstIsEarliest | internal/persistence/postgres.go:208-210 | No row was created before the one that this order puts first, and among those created at the same time none has a lesser id |
| Statements.RepliesAgree | internal/persistence/postgres.go:618-661 | Both back ends answer every message alike, except that an activity that was never claimed makes the database fail in the scan |
| Statements.StartsCompared | internal/persistence/postgres.go:44-97 | Exactly when the two back ends answer the same start differently, whatever the namespaces hold |
| Statements.NoClashWithoutNul | internal/execution/engine.go:149 | For namespaces without NUL the engine finds no workflow of another namespace |
| Disagreements.TwiceDiffers | internal/persistence/postgres.go:165-173 | A new engine accepts a dependency listed twice, on which the insert of the database fails |
| Disagreements.InvalidDiffers | internal/persistence/postgres.go:44-97 | A repeated start with an invalid definition is a duplicate for the engine and invalid for the database |
| Disagreements.ClashDiffers | internal/execution/engine.go:149-154 | A start whose joined key is that of another namespace is a duplicate for the engine and begins a workflow in the database |
| Disagreements.SameStart | internal/persistence/postgres.go:44-190 | The states of the last two: a new engine and a new store make the same start at the same time, and the rows stand for the state of the engine |
| Statements.HitsAreDue | internal/persistence/postgres.go:670-687 | The release statement hits exactly the due retries |
| Statements.WrapsUp | internal/persistence/postgres.go:298-303 | Releasing the due retries and then finishing if done is the joint effect described by WrappedUp |
| Postgres.Postgres.constructor | internal/persistence/postgres.go:22-38 | The store begins without rows, with the engine's defaults |
| Postgres.Postgres.LockActivity | internal/persistence/postgres.go:618-657 | Lets exactly running, once-claimed activities through, with the lease judged by database time; otherwise its reply is the reply to the message, whoever sent it |
| Postgres.Postgres.InsertActivity | internal/persistence/postgres.go:141-176 | An activity row with its dependency rows and event stands for the new record; it fails exactly if a dependency is repeated |
| Postgres.Postgres.InsertActivities | internal/persistence/postgres.go:141-177 | All activities of a definition, or failure exactly if some dependency is repeated |
| Postgres.Postgres.Start | internal/persistence/postgres.go:44-190 | Start adds exactly one launch and the rows that the definition describes: queue or "default", attempts, backoff in milliseconds, dependency rows, the time of the start; earlier rows stay, and all of them when it is invalid, a duplicate, or rolled back |
| Postgres.Postgres.Pick | internal/persistence/postgres.go:203-212 | Of the ready rows that are not locked and match the queue, none was created before the one picked, and among those created at the same time none has a lesser id; none is picked exactly if there is none |
| Postgres.Postgres.Claim | internal/persistence/postgres.go:192-238 | The earliest created unlocked match, the least id among equals, is claimed under the next token for whole seconds of lease, or nothing exactly if there is none; the receipt carries workflow, name, attempt, token and expiry of the row, and workflow:name as the application key |
| Postgres.Postgres.Heartbeat | internal/persistence/postgres.go:240-269 | Done exactly for the holder under its token before the expiry; then the expiry moves by whole seconds of lease and no other row or column changes; one rejection for a stale message, nothing else otherwise |
| Postgres.Postgres.Complete | internal/persistence/postgres.go:271-305 | Done exactly for the holder under its token before the expiry; then the row is completed, exactly what became due is released and the workflow finished if done; one rejection for a stale message |
| Postgres.Postgres.Fail | internal/persistence/postgres.go:307-364 | For the holder the row waits for the rounded delay exactly if the error can be retried and an attempt is left, otherwise row and workflow fail; no other row changes; one rejection for a stale message |
| Postgres.Postgres.Cancel | internal/persistence/postgres.go:366-417 | A running workflow is cancelled with exactly its ready and waiting activities, announced in the order RETURNING gave them; otherwise nothing changes |
| Postgres.Postgres.ReleaseReady | internal/persistence/postgres.go:663-715 | The set-based release and its event loop are release moves of exactly the due retries, whatever the order, and count them |
| Postgres.Postgres.ExpireLeases | internal/persistence/postgres.go:427-474 | Exactly the running rows whose expiry has come become ready, or failed when no attempt is left; whatever the order of the event loop, it makes the expiry moves of the lapsed leases and counts them |
| Postgres.Postgres.CompleteWorkflowIfDone | internal/persistence/postgres.go:717-735 | In an atomic transaction the workflow is finished exactly if all its activities are completed |
| Postgres.Postgres.RunSchedulerPass | internal/persistence/postgres.go:419-484 | The pass ends in the records of the simultaneous update and counts the changed activities; row by row, lapsed leases are taken back or fail, and only waiting rows whose time has come may become ready |
| Postgres.EveryDatabaseState | internal/persistence/postgres.go:44-484 | After any transactions the rows stand for a reachable state of the machine, with all its invariants and its logs; a workflow is failed exactly if its log has workflow.failed |
| Postgres.CompletedRowWasReported | internal/persistence/postgres.go:271-305 | The row of a completed activity bears the token of the claim whose worker reported the completion, with no other claim or outcome in between |
| Postgres.CreatedAtStart | internal/persistence/postgres.go:203-210 | In any store the creation time of a row is the time of the one start that created it, so the order of claims is the order of starts |
| Agreement.ReleaseAllPasses | internal/execution/engine.go:417-431 | The engine's release loop, at one time, releases exactly what was due before it began |
| Agreement.CompletionsAgree | internal/persistence/postgres.go:288-304 | From the same records at the same time an accepted completion ends in the same records in both back ends |
| Agreement.PassesAgree | internal/persistence/postgres.go:419-484 | From the same records at the same time a pass ends in the same records with the same count in both back ends |
| Agreement.FailuresAgree | internal/persistence/postgres.go:322-364 | From the same record at the same time a failure report of the holder is retried in the database if and only if in the engine, which is if the error can be retried and an attempt is left; never later, and earlier by less than a second and a millisecond per attempt |
| Agreement.QueuesCompared | internal/persistence/postgres.go:154-157 | A claim matches an activity alike in both back ends if and only if the activity names a queue, or the claim asks for any queue or for "default" |
| Agreement.ClaimsCompared | internal/persistence/postgres.go:203-210 | After the same start in each back end an activity without dependencies is open to a claim in the database if and only if it is in the engine and it names a queue, or the claim asks for any queue or for "default" |
| PostgresStart.StepKeepsOk | internal/persistence/postgres.go:67-189 | Every statement of every session keeps the invariant of the concurrent Start |
| PostgresStart.OneWorkflowPerKey | migrations/001_init.sql:30-36 | In every interleaving at most one workflow is committed per namespace and key |
| PostgresStart.AnswersAgree | internal/persistence/postgres.go:122-137 | All successful answers for a key name the one committed workflow, and at most one says it was created |
| PostgresStart.NeverDidNotCommit | internal/persistence/postgres.go:575-577 | The "did not commit" branch is never taken |
| PostgresStart.RowsOnlyFromCommits | internal/persistence/postgres.go:178-188 | Every stored workflow comes from a session that committed it; failed starts leave no rows |
| PostgresStart.CommitsAreAtomicStarts | internal/persistence/postgres.go:183-189 | At its commit a start's key is free, and a workflow that was found is there when it is found: concurrent starts act like atomic ones |
| PostgresStart.LockedStartsNeverConflict | internal/persistence/postgres.go:591-600 | With the namespace row locked to the end of the transaction the conflict branch is never taken |
| PostgresStart.NoDeadlock | internal/persistence/postgres.go:122-137 | While a start is unfinished some session can take a step other than failing |
| Snapshot.StaleReleaseIsSound | internal/persistence/postgres.go:670-687 | A release judged on an older committed snapshot is allowed in the latest state |
| Snapshot.OwnCompletionOnTop | internal/persistence/postgres.go:288-301 | What a completing transaction sees, and what it changes, are again an older and a later state: a committed one each, with its own completion on top |
| Snapshot.StaleReleaseMisses | internal/persistence/postgres.go:676-685 | A due release is missed if and only if a direct upstream was not yet completed in the snapshot |
| Snapshot.MissedReleaseComesLater | internal/persistence/postgres.go:475 | What was missed stays due while it waits, and the next pass past its retry time makes it ready |
| Races.FinishedIffOneJudgedLast | internal/persistence/postgres.go:717-735 | When all completions are committed, the workflow is finished if and only if the schedule has a finishing statement that ran after the commits of all other transactions |
| Races.FinishedIffLastJudgeSawCommits | internal/persistence/postgres.go:717-735 | In terms of the schedule alone: finished if and only if the last finishing statement ran after the commit of every other activity |
| Races.JudgesOthers | internal/persistence/postgres.go:721-726 | The NOT EXISTS condition, on the committed rows with the own update on top, holds exactly if all other transactions have committed |
| Races.SerialCompletionsFinish | internal/persistence/postgres.go:298-304 | Completions that do not overlap always finish the workflow |
| Races.TwoLastCompletionsCanMiss | internal/persistence/postgres.go:717-735 | For any workflow whose last two activities are running, two overlapping completions at any reading within both leases leave all activities completed and the workflow running |
| LostFinish.TwoLeft | internal/persistence/postgres.go:44-238 | A start and two claims make a store in which, until the first lease ends, overlapping completions lose the finish |
| Races.RaceLeads | internal/persistence/postgres.go:271-305 | The committed rows of any interleaving stand for states that a run of the machine reaches, each completion at the reading of its transaction; the readings are in order if the transactions commit in the order of their readings |
| Races.MissedIffNoneJudgedLast | internal/persistence/postgres.go:301-303 | The state that the rows stand for is one with a missed completion if and only if no finishing statement ran last |
| Transactions.MissedForGood | internal/persistence/postgres.go:301-303 | A workflow whose completion was missed is changed, row and activities, by no later transaction other than its cancellation |
| Transactions.OnlyCancellationEnds | internal/persistence/postgres.go:366-417 | After a missed completion the workflow is running in exactly the committed states before its first cancellation |
| Worker.Runtime.Prepare | pkg/worker/worker.go:32-37 | The defaults: one slot, 250 milliseconds |
| Worker.Runtime.Turn | pkg/worker/worker.go:46-68 | One turn polls once and starts a handler, under the name of the activity granted, exactly if something was granted and the answer arrived, within the slots; it rests for the poll interval if there was nothing, and returns if the backend failed; what it does are events of the closed system |
| Worker.Runtime.Execute | pkg/worker/worker.go:67-80 | Exactly one message per grant: a final failure exactly if the worker has no handler of the name that the backend has for the activity, a retryable failure after an error, complete after success; it may be lost; the slot is freed; what it does are events of the closed system |
| Worker.CompletedBy | internal/execution/engine.go:277-296 | Only an accepted completion of its holder under its current token completes an activity |
| Worker.CompletedMeansHandled | pkg/worker/worker.go:73-77 | Whatever crashes or is lost, delayed, reordered or repeated, a completed activity's handler returned without error under the grant whose token the record bears |
| Worker.OneHolderPerToken | internal/execution/engine.go:240-254 | Each pair of activity and token is granted to one worker only |
| Worker.WithinConcurrency | pkg/worker/worker.go:38-62 | No worker runs more handlers at once than it has slots |
| Outcomes.FailsEarlyWithoutHandler | pkg/worker/worker.go:67-76 | In every run of the closed system an activity that failed with attempts left was claimed, under its token, by a worker without its handler, and one that waits for another attempt has a handler that erred under its token |
| StoreWorld.CompletedMeansHandled | internal/persistence/postgres.go:271-305 | In the database too: whatever crashes or is lost, delayed, reordered or repeated, a completed activity's handler returned without error under the grant whose token the row bears |
| StoreWorld.OneHolderPerToken | internal/persistence/postgres.go:192-238 | In the database too each pair of activity and token is granted to one worker only |
| Backoff.RetryDelayIsClose | internal/persistence/postgres.go:325-334 | The database's retry delay is never longer than the engine's, and shorter by less than one second and k milliseconds after attempt k |
| Backoff.RetryDelayIsExact | internal/persistence/postgres.go:150-163 | The delays are equal if and only if nothing is lost to milliseconds or to seconds |
| Backoff.CutsLessThanASecond | internal/persistence/postgres.go:200 | An interval in whole seconds is shorter than asked for by less than one second, and exact iff it is whole |
| Backoff.ShortLeaseLapsesAtOnce | internal/persistence/postgres.go:200-217 | A claim has lapsed at once if and only if the lease time is below one second |

## Left out

- HTTP server, client, authentication, JSON: plumbing around the calls; kept only as messages that can be lost, delayed, reordered or repeated.
- Commands, configuration, the scheduler's ticker, container set-up and the dashboard: a scheduler pass is a step that may happen at any time.
- The reads ListWorkflows and Workflow: they change nothing. SetClock: the clock of an engine may give any readings, which covers any functions installed one after the other.
- Event messages, event times, UpdatedAt, CompletedAt, heartbeat_at, LastError, SideEffectCount and the unused status timed_out: they decide nothing. The extra clock readings taken only for such times are left out with them.
- Pointers: the engine updates records behind pointers that nobody else holds; the model updates maps of records.
- Machine integers: counters, durations and times are unbounded, so the overflow of a 64-bit backoff product or of INT columns is not modelled.
- Floating point: Duration.Seconds() is taken as exact before it is cut to whole seconds, and timestamps are not cut to microseconds.
- SQL parsing, connection errors and the inside of the database: atomic transactions, row locks, unique keys and committed-snapshot reads are assumed. A message with an id that is not a UUID is not modelled.
- The rows of namespaces and workflow_definitions: names stand in their place.
- Sequence numbers used up by transactions that were rolled back: the database's event numbers are modelled without such gaps.
- Order of the database's claim: created_at and id order the rows that are not locked; which rows are locked is a parameter.
- Fairness and real time of goroutines: the endless loop of the worker is modelled turn by turn, and progress is stated for an explicit driver.
- Cancellation.CancelIsFinal: that a cancelled workflow can fail is shown by calls of the engine; that it cannot without a running activity is proved of the machine and so holds of the database as well.
- Handouts.HandsOutIfOffered: that an offer can be taken is shown by calls of the engine; that nothing else is handed out is proved of the machine and so holds of the database as well.
- Worker.Runtime.Execute: the result of the handler is a parameter; a handler that never returns is a crash in the closed system.
- Postgres.Postgres.constructor: asks for a steady clock, as the database's own clock is taken not to go back.
- StoreWorld.CompletedMeansHandled: a closed system of transactions by their moves; the runtime class itself is written against the engine.
- Worker.Runtime.Turn: the end of Run by its context, and the wait for running handlers on return, are not modelled.
- Snapshot.StaleReleaseIsSound: what a transaction sees is assumed to be an older committed state of the same run, with its own updates on top; that READ COMMITTED gives this is not derived.
- Postgres.Postgres.CompleteWorkflowIfDone: stated for atomic transactions; what overlapping ones can miss is in Races.
