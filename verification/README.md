# Verified models of LearnGraph's protocol cores

This project models the parts of the repository where correctness rests on the order of steps:
protocols that may be cut by a crash or interleaved with other callers, data that is maintained
incrementally, and arithmetic or text that must be exact. Each core is a module (or a small group of
modules) of its own, and none needs the others.

| core | files | what runs are made of |
|---|---|---|
| Deployment updater | `UpdateAgent`, `UpdateSafety`, `UpdateTheorems`, `UpdateOutcome`, `UpdateRequests`, `UpdateObject` | submit, one effect of the worker thread at a time, failing or partial Docker commands, crash, restart |
| Sandbox daemon ledger | `SandboxStore`, `ExecLedger`, `ExecReplay`, `DurableExec`, `DurableObject`, `OrphanSweep` | store transactions and runtime calls of any number of callers, reconciliation, crash |
| Write-gate lock | `GateLock` | the sections of acquire, release and the watchdog between two lock operations |
| Search projection | `SearchProjection` | message and session statements with their triggers, startup repair |
| Database cutover | `Cutover`, `ConnectionPools`, `PrimaryEngine` | reads and writes of durable facts by starting, connecting, repairing and driving processes, crash |
| Change capture | `Capture`, `CaptureRuns`, `CaptureObject` | statements, savepoints, commits that may fail, rollback, crash, seal, snapshot, catch-up |
| Row codec | `RowImage` | (functions on text) |
| Leases | `AdvisoryLease`, `MigrationLease` | read, insert, compare-and-swap, delete; journal, start, stop, sweep, crash |
| Money | `Money`, over `Powers` and `Texts` | (functions on text and numbers) |
| Rate limiter | `RateLimiter` | calls in clock order |
| Paths | `Paths` | (functions on text) |
| Scheduler | `Scheduler` | deferral questions; batches of the archive move |

A protocol is a `State` datatype with one `Step` per action and a `Run` over a list of actions; its
results are lemmas about `Run(Initial(..), run)` for every `run`. Where the source updates an object
in place, a class with those fields and methods is proved to do exactly what the step functions say,
so that the results about runs are results about the object.

`dafny verify dfyconfig.toml` checks everything.

## Assumptions

- Journal files and SQLite transactions are atomic: a crash leaves the old or the new contents.
- Docker, PostgreSQL and the runtime answer nondeterministically, within what each step says. While a job
  runs, nobody else changes containers or the Compose topology.
- An image is named by its content, so its labels never change.
- File leases work as on POSIX: shared against exclusive, released when the process dies.
- Payload hashes have no collisions; generated ids, tokens and transaction names are fresh.
- Every SQLite connection enforces foreign keys, except inside a schema rebuild that turns them off.
- Clocks do not run backwards, and calls of the rate limiter enter its lock in clock order.

## Where the code and its comments differ

- `release` of the write gate says that a connection handed to another thread can fully release the gate there, and that
  a stale holder's later release is a no-op. The first holds for a helper whose record is of the current epoch
  (`GateLock.HandOffReleasesIff`); the second holds when the first thread's record is of an older epoch or nobody holds
  the gate (`GateLock.LaterReleaseIsNoOpIff`). So a hand-off that works is never followed by a harmless late release while
  a third thread holds the gate (`GateLock.WorkingHandOffIsUnsafe`).
- `acquire` speaks of same-thread reentrancy. A hold lasts to its outermost release exactly when the thread never acquires
  while owning (`GateLock.HoldLastsIffNeverNested`, `GateLock.NestedHoldIsLost`).
- `get_execution` says that an exclusive supervisor directory prevents a second native launch. The directory does so until
  it is forgotten, and from then on the completion mark beside it; both are in the container, so a command can run again
  exactly when its container was replaced (`DurableExec.LaunchedOnceIff`, `DurableExec.LaunchedAtMostOnce`,
  `DurableExec.SecondStartHappens`, `DurableExec.SecondLaunchHappens`).
- A repeated key is meant to replay the stored result. It does as long as no failure is written over it, which can happen
  when reconciliation stores the result while the first caller still waits for the runtime (`ExecReplay.ResultReadsBackIff`,
  `ExecReplay.ResultIsSafeIff`, `ExecReplay.ResultIsLost`).
- The orphan sweep says that a concurrent create is never raced. That needs readable creation times and creates that
  insert their record strictly within the grace period (`OrphanSweep.SweepSparesRecordedIff`).
- The archive loop's two statements have a `LIMIT` without an order; nothing is lost or repeated exactly when both select
  the same rows (`Scheduler.ArchiveConservesIff`).

## Model

| member | source | states |
|---|---|---|
| UpdateTheorems.StatusesAreTrue | updater/agent.py:399-507 | at every crash point the journaled status is true: failed jobs touched nothing, succeeded jobs verified every service on its target, rolled back jobs verified every service on its previous image, and a job in the middle of a change has its previous images on disk |
| UpdateOutcome.FinalStatusesWereChecked | updater/agent.py:399-424 | in every run a succeeded or rolled back job was answered "done" while its thread stood at the checks and every container ran its target or its previous images |
| UpdateOutcome.JobSucceedsIff | updater/agent.py:426-475 | uninterrupted, a job ends succeeded exactly on its favourable answers in order: database reported, official image of the version pulled, deployment fits, pinned, reserved, backed up, override written, every differing container recreated, all checks done |
| UpdateOutcome.RestoreSucceedsIff | updater/agent.py:399-424 | uninterrupted, a restoration ends rolled back exactly when the override is written, every container that differs is recreated and all checks are done |
| UpdateRequests.SubmitQueuesIff | updater/agent.py:254-279 | a request is queued on disk, with this kind, target and policy, exactly when it is new, nothing is unfinished or reserved and it names a release or a succeeded job; else nothing changes |
| UpdateRequests.RequestQueuesOnce | updater/agent.py:257-260 | over every run, crashes included, a request id queues at most one job |
| UpdateRequests.ReservationEndsIff | updater/agent.py:344-350 | the reservation is on disk before it is asked for, and leaves the disk exactly when a release of that job is answered "done" |
| UpdateRequests.FailedReleaseIsRecorded | updater/agent.py:488-492 | a release that fails outside recovery is on disk as still to be cleaned up until one is done, and the status stays |
| UpdateRequests.VersionReads | updater/agent.py:25-37 | the spelling of two or three numerals, with or without "v", is read as their numbers, 0 for a missing third |
| UpdateRequests.VersionOf | updater/agent.py:25-37 | every text that is read as a version is such a spelling |
| UpdateRequests.VersionOrder | updater/agent.py:33-37 | versions are strictly and totally ordered, the major number first |
| UpdateTheorems.OneJobAtATime | updater/agent.py:245-279 | at most one job is unfinished on disk and in memory, and none while the updater is idle |
| UpdateTheorems.IdleDeploymentIsKnown | updater/agent.py:399-492 | while idle, the containers are the base deployment or exactly the target or previous images of the job that acted last; only a failed rollback leaves a mixture |
| UpdateTheorems.CompatibilityNeverChanges | updater/agent.py:314-318 | every image ever written, placed or verified carries the base deployment's compatibility label |
| UpdateTheorems.PostgresTargetsAreCapable | updater/agent.py:458-459 | a job that saw PostgreSQL and reached its backup has only capable targets |
| UpdateTheorems.UndoneVersionsAreListed | updater/agent.py:477-505 | an update that ended rolled back or failed to roll back is in the durable list of failed versions |
| UpdateTheorems.VersionsIncrease | updater/agent.py:442-443 | without rollback jobs the succeeded versions strictly increase and the running application is not behind them |
| UpdateTheorems.RecoveryFinishesEveryJob | updater/agent.py:494-507 | from every reachable crash an uninterrupted restart ends idle with every job in a final status, whatever Docker answers: nine answers a job and eight more suffice, besides any number of recreated containers |
| UpdateTheorems.RollbackRestoresThePast | updater/agent.py:438-440 | a rollback's targets are exactly the deployment that the named succeeded job replaced |
| UpdateTheorems.WorkTruthful | updater/agent.py:426-492 | every step of the worker keeps the evidence behind each final status |
| UpdateTheorems.WorkSettled | updater/agent.py:399-424 | every step keeps what the journal says about the containers, including partial replacements |
| UpdateSafety.DecideOk | updater/agent.py:281-507 | from each point of execute, restore and recover the next move keeps the record well formed, never leaves a final status and acts only while applying or rolling back |
| UpdateSafety.DecideEffect | updater/agent.py:399-492 | each move writes only recorded images and takes each status only at its own point |
| UpdateSafety.SubmitSane | updater/agent.py:254-279 | submit keeps the journal invariants in all of its branches |
| UpdateSafety.StepSane | updater/agent.py:254-507 | every action, crashes and restarts included, keeps the structural invariants of journal and thread |
| UpdateObject.Agent.Save | updater/agent.py:121-122 | the whole state reaches the disk |
| UpdateObject.Agent.Advance | updater/agent.py:426-507 | one effect of the thread on the object is one step of the machine, journal first |
| UpdateObject.Agent.Drive | updater/agent.py:426-507 | the thread's loop is the run of its steps |
| UpdateObject.Agent.Submit | updater/agent.py:254-279 | submit on the object is the machine's submit |
| UpdateObject.Agent.CrashAndRestart | updater/agent.py:494-507 | a crash loses memory and thread but not disk and containers, and restart begins recovery |
| SandboxStore.SandboxdStore.Begin | sandboxd/sandboxd/store.py:299-328 | the first caller claims the slot, every other one gets the stored row and changes nothing |
| SandboxStore.SandboxdStore.Complete | sandboxd/sandboxd/store.py:330-345 | only state and document of the one slot change |
| SandboxStore.SandboxdStore.Create | sandboxd/sandboxd/store.py:349-364 | inserts a running execution, or nothing when the id exists |
| SandboxStore.SandboxdStore.Finish | sandboxd/sandboxd/store.py:366-388 | stores the result and gives it to every slot that carries the execution id |
| SandboxStore.SandboxdStore.Cancel | sandboxd/sandboxd/store.py:412-429 | marks a live execution and no terminal one |
| SandboxStore.SandboxdStore.Cleaned | sandboxd/sandboxd/store.py:401-403 | sets only the cleaned flag |
| ExecLedger.AtMostOneCallPerSlot | sandboxd/sandboxd/controller.py:777-891 | over every interleaving of callers, retries, reconciliation and crashes the runtime is called at most once per slot |
| ExecLedger.ResultsAreTheOneAnswer | sandboxd/sandboxd/controller.py:789-797 | every result handed out, first or repeated, is the runtime's answer to the slot's one call with the caller's own payload |
| ExecLedger.RepeatRunsNothing | sandboxd/sandboxd/controller.py:787-809 | a repeated key runs nothing and changes nothing: conflict exactly for another payload, a result exactly when the payload is the slot's own and the slot stores that result as succeeded, else "indeterminate" |
| ExecLedger.StepKeeps | sandboxd/sandboxd/controller.py:777-891 | every action keeps the ledger invariant |
| ExecReplay.ResultReadsBackIff | sandboxd/sandboxd/controller.py:787-809 | once a result was handed out for a slot, every repeat of key and payload after every continuation gets that result, exactly as long as no failure was written into the slot; then "indeterminate" |
| ExecReplay.ResultIsSafeIff | sandboxd/sandboxd/controller.py:848-857 | a stored result survives every continuation exactly when the caller of the slot's call is neither still in the runtime nor holding an error from it |
| ExecReplay.FirstAnswerIsSafe | sandboxd/sandboxd/controller.py:877-891 | the answer a caller gives to its own call is stored and survives everything later |
| ExecReplay.ResultIsLost | sandboxd/sandboxd/controller.py:848-857 | a run in which reconciliation stores a result, a repeat reads it, and the first caller's error report erases it |
| DurableExec.ForgottenMeansStored | sandboxd/sandboxd/controller.py:954-989 | a forgotten or cleaned execution always has its stored result |
| DurableExec.ResultsNeverChange | sandboxd/sandboxd/controller.py:904-1019 | with a stable terminal answer a stored result is never cleared nor changed and every caller gets that one |
| DurableExec.LaunchPendingIsTrue | sandboxd/sandboxd/controller.py:948-965 | at the moment of a "launch pending" answer there is neither a result nor a forget |
| DurableExec.StoredResultIsAnswered | sandboxd/sandboxd/controller.py:939-947 | an owner's get answers a stored result in one step, and it is the supervisor's answer |
| DurableExec.SweepCleansIff | sandboxd/sandboxd/controller.py:975-989 | a sweep of a finished execution marks it cleaned exactly when the runtime forgets its supervisor or its sandbox is gone, and keeps its result |
| DurableExec.DispatchLaunchesAgainIff | sandboxd/sandboxd/controller.py:917-936 | a dispatch starts another supervisor exactly when the earlier one was forgotten or lost and none is there, and runs the command again exactly when the completion mark is lost too; without a lost container it has run exactly once, and without a stored result one supervisor was started |
| DurableExec.LaunchedOnceIff | sandboxd/sandboxd/controller.py:917-936 | over a whole run one supervisor is started at most exactly when no dispatch comes after its end was forgotten or lost, and the command runs at most once exactly when no dispatch finds the completion mark lost as well |
| DurableExec.LaunchedAtMostOnce | sandboxd/sandboxd/runtime/supervisor.py:11-28 | over every run the command of an execution runs at most once while its container is not replaced, late dispatches included |
| DurableExec.SecondStartHappens | sandboxd/sandboxd/controller.py:904-937 | from the empty daemon, two callers of one execution start two supervisors, and the second finds the completion mark and runs nothing |
| DurableExec.SecondLaunchHappens | sandboxd/sandboxd/controller.py:516-540 | from the empty daemon, a start repeated after its container was replaced runs the command again |
| DurableExec.PayloadIsBound | sandboxd/sandboxd/controller.py:904-916 | after every continuation a start under an admitted key is refused exactly for another payload, and changes no table and no supervisor |
| DurableExec.StepKeeps | sandboxd/sandboxd/controller.py:904-1019 | every action keeps results, forgets and launch counts in step |
| DurableObject.GetRuns | sandboxd/sandboxd/controller.py:939-965 | an uninterrupted get is five steps of the machine with this outcome in each branch |
| DurableObject.Controller.ForgetExecution | sandboxd/sandboxd/controller.py:982-989 | removes the supervisor and marks the row, or neither when the runtime refuses |
| DurableObject.Controller.GetExecution | sandboxd/sandboxd/controller.py:939-965 | the method does what one caller of the interleaved machine does alone |
| DurableObject.Controller.CancelExecution | sandboxd/sandboxd/controller.py:991-1019 | the method does what one caller of the interleaved machine does alone, and answers "cancelling" exactly when it marked the row, else the status it had read |
| OrphanSweep.SweepSparesRecordedIff | sandboxd/sandboxd/controller.py:1075-1103 | no interleaving of creates, rebuilds, deletes and sweeps deletes an object whose record exists, if and only if creation times are readable and every create inserts within the grace period |
| OrphanSweep.DeletedIsNeverRecorded | sandboxd/sandboxd/controller.py:427-451 | under the discipline an id that a sweep may delete has no record then and in everything that can happen later, so no create is cut off |
| OrphanSweep.InsertKeeps | sandboxd/sandboxd/controller.py:427-451 | a record that a sweep has not seen belongs to an object younger than its cutoff, because the cutoff is taken before the listing |
| OrphanSweep.SweepKeeps | sandboxd/sandboxd/controller.py:1084-1102 | each step of a sweep keeps that nothing recorded was lost |
| OrphanSweep.UndisciplinedHarms | sandboxd/sandboxd/controller.py:1084-1102 | otherwise one concrete interleaving deletes a recorded sandbox |
| OrphanSweep.Daemon.ReconcileOrphans | sandboxd/sandboxd/controller.py:1075-1103 | an uninterrupted sweep deletes exactly the old unrecorded objects, less the failing deletions, and counts them |
| GateLock.EveryRunConserves | backend/app/core/database.py:263-380 | count plus threads in transit is one exactly when the mutex is locked; the count is 0 or 1, held-since is set exactly at 1, and the mutex is locked whenever it is about to be freed |
| GateLock.AcquireGrantsIff | backend/app/core/database.py:271-300 | in every reachable state an acquire is granted at once exactly when it is reentrant in the current epoch or the mutex is free; else a blocking one waits and another is refused and leaves the lock alone |
| GateLock.HoldIsDated | backend/app/core/database.py:263-269 | in every reachable state held-since and owner are the clock and the thread of the acquire or record that began the present hold, found in the run, and unset when there is none |
| GateLock.OneOwnerPerEpoch | backend/app/core/database.py:252-332 | with disciplined callers at most one thread owns the lock in the current epoch, one does exactly when the count is 1, and it is the recorded owner |
| GateLock.HoldLastsIff | backend/app/core/database.py:252-380 | from any reachable owner on, every disciplined continuation keeps it the owner at every step, with count 1 and its name, exactly when it does not release and no watchdog round comes the threshold or more after the acquire that began the hold: late releases of force-cleared threads end nothing |
| GateLock.LaterReleaseIsNoOpIff | backend/app/core/database.py:302-330 | in every reachable state a release leaves the lock alone exactly when the thread's record is of an older epoch or nobody holds the lock |
| GateLock.StepEndsHoldIff | backend/app/core/database.py:252-380 | one disciplined step ends a hold exactly when it is the owner's release or a watchdog round at its threshold |
| GateLock.WatchdogUnwedges | backend/app/core/database.py:344-380 | in every reachable state, careless callers included, a watchdog round that comes the threshold or more after the action that began the hold frees the gate for any idle thread, and a younger hold is left alone |
| GateLock.HoldLastsIffNeverNested | backend/app/core/database.py:271-332 | between a thread's outermost acquire and release its hold lasts exactly when it never acquires while owning |
| GateLock.NoReleaseKeepsTheHold | backend/app/core/database.py:302-330 | in every reachable state a release by a thread with a current record ends the hold, however deep that thread is nested |
| GateLock.NestedHoldIsLost | backend/app/core/database.py:275-329 | a nested acquire and one release leave the gate free while the thread still believes it holds it |
| GateLock.HandOffReleasesIff | backend/app/core/database.py:302-332 | a release by another thread frees the gate exactly when that thread's record is of the current epoch |
| GateLock.WorkingHandOffIsUnsafe | backend/app/core/database.py:302-332 | every hand-off that frees the gate leaves the first thread's record current, so its late release ends a third thread's hold and its acquire is let in beside it; with an older helper's record the hold stays |
| GateLock.HandOffHappens | backend/app/core/database.py:271-332 | a disciplined run to such a hand-off |
| GateLock.StepConserves | backend/app/core/database.py:263-380 | every section keeps the conservation law, whatever the callers do |
| GateLock.CrossThreadRLock.SyncTls | backend/app/core/database.py:252-261 | a thread record of an older epoch is reset |
| GateLock.CrossThreadRLock.Mark | backend/app/core/database.py:263-269 | counts the hold and the thread; the start and the owner are this call's clock and thread where none was recorded, and stay otherwise |
| GateLock.CrossThreadRLock.AcquireEntry | backend/app/core/database.py:271-292 | the section of acquire before the wait is the machine's step |
| GateLock.CrossThreadRLock.AcquireRecord | backend/app/core/database.py:297-300 | the section after the wait is the machine's step |
| GateLock.CrossThreadRLock.ReleaseSection | backend/app/core/database.py:302-330 | the section of release under the state lock is the machine's step |
| GateLock.CrossThreadRLock.FreeMutex | backend/app/core/database.py:331-332 | the deferred unlock is the machine's step |
| GateLock.CrossThreadRLock.WatchdogSection | backend/app/core/database.py:344-368 | the watchdog's section is the machine's step |
| SearchProjection.EveryRunIsExact | backend/app/core/database.py:1335-1410 | from an exact projection every sequence of statements, in any order, leaves exactly the plain join, with the foreign key from messages to sessions enforced |
| SearchProjection.KeyMakesAdmissible | backend/app/domain/models.py:674-674 | a statement that the foreign key does not reject is one that the projection can bear, and keeps the key |
| SearchProjection.UncheckedRunIsExact | backend/app/core/database.py:1335-1410 | without enforcement the projection stays exact over every run whose sessions come before their completed messages and go after them |
| SearchProjection.ExactIsCorrect | backend/app/core/database.py:1426-1435 | being the join as a multiset is the same as sound rows, one per message, none missing |
| SearchProjection.TermsHold | backend/app/core/database.py:1343-1347 | the search text is title, role, goal, graph and content in this order, whole and a blank apart, a missing one empty |
| SearchProjection.SkippedUpdateIsSound | backend/app/core/database.py:1352-1377 | the update trigger with its skip leaves what an unconditional trigger would leave |
| SearchProjection.UpdateMessageKeeps | backend/app/core/database.py:1359-1377 | a message update keeps the projection correct, moves between sessions included |
| SearchProjection.UpdateSessionKeeps | backend/app/core/database.py:1390-1410 | retitling in place keeps the projection correct |
| SearchProjection.InsertSessionKeepsIff | backend/app/core/database.py:1335-1410 | what the triggers leave to the foreign key: inserting a session keeps the projection exactly when no completed message already refers to it |
| SearchProjection.DeleteSessionKeepsIff | backend/app/core/database.py:1335-1410 | what the triggers leave to the foreign key: deleting a session keeps the projection exactly when no projected message refers to it |
| SearchProjection.RepairRestoresIff | backend/app/core/database.py:1494-1513 | startup restores the join if and only if the surviving rows were correct and unrepeated |
| SearchProjection.SecondStartupWritesNothing | backend/app/core/database.py:1453-1513 | after any startup both probes of the next one find nothing |
| SearchProjection.Database.OnInsertMessage | backend/app/core/database.py:1336-1351 | insert and its trigger on the tables |
| SearchProjection.Database.OnUpdateMessage | backend/app/core/database.py:1359-1377 | update and its trigger on the tables |
| SearchProjection.Database.OnDeleteMessage | backend/app/core/database.py:1378-1383 | delete and its trigger on the tables |
| SearchProjection.Database.OnUpdateSession | backend/app/core/database.py:1390-1410 | the row by row retitling is the function on the whole table |
| SearchProjection.Database.Backfill | backend/app/core/database.py:1426-1435 | appends one join row for each missing message and nothing else |
| SearchProjection.Database.EnsureProjection | backend/app/core/database.py:1494-1513 | prune and backfill leave a repaired table and report whether they wrote |
| Cutover.NeverBothDatabases | backend/app/core/database_routing.py:189-410 | no SQLite connection and no PostgreSQL engine exist at the same time in any processes, and an engine's job is the fence's |
| Cutover.SqliteOnlyWhileUnsealed | backend/app/core/database_routing.py:248-345 | every start and every connection on SQLite is decided while the fence is unsealed |
| Cutover.ActivatedNeverReturns | backend/app/core/database_routing.py:388-410 | once on PostgreSQL, a process is for ever down or on that PostgreSQL, restarts included |
| Cutover.CutoverRunsAlone | backend/app/core/database_routing.py:118-155 | while the cutover body runs no process holds a leased connection or decides its route, and there is one executor |
| Cutover.StartupResolves | backend/app/core/database_routing.py:189-273 | from every reachable state an undisturbed start with intact proofs succeeds, on PostgreSQL if and only if the fence is sealed |
| Cutover.UndisturbedCutoverIff | backend/app/services/database_migration.py:859-922 | an undisturbed cutover ends sealed, with the manifest active and the process on the job's PostgreSQL, exactly when the target's marker is missing or its own; else unsealed and in doubt |
| Cutover.ThinkKeeps | backend/app/core/database_routing.py:189-345 | every step of starting, connecting and recovering keeps manifest, marker and fence consistent |
| Cutover.DriveTurnKeeps | backend/app/services/database_migration.py:902-930 | pending manifest, marker, fence, activation and final manifest, in this order, keep them consistent at every crash point |
| Cutover.StepKeeps | backend/app/core/database_routing.py:189-410 | every action of every process keeps the invariant |
| ConnectionPools.CounterCountsMarks | backend/app/core/database_routing.py:291-308 | over every sequence of connects, check-ins and invalidations the counter exceeds the marked records by exactly the connects that hit a marked record |
| ConnectionPools.ZeroMeansNothingBorrowed | backend/app/core/database_routing.py:291-308 | without such connects the counter is zero exactly when nothing is out |
| ConnectionPools.LeaseLastsFromConnectToRelease | backend/app/core/database_routing.py:298-346 | over every sequence of events a record carries a lease exactly from a connect that took one to its first release, and every SQLite connection that is out carries one |
| ConnectionPools.DrainedMeansNothingOut | backend/app/core/database_routing.py:322-386 | in every run of all processes and pools, no record carries a lease or a SQLite connection while the cutover body runs, and a SQLite connection is out only while the fence is unsealed |
| ConnectionPools.JointStepKeeps | backend/app/core/database_routing.py:291-346 | the counts of the cutover machine are the sizes of the pools' lease sets, through every step |
| PrimaryEngine.Facts.RecoverActivation | backend/app/core/database_routing.py:189-240 | the route and the manifest after recovery, in each branch |
| PrimaryEngine.Facts.StartupUrl | backend/app/core/database_routing.py:248-273 | the method does what an undisturbed starting thread of the machine does |
| PrimaryEngine.RoutedEngine.OnCheckout | backend/app/core/database_routing.py:292-296 | counts and marks one record |
| PrimaryEngine.RoutedEngine.OnRelease | backend/app/core/database_routing.py:298-308 | closes the lease of a leased record and uncounts a marked one, and does nothing the second time |
| PrimaryEngine.RoutedEngine.Connect | backend/app/core/database_routing.py:322-346 | from SQLite, by manifest, fence and marker: when it succeeds, on which engine it ends and what the manifest is afterwards, as an undisturbed connecting thread of the machine; a success on SQLite means an unsealed fence; the record is checked out with the lease it took, and a failure changes no record |
| PrimaryEngine.RoutedEngine.Activate | backend/app/core/database_routing.py:388-410 | only PostgreSQL, and no second target |
| PrimaryEngine.RoutedEngine.RefreshRoute | backend/app/core/database_routing.py:310-320 | the method does what an undisturbed connecting thread of the machine does |
| PrimaryEngine.RepairSettles | backend/app/services/database_migration.py:935-945 | an undisturbed repair follows the manifest to the side the fence decides and clears the doubt, or changes nothing when a proof fails |
| PrimaryEngine.RoutedEngine.Drain | backend/app/core/database_routing.py:369-386 | hands over exactly when every borrowed record is released before the deadline and the exclusive lease is granted, with no record leased; a failure lowers the barrier and changes no route |
| Capture.ImagesCarryTheEffect | backend/app/services/database_migration.py:684-712 | replaying a statement's row images has exactly the statement's effect: upserts, key changes, replaced rows and keyless archives included |
| Capture.JoinIsRowOrder | backend/app/services/database_migration.py:669-682 | when every row is tracked, commit order and row order within it is the journal's own row order |
| CaptureRuns.ReplayRebuildsTheSource | backend/app/core/sqlite_capture.py:41-100 | over every run with failing commits, rollbacks, savepoints and crashes, a caught-up target whose check passes equals the source tables |
| CaptureRuns.SealedIsFrozen | backend/app/core/sqlite_capture.py:84-100 | after sealing, tables, row journal and commit rows never change |
| CaptureRuns.CarefulReplayIsExact | backend/app/core/sqlite_capture.py:52-65 | when every failed commit is followed by a rollback or a crash before anything else of its writer, a caught-up target is exact without the check |
| CaptureRuns.CheckPassesIff | backend/app/services/database_migration.py:883-884 | the driver's check passes exactly when no transaction landed since the snapshot with a row from before a refused commit that was not rolled back |
| CaptureRuns.RetriedCommitIsMissed | backend/app/core/sqlite_capture.py:52-60 | a commit tried again after its journal row failed lands a row that the replay misses |
| CaptureRuns.StepKeeps | backend/app/core/sqlite_capture.py:41-100 | every action keeps journal, tables and target in step |
| CaptureObject.Connection.TransactionId | backend/app/core/sqlite_capture.py:44-47 | one fresh name per transaction |
| CaptureObject.Connection.Fire | backend/app/core/sqlite_capture.py:94-100 | the triggers append the images under the transaction's name |
| CaptureObject.Connection.Statement | backend/app/core/sqlite_capture.py:94-100 | a statement changes tables and journal together, or nothing when sealed |
| CaptureObject.Connection.OnCommit | backend/app/core/sqlite_capture.py:52-60 | the commit hook journals the name and gives it up in either case |
| CaptureObject.Connection.OnRollback | backend/app/core/sqlite_capture.py:62-65 | tables and journals are the durable ones again and the name is given up |
| CaptureObject.ReplayChanges | backend/app/services/database_migration.py:684-725 | the loop over changes is the replay function |
| CaptureObject.CatchUpInBatches | backend/app/services/database_migration.py:669-682 | bounded batches end where one replay of the whole journal ends |
| RowImage.Image | backend/app/core/sqlite_capture.py:67-82 | for every width the spliced text is the text of one object |
| RowImage.DecodeInvertsEncode | backend/app/core/sqlite_capture.py:102-107 | decoding the image of any row gives that row |
| RowImage.ImagesAreUnambiguous | backend/app/core/sqlite_capture.py:67-107 | no two rows share an image, so text that spells the blob wrapper stays text |
| RowImage.DictHolds | backend/app/core/sqlite_capture.py:102-107 | with distinct columns the decoded dictionary holds each column's value |
| AdvisoryLease.LaterClaimsWait | backend/app/core/process_lock.py:27-97 | of two claims the later committed after the earlier expired or was released with its own token |
| AdvisoryLease.AtMostOneLive | backend/app/core/process_lock.py:27-97 | at most one claim is live and it is the one in the row |
| AdvisoryLease.StaleReleaseRemovesNothing | backend/app/core/process_lock.py:87-97 | a release ends the live claim exactly when its token is that claim's |
| AdvisoryLease.AloneSucceedsIff | backend/app/core/process_lock.py:27-84 | an undisturbed claim succeeds exactly when no claim is live |
| AdvisoryLease.ClaimsLastTheirTtl | backend/app/core/process_lock.py:39-41 | every claim expires the time to live after its own call, however long it took to commit |
| AdvisoryLease.TickKeeps | backend/app/core/process_lock.py:43-79 | read, insert race and compare-and-swap keep the history of claims consistent |
| AdvisoryLease.LeaseTable.Acquire | backend/app/core/process_lock.py:27-84 | the claim on the table, all names: when it succeeds and what it writes |
| AdvisoryLease.LeaseTable.Release | backend/app/core/process_lock.py:87-97 | removes exactly the row with that name and token |
| MigrationLease.StartedMeansLeased | sandboxd/sandboxd/migration_agent.py:113-203 | a container that this daemon started runs only while the file on disk names it, at every crash point |
| MigrationLease.TakeoverNeedsExpiry | sandboxd/sandboxd/migration_agent.py:122-124 | the file passes to another job without an unlink only after expiry |
| MigrationLease.SweepEndsExpiredIff | sandboxd/sandboxd/migration_agent.py:205-212 | a sweep of an expired lease unlinks it exactly when the labelled container is reclaimable, and then nothing started is running |
| MigrationLease.StartSucceedsIff | sandboxd/sandboxd/migration_agent.py:120-177 | an undisturbed start ends with the only labelled container running for the job under a lease of the idle time from now exactly when it is startable; else lease and containers stay |
| MigrationLease.StepKeeps | sandboxd/sandboxd/migration_agent.py:113-212 | every step, crash and outside change keeps the lease invariant |
| MigrationLease.ManagedMigrationAgent.Stop | sandboxd/sandboxd/migration_agent.py:179-203 | the method is the run of the stop steps |
| MigrationLease.ManagedMigrationAgent.Sweep | sandboxd/sandboxd/migration_agent.py:205-212 | the method is the run of the sweep steps, with its five second throttle |
| MigrationLease.ManagedMigrationAgent.Prepare | sandboxd/sandboxd/migration_agent.py:122-159 | finds, replaces or creates the one container as the start steps do |
| MigrationLease.ManagedMigrationAgent.Begin | sandboxd/sandboxd/migration_agent.py:120-177 | the part after the sweep is the run of the start steps, and a success leaves the job's leased container running |
| MigrationLease.ManagedMigrationAgent.Start | sandboxd/sandboxd/migration_agent.py:113-177 | a sweep and then the run of the start steps |
| Money.AcceptedIff | backend/app/core/money.py:7-18 | accepted are exactly the non-negative decimals with at most 96 places below ten to the 64; the digit limit never decides |
| Money.ParseReadsIff | backend/app/core/money.py:7-10 | a text is read exactly when, cleaned, it spells sign, digits, point and exponent, and then as the decimal these denote |
| Money.SpellingReads | backend/app/core/money.py:7-10 | such a spelling is clean and is read as it stands |
| Money.ScientificReads | backend/app/core/money.py:7-10 | with point and exponent: the sign, the number of all digits, and the signed exponent less the places |
| Money.PointedReads | backend/app/core/money.py:7-10 | with a point and no exponent |
| Money.WholeReads | backend/app/core/money.py:7-10 | without a point, with and without an exponent |
| Money.CleanText | backend/app/core/money.py:7-10 | the spaces around a text and the underscores within it are dropped, and nothing else |
| Money.TextIsCanonical | backend/app/core/money.py:21-26 | the text of an accepted amount depends on its value only |
| Money.CanonicalReadsBack | backend/app/core/money.py:7-26 | the canonical text of a value is accepted again as that value |
| Money.AmountTextIsCanonical | backend/app/core/money.py:21-26 | equal values exactly when equal texts; the text is accepted, keeps the value and is its own text |
| Money.AddIsExact | backend/app/core/money.py:37-40 | no partial sum of fewer than ten to the 96 amounts is rounded to the 256 digits |
| Money.SumIsExact | backend/app/core/money.py:37-40 | the sum is the canonical text of the exact total, or an error exactly for a rejected amount or a total of ten to the 64 |
| Money.SumIgnoresOrder | backend/app/core/money.py:37-40 | every order of the amounts gives the same answer |
| RateLimiter.NoWindowOverflows | backend/app/core/rate_limit.py:30-45 | no window of the configured length, wherever it starts, holds more than the maximum of accepted hits |
| RateLimiter.SlidingWindowRateLimiter.Allow | backend/app/core/rate_limit.py:30-45 | a call is accepted exactly when the full history holds fewer than the maximum in the closed window ending now |
| RateLimiter.SlidingWindowRateLimiter.EvictStale | backend/app/core/rate_limit.py:41-44 | deletes exactly the keys whose newest hit left the window, and no later answer changes |
| RateLimiter.DropOld | backend/app/core/rate_limit.py:35-36 | the pop loop leaves exactly the hits in the window |
| RateLimiter.StaleIsFaithful | backend/app/core/rate_limit.py:41-44 | dropping a stale bucket cannot be told from keeping it |
| Paths.AcceptsIff | sandboxd/sandboxd/paths.py:23-52 | a path is accepted exactly when it has no NUL, backslash or leading slash and leads into the workspace, and the answer spells the place |
| Paths.AcceptedIsClean | sandboxd/sandboxd/paths.py:23-52 | an accepted path is "." when allowed or non-empty segments none of which is empty, "." or "..", leading where the input leads |
| Paths.ValidateIsIdempotent | sandboxd/sandboxd/paths.py:23-52 | validating an accepted path again returns it unchanged |
| Paths.SameAnswerIffSamePlace | sandboxd/sandboxd/paths.py:23-52 | two accepted inputs have the same answer exactly when they lead to the same place |
| Paths.JoinStaysInside | sandboxd/sandboxd/paths.py:55-58 | a joined path leads where following its segments in turn leads, strictly inside the workspace |
| Paths.KeepAllWalks | sandboxd/sandboxd/paths.py:43-43 | normalisation leaves ".." only as a leading run, and that run and the names after it are the place reached |
| Scheduler.NeverStarves | backend/app/core/scheduler.py:74-93 | streams put a sweep off at most the configured number of times in a row, and can do so exactly that often |
| Scheduler.Deferral.ShouldDefer | backend/app/core/scheduler.py:74-93 | the answer and the counter of one sweep, and no other counter changes |
| Scheduler.Deferral.NoteRan | backend/app/core/scheduler.py:96-98 | the counter of one sweep is reset |
| Scheduler.ArchiveConservesIff | backend/app/core/scheduler.py:1395-1432 | the batched move loses and repeats nothing exactly when INSERT and DELETE select the same rows in each round |
| Scheduler.DisagreeingPlansLose | backend/app/core/scheduler.py:1395-1432 | two admissible plans that lose one row and repeat another |
| Scheduler.ArchiveLeavesNothing | backend/app/core/scheduler.py:1395-1432 | the move ends with no eligible row left and keeps every other row |
| Scheduler.RunArchive | backend/app/core/scheduler.py:1395-1432 | the loop is the move, ends, and counts what it inserted |

## Left out

- HTTP layers, user interface, configuration, key rotation, admission gate, currency codes and `input_amount_text`: thin or easy.
- Docker, SQLAlchemy, PostgreSQL, Fernet: abstract steps only. Backup contents and the maintenance tool's own work are not modelled.
- UpdateTheorems.StatusesAreTrue: a child `compose up` is taken to end with the updater; one that goes on replacing services after the updater died is not covered.
- UpdateTheorems.IdleDeploymentIsKnown: the same limit, a child that outlives the updater may still change containers.
- updater `poll` and `check`: the automatic submit between their check and `submit` is not modelled; `submit` may come at any time.
- updater `execute`: saving the reservation mark, the status and the retained tags are one step each; a crash inside `docker tag` changes nothing modelled.
- updater `version`: non-ASCII decimal digits, which Python's pattern would accept, are not versions in the model.
- controller `_lock`: not modelled, so more interleavings are covered than can happen. Fences and expiry in `_require` are one check.
- ExecLedger.AtMostOneCallPerSlot: `_exec_common` and `start_agent_execution` are separate models; ids chosen by clients are taken to differ from generated ones.
- DurableExec.ResultsNeverChange: a second run of an execution id is taken to end with the same answer as the first.
- `start_agent_execution` and `_exec_common` have no method of their own: their steps are separated by other callers' steps, so they are modelled as steps.
- DurableExec.LaunchedOnceIff: a replaced container loses the supervisors and marks of its recorded executions at once; the steps inside one supervisor before it runs the command are one step.
- DurableObject.Controller.CancelExecution: the best-effort signal to the supervisor has no step of its own, since a supervisor may end at any moment.
- OrphanSweep.SweepSparesRecordedIff: time is in whole ticks, one clock serves the daemon and the runtime, and an object is dated when it appears.
- Cutover.StartupResolves: the offline site restore, the second read of the fence and the Windows branches of the lease are not modelled. Connections are counted there and named in `ConnectionPools`, and a process has one connecting thread because `connect` holds the condition throughout.
- Cutover.StepKeeps: the driver's replay and schema checks before the pending manifest are a step that may fail.
- PrimaryEngine.RoutedEngine.Drain: waiting is a list of releases seen before the deadline; time itself is not modelled.
- CaptureRuns.ReplayRebuildsTheSource: writers are serial and end each transaction through the hooks; replay verification queries and value conversion are left out. A raw driver commit followed by a hooked one on the same connection is outside the model.
- RowImage.DecodeInvertsEncode: floating-point values are left out, `json()` is taken to leave minified text as it is, and of JSON numbers only integers are read.
- RowImage.DictHolds: names that differ as text are distinct keys; SQLite's case-insensitive column names are not compared.
- AdvisoryLease.LaterClaimsWait: one name at a time; a commit that fails is taken to have written nothing.
- MigrationLease.StartedMeansLeased: the configuration check is one flag, job ids are taken to be well formed, and one clock serves both of the daemon's.
- Money.SumIsExact: amounts arrive as text; spaces are the ASCII ones and digits are ASCII.
- RateLimiter.SlidingWindowRateLimiter.Allow: two threads that read the clock in one order and enter the lock in the other are not modelled; the code reads the clock before the lock.
- Paths.AcceptsIff: values that are not strings are left out.
- Scheduler.ArchiveConservesIff: rows inserted by others between two batches are not modelled; the PostgreSQL branch is the case of equal plans.
- Scheduler `run_execution_pool_sweep`: left out; its transitions would add only easy members.
- Trigger DDL comparison (`_ensure_fts_trigger`), capture `cancel`, and re-creation of a swept sandbox on replay.
