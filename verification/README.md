# AIOFiles: a verified model

AIOFiles is a job server. HTTP handlers submit media jobs to a bounded queue; workers run them
through yt-dlp, ffmpeg and ImageMagick; job rows and sessions live in SQLite, uploads and outputs
on disk, and all of it has to survive crashes. This project models its core in Dafny and proves
what that core keeps over whole runs. `dafny verify dfyconfig.toml` checks everything.

## How it is laid out

- `JobTable`, `JobStore`: the jobs table as a value, and the store that updates it in place.
- `JobQueue`: recovery at startup, the registry and the progress throttle, single-threaded.
- `JobProtocol`: Submits, workers, cancels, deletes, startup, shutdown and crashes interleaved, one
  step for each store, channel, lock or bus operation. `JobSafety` holds its invariant, `JobRuns`,
  `JobOutcomes`, `JobEvents`, `JobReports`, `JobHistory` and `JobTurns` the theorems about runs.
- `EventBus`: the bus as one caller sees it and as concurrent callers do; `JobBus` puts it under the
  job protocol and proves what a subscriber sees of a job.
- `Retention`, `OrphanCollector`: the two sweeps over shared files, as undisturbed passes over store
  and disk, and the collector step by step; `ExpirySweep`: the expiry sweep step by step beside
  everything else.
- `Sessions`, `FailureWindows`: login sessions and failure counters across interleavings and
  restarts; `AuthManager`: the same code method by method.
- `ProbeLimiter`: the token bucket with refunds and slots.
- `LineScanner`, `StderrRing`, `Utf8`, `Slug`, `Uploads`: text, streams and names.
- `Presets`, `FfmpegArgs`, `EditArgs`, `YtDlpArgs`, `JobArgs`, `Argv`, `Numerals`: parameters from the client's
  payload to argv; `SizeBudget`, `EncodeProgress`: size targets and the progress of two passes.
- `Common`: shared values.

## Conventions

- Objects whose methods change fields are classes; their methods are proved against functions on
  values, and the theorems are about those functions. Concurrent code is a transition system:
  `Next` gives the successor of a state under a step, `IsRun` is a run, and every `...KeepsInv`
  lemma is induction over runs.
- Time is a non-decreasing integer (a real in `ProbeLimiter`); floats are reals. In `LineScanner`,
  `Utf8`, `StderrRing` and `Slug` a char stands for one byte, in `Uploads` for one rune.
- JSON, float parsing, random draws, clocks, and what tools print are inputs. A payload is a record
  of optional fields, or unreadable; strings and numbers survive a round trip through JSON.
- Ids and tokens drawn at random never repeat. The credential fingerprint is taken to be injective.
- A statement on the jobs table with a live context succeeds. Canceled contexts, those of clients that
  have left and of a server shutting down, and crashes are where it fails. Statements on the session store may fail at any time.
- A crash is one of the process: what a statement has committed stays. The database runs in WAL mode
  with synchronous(NORMAL) (internal/db/db.go:21-24), so a power loss can take the latest
  statements back; that is not modelled.

## What the code does not keep

- A refused Submit writes the failure on its request context. If the client has left, the row stays
  queued with nobody to run it until the next restart: `JobRuns.StrandedExactlyWhen` says exactly
  when, `JobRuns.StrandedBecause` what led there, `JobRuns.LostHappens` gives the run.
- Subscribers do not agree on one publication order, since publishers share the read lock:
  `EventBus.InvertibleExactly`, and `EventBus.InversionHappens` for a run. Each job's own order does reach every subscriber, and the end it tells is true:
  `JobBus.SubscriberSeesJobInOrder` and `JobBus.SubscriberSeesTrueEnd`.
- The expiry sweep asks whether an input is shared and unlinks it in two steps. A row created for it
  in between, or later, loses it: `ExpirySweep.LosesExactlyWhen`, and `ExpirySweep.SurvivorLosesInput`
  for a run.
- A sweep that a shutdown overtakes goes on with statements that fail: it still unlinks every output
  of its list but deletes no more rows, so rows remain whose output is gone.
  `ExpirySweep.RowLeftExactlyWhen` and `ExpirySweep.FinishedTakesOutputs` say which;
  `ExpirySweep.RowOutlivesOutput` gives the run.
- The collector is safe only under a bound on how late a job may be created:
  `OrphanCollector.SafeExactlyWhen`, and `OrphanCollector.TooLateIsUnsafe` for a run.
- A failed Rebind adopts nothing but leaves the store attached, so a session can be stored under a
  binding it was not issued under. `Sessions.OnlyVouchedTokens` holds as long as rebinding succeeds;
  `Sessions.UnboundSaveIsAdopted` says what follows otherwise, `Sessions.UnboundSaveHappens` gives
  the run.
- A Logout whose DELETE fails has ended for the client, but the next restart accepts the token again:
  `Sessions.FailedLogoutIsUndone`, with `Sessions.LogoutUndoneHappens` for a run. Once it has
  succeeded, no process accepts it again: `Sessions.LogoutIsFinal`.
- Refunds can push the token counter past the burst: `ProbeLimiter.PassesBurstExactlyWhen`, and
  `ProbeLimiter.RefundsPassBurst` for a run.
- The tail of the error output need not be a literal suffix, nor a clipped line a prefix:
  `StderrRing.RenderedIsSuffix` and `StderrRing.ClippedIsPrefix` say exactly when they are,
  `StderrRing.TailIsNoSuffix` and `StderrRing.ClippedIsNoPrefix` give output where they are not.
- A sanitised upload name may contain "..", and its id is then refused: `Uploads.GateAcceptsExactly`,
  and `Uploads.DottedNameIsRefused` for a name.
- The troubleshooting page says queued rows fail on a restart; the code puts them back in the
  channel, and the model follows the code.

## Model

| member | source | states |
|---|---|---|
| JobTable.QueuedIdsMeaning | internal/jobs/store.go:188-206 | the queued-ids query returns every queued row once and no other, strictly ordered by creation time and then by insertion |
| JobStore.Store.Create | internal/jobs/store.go:21-43 | a new row is appended with both times stamped and empty parameters stored as "{}"; a taken id changes nothing |
| JobStore.Store.Get | internal/jobs/store.go:45-52 | a row is found exactly when its id is stored, and it is the row of that id |
| JobStore.Store.SetStatus | internal/jobs/store.go:79-95 | status, error and update time always; start time only for running, finish time only for terminal; no other row or column |
| JobStore.Store.SetProgress | internal/jobs/store.go:97-102 | percentage, stage and update time of one row, nothing else |
| JobStore.Store.SetOutput | internal/jobs/store.go:104-110 | output path and size of one row; an empty title keeps the old one |
| JobStore.Store.Delete | internal/jobs/store.go:112-121 | the row goes, the others keep their order; a missing id is reported and changes nothing |
| JobStore.Store.FailInterrupted | internal/jobs/store.go:138-147 | every running row becomes failed with the restart text and no finish time, every other row stays; the count is the number of running rows |
| JobStore.Store.QueuedIDs | internal/jobs/store.go:188-206 | the scan yields the queued ids by age |
| JobStore.Store.Expired | internal/jobs/store.go:124-132 | the scan yields exactly the rows with an expiry not after now and a status other than expired, in table order |
| JobStore.Store.InputPaths | internal/jobs/store.go:151-168 | exactly the non-empty paths that some row names as its input |
| JobStore.Store.InputPathShared | internal/jobs/store.go:173-185 | true exactly when another row names the same non-empty path |
| JobQueue.Queue.constructor | internal/jobs/queue.go:45-57 | a queue starts empty; a depth that is not positive becomes the default |
| JobQueue.Queue.TrySend | internal/jobs/queue.go:97-107 | the non-blocking send appends exactly when there is room |
| JobQueue.Queue.Cancel | internal/jobs/queue.go:138-147 | succeeds exactly for a registered job and cancels that job's execution and no other |
| JobQueue.Queue.Resume | internal/jobs/queue.go:120-136 | the channel ends up with exactly the oldest queued ids that fit; every other queued row is failed with the queue-full text and published as it then stands, in order of age; all other rows are untouched |
| JobQueue.FailInterruptedKeepsQueue | internal/jobs/store.go:138-147 | failing the interrupted rows changes neither which rows are queued nor their order |
| JobQueue.Restart | cmd/server/main.go:68-93 | FailInterrupted then Resume turn any store a crash can leave into its recovery |
| JobQueue.RecoveryMeaning | cmd/server/main.go:68-93 | after recovery no row runs, the queued rows are exactly those in the channel, unchanged and older than any dropped one; running rows have failed with the restart text and nothing else changed, dropped ones with the queue-full text and a finish time, terminal ones are untouched |
| JobQueue.Emitter.Emit | internal/jobs/queue.go:186-206 | stored reports lie at least two seconds apart, published ones below 100 percent at least 400 ms; a report of 100 percent is always published |
| JobSafety.EffectIsAllowed | internal/jobs/queue.go:149-239 | whatever execute does next is a write that raises its own row's rank on a row it still owns, keeps its registry entry in step, and starts the runner once |
| JobSafety.PerformKeeps | internal/jobs/queue.go:149-239 | any such step of a worker keeps the whole invariant: ownership, registry, row status, conservation, one run |
| JobSafety.TakeKeeps | internal/jobs/queue.go:67-85 | receiving from the channel moves ownership to the worker and keeps the invariant |
| JobSafety.SubmitKeeps | internal/jobs/queue.go:95-113 | every step of a Submit keeps it: create, announce, send, refuse, client gone, panic on a closed channel |
| JobSafety.StartupKeeps | cmd/server/main.go:68-93 | every step of FailInterrupted, Resume and Start keeps it, failing statements included |
| JobSafety.RequestKeeps | internal/api/handlers_jobs.go:173-208 | cancels, deletes and shutdown steps keep it, wherever they fall |
| JobSafety.StepKeeps | internal/jobs/queue.go:67-239 | every step of every kind keeps it, crashes and boots included |
| JobRuns.TerminalIsFinal | internal/jobs/store.go:79-95 | between any two moments of any run a row's rank never falls, a terminal row never changes in any column, and a deleted row never comes back |
| JobRuns.MissingFinishTime | internal/jobs/store.go:138-147 | over every run a terminal row without finish time carries the restart text |
| JobRuns.ExactlyOneHolder | internal/jobs/queue.go:67-113 | in a live serving process each queued row is held exactly once, by the channel, its Submit or one worker, or was given up by a Submit whose client left; each running row has exactly one worker |
| JobRuns.NeverTwoHolders | internal/jobs/queue.go:67-113 | at any moment, shutdown included, nothing is held twice |
| JobRuns.RunsAtMostOnce | internal/jobs/queue.go:149-239 | no process hands a job to a runner twice |
| JobRuns.UnregisterRemovesOwnEntry | internal/jobs/queue.go:149-180 | a worker's exit removes the entry of its own execution, and every other registered execution keeps its own |
| JobRuns.CancelHitsOnlyItsJob | internal/jobs/queue.go:138-147 | a cancel function looked up for a job can only ever reach that job, however late it is called |
| JobRuns.StrandedExactlyWhen | internal/jobs/queue.go:95-113 | in a live serving process a queued row has no channel slot, Submit or worker left exactly when, earlier in this process, the failing write of its refused Submit ran on a canceled request context |
| JobRuns.StrandedBecause | internal/jobs/queue.go:95-113 | before that write, in the same process, an Offer of the job found the channel full, and the client had left |
| JobRuns.LostHappens | internal/jobs/queue.go:95-113 | such a run exists: the row stays queued with nobody left to run it |
| JobRuns.NeverRunAgain | cmd/server/main.go:68-93 | a job once marked running is never again on its way to a runner in a later process |
| JobOutcomes.ClosingStays | internal/jobs/queue.go:207-239 | between a runner's return and the closing write, no step of anybody else moves the worker or touches its row, and the worker's own steps carry the outcome on |
| JobOutcomes.ReturnDecides | internal/jobs/queue.go:207-239 | whatever interleaves, the closing write leaves the status, error and finish time the runner's return called for (timeout, cancellation, failure or done), and a done row has that output, 100 percent and the stage done |
| JobEvents.StepLogs | internal/jobs/queue.go:181-262 | every step keeps each job's publications in order and above everything already published about it |
| JobEvents.JobStream | internal/jobs/queue.go:95-113 | in any run, the publications about one job come as created, status, progress, terminal; ranks rise, only progress repeats, and nothing is said of a new job before created |
| JobReports.PublishedEndIsTrue | internal/jobs/queue.go:241-262 | over every run: a terminal status published for a job is the status its row has from then on, while it exists |
| JobReports.PublishedWasTrue | internal/jobs/queue.go:256-262 | any status published for a job, final or not, is one its row had before in the same process |
| JobReports.OutcomeIsTold | internal/jobs/queue.go:207-245 | when a worker unregisters a job whose runner returned, the status that return called for has been published, no other end of the job has, and the row says the same, unless the job was deleted |
| JobReports.PublishedDeletionIsTrue | internal/api/handlers_jobs.go:173-208 | a deletion that a process has published has taken place, and the row never comes back |
| JobHistory.CauseHistory | internal/jobs/queue.go:149-180 | in every run an execution is marked as timed out or as canceled by whichever came first in its process, the passing of its time limit or a call of its cancel function, and by nothing else |
| JobHistory.ErrorIsTakenFor | internal/jobs/queue.go:212-226 | an erred return counts as a timeout if the time limit marked the execution, else as canceled if its cancel function was called before or the server is shutting down, else as failed with the text of the error |
| JobHistory.FirstInFirstOut | internal/jobs/queue.go:67-85 | of two jobs in the channel the one ahead is received first, in every run |
| JobHistory.NewGoesLast | internal/jobs/queue.go:105-107 | a job that Submit sends goes behind every job in the channel, the resumed ones among them |
| JobHistory.StepColumns | internal/jobs/store.go:79-110 | what any step can change of a row: its identity, parameters, input and expiry never; output and title only by the record of an output, where an empty title keeps the old one; the start time only by the mark as running, to the time then |
| JobHistory.SubmittedTitleStays | internal/jobs/store.go:104-110 | over every run a job none of whose records carries a title keeps the one it was submitted with |
| JobHistory.EndsForAReason | internal/jobs/queue.go:95-245 | every row that ends at a step of a run ends as a restart, a full channel, a missing runner or its own runner's return calls for, with that text |
| JobTurns.PublisherHolds | internal/jobs/queue.go:256-262 | who publishes about a job has it in hand, and afterwards still has it, or nobody in this process ever will |
| JobTurns.PublishersTakeTurns | internal/jobs/queue.go:95-262 | between publications about one job by two actors of a process the first has gone on from its Publish, so the publishers of a job act in turn |
| EventBus.Bus.Subscribe | internal/jobs/bus.go:34-51 | a fresh number with an empty channel; the other subscribers keep theirs |
| EventBus.Bus.Cancel | internal/jobs/bus.go:34-51 | removes that subscriber and no other |
| EventBus.Bus.Publish | internal/jobs/bus.go:53-62 | every subscriber is offered the event once; a full channel stays as it is |
| EventBus.PublishNeverBlocksNorPanics | internal/jobs/bus.go:34-62 | under any interleaving with subscribing and unsubscribing, no Publish sends on a closed channel; once inside it never waits, and to get in it waits only for a subscribe or unsubscribe already at the lock |
| EventBus.SubscriberStream | internal/jobs/bus.go:34-62 | no subscriber gets a publication twice, or one that had returned before another began after that other; while subscribed it misses only what a full buffer dropped |
| EventBus.InvertibleExactly | internal/jobs/bus.go:53-62 | two subscribers that two publications have still to reach can get them in opposite orders exactly when the first had not returned before the second began |
| EventBus.OppositeOverlaps | internal/jobs/bus.go:53-62 | whenever two subscribers have got two publications in opposite orders, neither had returned before the other began |
| EventBus.InversionHappens | internal/jobs/bus.go:53-62 | a run from the start in which two subscribers get two publications in opposite orders |
| JobBus.NewTurn | internal/jobs/queue.go:95-262 | a publication that begins finds every earlier one about the same job returned |
| JobBus.StepKeeps | internal/jobs/queue.go:95-262 | every step of job protocol and bus together keeps publications about one job from overlapping, each publisher holding its job until its Publish ends |
| JobBus.SubscriberSeesJobInOrder | internal/jobs/bus.go:34-62 | in every run of protocol and bus, every subscriber gets the events about a job in publication order: created, status, progress, terminal, ranks rising, only progress repeating |
| JobBus.SubscriberSeesTrueEnd | internal/jobs/bus.go:53-62 | in every run of protocol and bus: a terminal status that reaches a subscriber is the status of the job's row, as long as that is there |
| Retention.ExpiredQueryLists | internal/jobs/store.go:124-132 | the expiry query lists each row with an expiry not after now and a status other than expired once, and no other |
| Retention.Sweeper.RemoveInput | internal/retention/retention.go:179-192 | an input is unlinked unless it is empty or another row names it |
| Retention.Sweeper.SweepRow | internal/retention/retention.go:73-96 | output, input unless shared, row, event, in this order |
| Retention.Sweeper.SweepJobs | internal/retention/retention.go:83-96 | undisturbed, for any order of the list: exactly the listed rows go, with their outputs and the inputs no other row names, and a deletion is published for each |
| Retention.Sweeper.SweepExpired | internal/retention/retention.go:73-96 | undisturbed, the query and that pass over its answer |
| Retention.SweepMeaning | internal/retention/retention.go:73-96 | what an undisturbed pass amounts to: exactly the rows with an expiry not after now and a status other than expired go, and their outputs; a surviving row keeps an input no expired job wrote as its output; an input all of whose rows expired is gone; nothing else is touched |
| ExpirySweep.StepKeeps | internal/retention/retention.go:73-96 | the sweep in single steps among uploads, submissions, updates, deletes, the shutdown that makes its statements fail, and crashes: every step keeps rows, files and list consistent |
| ExpirySweep.LosesExactlyWhen | internal/retention/retention.go:179-192 | over all runs, a surviving row loses its input to a sweep exactly when it was created after the unlink or between sharing check and unlink |
| ExpirySweep.SurvivorLosesInput | internal/retention/retention.go:179-192 | such a run: a job created between check and unlink has lost its upload |
| ExpirySweep.UnlinkNeedsCheck | internal/retention/retention.go:179-192 | every input a sweep unlinks was found unshared by the step of the sweep just before; a check that failed takes nothing |
| ExpirySweep.SweepTakesNoSurvivorsInput | internal/retention/retention.go:73-96 | with no submission under way for an upload of the list while a sweep works, no sweep takes the input of a row that outlives it, whatever else happens |
| ExpirySweep.FinishedSweep | internal/retention/retention.go:73-109 | when a sweep none of whose statements failed finishes, every row whose expiry was not after the time of its query is gone, and so is every input all of whose rows had expired, unless a submission named it meanwhile |
| ExpirySweep.LiveNoneFails | internal/retention/retention.go:73-109 | no statement of a sweep has failed if the server's context is still live at its end |
| ExpirySweep.RowLeftExactlyWhen | internal/retention/retention.go:83-91 | a listed row outlives a sweep that finishes exactly when its deletion failed and nobody else deleted the job |
| ExpirySweep.FinishedTakesOutputs | internal/retention/retention.go:83-91 | a sweep that finishes has unlinked every output of its list, whatever failed |
| ExpirySweep.RowOutlivesOutput | internal/retention/retention.go:83-91 | a run with a shutdown during the sweep: the row stays and its output is gone |
| ExpirySweep.OthersSurvive | internal/retention/retention.go:73-96 | a sweep deletes no row that has no expiry or one after the time of its query |
| ExpirySweep.LeavesOnlyWhen | internal/jobs/store.go:124-132 | over every run a row leaves the table only when somebody deletes the job, or by a sweep at a time not before its expiry; a row without expiry is never swept |
| ExpirySweep.UnlinksOnlyWhen | internal/retention/retention.go:83-91 | over every run a sweep unlinks only the output or input of a listed row, at a time not before its expiry |
| OrphanCollector.SweepUploads | internal/retention/retention.go:116-174 | undisturbed, a sweep removes exactly the listed regular files that nobody refers to and that are old enough; every file written within the grace period stays as it is |
| OrphanCollector.BaseMeaning | internal/retention/retention.go:138-160 | the base name is what follows the last separator |
| OrphanCollector.SweepOnce | internal/retention/retention.go:73-109 | the whole pass, undisturbed: the expired rows first, then the uploads that are orphaned by then, and of those the job pass has left none written within the grace period |
| OrphanCollector.SweepOnceMeaning | internal/retention/retention.go:73-109 | a surviving row keeps its input; younger files, irregular files and those of other directories stay; an older upload stays exactly if a surviving row names it or a file of the same base name, so inputs freed by the job pass go in the same sweep |
| OrphanCollector.StepKeeps | internal/retention/retention.go:116-174 | interleaved with uploads, submissions and deletions, each step keeps every collected file unreferenced |
| OrphanCollector.TooLateIsUnsafe | internal/retention/retention.go:116-174 | a job created one tick later than allowed can lose its upload |
| OrphanCollector.SafeExactlyWhen | internal/retention/retention.go:116-174 | the collector never takes a job's input if and only if jobs are created before mtime + grace - delta, delta bounding the time from snapshot to clock reading |
| Sessions.TruncationNeverExtends | internal/auth/sessions.go:31-42 | storing an expiry in milliseconds never lengthens it, and loses less than one |
| Sessions.StepSound | internal/auth/manager.go:93-286 | every step of logins, logouts, checks, reaps, crashes, restarts and failing statements keeps memory and store vouched for, as long as sessions are stored bound |
| Sessions.VouchedWhileBound | internal/auth/manager.go:93-238 | over every run that stores sessions bound, failing statements included, a token is accepted only if Login issued it under the password hash now in force, no Logout of it reached the database, and its original expiry has not passed |
| Sessions.SavesAreBound | internal/auth/sessions.go:58-87 | sessions are stored bound in every run whose rebindings all succeed |
| Sessions.OnlyVouchedTokens | internal/auth/manager.go:93-238 | if every rebinding succeeded, whatever other statements fail, a token is accepted only if Login issued it under the password hash now in force, no Logout of it reached the database, and its original expiry has not passed |
| Sessions.UnboundSaveIsAdopted | internal/auth/manager.go:98-108 | a session stored otherwise, in a store left bound to another hash by a failed Rebind, is accepted by the next restart under that other hash |
| Sessions.UnboundSaveHappens | internal/auth/manager.go:98-108 | such a run from the start, with one failed Rebind |
| Sessions.LogoutIsFinal | internal/auth/manager.go:188-211 | once the DELETE of a Logout has succeeded no process ever accepts the token again, whatever its hash and whatever else fails |
| Sessions.FailedLogoutIsUndone | internal/auth/manager.go:188-211 | if it failed, the next restart under the same hash accepts the stored token again |
| Sessions.LogoutUndoneHappens | internal/auth/manager.go:188-211 | such a run from the start |
| Sessions.SurvivesWhileBound | internal/auth/manager.go:93-173 | in a run that stores sessions bound, a Login stored by a process that had bound the store is accepted by every later process with the same hash that reads the store, until its truncated expiry, unless somebody logs it out |
| Sessions.LoginSurvives | internal/auth/manager.go:93-173 | if every rebinding succeeds, a stored Login is accepted by every later process with the same hash that reads the store, until its truncated expiry, unless somebody logs it out |
| AuthManager.SqlSessionStore.Save | internal/auth/sessions.go:33-42 | insert or overwrite one token's truncated expiry, or nothing on an error |
| AuthManager.SqlSessionStore.Delete | internal/auth/sessions.go:44-49 | one token goes, or nothing on an error |
| AuthManager.SqlSessionStore.DeleteExpired | internal/auth/sessions.go:51-56 | exactly the tokens whose stored millisecond is not after now go, or none on an error |
| AuthManager.SqlSessionStore.Rebind | internal/auth/sessions.go:58-87 | a different or missing binding drops every session and the new one is recorded; an error anywhere rolls everything back |
| AuthManager.SqlSessionStore.Live | internal/auth/sessions.go:89-110 | the loop collects exactly the tokens unexpired at now, or reports an error |
| AuthManager.Manager.constructor | internal/auth/manager.go:76-88 | no sessions, no failures, no store; a lifetime that is not positive becomes 720 hours |
| AuthManager.Manager.Persist | internal/auth/manager.go:93-123 | binds the store to the hash, adopts exactly the live sessions that binding left, deletes the expired ones; each failure stops there, with nothing adopted if binding or loading failed, and the store is attached in any case |
| AuthManager.Manager.IsRateLimited | internal/auth/manager.go:302-323 | refuses exactly at 100 failures counted in a five-minute window not yet over, or at 5 from the address in fifteen; windows that are over go |
| AuthManager.Manager.PruneFailures | internal/auth/manager.go:355-361 | exactly the counters whose window began more than fifteen minutes ago go; the others stay as they are |
| AuthManager.Manager.RecordFailure | internal/auth/manager.go:325-353 | both counters after one failure, and no new address when the map is full even after pruning |
| AuthManager.Manager.Issue | internal/auth/manager.go:158-173 | a session in memory and, unless the write fails, in the store; the address and the household forgiven |
| AuthManager.Manager.Login | internal/auth/manager.go:132-186 | every outcome with the counters, sessions and store it leaves; only a success issues a session |
| AuthManager.Manager.Logout | internal/auth/manager.go:188-211 | the named session goes from memory and, unless the write fails, from the store; without a cookie nothing changes |
| AuthManager.Manager.Authenticated | internal/auth/manager.go:214-238 | yes exactly for a live session, or without authentication; an expired one is dropped from memory and, unless the write fails, from the store |
| AuthManager.Manager.Reap | internal/auth/manager.go:270-286 | exactly the expired sessions and counters go from memory, and the expired sessions from the store unless the write fails |
| FailureWindows.CountedKeeps | internal/auth/manager.go:325-353 | counting one more failure never brings more than two windows' worth into one window's length |
| FailureWindows.StepKeeps | internal/auth/manager.go:302-361 | every interleaving of checks, failures, successes and reaps keeps both counters within their bounds |
| FailureWindows.WindowBounds | internal/auth/manager.go:302-361 | with at most k logins between check and record, no window counts more than 99 + k failures in all or 4 + k from one address, and the map never exceeds 4096 |
| FailureWindows.SlidingBounds | internal/auth/manager.go:302-361 | since the last success, any five minutes hold at most 2(99 + k) failures, and any fifteen at most 2(4 + k) counted from one address |
| FailureWindows.RefusedOnlyWhen | internal/auth/manager.go:302-323 | over every run a login is refused only after at least 100 failures within five minutes since the last success, or at least 5 from its address within fifteen since its last |
| FailureWindows.RefusedExactlyWhen | internal/auth/manager.go:302-323 | over every run a login is refused exactly when the newest five-minute window that the failures since the last success open one after the other is not over and holds 100, or the newest fifteen-minute window of its address 5; otherwise it is admitted while fewer than k are under way |
| FailureWindows.UncountedOnlyWhen | internal/auth/manager.go:325-353 | a failure is left uncounted for its address only if 4096 other addresses have counters whose windows are not over |
| ProbeLimiter.Limiter.constructor | internal/api/probelimit.go:26-38 | a full bucket and between one and four slots |
| ProbeLimiter.Limiter.Take | internal/api/probelimit.go:55-69 | refill, cap, then take one token exactly if there is one |
| ProbeLimiter.Limiter.Refund | internal/api/probelimit.go:72-78 | one token back unless the counter is at the burst |
| ProbeLimiter.Limiter.Acquire | internal/api/probelimit.go:42-53 | alone, a request refused for want of a slot costs no token |
| ProbeLimiter.AdmissionsBounded | internal/api/probelimit.go:42-78 | over any stretch of any interleaving, at most 8 + m + t/3 admissions, m acquires being in progress as it began |
| ProbeLimiter.RefusedOnlyWhenBusy | internal/api/probelimit.go:55-69 | a refusal means that since some moment admissions and acquires in progress exceed 7 + t/3, so the limiter is no stricter than that bound |
| ProbeLimiter.HoldersBounded | internal/api/probelimit.go:26-53 | never more in flight than max(n, 1) nor than four |
| ProbeLimiter.TakeSeesAtMostBurst | internal/api/probelimit.go:55-69 | no decision sees more than 8 tokens or leaves more than 7 |
| ProbeLimiter.PassesBurstExactlyWhen | internal/api/probelimit.go:72-78 | the counter passes 8 exactly by a refund to more than 7 tokens and fewer than 8 |
| ProbeLimiter.AloneStaysWithinBurst | internal/api/probelimit.go:42-78 | over any run in which acquires never overlap the counter stays within 8, and within 7 while one is in progress |
| ProbeLimiter.RefundsPassBurst | internal/api/probelimit.go:42-78 | two that overlap are enough: such a run brings it to 8.75 |
| LineScanner.LinesDivide | internal/runner/exec.go:226-251 | a separator divides a stream: the lines are those before it and those after |
| LineScanner.LinesAreProper | internal/runner/exec.go:226-251 | every line is non-empty and free of separators |
| LineScanner.SplitLinesCR | internal/runner/exec.go:229-251 | what the two scans return for any buffer |
| LineScanner.TokenMeaning | internal/runner/exec.go:229-251 | a token is the first line of the stream, whatever is still to be read |
| LineScanner.NoTokenMeaning | internal/runner/exec.go:229-251 | without a token no line is lost, and what is kept holds no separator |
| LineScanner.Scanner.Scan | internal/runner/exec.go:253-258 | each call hands out the next line, or reports the end, or a line that fills the buffer |
| LineScanner.ScanLines | internal/runner/exec.go:262-267 | terminates with all lines in order, or with those before the first that reaches the limit |
| LineScanner.ChunkIndependence | internal/runner/exec.go:253-267 | for every way of cutting a stream into reads: exactly its lines if all are shorter than the limit; if one is longer, exactly those before it |
| StderrRing.Ring.constructor | internal/runner/exec.go:80-85 | an empty ring of at least one place |
| StderrRing.Ring.Add | internal/runner/exec.go:87-102 | blank lines are skipped; any other line joins right-trimmed and clipped, pushing out the oldest when full |
| StderrRing.Ring.Render | internal/runner/exec.go:104-117 | the contents joined, cut to the last 4096 bytes |
| StderrRing.Ring.AddAll | internal/runner/exec.go:198-205 | after any stream of lines the ring holds the last limit kept ones in order of arrival |
| StderrRing.JoinSnoc | internal/runner/exec.go:104-117 | one more line in the ring adds a semicolon, a blank and itself to the join |
| StderrRing.ClippedSize | internal/runner/exec.go:92-94 | no kept line exceeds 512 bytes and the dots |
| StderrRing.ClippedIsPrefix | internal/runner/exec.go:92-94 | clipping leaves a prefix of a long line exactly when its first 512 bytes are valid text and then bytes starting no encoding |
| StderrRing.ClippedIsNoPrefix | internal/runner/exec.go:92-94 | a line with a stray byte between two letters is clipped to no prefix of it |
| StderrRing.ValidIsClippedToPrefix | internal/runner/exec.go:92-94 | of valid text the prefix falls short of 512 bytes by no more than a cut rune |
| StderrRing.RenderedSize | internal/runner/exec.go:104-117 | at most 4096 bytes and the dots, valid UTF-8 after a cut, whatever the tool wrote |
| StderrRing.RenderedIsSuffix | internal/runner/exec.go:104-117 | for every stream of lines: a join within 4096 bytes is the text; a longer one gives the dots and a suffix of the join exactly when its last 4096 bytes are bytes starting no encoding and then valid text |
| StderrRing.ValidRingIsSuffix | internal/runner/exec.go:104-117 | while the lines in the ring are valid the text is, and the suffix falls short of 4096 bytes by no more than a cut rune |
| StderrRing.TailIsNoSuffix | internal/runner/exec.go:104-117 | a stream of ten lines, the last with a stray byte between two letters, gives a tail found nowhere in its join |
| Slug.SanitizeName | internal/runner/exec.go:285-318 | filter, cut, trim and the collapse loop, which terminates and leaves every run of dots as one |
| Slug.SanitizedIsSlug | internal/runner/exec.go:282-318 | always 1 to 80 bytes of [A-Za-z0-9._-], no dash or dot at either end, no ".." and no "--" |
| Slug.FixedExactlyWhenSlug | internal/runner/exec.go:282-318 | a name is left alone exactly when it is already such a slug; sanitising is idempotent |
| Slug.OthersAreAlike | internal/runner/exec.go:288-303 | characters that are not kept are interchangeable with a dash, and two in a row count as one |
| Slug.TrimLeftDrops | internal/runner/exec.go:308-309 | what is trimmed in front is dashes, dots and blanks only |
| Slug.TrimRightDrops | internal/runner/exec.go:308-309 | and so is what is trimmed behind |
| Slug.RandomTag | internal/runner/exec.go:355-361 | two hex digits, or nothing |
| Slug.NameIsChild | internal/runner/exec.go:328-337 | slug, tag and extension make one visible, flag-safe path element without ".." |
| Slug.SuffixStays | internal/runner/exec.go:323-346 | an extension that is a slug other than the fallback stays, with its dot or without |
| Slug.FirstTag | internal/runner/exec.go:323-346 | the first tag of a hexadecimal id is its first two digits |
| Slug.TagsTellApart | internal/runner/exec.go:323-346 | two names that differ in a two-character tag differ |
| Slug.UniqueOutputPath | internal/runner/exec.go:323-346 | at most 17 rounds; a direct child of the directory; an existing file only without a tag or after the last round |
| Presets.OneOf | internal/presets/presets.go:576-583 | true exactly for a listed value |
| Presets.ParseDownload | internal/presets/presets.go:265-297 | accepted exactly when no field is at fault; then each field is the one given, or its default: mode video, the caller's retention, nothing else; a given value outside its table is refused; otherwise the field named is at fault in the payload with its defaults |
| Presets.CheckPreset | internal/presets/presets.go:347-372 | passes exactly custom with a listed speed and a CRF within its codec's bounds, or any codec when copying, and another listed preset for a codec that has bounds |
| Presets.ParseConvert | internal/presets/presets.go:299-343 | accepted exactly when no field is at fault; then each field is the one given or its default, but with a preset speed and CRF are the preset's for the codec; a given value outside its table is refused, speed and CRF only without preset, the bitrate only for a lossy codec; otherwise the field named is at fault in the payload with its defaults |
| Presets.ParseCompress | internal/presets/presets.go:384-417 | accepted exactly when no field is at fault; then each field is the one given or its default; a given value outside its table is refused, and a size but for a size target; otherwise the field named is at fault in the payload with its defaults |
| Presets.ParseImage | internal/presets/presets.go:419-445 | accepted exactly when no field is at fault; then each field is the one given or its default; a given value outside its table or range is refused; otherwise the field named is at fault in the payload with its defaults |
| Presets.CheckCrop | internal/presets/presets.go:479-498 | rounds the sizes down to even, passes exactly when both lie in 16..20001 and the offsets fit, or there is no crop at all, and names a field at fault, in whatever order the sizes are looked at |
| Presets.ParseEdit | internal/presets/presets.go:456-477 | accepted exactly when no field is at fault; then each field is the one given or its default, the crop sizes rounded down to even; a given value out of range is refused; otherwise the field named is at fault in the payload with its defaults |
| Presets.ConvertFaults | internal/presets/presets.go:299-343 | a convert is acceptable exactly when nothing in it is a fault, and likewise in DownloadFaults, CompressFaults, ImageFaults and EditFaults |
| Presets.ReparseIsFixed | internal/api/handlers_jobs.go:70-82 | for every job type: what the API accepts is accepted again from the record under any default retention, with identical parameters |
| Presets.ConvertCrfInBounds | internal/presets/presets.go:347-382 | an accepted convert runs with a listed speed and, unless it copies, a CRF in its codec's bounds |
| Presets.CompressCrfInBounds | internal/presets/presets.go:532-562 | an accepted compress never copies; its CRF is in bounds, or its size target is |
| Presets.EditMeaning | internal/presets/presets.go:456-508 | an accepted crop is even and within limits; a span is zero for an open end and otherwise leads from start to end, over at least a tenth of a second |
| FfmpegArgs.RateControl | internal/runner/ffmpeg.go:473-486 | the rate options of one pass or a quality encode |
| FfmpegArgs.VideoArgs | internal/runner/ffmpeg.go:411-440 | the video part of the argv |
| FfmpegArgs.AudioArgs | internal/runner/ffmpeg.go:447-460 | the audio part of the argv |
| FfmpegArgs.Args | internal/runner/ffmpeg.go:404-470 | the whole argv is the options in order and the output |
| FfmpegArgs.Decodable | internal/runner/ffmpeg.go:404-470 | a reader that knows each flag's arity gets back exactly those options and the output, whatever the operands look like, as long as the output path is not itself a flag |
| FfmpegArgs.AcceptedIsSettled | internal/runner/ffmpeg.go:361-402 | a stored accepted payload gives the runner a setting from its table for every field |
| FfmpegArgs.LookupsHit | internal/runner/ffmpeg.go:68-84 | no table lookup misses, so the fallback encoder is never used and some audio option always applies |
| FfmpegArgs.OptionsMean | internal/runner/ffmpeg.go:404-486 | the argv holds an option exactly when the setting behind it takes effect |
| FfmpegArgs.SettingsRecovered | internal/runner/ffmpeg.go:404-486 | equal argvs mean equal input, output and every setting that takes effect |
| JobArgs.ConvertMeans | internal/runner/ffmpeg.go:361-486 | the argv of an accepted convert job holds exactly the options its record asks for: encoder, speed, CRF, scaling, rate, sound, metadata and container flags, each with the value the encoder knows it by |
| JobArgs.CompressMeans | internal/runner/ffmpeg.go:361-486 | so does that of an accepted compress job: its CRF, or for a size target the bitrate, number and log of each pass, the first without sound |
| JobArgs.ConvertOrder | internal/runner/ffmpeg.go:404-409 | one input, after the general options and before every option of the output |
| JobArgs.EditOrder | internal/runner/ffmpeg.go:277-286 | in an edit too, with the seek before the input and the length after it |
| EditArgs.Args | internal/runner/ffmpeg.go:277-304 | the trim and crop argv is its options in order and the output |
| EditArgs.Decodable | internal/runner/ffmpeg.go:277-304 | read back in one way |
| EditArgs.EditMeaning | internal/runner/ffmpeg.go:277-304 | it seeks, cuts, crops, copies and re-encodes exactly when the edit says so |
| EditArgs.SecondsAccurate | internal/runner/ffmpeg.go:306-306 | the digits printed read back as the time to the nearest thousandth, within half a millisecond |
| EditArgs.CropReadsBack | internal/runner/ffmpeg.go:288-296 | the numbers of the crop filter read back as width, height, left and top |
| EditArgs.CropAsked | internal/presets/presets.go:479-500 | an accepted edit crops exactly when the client gave a size |
| YtDlpArgs.Args | internal/runner/ytdlp.go:312-347 | the argv is its options in order, "--" and the URL |
| YtDlpArgs.Decodable | internal/runner/ytdlp.go:312-347 | every client string comes back as an operand or after "--", never as an option |
| YtDlpArgs.OptionsMean | internal/runner/ytdlp.go:312-363 | an option is there exactly when the parameters ask for it |
| YtDlpArgs.UnvalidatedIsUnread | internal/runner/ytdlp.go:324-334 | replacing the fields unvalidated in a mode by anything changes neither verdict nor argv |
| YtDlpArgs.OperandsHarmless | internal/presets/presets.go:258-297 | no operand of accepted parameters starts with a dash |
| YtDlpArgs.SelectorsDiffer | internal/runner/ytdlp.go:354-363 | accepted format ids with the same selector are the same |
| YtDlpArgs.DownloadRecovered | internal/runner/ytdlp.go:312-363 | two accepted downloads with the same argv have the same URL, template, mode and embedded parts, and the same format id and container, or audio format and bitrate |
| SizeBudget.BudgetKept | internal/runner/ffmpeg.go:334-346 | accepted exactly when 100 kbps and the audio fit 98 percent of the target; the grant fits, lies in 100..500000 and below that ceiling is the most that fits |
| SizeBudget.Monotone | internal/runner/ffmpeg.go:334-346 | a larger target or a shorter file never lowers the grant or turns acceptance into refusal |
| SizeBudget.SizeTargetKept | internal/runner/ffmpeg.go:112-121 | for any accepted size target the granted video with the audio asked for stays within the target |
| EncodeProgress.FfProgress.Line | internal/runner/ffmpeg.go:532-563 | the state after any line and the report it makes |
| EncodeProgress.Encode | internal/runner/ffmpeg.go:192-199 | every line through the meter, every report out |
| EncodeProgress.LineMeaning | internal/runner/ffmpeg.go:532-563 | what a key=value line reports: a time, a speed, a block, or nothing |
| EncodeProgress.ReportMeaning | internal/runner/ffmpeg.go:523-563 | within the file a block reports the start of its part of the bar and the share of the duration that is done, scaled to the part; the last block reports the end of the part |
| EncodeProgress.RunRises | internal/runner/ffmpeg.go:523-563 | one run's known percentages never fall and stay in its part of the bar, the whole bar for a span of 0 |
| EncodeProgress.UnknownLength | internal/runner/ffmpeg.go:523-563 | of a file of unknown length nothing but the end is known, and that is the end of its part |
| EncodeProgress.RunTwoPass | internal/runner/ffmpeg.go:164-189 | the percentages of both passes; a failed pass ends the job |
| EncodeProgress.TwoPassRises | internal/runner/ffmpeg.go:164-189 | if each pass's clock never falls or passes the duration and it ends once, the percentages stay in [0,50] then [50,100] and never fall |
| Uploads.SanitiseFilename | internal/api/uploads.go:191-234 | base name, rune by rune mapping, trim and truncation |
| Uploads.SanitisedIsName | internal/api/uploads.go:188-234 | always 1 to 120 runes without separators, blanks, control or shell-hostile characters, not starting with a dot, dash or underscore |
| Uploads.SanitisedKeeps | internal/api/uploads.go:188-234 | a name of that kind without the replacement rune, and not ending in a dot, dash or underscore, is left as it is |
| Uploads.OnlyLastElement | internal/api/uploads.go:191-193 | whatever directories come in front, with slashes or backslashes, and however many of these behind: the result is that for the last element |
| Uploads.MappedAt | internal/api/uploads.go:194-211 | in a name without control characters each blank, separator or shell-hostile rune becomes an underscore in its place, and any other stays |
| Uploads.MappingDrops | internal/api/uploads.go:194-211 | control characters and broken bytes vanish |
| Uploads.TrimLeftDrops | internal/api/uploads.go:212-212 | what is trimmed in front is dots, dashes and underscores only |
| Uploads.TrimRightDrops | internal/api/uploads.go:212-212 | and so is what is trimmed behind |
| Uploads.ExtIsLast | internal/api/uploads.go:219-219 | the extension begins at the last dot; without a dot there is none |
| Uploads.ShortenedKeepsExt | internal/api/uploads.go:217-229 | a trimmed name that is too long is cut in front of its extension, if that has at most 16 runes, and loses only dots, dashes and underscores besides |
| Uploads.OriginalOfStored | internal/api/uploads.go:181-186 | originalName undoes storedName |
| Uploads.GateAcceptsExactly | internal/api/uploads.go:139-146 | the id of a sanitised name takes at most 497 bytes and passes the lexical gate exactly when the name holds no ".." |
| Uploads.AcceptedIsInside | internal/api/uploads.go:139-146 | an id that passes the lexical gate names a file directly in its directory |
| Uploads.DottedNameIsRefused | internal/api/uploads.go:139-146 | a..b is left as it is, and no id of it passes the gate |

## Left out

- DELETE unlinks the job's files between cancel and row deletion without asking whether another job
  shares the input; only its cancel, row and event steps are in the protocol, and no file claim is made.
- The sweep may expire queued and running rows; the protocol's deletions cover it as `DeleteRow`.
- A Cancel that returns ok need not end in canceled; no such claim is made. A runner's return and the
  look at its context that follows are one step, and the timeout text leaves out the limit's value.
- JobBus.SubscriberSeesJobInOrder: deletion events are left out of the order, because DELETE and the
  sweep publish them after the row is gone, beside a worker that may still publish about the job.
- Scheduling and fairness: nothing says that a queued job is ever taken.
- Rounds of the collector that end early because the listing or the query fails; they unlink nothing.
- Clock readings that go backwards, and empty reads repeated until the scanner gives up.
- Messages of validation errors, and which field is named first when several are at fault.
- Rounding of floats in the size budget, the token bucket and percentages.
- `editPlan`, `probeDuration`, `humanDuration`, image argv, yt-dlp output parsing: easy members or
  external tools.
- `linkUpload`'s window between link and time stamp, symlink checks of `resolveUpload`, HTTP, SSE,
  DNS and source URL checks, configuration, the proxy hop walk, the frontend and deployment files.
- Argon2, SHA-256 and the concurrency cap on hashing; `k` bounds logins under way instead.
- Temporary file names, which use two characters of the id and may be shared by concurrent jobs.
- Slug.UniqueOutputPath: the set of existing files is fixed for one call, because what other
  processes create meanwhile cannot be known; a name free when looked at may be taken later.
