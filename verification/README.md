# The benchmark runner's queue, comparisons and stores, in Dafny

This project models `ci-bench-runner`, the service that receives GitHub webhooks for rustls, runs benchmarks and
reports the outcome, and proves what its three central mechanisms guarantee. `dafny verify dfyconfig.toml` checks
everything.

**The crash-tolerant event queue.** Webhook events become rows of a table; a channel of unit tokens tells a worker that
there is something to do; a supervisor restarts the worker when it goes down. Tables survive everything, the channel
survives the worker but not the process, and each restart adds one token per row to whatever is in the channel already.

- `QueueModel` is the state machine: one step per stretch of code between two `await`s, crashes and process restarts at
  every point, pausing and resuming.
- `QueueInvariants` has what every step keeps, `QueueOrder` the order in which jobs are created, `QueueRuns` the
  theorems about whole runs, `QueueJobs` and `QueueTimes` what users see of a job and what a pause guarantees.
- `QueueCost` counts, from the table alone, the tokens restarts can still add; `QueueDrain` bounds the work an
  adversarial set of handlers can cause, and `QueueWorstCase` shows that the bound is exact.
- `Database` and `EventQueueService` are the imperative code: a class whose methods update the tables, and a class whose
  methods each take exactly one step of the state machine, up to the supervised loop that runs the queue dry. The
  environment's methods (`EndEnqueue`, `Crash`, `RestartedProcess`, `SetPaused`) take its steps in the same way.

**The regression detection.** `Thresholds` has the significance thresholds derived from history, `Comparison` the
comparison of two runs and the lists of the report, `Results` the data they share.

**The stores around them.** `RunHistory` and `ComparisonStore` (database round trips), `CommentModel` and `PrReporter`
(one comment per pull request), `BencherReport` (the nested report sent to bencher.dev), `ResultFiles` (the CSV
readers). `Sorting` and `Prelude` are shared.

## What is assumed

- The runtime is single-threaded (`ci-bench-runner/src/main.rs:37-41`), so code between two `await`s runs without
  interference. In particular a job's commit and the assignment of the active job id
  (`ci-bench-runner/src/event_queue.rs:178-179`) are one step, and so are the two reads of `job_view`.
- Fresh UUIDs and comment ids were never used before. An enqueue call is not dropped between its insert and its send.
- A failing database call leaves the tables as they were; in the worker it shows as the task going down.
- `enabled` mirrors the absence of the pause file, which survives restarts.
- Theorems that speak of the order of events need rows inserted with strictly increasing timestamps, and say so: the
  code reads the clock before it takes the lock (`ci-bench-runner/src/db.rs:204-206`). The bounds on the number of jobs
  do not need it.
- The tie order of the fetching query is left open, as SQL leaves it open. That matters for the drain: from an idle
  worker with t tokens and m rows of allowed events the exact bound is t + m*m plus the number of pairs of rows with equal
  timestamps, and every drain stays within t + m*m if and only if all timestamps are distinct
  (`QueueWorstCase.SquareBoundNeedsDistinctStamps`). `DrainBoundIsExact` has the exact bound for whatever else is queued.
- A process starts on a database without jobs, or restarts on whatever is there. Initial rows may name events that are no
  longer allowed, which is what makes the discarding branch reachable.
- `History` records what happened (arrivals, job creations, crashes). No step reads it except to know that an id is
  fresh, and `JobLogIsFaithful`, `DownsAreFaithful` and `ArrivalsAreFaithful` say that it records the run truly; the
  whole-run theorems are stated about the run's own states and steps.
- The history query joins an ordered subquery, and SQL does not promise the order of the join. `HistoryRoundTrip` takes it
  to be that of the subquery; `HistoryContent` says which results come back without assuming any order.
- `real` stands for `f64`. A quotient by zero is infinite or NaN, as for floats; historic results are nonzero.
- Number parsing and printing are arbitrary functions; the round trips ask that printed numbers parse back and contain
  neither commas, newlines nor spaces at the ends. JSON text of a list of names parses back to that list. Bencher's name check
  keeps a name's text.
- A GitHub update or create either takes effect and succeeds or does neither.

Where comments and code differ, the code is modelled. The worker's comment says that an event found with a job is removed
from the queue to avoid a crash loop; the code removes it and then handles it once more. The comment on `delete_event`
speaks of successfully handled events; failed ones are deleted as well. The comment on `split_on_threshold` says
"exceed"; a ratio equal to the threshold is significant.

## Model

| member | source | states |
|---|---|---|
| `QueueRuns.JobsPerEvent` | ci-bench-runner/src/event_queue.rs:160-215 | Over every run, with crashes, supervisor restarts and process restarts anywhere and no assumption on timestamps: no event gets more than two jobs; a forbidden or unknown one gets none; an allowed one that left the queue table got at least one; and one that has left for good got two if and only if the worker went down while its row carried a job and not once more between its eviction and its second job |
| `QueueRuns.JobsFollowArrivals` | ci-bench-runner/src/event_queue.rs:160-215 | If rows are inserted with strictly increasing timestamps, the events behind all job creations so far are the enqueue order with each event repeated once per job it got, so no event overtakes another and the jobs of an event are contiguous; with the queue empty and the worker waiting, each allowed event appears once or twice as its crash history says |
| `QueueRuns.RunCovered` | ci-bench-runner/src/event_queue.rs:142-236 | No lost wake-up: in every reachable state with the worker alive and past its startup count, the rows queued are at most the tokens in the channel plus startup tokens still to send plus inserts whose send is outstanding plus the token the worker holds |
| `QueueRuns.IdleMeansEmpty` | ci-bench-runner/src/event_queue.rs:145-154 | A worker that waits on an empty channel with no send outstanding has an empty queue table |
| `QueueRuns.StepCovered` | ci-bench-runner/src/event_queue.rs:142-236 | Every single step keeps the wake-up inequality |
| `QueueRuns.TokensAreConserved` | ci-bench-runner/src/event_queue.rs:145-154 | Over every run the channel holds exactly the tokens sent (by enqueuing and at startup) and not received since the process was last started, across crashes of the worker; inserts still to be announced likewise |
| `QueueRuns.NoTokenBeforeRestart` | ci-bench-runner/src/event_queue.rs:96-160 | However the worker goes down, a failed fetch on an empty table included, it takes no further token before the supervisor has reset the active job, then restarted it, and it has then counted the rows (unless the whole process restarts) |
| `QueueDrain.BoundedDrain` | ci-bench-runner/src/event_queue.rs:85-221 | From an idle worker with t tokens and m untried rows, however handlers end, every drain takes at most t + m*m tokens plus one per pair of rows with equal timestamps, so t + m*m if all timestamps are distinct, in boundedly many steps; when no step is left the worker waits with queue and channel empty |
| `QueueDrain.EveryStateDrains` | ci-bench-runner/src/event_queue.rs:85-221 | The same from every reachable state, whatever crashes came before and whatever the worker is doing, as long as no enqueue call is half done and processing is enabled: at most the tokens in the channel, the startup tokens still to send, m*m, the tied pairs and m more, and every drain that stops has come to rest |
| `QueueDrain.DrainPays` | ci-bench-runner/src/event_queue.rs:85-221 | From any state, at every point of a drain, tokens received so far plus the bound on tokens still to come never exceed the initial bound, and steps so far plus the step bound never exceed the initial step bound |
| `QueueDrain.StepPays` | ci-bench-runner/src/event_queue.rs:85-221 | From any state, every step of supervisor or worker lowers the termination measure, and a received token is paid for, restarts included |
| `QueueDrain.OnlyRestIsStuck` | ci-bench-runner/src/event_queue.rs:85-221 | With processing enabled something can always happen unless the worker waits on an empty channel |
| `QueueCost.MarkRefills` | ci-bench-runner/src/event_queue.rs:172-178 | When an earliest untried row is handled for the first time, the refills still possible drop by exactly one per queued row, which is what a restart then adds |
| `QueueCost.EvictRefills` | ci-bench-runner/src/event_queue.rs:172-178 | When an earliest marked row is removed to be retried, the refills still possible drop by at least one per remaining row, and by exactly that if no untried row shares its timestamp |
| `QueueCost.RefillsBound` | ci-bench-runner/src/event_queue.rs:142-148 | Whatever rows are queued, tried before or not, m of them allow at most m*m refills plus one per tied pair |
| `QueueCost.UntriedRefills` | ci-bench-runner/src/event_queue.rs:142-148 | m untried rows of allowed events allow exactly m*m refills plus one per tied pair |
| `QueueCost.NoTiesMeansDistinct` | ci-bench-runner/src/db.rs:225-229 | The number of tied pairs is zero if and only if all timestamps are distinct |
| `QueueWorstCase.WorstCase` | ci-bench-runner/src/event_queue.rs:142-221 | Whatever rows are queued, allowed or forbidden, tried or untried, tied or not: if every handler and every retry panics and ties are broken badly, the worker takes all the tokens the cost function allows |
| `QueueWorstCase.DrainBoundIsExact` | ci-bench-runner/src/event_queue.rs:85-221 | From every state in which the worker waits and nobody is enqueuing, some drain takes exactly the tokens in the channel plus the refills of the queue, and none takes more |
| `QueueWorstCase.SquareBoundNeedsDistinctStamps` | ci-bench-runner/src/event_queue.rs:85-221 | From an idle worker with t tokens and m allowed rows the exact bound is t + m*m plus the number of tied pairs; every drain stays within t + m*m if and only if all timestamps are distinct |
| `QueueWorstCase.WithinExactly` | ci-bench-runner/src/event_queue.rs:85-221 | From a waiting state every drain stays within a number of tokens if and only if tokens plus refills do, forbidden rows included |
| `QueueWorstCase.DistinctStampsSuffice` | ci-bench-runner/src/event_queue.rs:160-170 | Distinct timestamps keep every drain within t + m*m also when rows of forbidden events are queued |
| `QueueInvariants.InitSafe` | ci-bench-runner/src/event_queue.rs:47-70 | A fresh process on a database without jobs satisfies the whole invariant |
| `QueueInvariants.StepSafe` | ci-bench-runner/src/event_queue.rs:85-238 | Every step, crashes included, keeps the whole invariant: rows are the enqueued rows up to the job mark, marks name existing jobs, finished if and only if success is set, the row and the job in the worker's hands agree with the tables, the number of jobs of every event is what queue and crash history say |
| `QueueInvariants.KeepsLog` | ci-bench-runner/src/event_queue.rs:168-215 | Per step: for every event, the number of jobs created so far equals the number told by its row, its mark and the crash history |
| `QueueInvariants.KeepsWorker` | ci-bench-runner/src/event_queue.rs:142-221 | Per step: the row and the job a live worker carries agree with the tables, and its row carries exactly its job, or is gone if it is being retried |
| `QueueInvariants.KeepsCrashes` | ci-bench-runner/src/event_queue.rs:172-215 | Per step: an unmarked queued row was never hit by a crash, a marked one either was or is being handled now |
| `QueueRuns.RunIsSafe` | ci-bench-runner/src/event_queue.rs:85-238 | The invariant holds in every state of every run |
| `QueueRuns.JobLogIsFaithful` | ci-bench-runner/src/event_queue.rs:178 | The job log kept as a history variable is the sequence of events of the run's job creations |
| `QueueRuns.DownsAreFaithful` | ci-bench-runner/src/event_queue.rs:101-117 | The crash history says exactly which events' rows carried a job when the worker went down, and which events lost their second job that way |
| `QueueRuns.ArrivalsAreFaithful` | ci-bench-runner/src/event_queue.rs:235-236 | The arrival history is exactly the initial rows followed by the inserted ones, in order of insertion |
| `QueueRuns.HandlersSeeEnqueuedEvents` | ci-bench-runner/src/event_queue.rs:160-205 | Whatever crashes happen, a handler only sees an allowed event, with id, name, payload and timestamp as it was enqueued or initially stored |
| `QueueModel.EventNames` | ci-bench-runner/src/event_queue.rs:272-280 | The four accepted event names, each read as its own event, and no others |
| `QueueOrder.StepInOrder` | ci-bench-runner/src/db.rs:225-229 | With increasing timestamps every step keeps: jobs were created in timestamp order and neither a queued row nor the fetched one belongs before a job already created |
| `QueueOrder.JobLogIsSchedule` | ci-bench-runner/src/event_queue.rs:160-215 | In every ordered state the job log is completely determined by arrivals, queue and crash history |
| `QueueJobs.StatusTellsOutcome` | ci-bench-runner/src/event_queue.rs:252-340 | Success is shown only after the handler returned Ok; Failure with a finish time only after it returned an error; Pending if and only if the job is active and unfinished; Failure without a finish time if and only if the worker went down earlier in the run while running that very job and the job is no longer active; the unreachable case is never hit |
| `QueueJobs.LostBecauseDown` | ci-bench-runner/src/event_queue.rs:178-215 | A job is without outcome and out of the worker's hands if and only if the worker went down earlier in the run while running it |
| `QueueTimes.JobTimes` | ci-bench-runner/src/db.rs:268-318 | Over every run: the view of a job shows the time of the one step that created it, for an event that had arrived by then and whose enqueue time is the one stored with the job; it shows a finish time if and only if a step finished this job at that time |
| `QueueTimes.FinishTimes` | ci-bench-runner/src/db.rs:306-318 | The stored finish time is t if and only if some step of the run finished this job at t |
| `QueueTimes.OutcomeBeforeDeletion` | ci-bench-runner/src/event_queue.rs:214-215 | The row of a handled event is deleted only after the outcome its handler returned, and a finish time, are recorded for its job |
| `QueueJobs.JobStatusIsMonotone` | ci-bench-runner/src/event_queue.rs:324-333 | Over every run a job keeps existing, only moves from Pending to Success or Failure, and both are final across worker crashes, supervisor resets and process restarts |
| `QueueJobs.OnePendingJob` | ci-bench-runner/src/event_queue.rs:178-179 | At most one job is Pending in any reachable state, and it is the one the worker runs or ran until a crash the supervisor has not handled yet |
| `QueueJobs.StepOnJob` | ci-bench-runner/src/db.rs:306-318 | A step changes an existing job only if it is the active one and unfinished, keeps its creation time, and never makes an existing job active again |
| `QueueJobs.OutcomesComeFromHandlers` | ci-bench-runner/src/event_queue.rs:200-214 | A recorded outcome is the one the job's own handler returned earlier in the run |
| `QueueJobs.PauseStopsNewJobs` | ci-bench-runner/src/event_queue.rs:157-178 | During any uninterrupted pause at most one job is created, and none unless the worker was past the gate when the pause began, whatever is enqueued, crashes or restarts |
| `QueueJobs.EnabledAsLastSwitched` | ci-bench-runner/src/event_queue.rs:246-249 | Processing is enabled as the pause file was last switched, whatever else happens |
| `QueueJobs.PauseUntilResume` | ci-bench-runner/src/event_queue.rs:157-178 | From a pause to the next resumption at most one job is created, told from the steps of the run alone |
| `QueueJobs.RunningJobFinishesWhilePaused` | ci-bench-runner/src/event_queue.rs:157-215 | A handler running when the pause begins can record its outcome and remove its row while still paused |
| `EventQueueService.EventQueue.constructor` | ci-bench-runner/src/event_queue.rs:47-70 | A new queue on a database without jobs is an initial state of the state machine; the gate is open unless the pause file exists |
| `EventQueueService.EventQueue.BeginEnqueue` | ci-bench-runner/src/event_queue.rs:230-235 | An event is admitted if and only if its name is one of the four; others are turned away without any effect; an admitted one takes exactly the insert step |
| `EventQueueService.EventQueue.GetJobView` | ci-bench-runner/src/event_queue.rs:252-259 | The view of a known job, and nothing for an unknown one, without hitting the unreachable case |
| `EventQueueService.EventQueue.Turn` | ci-bench-runner/src/event_queue.rs:85-221 | The supervised task, cut at its awaits: whatever it is about to do (reset, restart, startup count and sends, receive, gate, fetch, discard, evict, create, handle, finish, delete), its code takes exactly one step of the state machine, and it has one to take unless it is at rest |
| `EventQueueService.EventQueue.RunUntilIdle` | ci-bench-runner/src/event_queue.rs:85-221 | The supervised loops, run from any quiet state with handlers that end however they like, terminate with queue and channel empty; from an idle worker after at most t + m*m receives plus one per tied pair, so t + m*m if timestamps are distinct |
| `Database.Db.NextQueuedEvent` | ci-bench-runner/src/db.rs:222-235 | Nothing if and only if the table is empty; otherwise a row no other row precedes in time |
| `Database.Db.NewJobForEvent` | ci-bench-runner/src/db.rs:268-302 | In one transaction: one unfinished job carrying the event's time, and the mark on the event's row if it is still there |
| `Database.Db.JobFinished` | ci-bench-runner/src/db.rs:306-318 | Finish time and success are set together, for that job only; no effect on an unknown id |
| `Database.Db.StoreRunResults` | ci-bench-runner/src/db.rs:349-385 | The insert loop adds one run and its results in order |
| `Database.Db.ResultHistory` | ci-bench-runner/src/db.rs:389-406 | The results of runs created after the cutoff, run by run in creation order, the join being taken in the order of its subquery |
| `Database.Db.StoreComparisonResult` | ci-bench-runner/src/db.rs:410-470 | The insert loop adds one run with its three missing lists and all diffs of the three sub-lists |
| `Database.Db.LoadComparisonResult` | ci-bench-runner/src/db.rs:474-560 | Nothing if and only if no run has this commit pair; otherwise the diffs per kind, the missing lists, no memory details |
| `RunHistory.HistoryRoundTrip` | ci-bench-runner/src/db.rs:349-406 | With runs stored in the order of their timestamps (ties allowed) and the join in the order of its subquery, the history is everything stored after the cutoff, nothing else, in the order it was stored |
| `RunHistory.HistoryInCreationOrder` | ci-bench-runner/src/db.rs:349-406 | With the runs stored in any order, under distinct timestamps, the history has the results stored after the cutoff in the order of the runs' timestamps (the join in the order of its subquery) |
| `RunHistory.HistoryContent` | ci-bench-runner/src/db.rs:349-406 | Whatever order the query answers in and whatever the timestamps: an answer is possible if and only if it holds exactly the results stored after the cutoff, each as often as it was stored |
| `Thresholds.CalculateSignificanceThresholds` | ci-bench-runner/src/job/bench_pr.rs:524-561 | The grouping and fencing loops: a scenario has an entry if and only if it has at least ten results, and the entry is the fence of its own results in history order |
| `Thresholds.FilterKind` | ci-bench-runner/src/job/bench_pr.rs:303-317 | Keeps the in-order subsequence of one kind |
| `Thresholds.ThresholdsByKind` | ci-bench-runner/src/job/bench_pr.rs:303-324 | For every kind and scenario the entry depends only on the in-order results of that scenario and kind, and exists if and only if there are at least ten |
| `Thresholds.SelectedAt` | ci-bench-runner/src/job/bench_pr.rs:303-333 | The results a threshold is made of are those at the positions of the history with this name and kind, in order |
| `Thresholds.NamedAt` | ci-bench-runner/src/job/bench_pr.rs:527-533 | The results grouped under a name are those at its positions in the history, in order |
| `Thresholds.ForeignResultsDoNotMatter` | ci-bench-runner/src/job/bench_pr.rs:303-333 | Inserting or dropping another scenario's or kind's result anywhere in the history changes no threshold |
| `Thresholds.QuartileFence` | ci-bench-runner/src/job/bench_pr.rs:546-557 | For ten or more positive results both quartile indices are in bounds, 0 <= q1 <= q3 <= threshold = 4 q3 - 3 q1, and fewer than a quarter of the n historic changes (at most ceil(n/4) - 1) exceed the threshold |
| `Thresholds.FenceRule` | ci-bench-runner/src/job/bench_pr.rs:537-557 | In plain numbers: fewer than ten results give no threshold; with ten or more, whatever ascending arrangement of the n relative changes |r[i] - r[i+1]| / r[i] is taken, the threshold is four times its entry 3n/4 less three times its entry n/4 |
| `Thresholds.RankedUnique` | ci-bench-runner/src/job/bench_pr.rs:550-553 | Any sorted permutation of the changes gives the same quartiles, so the unstable sort is immaterial |
| `Thresholds.UnitIndependence` | ci-bench-runner/src/job/bench_pr.rs:546-556 | Scaling history, baseline and candidate by one positive constant changes neither threshold nor ratio nor verdict |
| `Comparison.CompareResults` | ci-bench-runner/src/job/bench_pr.rs:625-663 | For every iteration order of the candidate map and any measurements: fails if and only if a needed callgrind diff fails; otherwise each candidate scenario is accounted for once, missing if and only if the baseline lacks it, else with both values, its clamped threshold and its callgrind diff |
| `Comparison.DetailsFor` | ci-bench-runner/src/job/bench_pr.rs:477-490 | The detail map's keys are exactly the diff names and its values the two runs' details |
| `Comparison.CompareRefs` | ci-bench-runner/src/job/bench_pr.rs:438-508 | All three kinds compared as their measurements and thresholds call for; both memory lookups succeed; only the memory part carries details; fails if and only if an icount callgrind diff does |
| `Comparison.ThresholdRule` | ci-bench-runner/src/job/bench_pr.rs:653-657 | The threshold a scenario is judged by, in plain numbers from the history: below ten results 0.002, 0.05 or 0.001 (icount, walltime, memory), else the fence of its own results, and never less than 0.002, 0.01 or 0.001 |
| `Comparison.SplitOnThreshold` | ci-bench-runner/src/job/bench_pr.rs:667-690 | The two lists together are a permutation of the diffs, one with those below their threshold and one with the rest; unless some scenario went from zero to zero, earlier entries have |candidate - baseline| / |baseline| no smaller than later ones and changes from a zero baseline come first |
| `Comparison.FromSubResult` | ci-bench-runner/src/job/bench_pr.rs:776-784 | Splits the diffs and passes missing list and memory details on |
| `Comparison.ReportIsCorrect` | ci-bench-runner/src/job/bench_pr.rs:625-690 | Each candidate scenario lands in exactly one list: missing if and only if the baseline lacks it, significant if and only if the baseline is zero or |candidate - baseline| / |baseline| reaches the threshold of ThresholdRule, negligible otherwise; every listed diff shows the instruction count, time or total heap bytes of both runs, that threshold and its callgrind diff; no list repeats a scenario; larger |candidate - baseline| / |baseline| come first; the memory part has both runs' details for exactly the compared scenarios |
| `Comparison.Report` | ci-bench-runner/src/job/bench_pr.rs:303-508 | From history and measurements to the three lists of each kind, their numbers and memory details: the statement of ReportIsCorrect for the composed methods, for all measurements |
| `ComparisonStore.RoundTrip` | ci-bench-runner/src/db.rs:410-560 | After any sequence of stores no two of which have both commits equal, loading any pair of commits gives its missing lists and, per kind, all its stored diffs of that kind; this is the stored comparison up to order and memory details if and only if every stored sub-list had a single kind |
| `ComparisonStore.StoredDiffs` | ci-bench-runner/src/db.rs:510-541 | The rows found for a run and kind are its own diffs of that kind, whatever was stored before or after |
| `ComparisonStore.UnknownPairLoadsNothing` | ci-bench-runner/src/db.rs:486-500 | A pair never stored loads as nothing, and only as nothing |
| `ComparisonStore.LaterStoresDoNotMatter` | ci-bench-runner/src/db.rs:410-560 | Later stores change no possible answer for an earlier pair |
| `ComparisonStore.ComparisonsAreSingleKind` | ci-bench-runner/src/job/bench_pr.rs:648-659 | Comparisons as compare_refs makes them have single-kind sub-lists, so they survive the store |
| `PrReporter.Reporter.TryUpdateComment` | ci-bench-runner/src/job/bench_pr.rs:273-289 | Updates the registered comment if lookup and update succeed, otherwise changes nothing |
| `PrReporter.Reporter.BenchPr` | ci-bench-runner/src/job/bench_pr.rs:249-270 | Update, else create and register: new comments and registry, and whether the run returns Ok |
| `CommentModel.RegisteredCommentIsReused` | ci-bench-runner/src/job/bench_pr.rs:249-289 | A run on a pull request with a registered comment, with lookup and update succeeding, creates nothing: same registry, same comments, the registered one shows its body, the others are untouched; any other run adds one new comment with its body if and only if the create succeeds, registered if and only if the store does too |
| `CommentModel.RegisteredShowsLatest` | ci-bench-runner/src/job/bench_pr.rs:249-289 | Over any sequence of runs and any call failures a pull request has a registered comment if and only if some run on it updated the registered comment or created and registered one; it belongs to that pull request and shows the latest such run |
| `CommentModel.CommentsCount` | ci-bench-runner/src/job/bench_pr.rs:249-259 | The comments existing on a pull request number exactly its runs that had nothing to update and whose create succeeded |
| `CommentModel.OneCommentPlusFallbacks` | ci-bench-runner/src/job/bench_pr.rs:249-259 | From the first run that reported its result on, the comments created are one plus the later runs that had nothing to update (told from registry and call outcomes) and created, if and only if every comment created before that run could be registered; otherwise the unregistered ones come on top |
| `BencherReport.ReportBuilder.Merge` | ci-bench-runner/src/bencher_dev.rs:170-174 | The loop leaves every benchmark of either map with the metrics of both, the source winning |
| `BencherReport.MergedEntry` | ci-bench-runner/src/bencher_dev.rs:170-174 | Entry by entry a merge has what either side has, the source winning where both have a value |
| `BencherReport.ReportBuilder.MergeMemory` | ci-bench-runner/src/bencher_dev.rs:88-129 | Merges the four heap measures in order |
| `BencherReport.TrackResults` | ci-bench-runner/src/bencher_dev.rs:48-53 | The report is the merge of the six measures of a run |
| `BencherReport.MergeIsLossless` | ci-bench-runner/src/bencher_dev.rs:134-174 | With distinct measures, projecting the merged report on any of them gives back that input restricted to valid names |
| `BencherReport.MergeOrderIsImmaterial` | ci-bench-runner/src/bencher_dev.rs:48-53 | Any order of merging the same sources gives the same report |
| `BencherReport.RunMeasuresAreDistinct` | ci-bench-runner/src/bencher_dev.rs:88-129 | The six measure names of a run are pairwise distinct |
| `BencherReport.RunReport` | ci-bench-runner/src/bencher_dev.rs:48-129 | For every name: "instructions" and "latency" hold the icount and walltime, and "heap-peak-blocks", "heap-peak-bytes", "heap-total-blocks" and "heap-total-bytes" hold just those fields, each present if and only if the scenario was measured and its name is valid; nothing else is reported |
| `ResultFiles.ReadIcountResults` | ci-bench-runner/src/job/mod.rs:16-49 | The loop with its early exits returns the meaning of the file, and fails if and only if that has none |
| `ResultFiles.ReadWalltimeResults` | ci-bench-runner/src/job/mod.rs:52-81 | The same for walltime rows, each reduced to its upper median |
| `ResultFiles.MaybeReadMemoryResults` | ci-bench-runner/src/job/mod.rs:84-121 | The same for memory rows; a file that cannot be opened reads as empty |
| `ResultFiles.ReadFailsOnBadLine` | ci-bench-runner/src/job/mod.rs:26-46 | A read fails if and only if some line cannot be decoded or is a bad row |
| `ResultFiles.BadRows` | ci-bench-runner/src/job/mod.rs:30-114 | A row is bad if and only if it has not exactly two fields (icount), fewer than two (walltime) or not exactly five (memory), or a field after the name does not parse |
| `ResultFiles.LastRowWins` | ci-bench-runner/src/job/mod.rs:31-41 | A name is read if and only if some row names it, and its value is that of the last such row |
| `ResultFiles.LinesComeBack` | ci-bench-runner/src/job/mod.rs:26-29 | A text of non-empty rows without newlines or outer spaces is cut into just these rows, with newlines or carriage returns and newlines, and with or without an ending of the last line |
| `ResultFiles.SpacesDoNotMatter` | ci-bench-runner/src/job/mod.rs:29 | A row is read the same whatever white space surrounds it |
| `ResultFiles.IcountRoundTrip` | ci-bench-runner/src/job/mod.rs:26-48 | Reading the text that has one row per scenario of a map with clean names (no comma, no newline, trimmed), in any order and with any line endings, gives the map back |
| `ResultFiles.MemoryRoundTrip` | ci-bench-runner/src/job/mod.rs:98-120 | The same from the text of a memory file, every field in its place |
| `ResultFiles.WalltimeRoundTrip` | ci-bench-runner/src/job/mod.rs:60-80 | Reading the text of printed samples, in any order of the rows and with any line endings, gives each scenario's median |
| `ResultFiles.MedianIsMiddle` | ci-bench-runner/src/job/mod.rs:73-75 | The stored value is one of the samples, at least n/2 + 1 samples are not above it, at least n - n/2 are not below it, and every permutation of the row gives the same value |

## Left out

- HTTP routes, webhook signatures, GitHub token refresh and all other octocrab calls: plumbing; commit statuses and
  logging have no effect on the modelled state.
- The benchmark runner, `callgrind_diff` and the log handling: a handler ends with Ok, an error or a panic, whichever it
  likes, and a callgrind diff is a function that may fail.
- Authorization and dispatch inside the handlers (`handle_issue_comment`, `handle_pr_review`, `handle_pr_update`):
  single-branch checks over JSON.
- Markdown templates, time units, difference strings and comment truncation: presentation.
- `f64` rounding, overflow and signed zeros.
- Comparison.SplitOnThreshold: says nothing about the order of a list with a ratio of zero by zero. NaN compares with
  nothing, so the comparison handed to the sort is no order, and the result (or a panic) is up to the standard library.
- Thresholds.CalculateSignificanceThresholds: takes nonzero historic results. A zero makes a change infinite or NaN, and
  with NaN among the changes their sort has no defined result. The sort of the changes is the specification function
  `Sort` instead of an in-place sort of a buffer, as the code calls the standard library's; `RankedUnique` shows that any
  sort will do. The same holds for the walltime samples and the two lists of the report.
- Comparison.CompareRefs: takes the measurements as read; which reads fail, and so end the comparison, is in `ResultFiles`.
- SQL text, the planner, kind numbers and timestamp encodings; `cachegrind_diff`, whose answer for a scenario name shared
  between kinds depends on the planner.
- Database.Db.LoadComparisonResult: with several runs stored for one commit pair the query does not say which one is
  returned, and neither does the specification; diffs come back in any order.
- ResultFiles.ReadWalltimeResults: samples are unbounded, where the code parses 128-bit integers (64-bit in the memory
  file); a number that does not fit is one more field that does not parse. Decoding bytes to characters is
  not modelled, except that it may fail.
- RunHistory.HistoryRoundTrip: needs the join to keep its subquery's order, which the query does not promise.
- The file-system watcher, the closing of the channel and the supervisor's delay: the watcher is the environment's pause
  and resume, the service holds a sender so the channel never closes, and time does not pass in the model.
- `bench_main` except for the stores and the report it calls.
- Deployment files (ansible, nix) and the test data.
