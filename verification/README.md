# Helixis, modelled and proved in Dafny

Helixis runs tenants' code on a fleet of executors. A control plane keeps a queue of tasks in Postgres and artifacts,
payloads and outputs in object storage; executors poll for work, run it under a time-limited lease, and report back.
This project models the three parts where its correctness lives, and proves what callers may rely on in every run:

- **The task queue and its leases**: the task, lease, attempt, executor, rate-limit and log tables and every call that
  changes them. `Operations` says what each repository call means, and `Replies` what that comes to, column by column
  and reply by reply. `TaskRepositories` is the repository itself, a class whose methods change the tables in place and
  are proved to do exactly that. `Lives` is the life of one task, with everything that can happen to it, and the
  invariant it keeps. `Worlds` is the whole queue in motion, with a clock, the history of
  every lease ever granted, and polls that have locked a row and not yet committed; it is proved to refine `Lives`, task
  by task. On that rest `Guarantees` (what holds in every state of every run), `Draining` (repeated polls are a greedy
  pass), `RateCap` (how far overlapping polls overshoot a rate limit, exactly), `Tightness` (how long a task can be kept
  going, exactly), `Registry` (executors and limits over whole runs) and `Scenarios` (short runs from the empty queue
  that show what the guarantees leave possible).
- **Content**: `Keys` and `Digests` (object names and declared digests), `Uploads` and `UploadRepositories` (sessions,
  checks, storage and readiness, step by step, with crashes and repeated uploads), `Deliveries` (submission, uploads and
  polling together: every lease is handed the value its task was submitted with), `Files` and `Caches` (the executors'
  artifact cache).
- **Supervision** of a process on an executor, its streams, and the report it ends in. Whatever happens to the process,
  the status name it reports is one the control plane accepts, parses back to the status decided, and is terminal
  (`Supervision.FinalReportFits`).

`Common` and `Tables` hold the shared types. `Schema` keeps the database's own constraints and relates the reconciler's
loop to the simultaneous update it amounts to.

## How the model reads the source

- Each repository method is one atomic step with one reading of the clock, as each is one transaction and `NOW()` is its
  start. Polls are also split in two, begin (count the group, lock the row) and commit, with any other steps between.
  Counting and locking together are one step; an update of a row that an open poll has locked waits for it.
- Postgres does not promise all of that: most statements take no row lock, the query of the reconciler has no
  `FOR UPDATE`, and its updates do not look at the status again. The check and the insert of a log chunk are likewise one
  step here.
- The clock never goes back. It may stand still, lease durations and `max_attempts` may be any integers, and nothing is
  assumed about how long anything takes.
- Identifiers made by `Uuid::new_v4()` are fresh. `created_at` is a total order, kept as the rank in which rows were
  inserted.
- The chunks of one lease and stream are appended one after another, as the executor awaits each reply
  (apps/executor/src/sandbox.rs:284-293), so their chunk_index order is the order they were sent in. Nothing is claimed
  about the order between streams, whose inserts may overlap.
- Object puts are atomic. The hash writes hexadecimal; only the lemmas that say so assume that it has no collisions. A
  rendered JSON value parses back to itself. An archive is the sequence of entries it yields, and every entry can fail.
- Extraction itself is taken at its most trusting: it joins the entry's path to the folder, goes up for a parent, back
  to the root for a root, and follows links, to at most 40. The library's own refusals are not relied on. The folders
  above the cache are taken to be folders and not links.
- A rename onto a missing name or an empty folder succeeds and any other fails; whether the failure is reported as
  `AlreadyExists` is left open, and both of the source's arms are modelled.

## What the proofs found

- **Rate limits are soft.** The RFC calls the configured caps hard (docs/rfc-001-system-architecture.md:424-425). Polls
  that overlap each count only committed tasks, so k of them on one group's tasks reach `max_inflight + k - 1` and no
  further (`RateCap.CapUnderOverlap`, `RateCap.BoundAttained`), and two tasks in flight under a limit of one is a
  reachable state (`Scenarios.LimitOfOneExceeded`). A set of open polls is safe exactly when what is in flight plus what is open fits
  under the limit (`RateCap.SafeToCommit`).
- **A cancelled task may keep its lease for ever.** A lease can still be deleted exactly when it did not run out under a
  cancelled task (`Guarantees.ReleasableExactly`), and one that did is reachable (`Scenarios.OrphanHappens`).
- **A terminal report without a Running report before it loses its logs_ref.** `get_task_outputs` takes it from an
  attempt, and only a Running report makes one: `Guarantees.OutputsStable` says exactly when, and
  `Scenarios.LogsRefDropped` is such a run. Log chunks appended under the lease are still there.
- **Leases lost before they start are not counted as attempts.** From any state, a queued task that is allowed an
  attempt can be handed out and lost any number of times and is queued again after each; one submitted with
  `max_attempts` below one, which nothing refuses, is dead after the first (`Tightness.LossesExactly`).
  `Guarantees.ProgressBound` counts such losses, and `Tightness.SubmissionReachesBound` says when its bound is reached.

## Model

| member | source | states |
|---|---|---|
| Operations.Pick | crates/persistence/src/repositories/task.rs:258-303 | The row a poll takes is a queued, unlocked task of the pack whose group is below its limit; no other such task has a higher priority, and none of the same priority is older; when it takes none, no task qualifies |
| Operations.FirstExists | crates/persistence/src/repositories/task.rs:299-301 | Every non-empty set of rows has one of highest priority that is older than all others of that priority |
| Operations.PickExists | crates/persistence/src/repositories/task.rs:258-303 | A poll finds a row whenever some task qualifies |
| TaskRepositories.TaskRepository.constructor | migrations/20260413182138_initial_setup.sql:30-77 | The empty tables satisfy the schema constraints |
| TaskRepositories.TaskRepository.InsertTask | crates/persistence/src/repositories/task.rs:132-207 | Accepted exactly if the artifact is of that tenant and pack and neither the id nor the tenant's idempotency key is in use; then the row holds every column of the request and starts queued; otherwise nothing changes |
| TaskRepositories.TaskRepository.PollAndLease | crates/persistence/src/repositories/task.rs:209-350 | One poll transaction: refused to an executor not heard from within 60 seconds, empty when nothing qualifies, and otherwise the highest-priority, oldest task that does becomes Scheduled under one new lease; every refusal leaves all tables as they were |
| TaskRepositories.TaskRepository.UpdateTaskStatus | crates/persistence/src/repositories/task.rs:352-513 | A report is accepted exactly if its lease is for that task and executor and has not expired, and it is one of the five terminal statuses, or Running for a task that is Scheduled or Running; an accepted terminal report sets that status and takes the lease; every other report changes nothing |
| Replies.PickIsForemost | crates/persistence/src/repositories/task.rs:258-303 | The same order and conditions as the query, column by column, for what a poll finds and for when it finds nothing |
| Replies.PollAnswers | crates/persistence/src/repositories/task.rs:209-350 | Each of the three replies of a poll exactly when it is given: the refusals, nothing, and the lease with its four columns and the row it marks |
| Replies.ReportAnswers | crates/persistence/src/repositories/task.rs:379-505 | Exactly which reports are accepted, and which error goes with which refusal |
| Replies.TerminalReport | crates/persistence/src/repositories/task.rs:461-499 | What each column of the task, its attempts and the leases is after a terminal report |
| Replies.RunningReport | crates/persistence/src/repositories/task.rs:406-455 | What each column of the task and of its new attempt is after a report of Running |
| Replies.ReconcilerTasks | crates/persistence/src/repositories/task.rs:522-558 | Which tasks the reconciler writes, and Queued below max_attempts, DeadLetter otherwise |
| Replies.ReconcilerLeases | crates/persistence/src/repositories/task.rs:560-580 | Which leases it deletes and which attempts it closes, and how |
| Replies.InsertAnswers | crates/persistence/src/repositories/task.rs:132-207 | Exactly which inserts are accepted, the error of each refusal, and every column of the new row |
| Replies.CancelAnswers | crates/persistence/src/repositories/task.rs:589-620 | Not found for an unknown task, a conflict for a terminal one, and otherwise one row marked at that time |
| Replies.AppendAnswers | crates/persistence/src/repositories/task.rs:622-672 | Accepted exactly for an existing lease of that task and executor, and then last in the table |
| Replies.RegistryAnswers | crates/persistence/src/repositories/executor.rs:32-45 | A heartbeat is accepted exactly from a registered executor, a limit exactly when positive |
| TaskRepositories.TaskRepository.MarkRunning | crates/persistence/src/repositories/task.rs:405-455 | Scheduled becomes Running with one more attempt counted; a repeated report counts nothing; one attempt row for each lease; a taken attempt id rolls everything back |
| TaskRepositories.TaskRepository.Settle | crates/persistence/src/repositories/task.rs:456-505 | Writes the terminal status, closes the open attempt of this lease with the report and deletes the lease |
| TaskRepositories.TaskRepository.LoseLease | crates/persistence/src/repositories/task.rs:542-573 | The two updates for one expired lease |
| TaskRepositories.TaskRepository.LoseLeases | crates/persistence/src/repositories/task.rs:541-574 | The loop, in any order of the leases, equals the simultaneous update of all their tasks and attempts |
| TaskRepositories.TaskRepository.RequeueExpiredLeases | crates/persistence/src/repositories/task.rs:515-587 | The whole call equals one simultaneous update of the database as it was, and returns the number of expired leases |
| TaskRepositories.TaskRepository.CancelTask | crates/persistence/src/repositories/task.rs:589-620 | A task that is not terminal becomes Cancelled and keeps its lease; otherwise not-found and conflict are told apart and nothing changes |
| TaskRepositories.TaskRepository.AppendTaskLogChunk | crates/persistence/src/repositories/task.rs:622-672 | The chunk goes last, if the lease exists for that task and executor, expired or not; otherwise nothing changes |
| TaskRepositories.TaskRepository.GetTaskOutputs | crates/persistence/src/repositories/task.rs:60-106 | Status and result of the task with the logs of an attempt started last, or none without attempts; missing exactly for an unknown task |
| TaskRepositories.NewestExists | crates/persistence/src/repositories/task.rs:74-83 | A task with attempts has one that no other started after |
| Schema.RequeueOneMore | crates/persistence/src/repositories/task.rs:542-558 | The step behind the loop: with one lease a task, handling one more lease reads a row no earlier turn wrote |
| Schema.CloseOneMore | crates/persistence/src/repositories/task.rs:560-573 | Closing the attempts of a set of leases one lease at a time closes exactly those of the set |
| Schema.RequeueMovesEachOnce | crates/persistence/src/repositories/task.rs:522-587 | The reconciler moves each in-flight task with an expired lease exactly once, to Queued or DeadLetter, and no other; deletes exactly those leases; as many tasks move as leases expire; a second call at the same time finds nothing |
| Schema.RequeueClosesTheirAttempts | crates/persistence/src/repositories/task.rs:560-573 | Exactly the open attempts of the expired leases close, as LeaseExpired, at that time; every other attempt is untouched |
| Lives.ChangeSound | crates/persistence/src/repositories/task.rs:209-620 | Every change a task can undergo keeps the joint invariant over its row, lease, attempts and past leases |
| Lives.LeasedSound | crates/persistence/src/repositories/task.rs:305-319 | Leasing a queued task keeps it: the new window begins after every earlier one is over |
| Lives.StartedSound | crates/persistence/src/repositories/task.rs:405-455 | Starting an attempt keeps it |
| Lives.FinishedSound | crates/persistence/src/repositories/task.rs:456-505 | A terminal report keeps it, even on a cancelled task, and leaves no lease |
| Lives.LostSound | crates/persistence/src/repositories/task.rs:542-580 | Losing an expired lease keeps it |
| Lives.LostLapses | crates/persistence/src/repositories/task.rs:560-573 | After a lost lease every attempt of the task has closed as LeaseExpired |
| Lives.TerminalCloses | crates/persistence/src/repositories/task.rs:456-505 | A terminal status changes only when the live lease of a cancelled task reports, and stays terminal |
| Lives.MeasureFalls | crates/persistence/src/repositories/task.rs:405-605 | The progress measure falls with every change of status or lease, save that a lease lost before it started adds one |
| Worlds.TickFelt | crates/persistence/src/repositories/task.rs:209-620 | Refinement: any event of the whole system, split polls included, is for each task one allowed change of its own life or none |
| Worlds.CommitInserts | migrations/20260413182138_initial_setup.sql:64-70 | The lease insert of a poll never breaks the unique constraint on task_id, nor on the lease id |
| Worlds.LockedStays | crates/persistence/src/repositories/task.rs:258-303 | A row locked by an open poll stays Queued until that poll ends, and no other lease is granted for its task |
| Worlds.StepFramed | crates/persistence/src/repositories/task.rs:209-620 | No call but a submission adds or removes a task, or changes a column the submission wrote |
| Worlds.Newborn | apps/cplane/src/handlers.rs:191-205 | A submitted task starts Queued, at attempt 0, with no lease, attempt or past |
| Worlds.StepInv | crates/persistence/src/repositories/task.rs:132-620 | Every event keeps the joint invariant of the three tables, the open polls and the lease history |
| Worlds.RunInv | crates/persistence/src/repositories/task.rs:132-620 | So every state of every run satisfies it |
| Guarantees.Reachable | crates/persistence/src/repositories/task.rs:132-620 | Every state reachable from the empty queue satisfies the invariant the guarantees start from |
| Guarantees.KeyTakenForever | migrations/20260413182138_initial_setup.sql:54 | After an accepted submission with an idempotency key, every other of that tenant and key is refused in every later state |
| Guarantees.StatusAndLeasesAgree | crates/persistence/src/repositories/task.rs:305-319 | Scheduled and Running tasks have exactly one lease, all others none, except that a Cancelled task may keep one |
| Guarantees.LeaseExclusion | crates/persistence/src/repositories/task.rs:308-319 | The validity windows of any two leases ever granted for one task are disjoint |
| Guarantees.AttemptsAccounted | crates/persistence/src/repositories/task.rs:406-455 | current_attempt is the number of attempt rows, at most max(1, max_attempts), and strictly less while Queued or Scheduled |
| Guarantees.AttemptsAreATimeline | crates/persistence/src/repositories/task.rs:439-450 | Of any two attempts of a task the earlier started strictly before, closed as LeaseExpired, and closed no later than the other began |
| Guarantees.OpenAttemptIsCurrent | crates/persistence/src/repositories/task.rs:480-490 | An attempt is open exactly while its lease exists, which is the lease of its own task, and began inside that lease's window |
| Guarantees.FinishedForever | crates/persistence/src/repositories/task.rs:480-490 | A finished attempt never changes again |
| Guarantees.DeadForever | crates/persistence/src/repositories/task.rs:379-403 | A lease once deleted or past its expiry stays so: nothing renews or reinserts it |
| Guarantees.Fenced | crates/persistence/src/repositories/task.rs:379-403 | In every continuation, any report bearing a dead lease is refused and changes nothing |
| Guarantees.DuplicateCompletionRefused | crates/persistence/src/repositories/task.rs:496-499 | After an accepted terminal report, every later report under that lease is refused |
| Guarantees.OverForever | crates/persistence/src/repositories/task.rs:456-505 | A terminal task without a lease never changes again in any respect |
| Guarantees.TerminalForever | crates/persistence/src/repositories/task.rs:522-605 | No run takes a task from a terminal status to one that is not, and unless it was Cancelled its row never changes |
| Guarantees.OnlyOverwrite | crates/persistence/src/repositories/task.rs:456-505 | The one change of a terminal row is an accepted terminal report on a Cancelled task |
| Guarantees.OneTerminalReport | crates/persistence/src/repositories/task.rs:456-505 | At most one terminal report is accepted for a task in any run |
| Guarantees.OrphanLeaseStays | crates/persistence/src/repositories/task.rs:522-529 | A lease that expires under a cancelled task is never deleted: the reconciler looks only at tasks in flight |
| Guarantees.ReleasableExactly | crates/persistence/src/repositories/task.rs:496-580 | In any reachable state some run deletes a lease if and only if it did not expire under a cancelled task |
| Scenarios.OrphanHappens | crates/persistence/src/repositories/task.rs:522-529 | A run from the empty queue that leaves such a lease behind, with the reconciler run at its expiry |
| Guarantees.MovesPaid | crates/persistence/src/repositories/task.rs:405-605 | Over any run, the changes of a task plus the measure left stay within the measure at the start plus two for each lease lost unstarted |
| Guarantees.ProgressBound | crates/persistence/src/repositories/task.rs:405-605 | A submitted task changes status or lease at most 3 max(1, max_attempts) + 1 + 2u times, u its leases lost unstarted |
| Lives.UnstartedLoss | crates/persistence/src/repositories/task.rs:542-547 | After a lease lost unstarted a task is Queued again if max_attempts is at least one, and otherwise DeadLetter for good |
| Tightness.BoundReachedExactly | crates/persistence/src/repositories/task.rs:405-605 | From any reachable state, whatever other leases are out and polls are open, some run takes a queued task with a attempts left through 3a + 1 + 2u moves, u of its leases lost unstarted, if and only if its max_attempts is at least one or u is zero |
| Tightness.SubmissionReachesBound | crates/persistence/src/repositories/task.rs:405-605 | So every accepted submission reaches the bound 3 max(1, max_attempts) + 1 + 2u on exactly that condition |
| Tightness.LossesExactly | crates/persistence/src/repositories/task.rs:542-547 | From any reachable state a queued task can lose any number k of leases unstarted if and only if its max_attempts is at least one or k is at most one |
| Tightness.LoseAll | crates/persistence/src/repositories/task.rs:542-547 | With max_attempts at least one, from any reachable state, some run loses a queued task unstarted once for each of any distinct unused lease ids, and leaves it Queued |
| Tightness.AtMostOneLoss | crates/persistence/src/repositories/task.rs:542-547 | With max_attempts below one, no run from any reachable state loses more than one |
| Tightness.LossesCost | crates/persistence/src/repositories/task.rs:542-580 | With max_attempts below one, moves plus twice the leases lost unstarted stay within the measure |
| Guarantees.RanAnswer | crates/persistence/src/repositories/task.rs:461-494 | The attempt that a report closes is the only one started last, and carries that report's logs |
| Guarantees.NeverRanAnswer | crates/persistence/src/repositories/task.rs:480-490 | If the lease never went Running, no attempt of the task has logs |
| Guarantees.AnswersOfView | crates/persistence/src/repositories/task.rs:60-106 | What get_task_outputs may answer depends on the task's own row and attempts alone |
| Guarantees.OutputsStable | crates/persistence/src/repositories/task.rs:60-106 | After an accepted terminal report, an answer of get_task_outputs in any later state is exactly that status and result, with the report's logs if and only if its lease had gone Running, and no logs otherwise |
| Scenarios.LogsRefDropped | crates/persistence/src/repositories/task.rs:461-494 | A run from the empty queue in which a report with a logs_ref is accepted under a lease that never went Running, and the outputs have none |
| Guarantees.LogOrder | crates/persistence/src/repositories/task.rs:108-130 | For each lease and stream, what a run adds in chunk order is the sequence of chunks sent less those refused |
| Guarantees.KeptIsChosen | crates/persistence/src/repositories/task.rs:622-672 | What a run keeps is selected from what it sent by one verdict a chunk, given when it was sent |
| Guarantees.StreamOnlyGrows | crates/persistence/src/repositories/task.rs:108-130 | The persisted chunks of a lease and stream, in chunk_index order, only ever grow at their end |
| Guarantees.NothingMissing | crates/persistence/src/repositories/task.rs:655-669 | If every append a run makes for a lease and stream is accepted, everything it sent there is persisted, in order |
| Registry.PollWelcomeExactly | crates/persistence/src/repositories/task.rs:221-256 | In any reachable state a poll gets past its two checks if and only if its executor registered and, then or later, was heard from within 60 seconds |
| Registry.IdleGroupMayStart | crates/persistence/src/repositories/task.rs:270-298 | Since limits are always positive, a waiting task of a group with nothing in flight qualifies for a poll |
| Draining.DrainIsGreedy | crates/persistence/src/repositories/task.rs:258-303 | From any reachable state without open polls, successive polls of a pack lease exactly what one greedy pass over its queue in rank order takes, in that order, and then nothing |
| Draining.OnePoll | crates/persistence/src/repositories/task.rs:258-319 | One poll takes the first task of the queue that still has room and leaves what the pass would leave |
| Draining.GroupShare | crates/persistence/src/repositories/task.rs:270-298 | Of a limited group the pass takes the best-ranked min(queued, max(0, max_inflight - active)) tasks, active counted over all packs |
| Draining.UnlimitedAllTaken | crates/persistence/src/repositories/task.rs:270-298 | Tasks without a limit are all taken |
| Draining.CanBeSorted | crates/persistence/src/repositories/task.rs:299-301 | Every queue has such a listing, without repetition |
| Draining.BeginThenCommit | crates/persistence/src/repositories/task.rs:209-350 | A poll begun and committed with nothing between is the whole poll transaction |
| RateCap.CapUnderOverlap | crates/persistence/src/repositories/task.rs:258-323 | With at most k polls open at once on a group's tasks, any number on others, and a limit in place and never lowered, the group never has more than max_inflight + k - 1 tasks in flight |
| RateCap.CapWithoutOverlap | crates/persistence/src/repositories/task.rs:258-323 | One poll at a time on a group's own tasks keeps its limit |
| RateCap.OccupiedStep | crates/persistence/src/repositories/task.rs:258-323 | Every event keeps tasks in flight plus open polls of the group within that bound |
| RateCap.OpenPollsDisjoint | crates/persistence/src/repositories/task.rs:301-302 | No two open polls hold the same task, and each holds a queued one |
| RateCap.SafeToCommit | crates/persistence/src/repositories/task.rs:305-323 | Commits alone keep a group within its limit in every state on the way if and only if its tasks in flight plus its open polls fit under the limit beforehand |
| RateCap.AllCanCommit | crates/persistence/src/repositories/task.rs:305-323 | Every open poll can commit whatever the others do, and each takes its slot |
| RateCap.BoundAttained | crates/persistence/src/repositories/task.rs:258-323 | The bound is tight: from any state without open polls and with room in the group, if max_inflight - 1 - active + k of its tasks wait in a pack, whatever else waits there and however it ranks, some run with at most k polls open reaches max_inflight + k - 1 |
| RateCap.FillStep | crates/persistence/src/repositories/task.rs:258-319 | One poll on the way to the bound: left open exactly if it holds a task of the group and the group has one slot left, committed otherwise, and each brings the bound nearer |
| Scenarios.LimitOfOneExceeded | docs/rfc-001-system-architecture.md:424-425 | A run from the empty queue, never with more than two polls open, that puts two tasks in flight under a limit of one, so the limit is not a hard one |
| Keys.TextInjective | apps/cplane/src/handlers.rs:542 | Different identifiers have different texts |
| Keys.PathInjective | apps/executor/src/output_store.rs:45-46 | Different objects, whoever writes them, are stored under different keys |
| Keys.InTheirFolders | apps/executor/src/output_store.rs:45-46 | What belongs to a task lies in its folder, and what belongs to a lease in that lease's folder within it |
| Uploads.KeysByKind | apps/cplane/src/handlers.rs:612 | Artifacts and payloads are stored apart, each under its own identifier |
| Digests.MatchesTwoForms | apps/cplane/src/handlers.rs:632-634 | A declared digest matches a hash exactly when it is that hash with its label or without |
| Digests.SameDigestSameBytes | apps/cplane/src/handlers.rs:632-634 | Without collisions, two bodies accepted under one declared digest are one |
| UploadRepositories.UploadRepository.constructor | crates/persistence/src/repositories/artifact.rs:11-16 | A repository starts empty |
| UploadRepositories.UploadRepository.CreateUpload | crates/persistence/src/repositories/artifact.rs:19-75 | A pending row and its session; a conflict for a digest that is taken, a database error for a taken id, and then no change |
| UploadRepositories.UploadRepository.CompleteUpload | crates/persistence/src/repositories/artifact.rs:124-190 | Marks row and session together, once; refuses an unknown or completed session and changes nothing |
| UploadRepositories.UploadRepository.Upload | apps/cplane/src/handlers.rs:568-630 | The upload handler: bytes are accepted exactly if they have the declared size and hash, bare or labelled, and for payloads parse; a pending session then ends with the row ready and these bytes under its key, a completed one in a conflict after they were stored; what is refused is not stored |
| Uploads.AcceptsExactly | apps/cplane/src/handlers.rs:591-603 | The handlers accept exactly the bytes of the declared size and hash, and for payloads only JSON |
| Uploads.CreateAnswers | crates/persistence/src/repositories/artifact.rs:19-75 | Each reply of creating an upload exactly when it is given, and every column of the new row and session |
| Uploads.CompleteAnswers | crates/persistence/src/repositories/artifact.rs:124-190 | Each reply of completing one, and what it marks |
| Uploads.UploadSucceeds | apps/cplane/src/handlers.rs:591-616 | Whatever else is stored, an upload under a digest not in use, of bytes that fit it, can be created, stored and made ready |
| UploadRepositories.UploadIsThreeSteps | apps/cplane/src/handlers.rs:591-616 | Uninterrupted, that handler is the check, put and finish of the interleaved pipeline |
| Uploads.StepInv | crates/persistence/src/repositories/payload.rs:119-183 | Every step of the pipeline, crashes and repeated uploads included, keeps rows, sessions, stored bytes and pending requests in agreement |
| Uploads.StoreStep | apps/cplane/src/handlers.rs:591-606 | Bytes under an object's key are only ever replaced by bytes accepted for that object |
| Uploads.ReadyMeansCompleted | crates/persistence/src/repositories/artifact.rs:135-174 | Ready, having an object key and having a completed session are one |
| Uploads.ReadyIsVerified | apps/cplane/src/handlers.rs:591-616 | A ready object's key holds bytes of its declared size that match its digest, and for payloads parse |
| Uploads.ContentStays | apps/cplane/src/handlers.rs:591-616 | Without collisions a step never changes the bytes of a ready object |
| Uploads.Reachable | apps/cplane/src/handlers.rs:487-630 | Every state reachable from an empty shelf by uploads, repeated and interrupted at will, satisfies the invariant |
| Uploads.ReadyForever | apps/cplane/src/handlers.rs:591-616 | In every continuation a ready object stays ready with the same row and the same bytes |
| Uploads.AtMostTwoAlike | crates/persistence/src/repositories/artifact.rs:29-50 | At most two ready objects have the same content: the digest with its label and without |
| Deliveries.AdmissionAnswers | apps/cplane/src/handlers.rs:91-205 | Exactly which requests are admitted, the reply to each other, and every column of the task made, with 0, 300 and 3 where priority, timeout and attempts are missing |
| Deliveries.AdmittedGood | apps/cplane/src/handlers.rs:91-190 | What submit_task admits names a ready artifact of its tenant and pack, and a payload that resolves to the submitted value or is about to |
| Deliveries.OwnedStays | apps/cplane/src/handlers.rs:146 | No step of another writer changes what a key of the task's own, or of a ready payload of its tenant, holds |
| Deliveries.StepInv | apps/cplane/src/handlers.rs:91-224 | Every step of submissions, uploads, polls and output writers keeps every task deliverable |
| Deliveries.Reachable | apps/cplane/src/handlers.rs:91-362 | Every state the whole system reaches from an empty one satisfies the invariant that makes tasks deliverable |
| Deliveries.LoadAnswers | apps/cplane/src/handlers.rs:816-832 | Loading gives the value the reference resolves to, nothing for no reference, and an error exactly if the object is missing or does not parse |
| Deliveries.Delivered | apps/cplane/src/handlers.rs:323-346 | In any such state the poll handler loads exactly the value the task was submitted with, from a key of its own or of a ready payload of its own tenant, and finds its artifact ready |
| Deliveries.DeliveredForever | apps/cplane/src/handlers.rs:310-362 | In every continuation, for the first lease and for retries, the value delivered is still that one |
| Deliveries.RequestDelivered | apps/cplane/src/handlers.rs:91-224 | End to end: after an admitted request, in every continuation in which its task is in the queue, its row holds every column asked for, the poll handler loads the request's inline value, or what its upload parsed to at admission, or nothing if it had neither, and finds the artifact it named, ready and of its tenant and pack |
| Deliveries.AdmittedEnters | apps/cplane/src/handlers.rs:206-223 | An admitted request whose bytes are stored enters the queue, with the columns it asked for, exactly if its idempotency key is not in use |
| Deliveries.RequestEnters | apps/cplane/src/handlers.rs:91-224 | An admitted request whose key is not in use can always be brought into the queue |
| Files.WriteConfined | apps/executor/src/artifact_client.rs:85-105 | Because the path is validated and links are refused, writing an entry changes nothing outside the folder it is unpacked in, nor the folder itself, and leaves no link there, even where extraction would follow parents, roots and links |
| Files.EntryWritten | apps/executor/src/artifact_client.rs:85-105 | An entry is written exactly if its path has no parent, root or prefix, it is a file or a folder, and nothing of another kind stands in its way; then it is there with the folders on its way, and all else is as it was |
| Files.PathAccepted | apps/executor/src/artifact_client.rs:133-147 | Current-directory components are accepted; parents, roots and prefixes are not |
| Files.NamesJoin | apps/executor/src/artifact_client.rs:85-105 | An entry goes where the names of its path lead, in order |
| Files.ParentEscapes | apps/executor/src/artifact_client.rs:133-147 | Without the path check an entry with a parent component is written beside the folder |
| Files.RootEscapes | apps/executor/src/artifact_client.rs:133-147 | Without the path check an entry with a root component is written at the root |
| Files.LinkEscapes | apps/executor/src/artifact_client.rs:91-97 | Without the refusal of links of either kind, two entries with valid paths overwrite any file outside the folder |
| Files.WriteBelow | apps/executor/src/artifact_client.rs:85-105 | Unpacking into a folder without links depends only on that folder's contents and builds the same tree there as on its own |
| Files.MoveShows | apps/executor/src/artifact_client.rs:112-121 | After the rename the cache folder shows what the staging folder showed |
| Caches.StagingApartFromCache | apps/executor/src/artifact_client.rs:72-74 | No staging folder lies inside a cache folder or around one |
| Caches.StagingsApart | apps/executor/src/artifact_client.rs:72-74 | Staging folders of different downloads are disjoint |
| Caches.Downloader.UnpackAll | apps/executor/src/artifact_client.rs:85-105 | The loop over entries yields the whole archive, or fails exactly when some entry is refused, and changes nothing but what is inside its folder |
| Caches.Downloader.EnsureArtifactCached | apps/executor/src/artifact_client.rs:46-130 | A hit changes nothing; a miss leaves the whole archive under the cache name or no cache folder, and tells which error; other artifacts' folders are untouched |
| Caches.Downloader.PublishStaged | apps/executor/src/artifact_client.rs:112-121 | A rename onto a free name publishes the staging folder; onto a taken name it leaves the cache as it was; either way the staging folder is gone |
| Caches.UnpackStops | apps/executor/src/artifact_client.rs:85-105 | One refused entry refuses the archive |
| Caches.StepInv | apps/executor/src/artifact_client.rs:46-130 | Every step of any number of downloaders and of the upload pipeline, with crashes between steps and part-way through making the staging folder, writing an entry or removing the folder, keeps every cache folder faithful |
| Caches.CacheAgrees | apps/executor/src/artifact_client.rs:46-130 | In every state of every run, an artifact's cache folder, if it exists, is the full unpacking of what is stored for that artifact |
| Caches.PublishCaches | apps/executor/src/artifact_client.rs:112-121 | A download that unpacked everything and finds the name free makes the artifact cached |
| Caches.CanBeCached | apps/executor/src/artifact_client.rs:46-130 | From any state, a download of a ready artifact whose archive unpacks and whose name is free can be run to its end, and then the artifact is cached |
| Supervision.Supervise | apps/executor/src/sandbox.rs:118-180 | Each ending exactly when the turns mean it: TimedOut and Cancelled by what came first before the process left, Succeeded and Failed by the exit code of one left alone, broken when a kill, the wait or the storing failed; the flags likewise; one kill exactly when there was such a stop |
| Supervision.FlattenJoins | apps/executor/src/sandbox.rs:285 | Captured bytes are concatenated in the order of the chunks |
| Supervision.NamesReadBack | apps/cplane/src/handlers.rs:659-666 | The status handler reads the five names an executor may report as what they are, and none of the other three |
| Supervision.SucceededExactly | apps/executor/src/sandbox.rs:213-221 | Succeeded is reported if and only if the process left with code 0 before any stop or failed wait and its outputs were stored |
| Supervision.StreamAndCapture | apps/executor/src/sandbox.rs:265-297 | Exactly the chunks read before the end or an error are sent, one for one and in that order, whatever became of each; the bytes kept are their concatenation, and a read error loses the capture |

## Left out

- HTTP routing, request parsing and reply texts, the `reqwest` client, tracing, and the set-up of Postgres and S3.
- Full READ COMMITTED semantics below the steps listed above: an unlocked race between the reconciler and a completion is not modelled.
- Integer widths: counters and sizes are unbounded. `current_attempt` stays within `max(1, max_attempts)`, so it cannot overflow where `max_attempts` does not.
- Columns nothing reads back (`updated_at`, `completed_at`, heartbeat sessions and capabilities) and foreign keys other than a task's artifact; executors and tenants are never removed.
- Rows written by hand or by older versions, such as artifacts whose object key was not made by the upload handler.
- Live log streaming (`LiveLogHub`, server-sent events): what it may drop is the channel library's affair.
- UTF-8: captured streams are bytes and persisted chunks are text; the lossy conversion of each chunk between them is not modelled.
- Hashing, gzip, tar and JSON themselves, and the secret cipher.
- Process spawning, directory copies, runtime adapters, environments, and the executor's back-off between polls.
- What only the RFCs describe: fairness scores, lease renewal, delayed tasks, log truncation.
- `submit_task` and `poll_tasks` are steps of a state machine (`Deliveries`), not methods of a class: their statements are interleaved with everyone else's, which a method cannot show. Environment and secret look-ups of `poll_tasks` are left out.
- Uploads whose declared size is negative or too large for memory are refused by the same size check; the handler's own limit on how much of a body it reads is part of that check.
- Worlds.Enabled: an update that meets a row lock is delayed until the poll that holds it has ended, so the order in which waiting transactions proceed is not modelled.
- Caches.Downloader.EnsureArtifactCached: one downloader left to itself; what others may do between its steps is in `Caches.StepInv` and `Caches.CacheAgrees`.
- Supervision.Supervise: the turns of the select loop are given as a sequence, so fairness and real time between them are not modelled, nor is the text of the error reported.
