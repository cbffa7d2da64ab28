/** What each call answers and writes, said in the columns it reads and nothing else. */
module Replies {
  import opened Common
  import opened Tables
  import opened Operations

  /** The tables that a call did not mean to change. */
  predicate OnlyTasks(db: Db, n: Db) {
    n == db.(tasks := n.tasks)
  }

  // ---------- polling ----------

  /** The in-flight tasks of a tenant that share a rate-limit key. */
  function Taken(db: Db, tenant: Uuid, key: string): set<Uuid> {
    set u | u in db.tasks && db.tasks[u].tenant == tenant && db.tasks[u].limitKey == Some(key) &&
            (db.tasks[u].status == Scheduled || db.tasks[u].status == Running)
  }

  /** What a poll of this pack may take. */
  predicate Takable(db: Db, pack: string, locked: set<Uuid>, t: Uuid) {
    && t in db.tasks && t !in locked && db.tasks[t].status == Queued && db.tasks[t].pack == pack
    && (db.tasks[t].limitKey.Some? ==>
          var tenant, key := db.tasks[t].tenant, db.tasks[t].limitKey.value;
          (tenant, key) in db.limits ==> |Taken(db, tenant, key)| < db.limits[(tenant, key)])
  }

  /** Higher priority first, and among equals the older task. */
  ghost predicate Foremost(db: Db, pack: string, locked: set<Uuid>, t: Uuid) {
    && Takable(db, pack, locked, t)
    && forall u :: Takable(db, pack, locked, u) && u != t ==>
         && db.tasks[u].priority <= db.tasks[t].priority
         && (db.tasks[u].priority == db.tasks[t].priority ==> db.tasks[t].created < db.tasks[u].created)
  }

  lemma TakableIsCandidate(db: Db, pack: string, locked: set<Uuid>, t: Uuid)
    ensures Takable(db, pack, locked, t) == Candidate(db, pack, locked, t)
  {
    if t in db.tasks && db.tasks[t].limitKey.Some? {
      var tenant, key := db.tasks[t].tenant, db.tasks[t].limitKey.value;
      assert Taken(db, tenant, key) == ActiveIn(db, (tenant, key));
    }
  }

  /** A poll finds the foremost task it may take, and finds nothing only when there is none. */
  lemma PickIsForemost(db: Db, pack: string, locked: set<Uuid>)
    requires Ordered(db)
    ensures match Pick(db, pack, locked)
            case Some(t) => Foremost(db, pack, locked, t)
            case None => forall t :: !Takable(db, pack, locked, t)
  {
    forall t
      ensures Takable(db, pack, locked, t) == Candidate(db, pack, locked, t)
    {
      TakableIsCandidate(db, pack, locked, t);
    }
  }

  /** An executor seen within the last sixty seconds. */
  predicate Recent(db: Db, now: Time, executor: Uuid) {
    executor in db.executors && now - 60_000_000 <= db.executors[executor]
  }

  /**
   * Polling: refused exactly to executors unknown or silent for a minute; otherwise the foremost task is leased to the
   * caller for the seconds asked for, or nothing is and nothing may be.
   */
  lemma PollAnswers(db: Db, now: Time, pack: string, executor: Uuid, seconds: int, id: Uuid)
    requires Ordered(db) && id !in db.leases
    requires forall l <- db.leases :: db.leases[l].task in db.tasks ==> db.tasks[db.leases[l].task].status != Queued
    ensures match PollAndLease(db, now, pack, executor, seconds, id)
            case Err(e) => e.Conflict? && !Recent(db, now, executor)
            case Ok((n, None)) =>
              Recent(db, now, executor) && n == db && forall t :: !Takable(db, pack, {}, t)
            case Ok((n, Some(lease))) =>
              && Recent(db, now, executor) && Foremost(db, pack, {}, lease.task)
              && lease == Lease(lease.task, executor, now, now + seconds * 1_000_000)
              && var row := db.tasks[lease.task];
                 n == db.(tasks := db.tasks[lease.task := row.(status := Scheduled, scheduledAt := Some(now))],
                          leases := db.leases[id := lease])
  {
    PickIsForemost(db, pack, {});
  }

  // ---------- status reports ----------

  predicate FinalStatus(s: Status) {
    s == Succeeded || s == Failed || s == Cancelled || s == TimedOut || s == DeadLetter
  }

  /** The lease exists, is for that task and executor, and has not expired. */
  predicate Bears(db: Db, now: Time, r: Report) {
    && r.lease in db.leases && db.leases[r.lease].task == r.task && db.leases[r.lease].executor == r.executor
    && now < db.leases[r.lease].expires
  }

  /** When a report of Running may count: the task is leased or running, and its attempt is there or can be added. */
  predicate MayRun(db: Db, r: Report, attempt: Uuid) {
    && r.task in db.tasks && (db.tasks[r.task].status == Scheduled || db.tasks[r.task].status == Running)
    && ((exists a :: a in db.attempts && db.attempts[a].lease == r.lease) || attempt !in db.attempts)
  }

  predicate Due(db: Db, now: Time, r: Report, attempt: Uuid) {
    && Bears(db, now, r)
    && ((FinalStatus(r.status) && r.task in db.tasks) || (r.status == Running && MayRun(db, r, attempt)))
  }

  /** A report is accepted exactly when it is due, and each refusal has its error. */
  lemma ReportAnswers(db: Db, now: Time, r: Report, attempt: Uuid)
    ensures var out := UpdateTaskStatus(db, now, r, attempt);
            && (out.Ok? <==> Due(db, now, r, attempt))
            && (out.Err? && (!Bears(db, now, r) || r.status == Queued || r.status == Scheduled) ==> out.error.Conflict?)
            && (out.Err? && Bears(db, now, r) && FinalStatus(r.status) ==> out.error == NotFound)
            && (out.Err? && Bears(db, now, r) && r.status == Running ==>
                  if r.task in db.tasks && (db.tasks[r.task].status == Scheduled || db.tasks[r.task].status == Running)
                  then out.error.DatabaseError? else out.error.Conflict?)
  {
  }

  function Either<T>(first: Option<T>, second: Option<T>): Option<T> {
    match first
    case Some(_) => first
    case None => second
  }

  /** An attempt before and after its lease was closed. */
  predicate Closes(a: Attempt, b: Attempt, lease: Uuid, now: Time, exit: ExitReason,
                   logsRef: Option<string>, resultRef: Option<string>) {
    if a.lease == lease && a.finished == None then
      b == Attempt(a.task, a.executor, a.lease, a.started, Some(now), Some(exit),
                   Either(logsRef, a.logsRef), Either(resultRef, a.resultRef))
    else b == a
  }

  /** A terminal report: the status is the one reported, the attempt of this lease closes, and the lease is gone. */
  lemma TerminalReport(db: Db, now: Time, r: Report, attempt: Uuid)
    requires Due(db, now, r, attempt) && FinalStatus(r.status)
    ensures var n, row := UpdateTaskStatus(db, now, r, attempt).value, db.tasks[r.task];
            && n == db.(tasks := n.tasks, attempts := n.attempts, leases := n.leases)
            && n.tasks == db.tasks[r.task := row.(status := r.status, resultRef := Either(r.resultRef, row.resultRef),
                                                  lastError := r.error)]
            && n.leases.Keys == db.leases.Keys - {r.lease} && (forall l <- n.leases :: n.leases[l] == db.leases[l])
            && n.attempts.Keys == db.attempts.Keys
            && forall a <- n.attempts ::
                 Closes(db.attempts[a], n.attempts[a], r.lease, now, Reported(r.status), r.logsRef, r.resultRef)
  {
  }

  /** A report of Running: counted once for each lease, with one attempt that begins now. */
  lemma RunningReport(db: Db, now: Time, r: Report, attempt: Uuid)
    requires Due(db, now, r, attempt) && r.status == Running
    ensures var n, row := UpdateTaskStatus(db, now, r, attempt).value, db.tasks[r.task];
            && n == db.(tasks := n.tasks, attempts := n.attempts)
            && n.tasks == (if row.status == Scheduled
                           then db.tasks[r.task := row.(status := Running, currentAttempt := row.currentAttempt + 1)]
                           else db.tasks)
            && n.attempts == (if exists a :: a in db.attempts && db.attempts[a].lease == r.lease then db.attempts
                              else db.attempts[attempt := Attempt(r.task, r.executor, r.lease, now,
                                                                  None, None, None, None)])
  {
  }

  // ---------- the reconciler ----------

  ghost predicate Overdue(db: Db, now: Time, l: Uuid) {
    && l in db.leases && db.leases[l].expires <= now && db.leases[l].task in db.tasks
    && (db.tasks[db.leases[l].task].status == Scheduled || db.tasks[db.leases[l].task].status == Running)
  }

  lemma OverdueIsExpired(db: Db, now: Time)
    ensures forall l :: Overdue(db, now, l) <==> l in Expired(db, now)
  {
  }

  /** Each task under an overdue lease is queued again, or dead once its attempts are used up. */
  lemma ReconcilerTasks(db: Db, now: Time)
    ensures var n := Requeue(db, now);
            && n == db.(tasks := n.tasks, attempts := n.attempts, leases := n.leases) && n.tasks.Keys == db.tasks.Keys
            && forall t <- db.tasks :: var row := db.tasks[t];
                 n.tasks[t] == if exists l :: Overdue(db, now, l) && db.leases[l].task == t
                               then row.(status := if row.currentAttempt < row.maxAttempts then Queued else DeadLetter)
                               else row
  {
    OverdueIsExpired(db, now);
    forall t <- db.tasks
      ensures (exists l :: Overdue(db, now, l) && db.leases[l].task == t) <==>
              (exists l :: l in Expired(db, now) && l in db.leases && db.leases[l].task == t)
    {
      if l :| Overdue(db, now, l) && db.leases[l].task == t {
        assert l in Expired(db, now);
      }
    }
  }

  /** Exactly the overdue leases go, and exactly their open attempts close. */
  lemma ReconcilerLeases(db: Db, now: Time)
    ensures var n := Requeue(db, now);
            && (forall l :: l in n.leases <==> l in db.leases && !Overdue(db, now, l))
            && (forall l <- n.leases :: n.leases[l] == db.leases[l])
            && n.attempts.Keys == db.attempts.Keys
            && forall a <- db.attempts :: var x := db.attempts[a];
                 n.attempts[a] == if Overdue(db, now, x.lease) && x.finished == None
                                  then x.(finished := Some(now), exit := Some(LeaseExpired)) else x
  {
    OverdueIsExpired(db, now);
  }

  // ---------- submission ----------

  ghost predicate KeyInUse(db: Db, tenant: Uuid, key: Option<string>) {
    key.Some? && exists t :: t in db.tasks && db.tasks[t].tenant == tenant && db.tasks[t].idempotencyKey == key
  }

  predicate RightArtifact(db: Db, task: NewTask) {
    && task.artifact in db.artifacts && db.artifacts[task.artifact].tenant == task.tenant
    && db.artifacts[task.artifact].pack == task.pack
  }

  /** The row holds what was submitted, column by column. */
  predicate Carries(row: TaskRow, task: NewTask) {
    && row.tenant == task.tenant && row.artifact == task.artifact && row.pack == task.pack
    && row.priority == task.priority && row.limitKey == task.limitKey && row.payloadRef == task.payloadRef
    && row.timeoutSeconds == task.timeoutSeconds && row.maxAttempts == task.maxAttempts
    && row.idempotencyKey == task.idempotencyKey && row.payloadSize == task.payloadSize
  }

  /** And starts queued, untried and unwritten. */
  predicate RowOf(row: TaskRow, task: NewTask) {
    && Carries(row, task)
    && row.status == Queued && row.currentAttempt == 0
    && row.scheduledAt == None && row.cancelRequestedAt == None && row.resultRef == None && row.lastError == None
  }

  /** An insert is accepted exactly when the artifact fits and neither the id nor the key is used. */
  lemma InsertAnswers(db: Db, id: Uuid, task: NewTask)
    ensures match InsertTask(db, id, task)
            case Err(e) =>
              if RightArtifact(db, task) then
                e.DatabaseError? && (id in db.tasks || KeyInUse(db, task.tenant, task.idempotencyKey))
              else e.Conflict?
            case Ok(n) =>
              && RightArtifact(db, task) && id !in db.tasks && !KeyInUse(db, task.tenant, task.idempotencyKey)
              && n == db.(tasks := n.tasks, nextCreated := n.nextCreated)
              && n.tasks.Keys == db.tasks.Keys + {id} && (forall t <- db.tasks :: n.tasks[t] == db.tasks[t])
              && RowOf(n.tasks[id], task) && n.tasks[id].created == db.nextCreated < n.nextCreated
  {
  }

  // ---------- cancellation, logs, executors, limits ----------

  /** Cancelling: not found, refused for what is over, or one row marked and its lease left. */
  lemma CancelAnswers(db: Db, now: Time, id: Uuid)
    ensures match CancelTask(db, now, id)
            case Err(e) =>
              (id !in db.tasks && e == NotFound) ||
              (id in db.tasks && FinalStatus(db.tasks[id].status) && e.Conflict?)
            case Ok(n) =>
              && id in db.tasks && !FinalStatus(db.tasks[id].status) && OnlyTasks(db, n)
              && n.tasks == db.tasks[id := db.tasks[id].(status := Cancelled, cancelRequestedAt := Some(now))]
  {
  }

  /** Appending: accepted exactly for a lease of that task and executor, expired or not, and last in the log. */
  lemma AppendAnswers(db: Db, chunk: Chunk)
    ensures var out := AppendChunk(db, chunk);
            && (out.Ok? <==> chunk.lease in db.leases && db.leases[chunk.lease].task == chunk.task &&
                             db.leases[chunk.lease].executor == chunk.executor)
            && (out.Err? ==> out.error.Conflict?)
            && (out.Ok? ==> out.value == db.(chunks := out.value.chunks) && |out.value.chunks| == |db.chunks| + 1 &&
                            db.chunks <= out.value.chunks && out.value.chunks[|db.chunks|] == chunk)
  {
  }

  /** Only a registered executor's heartbeat counts, and only a positive limit. */
  lemma RegistryAnswers(db: Db, now: Time, executor: Uuid, g: Group, maxInflight: int)
    ensures Heartbeat(db, now, executor).Ok? <==> executor in db.executors
    ensures Heartbeat(db, now, executor).Err? ==> Heartbeat(db, now, executor).error == NotFound
    ensures PutRateLimit(db, g, maxInflight).Ok? <==> 1 <= maxInflight
    ensures PutRateLimit(db, g, maxInflight).Err? ==> PutRateLimit(db, g, maxInflight).error.Conflict?
  {
  }
}
