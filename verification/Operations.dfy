/** What each repository call means: the reply it gives and the database it leaves. */
module Operations {
  import opened Common
  import opened Tables

  // ---------- submission ----------

  /** The columns a submission supplies; the task starts Queued with no attempt made. */
  datatype NewTask = NewTask(
    tenant: Uuid,
    artifact: Uuid,
    pack: string,
    priority: int,
    limitKey: Option<string>,
    payloadRef: Option<string>,
    timeoutSeconds: int,
    maxAttempts: int,
    idempotencyKey: Option<string>,
    payloadSize: Option<int>)

  function FirstRow(task: NewTask, created: nat): TaskRow {
    TaskRow(task.tenant, task.artifact, task.pack, Queued, task.priority, task.limitKey, task.payloadRef,
            task.timeoutSeconds, task.maxAttempts, 0, task.idempotencyKey, task.payloadSize, created,
            None, None, None, None)
  }

  predicate ArtifactFits(db: Db, task: NewTask) {
    task.artifact in db.artifacts && db.artifacts[task.artifact] == ArtifactRef(task.tenant, task.pack)
  }

  /** The unique index on (tenant_id, idempotency_key). */
  predicate KeyTaken(db: Db, task: NewTask) {
    task.idempotencyKey.Some? &&
    exists t :: t in db.tasks && db.tasks[t].tenant == task.tenant && db.tasks[t].idempotencyKey == task.idempotencyKey
  }

  function InsertTask(db: Db, id: Uuid, task: NewTask): Result<Db> {
    if !ArtifactFits(db, task) then
      Err(Conflict("artifact does not belong to tenant or runtime pack does not match"))
    else if id in db.tasks || KeyTaken(db, task) then
      Err(DatabaseError("unique constraint"))
    else
      Ok(db.(tasks := db.tasks[id := FirstRow(task, db.nextCreated)], nextCreated := db.nextCreated + 1))
  }

  // ---------- polling ----------

  const HEARTBEAT_WINDOW: Time := 60 * SECOND

  /** The rate-limit clause of the candidate query. */
  predicate Admits(db: Db, row: TaskRow) {
    row.limitKey.None? ||
    var g := (row.tenant, row.limitKey.value);
    g !in db.limits || |ActiveIn(db, g)| < db.limits[g]
  }

  /** Rows another open poll has locked are skipped. */
  predicate Candidate(db: Db, pack: string, locked: set<Uuid>, t: Uuid) {
    && t in db.tasks && t !in locked
    && db.tasks[t].status == Queued
    && db.tasks[t].pack == pack
    && Admits(db, db.tasks[t])
  }

  /** ORDER BY priority DESC, created_at ASC. */
  predicate Before(a: TaskRow, b: TaskRow) {
    a.priority > b.priority || (a.priority == b.priority && a.created < b.created)
  }

  /** The first candidate in queue order. */
  predicate IsPick(db: Db, pack: string, locked: set<Uuid>, t: Uuid) {
    Candidate(db, pack, locked, t) &&
    forall u | u in db.tasks :: Candidate(db, pack, locked, u) && u != t ==> Before(db.tasks[t], db.tasks[u])
  }

  /** Some member of a non-empty set of rows comes before all the others. */
  lemma {:induction false} FirstExists(db: Db, s: set<Uuid>) returns (t: Uuid)
    requires Ordered(db) && s != {} && s <= db.tasks.Keys
    ensures t in s && forall u <- s :: u != t ==> Before(db.tasks[t], db.tasks[u])
    ensures forall u <- s :: db.tasks[u].priority <= db.tasks[t].priority
    ensures forall u <- s :: u != t && db.tasks[u].priority == db.tasks[t].priority ==>
              db.tasks[t].created < db.tasks[u].created
    decreases |s|
  {
    t :| t in s;
    if s != {t} {
      var rest := s - {t};
      assert |rest| < |s|;
      var first := FirstExists(db, rest);
      if !Before(db.tasks[t], db.tasks[first]) {
        t := first;
      }
    }
  }

  lemma PickExists(db: Db, pack: string, locked: set<Uuid>)
    requires Ordered(db)
    requires exists t <- db.tasks :: Candidate(db, pack, locked, t)
    ensures exists t <- db.tasks :: IsPick(db, pack, locked, t)
  {
    var queue := set t | t in db.tasks && Candidate(db, pack, locked, t);
    assert queue != {} by {
      var t :| t in db.tasks && Candidate(db, pack, locked, t);
      assert t in queue;
    }
    var t := FirstExists(db, queue);
    assert IsPick(db, pack, locked, t);
  }

  /** The row the query returns: a pick, or nothing when there is no candidate at all. */
  function Pick(db: Db, pack: string, locked: set<Uuid>): (r: Option<Uuid>)
    ensures r.None? && Ordered(db) ==> forall t <- db.tasks :: !Candidate(db, pack, locked, t)
    ensures r.Some? ==> IsPick(db, pack, locked, r.value)
    ensures r.Some? ==> forall u <- db.tasks :: Candidate(db, pack, locked, u) && u != r.value ==>
              && db.tasks[u].priority <= db.tasks[r.value].priority
              && (db.tasks[u].priority == db.tasks[r.value].priority ==>
                    db.tasks[r.value].created < db.tasks[u].created)
  {
    if t :| t in db.tasks && IsPick(db, pack, locked, t) then Some(t) else
      assert Ordered(db) ==> forall t <- db.tasks :: !Candidate(db, pack, locked, t) by {
        if Ordered(db) && exists t <- db.tasks :: Candidate(db, pack, locked, t) { PickExists(db, pack, locked); }
      }
      None
  }

  /** Why a poll may be refused before it looks at the queue. */
  function PollRefusal(db: Db, now: Time, executor: Uuid): Option<RepositoryError> {
    if executor !in db.executors then Some(Conflict("executor must register before polling"))
    else if db.executors[executor] < now - HEARTBEAT_WINDOW then Some(Conflict("executor heartbeat is stale"))
    else None
  }

  /** The unique constraints an insert into task_leases can break. */
  predicate LeaseInsertFails(db: Db, lease: Uuid, task: Uuid) {
    lease in db.leases || exists l :: l in db.leases && db.leases[l].task == task
  }

  function Grant(db: Db, id: Uuid, lease: Lease): Db
    requires lease.task in db.tasks
  {
    db.(tasks := db.tasks[lease.task := db.tasks[lease.task].(status := Scheduled, scheduledAt := Some(lease.granted))],
        leases := db.leases[id := lease])
  }

  /** One whole poll transaction: the database it leaves and the lease it hands out, if any. */
  function PollAndLease(db: Db, now: Time, pack: string, executor: Uuid, seconds: int, id: Uuid)
    : Result<(Db, Option<Lease>)>
  {
    var refusal := PollRefusal(db, now, executor);
    if refusal.Some? then Err(refusal.value) else
    match Pick(db, pack, {})
    case None => Ok((db, None))
    case Some(t) =>
      var lease := Lease(t, executor, now, now + seconds * SECOND);
      if LeaseInsertFails(db, id, t) then Err(DatabaseError("unique constraint"))
      else Ok((Grant(db, id, lease), Some(lease)))
  }

  // ---------- status reports ----------

  datatype Report = Report(
    task: Uuid,
    lease: Uuid,
    executor: Uuid,
    status: Status,
    logsRef: Option<string>,
    resultRef: Option<string>,
    error: Option<string>)

  predicate LeaseLive(db: Db, now: Time, r: Report) {
    && r.lease in db.leases
    && db.leases[r.lease].task == r.task
    && db.leases[r.lease].executor == r.executor
    && db.leases[r.lease].expires > now
  }

  /** A Running report: start the attempt of this lease unless it already started. */
  function StartAttempt(db: Db, now: Time, r: Report, attempt: Uuid): Result<Db> {
    var known := r.task in db.tasks;
    var begun := exists a :: a in db.attempts && db.attempts[a].lease == r.lease;
    if known && (db.tasks[r.task].status == Scheduled || db.tasks[r.task].status == Running) then
      var row := db.tasks[r.task];
      if !begun && attempt in db.attempts then Err(DatabaseError("unique constraint")) else
      Ok(db.(
         tasks := if row.status == Scheduled
                  then db.tasks[r.task := row.(status := Running, currentAttempt := row.currentAttempt + 1)]
                  else db.tasks,
         attempts := if begun
                     then db.attempts
                     else db.attempts[attempt := Attempt(r.task, r.executor, r.lease, now, None, None, None, None)]))
    else
      Err(Conflict("task is not schedulable for running"))
  }

  /** UPDATE task_attempts .. WHERE lease_id = l AND finished_at IS NULL, for every lease in a set. */
  function CloseAttempts(attempts: map<Uuid, Attempt>, closing: set<Uuid>, now: Time, exit: ExitReason,
                         logsRef: Option<string>, resultRef: Option<string>): map<Uuid, Attempt> {
    map a | a in attempts ::
      var row := attempts[a];
      if row.lease in closing && row.finished.None?
      then row.(finished := Some(now), exit := Some(exit),
                logsRef := Coalesce(logsRef, row.logsRef), resultRef := Coalesce(resultRef, row.resultRef))
      else row
  }

  function FinishedRow(row: TaskRow, r: Report): TaskRow {
    row.(status := r.status, resultRef := Coalesce(r.resultRef, row.resultRef), lastError := r.error)
  }

  /** A terminal report: settle the task, close the attempt, give the lease back. */
  function FinishTask(db: Db, now: Time, r: Report): Result<Db> {
    if r.task !in db.tasks then Err(NotFound) else
    Ok(db.(tasks := db.tasks[r.task := FinishedRow(db.tasks[r.task], r)],
           attempts := CloseAttempts(db.attempts, {r.lease}, now, Reported(r.status), r.logsRef, r.resultRef),
           leases := db.leases - {r.lease}))
  }

  function UpdateTaskStatus(db: Db, now: Time, r: Report, attempt: Uuid): Result<Db> {
    if !LeaseLive(db, now, r) then Err(Conflict("no active lease matches this completion"))
    else if r.status == Running then StartAttempt(db, now, r, attempt)
    else if Terminal(r.status) then FinishTask(db, now, r)
    else Err(Conflict("unsupported external status transition"))
  }

  // ---------- the reconciler ----------

  /** The leases whose time is up while their task is still in flight. */
  function Expired(db: Db, now: Time): set<Uuid> {
    set l | l in db.leases && db.leases[l].expires <= now &&
            db.leases[l].task in db.tasks && InFlight(db.tasks[db.leases[l].task].status)
  }

  function RequeuedRow(row: TaskRow): TaskRow {
    row.(status := if row.currentAttempt >= row.maxAttempts then DeadLetter else Queued)
  }

  function RequeuedTasks(db: Db, lost: set<Uuid>): map<Uuid, TaskRow> {
    map t | t in db.tasks ::
      if exists l :: l in lost && l in db.leases && db.leases[l].task == t
      then RequeuedRow(db.tasks[t]) else db.tasks[t]
  }

  /** Every expired lease handled at once, on the database as it was. */
  function Requeue(db: Db, now: Time): Db {
    var lost := Expired(db, now);
    db.(tasks := RequeuedTasks(db, lost),
        attempts := CloseAttempts(db.attempts, lost, now, LeaseExpired, None, None),
        leases := db.leases - lost)
  }

  // ---------- cancellation and logs ----------

  function CancelTask(db: Db, now: Time, id: Uuid): Result<Db> {
    if id !in db.tasks then Err(NotFound)
    else if Terminal(db.tasks[id].status) then Err(Conflict("task is already terminal"))
    else Ok(db.(tasks := db.tasks[id := db.tasks[id].(status := Cancelled, cancelRequestedAt := Some(now))]))
  }

  function AppendChunk(db: Db, chunk: Chunk): Result<Db> {
    if chunk.lease in db.leases &&
       db.leases[chunk.lease].task == chunk.task && db.leases[chunk.lease].executor == chunk.executor
    then Ok(db.(chunks := db.chunks + [chunk]))
    else Err(Conflict("no active lease matches this log append"))
  }

  // ---------- executors, limits, artifacts ----------

  function RegisterExecutor(db: Db, now: Time, executor: Uuid): Db {
    db.(executors := db.executors[executor := now])
  }

  function Heartbeat(db: Db, now: Time, executor: Uuid): Result<Db> {
    if executor in db.executors then Ok(db.(executors := db.executors[executor := now])) else Err(NotFound)
  }

  function PutRateLimit(db: Db, g: Group, maxInflight: int): Result<Db> {
    if maxInflight <= 0 then Err(Conflict("max_inflight must be greater than zero"))
    else Ok(db.(limits := db.limits[g := maxInflight]))
  }

  function AddArtifact(db: Db, id: Uuid, artifact: ArtifactRef): Db {
    db.(artifacts := db.artifacts[id := artifact])
  }

  // ---------- queries ----------

  datatype Outputs = Outputs(status: Status, logsRef: Option<string>, resultRef: Option<string>)

  /** ORDER BY started_at DESC LIMIT 1; a tie may be broken either way. */
  predicate IsNewest(db: Db, task: Uuid, a: Uuid) {
    a in db.attempts && db.attempts[a].task == task &&
    forall b | b in db.attempts :: db.attempts[b].task == task ==> db.attempts[b].started <= db.attempts[a].started
  }

  /** The answers get_task_outputs may give. */
  ghost predicate IsOutputs(db: Db, task: Uuid, out: Outputs) {
    && task in db.tasks
    && out.status == db.tasks[task].status
    && out.resultRef == db.tasks[task].resultRef
    && if exists a <- db.attempts :: db.attempts[a].task == task
       then exists a <- db.attempts :: IsNewest(db, task, a) && out.logsRef == db.attempts[a].logsRef
       else out.logsRef == None
  }
}
