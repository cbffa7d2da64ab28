/** The rows the control plane keeps about tasks, and the database that holds them. */
module Tables {
  import opened Common

  datatype Status =
    | Queued
    | Scheduled
    | Running
    | Succeeded
    | Failed
    | Cancelled
    | TimedOut
    | DeadLetter

  /** The statuses that occupy a slot under a rate limit. */
  predicate InFlight(s: Status) {
    s.Scheduled? || s.Running?
  }

  predicate Terminal(s: Status) {
    s.Succeeded? || s.Failed? || s.Cancelled? || s.TimedOut? || s.DeadLetter?
  }

  datatype TaskRow = TaskRow(
    tenant: Uuid,
    artifact: Uuid,
    pack: string,
    status: Status,
    priority: int,
    limitKey: Option<string>,
    payloadRef: Option<string>,
    timeoutSeconds: int,
    maxAttempts: int,
    currentAttempt: int,
    idempotencyKey: Option<string>,
    payloadSize: Option<int>,
    created: nat,
    scheduledAt: Option<Time>,
    cancelRequestedAt: Option<Time>,
    resultRef: Option<string>,
    lastError: Option<string>)

  datatype Lease = Lease(task: Uuid, executor: Uuid, granted: Time, expires: Time)

  datatype ExitReason = Reported(status: Status) | LeaseExpired

  datatype Attempt = Attempt(
    task: Uuid,
    executor: Uuid,
    lease: Uuid,
    started: Time,
    finished: Option<Time>,
    exit: Option<ExitReason>,
    logsRef: Option<string>,
    resultRef: Option<string>)

  /** Who owns an artifact and which runtime pack it was built for. */
  datatype ArtifactRef = ArtifactRef(tenant: Uuid, pack: string)

  /** A persisted log chunk; its place in the table is its chunk_index. */
  datatype Chunk = Chunk(task: Uuid, lease: Uuid, executor: Uuid, stream: string, text: string)

  /** A rate limit counts the in-flight tasks of one tenant that share a key. */
  type Group = (Uuid, string)

  datatype Db = Db(
    tasks: map<Uuid, TaskRow>,
    leases: map<Uuid, Lease>,
    attempts: map<Uuid, Attempt>,
    executors: map<Uuid, Time>,
    limits: map<Group, int>,
    artifacts: map<Uuid, ArtifactRef>,
    chunks: seq<Chunk>,
    nextCreated: nat)

  const EMPTY := Db(map[], map[], map[], map[], map[], map[], [], 0)

  /** Creation order is total: no two tasks share a position, and later inserts come later. */
  ghost predicate Ordered(db: Db) {
    && (forall t <- db.tasks :: db.tasks[t].created < db.nextCreated)
    && (forall t <- db.tasks, u <- db.tasks :: db.tasks[t].created == db.tasks[u].created ==> t == u)
  }

  /** The schema's UNIQUE constraint on task_leases.task_id. */
  ghost predicate OneLeaseEach(db: Db) {
    forall k <- db.leases, l <- db.leases :: db.leases[k].task == db.leases[l].task ==> k == l
  }

  predicate InGroup(row: TaskRow, g: Group) {
    row.limitKey == Some(g.1) && row.tenant == g.0
  }

  /** The tasks that count against a group's limit, whatever their runtime pack. */
  function ActiveIn(db: Db, g: Group): set<Uuid> {
    set t | t in db.tasks && InGroup(db.tasks[t], g) && InFlight(db.tasks[t].status)
  }
}
