/** Submission, upload and polling together: every lease is handed the value its task was submitted with. */
module Deliveries {
  import opened Common
  import opened Keys
  import opened Digests
  import Tables
  import Operations
  import Replies
  import Worlds
  import Uploads

  datatype SubmitRequest = SubmitRequest(
    tenant: Uuid,
    artifact: Uuid,
    pack: string,
    inline: Option<Json>,
    upload: Option<Uuid>,
    priority: Option<int>,
    limitKey: Option<string>,
    timeoutSeconds: Option<int>,
    maxAttempts: Option<int>,
    idempotencyKey: Option<string>)

  /** A submission that was admitted and is not inserted yet; write holds inline bytes still to be stored. */
  datatype Submission = Submission(task: Uuid, row: Operations.NewTask, value: Option<Json>, write: Option<Bytes>)

  datatype Admission = BadRequest | Missing | Unfit | Admitted(submission: Submission)

  /**
   * The queue, the two upload pipelines, the submissions under way, what each task was submitted with, and every task
   * id ever made.
   */
  datatype System = System(
    queue: Worlds.World,
    artifacts: Uploads.Pipe,
    payloads: Uploads.Pipe,
    pending: map<Uuid, Submission>,
    submitted: map<Uuid, Option<Json>>,
    spent: set<Uuid>)

  function OrElse<T>(x: Option<T>, default: T): T {
    if x.Some? then x.value else default
  }

  function NewTaskOf(r: SubmitRequest, payloadRef: Option<string>, payloadSize: Option<int>): Operations.NewTask {
    Operations.NewTask(r.tenant, r.artifact, r.pack, OrElse(r.priority, 0), r.limitKey, payloadRef,
                       OrElse(r.timeoutSeconds, 300), OrElse(r.maxAttempts, 3), r.idempotencyKey, payloadSize)
  }

  predicate ArtifactReady(p: Uploads.Pipe, tenant: Uuid, artifact: Uuid, pack: string) {
    && artifact in p.shelf.rows
    && var row := p.shelf.rows[artifact];
       row.tenant == tenant && row.runtime.Some? && row.runtime.value.pack == pack && row.ready && row.key.Some?
  }

  /** The checks of submit_task, in its order. */
  function Admit(codec: Codec, s: System, id: Uuid, r: SubmitRequest): Admission {
    if r.inline.Some? && r.upload.Some? then BadRequest
    else if r.artifact !in s.artifacts.shelf.rows then Missing
    else if !ArtifactReady(s.artifacts, r.tenant, r.artifact, r.pack) then Unfit
    else if r.inline.Some? then
      var bytes := codec.render(r.inline.value);
      Admitted(Submission(id, NewTaskOf(r, Some(Path(TaskPayload(id))), Some(|bytes|)), r.inline, Some(bytes)))
    else if r.upload.Some? then
      var p := r.upload.value;
      if p !in s.payloads.shelf.rows then Missing
      else
        var row := s.payloads.shelf.rows[p];
        if row.tenant != r.tenant || !row.ready || row.key.None? then Unfit
        else
          var value := if row.key.value in s.payloads.store then codec.parse(s.payloads.store[row.key.value]) else None;
          Admitted(Submission(id, NewTaskOf(r, row.key, Some(row.size)), value, None))
    else Admitted(Submission(id, NewTaskOf(r, None, None), None, None))
  }

  datatype Loaded = LoadError | Loaded(value: Option<Json>)

  /** load_task_payload. */
  function LoadPayload(codec: Codec, store: map<string, Bytes>, payloadRef: Option<string>): Loaded {
    match payloadRef
    case None => Loaded(None)
    case Some(key) =>
      if key !in store then LoadError
      else match codec.parse(store[key])
           case None => LoadError
           case Some(v) => Loaded(Some(v))
  }

  /** The value behind the reference, none without one, and an error exactly if the object is gone or is not JSON. */
  lemma LoadAnswers(codec: Codec, store: map<string, Bytes>, payloadRef: Option<string>)
    ensures LoadPayload(codec, store, payloadRef) == LoadError <==>
            payloadRef != None && (payloadRef.value !in store || codec.parse(store[payloadRef.value]) == None)
    ensures forall v :: LoadPayload(codec, store, payloadRef) == Loaded(v) <==>
              if payloadRef == None then v == None
              else payloadRef.value in store && v != None && codec.parse(store[payloadRef.value]) == v
  {
  }

  datatype Event =
    | Queue(tick: Worlds.Tick)
    | Artifact(upload: Uploads.Event)
    | Payload(upload: Uploads.Event)
    | Submit(request: Uuid, task: Uuid, body: SubmitRequest)
    | WriteInline(request: Uuid)
    | Insert(request: Uuid, at: Time)
    | Abandon(request: Uuid)
    | Output(name: Name, bytes: Bytes)

  ghost predicate Enabled(s: System, e: Event) {
    match e
    case Queue(tick) => Worlds.Enabled(s.queue, tick) && !tick.event.Submit? && !tick.event.Publish?
    case Artifact(u) => Uploads.Enabled(s.artifacts, u) && !u.Foreign? && (u.Create? ==> u.runtime.Some?)
    case Payload(u) => Uploads.Enabled(s.payloads, u) && !u.Foreign?
    case Submit(request, task, _) => request !in s.pending && task !in s.spent
    case WriteInline(request) => request in s.pending && s.pending[request].write.Some?
    case Insert(request, at) => request in s.pending && s.pending[request].write.None? && s.queue.now <= at
    case Abandon(request) => request in s.pending
    case Output(name, _) => name.TaskLogs? || name.TaskResult?
  }

  /** An accepted upload creation also puts the artifact's row where insert_task looks for it. */
  function Published(s: System, u: Uploads.Event, next: Uploads.Pipe): Worlds.World {
    if u.Create? && u.id !in s.artifacts.shelf.rows && u.id in next.shelf.rows && u.runtime.Some?
    then Worlds.Step(s.queue, Worlds.Tick(s.queue.now,
           Worlds.Publish(u.id, Tables.ArtifactRef(u.tenant, u.runtime.value.pack))))
    else s.queue
  }

  function Inserted(s: System, q: Submission, at: Time): System {
    s.(queue := Worlds.Step(s.queue, Worlds.Tick(at, Worlds.Submit(q.task, q.row))),
       submitted := if Operations.InsertTask(s.queue.db, q.task, q.row).Ok?
                    then s.submitted[q.task := q.value] else s.submitted)
  }

  function Enrolled(s: System, request: Uuid, q: Submission): System {
    s.(pending := s.pending[request := q], spent := s.spent + {q.task})
  }

  function Step(codec: Codec, s: System, e: Event): System {
    match e
    case Queue(tick) => s.(queue := Worlds.Step(s.queue, tick))
    case Artifact(u) =>
      var next := Uploads.Step(codec, s.artifacts, u);
      s.(artifacts := next, queue := Published(s, u, next))
    case Payload(u) => s.(payloads := Uploads.Step(codec, s.payloads, u))
    case Submit(request, task, body) =>
      var a := Admit(codec, s, task, body);
      if a.Admitted? then Enrolled(s, request, a.submission) else s
    case WriteInline(request) =>
      if request in s.pending && s.pending[request].write.Some? then
        var q := s.pending[request];
        s.(payloads := Uploads.Step(codec, s.payloads, Uploads.Foreign(TaskPayload(q.task), q.write.value)),
           pending := s.pending[request := q.(write := None)])
      else s
    case Insert(request, at) =>
      if request in s.pending
      then Inserted(s, s.pending[request], at).(pending := s.pending - {request})
      else s
    case Abandon(request) => s.(pending := s.pending - {request})
    case Output(name, bytes) => s.(payloads := Uploads.Step(codec, s.payloads, Uploads.Foreign(name, bytes)))
  }

  type Run = seq<Event>

  ghost predicate Feasible(codec: Codec, s: System, run: Run)
    decreases |run|
  {
    run == [] || (Enabled(s, run[0]) && Feasible(codec, Step(codec, s, run[0]), run[1..]))
  }

  function After(codec: Codec, s: System, run: Run): System
    decreases |run|
  {
    if run == [] then s else After(codec, Step(codec, s, run[0]), run[1..])
  }

  const BOOT := System(Worlds.BOOT, Uploads.Empty(Uploads.Artifacts), Uploads.Empty(Uploads.Payloads), map[], map[], {})

  // ---------- the invariant ----------

  /** A task, its tenant, the payload reference of its row, and the value that reference stands for. */
  datatype Claim = Claim(task: Uuid, tenant: Uuid, payloadRef: Option<string>, value: Option<Json>)

  /** The key is the task's own, or that of a ready payload of the same tenant. */
  ghost predicate Owned(p: Uploads.Pipe, task: Uuid, tenant: Uuid, key: string) {
    key == Path(TaskPayload(task)) ||
    exists id <- p.shelf.rows :: p.shelf.rows[id].ready && p.shelf.rows[id].tenant == tenant &&
                                 key == Uploads.KeyOf(Uploads.Payloads, id)
  }

  /** The reference resolves, for good, to the value intended. */
  ghost predicate PayloadGood(codec: Codec, p: Uploads.Pipe, c: Claim) {
    match c.payloadRef
    case None => c.value.None?
    case Some(key) =>
      c.value.Some? && Owned(p, c.task, c.tenant, key) && key in p.store && codec.parse(p.store[key]) == c.value
  }

  function ClaimOf(q: Submission): Claim {
    Claim(q.task, q.row.tenant, q.row.payloadRef, q.value)
  }

  function TaskClaim(s: System, t: Uuid): Claim
    requires t in s.queue.db.tasks && t in s.submitted
  {
    Claim(t, s.queue.db.tasks[t].tenant, s.queue.db.tasks[t].payloadRef, s.submitted[t])
  }

  ghost predicate SubmissionGood(codec: Codec, s: System, q: Submission) {
    && ArtifactReady(s.artifacts, q.row.tenant, q.row.artifact, q.row.pack)
    && match q.write
       case None => PayloadGood(codec, s.payloads, ClaimOf(q))
       case Some(bytes) =>
         q.row.payloadRef == Some(Path(TaskPayload(q.task))) && q.value.Some? && codec.parse(bytes) == q.value
  }

  ghost predicate TaskGood(codec: Codec, s: System, t: Uuid)
    requires t in s.queue.db.tasks
  {
    var row := s.queue.db.tasks[t];
    && t in s.submitted
    && ArtifactReady(s.artifacts, row.tenant, row.artifact, row.pack)
    && PayloadGood(codec, s.payloads, TaskClaim(s, t))
  }

  ghost predicate TasksGood(codec: Codec, s: System) {
    forall t <- s.queue.db.tasks :: TaskGood(codec, s, t)
  }

  ghost predicate SubmissionsGood(codec: Codec, s: System) {
    && (forall q <- s.pending :: SubmissionGood(codec, s, s.pending[q]))
    && (forall q <- s.pending :: s.pending[q].task !in s.queue.db.tasks)
    && (forall q <- s.pending, r <- s.pending :: s.pending[q].task == s.pending[r].task ==> q == r)
  }

  ghost predicate AllSpent(s: System) {
    (forall t <- s.queue.db.tasks :: t in s.spent) && (forall q <- s.pending :: s.pending[q].task in s.spent)
  }

  /** The queue and the artifact shelf know the same artifacts. */
  ghost predicate Mirrored(s: System) {
    && s.queue.db.artifacts.Keys == s.artifacts.shelf.rows.Keys
    && forall id <- s.artifacts.shelf.rows :: var row := s.artifacts.shelf.rows[id];
         row.runtime.Some? && s.queue.db.artifacts[id] == Tables.ArtifactRef(row.tenant, row.runtime.value.pack)
  }

  ghost predicate PipesInv(codec: Codec, s: System) {
    && s.artifacts.kind == Uploads.Artifacts && s.payloads.kind == Uploads.Payloads
    && Uploads.Inv(codec, s.artifacts) && Uploads.Inv(codec, s.payloads)
  }

  ghost predicate Inv(codec: Codec, s: System) {
    && Worlds.Inv(s.queue) && PipesInv(codec, s) && Mirrored(s)
    && TasksGood(codec, s) && SubmissionsGood(codec, s) && AllSpent(s)
  }

  lemma BootInv(codec: Codec)
    ensures Inv(codec, BOOT)
  {
    Worlds.BootInv();
    Uploads.EmptyInv(codec, Uploads.Artifacts);
    Uploads.EmptyInv(codec, Uploads.Payloads);
  }

  // ---------- what cannot disturb a payload ----------

  ghost predicate Trusted(codec: Codec) {
    Sensible(codec) && CollisionFree(codec)
  }

  ghost predicate WritesFor(e: Uploads.Event, task: Uuid) {
    e.Foreign? && e.name == TaskPayload(task)
  }

  /** No writer but the task's own submission can change what an owned key holds. */
  lemma OwnedStays(codec: Codec, p: Uploads.Pipe, e: Uploads.Event, task: Uuid, tenant: Uuid, key: string)
    requires Trusted(codec) && Uploads.Inv(codec, p) && Uploads.Enabled(p, e) && p.kind == Uploads.Payloads
    requires Owned(p, task, tenant, key) && key in p.store && !WritesFor(e, task)
    ensures var n := Uploads.Step(codec, p, e);
            Owned(n, task, tenant, key) && key in n.store && n.store[key] == p.store[key]
  {
    Uploads.StepInv(codec, p, e);
    if key == Path(TaskPayload(task)) {
      OwnKeyStays(codec, p, e, task);
    } else {
      var id :| id in p.shelf.rows && p.shelf.rows[id].ready && p.shelf.rows[id].tenant == tenant &&
                key == Uploads.KeyOf(Uploads.Payloads, id);
      Uploads.ContentStays(codec, p, e, id);
      assert Uploads.Matured(p.shelf.rows[id], Uploads.Step(codec, p, e).shelf.rows[id]);
    }
  }

  lemma OwnKeyStays(codec: Codec, p: Uploads.Pipe, e: Uploads.Event, task: Uuid)
    requires Uploads.Enabled(p, e) && Path(TaskPayload(task)) in p.store && !WritesFor(e, task)
    ensures var n := Uploads.Step(codec, p, e); var key := Path(TaskPayload(task));
            key in n.store && n.store[key] == p.store[key]
  {
    match e
    case Put(request) =>
      var name := Uploads.NameOf(p.kind, p.requests[request].item);
      if Path(name) == Path(TaskPayload(task)) { PathInjective(name, TaskPayload(task)); }
    case Foreign(name, _) =>
      if Path(name) == Path(TaskPayload(task)) { PathInjective(name, TaskPayload(task)); }
    case Create(_, _, _, _, _, _) =>
    case Check(_, _, _) =>
    case Finish(_) =>
    case Crash(_) =>
  }

  lemma PayloadStays(codec: Codec, p: Uploads.Pipe, e: Uploads.Event, c: Claim)
    requires Trusted(codec) && Uploads.Inv(codec, p) && Uploads.Enabled(p, e) && p.kind == Uploads.Payloads
    requires PayloadGood(codec, p, c) && !WritesFor(e, c.task)
    ensures PayloadGood(codec, Uploads.Step(codec, p, e), c)
  {
    if c.payloadRef.Some? {
      OwnedStays(codec, p, e, c.task, c.tenant, c.payloadRef.value);
    }
  }

  lemma ArtifactStays(a: Uploads.Pipe, b: Uploads.Pipe, tenant: Uuid, artifact: Uuid, pack: string)
    requires ArtifactReady(a, tenant, artifact, pack) && Uploads.Grown(a.shelf, b.shelf)
    ensures ArtifactReady(b, tenant, artifact, pack)
  {
  }

  // ---------- one step ----------

  /** The same tasks and submissions, and a store that still holds what each of them needs. */
  lemma PayloadsMove(codec: Codec, s: System, n: System, e: Uploads.Event)
    requires Trusted(codec) && Inv(codec, s) && Uploads.Enabled(s.payloads, e)
    requires n == s.(payloads := Uploads.Step(codec, s.payloads, e))
    requires forall t <- s.queue.db.tasks :: !WritesFor(e, t)
    requires forall q <- s.pending :: s.pending[q].write.None? ==> !WritesFor(e, s.pending[q].task)
    ensures Inv(codec, n)
  {
    Uploads.StepInv(codec, s.payloads, e);
    forall t <- n.queue.db.tasks
      ensures TaskGood(codec, n, t)
    {
      assert TaskGood(codec, s, t);
      PayloadStays(codec, s.payloads, e, TaskClaim(s, t));
    }
    forall q <- n.pending
      ensures SubmissionGood(codec, n, n.pending[q])
    {
      var sub := s.pending[q];
      assert SubmissionGood(codec, s, sub);
      if sub.write.None? {
        PayloadStays(codec, s.payloads, e, ClaimOf(sub));
      }
    }
  }

  lemma ArtifactsMove(codec: Codec, s: System, u: Uploads.Event)
    requires Inv(codec, s) && Enabled(s, Artifact(u))
    ensures Inv(codec, Step(codec, s, Artifact(u)))
  {
    var n := Step(codec, s, Artifact(u));
    Uploads.StepInv(codec, s.artifacts, u);
    PublishKeeps(codec, s, u);
    forall t <- n.queue.db.tasks
      ensures TaskGood(codec, n, t)
    {
      assert TaskGood(codec, s, t);
      var row := s.queue.db.tasks[t];
      ArtifactStays(s.artifacts, n.artifacts, row.tenant, row.artifact, row.pack);
    }
    forall q <- n.pending
      ensures SubmissionGood(codec, n, n.pending[q])
    {
      var row := s.pending[q].row;
      assert SubmissionGood(codec, s, s.pending[q]);
      ArtifactStays(s.artifacts, n.artifacts, row.tenant, row.artifact, row.pack);
    }
  }

  lemma PublishKeeps(codec: Codec, s: System, u: Uploads.Event)
    requires Worlds.Inv(s.queue) && Mirrored(s) && Uploads.Inv(codec, s.artifacts) && Enabled(s, Artifact(u))
    ensures var n := Step(codec, s, Artifact(u));
            Worlds.Inv(n.queue) && Mirrored(n) && n.queue.db.tasks == s.queue.db.tasks
  {
    var next := Uploads.Step(codec, s.artifacts, u);
    ShelfKeys(codec, s.artifacts, u);
    PublishedQueue(s, u, next);
    PublishedMirrored(s, u, next);
    assert Step(codec, s, Artifact(u)) == s.(artifacts := next, queue := Published(s, u, next));
  }

  lemma PublishedQueue(s: System, u: Uploads.Event, next: Uploads.Pipe)
    requires Worlds.Inv(s.queue) && Mirrored(s)
    ensures var queue := Published(s, u, next); Worlds.Inv(queue) && queue.db.tasks == s.queue.db.tasks
  {
    if Published(s, u, next) != s.queue {
      Worlds.StepInv(s.queue, Worlds.Tick(s.queue.now,
        Worlds.Publish(u.id, Tables.ArtifactRef(u.tenant, u.runtime.value.pack))));
    }
  }

  lemma PublishedMirrored(s: System, u: Uploads.Event, next: Uploads.Pipe)
    requires Mirrored(s) && RowsKept(s.artifacts, u, next) && (u.Create? ==> u.runtime.Some?)
    ensures Mirrored(s.(artifacts := next, queue := Published(s, u, next)))
  {
    var queue := Published(s, u, next);
    if u.Create? && u.id !in s.artifacts.shelf.rows && u.id in next.shelf.rows {
      assert queue.db.artifacts == s.queue.db.artifacts[u.id := Tables.ArtifactRef(u.tenant, u.runtime.value.pack)];
    } else {
      assert queue == s.queue;
    }
  }

  /** Rows keep their owner and runtime, and the only new one is the one being created. */
  ghost predicate RowsKept(p: Uploads.Pipe, u: Uploads.Event, n: Uploads.Pipe) {
    && (forall id <- p.shelf.rows :: id in n.shelf.rows)
    && (forall id <- n.shelf.rows ::
          if id in p.shelf.rows
          then
            && n.shelf.rows[id].tenant == p.shelf.rows[id].tenant
            && n.shelf.rows[id].runtime == p.shelf.rows[id].runtime
          else u.Create? && id == u.id && n.shelf.rows[id].tenant == u.tenant && n.shelf.rows[id].runtime == u.runtime)
  }

  lemma ShelfKeys(codec: Codec, p: Uploads.Pipe, u: Uploads.Event)
    requires Uploads.Inv(codec, p) && Uploads.Enabled(p, u)
    ensures RowsKept(p, u, Uploads.Step(codec, p, u))
  {
    var n := Uploads.Step(codec, p, u);
    Uploads.StepRows(codec, p, u);
    forall id <- p.shelf.rows
      ensures id in n.shelf.rows && Uploads.Matured(p.shelf.rows[id], n.shelf.rows[id])
    {
    }
    match u
    case Finish(request) => assert Uploads.RequestChecked(codec, p, p.requests[request]);
    case Create(_, _, _, _, _, _) =>
    case _ => assert n.shelf == p.shelf;
  }

  /** What is good of tasks and submissions depends on neither the pending requests nor the rest of the queue. */
  lemma SameTasks(codec: Codec, s: System, n: System)
    requires TasksGood(codec, s)
    requires n.queue.db.tasks == s.queue.db.tasks && n.submitted == s.submitted
    requires n.artifacts == s.artifacts && n.payloads == s.payloads
    ensures TasksGood(codec, n)
  {
  }

  lemma SameSubmissions(codec: Codec, s: System, n: System)
    requires SubmissionsGood(codec, s) && n.artifacts == s.artifacts && n.payloads == s.payloads
    requires n.queue.db.tasks == s.queue.db.tasks
    requires forall r <- n.pending :: r in s.pending && n.pending[r].task == s.pending[r].task
    requires forall r <- n.pending :: n.pending[r] == s.pending[r] || SubmissionGood(codec, n, n.pending[r])
    ensures SubmissionsGood(codec, n)
  {
  }

  /** Ticks of the queue leave what submissions wrote, and the artifacts, alone. */
  lemma QueueMoves(codec: Codec, s: System, tick: Worlds.Tick)
    requires Inv(codec, s) && Enabled(s, Queue(tick))
    ensures Inv(codec, Step(codec, s, Queue(tick)))
  {
    var n := Step(codec, s, Queue(tick));
    Worlds.StepInv(s.queue, tick);
    Worlds.StepFramed(s.queue, tick);
    QueueKeepsArtifacts(s.queue, tick);
    forall t <- n.queue.db.tasks
      ensures TaskGood(codec, n, t)
    {
      assert TaskGood(codec, s, t);
      assert Worlds.SameSubmission(s.queue.db.tasks[t], n.queue.db.tasks[t]);
    }
    forall q <- n.pending
      ensures SubmissionGood(codec, n, n.pending[q])
    {
      assert SubmissionGood(codec, s, s.pending[q]);
    }
  }

  lemma QueueKeepsArtifacts(w: Worlds.World, tick: Worlds.Tick)
    requires !tick.event.Publish?
    ensures Worlds.Step(w, tick).db.artifacts == w.db.artifacts
  {
    match tick.event
    case Report(r, attempt) => Worlds.ReportWrites(w.db, tick.at, r, attempt);
    case BeginPoll(tx, pack, executor, seconds) => Worlds.BeginWrites(w.(now := tick.at), tx, pack, executor, seconds);
    case _ =>
  }

  lemma SubmitMoves(codec: Codec, s: System, request: Uuid, task: Uuid, body: SubmitRequest)
    requires Trusted(codec) && Inv(codec, s) && Enabled(s, Submit(request, task, body))
    requires Admit(codec, s, task, body).Admitted?
    ensures Inv(codec, Enrolled(s, request, Admit(codec, s, task, body).submission))
  {
    AdmittedGood(codec, s, task, body);
    EnrolledMoves(codec, s, request, Admit(codec, s, task, body).submission);
  }

  lemma EnrolledMoves(codec: Codec, s: System, request: Uuid, q: Submission)
    requires Inv(codec, s) && request !in s.pending && q.task !in s.spent && SubmissionGood(codec, s, q)
    ensures Inv(codec, Enrolled(s, request, q))
  {
    var n := Enrolled(s, request, q);
    SameTasks(codec, s, n);
    OneMoreSubmission(codec, s, n, request);
    SpentWith(s, n, request);
  }

  lemma SpentWith(s: System, n: System, request: Uuid)
    requires AllSpent(s) && n.queue == s.queue && s.spent <= n.spent && request in n.pending
    requires n.pending == s.pending[request := n.pending[request]] && n.pending[request].task in n.spent
    ensures AllSpent(n)
  {
  }

  lemma OneMoreSubmission(codec: Codec, s: System, n: System, request: Uuid)
    requires SubmissionsGood(codec, s) && request !in s.pending && request in n.pending
    requires n == Enrolled(s, request, n.pending[request])
    requires SubmissionGood(codec, s, n.pending[request]) && n.pending[request].task !in s.queue.db.tasks
    requires forall q <- s.pending :: s.pending[q].task != n.pending[request].task
    ensures SubmissionsGood(codec, n)
  {
    forall q <- n.pending
      ensures SubmissionGood(codec, n, n.pending[q])
    {
      if q != request { assert SubmissionGood(codec, s, s.pending[q]); }
    }
  }

  lemma AdmittedGood(codec: Codec, s: System, task: Uuid, body: SubmitRequest)
    requires Trusted(codec) && PipesInv(codec, s) && Admit(codec, s, task, body).Admitted?
    ensures SubmissionGood(codec, s, Admit(codec, s, task, body).submission)
    ensures Admit(codec, s, task, body).submission.task == task
  {
    if body.inline.None? && body.upload.Some? {
      Uploads.ReadyIsVerified(codec, s.payloads, body.upload.value);
      assert s.payloads.shelf.rows[body.upload.value].key == Some(Uploads.KeyOf(Uploads.Payloads, body.upload.value));
    }
  }

  lemma WriteMoves(codec: Codec, s: System, request: Uuid)
    requires request in s.pending && s.pending[request].write.Some?
    requires Trusted(codec) && Inv(codec, s)
    ensures var q := s.pending[request];
            var e := Uploads.Foreign(TaskPayload(q.task), q.write.value);
            Inv(codec, s.(payloads := Uploads.Step(codec, s.payloads, e),
                          pending := s.pending[request := q.(write := None)]))
  {
    var q := s.pending[request];
    var e := Uploads.Foreign(TaskPayload(q.task), q.write.value);
    var mid := s.(payloads := Uploads.Step(codec, s.payloads, e));
    PayloadsMove(codec, s, mid, e);
    assert SubmissionGood(codec, s, q);
    WrittenGood(codec, s.payloads, q);
    WrittenMoves(codec, mid, request, q.(write := None));
  }

  lemma ReplacedSubmission(codec: Codec, s: System, n: System, request: Uuid)
    requires SubmissionsGood(codec, s) && request in s.pending && request in n.pending
    requires n == s.(pending := s.pending[request := n.pending[request]])
    requires n.pending[request].task == s.pending[request].task && SubmissionGood(codec, s, n.pending[request])
    ensures SubmissionsGood(codec, n)
  {
    forall r <- n.pending
      ensures SubmissionGood(codec, n, n.pending[r])
    {
      if r != request { assert SubmissionGood(codec, s, s.pending[r]); }
    }
    forall r <- n.pending
      ensures n.pending[r].task == s.pending[r].task
    {
    }
  }

  lemma WrittenMoves(codec: Codec, s: System, request: Uuid, q: Submission)
    requires Inv(codec, s) && request in s.pending && q.task == s.pending[request].task && SubmissionGood(codec, s, q)
    ensures Inv(codec, s.(pending := s.pending[request := q]))
  {
    var n := s.(pending := s.pending[request := q]);
    SameTasks(codec, s, n);
    ReplacedSubmission(codec, s, n, request);
    SpentWith(s, n, request);
  }

  /** Once stored, the inline bytes are what the reference resolves to. */
  lemma WrittenGood(codec: Codec, p: Uploads.Pipe, q: Submission)
    requires q.write.Some? && q.row.payloadRef == Some(Path(TaskPayload(q.task)))
    requires q.value.Some? && codec.parse(q.write.value) == q.value
    ensures PayloadGood(codec, Uploads.Step(codec, p, Uploads.Foreign(TaskPayload(q.task), q.write.value)), ClaimOf(q))
  {
  }

  lemma InsertMoves(codec: Codec, s: System, request: Uuid, at: Time)
    requires Inv(codec, s) && Enabled(s, Insert(request, at))
    ensures Inv(codec, Step(codec, s, Insert(request, at)))
  {
    var q := s.pending[request];
    var tick := Worlds.Tick(at, Worlds.Submit(q.task, q.row));
    Worlds.StepInv(s.queue, tick);
    assert SubmissionGood(codec, s, q);
    var n := Step(codec, s, Insert(request, at));
    InsertedRows(s, q, at);
    InsertedTasks(codec, s, n, q);
    InsertedPending(codec, s, n, request);
  }

  ghost predicate InsertedAs(s: System, n: System, q: Submission) {
    && n.artifacts == s.artifacts && n.payloads == s.payloads
    && ((n.queue.db.tasks == s.queue.db.tasks && n.submitted == s.submitted) ||
        (&& n.queue.db.tasks == s.queue.db.tasks[q.task := Operations.FirstRow(q.row, s.queue.db.nextCreated)]
         && n.submitted == s.submitted[q.task := q.value]))
  }

  lemma InsertedRows(s: System, q: Submission, at: Time)
    ensures InsertedAs(s, Inserted(s, q, at), q)
    ensures Inserted(s, q, at).queue.db.artifacts == s.queue.db.artifacts
    ensures Inserted(s, q, at).pending == s.pending
  {
  }

  lemma InsertedTasks(codec: Codec, s: System, n: System, q: Submission)
    requires TasksGood(codec, s) && InsertedAs(s, n, q) && SubmissionGood(codec, s, q) && q.write.None?
    ensures TasksGood(codec, n)
  {
  }

  lemma InsertedPending(codec: Codec, s: System, n: System, request: Uuid)
    requires SubmissionsGood(codec, s) && request in s.pending && InsertedAs(s, n, s.pending[request])
    requires n.pending == s.pending - {request}
    ensures SubmissionsGood(codec, n)
  {
  }

  lemma AbandonMoves(codec: Codec, s: System, request: Uuid)
    requires Inv(codec, s)
    ensures Inv(codec, s.(pending := s.pending - {request}))
  {
    var n := s.(pending := s.pending - {request});
    SameTasks(codec, s, n);
    SameSubmissions(codec, s, n);
  }

  lemma StepInv(codec: Codec, s: System, e: Event)
    requires Trusted(codec) && Inv(codec, s) && Enabled(s, e)
    ensures Inv(codec, Step(codec, s, e))
  {
    match e
    case Queue(tick) => QueueMoves(codec, s, tick);
    case Artifact(u) => ArtifactsMove(codec, s, u);
    case Payload(u) => PayloadsMove(codec, s, Step(codec, s, e), u);
    case Submit(request, task, body) =>
      if Admit(codec, s, task, body).Admitted? { SubmitMoves(codec, s, request, task, body); }
    case WriteInline(request) => WriteMoves(codec, s, request);
    case Insert(request, at) => InsertMoves(codec, s, request, at);
    case Abandon(request) => AbandonMoves(codec, s, request);
    case Output(name, bytes) => PayloadsMove(codec, s, Step(codec, s, e), Uploads.Foreign(name, bytes));
  }

  lemma {:induction false} RunInv(codec: Codec, s: System, run: Run)
    requires Trusted(codec) && Inv(codec, s) && Feasible(codec, s, run)
    ensures Inv(codec, After(codec, s, run))
    decreases |run|
  {
    if run == [] {
    } else {
      StepInv(codec, s, run[0]);
      RunInv(codec, Step(codec, s, run[0]), run[1..]);
    }
  }

  /** Every state the whole system reaches from an empty one satisfies the invariant. */
  lemma Reachable(codec: Codec, run: Run)
    requires Trusted(codec) && Feasible(codec, BOOT, run)
    ensures Inv(codec, After(codec, BOOT, run))
  {
    BootInv(codec);
    RunInv(codec, BOOT, run);
  }

  /** An admitted request, its bytes stored, enters the queue exactly if its idempotency key is not in use there. */
  lemma AdmittedEnters(codec: Codec, s: System, request: Uuid, at: Time)
    requires Inv(codec, s) && Enabled(s, Insert(request, at))
    ensures var q, n := s.pending[request], Step(codec, s, Insert(request, at));
            && (q.task in n.queue.db.tasks <==> !Replies.KeyInUse(s.queue.db, q.row.tenant, q.row.idempotencyKey))
            && (q.task in n.queue.db.tasks ==> Replies.RowOf(n.queue.db.tasks[q.task], q.row))
            && request !in n.pending
  {
    var q := s.pending[request];
    assert SubmissionGood(codec, s, q);
    Replies.InsertAnswers(s.queue.db, q.task, q.row);
  }

  // ---------- delivery ----------

  /** What a task was submitted with is recorded once. */
  ghost predicate Recorded(s: System, n: System, t: Uuid) {
    t in n.queue.db.tasks && t in n.submitted && t in s.submitted && n.submitted[t] == s.submitted[t]
  }

  lemma InsertRecorded(s: System, q: Submission, at: Time, t: Uuid)
    requires t in s.queue.db.tasks && t in s.submitted && q.task != t
    ensures Recorded(s, Inserted(s, q, at), t)
  {
  }

  lemma QueueRecorded(codec: Codec, s: System, tick: Worlds.Tick, t: Uuid)
    requires t in s.queue.db.tasks && t in s.submitted && !tick.event.Submit?
    ensures Recorded(s, Step(codec, s, Queue(tick)), t)
  {
    Worlds.StepFramed(s.queue, tick);
  }

  lemma SubmittedStays(codec: Codec, s: System, e: Event, t: Uuid)
    requires Worlds.Inv(s.queue) && Mirrored(s) && Uploads.Inv(codec, s.artifacts) && SubmissionsGood(codec, s)
    requires Enabled(s, e) && t in s.queue.db.tasks && t in s.submitted
    ensures Recorded(s, Step(codec, s, e), t)
  {
    match e
    case Queue(tick) => QueueRecorded(codec, s, tick, t);
    case Artifact(u) => PublishRecorded(codec, s, u, t);
    case Insert(request, at) => InsertRecorded(s, s.pending[request], at, t);
    case _ => ElsewhereRecorded(codec, s, e, t);
  }

  lemma PublishRecorded(codec: Codec, s: System, u: Uploads.Event, t: Uuid)
    requires Worlds.Inv(s.queue) && Mirrored(s) && Uploads.Inv(codec, s.artifacts)
    requires Enabled(s, Artifact(u)) && t in s.queue.db.tasks && t in s.submitted
    ensures Recorded(s, Step(codec, s, Artifact(u)), t)
  {
    PublishKeeps(codec, s, u);
  }

  lemma ElsewhereRecorded(codec: Codec, s: System, e: Event, t: Uuid)
    requires !e.Queue? && !e.Artifact? && !e.Insert? && t in s.queue.db.tasks && t in s.submitted
    ensures Recorded(s, Step(codec, s, e), t)
  {
  }

  /** Whatever holds a task, the poll handler finds its artifact ready and loads exactly the value submitted. */
  lemma Delivered(codec: Codec, s: System, t: Uuid)
    requires Inv(codec, s) && t in s.queue.db.tasks
    ensures var row := s.queue.db.tasks[t];
            && t in s.submitted
            && LoadPayload(codec, s.payloads.store, row.payloadRef) == Loaded(s.submitted[t])
            && (row.payloadRef.Some? ==> Owned(s.payloads, t, row.tenant, row.payloadRef.value))
            && ArtifactReady(s.artifacts, row.tenant, row.artifact, row.pack)
  {
    assert TaskGood(codec, s, t);
  }

  /**
   * Every lease of a task, first or retried, in every continuation of the run, is handed the value the task was
   * submitted with, and an artifact that is ready and belongs to the task's tenant and pack.
   */
  lemma {:induction false} DeliveredForever(codec: Codec, s: System, run: Run, t: Uuid)
    requires Trusted(codec) && Inv(codec, s) && Feasible(codec, s, run) && t in s.queue.db.tasks && t in s.submitted
    ensures var n := After(codec, s, run);
            && Inv(codec, n) && t in n.queue.db.tasks
            && LoadPayload(codec, n.payloads.store, n.queue.db.tasks[t].payloadRef) == Loaded(s.submitted[t])
            && var row := n.queue.db.tasks[t]; ArtifactReady(n.artifacts, row.tenant, row.artifact, row.pack)
    decreases |run|
  {
    if run == [] {
      Delivered(codec, s, t);
    } else {
      StepInv(codec, s, run[0]);
      SubmittedStays(codec, s, run[0], t);
      DeliveredForever(codec, Step(codec, s, run[0]), run[1..], t);
    }
  }

  // ---------- what is admitted ----------

  /** The artifact exists; and it is the tenant's, for that pack, ready and stored. */
  predicate Usable(p: Uploads.Pipe, r: SubmitRequest) {
    && r.artifact in p.shelf.rows
    && var row := p.shelf.rows[r.artifact];
       row.tenant == r.tenant && row.runtime.Some? && row.runtime.value.pack == r.pack && row.ready && row.key != None
  }

  /** The payload named exists; and it is the tenant's, ready and stored. */
  predicate Fetchable(p: Uploads.Pipe, r: SubmitRequest, payload: Uuid) {
    && payload in p.shelf.rows
    && var row := p.shelf.rows[payload];
       row.tenant == r.tenant && row.ready && row.key != None
  }

  /** What the request says, and 0, 300 seconds and 3 attempts where it says nothing. */
  predicate AsAsked(task: Operations.NewTask, r: SubmitRequest) {
    && task.tenant == r.tenant && task.artifact == r.artifact && task.pack == r.pack
    && task.limitKey == r.limitKey && task.idempotencyKey == r.idempotencyKey
    && (match r.priority case Some(n) => task.priority == n case None => task.priority == 0)
    && (match r.timeoutSeconds case Some(n) => task.timeoutSeconds == n case None => task.timeoutSeconds == 300)
    && (match r.maxAttempts case Some(n) => task.maxAttempts == n case None => task.maxAttempts == 3)
  }

  /** A request is admitted exactly when what it names is there to be used, and each refusal has its reply. */
  lemma AdmissionAnswers(codec: Codec, s: System, id: Uuid, r: SubmitRequest)
    ensures match Admit(codec, s, id, r)
            case BadRequest => r.inline.Some? && r.upload.Some?
            case Missing =>
              && (r.inline == None || r.upload == None)
              && (r.artifact !in s.artifacts.shelf.rows ||
                  (Usable(s.artifacts, r) && r.upload.Some? && r.upload.value !in s.payloads.shelf.rows))
            case Unfit =>
              && (r.inline == None || r.upload == None) && r.artifact in s.artifacts.shelf.rows
              && (!Usable(s.artifacts, r) ||
                  (r.upload.Some? && r.upload.value in s.payloads.shelf.rows &&
                   !Fetchable(s.payloads, r, r.upload.value)))
            case Admitted(q) =>
              && (r.inline == None || r.upload == None) && Usable(s.artifacts, r)
              && (r.upload.Some? ==> Fetchable(s.payloads, r, r.upload.value))
              && q.task == id && AsAsked(q.row, r)
              && (match r.inline
                  case Some(value) =>
                    q.write == Some(codec.render(value)) && q.row.payloadSize == Some(|codec.render(value)|)
                  case None => q.write == None)
              && (match r.upload
                  case Some(p) =>
                    && q.row.payloadRef == s.payloads.shelf.rows[p].key
                    && q.row.payloadSize == Some(s.payloads.shelf.rows[p].size)
                  case None => q.row.payloadRef == None <==> r.inline == None)
  {
  }

  // ---------- from the request to the lease ----------

  /** What a request asks to have delivered: its inline value, or what its upload parses to when it is admitted. */
  function Intended(codec: Codec, s: System, body: SubmitRequest): Option<Json> {
    if body.upload.None? then body.inline
    else
      var key := Uploads.KeyOf(Uploads.Payloads, body.upload.value);
      if key in s.payloads.store then codec.parse(s.payloads.store[key]) else None
  }

  lemma AdmittedValue(codec: Codec, s: System, task: Uuid, body: SubmitRequest)
    requires PipesInv(codec, s) && Admit(codec, s, task, body).Admitted?
    ensures var q := Admit(codec, s, task, body).submission;
            && q.task == task && q.value == Intended(codec, s, body)
            && q.row.tenant == body.tenant && q.row.artifact == body.artifact && q.row.pack == body.pack
  {
    if body.inline.None? && body.upload.Some? {
      var id := body.upload.value;
      assert s.payloads.shelf.rows[id].key == Some(Uploads.KeyOf(Uploads.Payloads, id));
    }
  }

  /** Pending, in the queue or given up, the task is still the one admitted. */
  ghost predicate Tracked(s: System, q: Submission) {
    && q.task in s.spent
    && (forall r <- s.pending :: s.pending[r].task == q.task ==>
          s.pending[r].row == q.row && s.pending[r].value == q.value)
    && (q.task in s.queue.db.tasks ==>
          && q.task in s.submitted && s.submitted[q.task] == q.value
          && Replies.Carries(s.queue.db.tasks[q.task], q.row))
  }

  lemma QueueTracked(codec: Codec, s: System, tick: Worlds.Tick, q: Submission)
    requires Tracked(s, q) && !tick.event.Submit?
    ensures Tracked(Step(codec, s, Queue(tick)), q)
  {
    Worlds.StepFramed(s.queue, tick);
    if q.task in s.queue.db.tasks {
      assert Worlds.SameSubmission(s.queue.db.tasks[q.task], Worlds.Step(s.queue, tick).db.tasks[q.task]);
    }
  }

  lemma InsertTracked(codec: Codec, s: System, request: Uuid, at: Time, q: Submission)
    requires Tracked(s, q) && request in s.pending
    ensures Tracked(Step(codec, s, Insert(request, at)), q)
  {
    InsertedRows(s, s.pending[request], at);
  }

  lemma TrackedStep(codec: Codec, s: System, e: Event, q: Submission)
    requires Inv(codec, s) && Enabled(s, e) && Tracked(s, q)
    ensures Tracked(Step(codec, s, e), q)
  {
    match e
    case Queue(tick) => QueueTracked(codec, s, tick, q);
    case Artifact(u) => PublishKeeps(codec, s, u);
    case Insert(request, at) => InsertTracked(codec, s, request, at, q);
    case _ => ElsewhereTracked(codec, s, e, q);
  }

  lemma ElsewhereTracked(codec: Codec, s: System, e: Event, q: Submission)
    requires !e.Queue? && !e.Artifact? && !e.Insert? && Enabled(s, e) && Tracked(s, q)
    ensures Tracked(Step(codec, s, e), q)
  {
    if e.Submit? && Admit(codec, s, e.task, e.body).Admitted? {
      assert Admit(codec, s, e.task, e.body).submission.task == e.task;
    }
  }

  lemma {:induction false} TrackedForever(codec: Codec, s: System, run: Run, q: Submission)
    requires Trusted(codec) && Inv(codec, s) && Feasible(codec, s, run) && Tracked(s, q)
    ensures Inv(codec, After(codec, s, run)) && Tracked(After(codec, s, run), q)
    decreases |run|
  {
    if run == [] {
    } else {
      StepInv(codec, s, run[0]);
      TrackedStep(codec, s, run[0], q);
      TrackedForever(codec, Step(codec, s, run[0]), run[1..], q);
    }
  }

  /**
   * From the request to every lease: once admitted, in whatever follows, if the task is in the queue then the poll
   * handler loads what the request asked for, and finds the artifact it named, ready and of its tenant and pack.
   */
  lemma RequestDelivered(codec: Codec, s: System, request: Uuid, task: Uuid, body: SubmitRequest, run: Run)
    requires Trusted(codec) && Inv(codec, s) && Enabled(s, Submit(request, task, body))
    requires Admit(codec, s, task, body).Admitted?
    requires Feasible(codec, Step(codec, s, Submit(request, task, body)), run)
    requires task in After(codec, Step(codec, s, Submit(request, task, body)), run).queue.db.tasks
    ensures var n := After(codec, Step(codec, s, Submit(request, task, body)), run);
            var row := n.queue.db.tasks[task];
            && LoadPayload(codec, n.payloads.store, row.payloadRef) == Loaded(Intended(codec, s, body))
            && Replies.Carries(row, Admit(codec, s, task, body).submission.row)
            && AsAsked(Admit(codec, s, task, body).submission.row, body)
            && ArtifactReady(n.artifacts, body.tenant, body.artifact, body.pack)
  {
    var q := Admit(codec, s, task, body).submission;
    AdmittedValue(codec, s, task, body);
    AdmissionAnswers(codec, s, task, body);
    StepInv(codec, s, Submit(request, task, body));
    EnrolledTracked(codec, s, request, task, body);
    TrackedDelivered(codec, Step(codec, s, Submit(request, task, body)), run, q);
  }

  lemma EnrolledTracked(codec: Codec, s: System, request: Uuid, task: Uuid, body: SubmitRequest)
    requires AllSpent(s) && Enabled(s, Submit(request, task, body)) && Admit(codec, s, task, body).Admitted?
    requires Admit(codec, s, task, body).submission.task == task
    ensures Tracked(Step(codec, s, Submit(request, task, body)), Admit(codec, s, task, body).submission)
  {
    var q := Admit(codec, s, task, body).submission;
    assert Step(codec, s, Submit(request, task, body)) == Enrolled(s, request, q);
    assert forall r <- s.pending :: s.pending[r].task != task;
  }

  lemma TrackedDelivered(codec: Codec, s: System, run: Run, q: Submission)
    requires Trusted(codec) && Inv(codec, s) && Feasible(codec, s, run) && Tracked(s, q)
    requires q.task in After(codec, s, run).queue.db.tasks
    ensures var n := After(codec, s, run);
            && LoadPayload(codec, n.payloads.store, n.queue.db.tasks[q.task].payloadRef) == Loaded(q.value)
            && Replies.Carries(n.queue.db.tasks[q.task], q.row)
            && ArtifactReady(n.artifacts, q.row.tenant, q.row.artifact, q.row.pack)
  {
    TrackedForever(codec, s, run, q);
    Delivered(codec, After(codec, s, run), q.task);
  }

  /** Such a request can always be brought into the queue, unless its tenant has used its key. */
  lemma RequestEnters(codec: Codec, s: System, request: Uuid, task: Uuid, body: SubmitRequest) returns (run: Run)
    requires Trusted(codec) && Inv(codec, s) && Enabled(s, Submit(request, task, body))
    requires Admit(codec, s, task, body).Admitted?
    requires !Replies.KeyInUse(s.queue.db, body.tenant, body.idempotencyKey)
    ensures Feasible(codec, s, run) && run != [] && run[0] == Submit(request, task, body)
    ensures task in After(codec, s, run).queue.db.tasks
  {
    var q, submit := Admit(codec, s, task, body).submission, Submit(request, task, body);
    AdmissionAnswers(codec, s, task, body);
    StepInv(codec, s, submit);
    var m := Enrolled(s, request, q);
    assert Step(codec, s, submit) == m;
    var rest := PendingEnters(codec, m, request);
    run := [submit] + rest;
    assert run[1..] == rest;
  }

  lemma PendingEnters(codec: Codec, s: System, request: Uuid) returns (run: Run)
    requires Trusted(codec) && Inv(codec, s) && request in s.pending
    requires !Replies.KeyInUse(s.queue.db, s.pending[request].row.tenant, s.pending[request].row.idempotencyKey)
    ensures Feasible(codec, s, run) && s.pending[request].task in After(codec, s, run).queue.db.tasks
  {
    if s.pending[request].write.Some? {
      var write := WriteInline(request);
      StepInv(codec, s, write);
      WriteLeaves(codec, s, request);
      run := WrittenEnters(codec, Step(codec, s, write), request);
      EventFirst(codec, s, write, run);
      run := [write] + run;
    } else {
      run := WrittenEnters(codec, s, request);
    }
  }

  lemma WrittenEnters(codec: Codec, s: System, request: Uuid) returns (run: Run)
    requires Inv(codec, s) && request in s.pending && s.pending[request].write.None?
    requires !Replies.KeyInUse(s.queue.db, s.pending[request].row.tenant, s.pending[request].row.idempotencyKey)
    ensures Feasible(codec, s, run) && s.pending[request].task in After(codec, s, run).queue.db.tasks
  {
    AdmittedEnters(codec, s, request, s.queue.now);
    EventFirst(codec, s, Insert(request, s.queue.now), []);
    run := [Insert(request, s.queue.now)] + [];
  }

  lemma WriteLeaves(codec: Codec, s: System, request: Uuid)
    requires Enabled(s, WriteInline(request))
    ensures var n := Step(codec, s, WriteInline(request));
            && n.queue == s.queue && request in n.pending
            && n.pending[request] == s.pending[request].(write := None)
  {
  }

  lemma EventFirst(codec: Codec, s: System, e: Event, rest: Run)
    requires Enabled(s, e) && Feasible(codec, Step(codec, s, e), rest)
    ensures Feasible(codec, s, [e] + rest) && After(codec, s, [e] + rest) == After(codec, Step(codec, s, e), rest)
  {
    assert ([e] + rest)[1..] == rest;
  }
}
