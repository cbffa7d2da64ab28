/** The whole queue in motion: any number of polls in flight, any callers, a clock that never goes back. */
module Worlds {
  import opened Common
  import opened Tables
  import opened Operations
  import opened Lives

  /** A poll transaction that has locked its row and not yet committed. */
  datatype OpenPoll = OpenPoll(task: Uuid, executor: Uuid, began: Time, expires: Time)

  /** The committed database, the clock, every lease ever committed, and the polls still open. */
  datatype World = World(db: Db, now: Time, grants: map<Uuid, Lease>, open: map<Uuid, OpenPoll>)

  datatype Event =
    | Submit(id: Uuid, task: NewTask)
    | BeginPoll(tx: Uuid, pack: string, executor: Uuid, seconds: int)
    | CommitPoll(tx: Uuid, lease: Uuid)
    | AbortPoll(tx: Uuid)
    | Report(report: Operations.Report, attempt: Uuid)
    | Reconcile
    | Cancel(id: Uuid)
    | Append(chunk: Chunk)
    | Register(executor: Uuid)
    | Beat(executor: Uuid)
    | Limit(group: Group, maxInflight: int)
    | Publish(artifact: Uuid, owner: ArtifactRef)

  datatype Tick = Tick(at: Time, event: Event)

  type Run = seq<Tick>

  const BOOT := World(EMPTY, 0, map[], map[])

  function Locked(w: World): set<Uuid> {
    set x | x in w.open :: w.open[x].task
  }

  /**
   * Time does not go back, generated ids are fresh, and an update waits for a row lock.
   */
  ghost predicate Enabled(w: World, tick: Tick) {
    && w.now <= tick.at
    && match tick.event
       case BeginPoll(tx, _, _, _) => tx !in w.open
       case CommitPoll(tx, lease) => tx in w.open && lease !in w.grants
       case AbortPoll(tx) => tx in w.open
       case Report(r, attempt) => r.status == Running ==> attempt !in w.db.attempts
       case Cancel(id) => id !in Locked(w)
       case Publish(artifact, _) => artifact !in w.db.artifacts
       case _ => true
  }

  /** A refused call leaves the database as it was. */
  function Settled(db: Db, r: Result<Db>): Db {
    if r.Ok? then r.value else db
  }

  function Begin(w: World, tx: Uuid, pack: string, executor: Uuid, seconds: int): World {
    if PollRefusal(w.db, w.now, executor).Some? then w else
    match Pick(w.db, pack, Locked(w))
    case None => w
    case Some(t) => w.(open := w.open[tx := OpenPoll(t, executor, w.now, w.now + seconds * SECOND)])
  }

  function LeaseOf(o: OpenPoll): Lease {
    Lease(o.task, o.executor, o.began, o.expires)
  }

  function Commit(w: World, tx: Uuid, lease: Uuid): World
    requires tx in w.open
  {
    var o := w.open[tx];
    var rest := w.(open := w.open - {tx});
    if o.task !in w.db.tasks || LeaseInsertFails(w.db, lease, o.task) then rest
    else rest.(db := Grant(w.db, lease, LeaseOf(o)), grants := w.grants[lease := LeaseOf(o)])
  }

  function Perform(w: World, e: Event): World {
    match e
    case Submit(id, task) => w.(db := Settled(w.db, InsertTask(w.db, id, task)))
    case BeginPoll(tx, pack, executor, seconds) => Begin(w, tx, pack, executor, seconds)
    case CommitPoll(tx, lease) => if tx in w.open then Commit(w, tx, lease) else w
    case AbortPoll(tx) => w.(open := w.open - {tx})
    case Report(r, attempt) => w.(db := Settled(w.db, UpdateTaskStatus(w.db, w.now, r, attempt)))
    case Reconcile => w.(db := Requeue(w.db, w.now))
    case Cancel(id) => w.(db := Settled(w.db, CancelTask(w.db, w.now, id)))
    case Append(chunk) => w.(db := Settled(w.db, AppendChunk(w.db, chunk)))
    case Register(executor) => w.(db := RegisterExecutor(w.db, w.now, executor))
    case Beat(executor) => w.(db := Settled(w.db, Heartbeat(w.db, w.now, executor)))
    case Limit(group, n) => w.(db := Settled(w.db, PutRateLimit(w.db, group, n)))
    case Publish(artifact, owner) => w.(db := AddArtifact(w.db, artifact, owner))
  }

  function Step(w: World, tick: Tick): World {
    Perform(w.(now := tick.at), tick.event)
  }

  ghost predicate Feasible(w: World, run: Run)
    decreases |run|
  {
    run == [] || (Enabled(w, run[0]) && Feasible(Step(w, run[0]), run[1..]))
  }

  function After(w: World, run: Run): World
    decreases |run|
  {
    if run == [] then w else After(Step(w, run[0]), run[1..])
  }

  /** Two runs one after the other. */
  lemma {:induction false} Joined(w: World, first: Run, second: Run)
    ensures After(w, first + second) == After(After(w, first), second)
    ensures Feasible(w, first + second) <==> Feasible(w, first) && Feasible(After(w, first), second)
    decreases |first|
  {
    if first == [] {
      assert first + second == second;
    } else {
      assert (first + second)[1..] == first[1..] + second;
      Joined(Step(w, first[0]), first[1..], second);
    }
  }

  /** A run and one more tick. */
  lemma Extended(w: World, run: Run, tick: Tick)
    ensures After(w, run + [tick]) == Step(After(w, run), tick)
    ensures Feasible(w, run + [tick]) <==> Feasible(w, run) && Enabled(After(w, run), tick)
  {
    Joined(w, run, [tick]);
    assert [tick][1..] == [];
    assert Feasible(After(w, run), [tick]) <==> Enabled(After(w, run), tick);
  }

  // ---------- one task's part of the world ----------

  function LeasesOf(leases: map<Uuid, Lease>, t: Uuid): map<Uuid, Lease> {
    map l | l in leases && leases[l].task == t :: leases[l]
  }

  function AttemptsOf(attempts: map<Uuid, Attempt>, t: Uuid): map<Uuid, Attempt> {
    map a | a in attempts && attempts[a].task == t :: attempts[a]
  }

  function View(w: World, t: Uuid): Life
    requires t in w.db.tasks
  {
    Life(w.db.tasks[t], LeasesOf(w.db.leases, t), AttemptsOf(w.db.attempts, t), LeasesOf(w.grants, t))
  }

  /** What a tick does to one task. */
  ghost function Felt(w: World, tick: Tick, t: Uuid): Change
    requires t in w.db.tasks
  {
    match tick.event
    case CommitPoll(tx, lease) =>
      if tx in w.open && w.open[tx].task == t then Leased(lease, LeaseOf(w.open[tx])) else Idle
    case Report(r, attempt) =>
      if r.task != t || UpdateTaskStatus(w.db, tick.at, r, attempt).Err? then Idle
      else if Terminal(r.status) then Finished(r)
      else if w.db.tasks[t].status == Scheduled
      then Started(attempt, Attempt(t, r.executor, r.lease, tick.at, None, None, None, None))
      else Idle
    case Reconcile =>
      if l :| l in Expired(w.db, tick.at) && w.db.leases[l].task == t then Lost(l) else Idle
    case Cancel(id) =>
      if id == t && !Terminal(w.db.tasks[t].status) then Stopped else Idle
    case _ => Idle
  }

  // ---------- the joint invariant ----------

  /** Every row belongs to a task that exists. */
  ghost predicate Owned(w: World) {
    && (forall l <- w.db.leases :: w.db.leases[l].task in w.db.tasks)
    && (forall a <- w.db.attempts :: w.db.attempts[a].task in w.db.tasks)
    && (forall g <- w.grants :: w.grants[g].task in w.db.tasks)
  }

  /** Open polls hold different queued tasks, whose earlier leases were over when the poll began. */
  ghost predicate PollsSafe(w: World) {
    && (forall x <- w.open, y <- w.open :: w.open[x].task == w.open[y].task ==> x == y)
    && (forall x <- w.open :: var o := w.open[x];
          && o.task in w.db.tasks && w.db.tasks[o.task].status == Queued && o.began <= w.now
          && forall g <- w.grants :: w.grants[g].task == o.task ==> w.grants[g].expires <= o.began)
  }

  /** The unique index on (tenant_id, idempotency_key). */
  ghost predicate KeysUnique(db: Db) {
    forall t <- db.tasks, u <- db.tasks ::
      (&& db.tasks[t].idempotencyKey.Some? && db.tasks[t].tenant == db.tasks[u].tenant
       && db.tasks[t].idempotencyKey == db.tasks[u].idempotencyKey) ==> t == u
  }

  ghost predicate AllSound(w: World) {
    forall t {:trigger View(w, t)} | t in w.db.tasks :: Sound(View(w, t), w.now)
  }

  ghost predicate Inv(w: World) {
    Ordered(w.db) && KeysUnique(w.db) && Owned(w) && PollsSafe(w) && AllSound(w)
  }

  lemma BootInv()
    ensures Inv(BOOT)
  {
  }

  // ---------- what the invariant says about the tables themselves ----------

  ghost predicate LeaseLinked(w: World, l: Uuid)
    requires l in w.db.leases
  {
    var t := w.db.leases[l].task;
    && l in w.grants && w.grants[l] == w.db.leases[l] && t in w.db.tasks
    && (InFlight(w.db.tasks[t].status) || w.db.tasks[t].status == Cancelled)
    && (w.db.tasks[t].status == Running ==> exists a <- w.db.attempts :: w.db.attempts[a].lease == l)
  }

  ghost predicate AttemptLinked(w: World, a: Uuid)
    requires a in w.db.attempts
  {
    var x := w.db.attempts[a];
    && x.task in w.db.tasks && x.lease in w.grants && w.grants[x.lease].task == x.task
    && (x.lease in w.db.leases ==> w.db.tasks[x.task].status != Scheduled)
  }

  ghost predicate Linked(w: World) {
    && OneLeaseEach(w.db)
    && (forall l <- w.db.leases :: LeaseLinked(w, l))
    && (forall a <- w.db.attempts :: AttemptLinked(w, a))
  }

  /** The leases of a queued task are all over. */
  ghost predicate QueuedFree(w: World) {
    forall g <- w.grants :: w.grants[g].task in w.db.tasks && w.db.tasks[w.grants[g].task].status == Queued ==>
      w.grants[g].expires <= w.now
  }

  lemma LeaseSeen(w: World, l: Uuid)
    requires l in w.db.leases && w.db.leases[l].task in w.db.tasks
    requires Sound(View(w, w.db.leases[l].task), w.now)
    ensures LeaseLinked(w, l)
    ensures forall k <- w.db.leases :: w.db.leases[k].task == w.db.leases[l].task ==> k == l
  {
    var v := View(w, w.db.leases[l].task);
    assert l in v.held && l in v.grants;
    forall k <- w.db.leases | w.db.leases[k].task == w.db.leases[l].task
      ensures k == l
    {
      assert k in v.held;
    }
    if v.row.status == Running {
      var a :| a in v.attempts && v.attempts[a].lease in v.held;
      assert w.db.attempts[a].lease == l;
    }
  }

  lemma AttemptSeen(w: World, a: Uuid)
    requires a in w.db.attempts && w.db.attempts[a].task in w.db.tasks
    requires Sound(View(w, w.db.attempts[a].task), w.now)
    requires w.db.attempts[a].lease in w.db.leases ==> LeaseLinked(w, w.db.attempts[a].lease)
    ensures AttemptLinked(w, a)
  {
    var v := View(w, w.db.attempts[a].task);
    assert a in v.attempts;
  }

  lemma GrantSeen(w: World, g: Uuid)
    requires g in w.grants && w.grants[g].task in w.db.tasks
    requires Sound(View(w, w.grants[g].task), w.now) && w.db.tasks[w.grants[g].task].status == Queued
    ensures w.grants[g].expires <= w.now
  {
    assert g in View(w, w.grants[g].task).grants;
  }

  lemma InvLinked(w: World)
    requires Owned(w) && AllSound(w)
    ensures Linked(w) && QueuedFree(w)
  {
    forall l <- w.db.leases
      ensures LeaseLinked(w, l)
      ensures forall k <- w.db.leases :: w.db.leases[k].task == w.db.leases[l].task ==> k == l
    {
      LeaseSeen(w, l);
    }
    forall a <- w.db.attempts
      ensures AttemptLinked(w, a)
    {
      AttemptSeen(w, a);
    }
    forall g <- w.grants | w.db.tasks[w.grants[g].task].status == Queued
      ensures w.grants[g].expires <= w.now
    {
      GrantSeen(w, g);
    }
  }

  // ---------- every tick is one allowed change of each task's life ----------

  ghost predicate Follows(w: World, tick: Tick, t: Uuid)
    requires t in w.db.tasks
  {
    && t in Step(w, tick).db.tasks
    && Allowed(View(w, t), tick.at, Felt(w, tick, t))
    && View(Step(w, tick), t) == Apply(View(w, t), tick.at, Felt(w, tick, t))
  }

  /** The insert of a committing poll never meets the UNIQUE constraints of task_leases. */
  lemma CommitInserts(w: World, tx: Uuid, lease: Uuid)
    requires Linked(w) && PollsSafe(w) && tx in w.open && lease !in w.grants
    ensures w.open[tx].task in w.db.tasks && !LeaseInsertFails(w.db, lease, w.open[tx].task)
  {
  }

  lemma CommitFelt(w: World, tick: Tick, t: Uuid)
    requires Linked(w) && PollsSafe(w) && Enabled(w, tick) && t in w.db.tasks && tick.event.CommitPoll?
    ensures Follows(w, tick, t)
  {
    var CommitPoll(tx, lease) := tick.event;
    CommitInserts(w, tx, lease);
    CommitView(w.(now := tick.at), tx, lease, t);
    assert View(w.(now := tick.at), t) == View(w, t);
  }

  lemma CommitView(w: World, tx: Uuid, lease: Uuid, t: Uuid)
    requires tx in w.open && w.open[tx].task in w.db.tasks && t in w.db.tasks && lease !in w.grants
    requires !LeaseInsertFails(w.db, lease, w.open[tx].task)
    ensures var o := w.open[tx];
            View(Commit(w, tx, lease), t) ==
              if t == o.task then Apply(View(w, t), w.now, Leased(lease, LeaseOf(o))) else View(w, t)
  {
    var o, n := w.open[tx], Commit(w, tx, lease);
    if t == o.task {
      assert LeasesOf(n.db.leases, t) == LeasesOf(w.db.leases, t)[lease := LeaseOf(o)];
      assert LeasesOf(n.grants, t) == LeasesOf(w.grants, t)[lease := LeaseOf(o)];
    } else {
      assert LeasesOf(n.db.leases, t) == LeasesOf(w.db.leases, t);
      assert LeasesOf(n.grants, t) == LeasesOf(w.grants, t);
    }
  }

  /** Closing the attempts of some leases changes nothing for a task none of them was granted for. */
  lemma ClosedElsewhere(w: World, t: Uuid, closing: set<Uuid>, now: Time, exit: ExitReason,
                        logsRef: Option<string>, resultRef: Option<string>)
    requires forall a <- w.db.attempts :: AttemptLinked(w, a)
    requires forall l <- closing :: l in w.grants && w.grants[l].task != t
    ensures AttemptsOf(CloseAttempts(w.db.attempts, closing, now, exit, logsRef, resultRef), t)
         == AttemptsOf(w.db.attempts, t)
  {
  }

  lemma ClosedHere(w: World, t: Uuid, l: Uuid, closing: set<Uuid>, now: Time, exit: ExitReason,
                   logsRef: Option<string>, resultRef: Option<string>)
    requires forall a <- w.db.attempts :: AttemptLinked(w, a)
    requires l in closing && forall k <- closing :: k in w.grants && (w.grants[k].task == t ==> k == l)
    ensures AttemptsOf(CloseAttempts(w.db.attempts, closing, now, exit, logsRef, resultRef), t)
         == CloseAttempts(AttemptsOf(w.db.attempts, t), {l}, now, exit, logsRef, resultRef)
  {
    forall a <- w.db.attempts | w.db.attempts[a].task == t && w.db.attempts[a].lease in closing
      ensures w.db.attempts[a].lease == l
    {
      assert AttemptLinked(w, a);
    }
  }

  lemma FinishFelt(w: World, now: Time, r: Operations.Report, t: Uuid)
    requires Linked(w) && t in w.db.tasks && LeaseLive(w.db, now, r) && r.task in w.db.tasks
    ensures var n := w.(db := FinishTask(w.db, now, r).value);
            View(n, t) == if t == r.task then Apply(View(w, t), now, Finished(r)) else View(w, t)
  {
    assert LeaseLinked(w, r.lease);
    var n := w.(db := FinishTask(w.db, now, r).value);
    if t == r.task {
      ClosedHere(w, t, r.lease, {r.lease}, now, Reported(r.status), r.logsRef, r.resultRef);
      assert LeasesOf(n.db.leases, t) == LeasesOf(w.db.leases, t) - {r.lease};
    } else {
      ClosedElsewhere(w, t, {r.lease}, now, Reported(r.status), r.logsRef, r.resultRef);
      assert LeasesOf(n.db.leases, t) == LeasesOf(w.db.leases, t);
    }
  }

  function NewAttempt(r: Operations.Report, now: Time): Attempt {
    Attempt(r.task, r.executor, r.lease, now, None, None, None, None)
  }

  lemma StartFelt(w: World, now: Time, r: Operations.Report, attempt: Uuid, t: Uuid)
    requires Linked(w) && t in w.db.tasks && LeaseLive(w.db, now, r) && attempt !in w.db.attempts
    requires StartAttempt(w.db, now, r, attempt).Ok?
    ensures var n := w.(db := StartAttempt(w.db, now, r, attempt).value);
            View(n, t) == if t == r.task && w.db.tasks[t].status == Scheduled
                          then Apply(View(w, t), now, Started(attempt, NewAttempt(r, now)))
                          else View(w, t)
  {
    assert LeaseLinked(w, r.lease);
    var n := w.(db := StartAttempt(w.db, now, r, attempt).value);
    if w.db.tasks[r.task].status == Scheduled {
      forall a <- w.db.attempts
        ensures w.db.attempts[a].lease != r.lease
      {
        assert AttemptLinked(w, a);
      }
      if t == r.task {
        assert AttemptsOf(n.db.attempts, t) == AttemptsOf(w.db.attempts, t)[attempt := NewAttempt(r, now)];
      } else {
        assert AttemptsOf(n.db.attempts, t) == AttemptsOf(w.db.attempts, t);
      }
    }
  }

  lemma ReportFelt(w: World, tick: Tick, t: Uuid)
    requires Linked(w) && Enabled(w, tick) && t in w.db.tasks && tick.event.Report?
    ensures Follows(w, tick, t)
  {
    var Report(r, attempt) := tick.event;
    var next := UpdateTaskStatus(w.db, tick.at, r, attempt);
    if next.Ok? {
      ReportView(w, tick, t);
      assert View(w.(db := next.value), t) == View(Step(w, tick), t);
      if t == r.task {
        assert r.lease in View(w, t).held;
      }
    }
  }

  lemma ReportView(w: World, tick: Tick, t: Uuid)
    requires Linked(w) && Enabled(w, tick) && t in w.db.tasks && tick.event.Report?
    requires UpdateTaskStatus(w.db, tick.at, tick.event.report, tick.event.attempt).Ok?
    ensures var next := UpdateTaskStatus(w.db, tick.at, tick.event.report, tick.event.attempt).value;
            t in next.tasks && View(w.(db := next), t) == Apply(View(w, t), tick.at, Felt(w, tick, t))
  {
    var Report(r, attempt) := tick.event;
    assert LeaseLinked(w, r.lease);
    if Terminal(r.status) {
      FinishFelt(w, tick.at, r, t);
    } else {
      StartFelt(w, tick.at, r, attempt, t);
    }
  }

  lemma ReconcileFelt(w: World, tick: Tick, t: Uuid)
    requires Linked(w) && t in w.db.tasks && tick.event.Reconcile?
    ensures Follows(w, tick, t)
  {
    RequeueView(w, tick.at, t, Felt(w, tick, t));
  }

  lemma RequeueView(w: World, now: Time, t: Uuid, c: Change)
    requires Linked(w) && t in w.db.tasks
    requires c.Idle? || (c.Lost? && c.overdue in Expired(w.db, now) && w.db.leases[c.overdue].task == t)
    requires c.Idle? ==> forall l <- Expired(w.db, now) :: w.db.leases[l].task != t
    ensures View(w.(db := Requeue(w.db, now)), t) == Apply(View(w, t), now, c)
  {
    var lost := Expired(w.db, now);
    var n := Requeue(w.db, now);
    forall k <- lost
      ensures k in w.grants && w.grants[k] == w.db.leases[k]
    {
      assert LeaseLinked(w, k);
    }
    if c.Lost? {
      ClosedHere(w, t, c.overdue, lost, now, LeaseExpired, None, None);
      assert LeasesOf(n.leases, t) == LeasesOf(w.db.leases, t) - {c.overdue};
    } else {
      ClosedElsewhere(w, t, lost, now, LeaseExpired, None, None);
      assert LeasesOf(n.leases, t) == LeasesOf(w.db.leases, t);
    }
  }

  /** The tick leaves every task, lease, attempt and past grant alone. */
  ghost predicate Untouched(w: World, n: World) {
    n.db.tasks == w.db.tasks && n.db.leases == w.db.leases && n.db.attempts == w.db.attempts && n.grants == w.grants
  }

  predicate Quiet(e: Event) {
    e.BeginPoll? || e.AbortPoll? || e.Append? || e.Register? || e.Beat? || e.Limit? || e.Publish?
  }

  /** A poll that has only begun has written nothing. */
  lemma BeginWrites(w: World, tx: Uuid, pack: string, executor: Uuid, seconds: int)
    ensures var n := Begin(w, tx, pack, executor, seconds); n == w.(open := n.open)
  {
  }

  /** A report writes the task, lease and attempt tables only. */
  lemma ReportWrites(db: Db, now: Time, r: Operations.Report, attempt: Uuid)
    ensures var n := Settled(db, UpdateTaskStatus(db, now, r, attempt));
            n == db.(tasks := n.tasks, leases := n.leases, attempts := n.attempts)
  {
  }

  lemma QuietUntouched(w: World, tick: Tick)
    requires Quiet(tick.event)
    ensures Untouched(w, Step(w, tick))
  {
    match tick.event
    case BeginPoll(tx, pack, executor, seconds) => BeginWrites(w.(now := tick.at), tx, pack, executor, seconds);
    case _ =>
  }

  lemma QuietFelt(w: World, tick: Tick, t: Uuid)
    requires t in w.db.tasks && Quiet(tick.event)
    ensures Follows(w, tick, t)
  {
    QuietUntouched(w, tick);
  }

  lemma SubmitFelt(w: World, tick: Tick, t: Uuid)
    requires t in w.db.tasks && tick.event.Submit?
    ensures Follows(w, tick, t)
  {
  }

  lemma CancelFelt(w: World, tick: Tick, t: Uuid)
    requires t in w.db.tasks && tick.event.Cancel?
    ensures Follows(w, tick, t)
  {
    var n := Settled(w.db, CancelTask(w.db, tick.at, tick.event.id));
    CancelWrites(w.db, tick.at, tick.event.id);
    assert Step(w, tick) == w.(now := tick.at, db := n);
  }

  /** A cancellation writes one row, unless the task is missing or already terminal. */
  lemma CancelWrites(db: Db, now: Time, id: Uuid)
    ensures var n := Settled(db, CancelTask(db, now, id));
            n == if id in db.tasks && !Terminal(db.tasks[id].status)
                 then db.(tasks := db.tasks[id := db.tasks[id].(status := Cancelled, cancelRequestedAt := Some(now))])
                 else db
  {
  }

  /** The refinement: whatever the tick, each task's life makes one allowed change. */
  lemma TickFelt(w: World, tick: Tick, t: Uuid)
    requires Linked(w) && PollsSafe(w) && Enabled(w, tick) && t in w.db.tasks
    ensures Follows(w, tick, t)
  {
    match tick.event
    case CommitPoll(_, _) => CommitFelt(w, tick, t);
    case Report(_, _) => ReportFelt(w, tick, t);
    case Reconcile => ReconcileFelt(w, tick, t);
    case Submit(_, _) => SubmitFelt(w, tick, t);
    case Cancel(_) => CancelFelt(w, tick, t);
    case _ => QuietFelt(w, tick, t);
  }

  // ---------- the invariant is kept ----------

  lemma TickSound(w: World, tick: Tick, t: Uuid)
    requires t in w.db.tasks && Follows(w, tick, t) && Sound(View(w, t), w.now) && w.now <= tick.at
    ensures Sound(View(Step(w, tick), t), Step(w, tick).now)
  {
    StepClock(w, tick);
    LaterSound(View(w, t), w.now, tick.at);
    ChangeSound(View(w, t), tick.at, Felt(w, tick, t));
  }

  lemma StepClock(w: World, tick: Tick)
    ensures Step(w, tick).now == tick.at
  {
  }

  /** The columns a submission wrote stay as they were written. */
  ghost predicate SameSubmission(a: TaskRow, b: TaskRow) {
    b == a.(status := b.status, currentAttempt := b.currentAttempt, scheduledAt := b.scheduledAt,
            cancelRequestedAt := b.cancelRequestedAt, resultRef := b.resultRef, lastError := b.lastError)
  }

  ghost predicate Framed(db: Db, n: Db) {
    n.tasks.Keys == db.tasks.Keys && n.nextCreated == db.nextCreated &&
    forall t <- db.tasks :: SameSubmission(db.tasks[t], n.tasks[t])
  }

  lemma ReportFramed(db: Db, now: Time, r: Operations.Report, attempt: Uuid)
    ensures Framed(db, Settled(db, UpdateTaskStatus(db, now, r, attempt)))
  {
    if LeaseLive(db, now, r) {
      StartFramed(db, now, r, attempt);
      FinishFramed(db, now, r);
    }
  }

  lemma StartFramed(db: Db, now: Time, r: Operations.Report, attempt: Uuid)
    ensures Framed(db, Settled(db, StartAttempt(db, now, r, attempt)))
  {
  }

  lemma FinishFramed(db: Db, now: Time, r: Operations.Report)
    ensures Framed(db, Settled(db, FinishTask(db, now, r)))
  {
  }

  /** Only a submission adds a task; nothing else touches what submissions wrote. */
  lemma StepFramed(w: World, tick: Tick)
    ensures tick.event.Submit? || Framed(w.db, Step(w, tick).db)
  {
    match tick.event
    case Report(r, attempt) => ReportFramed(w.db, tick.at, r, attempt);
    case CommitPoll(_, _) =>
    case Reconcile =>
    case Submit(_, _) =>
    case Cancel(_) =>
    case _ =>
      QuietUntouched(w, tick);
      QuietFramed(w, tick);
  }

  lemma QuietFramed(w: World, tick: Tick)
    requires Quiet(tick.event)
    ensures Framed(w.db, Step(w, tick).db)
  {
    QuietUntouched(w, tick);
  }

  /** A newly submitted task has nothing in its past. */
  lemma Newborn(w: World, tick: Tick, t: Uuid)
    requires Owned(w) && t !in w.db.tasks && t in Step(w, tick).db.tasks
    ensures tick.event.Submit? && tick.event.id == t
    ensures View(Step(w, tick), t) == Life(FirstRow(tick.event.task, w.db.nextCreated), map[], map[], map[])
  {
    StepFramed(w, tick);
    var n := Step(w, tick);
    assert n.db.leases == w.db.leases && n.db.attempts == w.db.attempts && n.grants == w.grants;
    assert LeasesOf(w.db.leases, t) == map[] && AttemptsOf(w.db.attempts, t) == map[] && LeasesOf(w.grants, t) == map[];
  }

  lemma NewbornSound(task: NewTask, created: nat, now: Time)
    ensures Sound(Life(FirstRow(task, created), map[], map[], map[]), now)
  {
  }

  lemma LeasesOwned(w: World, tick: Tick)
    requires Owned(w) && Enabled(w, tick)
    ensures var n := Step(w, tick); forall l <- n.db.leases :: n.db.leases[l].task in n.db.tasks
    ensures var n := Step(w, tick); forall g <- n.grants :: n.grants[g].task in n.db.tasks
  {
    StepFramed(w, tick);
    match tick.event
    case Report(r, attempt) => ReportLeases(w.db, tick.at, r, attempt);
    case CommitPoll(_, _) =>
    case Reconcile =>
    case Submit(_, _) =>
    case Cancel(id) => CancelWrites(w.db, tick.at, id);
    case _ => QuietUntouched(w, tick);
  }

  lemma ReportLeases(db: Db, now: Time, r: Operations.Report, attempt: Uuid)
    ensures var n := Settled(db, UpdateTaskStatus(db, now, r, attempt));
            forall l <- n.leases :: l in db.leases && n.leases[l] == db.leases[l]
  {
  }

  lemma ReportAttempts(db: Db, now: Time, r: Operations.Report, attempt: Uuid)
    requires forall a <- db.attempts :: db.attempts[a].task in db.tasks
    ensures var n := Settled(db, UpdateTaskStatus(db, now, r, attempt));
            forall a <- n.attempts :: n.attempts[a].task in db.tasks
  {
  }

  lemma AttemptsOwned(w: World, tick: Tick)
    requires Owned(w) && Enabled(w, tick)
    ensures var n := Step(w, tick); forall a <- n.db.attempts :: n.db.attempts[a].task in n.db.tasks
  {
    StepFramed(w, tick);
    match tick.event
    case Report(r, attempt) => ReportAttempts(w.db, tick.at, r, attempt);
    case Submit(_, _) =>
    case CommitPoll(_, _) =>
    case Cancel(_) =>
    case Reconcile =>
    case _ => QuietUntouched(w, tick);
  }

  lemma StepOwned(w: World, tick: Tick)
    requires Owned(w) && Enabled(w, tick)
    ensures Owned(Step(w, tick)) && w.db.tasks.Keys <= Step(w, tick).db.tasks.Keys
  {
    LeasesOwned(w, tick);
    AttemptsOwned(w, tick);
    StepFramed(w, tick);
  }

  lemma StepOrdered(w: World, tick: Tick)
    requires Ordered(w.db) && KeysUnique(w.db)
    ensures Ordered(Step(w, tick).db) && KeysUnique(Step(w, tick).db)
  {
    StepFramed(w, tick);
    var db := Step(w, tick).db;
    if !tick.event.Submit? {
      forall t <- db.tasks
        ensures db.tasks[t].created == w.db.tasks[t].created && db.tasks[t].tenant == w.db.tasks[t].tenant
        ensures db.tasks[t].idempotencyKey == w.db.tasks[t].idempotencyKey
      {
        assert SameSubmission(w.db.tasks[t], db.tasks[t]);
      }
    }
  }

  /** A row that some open poll has locked stays Queued, and no lease is granted for it but its own. */
  lemma LockedStays(w: World, tick: Tick, x: Uuid)
    requires Linked(w) && PollsSafe(w) && Enabled(w, tick) && x in w.open && x in Step(w, tick).open
    ensures var t := w.open[x].task; var n := Step(w, tick);
            && n.open[x] == w.open[x] && t in n.db.tasks && n.db.tasks[t].status == Queued
            && forall g <- n.grants :: n.grants[g].task == t ==> g in w.grants && n.grants[g] == w.grants[g]
  {
    LockedQueued(w, tick, x);
    LockedGrants(w, tick, x);
  }

  lemma LockedQueued(w: World, tick: Tick, x: Uuid)
    requires Linked(w) && PollsSafe(w) && Enabled(w, tick) && x in w.open && x in Step(w, tick).open
    ensures var t := w.open[x].task; var n := Step(w, tick); t in n.db.tasks && n.db.tasks[t].status == Queued
  {
    var t := w.open[x].task;
    TickFelt(w, tick, t);
    match tick.event
    case Report(r, _) =>
      if r.lease in w.db.leases { assert LeaseLinked(w, r.lease); }
    case Reconcile =>
      if l :| l in w.db.leases && w.db.leases[l].task == t { assert LeaseLinked(w, l); }
    case Cancel(id) =>
      assert t in Locked(w);
    case _ =>
  }

  lemma LockedGrants(w: World, tick: Tick, x: Uuid)
    requires PollsSafe(w) && Enabled(w, tick) && x in w.open && x in Step(w, tick).open
    ensures var t := w.open[x].task; var n := Step(w, tick);
            && n.open[x] == w.open[x]
            && forall g <- n.grants :: n.grants[g].task == t ==> g in w.grants && n.grants[g] == w.grants[g]
  {
    match tick.event
    case BeginPoll(tx, pack, executor, seconds) => BeginWrites(w.(now := tick.at), tx, pack, executor, seconds);
    case _ =>
  }

  lemma StepPolls(w: World, tick: Tick)
    requires Linked(w) && QueuedFree(w) && Owned(w) && PollsSafe(w) && Enabled(w, tick)
    ensures PollsSafe(Step(w, tick))
  {
    var n := Step(w, tick);
    forall x <- n.open
      ensures x !in w.open ==> tick.event.BeginPoll?
      ensures x in w.open ==> n.open[x] == w.open[x]
    {
    }
    forall x <- n.open
      ensures var o := n.open[x];
              && o.task in n.db.tasks && n.db.tasks[o.task].status == Queued && o.began <= n.now
              && forall g <- n.grants :: n.grants[g].task == o.task ==> n.grants[g].expires <= o.began
    {
      if x in w.open { LockedStays(w, tick, x); } else { QuietUntouched(w, tick); }
    }
    forall x <- n.open, y <- n.open | x != y
      ensures n.open[x].task != n.open[y].task
    {
      if x !in w.open && y in w.open { assert n.open[y].task in Locked(w); }
      if x in w.open && y !in w.open { assert n.open[x].task in Locked(w); }
    }
  }

  lemma StepSound(w: World, tick: Tick)
    requires Owned(w) && Linked(w) && PollsSafe(w) && AllSound(w) && Enabled(w, tick)
    ensures AllSound(Step(w, tick))
  {
    forall t <- Step(w, tick).db.tasks
      ensures Sound(View(Step(w, tick), t), Step(w, tick).now)
    {
      if t in w.db.tasks { assert Sound(View(w, t), w.now); }
      TaskSound(w, tick, t);
    }
  }

  lemma TaskSound(w: World, tick: Tick, t: Uuid)
    requires Owned(w) && Linked(w) && PollsSafe(w) && Enabled(w, tick) && t in Step(w, tick).db.tasks
    requires t in w.db.tasks ==> Sound(View(w, t), w.now)
    ensures Sound(View(Step(w, tick), t), Step(w, tick).now)
  {
    if t in w.db.tasks {
      TickFelt(w, tick, t);
      TickSound(w, tick, t);
    } else {
      ArrivalSound(w, tick, t);
    }
  }

  lemma ArrivalSound(w: World, tick: Tick, t: Uuid)
    requires Owned(w) && t !in w.db.tasks && t in Step(w, tick).db.tasks
    ensures Sound(View(Step(w, tick), t), Step(w, tick).now)
  {
    Newborn(w, tick, t);
    NewbornSound(tick.event.task, w.db.nextCreated, Step(w, tick).now);
  }

  lemma StepInv(w: World, tick: Tick)
    requires Inv(w) && Enabled(w, tick)
    ensures Inv(Step(w, tick))
  {
    InvLinked(w);
    StepOwned(w, tick);
    StepOrdered(w, tick);
    StepPolls(w, tick);
    StepSound(w, tick);
  }

  /** Every state of every feasible run satisfies the joint invariant. */
  lemma {:induction false} RunInv(w: World, run: Run)
    requires Inv(w) && Feasible(w, run)
    ensures Inv(After(w, run)) && w.now <= After(w, run).now && w.db.tasks.Keys <= After(w, run).db.tasks.Keys
    decreases |run|
  {
    if run == [] {
    } else {
      StepInv(w, run[0]);
      StepOwned(w, run[0]);
      RunInv(Step(w, run[0]), run[1..]);
    }
  }
}
