/** The task repository: tables changed in place, one transaction a method. */
module TaskRepositories {
  import opened Common
  import opened Tables
  import opened Operations
  import Replies
  import Schema

  class TaskRepository {
    var tasks: map<Uuid, TaskRow>
    var leases: map<Uuid, Lease>
    var attempts: map<Uuid, Attempt>
    var executors: map<Uuid, Time>
    var limits: map<Group, int>
    var artifacts: map<Uuid, ArtifactRef>
    var chunks: seq<Chunk>
    var nextCreated: nat

    function Contents(): Db
      reads this
    {
      Db(tasks, leases, attempts, executors, limits, artifacts, chunks, nextCreated)
    }

    /** The constraints the schema itself keeps. */
    ghost predicate Valid()
      reads this
    {
      Ordered(Contents()) && OneLeaseEach(Contents())
    }

    constructor ()
      ensures Valid() && Contents() == EMPTY
    {
      tasks, leases, attempts, executors := map[], map[], map[], map[];
      limits, artifacts, chunks, nextCreated := map[], map[], [], 0;
    }

    method InsertTask(id: Uuid, task: NewTask) returns (r: Result<()>)
      requires Valid()
      modifies this`tasks, this`nextCreated
      ensures Valid()
      ensures match Operations.InsertTask(old(Contents()), id, task)
              case Ok(db) => r == Ok(()) && Contents() == db
              case Err(e) => r == Err(e) && Contents() == old(Contents())
      ensures r.Ok? <==>
                && Replies.RightArtifact(old(Contents()), task) && id !in old(tasks)
                && !Replies.KeyInUse(old(Contents()), task.tenant, task.idempotencyKey)
      ensures r.Ok? ==> id in tasks && Replies.RowOf(tasks[id], task)
    {
      Replies.InsertAnswers(Contents(), id, task);
      if !ArtifactFits(Contents(), task) {
        return Err(Conflict("artifact does not belong to tenant or runtime pack does not match"));
      }
      if id in tasks || KeyTaken(Contents(), task) {
        return Err(DatabaseError("unique constraint"));
      }
      tasks := tasks[id := FirstRow(task, nextCreated)];
      nextCreated := nextCreated + 1;
      r := Ok(());
    }

    method PollAndLease(now: Time, pack: string, executor: Uuid, seconds: int, id: Uuid)
      returns (r: Result<Option<(TaskRow, Lease)>>)
      requires Valid()
      modifies this`tasks, this`leases
      ensures Valid()
      ensures match Operations.PollAndLease(old(Contents()), now, pack, executor, seconds, id)
              case Err(e) => r == Err(e) && Contents() == old(Contents())
              case Ok((db, None)) => r == Ok(None) && Contents() == db == old(Contents())
              case Ok((db, Some(lease))) =>
                && Contents() == db
                && lease.task in db.tasks && r == Ok(Some((db.tasks[lease.task], lease)))
      ensures r.Ok? ==> Replies.Recent(old(Contents()), now, executor)
      ensures r.Ok? && r.value.Some? ==> Replies.Foremost(old(Contents()), pack, {}, r.value.value.1.task)
      ensures r == Ok(None) ==> forall t :: !Replies.Takable(old(Contents()), pack, {}, t)
    {
      Replies.PickIsForemost(Contents(), pack, {});
      if executor !in executors {
        return Err(Conflict("executor must register before polling"));
      }
      if executors[executor] < now - HEARTBEAT_WINDOW {
        return Err(Conflict("executor heartbeat is stale"));
      }
      var candidate := Pick(Contents(), pack, {});
      if candidate.None? {
        return Ok(None);
      }
      var t := candidate.value;
      var before := tasks;
      tasks := tasks[t := tasks[t].(status := Scheduled, scheduledAt := Some(now))];
      if id in leases || exists l :: l in leases && leases[l].task == t {
        tasks := before;  // the transaction rolls back
        return Err(DatabaseError("unique constraint"));
      }
      leases := leases[id := Lease(t, executor, now, now + seconds * SECOND)];
      r := Ok(Some((tasks[t], leases[id])));
    }

    method UpdateTaskStatus(now: Time, report: Report, attempt: Uuid) returns (r: Result<()>)
      requires Valid()
      modifies this`tasks, this`leases, this`attempts
      ensures Valid()
      ensures match Operations.UpdateTaskStatus(old(Contents()), now, report, attempt)
              case Ok(db) => r == Ok(()) && Contents() == db
              case Err(e) => r == Err(e) && Contents() == old(Contents())
      ensures r.Ok? <==> Replies.Due(old(Contents()), now, report, attempt)
      ensures r.Ok? && Replies.FinalStatus(report.status) ==>
                report.task in tasks && tasks[report.task].status == report.status && report.lease !in leases
    {
      Schema.ReportKeepsConstraints(Contents(), now, report, attempt);
      Replies.ReportAnswers(Contents(), now, report, attempt);
      if !LeaseLive(Contents(), now, report) {
        return Err(Conflict("no active lease matches this completion"));
      }
      if report.status == Running {
        r := MarkRunning(now, report, attempt);
      } else if Terminal(report.status) {
        r := Settle(now, report);
      } else {
        r := Err(Conflict("unsupported external status transition"));
      }
    }

    method MarkRunning(now: Time, report: Report, attempt: Uuid) returns (r: Result<()>)
      modifies this`tasks, this`attempts
      ensures match StartAttempt(old(Contents()), now, report, attempt)
              case Ok(db) => r == Ok(()) && Contents() == db
              case Err(e) => r == Err(e) && Contents() == old(Contents())
    {
      var before := tasks;
      if report.task in tasks && tasks[report.task].status == Scheduled {
        var row := tasks[report.task];
        tasks := tasks[report.task := row.(status := Running, currentAttempt := row.currentAttempt + 1)];
      } else if report.task !in tasks || tasks[report.task].status != Running {
        return Err(Conflict("task is not schedulable for running"));
      }
      if !exists a :: a in attempts && attempts[a].lease == report.lease {
        if attempt in attempts {
          tasks := before;  // the transaction rolls back
          return Err(DatabaseError("unique constraint"));
        }
        attempts := attempts[attempt :=
          Attempt(report.task, report.executor, report.lease, now, None, None, None, None)];
      }
      r := Ok(());
    }

    method Settle(now: Time, report: Report) returns (r: Result<()>)
      modifies this`tasks, this`attempts, this`leases
      ensures match FinishTask(old(Contents()), now, report)
              case Ok(db) => r == Ok(()) && Contents() == db
              case Err(e) => r == Err(e) && Contents() == old(Contents())
    {
      if report.task !in tasks {
        return Err(NotFound);
      }
      tasks := tasks[report.task := FinishedRow(tasks[report.task], report)];
      attempts := CloseAttempts(attempts, {report.lease}, now, Reported(report.status),
                                report.logsRef, report.resultRef);
      leases := leases - {report.lease};
      r := Ok(());
    }

    /** Both updates of one expired lease, whose task row was read by the query. */
    method LoseLease(now: Time, l: Uuid, t: Uuid, row: TaskRow)
      requires t in tasks && tasks[t] == row
      modifies this`tasks, this`attempts
      ensures tasks == old(tasks)[t := RequeuedRow(row)]
      ensures attempts == CloseAttempts(old(attempts), {l}, now, LeaseExpired, None, None)
    {
      var next := if row.currentAttempt >= row.maxAttempts then DeadLetter else Queued;
      tasks := tasks[t := tasks[t].(status := next)];
      attempts := CloseAttempts(attempts, {l}, now, LeaseExpired, None, None);
    }

    /** The loop over expired leases, in whatever order the query returned them. */
    method LoseLeases(now: Time, expired: set<Uuid>)
      requires OneLeaseEach(Contents())
      requires forall l <- expired :: l in leases && leases[l].task in tasks
      modifies this`tasks, this`attempts
      ensures tasks == RequeuedTasks(old(Contents()), expired)
      ensures attempts == CloseAttempts(old(attempts), expired, now, LeaseExpired, None, None)
    {
      ghost var was := Contents();
      var rows := tasks;  // current_attempt and max_attempts are read once, before any update
      var rest := expired;
      ghost var handled: set<Uuid> := {};
      Schema.RequeueNone(was);
      Schema.CloseNone(attempts, now);
      while rest != {}
        invariant handled !! rest && handled + rest == expired
        invariant tasks == RequeuedTasks(was, handled)
        invariant attempts == CloseAttempts(was.attempts, handled, now, LeaseExpired, None, None)
      {
        var l :| l in rest;
        Schema.RequeueOneMore(was, handled, l);
        Schema.CloseOneMore(was.attempts, handled, l, now);
        LoseLease(now, l, leases[l].task, rows[leases[l].task]);
        rest, handled := rest - {l}, handled + {l};
      }
      assert handled == expired;
    }

    method RequeueExpiredLeases(now: Time) returns (moved: nat)
      requires Valid()
      modifies this`tasks, this`attempts, this`leases
      ensures Valid()
      ensures Contents() == Requeue(old(Contents()), now)
      ensures moved == |Expired(old(Contents()), now)|
    {
      Schema.RequeueKeepsConstraints(Contents(), now);
      var expired := Expired(Contents(), now);
      LoseLeases(now, expired);
      leases := leases - expired;
      moved := |expired|;
    }

    method CancelTask(now: Time, id: Uuid) returns (r: Result<()>)
      requires Valid()
      modifies this`tasks
      ensures Valid()
      ensures match Operations.CancelTask(old(Contents()), now, id)
              case Ok(db) => r == Ok(()) && Contents() == db
              case Err(e) => r == Err(e) && Contents() == old(Contents())
    {
      if id in tasks && !Terminal(tasks[id].status) {
        tasks := tasks[id := tasks[id].(status := Cancelled, cancelRequestedAt := Some(now))];
        return Ok(());
      }
      r := Err(if id in tasks then Conflict("task is already terminal") else NotFound);
    }

    method AppendTaskLogChunk(chunk: Chunk) returns (r: Result<()>)
      requires Valid()
      modifies this`chunks
      ensures Valid()
      ensures match AppendChunk(old(Contents()), chunk)
              case Ok(db) => r == Ok(()) && Contents() == db
              case Err(e) => r == Err(e) && Contents() == old(Contents())
    {
      if !(chunk.lease in leases
           && leases[chunk.lease].task == chunk.task && leases[chunk.lease].executor == chunk.executor) {
        return Err(Conflict("no active lease matches this log append"));
      }
      chunks := chunks + [chunk];
      r := Ok(());
    }

    method GetTaskOutputs(id: Uuid) returns (r: Option<Outputs>)
      requires Valid()
      ensures r.None? <==> id !in tasks
      ensures r.Some? ==> IsOutputs(Contents(), id, r.value)
    {
      if id !in tasks {
        return None;
      }
      var mine := set a | a in attempts && attempts[a].task == id;
      var logsRef: Option<string> := None;
      if mine != {} {
        NewestExists(Contents(), id, mine);
        var newest :| newest in attempts && IsNewest(Contents(), id, newest);
        logsRef := attempts[newest].logsRef;
        assert exists a <- attempts :: attempts[a].task == id;
      } else {
        assert forall a <- attempts :: attempts[a].task == id ==> a in mine;
      }
      r := Some(Outputs(tasks[id].status, logsRef, tasks[id].resultRef));
    }
  }

  lemma NewestExists(db: Db, task: Uuid, mine: set<Uuid>)
    requires mine != {} && mine == set a | a in db.attempts && db.attempts[a].task == task
    ensures exists a <- db.attempts :: IsNewest(db, task, a)
  {
    var a := Schema.LatestOf(db.attempts, mine);
    forall b | b in db.attempts && db.attempts[b].task == task
      ensures db.attempts[b].started <= db.attempts[a].started
    {
      assert b in mine;
    }
    assert IsNewest(db, task, a);
  }
}
