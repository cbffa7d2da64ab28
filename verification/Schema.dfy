/** The schema's own constraints survive every operation. */
module Schema {
  import opened Common
  import opened Tables
  import opened Operations

  ghost predicate Constraints(db: Db) {
    Ordered(db) && OneLeaseEach(db)
  }

  lemma SameRows(db: Db, next: Db)
    requires Constraints(db)
    requires next.tasks.Keys == db.tasks.Keys && next.nextCreated == db.nextCreated
    requires forall t <- db.tasks :: next.tasks[t].created == db.tasks[t].created
    requires forall l <- next.leases :: l in db.leases && next.leases[l] == db.leases[l]
    ensures Constraints(next)
  {
  }

  lemma ReportKeepsConstraints(db: Db, now: Time, r: Report, attempt: Uuid)
    requires Constraints(db)
    ensures var next := UpdateTaskStatus(db, now, r, attempt); next.Ok? ==> Constraints(next.value)
  {
    var next := UpdateTaskStatus(db, now, r, attempt);
    if next.Ok? {
      SameRows(db, next.value);
    }
  }

  lemma RequeueKeepsConstraints(db: Db, now: Time)
    requires Constraints(db)
    ensures Constraints(Requeue(db, now))
  {
  }

  lemma RequeueNone(db: Db)
    ensures RequeuedTasks(db, {}) == db.tasks
  {
  }

  // ---------- one lost lease at a time is all of them at once ----------

  lemma RequeueOneMore(db: Db, handled: set<Uuid>, l: Uuid)
    requires OneLeaseEach(db) && handled <= db.leases.Keys
    requires l in db.leases && l !in handled && db.leases[l].task in db.tasks
    ensures var t := db.leases[l].task;
            var tasks := RequeuedTasks(db, handled);
            tasks[t] == db.tasks[t] && tasks[t := RequeuedRow(db.tasks[t])] == RequeuedTasks(db, handled + {l})
  {
  }

  lemma CloseOneMore(attempts: map<Uuid, Attempt>, handled: set<Uuid>, l: Uuid, now: Time)
    ensures CloseAttempts(CloseAttempts(attempts, handled, now, LeaseExpired, None, None),
                          {l}, now, LeaseExpired, None, None)
         == CloseAttempts(attempts, handled + {l}, now, LeaseExpired, None, None)
  {
  }

  lemma CloseNone(attempts: map<Uuid, Attempt>, now: Time)
    ensures CloseAttempts(attempts, {}, now, LeaseExpired, None, None) == attempts
  {
  }

  /** Among finitely many attempts one started last. */
  lemma {:induction false} LatestOf(attempts: map<Uuid, Attempt>, s: set<Uuid>) returns (a: Uuid)
    requires s != {} && s <= attempts.Keys
    ensures a in s && forall b <- s :: attempts[b].started <= attempts[a].started
    decreases |s|
  {
    a :| a in s;
    if s != {a} {
      var rest := s - {a};
      assert |rest| < |s|;
      var late := LatestOf(attempts, rest);
      if attempts[late].started > attempts[a].started {
        a := late;
      }
    }
  }

  // ---------- the reconciler as one update ----------

  lemma {:induction false} ImageSize(leases: map<Uuid, Lease>, s: set<Uuid>)
    requires s <= leases.Keys
    requires forall k <- s, l <- s :: leases[k].task == leases[l].task ==> k == l
    ensures |set l | l in s :: leases[l].task| == |s|
    decreases |s|
  {
    var image := set l | l in s :: leases[l].task;
    if s == {} {
      assert image == {};
    } else {
      var l :| l in s;
      var rest := s - {l};
      assert |s| == |rest| + 1;
      ImageSize(leases, rest);
      assert image == (set k | k in rest :: leases[k].task) + {leases[l].task};
    }
  }

  ghost predicate Lost(db: Db, now: Time, t: Uuid) {
    exists l :: l in Expired(db, now) && db.leases[l].task == t
  }

  /**
   * The reconciler moves each in-flight task whose lease has run out, and no other, to Queued or DeadLetter;
   * it takes exactly the expired leases, closes exactly their open attempts, counts the tasks it moved, and
   * leaves itself nothing to do at the same instant.
   */
  lemma RequeueMovesEachOnce(db: Db, now: Time)
    requires OneLeaseEach(db)
    ensures var n := Requeue(db, now);
            && n.tasks.Keys == db.tasks.Keys
            && (forall t <- db.tasks :: Lost(db, now, t) ==>
                  InFlight(db.tasks[t].status) && n.tasks[t] == RequeuedRow(db.tasks[t]) && n.tasks[t] != db.tasks[t])
            && (forall t <- db.tasks :: !Lost(db, now, t) ==> n.tasks[t] == db.tasks[t])
            && (forall l <- db.leases :: l !in n.leases <==> l in Expired(db, now))
            && (forall l <- n.leases :: n.leases[l] == db.leases[l])
            && |set t | t in db.tasks && n.tasks[t] != db.tasks[t]| == |Expired(db, now)|
            && Expired(n, now) == {}
  {
    var n := Requeue(db, now);
    var moved := set t | t in db.tasks && n.tasks[t] != db.tasks[t];
    ImageSize(db.leases, Expired(db, now));
    assert moved == set l | l in Expired(db, now) :: db.leases[l].task;
    NothingLeft(db, now);
  }

  /** The other leases belong to other tasks, which the reconciler leaves alone. */
  lemma NothingLeft(db: Db, now: Time)
    requires OneLeaseEach(db)
    ensures Expired(Requeue(db, now), now) == {}
  {
    var n, lost := Requeue(db, now), Expired(db, now);
    forall l <- n.leases
      ensures l !in Expired(n, now)
    {
      assert l !in lost;
      assert forall k <- lost :: db.leases[k].task != db.leases[l].task;
    }
  }

  lemma RequeueClosesTheirAttempts(db: Db, now: Time, a: Uuid)
    requires a in db.attempts
    ensures var x := db.attempts[a]; var n := Requeue(db, now);
            a in n.attempts &&
            if x.lease in Expired(db, now) && x.finished.None?
            then n.attempts[a] == x.(finished := Some(now), exit := Some(LeaseExpired)) else n.attempts[a] == x
  {
  }
}
