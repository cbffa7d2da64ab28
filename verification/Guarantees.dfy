/** What callers of the queue may rely on, in every state of every feasible run. */
module Guarantees {
  import opened Common
  import opened Tables
  import opened Operations
  import opened Lives
  import opened Worlds
  import Replies
  import Schema

  // ---------- states ----------

  /** Every state a feasible run reaches from the empty queue satisfies the invariant the lemmas below start from. */
  lemma Reachable(run: Run)
    requires Feasible(BOOT, run)
    ensures Inv(After(BOOT, run))
  {
    BootInv();
    RunInv(BOOT, run);
  }

  /**
   * Once a submission with an idempotency key is accepted, every other of that tenant and key is refused, in every
   * continuation of the run.
   */
  lemma KeyTakenForever(w: World, submit: Tick, run: Run, again: NewTask)
    requires Inv(w) && Enabled(w, submit) && submit.event.Submit? && submit.event.task.idempotencyKey.Some?
    requires InsertTask(w.db, submit.event.id, submit.event.task).Ok? && Feasible(Step(w, submit), run)
    requires again.tenant == submit.event.task.tenant
    requires again.idempotencyKey == submit.event.task.idempotencyKey
    ensures forall id :: InsertTask(After(Step(w, submit), run).db, id, again).Err?
  {
    Replies.InsertAnswers(w.db, submit.event.id, submit.event.task);
    StepInv(w, submit);
    KeyStaysTaken(Step(w, submit), run, submit.event.id, again);
  }

  lemma {:induction false} KeyStaysTaken(w: World, run: Run, t: Uuid, task: NewTask)
    requires Inv(w) && Feasible(w, run) && t in w.db.tasks && task.idempotencyKey.Some?
    requires w.db.tasks[t].tenant == task.tenant && w.db.tasks[t].idempotencyKey == task.idempotencyKey
    ensures forall id :: InsertTask(After(w, run).db, id, task).Err?
    decreases |run|
  {
    if run == [] {
    } else {
      StepInv(w, run[0]);
      StepFramed(w, run[0]);
      assert !run[0].event.Submit? ==> SameSubmission(w.db.tasks[t], Step(w, run[0]).db.tasks[t]);
      KeyStaysTaken(Step(w, run[0]), run[1..], t, task);
    }
  }

  ghost predicate Holds(db: Db, l: Uuid, t: Uuid) {
    l in db.leases && db.leases[l].task == t
  }

  /** In flight means exactly one lease; queued or settled means none; only a cancelled task may go either way. */
  lemma StatusAndLeasesAgree(w: World, t: Uuid)
    requires Inv(w) && t in w.db.tasks
    ensures forall k, l :: Holds(w.db, k, t) && Holds(w.db, l, t) ==> k == l
    ensures InFlight(w.db.tasks[t].status) ==> exists l :: Holds(w.db, l, t)
    ensures !InFlight(w.db.tasks[t].status) && w.db.tasks[t].status != Cancelled ==> !exists l :: Holds(w.db, l, t)
  {
    var v := View(w, t);
    assert Sound(v, w.now);
    assert forall l :: Holds(w.db, l, t) ==> l in v.held;
    if InFlight(v.row.status) {
      var l :| l in v.held;
      assert Holds(w.db, l, t);
    }
  }

  /** The window in which a lease gives its holder the right to report. */
  predicate Covers(l: Lease, at: Time) {
    l.granted <= at < l.expires
  }

  /** No two leases ever granted for one task are in force at the same instant. */
  lemma LeaseExclusion(w: World, g: Uuid, h: Uuid, at: Time)
    requires Inv(w) && g in w.grants && h in w.grants && g != h && w.grants[g].task == w.grants[h].task
    ensures !(Covers(w.grants[g], at) && Covers(w.grants[h], at))
  {
    var v := View(w, w.grants[g].task);
    assert Sound(v, w.now);
    assert g in v.grants && h in v.grants;
  }

  /** current_attempt is the number of attempt rows, within max(1, max_attempts), and below it while waiting. */
  lemma AttemptsAccounted(w: World, t: Uuid)
    requires Inv(w) && t in w.db.tasks
    ensures var row := w.db.tasks[t]; var rows := set a | a in w.db.attempts && w.db.attempts[a].task == t;
            && row.currentAttempt == |rows|
            && row.currentAttempt <= Max(1, row.maxAttempts)
            && (row.status == Queued || row.status == Scheduled ==> row.currentAttempt < Max(1, row.maxAttempts))
  {
    assert Sound(View(w, t), w.now);
    var rows := set a | a in w.db.attempts && w.db.attempts[a].task == t;
    assert rows == AttemptsOf(w.db.attempts, t).Keys;
    assert |AttemptsOf(w.db.attempts, t)| == |AttemptsOf(w.db.attempts, t).Keys|;
  }

  /** Two attempts of one task never overlap: the earlier one lapsed before the later one began. */
  lemma AttemptsAreATimeline(w: World, a: Uuid, b: Uuid)
    requires Inv(w) && a in w.db.attempts && b in w.db.attempts && a != b
    requires w.db.attempts[a].task == w.db.attempts[b].task
    requires w.db.attempts[a].started <= w.db.attempts[b].started
    ensures var x, y := w.db.attempts[a], w.db.attempts[b];
            && x.started < y.started
            && x.exit == Some(LeaseExpired) && x.finished.Some? && x.finished.value <= y.started
  {
    var v := View(w, w.db.attempts[a].task);
    assert Sound(v, w.now);
    assert a in v.attempts && b in v.attempts;
  }

  /** An open attempt belongs to the lease its task is held under now, and began inside that lease's window. */
  lemma OpenAttemptIsCurrent(w: World, a: Uuid)
    requires Inv(w) && a in w.db.attempts
    ensures var x := w.db.attempts[a];
            && (x.finished.None? <==> x.lease in w.db.leases)
            && (x.lease in w.db.leases ==> w.db.leases[x.lease].task == x.task)
            && x.lease in w.grants && Covers(w.grants[x.lease], x.started)
  {
    InvLinked(w);
    var x := w.db.attempts[a];
    var v := View(w, x.task);
    assert Sound(v, w.now) && a in v.attempts && AttemptLinked(w, a);
    if x.lease in w.db.leases {
      assert LeaseLinked(w, x.lease);
    }
  }

  // ---------- fencing ----------

  /** A lease that was given back, taken away, or ran out. */
  ghost predicate Dead(w: World, l: Uuid) {
    l in w.grants && (l in w.db.leases ==> w.db.leases[l].expires <= w.now)
  }

  lemma DeadStays(w: World, tick: Tick, l: Uuid)
    requires Enabled(w, tick) && Dead(w, l)
    ensures Dead(Step(w, tick), l)
  {
    if Quiet(tick.event) { QuietUntouched(w, tick); }
  }

  lemma {:induction false} DeadForever(w: World, run: Run, l: Uuid)
    requires Feasible(w, run) && Dead(w, l)
    ensures Dead(After(w, run), l)
    decreases |run|
  {
    if run == [] {
    } else {
      DeadStays(w, run[0], l);
      DeadForever(Step(w, run[0]), run[1..], l);
    }
  }

  /** Once a lease is dead, no report bearing it is ever accepted again, whatever happens in between. */
  lemma Fenced(w: World, run: Run, r: Operations.Report, at: Time, attempt: Uuid)
    requires Feasible(w, run) && Dead(w, r.lease) && After(w, run).now <= at
    ensures UpdateTaskStatus(After(w, run).db, at, r, attempt).Err?
    ensures Step(After(w, run), Tick(at, Event.Report(r, attempt))).db == After(w, run).db
  {
    DeadForever(w, run, r.lease);
  }

  ghost predicate AcceptsTerminal(w: World, tick: Tick, t: Uuid) {
    && tick.event.Report? && tick.event.report.task == t && Terminal(tick.event.report.status)
    && UpdateTaskStatus(w.db, tick.at, tick.event.report, tick.event.attempt).Ok?
  }

  /** Completing twice is safe: after an accepted terminal report, the same lease is refused in every continuation. */
  lemma DuplicateCompletionRefused(w: World, tick: Tick, run: Run, again: Operations.Report, at: Time, attempt: Uuid)
    requires Inv(w) && Enabled(w, tick) && AcceptsTerminal(w, tick, again.task)
    requires again.lease == tick.event.report.lease
    requires Feasible(Step(w, tick), run) && After(Step(w, tick), run).now <= at
    ensures UpdateTaskStatus(After(Step(w, tick), run).db, at, again, attempt).Err?
  {
    InvLinked(w);
    assert LeaseLinked(w, again.lease);
    Fenced(Step(w, tick), run, again, at, attempt);
  }

  // ---------- terminal states ----------

  /** What one tick means for one task, with everything known about it. */
  lemma Lived(w: World, tick: Tick, t: Uuid)
    requires Inv(w) && Enabled(w, tick) && t in w.db.tasks
    ensures t in Step(w, tick).db.tasks
    ensures Sound(View(w, t), tick.at) && Allowed(View(w, t), tick.at, Felt(w, tick, t))
    ensures View(Step(w, tick), t) == Apply(View(w, t), tick.at, Felt(w, tick, t))
  {
    InvLinked(w);
    TickFelt(w, tick, t);
    LaterSound(View(w, t), w.now, tick.at);
  }

  lemma AcceptedIsFinished(w: World, tick: Tick, t: Uuid)
    requires Inv(w) && Enabled(w, tick)
    ensures AcceptsTerminal(w, tick, t) ==> t in w.db.tasks
    ensures t in w.db.tasks ==> (AcceptsTerminal(w, tick, t) <==> Felt(w, tick, t).Finished?)
    ensures AcceptsTerminal(w, tick, t) ==> Felt(w, tick, t) == Finished(tick.event.report)
  {
  }

  /** A task that is over never changes again, in any continuation. */
  lemma {:induction false} OverForever(w: World, run: Run, t: Uuid)
    requires Inv(w) && Feasible(w, run) && t in w.db.tasks && Over(View(w, t))
    ensures t in After(w, run).db.tasks && View(After(w, run), t) == View(w, t)
    ensures Accepted(w, run, t) == 0
    decreases |run|
  {
    if run == [] {
    } else {
      Lived(w, run[0], t);
      OverIsFinal(View(w, t), run[0].at, Felt(w, run[0], t));
      AcceptedIsFinished(w, run[0], t);
      StepInv(w, run[0]);
      OverForever(Step(w, run[0]), run[1..], t);
    }
  }

  /** No run takes a task out of the terminal statuses. */
  lemma {:induction false} TerminalForever(w: World, run: Run, t: Uuid)
    requires Inv(w) && Feasible(w, run) && t in w.db.tasks && Terminal(w.db.tasks[t].status)
    ensures t in After(w, run).db.tasks && Terminal(After(w, run).db.tasks[t].status)
    ensures w.db.tasks[t].status != Cancelled ==> After(w, run).db.tasks[t] == w.db.tasks[t]
    decreases |run|
  {
    if run == [] {
    } else {
      Lived(w, run[0], t);
      TerminalCloses(View(w, t), run[0].at, Felt(w, run[0], t));
      StepInv(w, run[0]);
      TerminalForever(Step(w, run[0]), run[1..], t);
    }
  }

  /** The only change of a terminal status: a live lease of a cancelled task reports how it ended. */
  lemma OnlyOverwrite(w: World, tick: Tick, t: Uuid)
    requires Inv(w) && Enabled(w, tick) && t in w.db.tasks && Terminal(w.db.tasks[t].status)
    ensures t in Step(w, tick).db.tasks
    ensures Step(w, tick).db.tasks[t] != w.db.tasks[t] ==>
              w.db.tasks[t].status == Cancelled && AcceptsTerminal(w, tick, t)
  {
    Lived(w, tick, t);
    TerminalCloses(View(w, t), tick.at, Felt(w, tick, t));
    AcceptedIsFinished(w, tick, t);
  }

  /** A lease that ran out under a cancelled task. */
  ghost predicate Orphan(w: World, l: Uuid) {
    && l in w.db.leases && w.db.leases[l].expires <= w.now
    && w.db.leases[l].task in w.db.tasks && w.db.tasks[w.db.leases[l].task].status == Cancelled
  }

  lemma OrphanStep(w: World, tick: Tick, l: Uuid)
    requires Inv(w) && Enabled(w, tick) && Orphan(w, l)
    ensures Orphan(Step(w, tick), l) && Step(w, tick).db.leases[l] == w.db.leases[l]
    ensures Step(w, tick).db.tasks[w.db.leases[l].task] == w.db.tasks[w.db.leases[l].task]
  {
    var t := w.db.leases[l].task;
    OrphanView(w, tick, l);
    assert l in View(w, t).held;
    assert l in View(Step(w, tick), t).held;
  }

  lemma OrphanView(w: World, tick: Tick, l: Uuid)
    requires Inv(w) && Enabled(w, tick) && Orphan(w, l)
    ensures var t, n := w.db.leases[l].task, Step(w, tick);
            t in n.db.tasks && View(n, t) == View(w, t) && w.now <= n.now
  {
    var t := w.db.leases[l].task;
    Lived(w, tick, t);
    assert l in View(w, t).held;
    OrphanIsFinal(View(w, t), tick.at, Felt(w, tick, t));
    StepClock(w, tick);
  }

  /**
   * A task cancelled under a lease that then ran out keeps that lease for ever: its reports are refused, and the
   * reconciler looks only at tasks in flight.
   */
  lemma {:induction false} OrphanLeaseStays(w: World, run: Run, l: Uuid)
    requires Inv(w) && Feasible(w, run) && Orphan(w, l)
    ensures var n := After(w, run); var t := w.db.leases[l].task;
            Orphan(n, l) && n.db.leases[l] == w.db.leases[l] && n.db.tasks[t] == w.db.tasks[t]
    decreases |run|
  {
    if run == [] {
    } else {
      OrphanStep(w, run[0], l);
      StepInv(w, run[0]);
      OrphanLeaseStays(Step(w, run[0]), run[1..], l);
    }
  }

  /** A lease can still be given back if and only if it did not run out under a cancelled task. */
  lemma ReleasableExactly(w: World, l: Uuid)
    requires Inv(w) && l in w.db.leases
    ensures (exists run :: Feasible(w, run) && l !in After(w, run).db.leases) <==> !Orphan(w, l)
  {
    if Orphan(w, l) {
      forall run | Feasible(w, run)
        ensures l in After(w, run).db.leases
      {
        OrphanLeaseStays(w, run, l);
      }
    } else {
      GivenBack(w, l);
    }
  }

  /** By the reconciler when it ran out in flight, by a terminal report while it is live. */
  lemma GivenBack(w: World, l: Uuid)
    requires Inv(w) && l in w.db.leases && !Orphan(w, l)
    ensures exists run :: Feasible(w, run) && l !in After(w, run).db.leases
  {
    InvLinked(w);
    assert LeaseLinked(w, l);
    var lease := w.db.leases[l];
    var report := Operations.Report(lease.task, l, lease.executor, Failed, None, None, None);
    if lease.expires <= w.now {
      GoneIn(w, Tick(w.now, Reconcile), l);
    } else {
      Returned(w, report, l);
      GoneIn(w, Tick(w.now, Event.Report(report, l)), l);
    }
  }

  lemma GoneIn(w: World, tick: Tick, l: Uuid)
    requires Enabled(w, tick) && l !in Step(w, tick).db.leases
    ensures exists run :: Feasible(w, run) && l !in After(w, run).db.leases
  {
    Extended(w, [], tick);
    assert [] + [tick] == [tick];
    assert Feasible(w, [tick]) && l !in After(w, [tick]).db.leases;
  }

  lemma Returned(w: World, r: Operations.Report, spare: Uuid)
    requires r.task in w.db.tasks && LeaseLive(w.db, w.now, r) && r.status == Failed
    ensures r.lease !in Step(w, Tick(w.now, Event.Report(r, spare))).db.leases
  {
  }

  /** How many terminal reports for a task a run accepts. */
  ghost function Accepted(w: World, run: Run, t: Uuid): nat
    decreases |run|
  {
    if run == [] then 0
    else (if AcceptsTerminal(w, run[0], t) then 1 else 0) + Accepted(Step(w, run[0]), run[1..], t)
  }

  /** At most one terminal report is ever accepted for a task. */
  lemma {:induction false} OneTerminalReport(w: World, run: Run, t: Uuid)
    requires Inv(w) && Feasible(w, run)
    ensures Accepted(w, run, t) <= 1
    decreases |run|
  {
    if run == [] {
    } else {
      StepInv(w, run[0]);
      if AcceptsTerminal(w, run[0], t) {
        AcceptedIsFinished(w, run[0], t);
        Lived(w, run[0], t);
        FinishedIsOver(View(w, t), run[0].at, run[0].event.report);
        OverForever(Step(w, run[0]), run[1..], t);
      } else {
        OneTerminalReport(Step(w, run[0]), run[1..], t);
      }
    }
  }

  // ---------- progress ----------

  /** How often a run changes the status or the lease of a task. */
  ghost function Moves(w: World, run: Run, t: Uuid): nat
    decreases |run|
  {
    if run == [] then 0
    else
      var n := Step(w, run[0]);
      (if t in w.db.tasks && t in n.db.tasks && Moved(View(w, t), View(n, t)) then 1 else 0) + Moves(n, run[1..], t)
  }

  /** How often a run takes away a lease under which the task never started. */
  ghost function UnstartedLosses(w: World, run: Run, t: Uuid): nat
    decreases |run|
  {
    if run == [] then 0
    else
      (if t in w.db.tasks && LostUnstarted(View(w, t), Felt(w, run[0], t)) then 1 else 0) +
      UnstartedLosses(Step(w, run[0]), run[1..], t)
  }

  /** The measure pays for every move. */
  lemma {:induction false} MovesPaid(w: World, run: Run, t: Uuid)
    requires Inv(w) && Feasible(w, run) && t in w.db.tasks
    ensures t in After(w, run).db.tasks
    ensures Moves(w, run, t) + Measure(View(After(w, run), t)) <= Measure(View(w, t)) + 2 * UnstartedLosses(w, run, t)
    ensures 0 <= Measure(View(After(w, run), t))
    decreases |run|
  {
    if run == [] {
      MeasureFalls(View(w, t), w.now, Idle);
    } else {
      Lived(w, run[0], t);
      MeasureFalls(View(w, t), run[0].at, Felt(w, run[0], t));
      StepInv(w, run[0]);
      MovesPaid(Step(w, run[0]), run[1..], t);
    }
  }

  /** A task just submitted moves at most 3M + 1 + 2u times, M its allowance, u its leases lost unstarted. */
  lemma ProgressBound(w: World, submit: Tick, run: Run)
    requires Inv(w) && Enabled(w, submit) && submit.event.Submit? && submit.event.id !in w.db.tasks
    requires InsertTask(w.db, submit.event.id, submit.event.task).Ok?
    requires Feasible(Step(w, submit), run)
    ensures var t := submit.event.id; var start := Step(w, submit);
            Moves(start, run, t) <= 3 * Max(1, submit.event.task.maxAttempts) + 1 + 2 * UnstartedLosses(start, run, t)
  {
    StepInv(w, submit);
    Newborn(w, submit, submit.event.id);
    MovesPaid(Step(w, submit), run, submit.event.id);
  }

  // ---------- outputs ----------

  ghost predicate Ran(db: Db, lease: Uuid) {
    exists a <- db.attempts :: db.attempts[a].lease == lease
  }

  ghost predicate RanIn(v: Life, lease: Uuid) {
    exists a <- v.attempts :: v.attempts[a].lease == lease
  }

  predicate NewestIn(v: Life, a: Uuid) {
    a in v.attempts && forall b | b in v.attempts :: v.attempts[b].started <= v.attempts[a].started
  }

  /** get_task_outputs, asked of one task's life. */
  ghost predicate Answers(v: Life, out: Outputs) {
    && out.status == v.row.status && out.resultRef == v.row.resultRef
    && if v.attempts == map[] then out.logsRef == None
       else exists a :: NewestIn(v, a) && out.logsRef == v.attempts[a].logsRef
  }

  lemma AnswersOfView(w: World, t: Uuid, out: Outputs)
    requires t in w.db.tasks
    ensures IsOutputs(w.db, t, out) <==> Answers(View(w, t), out)
  {
    var v := View(w, t);
    assert forall a :: NewestIn(v, a) <==> IsNewest(w.db, t, a) by {
      forall a | NewestIn(v, a) ensures IsNewest(w.db, t, a) {
        forall b | b in w.db.attempts && w.db.attempts[b].task == t
          ensures w.db.attempts[b].started <= w.db.attempts[a].started
        {
          assert b in v.attempts;
        }
      }
    }
    if v.attempts == map[] {
      forall a <- w.db.attempts ensures w.db.attempts[a].task != t {
        assert a !in v.attempts;
      }
    } else {
      var a :| a in v.attempts;
      assert w.db.attempts[a].task == t;
    }
  }

  /** Once its lease ran, the newest attempt is the one that closed with the report's logs, and the only newest. */
  lemma RanAnswer(v: Life, now: Time, r: Operations.Report, b: Uuid, a: Uuid)
    requires Sound(v, now) && Allowed(v, now, Finished(r)) && b in v.attempts && v.attempts[b].lease == r.lease
    ensures NewestIn(Apply(v, now, Finished(r)), a) <==> a == b
    ensures Apply(v, now, Finished(r)).attempts[b].logsRef == r.logsRef
  {
    var n := Apply(v, now, Finished(r));
    assert v.attempts[b].finished.None?;
    forall c <- v.attempts | c != b
      ensures n.attempts[c].started < n.attempts[b].started
    {
      assert Precedes(v.attempts[c], v.attempts[b]);
    }
    assert b in n.attempts;
  }

  /** When the last lease never ran, every attempt behind the task lapsed without logs, and one of them is newest. */
  lemma NeverRanAnswer(v: Life, now: Time, r: Operations.Report)
    requires Sound(v, now) && Allowed(v, now, Finished(r)) && !RanIn(v, r.lease)
    ensures var n := Apply(v, now, Finished(r));
            && (forall a <- n.attempts :: n.attempts[a].logsRef == None)
            && (n.attempts != map[] ==> exists a :: NewestIn(n, a))
  {
    var n := Apply(v, now, Finished(r));
    forall a <- v.attempts
      ensures v.attempts[a].logsRef == None && n.attempts[a] == v.attempts[a]
    {
      assert v.attempts[a].lease !in v.held;
    }
    if n.attempts != map[] {
      var a := Schema.LatestOf(n.attempts, n.attempts.Keys);
      assert NewestIn(n, a);
    }
  }

  ghost function Closing(r: Operations.Report, ran: bool): Outputs {
    Outputs(r.status, if ran then r.logsRef else None, r.resultRef)
  }

  lemma AnswersOfLife(v: Life, now: Time, r: Operations.Report, out: Outputs)
    requires Sound(v, now) && Allowed(v, now, Finished(r))
    ensures Answers(Apply(v, now, Finished(r)), out) <==> out == Closing(r, RanIn(v, r.lease))
  {
    if b :| b in v.attempts && v.attempts[b].lease == r.lease {
      AnswersAfterRun(v, now, r, b, out);
    } else {
      NeverRanAnswer(v, now, r);
    }
  }

  lemma AnswersAfterRun(v: Life, now: Time, r: Operations.Report, b: Uuid, out: Outputs)
    requires Sound(v, now) && Allowed(v, now, Finished(r)) && b in v.attempts && v.attempts[b].lease == r.lease
    ensures Answers(Apply(v, now, Finished(r)), out) <==> out == Closing(r, true)
  {
    var n := Apply(v, now, Finished(r));
    assert b in n.attempts;
    forall a
      ensures NewestIn(n, a) <==> a == b
    {
      RanAnswer(v, now, r, b, a);
    }
    RanAnswer(v, now, r, b, b);
  }

  lemma RanSeen(w: World, lease: Uuid, t: Uuid)
    requires Inv(w) && lease in w.db.leases && w.db.leases[lease].task == t && t in w.db.tasks
    ensures RanIn(View(w, t), lease) <==> Ran(w.db, lease)
  {
    InvLinked(w);
    assert LeaseLinked(w, lease);
    if a :| a in w.db.attempts && w.db.attempts[a].lease == lease {
      assert AttemptLinked(w, a);
      assert a in View(w, t).attempts;
    }
  }

  /**
   * From the accepted terminal report on, get_task_outputs has one answer, for ever: that report's status and
   * result, with its logs exactly when its lease had gone Running and none otherwise.
   */
  lemma OutputsStable(w: World, tick: Tick, run: Run, t: Uuid, out: Outputs)
    requires Inv(w) && Enabled(w, tick) && AcceptsTerminal(w, tick, t) && Feasible(Step(w, tick), run)
    ensures var r := tick.event.report;
            IsOutputs(After(Step(w, tick), run).db, t, out) <==> out == Closing(r, Ran(w.db, r.lease))
  {
    AcceptedIsFinished(w, tick, t);
    Lived(w, tick, t);
    FinishedIsOver(View(w, t), tick.at, tick.event.report);
    StepInv(w, tick);
    OverForever(Step(w, tick), run, t);
    AnswersAt(w, tick, After(Step(w, tick), run), t, out);
  }

  lemma AnswersAt(w: World, tick: Tick, n: World, t: Uuid, out: Outputs)
    requires Inv(w) && Enabled(w, tick) && AcceptsTerminal(w, tick, t) && t in w.db.tasks && t in n.db.tasks
    requires View(n, t) == Apply(View(w, t), tick.at, Felt(w, tick, t))
    ensures IsOutputs(n.db, t, out) <==> out == Closing(tick.event.report, Ran(w.db, tick.event.report.lease))
  {
    var r := tick.event.report;
    AcceptedIsFinished(w, tick, t);
    Lived(w, tick, t);
    assert r.lease in w.db.leases && w.db.leases[r.lease].task == t;
    RanSeen(w, r.lease, t);
    AnswersOfLife(View(w, t), tick.at, Felt(w, tick, t).report, out);
    AnswersOfView(n, t, out);
  }

  // ---------- attempts are final ----------

  lemma FinishedKept(v: Life, now: Time, c: Change, a: Uuid)
    requires Allowed(v, now, c) && a in v.attempts && v.attempts[a].finished.Some?
    ensures a in Apply(v, now, c).attempts && Apply(v, now, c).attempts[a] == v.attempts[a]
  {
  }

  /** A finished attempt is never written again. */
  lemma {:induction false} FinishedForever(w: World, run: Run, a: Uuid)
    requires Inv(w) && Feasible(w, run) && a in w.db.attempts && w.db.attempts[a].finished.Some?
    ensures a in After(w, run).db.attempts && After(w, run).db.attempts[a] == w.db.attempts[a]
    decreases |run|
  {
    if run == [] {
    } else {
      var t := w.db.attempts[a].task;
      Lived(w, run[0], t);
      assert a in View(w, t).attempts;
      FinishedKept(View(w, t), run[0].at, Felt(w, run[0], t), a);
      assert a in View(Step(w, run[0]), t).attempts;
      StepInv(w, run[0]);
      FinishedForever(Step(w, run[0]), run[1..], a);
    }
  }

  // ---------- logs ----------

  /** The persisted chunks of one lease and stream, in chunk_index order. */
  function Persisted(chunks: seq<Chunk>, lease: Uuid, stream: string): seq<string> {
    if chunks == [] then []
    else (if chunks[0].lease == lease && chunks[0].stream == stream then [chunks[0].text] else []) +
         Persisted(chunks[1..], lease, stream)
  }

  lemma {:induction false} PersistedAppend(chunks: seq<Chunk>, c: Chunk, lease: Uuid, stream: string)
    ensures Persisted(chunks + [c], lease, stream) ==
            Persisted(chunks, lease, stream) + if c.lease == lease && c.stream == stream then [c.text] else []
  {
    if chunks == [] {
      assert [] + [c] == [c];
    } else {
      assert (chunks + [c])[1..] == chunks[1..] + [c];
      PersistedAppend(chunks[1..], c, lease, stream);
    }
  }

  predicate Sends(tick: Tick, lease: Uuid, stream: string) {
    tick.event.Append? && tick.event.chunk.lease == lease && tick.event.chunk.stream == stream
  }

  /** The chunks a run sends for one lease and stream. */
  function Sent(run: Run, lease: Uuid, stream: string): seq<string> {
    if run == [] then []
    else (if Sends(run[0], lease, stream) then [run[0].event.chunk.text] else []) + Sent(run[1..], lease, stream)
  }

  /** For each chunk sent, whether it was accepted. */
  function Verdicts(w: World, run: Run, lease: Uuid, stream: string): (r: seq<bool>)
    ensures |r| == |Sent(run, lease, stream)|
    decreases |run|
  {
    if run == [] then []
    else (if Sends(run[0], lease, stream) then [AppendChunk(w.db, run[0].event.chunk).Ok?] else []) +
         Verdicts(Step(w, run[0]), run[1..], lease, stream)
  }

  /** The texts whose verdict is true, in order. */
  function Chosen(texts: seq<string>, verdicts: seq<bool>): seq<string>
    requires |texts| == |verdicts|
  {
    if texts == [] then []
    else (if verdicts[0] then [texts[0]] else []) + Chosen(texts[1..], verdicts[1..])
  }

  lemma {:induction false} AllChosen(texts: seq<string>, verdicts: seq<bool>)
    requires |texts| == |verdicts| && forall i :: 0 <= i < |verdicts| ==> verdicts[i]
    ensures Chosen(texts, verdicts) == texts
  {
    if texts == [] {
    } else {
      AllChosen(texts[1..], verdicts[1..]);
    }
  }

  /** What one tick adds to the persisted texts of a lease and stream. */
  function Added(w: World, tick: Tick, lease: Uuid, stream: string): seq<string> {
    if Sends(tick, lease, stream) && AppendChunk(w.db, tick.event.chunk).Ok? then [tick.event.chunk.text] else []
  }

  /** The texts a run gets persisted for one lease and stream. */
  function Kept(w: World, run: Run, lease: Uuid, stream: string): seq<string>
    decreases |run|
  {
    if run == [] then []
    else Added(w, run[0], lease, stream) + Kept(Step(w, run[0]), run[1..], lease, stream)
  }

  lemma {:induction false} KeptIsChosen(w: World, run: Run, lease: Uuid, stream: string)
    ensures Kept(w, run, lease, stream) == Chosen(Sent(run, lease, stream), Verdicts(w, run, lease, stream))
    decreases |run|
  {
    if run == [] {
    } else {
      KeptIsChosen(Step(w, run[0]), run[1..], lease, stream);
      var texts, verdicts := Sent(run, lease, stream), Verdicts(w, run, lease, stream);
      if Sends(run[0], lease, stream) {
        assert texts[1..] == Sent(run[1..], lease, stream);
        assert verdicts[1..] == Verdicts(Step(w, run[0]), run[1..], lease, stream);
      } else {
        assert texts == Sent(run[1..], lease, stream);
        assert verdicts == Verdicts(Step(w, run[0]), run[1..], lease, stream);
      }
    }
  }

  lemma Regroup(a: seq<string>, b: seq<string>, c: seq<string>)
    ensures (a + b) + c == a + (b + c)
  {
  }

  lemma {:induction false} PersistedKept(w: World, run: Run, lease: Uuid, stream: string)
    ensures Persisted(After(w, run).db.chunks, lease, stream) ==
            Persisted(w.db.chunks, lease, stream) + Kept(w, run, lease, stream)
    decreases |run|
  {
    if run == [] {
    } else {
      var n := Step(w, run[0]);
      PersistedKept(n, run[1..], lease, stream);
      PersistedStep(w, run[0], lease, stream);
      Regroup(Persisted(w.db.chunks, lease, stream), Added(w, run[0], lease, stream), Kept(n, run[1..], lease, stream));
    }
  }

  /** What a run persists for a lease and stream is what it sent, in order, less the chunks it refused. */
  lemma LogOrder(w: World, run: Run, lease: Uuid, stream: string)
    ensures Persisted(After(w, run).db.chunks, lease, stream) ==
            Persisted(w.db.chunks, lease, stream) + Chosen(Sent(run, lease, stream), Verdicts(w, run, lease, stream))
  {
    KeptIsChosen(w, run, lease, stream);
    PersistedKept(w, run, lease, stream);
  }

  lemma PersistedStep(w: World, tick: Tick, lease: Uuid, stream: string)
    ensures Persisted(Step(w, tick).db.chunks, lease, stream) ==
            Persisted(w.db.chunks, lease, stream) + Added(w, tick, lease, stream)
  {
    ChunksStep(w, tick);
    if tick.event.Append? {
      PersistedAppend(w.db.chunks, tick.event.chunk, lease, stream);
    }
  }

  lemma ChunksStep(w: World, tick: Tick)
    ensures Step(w, tick).db.chunks ==
            if tick.event.Append? && AppendChunk(w.db, tick.event.chunk).Ok?
            then w.db.chunks + [tick.event.chunk] else w.db.chunks
  {
    match tick.event
    case Report(r, attempt) => ReportWrites(w.db, tick.at, r, attempt);
    case BeginPoll(tx, pack, executor, seconds) => BeginWrites(w.(now := tick.at), tx, pack, executor, seconds);
    case _ =>
  }

  /** The log of a stream only ever grows at its end: chunks once read are read again, in the same places. */
  lemma StreamOnlyGrows(w: World, run: Run, lease: Uuid, stream: string)
    ensures Persisted(w.db.chunks, lease, stream) <= Persisted(After(w, run).db.chunks, lease, stream)
  {
    PersistedKept(w, run, lease, stream);
  }

  /** If no append of a stream is refused, everything the run sent on it is persisted. */
  lemma NothingMissing(w: World, run: Run, lease: Uuid, stream: string)
    requires forall i :: 0 <= i < |Verdicts(w, run, lease, stream)| ==> Verdicts(w, run, lease, stream)[i]
    ensures Persisted(After(w, run).db.chunks, lease, stream) ==
            Persisted(w.db.chunks, lease, stream) + Sent(run, lease, stream)
  {
    LogOrder(w, run, lease, stream);
    AllChosen(Sent(run, lease, stream), Verdicts(w, run, lease, stream));
  }
}
