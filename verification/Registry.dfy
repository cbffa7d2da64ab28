/** Executors and rate limits over whole runs: who may poll, and when a limit leaves room. */
module Registry {
  import opened Common
  import opened Tables
  import opened Operations
  import opened Worlds

  // ---------- executors ----------

  ghost predicate Contacts(e: Event, executor: Uuid) {
    e == Register(executor) || e == Beat(executor)
  }

  /** Some contact since the cut-off, from an executor registered by then. */
  ghost predicate HeardFrom(known: bool, run: Run, executor: Uuid, since: Time) {
    exists j :: 0 <= j < |run| && Contacts(run[j].event, executor) && since <= run[j].at &&
      (known || exists i :: 0 <= i <= j && run[i].event == Register(executor))
  }

  ghost predicate HeardNow(known: bool, tick: Tick, executor: Uuid, since: Time) {
    since <= tick.at && (tick.event == Register(executor) || (tick.event == Beat(executor) && known))
  }

  ghost predicate Fresh(w: World, executor: Uuid, since: Time) {
    executor in w.db.executors && since <= w.db.executors[executor]
  }

  predicate Registers(e: Event) {
    e.Register? || e.Beat? || e.Limit?
  }

  /** Nothing else writes the tables of executors and of limits. */
  lemma NeitherTouched(w: World, tick: Tick)
    requires !Registers(tick.event)
    ensures var n := Step(w, tick); n.db.executors == w.db.executors && n.db.limits == w.db.limits
  {
    match tick.event
    case Report(r, attempt) => ReportWrites(w.db, tick.at, r, attempt);
    case BeginPoll(tx, pack, executor, seconds) => BeginWrites(w.(now := tick.at), tx, pack, executor, seconds);
    case _ =>
  }

  lemma ExecutorsStep(w: World, tick: Tick)
    ensures Step(w, tick).db.executors ==
            match tick.event
            case Register(e) => w.db.executors[e := tick.at]
            case Beat(e) => if e in w.db.executors then w.db.executors[e := tick.at] else w.db.executors
            case _ => w.db.executors
  {
    if !Registers(tick.event) { NeitherTouched(w, tick); }
  }

  lemma HeardStep(known: bool, run: Run, executor: Uuid, since: Time)
    requires run != []
    ensures HeardFrom(known, run, executor, since) <==>
            HeardNow(known, run[0], executor, since) ||
            HeardFrom(known || run[0].event == Register(executor), run[1..], executor, since)
  {
    var rest := run[1..];
    assert forall j :: 1 <= j < |run| ==> run[j] == rest[j - 1];
    assert forall j :: 0 <= j < |rest| ==> rest[j] == run[j + 1];
    if HeardNow(known, run[0], executor, since) {
      assert Contacts(run[0].event, executor);
    }
  }

  lemma {:induction false} FreshAfter(w: World, run: Run, executor: Uuid, since: Time)
    requires Feasible(w, run) && (executor in w.db.executors ==> w.db.executors[executor] <= w.now)
    ensures Fresh(After(w, run), executor, since) <==>
            HeardFrom(executor in w.db.executors, run, executor, since) || Fresh(w, executor, since)
    decreases |run|
  {
    if run == [] {
    } else {
      ExecutorsStep(w, run[0]);
      HeardStep(executor in w.db.executors, run, executor, since);
      FreshAfter(Step(w, run[0]), run[1..], executor, since);
    }
  }

  /**
   * A poll gets to the queue exactly when its executor registered and, then or later, registered again or sent a
   * heartbeat no more than a minute ago. Heartbeats before the first registration count for nothing.
   */
  lemma PollWelcomeExactly(run: Run, executor: Uuid, now: Time)
    requires Feasible(BOOT, run)
    ensures PollRefusal(After(BOOT, run).db, now, executor).None? <==>
            exists i, j :: 0 <= i <= j < |run| && run[i].event == Register(executor) &&
              Contacts(run[j].event, executor) && now - HEARTBEAT_WINDOW <= run[j].at
  {
    FreshAfter(BOOT, run, executor, now - HEARTBEAT_WINDOW);
  }

  // ---------- limits ----------

  ghost predicate Positive(db: Db) {
    forall g <- db.limits :: db.limits[g] > 0
  }

  lemma LimitsStep(w: World, tick: Tick)
    ensures Step(w, tick).db.limits ==
            if tick.event.Limit? && tick.event.maxInflight > 0
            then w.db.limits[tick.event.group := tick.event.maxInflight] else w.db.limits
  {
    if !Registers(tick.event) { NeitherTouched(w, tick); }
  }

  lemma {:induction false} PositiveAfter(w: World, run: Run)
    requires Positive(w.db)
    ensures Positive(After(w, run).db)
    decreases |run|
  {
    if run == [] {
    } else {
      LimitsStep(w, run[0]);
      PositiveAfter(Step(w, run[0]), run[1..]);
    }
  }

  /** No limit can starve a group: with none of it in flight, each of its waiting tasks is a candidate. */
  lemma IdleGroupMayStart(run: Run, t: Uuid, pack: string)
    requires var db := After(BOOT, run).db;
             t in db.tasks && db.tasks[t].status == Queued && db.tasks[t].pack == pack &&
             (db.tasks[t].limitKey.Some? ==> ActiveIn(db, (db.tasks[t].tenant, db.tasks[t].limitKey.value)) == {})
    ensures Candidate(After(BOOT, run).db, pack, {}, t)
  {
    PositiveAfter(BOOT, run);
  }
}
