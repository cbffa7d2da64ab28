/** Short runs from the empty queue that show what the guarantees leave possible. */
module Scenarios {
  import opened Common
  import opened Tables
  import opened Operations
  import opened Worlds
  import opened Guarantees
  import RateCap

  const WORK := NewTask(7, 1, "python", 0, Some("gpu"), None, 300, 3, None, None)

  /** One executor polls for one task and is given it for a minute. */
  const HANDED_OUT: Run := [
    Tick(0, Publish(1, ArtifactRef(7, "python"))),
    Tick(0, Register(2)),
    Tick(0, Submit(10, WORK)),
    Tick(0, BeginPoll(20, "python", 2, 60)),
    Tick(0, CommitPoll(20, 30))]

  const SUBMITTED: Db :=
    EMPTY.(artifacts := map[1 := ArtifactRef(7, "python")], executors := map[2 := 0],
           tasks := map[10 := FirstRow(WORK, 0)], nextCreated := 1)

  const LEASE := Lease(10, 2, 0, 60 * SECOND)

  const LEASED: World := World(Grant(SUBMITTED, 30, LEASE), 0, map[30 := LEASE], map[])

  lemma Prepared()
    ensures Feasible(BOOT, HANDED_OUT[..2])
    ensures After(BOOT, HANDED_OUT[..2]) == World(SUBMITTED.(tasks := map[], nextCreated := 0), 0, map[], map[])
  {
    assert HANDED_OUT[..1] == [] + [HANDED_OUT[0]];
    assert HANDED_OUT[..2] == HANDED_OUT[..1] + [HANDED_OUT[1]];
    Extended(BOOT, [], HANDED_OUT[0]);
    Extended(BOOT, HANDED_OUT[..1], HANDED_OUT[1]);
  }

  lemma Submitted()
    ensures Feasible(BOOT, HANDED_OUT[..3]) && After(BOOT, HANDED_OUT[..3]) == World(SUBMITTED, 0, map[], map[])
  {
    Prepared();
    assert HANDED_OUT[..3] == HANDED_OUT[..2] + [HANDED_OUT[2]];
    Extended(BOOT, HANDED_OUT[..2], HANDED_OUT[2]);
  }

  lemma HandedOut()
    ensures Feasible(BOOT, HANDED_OUT) && After(BOOT, HANDED_OUT) == LEASED
  {
    Submitted();
    var w := World(SUBMITTED, 0, map[], map[]);
    assert HANDED_OUT[..4] == HANDED_OUT[..3] + [HANDED_OUT[3]];
    assert HANDED_OUT == HANDED_OUT[..4] + [HANDED_OUT[4]];
    Extended(BOOT, HANDED_OUT[..3], HANDED_OUT[3]);
    Extended(BOOT, HANDED_OUT[..4], HANDED_OUT[4]);
    assert ActiveIn(SUBMITTED, (7, "gpu")) == {};
    assert Candidate(SUBMITTED, "python", {}, 10);
    assert Locked(w) == {};
    assert Step(w, HANDED_OUT[3]) == w.(open := map[20 := OpenPoll(10, 2, 0, 60 * SECOND)]);
  }

  /** A task is cancelled, its minute passes, the reconciler runs, and the lease is left behind. */
  lemma OrphanHappens() returns (run: Run)
    ensures Feasible(BOOT, run) && Orphan(After(BOOT, run), 30)
  {
    HandedOut();
    var cancelled := HANDED_OUT + [Tick(0, Cancel(10))];
    run := cancelled + [Tick(60 * SECOND, Reconcile)];
    Extended(BOOT, HANDED_OUT, Tick(0, Cancel(10)));
    Extended(BOOT, cancelled, Tick(60 * SECOND, Reconcile));
    var w := After(BOOT, cancelled);
    assert w.db.tasks[10].status == Cancelled;
    assert Expired(w.db, 60 * SECOND) == {};
  }

  /** A terminal report with logs is accepted under a lease that never went Running, and its logs_ref is gone. */
  lemma LogsRefDropped() returns (run: Run, report: Tick)
    ensures Feasible(BOOT, run + [report]) && AcceptsTerminal(After(BOOT, run), report, 10)
    ensures report.event.report.logsRef.Some? && !Ran(After(BOOT, run).db, report.event.report.lease)
    ensures forall out ::
              IsOutputs(After(BOOT, run + [report]).db, 10, out) <==> out == Outputs(Succeeded, None, Some("result"))
  {
    HandedOut();
    run := HANDED_OUT;
    report := Tick(0, Event.Report(Operations.Report(10, 30, 2, Succeeded, Some("logs"), Some("result"), None), 40));
    Extended(BOOT, run, report);
    assert After(BOOT, run + [report]).db.attempts == map[];
  }

  // ---------- a limit of one, exceeded ----------

  const GROUP: Group := (7, "gpu")

  /** A second task of the group, and a limit of one. */
  const TWO_WAITING: Db :=
    SUBMITTED.(limits := map[GROUP := 1], tasks := SUBMITTED.tasks[11 := FirstRow(WORK, 1)], nextCreated := 2)

  lemma TwoWaiting() returns (run: Run)
    ensures Feasible(BOOT, run) && After(BOOT, run) == World(TWO_WAITING, 0, map[], map[])
  {
    var limited := Limited();
    SecondSubmitted();
    run := limited + [Tick(0, Submit(11, WORK))];
    Extended(BOOT, limited, Tick(0, Submit(11, WORK)));
  }

  lemma SecondSubmitted()
    ensures Step(World(SUBMITTED.(limits := map[GROUP := 1]), 0, map[], map[]), Tick(0, Submit(11, WORK))) ==
            World(TWO_WAITING, 0, map[], map[])
  {
  }

  lemma Limited() returns (run: Run)
    ensures Feasible(BOOT, run) && After(BOOT, run) == World(SUBMITTED.(limits := map[GROUP := 1]), 0, map[], map[])
  {
    Submitted();
    run := HANDED_OUT[..3] + [Tick(0, Limit(GROUP, 1))];
    Extended(BOOT, HANDED_OUT[..3], Tick(0, Limit(GROUP, 1)));
  }

  /** The limit is not a hard one: two overlapping polls put two tasks in flight under a limit of one. */
  lemma LimitOfOneExceeded() returns (setup: Run, polls: Run)
    ensures Feasible(BOOT, setup + polls)
    ensures var w, n := After(BOOT, setup), After(BOOT, setup + polls);
            && RateCap.AtMostInAll(w, polls, 2) && RateCap.NeverLowered(w, polls, GROUP)
            && n.db.limits == map[GROUP := 1] && |ActiveIn(n.db, GROUP)| == 2
  {
    setup := TwoWaiting();
    polls := TwoOverlap();
    Joined(BOOT, setup, polls);
  }

  lemma TwoOverlap() returns (polls: Run)
    ensures var w, n := World(TWO_WAITING, 0, map[], map[]), After(World(TWO_WAITING, 0, map[], map[]), polls);
            && Feasible(w, polls) && RateCap.AtMostInAll(w, polls, 2) && RateCap.NeverLowered(w, polls, GROUP)
            && n.db.limits == map[GROUP := 1] && |ActiveIn(n.db, GROUP)| == 2
  {
    var w := World(TWO_WAITING, 0, map[], map[]);
    TwoSane();
    TwoFit();
    assert |{20, 21}| == 2 && |{30, 31}| == 2;
    polls := RateCap.BoundAttained(w, "python", 2, 60, GROUP, 2, {20, 21}, {30, 31});
  }

  lemma TwoSane()
    ensures Inv(World(TWO_WAITING, 0, map[], map[]))
  {
    var setup := TwoWaiting();
    Reachable(setup);
  }

  lemma TwoFit()
    ensures |ActiveIn(TWO_WAITING, GROUP)| == 0 && PollRefusal(TWO_WAITING, 0, 2).None?
    ensures |RateCap.Queue(TWO_WAITING, "python")| == |RateCap.Waiting(TWO_WAITING, "python", GROUP)| == 2
  {
    assert ActiveIn(TWO_WAITING, GROUP) == {};
    assert RateCap.Queue(TWO_WAITING, "python") == RateCap.Waiting(TWO_WAITING, "python", GROUP) == {10, 11};
  }
}
