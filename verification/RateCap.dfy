/** How far polls that overlap can push a group past its rate limit, and no further. */
module RateCap {
  import opened Common
  import opened Tables
  import opened Operations
  import opened Worlds

  function OpenIn(w: World, g: Group): set<Uuid> {
    set x | x in w.open && w.open[x].task in w.db.tasks && InGroup(w.db.tasks[w.open[x].task], g)
  }

  /** The slots a group has taken or is about to take. */
  function Occupied(w: World, g: Group): nat {
    |ActiveIn(w.db, g)| + |OpenIn(w, g)|
  }

  /** Every state of the run has at most k polls open that hold a task of the group, and any number of others. */
  ghost predicate AtMost(w: World, run: Run, g: Group, k: nat)
    decreases |run|
  {
    |OpenIn(w, g)| <= k && (run == [] || AtMost(Step(w, run[0]), run[1..], g, k))
  }

  /** Every state of the run has at most k polls open, whatever they hold. */
  ghost predicate AtMostInAll(w: World, run: Run, k: nat)
    decreases |run|
  {
    |w.open| <= k && (run == [] || AtMostInAll(Step(w, run[0]), run[1..], k))
  }

  lemma {:induction false} FewerInGroup(w: World, run: Run, g: Group, k: nat)
    requires AtMostInAll(w, run, k)
    ensures AtMost(w, run, g, k)
    decreases |run|
  {
    OpenInSize(w, g);
    if run == [] {
    } else {
      FewerInGroup(Step(w, run[0]), run[1..], g, k);
    }
  }

  /** The limit of a group stays in place and is never lowered. */
  ghost predicate NeverLowered(w: World, run: Run, g: Group)
    decreases |run|
  {
    g in w.db.limits &&
    (run == [] ||
     var n := Step(w, run[0]);
     g in n.db.limits && w.db.limits[g] <= n.db.limits[g] && NeverLowered(n, run[1..], g))
  }

  // ---------- one tick ----------

  lemma OpenInSize(w: World, g: Group)
    ensures |OpenIn(w, g)| <= |w.open|
  {
    SubsetSize(OpenIn(w, g), w.open.Keys);
    assert |w.open| == |w.open.Keys|;
  }

  lemma BeginOccupies(w: World, tick: Tick, g: Group, k: nat)
    requires tick.event.BeginPoll? && Enabled(w, tick) && g in w.db.limits && |OpenIn(Step(w, tick), g)| <= k
    ensures Step(w, tick).db == w.db
    ensures var n := Step(w, tick);
            OpenIn(n, g) == OpenIn(w, g) || (n.db == w.db && Occupied(n, g) <= w.db.limits[g] + k - 1)
  {
    var n := Step(w, tick);
    var tx := tick.event.tx;
    if tx in n.open && tx in OpenIn(n, g) {
      var row := w.db.tasks[n.open[tx].task];
      assert Candidate(w.db, tick.event.pack, Locked(w), n.open[tx].task);
      assert g == (row.tenant, row.limitKey.value);
    } else {
      assert OpenIn(n, g) == OpenIn(w, g);
    }
  }

  lemma CommitState(w: World, tick: Tick)
    requires Linked(w) && PollsSafe(w) && tick.event.CommitPoll? && Enabled(w, tick)
    ensures var o := w.open[tick.event.tx]; var n := Step(w, tick);
            && o.task in w.db.tasks && w.db.tasks[o.task].status == Queued
            && n.open == w.open - {tick.event.tx} && n.db == Grant(w.db, tick.event.lease, LeaseOf(o))
            && n.grants == w.grants[tick.event.lease := LeaseOf(o)] && n.now == tick.at
  {
  }

  lemma CommitOccupies(w: World, tick: Tick, g: Group)
    requires Linked(w) && PollsSafe(w) && tick.event.CommitPoll? && Enabled(w, tick)
    ensures Occupied(Step(w, tick), g) == Occupied(w, g)
  {
    CommitState(w, tick);
    var tx := tick.event.tx;
    GrantedOccupies(w, Step(w, tick), tx, tick.event.lease, g);
  }

  lemma GrantedOccupies(w: World, n: World, tx: Uuid, lease: Uuid, g: Group)
    requires tx in w.open && w.open[tx].task in w.db.tasks && w.db.tasks[w.open[tx].task].status == Queued
    requires n.open == w.open - {tx} && n.db == Grant(w.db, lease, LeaseOf(w.open[tx]))
    ensures Occupied(n, g) == Occupied(w, g)
  {
    GrantedActive(w.db, lease, LeaseOf(w.open[tx]), g);
    GrantedOpen(w, n, tx, lease, g);
  }

  lemma GrantedOpen(w: World, n: World, tx: Uuid, lease: Uuid, g: Group)
    requires tx in w.open && w.open[tx].task in w.db.tasks
    requires n.open == w.open - {tx} && n.db == Grant(w.db, lease, LeaseOf(w.open[tx]))
    ensures |OpenIn(w, g)| == |OpenIn(n, g)| + if InGroup(w.db.tasks[w.open[tx].task], g) then 1 else 0
  {
    assert OpenIn(n, g) == OpenIn(w, g) - {tx};
    assert tx in OpenIn(w, g) <==> InGroup(w.db.tasks[w.open[tx].task], g);
  }

  lemma GrantedActive(db: Db, id: Uuid, lease: Lease, g: Group)
    requires lease.task in db.tasks && db.tasks[lease.task].status == Queued
    ensures |ActiveIn(Grant(db, id, lease), g)| == |ActiveIn(db, g)| + if InGroup(db.tasks[lease.task], g) then 1 else 0
  {
    var n, t := Grant(db, id, lease), lease.task;
    assert t !in ActiveIn(db, g);
    assert ActiveIn(n, g) == ActiveIn(db, g) + if InGroup(db.tasks[t], g) then {t} else {};
  }

  /** No other tick takes a slot. */
  lemma OthersRelease(w: World, tick: Tick, g: Group)
    requires Linked(w) && PollsSafe(w) && Enabled(w, tick)
    requires !tick.event.BeginPoll? && !tick.event.CommitPoll?
    ensures Occupied(Step(w, tick), g) <= Occupied(w, g)
  {
    var n := Step(w, tick);
    StepFramed(w, tick);
    ActiveShrinks(w, tick, g);
    SubsetSize(ActiveIn(n.db, g), ActiveIn(w.db, g));
    forall x <- OpenIn(n, g)
      ensures x in OpenIn(w, g)
    {
      var t := w.open[x].task;
      assert t in w.db.tasks;
      assert tick.event.Submit? || SameSubmission(w.db.tasks[t], n.db.tasks[t]);
    }
    SubsetSize(OpenIn(n, g), OpenIn(w, g));
  }

  lemma ReportShrinks(w: World, now: Time, r: Operations.Report, attempt: Uuid, g: Group)
    ensures ActiveIn(Settled(w.db, UpdateTaskStatus(w.db, now, r, attempt)), g) <= ActiveIn(w.db, g)
  {
    if LeaseLive(w.db, now, r) {
      StartShrinks(w.db, now, r, attempt, g);
      FinishShrinks(w.db, now, r, g);
    }
  }

  lemma StartShrinks(db: Db, now: Time, r: Operations.Report, attempt: Uuid, g: Group)
    ensures ActiveIn(Settled(db, StartAttempt(db, now, r, attempt)), g) <= ActiveIn(db, g)
  {
  }

  lemma FinishShrinks(db: Db, now: Time, r: Operations.Report, g: Group)
    ensures Terminal(r.status) ==> ActiveIn(Settled(db, FinishTask(db, now, r)), g) <= ActiveIn(db, g)
  {
  }

  lemma ActiveShrinks(w: World, tick: Tick, g: Group)
    requires Linked(w) && PollsSafe(w) && Enabled(w, tick)
    requires !tick.event.BeginPoll? && !tick.event.CommitPoll?
    ensures ActiveIn(Step(w, tick).db, g) <= ActiveIn(w.db, g)
  {
    match tick.event
    case Report(r, attempt) => ReportShrinks(w, tick.at, r, attempt, g);
    case Submit(_, _) =>
    case Reconcile =>
    case Cancel(_) =>
    case _ => QuietUntouched(w, tick);
  }

  lemma OccupiedStep(w: World, tick: Tick, g: Group, k: nat)
    requires Linked(w) && PollsSafe(w) && Enabled(w, tick) && |OpenIn(Step(w, tick), g)| <= k
    requires g in w.db.limits && g in Step(w, tick).db.limits && w.db.limits[g] <= Step(w, tick).db.limits[g]
    requires Occupied(w, g) <= w.db.limits[g] + k - 1
    ensures Occupied(Step(w, tick), g) <= Step(w, tick).db.limits[g] + k - 1
  {
    if tick.event.BeginPoll? {
      BeginOccupies(w, tick, g, k);
    } else if tick.event.CommitPoll? {
      CommitOccupies(w, tick, g);
    } else {
      OthersRelease(w, tick, g);
    }
  }

  // ---------- whole runs ----------

  lemma {:induction false} OccupiedBounded(w: World, run: Run, g: Group, k: nat)
    requires Inv(w) && Feasible(w, run) && AtMost(w, run, g, k) && NeverLowered(w, run, g)
    requires Occupied(w, g) <= w.db.limits[g] + k - 1
    ensures g in After(w, run).db.limits && Occupied(After(w, run), g) <= After(w, run).db.limits[g] + k - 1
    decreases |run|
  {
    if run == [] {
    } else {
      InvLinked(w);
      OccupiedStep(w, run[0], g, k);
      StepInv(w, run[0]);
      OccupiedBounded(Step(w, run[0]), run[1..], g, k);
    }
  }

  /**
   * With at most k polls open at once on a group's tasks, the group never has more than max_inflight + k - 1 tasks in
   * flight.
   */
  lemma CapUnderOverlap(w: World, run: Run, g: Group, k: nat)
    requires Inv(w) && Feasible(w, run) && AtMost(w, run, g, k) && NeverLowered(w, run, g)
    requires Occupied(w, g) <= w.db.limits[g] + k - 1
    ensures g in After(w, run).db.limits && |ActiveIn(After(w, run).db, g)| <= After(w, run).db.limits[g] + k - 1
  {
    OccupiedBounded(w, run, g, k);
  }

  /** One poll at a time on a group's tasks keeps its limit exactly. */
  lemma CapWithoutOverlap(w: World, run: Run, g: Group)
    requires Inv(w) && Feasible(w, run) && AtMost(w, run, g, 1) && NeverLowered(w, run, g)
    requires Occupied(w, g) <= w.db.limits[g]
    ensures g in After(w, run).db.limits && |ActiveIn(After(w, run).db, g)| <= After(w, run).db.limits[g]
  {
    CapUnderOverlap(w, run, g, 1);
  }

  /** No two open polls hold the same task, and none holds a task that is not waiting. */
  lemma OpenPollsDisjoint(run: Run, x: Uuid, y: Uuid)
    requires Feasible(BOOT, run) && x in After(BOOT, run).open && y in After(BOOT, run).open && x != y
    ensures var w := After(BOOT, run);
            && w.open[x].task != w.open[y].task
            && w.open[x].task in w.db.tasks && w.db.tasks[w.open[x].task].status == Queued
  {
    BootInv();
    RunInv(BOOT, run);
  }

  // ---------- commits alone ----------

  function Commits(now: Time, txs: seq<Uuid>, ids: seq<Uuid>): (run: Run)
    requires |txs| == |ids|
    ensures forall i :: 0 <= i < |run| ==> run[i].event.CommitPoll?
  {
    if txs == [] then [] else [Tick(now, CommitPoll(txs[0], ids[0]))] + Commits(now, txs[1..], ids[1..])
  }

  ghost predicate NewIds(w: World, ids: seq<Uuid>) {
    Distinct(ids) && forall i :: 0 <= i < |ids| ==> ids[i] !in w.grants
  }

  ghost predicate Enumerates(txs: seq<Uuid>, w: World) {
    Distinct(txs) && forall x :: x in txs <==> x in w.open
  }

  lemma Tails(w: World, n: World, txs: seq<Uuid>, ids: seq<Uuid>)
    requires |txs| == |ids| && txs != [] && NewIds(w, ids) && Enumerates(txs, w)
    requires n.open == w.open - {txs[0]} && forall g <- n.grants :: g in w.grants || g == ids[0]
    ensures NewIds(n, ids[1..]) && Enumerates(txs[1..], n)
  {
  }

  /** Every open poll can commit, whatever the others do, so all the slots about to be taken get taken. */
  lemma {:induction false} AllCanCommit(w: World, txs: seq<Uuid>, ids: seq<Uuid>, g: Group)
    requires Inv(w) && |txs| == |ids| && NewIds(w, ids) && Enumerates(txs, w)
    ensures Feasible(w, Commits(w.now, txs, ids))
    ensures var n := After(w, Commits(w.now, txs, ids));
            n.open == map[] && |ActiveIn(n.db, g)| == Occupied(w, g) && n.db.limits == w.db.limits
    decreases |txs|
  {
    var run := Commits(w.now, txs, ids);
    if txs == [] {
      assert forall x <- w.open :: x in txs;
      assert OpenIn(w, g) == {};
    } else {
      var tick := run[0];
      assert txs[0] in txs && ids[0] !in w.grants;
      InvLinked(w);
      CommitState(w, tick);
      CommitOccupies(w, tick, g);
      StepInv(w, tick);
      Tails(w, Step(w, tick), txs, ids);
      AllCanCommit(Step(w, tick), txs[1..], ids[1..], g);
      assert run[1..] == Commits(w.now, txs[1..], ids[1..]);
    }
  }

  /** A group's limit holds in every state reachable by commits alone exactly when its occupied slots fit under it. */
  lemma SafeToCommit(w: World, txs: seq<Uuid>, ids: seq<Uuid>, g: Group)
    requires Inv(w) && g in w.db.limits && |txs| == |ids| && NewIds(w, ids) && Enumerates(txs, w)
    ensures var run := Commits(w.now, txs, ids);
            (forall m :: 0 <= m <= |run| ==> |ActiveIn(After(w, run[..m]).db, g)| <= w.db.limits[g])
            <==> Occupied(w, g) <= w.db.limits[g]
  {
    var run := Commits(w.now, txs, ids);
    AllCanCommit(w, txs, ids, g);
    assert run[..|run|] == run;
    if Occupied(w, g) <= w.db.limits[g] {
      forall m | 0 <= m <= |run|
        ensures |ActiveIn(After(w, run[..m]).db, g)| <= w.db.limits[g]
      {
        CommitsStayOccupied(w, run[..m], g, run);
      }
    }
  }

  lemma CommitKeeps(w: World, tick: Tick, g: Group)
    requires Inv(w) && tick.event.CommitPoll? && Enabled(w, tick)
    ensures var n := Step(w, tick);
            && Inv(n) && Occupied(n, g) == Occupied(w, g) && n.db.limits == w.db.limits
            && n.open == w.open - {tick.event.tx} && n.grants.Keys == w.grants.Keys + {tick.event.lease}
  {
    InvLinked(w);
    CommitState(w, tick);
    CommitOccupies(w, tick, g);
    StepInv(w, tick);
  }

  lemma {:induction false} CommitsStayOccupied(w: World, run: Run, g: Group, whole: Run)
    requires Inv(w) && Feasible(w, whole) && run <= whole
    requires forall i :: 0 <= i < |run| ==> run[i].event.CommitPoll?
    ensures |ActiveIn(After(w, run).db, g)| <= Occupied(w, g)
    decreases |run|
  {
    if run == [] {
    } else {
      CommitKeeps(w, run[0], g);
      CommitsStayOccupied(Step(w, run[0]), run[1..], g, whole[1..]);
    }
  }

  // ---------- the bound is reached ----------

  function Queue(db: Db, pack: string): set<Uuid> {
    set t | t in db.tasks && db.tasks[t].status == Queued && db.tasks[t].pack == pack
  }

  function Waiting(db: Db, pack: string, g: Group): set<Uuid> {
    set t | t in Queue(db, pack) && InGroup(db.tasks[t], g)
  }

  /** A run with at most k polls open at once, in which the group's limit stays. */
  ghost predicate Calm(w: World, run: Run, n: World, g: Group, k: nat) {
    Feasible(w, run) && After(w, run) == n && AtMostInAll(w, run, k) && NeverLowered(w, run, g)
  }

  lemma CalmOn(w: World, tick: Tick, m: World, rest: Run, n: World, g: Group, k: nat)
    requires Enabled(w, tick) && Step(w, tick) == m && m.db.limits == w.db.limits && |w.open| <= k
    requires Calm(m, rest, n, g, k)
    ensures Calm(w, [tick] + rest, n, g, k)
  {
    assert ([tick] + rest)[1..] == rest;
  }

  /**
   * On the way to the bound: polls of the group are left open once one slot is left, and enough of the group waits
   * for the slots still to be taken and for k polls to overlap on the last.
   */
  ghost predicate Filling(w: World, pack: string, e: Uuid, g: Group, k: nat) {
    && PollRefusal(w.db, w.now, e).None? && OpenIn(w, g) == w.open.Keys && |w.open| <= k
    && g in w.db.limits && |ActiveIn(w.db, g)| < w.db.limits[g]
    && (w.open != map[] ==> |ActiveIn(w.db, g)| == w.db.limits[g] - 1)
    && |Waiting(w.db, pack, g)| >= w.db.limits[g] - 1 - |ActiveIn(w.db, g)| + k
  }

  function Opened(w: World, tx: Uuid, t: Uuid, e: Uuid, seconds: int): World {
    w.(open := w.open[tx := OpenPoll(t, e, w.now, w.now + seconds * SECOND)])
  }

  /** Some task of the group is not locked and fits, so a poll finds something. */
  lemma SomeoneUnlocked(w: World, pack: string, g: Group)
    requires Ordered(w.db) && g in w.db.limits && |ActiveIn(w.db, g)| < w.db.limits[g]
    requires |w.open| < |Waiting(w.db, pack, g)|
    ensures Pick(w.db, pack, Locked(w)).Some?
  {
    LockedSize(w.open, w.open.Keys);
    assert Locked(w) == set x | x in w.open.Keys :: w.open[x].task;
    assert |w.open.Keys| == |w.open|;
    if Waiting(w.db, pack, g) <= Locked(w) {
      SubsetSize(Waiting(w.db, pack, g), Locked(w));
    }
    var t :| t in Waiting(w.db, pack, g) && t !in Locked(w);
    assert g == (w.db.tasks[t].tenant, w.db.tasks[t].limitKey.value);
    assert Candidate(w.db, pack, Locked(w), t);
  }

  lemma {:induction false} LockedSize(open: map<Uuid, OpenPoll>, s: set<Uuid>)
    requires s <= open.Keys
    ensures |set x | x in s :: open[x].task| <= |s|
    decreases |s|
  {
    if s == {} {
      assert (set x | x in s :: open[x].task) == {};
    } else {
      var x :| x in s;
      var rest := s - {x};
      assert |s| == |rest| + 1;
      LockedSize(open, rest);
      assert (set y | y in s :: open[y].task) == (set y | y in rest :: open[y].task) + {open[x].task};
    }
  }

  lemma PollOpens(w: World, pack: string, e: Uuid, seconds: int, g: Group, k: nat, tx: Uuid) returns (t: Uuid)
    requires Ordered(w.db) && Filling(w, pack, e, g, k) && |w.open| < k && tx !in w.open
    ensures Step(w, Tick(w.now, BeginPoll(tx, pack, e, seconds))) == Opened(w, tx, t, e, seconds)
    ensures t in Queue(w.db, pack) && t !in Locked(w)
  {
    SomeoneUnlocked(w, pack, g);
    t := Pick(w.db, pack, Locked(w)).value;
    assert Candidate(w.db, pack, Locked(w), t);
  }

  /** With one slot left, a poll that holds a task of the group is left open. */
  lemma KeepOpen(w: World, m: World, pack: string, e: Uuid, seconds: int, g: Group, k: nat, tx: Uuid, t: Uuid)
    requires Filling(w, pack, e, g, k) && |w.open| < k && tx !in w.open && m == Opened(w, tx, t, e, seconds)
    requires t in w.db.tasks && InGroup(w.db.tasks[t], g) && |ActiveIn(w.db, g)| == w.db.limits[g] - 1
    ensures Filling(m, pack, e, g, k) && |m.open| == |w.open| + 1
  {
    assert OpenIn(m, g) == m.open.Keys;
    assert m.open.Keys == w.open.Keys + {tx};
    assert |m.open| == |m.open.Keys| && |w.open| == |w.open.Keys|;
  }

  function Away(w: World, t: Uuid, e: Uuid, seconds: int, id: Uuid): World
    requires t in w.db.tasks
  {
    var lease := Lease(t, e, w.now, w.now + seconds * SECOND);
    w.(db := Grant(w.db, id, lease), grants := w.grants[id := lease])
  }

  /** Any other poll commits, and takes a task out of the queue. */
  lemma CommitAway(w: World, n: World, pack: string, e: Uuid, seconds: int, g: Group, k: nat, t: Uuid, id: Uuid)
    requires Filling(w, pack, e, g, k) && t in Queue(w.db, pack) && t !in Locked(w)
    requires n == Away(w, t, e, seconds, id)
    requires InGroup(w.db.tasks[t], g) ==> |ActiveIn(w.db, g)| < w.db.limits[g] - 1
    ensures Filling(n, pack, e, g, k)
  {
    GrantedActive(w.db, id, Lease(t, e, w.now, w.now + seconds * SECOND), g);
    GrantedQueue(w.db, pack, id, Lease(t, e, w.now, w.now + seconds * SECOND), g);
    assert OpenIn(n, g) == n.open.Keys;
  }

  lemma GrantedQueue(db: Db, pack: string, id: Uuid, lease: Lease, g: Group)
    requires lease.task in Queue(db, pack)
    ensures |Queue(Grant(db, id, lease), pack)| < |Queue(db, pack)|
    ensures |Waiting(Grant(db, id, lease), pack, g)| ==
            |Waiting(db, pack, g)| - if InGroup(db.tasks[lease.task], g) then 1 else 0
  {
    var n, t := Grant(db, id, lease), lease.task;
    assert Queue(n, pack) == Queue(db, pack) - {t};
    assert Waiting(n, pack, g) == Waiting(db, pack, g) - {t};
    assert t in Waiting(db, pack, g) <==> InGroup(db.tasks[t], g);
  }

  lemma CommitBack(w: World, m: World, e: Uuid, seconds: int, tx: Uuid, t: Uuid, id: Uuid, g: Group, k: nat)
    returns (run: Run)
    requires tx !in w.open && m == Opened(w, tx, t, e, seconds) && Inv(m) && id !in m.grants
    requires g in m.db.limits && |w.open| < k
    ensures t in w.db.tasks && Calm(m, run, Away(w, t, e, seconds, id), g, k)
  {
    var commit := Tick(m.now, CommitPoll(tx, id));
    CommittedBack(w, m, e, seconds, tx, t, id);
    FewerOpen(m, w, tx);
    CalmOn(m, commit, Away(w, t, e, seconds, id), [], Away(w, t, e, seconds, id), g, k);
    run := [commit] + [];
  }

  lemma CommittedBack(w: World, m: World, e: Uuid, seconds: int, tx: Uuid, t: Uuid, id: Uuid)
    requires tx !in w.open && m == Opened(w, tx, t, e, seconds) && Inv(m) && id !in m.grants
    ensures t in w.db.tasks && Step(m, Tick(m.now, CommitPoll(tx, id))) == Away(w, t, e, seconds, id)
    ensures m.open - {tx} == w.open
  {
    InvLinked(m);
    CommitState(m, Tick(m.now, CommitPoll(tx, id)));
    assert m.open - {tx} == w.open;
  }

  lemma SpareTx(w: World, txs: set<Uuid>) returns (tx: Uuid)
    requires |w.open| < |txs|
    ensures tx in txs && tx !in w.open
  {
    assert |w.open.Keys| == |w.open|;
    if txs <= w.open.Keys { SubsetSize(txs, w.open.Keys); }
    tx :| tx in txs && tx !in w.open;
  }

  /** All open polls commit, one after the other. */
  lemma {:induction false} CommitAll(w: World, g: Group, k: nat, ids: set<Uuid>) returns (run: Run, n: World)
    requires Inv(w) && |w.open| <= k && g in w.db.limits && ids !! w.grants.Keys && |ids| >= |w.open|
    ensures Calm(w, run, n, g, k) && n.db.limits == w.db.limits && |ActiveIn(n.db, g)| == Occupied(w, g)
    decreases |w.open|
  {
    if w.open == map[] {
      assert OpenIn(w, g) == {};
      run, n := [], w;
    } else {
      var tx :| tx in w.open;
      assert ids != {} by { assert |w.open.Keys| > 0; }
      var id :| id in ids;
      var tick := Tick(w.now, CommitPoll(tx, id));
      CommitKeeps(w, tick, g);
      var m := Step(w, tick);
      FewerOpen(w, m, tx);
      var rest;
      rest, n := CommitAll(m, g, k, ids - {id});
      CalmOn(w, tick, m, rest, n, g, k);
      run := [tick] + rest;
    }
  }

  lemma FewerOpen(w: World, m: World, tx: Uuid)
    requires tx in w.open && m.open == w.open - {tx}
    ensures |m.open| == |w.open| - 1
  {
    assert m.open.Keys == w.open.Keys - {tx};
    assert |m.open| == |m.open.Keys| && |w.open| == |w.open.Keys|;
  }

  lemma FillKeep(w: World, pack: string, e: Uuid, seconds: int, g: Group, k: nat, tx: Uuid, t: Uuid)
    returns (run: Run, m: World)
    requires Filling(w, pack, e, g, k) && |w.open| < k && tx !in w.open
    requires t in w.db.tasks && InGroup(w.db.tasks[t], g) && |ActiveIn(w.db, g)| == w.db.limits[g] - 1
    requires Step(w, Tick(w.now, BeginPoll(tx, pack, e, seconds))) == Opened(w, tx, t, e, seconds)
    ensures m == Opened(w, tx, t, e, seconds) && Filling(m, pack, e, g, k) && |m.open| == |w.open| + 1
    ensures Calm(w, run, m, g, k)
  {
    m := Opened(w, tx, t, e, seconds);
    var begin := Tick(w.now, BeginPoll(tx, pack, e, seconds));
    KeepOpen(w, m, pack, e, seconds, g, k, tx, t);
    CalmOn(w, begin, m, [], m, g, k);
    run := [begin] + [];
  }

  lemma FillAway(w: World, pack: string, e: Uuid, seconds: int, g: Group, k: nat, tx: Uuid, t: Uuid, id: Uuid)
    returns (run: Run, n: World)
    requires Inv(w) && Filling(w, pack, e, g, k) && |w.open| < k && tx !in w.open && id !in w.grants
    requires t in Queue(w.db, pack)
    requires Step(w, Tick(w.now, BeginPoll(tx, pack, e, seconds))) == Opened(w, tx, t, e, seconds)
    ensures n == Away(w, t, e, seconds, id) && Calm(w, run, n, g, k)
  {
    var begin, m := Tick(w.now, BeginPoll(tx, pack, e, seconds)), Opened(w, tx, t, e, seconds);
    StepInv(w, begin);
    run := CommitBack(w, m, e, seconds, tx, t, id, g, k);
    n := Away(w, t, e, seconds, id);
    CalmOn(w, begin, m, run, n, g, k);
    run := [begin] + run;
  }

  /** What one poll, open or committed, leaves to do. */
  ghost predicate Nearer(w: World, n: World, pack: string, id: Uuid) {
    && n.db.limits == w.db.limits
    && (forall l :: l in n.grants ==> l in w.grants || l == id)
    && if id in n.grants then |Queue(n.db, pack)| < |Queue(w.db, pack)| && n.open == w.open
       else Queue(n.db, pack) == Queue(w.db, pack) && |n.open| == |w.open| + 1
  }

  lemma AwayNearer(w: World, pack: string, e: Uuid, seconds: int, g: Group, t: Uuid, id: Uuid)
    requires t in Queue(w.db, pack)
    ensures Nearer(w, Away(w, t, e, seconds, id), pack, id)
  {
    GrantedQueue(w.db, pack, id, Lease(t, e, w.now, w.now + seconds * SECOND), g);
  }

  /** One poll begins; it stays open if it holds the group's last slot, and commits if it does not. */
  lemma FillStep(w: World, pack: string, e: Uuid, seconds: int, g: Group, k: nat, tx: Uuid, id: Uuid)
    returns (run: Run, n: World, t: Uuid)
    requires Inv(w) && Filling(w, pack, e, g, k) && |w.open| < k && tx !in w.open && id !in w.grants
    ensures Filling(n, pack, e, g, k) && Calm(w, run, n, g, k) && Nearer(w, n, pack, id)
    ensures t in Queue(w.db, pack)
    ensures n == if InGroup(w.db.tasks[t], g) && |ActiveIn(w.db, g)| == w.db.limits[g] - 1
                 then Opened(w, tx, t, e, seconds) else Away(w, t, e, seconds, id)
  {
    t := PollOpens(w, pack, e, seconds, g, k, tx);
    if InGroup(w.db.tasks[t], g) && |ActiveIn(w.db, g)| == w.db.limits[g] - 1 {
      run, n := FillKeep(w, pack, e, seconds, g, k, tx, t);
    } else {
      run, n := FillAway(w, pack, e, seconds, g, k, tx, t, id);
      CommitAway(w, n, pack, e, seconds, g, k, t, id);
      AwayNearer(w, pack, e, seconds, g, t, id);
    }
  }

  lemma {:induction false} CalmJoined(w: World, first: Run, m: World, second: Run, n: World, g: Group, k: nat)
    requires Calm(w, first, m, g, k) && Calm(m, second, n, g, k)
    ensures Calm(w, first + second, n, g, k)
    decreases |first|
  {
    if first == [] {
      assert first + second == second;
    } else {
      assert (first + second)[1..] == first[1..] + second;
      CalmJoined(Step(w, first[0]), first[1..], m, second, n, g, k);
    }
  }

  lemma LeftOver(w: World, n: World, pack: string, id: Uuid, ids: set<Uuid>) returns (left: set<Uuid>)
    requires Nearer(w, n, pack, id) && id in ids && ids !! w.grants.Keys && |ids| >= |Queue(w.db, pack)|
    ensures left !! n.grants.Keys && |left| >= |Queue(n.db, pack)|
  {
    left := if id in n.grants then ids - {id} else ids;
    forall l | l in n.grants
      ensures l !in left
    {
      assert l in w.grants.Keys || l == id;
    }
  }

  /** From there on the bound is reached. */
  lemma {:induction false} Fill(w: World, pack: string, e: Uuid, seconds: int, g: Group, k: nat,
                                txs: set<Uuid>, ids: set<Uuid>) returns (run: Run, n: World)
    requires Inv(w) && Filling(w, pack, e, g, k) && |txs| >= k > 0
    requires ids !! w.grants.Keys && |ids| >= |Queue(w.db, pack)|
    ensures Calm(w, run, n, g, k) && n.db.limits == w.db.limits
    ensures |ActiveIn(n.db, g)| == w.db.limits[g] + k - 1
    decreases |Queue(w.db, pack)| + k - |w.open|
  {
    SubsetSize(Waiting(w.db, pack, g), Queue(w.db, pack));
    if |w.open| == k {
      assert |w.open.Keys| == |w.open|;
      run, n := CommitAll(w, g, k, ids);
    } else {
      var tx := SpareTx(w, txs);
      assert |ids| > 0;
      var id :| id in ids;
      var first, m, t := FillStep(w, pack, e, seconds, g, k, tx, id);
      RunInv(w, first);
      var left := LeftOver(w, m, pack, id, ids);
      var rest;
      rest, n := Fill(m, pack, e, seconds, g, k, txs, left);
      CalmJoined(w, first, m, rest, n, g, k);
      run := first + rest;
    }
  }

  /**
   * The bound cannot be improved: from every state with no poll open and room in the group, if enough of the group
   * waits in a pack, whatever else waits there, some run with at most k polls open reaches max_inflight + k - 1.
   */
  lemma BoundAttained(w: World, pack: string, e: Uuid, seconds: int, g: Group, k: nat, txs: set<Uuid>, ids: set<Uuid>)
    returns (run: Run)
    requires Inv(w) && w.open == map[] && PollRefusal(w.db, w.now, e).None? && k > 0
    requires g in w.db.limits && |ActiveIn(w.db, g)| < w.db.limits[g]
    requires |Waiting(w.db, pack, g)| >= w.db.limits[g] - 1 - |ActiveIn(w.db, g)| + k
    requires |txs| >= k && ids !! w.grants.Keys && |ids| >= |Queue(w.db, pack)|
    ensures Feasible(w, run) && AtMostInAll(w, run, k) && AtMost(w, run, g, k) && NeverLowered(w, run, g)
    ensures After(w, run).db.limits == w.db.limits
    ensures |ActiveIn(After(w, run).db, g)| == w.db.limits[g] + k - 1
  {
    assert OpenIn(w, g) == w.open.Keys;
    var n;
    run, n := Fill(w, pack, e, seconds, g, k, txs, ids);
    FewerInGroup(w, run, g, k);
  }
}
