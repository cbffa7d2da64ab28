/** How long a task can be kept going: the progress bound is reached, and when a task can be lost without end. */
module Tightness {
  import opened Common
  import opened Tables
  import opened Operations
  import opened Lives
  import opened Worlds
  import opened Guarantees

  // ---------- runs in pieces ----------

  lemma {:induction false} Counted(w: World, first: Run, second: Run, t: Uuid)
    ensures Moves(w, first + second, t) == Moves(w, first, t) + Moves(After(w, first), second, t)
    ensures UnstartedLosses(w, first + second, t) ==
            UnstartedLosses(w, first, t) + UnstartedLosses(After(w, first), second, t)
    decreases |first|
  {
    if first == [] {
      assert first + second == second;
    } else {
      assert (first + second)[1..] == first[1..] + second;
      Counted(Step(w, first[0]), first[1..], second, t);
    }
  }

  /** What a tick adds to the moves of a task, and to its leases lost unstarted. */
  ghost function MovesBy(w: World, tick: Tick, t: Uuid): nat {
    if t in w.db.tasks && t in Step(w, tick).db.tasks && Moved(View(w, t), View(Step(w, tick), t)) then 1 else 0
  }

  ghost function LossBy(w: World, tick: Tick, t: Uuid): nat {
    if t in w.db.tasks && LostUnstarted(View(w, t), Felt(w, tick, t)) then 1 else 0
  }

  /** A possible run, where it leads, and what it costs the task. */
  ghost predicate Leads(w: World, run: Run, n: World, t: Uuid, moves: nat, losses: nat) {
    Feasible(w, run) && After(w, run) == n && Moves(w, run, t) == moves && UnstartedLosses(w, run, t) == losses
  }

  lemma LeadsOn(w: World, run: Run, n: World, t: Uuid, moves: nat, losses: nat, tick: Tick)
    requires Leads(w, run, n, t, moves, losses) && Enabled(n, tick)
    ensures Leads(w, run + [tick], Step(n, tick), t, moves + MovesBy(n, tick, t), losses + LossBy(n, tick, t))
  {
    Extended(w, run, tick);
    Counted(w, run, [tick], t);
    assert [tick][1..] == [];
  }

  lemma LeadsThrough(w: World, first: Run, m: World, t: Uuid, moves: nat, losses: nat,
                     second: Run, n: World, more: nat, lost: nat)
    requires Leads(w, first, m, t, moves, losses) && Leads(m, second, n, t, more, lost)
    ensures Leads(w, first + second, n, t, moves + more, losses + lost)
  {
    Joined(w, first, second);
    Counted(w, first, second, t);
  }

  lemma LeadsFirst(w: World, tick: Tick, t: Uuid)
    requires Enabled(w, tick)
    ensures Leads(w, [tick], Step(w, tick), t, MovesBy(w, tick, t), LossBy(w, tick, t))
  {
    assert [tick][1..] == [];
  }

  // ---------- clearing the way ----------

  /** No poll is open, every other task is settled, and no limit shuts this one out: the next poll takes it. */
  ghost predicate Cleared(w: World, t: Uuid) {
    && w.open == map[] && t in w.db.tasks && w.db.tasks[t].status == Queued
    && OthersSettled(w.db, t) && LimitOpen(w.db, t)
  }

  ghost predicate Alone(w: World, t: Uuid) {
    Inv(w) && Cleared(w, t)
  }

  ghost predicate OthersSettled(db: Db, t: Uuid) {
    forall u <- db.tasks :: u == t || Terminal(db.tasks[u].status)
  }

  ghost predicate LimitOpen(db: Db, t: Uuid)
    requires t in db.tasks
  {
    var row := db.tasks[t];
    row.limitKey.Some? && (row.tenant, row.limitKey.value) in db.limits ==>
      db.limits[(row.tenant, row.limitKey.value)] > 0
  }

  /** The task and the history of its leases and attempts are untouched. */
  ghost predicate Spared(w: World, n: World, t: Uuid) {
    && n.now == w.now && n.grants == w.grants && n.db.attempts == w.db.attempts
    && t in w.db.tasks && t in n.db.tasks && n.db.tasks[t] == w.db.tasks[t]
  }

  /** All open polls are given up. */
  lemma {:induction false} AbortAll(w: World, t: Uuid) returns (run: Run)
    requires t in w.db.tasks
    ensures Leads(w, run, w.(open := map[]), t, 0, 0)
    decreases |w.open|
  {
    if w.open == map[] {
      run := [];
    } else {
      var tx :| tx in w.open;
      var tick, m := Tick(w.now, AbortPoll(tx)), w.(open := w.open - {tx});
      QuietMoves(w, tick, t);
      LeadsFirst(w, tick, t);
      assert m.open.Keys == w.open.Keys - {tx} && |m.open| == |m.open.Keys| && |w.open| == |w.open.Keys|;
      run := AbortAll(m, t);
      LeadsThrough(w, [tick], m, t, 0, 0, run, w.(open := map[]), 0, 0);
      run := [tick] + run;
    }
  }

  function Unsettled(db: Db, t: Uuid): set<Uuid> {
    set u | u in db.tasks && u != t && !Terminal(db.tasks[u].status)
  }

  /** All other tasks are cancelled; their leases, if they have any, stay behind. */
  lemma {:induction false} CancelOthers(w: World, t: Uuid) returns (run: Run, n: World)
    requires t in w.db.tasks && w.open == map[]
    ensures Leads(w, run, n, t, 0, 0) && Spared(w, n, t) && n.open == map[] && OthersSettled(n.db, t)
    decreases |Unsettled(w.db, t)|
  {
    if Unsettled(w.db, t) == {} {
      run, n := [], w;
      assert forall u <- w.db.tasks :: u !in Unsettled(w.db, t);
    } else {
      var u :| u in Unsettled(w.db, t);
      var tick, m := Tick(w.now, Cancel(u)), Stopped(w, u);
      CancelElsewhere(w, t, u);
      LeadsFirst(w, tick, t);
      assert Unsettled(m.db, t) == Unsettled(w.db, t) - {u};
      run, n := CancelOthers(m, t);
      LeadsThrough(w, [tick], m, t, 0, 0, run, n, 0, 0);
      run := [tick] + run;
    }
  }

  lemma CancelElsewhere(w: World, t: Uuid, u: Uuid)
    requires t in w.db.tasks && u in Unsettled(w.db, t) && w.open == map[]
    ensures var tick := Tick(w.now, Cancel(u));
            && Enabled(w, tick) && Step(w, tick) == Stopped(w, u) && Spared(w, Stopped(w, u), t)
            && MovesBy(w, tick, t) == 0 && LossBy(w, tick, t) == 0
  {
    CancelWrites(w.db, w.now, u);
  }

  /** The group of the task, if it has one, is given a limit. */
  lemma RaiseLimit(w: World, t: Uuid) returns (run: Run, n: World)
    requires t in w.db.tasks
    ensures Leads(w, run, n, t, 0, 0) && n == w.(db := w.db.(limits := n.db.limits)) && LimitOpen(n.db, t)
  {
    var row := w.db.tasks[t];
    if row.limitKey.None? {
      run, n := [], w;
    } else {
      var tick := Tick(w.now, Limit((row.tenant, row.limitKey.value), 1));
      QuietMoves(w, tick, t);
      LeadsFirst(w, tick, t);
      run, n := [tick], Step(w, tick);
    }
  }

  /** From anywhere, a queued task can be made the only one left. */
  lemma ClearTheWay(w: World, t: Uuid) returns (run: Run, n: World)
    requires Inv(w) && t in w.db.tasks && w.db.tasks[t].status == Queued
    ensures Leads(w, run, n, t, 0, 0) && Alone(n, t) && Spared(w, n, t)
  {
    run, n := ClearLeads(w, t);
    RunInv(w, run);
  }

  lemma ClearLeads(w: World, t: Uuid) returns (run: Run, n: World)
    requires t in w.db.tasks
    ensures Leads(w, run, n, t, 0, 0) && Spared(w, n, t)
    ensures n.open == map[] && OthersSettled(n.db, t) && LimitOpen(n.db, t)
  {
    var m, rest;
    run := AbortAll(w, t);
    rest, m := CancelOthers(w.(open := map[]), t);
    LeadsThrough(w, run, w.(open := map[]), t, 0, 0, rest, m, 0, 0);
    run := run + rest;
    rest, n := RaiseLimit(m, t);
    LeadsThrough(w, run, m, t, 0, 0, rest, n, 0, 0);
    run := run + rest;
  }

  // ---------- one round ----------

  function LeaseFor(w: World, t: Uuid, e: Uuid, seconds: int): Lease {
    Lease(t, e, w.now, w.now + seconds * SECOND)
  }

  /** The world once the executor has registered, polled and been given the task. */
  function Handed(w: World, t: Uuid, id: Uuid, e: Uuid, seconds: int): World
    requires t in w.db.tasks
  {
    var lease := LeaseFor(w, t, e, seconds);
    World(Grant(w.db.(executors := w.db.executors[e := w.now]), id, lease), w.now, w.grants[id := lease], map[])
  }

  function PollRun(w: World, t: Uuid, id: Uuid, e: Uuid, seconds: int): Run
    requires t in w.db.tasks
  {
    [Tick(w.now, Register(e))] + [Tick(w.now, BeginPoll(id, w.db.tasks[t].pack, e, seconds))]
  }

  function HandRun(w: World, t: Uuid, id: Uuid, e: Uuid, seconds: int): Run
    requires t in w.db.tasks
  {
    PollRun(w, t, id, e, seconds) + [Tick(w.now, CommitPoll(id, id))]
  }

  lemma Hand(w: World, t: Uuid, id: Uuid, e: Uuid, seconds: int)
    requires Alone(w, t) && id !in w.grants
    ensures Leads(w, HandRun(w, t, id, e, seconds), Handed(w, t, id, e, seconds), t, 1, 0)
  {
    var b, commit := Polling(w, t, id, e, seconds), Tick(w.now, CommitPoll(id, id));
    AskRun(w, t, id, e, seconds);
    HandCommits(w, t, id, e, seconds);
    LeadsOn(w, PollRun(w, t, id, e, seconds), b, t, 0, 0, commit);
  }

  lemma AskRun(w: World, t: Uuid, id: Uuid, e: Uuid, seconds: int)
    requires Alone(w, t)
    ensures Leads(w, PollRun(w, t, id, e, seconds), Polling(w, t, id, e, seconds), t, 0, 0)
  {
    var register := Tick(w.now, Register(e));
    var begin := Tick(w.now, BeginPoll(id, w.db.tasks[t].pack, e, seconds));
    assert [] + [register] == [register];
    QuietMoves(w, register, t);
    LeadsOn(w, [], w, t, 0, 0, register);
    HandBegins(w, t, id, e, seconds);
    QuietMoves(Registered(w, e), begin, t);
    LeadsOn(w, [register], Registered(w, e), t, 0, 0, begin);
  }

  function Registered(w: World, e: Uuid): World {
    w.(db := w.db.(executors := w.db.executors[e := w.now]))
  }

  function Polling(w: World, t: Uuid, id: Uuid, e: Uuid, seconds: int): World {
    Registered(w, e).(open := map[id := OpenPoll(t, e, w.now, w.now + seconds * SECOND)])
  }

  lemma QuietMoves(w: World, tick: Tick, t: Uuid)
    requires Quiet(tick.event)
    ensures MovesBy(w, tick, t) == 0 && LossBy(w, tick, t) == 0
  {
    QuietUntouched(w, tick);
  }

  lemma HandBegins(w: World, t: Uuid, id: Uuid, e: Uuid, seconds: int)
    requires Alone(w, t)
    ensures Step(w, Tick(w.now, Register(e))) == Registered(w, e)
    ensures Step(Registered(w, e), Tick(w.now, BeginPoll(id, w.db.tasks[t].pack, e, seconds))) ==
            Polling(w, t, id, e, seconds)
  {
    var a := Registered(w, e);
    OnlyPick(a, t);
    assert Locked(a) == {};
  }

  lemma OnlyPick(w: World, t: Uuid)
    requires t in w.db.tasks && w.db.tasks[t].status == Queued && OthersSettled(w.db, t) && LimitOpen(w.db, t)
    ensures Pick(w.db, w.db.tasks[t].pack, {}) == Some(t)
  {
    var row := w.db.tasks[t];
    if row.limitKey.Some? {
      assert ActiveIn(w.db, (row.tenant, row.limitKey.value)) == {};
    }
    assert IsPick(w.db, row.pack, {}, t);
  }

  /** A queued task holds no lease, and a lease that was never granted is not there. */
  lemma Unheld(w: World, t: Uuid, id: Uuid)
    requires Inv(w) && t in w.db.tasks && w.db.tasks[t].status == Queued && id !in w.grants
    ensures forall l <- w.db.leases :: w.db.leases[l].task != t && l != id
  {
    InvLinked(w);
    forall l <- w.db.leases
      ensures w.db.leases[l].task != t && l != id
    {
      assert LeaseLinked(w, l);
    }
  }

  lemma HandCommits(w: World, t: Uuid, id: Uuid, e: Uuid, seconds: int)
    requires Alone(w, t) && id !in w.grants
    ensures var b, tick := Polling(w, t, id, e, seconds), Tick(w.now, CommitPoll(id, id));
            && Enabled(b, tick) && Step(b, tick) == Handed(w, t, id, e, seconds)
            && MovesBy(b, tick, t) == 1 && LossBy(b, tick, t) == 0
  {
    var b := Polling(w, t, id, e, seconds);
    var n := Step(b, Tick(w.now, CommitPoll(id, id)));
    Unheld(w, t, id);
    assert b.open - {id} == map[];
    assert n.db.tasks[t].status == Scheduled;
  }

  /** The lease of the task runs out, and the reconciler takes it. */
  function Lapsed(h: World, t: Uuid, id: Uuid): World
    requires t in h.db.tasks && id in h.db.leases
  {
    var at := Max(h.now, h.db.leases[id].expires);
    World(h.db.(tasks := h.db.tasks[t := RequeuedRow(h.db.tasks[t])], leases := h.db.leases - {id},
                attempts := CloseAttempts(h.db.attempts, {id}, at, LeaseExpired, None, None)),
          at, h.grants, h.open)
  }

  /** The task is in flight under this lease, and no other task is in flight. */
  ghost predicate OutAlone(h: World, t: Uuid, id: Uuid) {
    && t in h.db.tasks && InFlight(h.db.tasks[t].status) && OthersSettled(h.db, t)
    && id in h.db.leases && h.db.leases[id].task == t
    && forall l <- h.db.leases :: h.db.leases[l].task == t ==> l == id
  }

  lemma Lapse(h: World, t: Uuid, id: Uuid)
    requires OutAlone(h, t, id)
    ensures var tick := Tick(Max(h.now, h.db.leases[id].expires), Reconcile);
            && Enabled(h, tick) && Step(h, tick) == Lapsed(h, t, id)
            && MovesBy(h, tick, t) == 1 && LossBy(h, tick, t) == if h.db.tasks[t].status == Scheduled then 1 else 0
  {
    var at := Max(h.now, h.db.leases[id].expires);
    var n := Requeue(h.db, at);
    assert Expired(h.db, at) == {id};
    assert n.tasks == h.db.tasks[t := RequeuedRow(h.db.tasks[t])];
    assert Felt(h, Tick(at, Reconcile), t) == Lost(id);
  }

  lemma LapseLeads(w: World, run: Run, h: World, t: Uuid, id: Uuid, moves: nat)
    requires Leads(w, run, h, t, moves, 0) && OutAlone(h, t, id)
    ensures Leads(w, run + [Tick(Max(h.now, h.db.leases[id].expires), Reconcile)], Lapsed(h, t, id), t, moves + 1,
                  if h.db.tasks[t].status == Scheduled then 1 else 0)
  {
    Lapse(h, t, id);
    LeadsOn(w, run, h, t, moves, 0, Tick(Max(h.now, h.db.leases[id].expires), Reconcile));
  }

  /** Given the task, the executor never starts it. */
  lemma LoseUnstarted(w: World, t: Uuid, id: Uuid, e: Uuid, seconds: int) returns (run: Run, n: World)
    requires Alone(w, t) && id !in w.grants
    ensures Leads(w, run, n, t, 2, 1) && OnlyRow(w, n, t)
    ensures n.grants.Keys == w.grants.Keys + {id} && n.db.attempts.Keys == w.db.attempts.Keys
    ensures n.db.tasks[t].currentAttempt == w.db.tasks[t].currentAttempt
    ensures w.db.tasks[t].maxAttempts >= 1 ==> Alone(n, t)
  {
    run, n := LossLeads(w, t, id, e, seconds);
    Unheld(w, t, id);
    LapsedHanded(w, t, id, e, seconds);
    if w.db.tasks[t].maxAttempts >= 1 {
      StillAllowed(w, t);
      AloneAgain(w, run, n, t);
    }
  }

  lemma LossLeads(w: World, t: Uuid, id: Uuid, e: Uuid, seconds: int) returns (run: Run, n: World)
    requires Alone(w, t) && id !in w.grants
    ensures n == Lapsed(Handed(w, t, id, e, seconds), t, id) && Leads(w, run, n, t, 2, 1)
  {
    var h := Handed(w, t, id, e, seconds);
    Hand(w, t, id, e, seconds);
    Unheld(w, t, id);
    LapseLeads(w, HandRun(w, t, id, e, seconds), h, t, id, 1);
    run := HandRun(w, t, id, e, seconds) + [Tick(Max(h.now, h.db.leases[id].expires), Reconcile)];
    n := Lapsed(h, t, id);
  }

  lemma StillAllowed(w: World, t: Uuid)
    requires Alone(w, t) && w.db.tasks[t].maxAttempts >= 1
    ensures w.db.tasks[t].currentAttempt < w.db.tasks[t].maxAttempts
  {
    AttemptsAccounted(w, t);
  }

  /** All is as it was but for one row, its attempts and its past leases. */
  ghost predicate OnlyRow(w: World, n: World, t: Uuid) {
    && t in w.db.tasks && t in n.db.tasks && n.db.tasks == w.db.tasks[t := n.db.tasks[t]]
    && n.db.limits == w.db.limits && n.open == map[] && n.db.leases == w.db.leases
    && n.db.tasks[t] == w.db.tasks[t].(status := n.db.tasks[t].status, scheduledAt := n.db.tasks[t].scheduledAt,
                                      currentAttempt := n.db.tasks[t].currentAttempt)
  }

  lemma LapsedHanded(w: World, t: Uuid, id: Uuid, e: Uuid, seconds: int)
    requires t in w.db.tasks && id !in w.db.leases
    ensures var n, row := Lapsed(Handed(w, t, id, e, seconds), t, id), w.db.tasks[t];
            && OnlyRow(w, n, t) && n.grants.Keys == w.grants.Keys + {id} && n.db.attempts.Keys == w.db.attempts.Keys
            && n.db.tasks[t].currentAttempt == row.currentAttempt
            && n.db.tasks[t].status == if row.currentAttempt >= row.maxAttempts then DeadLetter else Queued
  {
    GivenAndTaken(w.db.leases, id, LeaseFor(w, t, e, seconds));
  }

  lemma LapsedStarted(w: World, t: Uuid, id: Uuid, e: Uuid, seconds: int)
    requires t in w.db.tasks && id !in w.db.leases
    ensures var n, row := Lapsed(Started(w, t, id, e, seconds), t, id), w.db.tasks[t];
            && OnlyRow(w, n, t) && n.grants.Keys == w.grants.Keys + {id}
            && n.db.attempts.Keys == w.db.attempts.Keys + {id}
            && n.db.tasks[t].currentAttempt == row.currentAttempt + 1
            && n.db.tasks[t].status == if row.currentAttempt + 1 >= row.maxAttempts then DeadLetter else Queued
  {
    GivenAndTaken(w.db.leases, id, LeaseFor(w, t, e, seconds));
  }

  lemma GivenAndTaken(leases: map<Uuid, Lease>, id: Uuid, lease: Lease)
    requires id !in leases
    ensures leases[id := lease] - {id} == leases
  {
  }

  /** A task queued again is alone again. */
  lemma AloneAgain(w: World, run: Run, n: World, t: Uuid)
    requires Alone(w, t) && Feasible(w, run) && After(w, run) == n
    requires OnlyRow(w, n, t) && n.db.tasks[t].status == Queued
    ensures Alone(n, t)
  {
    RunInv(w, run);
  }

  function Says(t: Uuid, id: Uuid, e: Uuid, status: Status): Operations.Report {
    Operations.Report(t, id, e, status, None, None, None)
  }

  function Started(w: World, t: Uuid, id: Uuid, e: Uuid, seconds: int): World
    requires t in w.db.tasks
  {
    var h := Handed(w, t, id, e, seconds);
    var row := h.db.tasks[t];
    h.(db := h.db.(tasks := h.db.tasks[t := row.(status := Running, currentAttempt := row.currentAttempt + 1)],
                   attempts := h.db.attempts[id := Attempt(t, e, id, w.now, None, None, None, None)]))
  }

  function StartRun(w: World, t: Uuid, id: Uuid, e: Uuid, seconds: int): Run
    requires t in w.db.tasks
  {
    HandRun(w, t, id, e, seconds) + [Tick(w.now, Event.Report(Says(t, id, e, Running), id))]
  }

  lemma Start(w: World, t: Uuid, id: Uuid, e: Uuid, seconds: int)
    requires Alone(w, t) && id !in w.grants && id !in w.db.attempts && seconds > 0
    ensures Leads(w, StartRun(w, t, id, e, seconds), Started(w, t, id, e, seconds), t, 2, 0)
  {
    Hand(w, t, id, e, seconds);
    NotYetAttempted(w, id);
    StartStep(w, t, id, e, seconds);
    LeadsOn(w, HandRun(w, t, id, e, seconds), Handed(w, t, id, e, seconds), t, 1, 0,
            Tick(w.now, Event.Report(Says(t, id, e, Running), id)));
  }

  lemma NotYetAttempted(w: World, id: Uuid)
    requires Inv(w) && id !in w.grants
    ensures forall a <- w.db.attempts :: w.db.attempts[a].lease != id
  {
    InvLinked(w);
    forall a <- w.db.attempts
      ensures w.db.attempts[a].lease != id
    {
      assert AttemptLinked(w, a);
    }
  }

  lemma StartStep(w: World, t: Uuid, id: Uuid, e: Uuid, seconds: int)
    requires t in w.db.tasks && id !in w.db.attempts && seconds > 0
    requires forall a <- w.db.attempts :: w.db.attempts[a].lease != id
    ensures var h, tick := Handed(w, t, id, e, seconds), Tick(w.now, Event.Report(Says(t, id, e, Running), id));
            && Enabled(h, tick) && Step(h, tick) == Started(w, t, id, e, seconds)
            && MovesBy(h, tick, t) == 1 && LossBy(h, tick, t) == 0
  {
    var h, report := Handed(w, t, id, e, seconds), Says(t, id, e, Running);
    assert LeaseLive(h.db, w.now, report);
    assert UpdateTaskStatus(h.db, w.now, report, id) == Ok(Started(w, t, id, e, seconds).db);
  }

  /** Given the task, the executor starts it and is not heard of again. */
  lemma LoseStarted(w: World, t: Uuid, id: Uuid, e: Uuid, seconds: int) returns (run: Run, n: World)
    requires Alone(w, t) && id !in w.grants && id !in w.db.attempts && seconds > 0
    requires w.db.tasks[t].currentAttempt + 1 < w.db.tasks[t].maxAttempts
    ensures Leads(w, run, n, t, 3, 0) && OnlyRow(w, n, t) && Alone(n, t)
    ensures n.grants.Keys == w.grants.Keys + {id} && n.db.attempts.Keys == w.db.attempts.Keys + {id}
    ensures n.db.tasks[t].currentAttempt == w.db.tasks[t].currentAttempt + 1
  {
    run, n := StartLapses(w, t, id, e, seconds);
    Unheld(w, t, id);
    LapsedStarted(w, t, id, e, seconds);
    AloneAgain(w, run, n, t);
  }

  lemma StartLapses(w: World, t: Uuid, id: Uuid, e: Uuid, seconds: int) returns (run: Run, n: World)
    requires Alone(w, t) && id !in w.grants && id !in w.db.attempts && seconds > 0
    ensures n == Lapsed(Started(w, t, id, e, seconds), t, id) && Leads(w, run, n, t, 3, 0)
  {
    var h := Started(w, t, id, e, seconds);
    Start(w, t, id, e, seconds);
    Unheld(w, t, id);
    LapseLeads(w, StartRun(w, t, id, e, seconds), h, t, id, 2);
    run := StartRun(w, t, id, e, seconds) + [Tick(Max(h.now, h.db.leases[id].expires), Reconcile)];
    n := Lapsed(h, t, id);
  }

  /** Given the task, the executor starts it; the task is cancelled under it, and it reports that. */
  lemma StartAndCancel(w: World, t: Uuid, id: Uuid, e: Uuid, seconds: int) returns (run: Run, n: World)
    requires Alone(w, t) && id !in w.grants && id !in w.db.attempts && seconds > 0
    ensures Leads(w, run, n, t, 4, 0)
  {
    Start(w, t, id, e, seconds);
    run := StartRun(w, t, id, e, seconds) + [Tick(w.now, Cancel(t))] +
           [Tick(w.now, Event.Report(Says(t, id, e, Cancelled), id))];
    n := CancelLeads(w, t, id, e, seconds);
  }

  lemma CancelLeads(w: World, t: Uuid, id: Uuid, e: Uuid, seconds: int) returns (n: World)
    requires t in w.db.tasks && w.open == map[] && seconds > 0
    requires Leads(w, StartRun(w, t, id, e, seconds), Started(w, t, id, e, seconds), t, 2, 0)
    ensures Leads(w, StartRun(w, t, id, e, seconds) + [Tick(w.now, Cancel(t))] +
                     [Tick(w.now, Event.Report(Says(t, id, e, Cancelled), id))], n, t, 4, 0)
  {
    var h, cancel := Started(w, t, id, e, seconds), Tick(w.now, Cancel(t));
    var report := Tick(w.now, Event.Report(Says(t, id, e, Cancelled), id));
    CancelMoves(w, t, id, e, seconds);
    LeadsOn(w, StartRun(w, t, id, e, seconds), h, t, 2, 0, cancel);
    LeadsOn(w, StartRun(w, t, id, e, seconds) + [cancel], Stopped(h, t), t, 3, 0, report);
    n := Step(Stopped(h, t), report);
  }

  function Stopped(h: World, t: Uuid): World
    requires t in h.db.tasks
  {
    var row := h.db.tasks[t].(status := Cancelled, cancelRequestedAt := Some(h.now));
    h.(db := h.db.(tasks := h.db.tasks[t := row]))
  }

  lemma CancelMoves(w: World, t: Uuid, id: Uuid, e: Uuid, seconds: int)
    requires t in w.db.tasks && w.open == map[] && seconds > 0
    ensures var h, cancel := Started(w, t, id, e, seconds), Tick(w.now, Cancel(t));
            var report := Tick(w.now, Event.Report(Says(t, id, e, Cancelled), id));
            && Enabled(h, cancel) && Step(h, cancel) == Stopped(h, t)
            && MovesBy(h, cancel, t) == 1 && LossBy(h, cancel, t) == 0
            && Enabled(Stopped(h, t), report)
            && MovesBy(Stopped(h, t), report, t) == 1 && LossBy(Stopped(h, t), report, t) == 0
  {
    var h := Started(w, t, id, e, seconds);
    var m := Stopped(h, t);
    assert LeaseLive(m.db, w.now, Says(t, id, e, Cancelled));
    assert id in View(m, t).held;
  }

  // ---------- rounds in a row ----------

  /** Distinct identifiers that no lease ever had. */
  ghost predicate Unused(w: World, ids: seq<Uuid>) {
    Distinct(ids) && forall i :: 0 <= i < |ids| ==> ids[i] !in w.grants
  }

  /** Nor any attempt. */
  ghost predicate Untried(w: World, ids: seq<Uuid>) {
    forall i :: 0 <= i < |ids| ==> ids[i] !in w.db.attempts
  }

  lemma UnusedLater(w: World, n: World, ids: seq<Uuid>)
    requires ids != [] && Unused(w, ids) && n.grants.Keys == w.grants.Keys + {ids[0]}
    ensures Unused(n, ids[1..])
    ensures Untried(w, ids) && n.db.attempts.Keys <= w.db.attempts.Keys + {ids[0]} ==> Untried(n, ids[1..])
  {
    forall i | 0 <= i < |ids[1..]|
      ensures ids[1..][i] == ids[i + 1] && ids[i + 1] != ids[0]
    {
    }
  }

  lemma {:induction false} LoseInTurn(w: World, t: Uuid, ids: seq<Uuid>, more: seq<Uuid>, e: Uuid)
    returns (run: Run, n: World)
    requires Alone(w, t) && w.db.tasks[t].maxAttempts >= 1 && Unused(w, ids + more)
    ensures Leads(w, run, n, t, 2 * |ids|, |ids|) && Cleared(n, t) && Unused(n, more) && SameCounts(w, n, t)
    decreases |ids|
  {
    if ids == [] {
      assert ids + more == more;
      run, n := [], w;
    } else {
      var first, m := LoseOne(w, t, ids, more, e);
      var rest;
      rest, n := LoseInTurn(m, t, ids[1..], more, e);
      LeadsThrough(w, first, m, t, 2, 1, rest, n, 2 * |ids[1..]|, |ids[1..]|);
      run := first + rest;
    }
  }

  ghost predicate SameCounts(w: World, n: World, t: Uuid) {
    && t in w.db.tasks && t in n.db.tasks && n.db.attempts.Keys == w.db.attempts.Keys
    && n.db.tasks[t].currentAttempt == w.db.tasks[t].currentAttempt
    && n.db.tasks[t].maxAttempts == w.db.tasks[t].maxAttempts
  }

  lemma LoseOne(w: World, t: Uuid, ids: seq<Uuid>, more: seq<Uuid>, e: Uuid) returns (run: Run, n: World)
    requires Alone(w, t) && w.db.tasks[t].maxAttempts >= 1 && ids != [] && Unused(w, ids + more)
    ensures Leads(w, run, n, t, 2, 1) && Alone(n, t) && Unused(n, ids[1..] + more) && SameCounts(w, n, t)
  {
    assert (ids + more)[0] == ids[0] && (ids + more)[1..] == ids[1..] + more;
    run, n := LoseUnstarted(w, t, ids[0], e, 60);
    UnusedLater(w, n, ids + more);
  }

  /** Every attempt allowed is started and lost, save the last, which is cancelled under way and reported. */
  lemma {:induction false} UseAll(w: World, t: Uuid, ids: seq<Uuid>, e: Uuid) returns (run: Run, n: World)
    requires Alone(w, t) && Unused(w, ids) && Untried(w, ids) && ids != []
    requires |ids| == Max(1, w.db.tasks[t].maxAttempts) - w.db.tasks[t].currentAttempt
    ensures Leads(w, run, n, t, 3 * |ids| + 1, 0)
    decreases |ids|
  {
    if |ids| == 1 {
      run, n := StartAndCancel(w, t, ids[0], e, 60);
    } else {
      var first, m := UseOne(w, t, ids, e);
      var rest;
      rest, n := UseAll(m, t, ids[1..], e);
      LeadsThrough(w, first, m, t, 3, 0, rest, n, 3 * |ids[1..]| + 1, 0);
      run := first + rest;
    }
  }

  lemma UseOne(w: World, t: Uuid, ids: seq<Uuid>, e: Uuid) returns (run: Run, n: World)
    requires Alone(w, t) && Unused(w, ids) && Untried(w, ids) && |ids| > 1
    requires |ids| == Max(1, w.db.tasks[t].maxAttempts) - w.db.tasks[t].currentAttempt
    ensures Leads(w, run, n, t, 3, 0) && Alone(n, t) && Unused(n, ids[1..]) && Untried(n, ids[1..])
    ensures n.db.tasks[t].currentAttempt == w.db.tasks[t].currentAttempt + 1
    ensures n.db.tasks[t].maxAttempts == w.db.tasks[t].maxAttempts
  {
    AttemptsAccounted(w, t);
    run, n := LoseStarted(w, t, ids[0], e, 60);
    UnusedLater(w, n, ids);
  }

  // ---------- what is out of reach without an allowance ----------

  /** Where no attempt is allowed for, a lease lost unstarted costs two moves instead of allowing two. */
  lemma {:induction false} LossesCost(w: World, run: Run, t: Uuid)
    requires Inv(w) && Feasible(w, run) && t in w.db.tasks && w.db.tasks[t].maxAttempts <= 0
    ensures Moves(w, run, t) + 2 * UnstartedLosses(w, run, t) <= Measure(View(w, t))
    ensures UnstartedLosses(w, run, t) <= Moves(w, run, t)
    decreases |run|
  {
    if run == [] {
      MeasureNatural(View(w, t));
    } else {
      var v, c, n := View(w, t), Felt(w, run[0], t), Step(w, run[0]);
      Lived(w, run[0], t);
      CostStep(v, run[0].at, c);
      StepInv(w, run[0]);
      StepFramed(w, run[0]);
      assert n.db.tasks[t].maxAttempts == w.db.tasks[t].maxAttempts;
      LossesCost(n, run[1..], t);
    }
  }

  lemma CostStep(v: Life, now: Time, c: Change)
    requires Sound(v, now) && Allowed(v, now, c) && v.row.maxAttempts <= 0
    ensures var n := Apply(v, now, c);
            && n.row.maxAttempts == v.row.maxAttempts
            && Measure(n) + (if Moved(v, n) then 1 else 0) + (if LostUnstarted(v, c) then 2 else 0) <= Measure(v)
            && (LostUnstarted(v, c) ==> Moved(v, n))
  {
    if !LostUnstarted(v, c) {
      MeasureFalls(v, now, c);
    }
  }

  lemma AtMostOneLoss(w: World, run: Run, t: Uuid)
    requires Inv(w) && Feasible(w, run) && t in w.db.tasks && w.db.tasks[t].maxAttempts <= 0
    ensures UnstartedLosses(w, run, t) <= 1
  {
    LossesCost(w, run, t);
    AttemptsAccounted(w, t);
  }

  // ---------- exactly ----------

  /**
   * With an attempt allowed, a queued task can be lost unstarted any number of times, whatever else is going on, and
   * is queued again after each.
   */
  lemma LoseAll(w: World, t: Uuid, ids: seq<Uuid>, e: Uuid) returns (run: Run, n: World)
    requires Inv(w) && t in w.db.tasks && w.db.tasks[t].status == Queued && w.db.tasks[t].maxAttempts >= 1
    requires Unused(w, ids)
    ensures Leads(w, run, n, t, 2 * |ids|, |ids|) && t in n.db.tasks && n.db.tasks[t].status == Queued
  {
    var first, m := ClearTheWay(w, t);
    assert ids + [] == ids;
    var rest;
    rest, n := LoseInTurn(m, t, ids, [], e);
    LeadsThrough(w, first, m, t, 0, 0, rest, n, 2 * |ids|, |ids|);
    run := first + rest;
  }

  lemma LoseNow(w: World, t: Uuid, id: Uuid, e: Uuid) returns (run: Run, n: World)
    requires Alone(w, t) && id !in w.grants
    ensures Leads(w, run, n, t, 2, 1)
  {
    run, n := LossLeads(w, t, id, e, 60);
  }

  lemma LoseOnce(w: World, t: Uuid, id: Uuid, e: Uuid) returns (run: Run, n: World)
    requires Inv(w) && t in w.db.tasks && w.db.tasks[t].status == Queued && id !in w.grants
    ensures Leads(w, run, n, t, 2, 1)
  {
    var first, m := ClearTheWay(w, t);
    run, n := LoseNow(m, t, id, e);
    LeadsThrough(w, first, m, t, 0, 0, run, n, 2, 1);
    run := first + run;
  }

  /**
   * From any state, a queued task can lose k leases unstarted if and only if it is allowed an attempt, or k is at
   * most one.
   */
  lemma LossesExactly(w: World, t: Uuid, ids: seq<Uuid>, e: Uuid)
    requires Inv(w) && t in w.db.tasks && w.db.tasks[t].status == Queued && Unused(w, ids)
    ensures (exists run :: Feasible(w, run) && UnstartedLosses(w, run, t) == |ids|)
            <==> w.db.tasks[t].maxAttempts >= 1 || |ids| <= 1
  {
    if w.db.tasks[t].maxAttempts >= 1 || |ids| <= 1 {
      SomeLose(w, t, ids, e);
    } else {
      forall run | Feasible(w, run)
        ensures UnstartedLosses(w, run, t) != |ids|
      {
        AtMostOneLoss(w, run, t);
      }
    }
  }

  lemma SomeLose(w: World, t: Uuid, ids: seq<Uuid>, e: Uuid)
    requires Inv(w) && t in w.db.tasks && w.db.tasks[t].status == Queued && Unused(w, ids)
    requires w.db.tasks[t].maxAttempts >= 1 || |ids| <= 1
    ensures exists run :: Feasible(w, run) && UnstartedLosses(w, run, t) == |ids|
  {
    var run: Run, n := [], w;
    if w.db.tasks[t].maxAttempts >= 1 {
      run, n := LoseAll(w, t, ids, e);
    } else if ids != [] {
      run, n := LoseOnce(w, t, ids[0], e);
    }
    assert Leads(w, run, n, t, 2 * |ids|, |ids|);
  }

  /** How many attempts a queued task has left, at least one. */
  function AttemptsLeft(row: TaskRow): int {
    Max(1, row.maxAttempts) - row.currentAttempt
  }

  /**
   * From any state, a queued task with a attempts left reaches the bound 3a + 1 + 2u on its moves, with u leases lost
   * unstarted, if and only if it is allowed an attempt or u is zero.
   */
  lemma BoundReachedExactly(w: World, t: Uuid, lost: seq<Uuid>, used: seq<Uuid>, e: Uuid)
    requires Inv(w) && t in w.db.tasks && w.db.tasks[t].status == Queued
    requires Unused(w, lost + used) && Untried(w, used) && |used| == AttemptsLeft(w.db.tasks[t])
    ensures (exists run :: Feasible(w, run) && UnstartedLosses(w, run, t) == |lost| &&
                           Moves(w, run, t) == 3 * |used| + 1 + 2 * |lost|)
            <==> w.db.tasks[t].maxAttempts >= 1 || lost == []
  {
    if w.db.tasks[t].maxAttempts >= 1 || lost == [] {
      BoundReached(w, t, lost, used, e);
    } else {
      forall run | Feasible(w, run) && UnstartedLosses(w, run, t) == |lost|
        ensures Moves(w, run, t) != 3 * |used| + 1 + 2 * |lost|
      {
        LossesCost(w, run, t);
        AttemptsAccounted(w, t);
      }
    }
  }

  /** So does every submission that is accepted, with all its attempts to come. */
  lemma SubmissionReachesBound(w: World, submit: Tick, lost: seq<Uuid>, used: seq<Uuid>, e: Uuid)
    requires Inv(w) && Enabled(w, submit) && submit.event.Submit? && submit.event.id !in w.db.tasks
    requires InsertTask(w.db, submit.event.id, submit.event.task).Ok?
    requires Unused(w, lost + used) && Untried(w, used) && |used| == Max(1, submit.event.task.maxAttempts)
    ensures var t, start := submit.event.id, Step(w, submit);
            (exists run :: Feasible(start, run) && UnstartedLosses(start, run, t) == |lost| &&
                           Moves(start, run, t) == 3 * |used| + 1 + 2 * |lost|)
            <==> submit.event.task.maxAttempts >= 1 || lost == []
  {
    StepInv(w, submit);
    Newborn(w, submit, submit.event.id);
    BoundReachedExactly(Step(w, submit), submit.event.id, lost, used, e);
  }

  lemma LoseThenUse(w: World, t: Uuid, lost: seq<Uuid>, used: seq<Uuid>, e: Uuid) returns (run: Run, n: World)
    requires Alone(w, t) && |used| == AttemptsLeft(w.db.tasks[t]) && used != []
    requires Unused(w, lost + used) && Untried(w, used) && (w.db.tasks[t].maxAttempts >= 1 || lost == [])
    ensures Leads(w, run, n, t, 2 * |lost| + (3 * |used| + 1), |lost|)
  {
    if lost == [] {
      assert lost + used == used;
      run, n := UseAll(w, t, used, e);
    } else {
      var first, m := LoseInTurn(w, t, lost, used, e);
      RunInv(w, first);
      var rest;
      rest, n := UseAll(m, t, used, e);
      LeadsThrough(w, first, m, t, 2 * |lost|, |lost|, rest, n, 3 * |used| + 1, 0);
      run := first + rest;
    }
  }

  lemma BoundReached(w: World, t: Uuid, lost: seq<Uuid>, used: seq<Uuid>, e: Uuid)
    requires Inv(w) && t in w.db.tasks && w.db.tasks[t].status == Queued
    requires |used| == AttemptsLeft(w.db.tasks[t])
    requires Unused(w, lost + used) && Untried(w, used) && (w.db.tasks[t].maxAttempts >= 1 || lost == [])
    ensures exists run :: Feasible(w, run) && UnstartedLosses(w, run, t) == |lost| &&
                          Moves(w, run, t) == 3 * |used| + 1 + 2 * |lost|
  {
    var run, n := ReachBound(w, t, lost, used, e);
    assert Feasible(w, run);
  }

  lemma ReachBound(w: World, t: Uuid, lost: seq<Uuid>, used: seq<Uuid>, e: Uuid) returns (run: Run, n: World)
    requires Inv(w) && t in w.db.tasks && w.db.tasks[t].status == Queued
    requires |used| == AttemptsLeft(w.db.tasks[t])
    requires Unused(w, lost + used) && Untried(w, used) && (w.db.tasks[t].maxAttempts >= 1 || lost == [])
    ensures Leads(w, run, n, t, 2 * |lost| + (3 * |used| + 1), |lost|)
  {
    var first, m := ClearTheWay(w, t);
    AttemptsAccounted(m, t);
    var rest;
    rest, n := LoseThenUse(m, t, lost, used, e);
    LeadsThrough(w, first, m, t, 0, 0, rest, n, 2 * |lost| + (3 * |used| + 1), |lost|);
    run := first + rest;
  }
}
