/** The life of one task: its row, the lease it is held under, its attempts, and every lease ever granted for it. */
module Lives {
  import opened Common
  import opened Tables
  import opened Operations

  datatype Life = Life(
    row: TaskRow,
    held: map<Uuid, Lease>,
    attempts: map<Uuid, Attempt>,
    grants: map<Uuid, Lease>)

  /** All that can happen to one task in one step of the system. */
  datatype Change =
    | Idle
    | Leased(id: Uuid, lease: Lease)
    | Started(id: Uuid, attempt: Attempt)
    | Finished(report: Report)
    | Lost(overdue: Uuid)
    | Stopped

  ghost predicate Allowed(v: Life, now: Time, c: Change) {
    match c
    case Idle => true
    case Leased(id, lease) =>
      && v.row.status == Queued && id !in v.grants && lease.granted <= now
      && forall g <- v.grants :: v.grants[g].expires <= lease.granted
    case Started(id, attempt) =>
      && v.row.status == Scheduled && id !in v.attempts
      && attempt.lease in v.held && v.held[attempt.lease].expires > now
      && attempt == Attempt(attempt.task, attempt.executor, attempt.lease, now, None, None, None, None)
    case Finished(r) =>
      Terminal(r.status) && r.lease in v.held && v.held[r.lease].expires > now
    case Lost(l) =>
      InFlight(v.row.status) && l in v.held && v.held[l].expires <= now
    case Stopped =>
      !Terminal(v.row.status)
  }

  ghost function Apply(v: Life, now: Time, c: Change): Life {
    match c
    case Idle => v
    case Leased(id, lease) =>
      v.(row := v.row.(status := Scheduled, scheduledAt := Some(lease.granted)),
         held := v.held[id := lease], grants := v.grants[id := lease])
    case Started(id, attempt) =>
      v.(row := v.row.(status := Running, currentAttempt := v.row.currentAttempt + 1),
         attempts := v.attempts[id := attempt])
    case Finished(r) =>
      v.(row := FinishedRow(v.row, r), held := v.held - {r.lease},
         attempts := CloseAttempts(v.attempts, {r.lease}, now, Reported(r.status), r.logsRef, r.resultRef))
    case Lost(l) =>
      v.(row := RequeuedRow(v.row), held := v.held - {l},
         attempts := CloseAttempts(v.attempts, {l}, now, LeaseExpired, None, None))
    case Stopped =>
      v.(row := v.row.(status := Cancelled, cancelRequestedAt := Some(now)))
  }

  // ---------- what is always true of a life ----------

  /** How many attempts the task may have in all. */
  function Allowance(row: TaskRow): int {
    Max(1, row.maxAttempts)
  }

  predicate Waiting(s: Status) {
    s.Queued? || s.Scheduled?
  }

  /** current_attempt counts the attempt rows and stays within the allowance. */
  ghost predicate Counted(v: Life) {
    && v.row.currentAttempt == |v.attempts|
    && v.row.currentAttempt <= Allowance(v.row)
    && (Waiting(v.row.status) ==> v.row.currentAttempt < Allowance(v.row))
  }

  /** Status and lease table agree: in flight with one lease, queued or settled with none. */
  ghost predicate Tenured(v: Life) {
    && (forall k <- v.held, l <- v.held :: k == l)
    && (forall l <- v.held :: l in v.grants && v.grants[l] == v.held[l])
    && (InFlight(v.row.status) ==> v.held != map[])
    && (v.held != map[] ==> InFlight(v.row.status) || v.row.status == Cancelled)
  }

  predicate Apart(g: Lease, h: Lease) {
    g.expires <= h.granted || h.expires <= g.granted
  }

  /** Leases of one task take turns, and a queued task's leases are all over. */
  ghost predicate TakingTurns(v: Life, now: Time) {
    && (forall g <- v.grants :: v.grants[g].granted <= now)
    && (forall g <- v.grants, h <- v.grants :: g != h ==> Apart(v.grants[g], v.grants[h]))
    && (forall l <- v.held, g <- v.grants :: g != l ==> v.grants[g].expires <= v.held[l].granted)
    && (v.row.status == Queued ==> forall g <- v.grants :: v.grants[g].expires <= now)
  }

  /** An attempt closed because its lease ran out. */
  predicate Lapsed(a: Attempt, now: Time) {
    && a.exit == Some(LeaseExpired) && a.finished.Some? && a.started < a.finished.value <= now
    && a.logsRef == None && a.resultRef == None
  }

  /** Attempt a lapsed before attempt b began. */
  predicate Precedes(a: Attempt, b: Attempt) {
    Lapsed(a, b.started)
  }

  /** The attempt began inside the window of its own lease, and is open exactly while that lease is held. */
  ghost predicate Rooted(x: Attempt, held: map<Uuid, Lease>, grants: map<Uuid, Lease>, now: Time) {
    && x.lease in grants
    && grants[x.lease].granted <= x.started < grants[x.lease].expires
    && x.started <= now
    && (x.lease in held <==> x.finished.None?)
    && (x.finished.None? ==> x.exit == None && x.logsRef == None && x.resultRef == None)
    && (x.finished.Some? ==> x.exit.Some? && x.started <= x.finished.value <= now)
  }

  ghost predicate Anchored(v: Life, now: Time) {
    forall a <- v.attempts :: Rooted(v.attempts[a], v.held, v.grants, now)
  }

  /** Attempts form a timeline, and those behind the current lease, or behind a queued task, have all lapsed. */
  ghost predicate Sequenced(v: Life, now: Time) {
    && (forall a <- v.attempts, b <- v.attempts :: a != b ==>
          Precedes(v.attempts[a], v.attempts[b]) || Precedes(v.attempts[b], v.attempts[a]))
    && (v.held != map[] || v.row.status == Queued ==>
          forall a <- v.attempts :: v.attempts[a].lease !in v.held ==> Lapsed(v.attempts[a], now))
    && (Waiting(v.row.status) ==> forall a <- v.attempts :: v.attempts[a].lease !in v.held)
    && (v.row.status == Running ==> exists a <- v.attempts :: v.attempts[a].lease in v.held)
  }

  /** Only the report that settles a task writes its result. */
  ghost predicate Unwritten(v: Life) {
    !Terminal(v.row.status) || v.held != map[] ==> v.row.resultRef == None
  }

  ghost predicate Sound(v: Life, now: Time) {
    Counted(v) && Tenured(v) && TakingTurns(v, now) && Anchored(v, now) && Sequenced(v, now) && Unwritten(v)
  }

  // ---------- every change keeps it ----------

  lemma LeasedTurns(v: Life, now: Time, id: Uuid, lease: Lease)
    requires Tenured(v) && TakingTurns(v, now) && Allowed(v, now, Leased(id, lease))
    ensures var n := Apply(v, now, Leased(id, lease)); Tenured(n) && TakingTurns(n, now)
  {
  }

  lemma LeasedAnchored(v: Life, now: Time, id: Uuid, lease: Lease)
    requires Anchored(v, now) && Allowed(v, now, Leased(id, lease))
    ensures Anchored(Apply(v, now, Leased(id, lease)), now)
  {
  }

  lemma LeasedSequenced(v: Life, now: Time, id: Uuid, lease: Lease)
    requires v.held == map[] && Anchored(v, now) && Sequenced(v, now) && Allowed(v, now, Leased(id, lease))
    ensures Sequenced(Apply(v, now, Leased(id, lease)), now)
  {
  }

  lemma StartedAnchored(v: Life, now: Time, id: Uuid, attempt: Attempt)
    requires Tenured(v) && TakingTurns(v, now) && Anchored(v, now) && Sequenced(v, now)
    requires Allowed(v, now, Started(id, attempt))
    ensures Anchored(Apply(v, now, Started(id, attempt)), now)
  {
  }

  lemma StartedSequenced(v: Life, now: Time, id: Uuid, attempt: Attempt)
    requires Sequenced(v, now) && Allowed(v, now, Started(id, attempt))
    ensures Sequenced(Apply(v, now, Started(id, attempt)), now)
  {
    var n := Apply(v, now, Started(id, attempt));
    assert n.attempts[id].lease in n.held;
    assert forall a <- v.attempts :: Precedes(n.attempts[a], n.attempts[id]);
  }

  lemma LeasedSound(v: Life, now: Time, id: Uuid, lease: Lease)
    requires Sound(v, now) && Allowed(v, now, Leased(id, lease))
    ensures Sound(Apply(v, now, Leased(id, lease)), now)
  {
    LeasedTurns(v, now, id, lease);
    LeasedAnchored(v, now, id, lease);
    LeasedSequenced(v, now, id, lease);
  }

  lemma StartedSound(v: Life, now: Time, id: Uuid, attempt: Attempt)
    requires Sound(v, now) && Allowed(v, now, Started(id, attempt))
    ensures Sound(Apply(v, now, Started(id, attempt)), now)
  {
    StartedAnchored(v, now, id, attempt);
    StartedSequenced(v, now, id, attempt);
  }

  // ---------- giving a lease back ----------

  /** The lease goes, and whatever attempt was open under it is closed. */
  ghost function Release(v: Life, now: Time, l: Uuid, row: TaskRow, exit: ExitReason,
                         logsRef: Option<string>, resultRef: Option<string>): Life {
    v.(row := row, held := v.held - {l}, attempts := CloseAttempts(v.attempts, {l}, now, exit, logsRef, resultRef))
  }

  lemma ClosedKeys(attempts: map<Uuid, Attempt>, closing: set<Uuid>, now: Time, exit: ExitReason,
                   logsRef: Option<string>, resultRef: Option<string>)
    ensures var closed := CloseAttempts(attempts, closing, now, exit, logsRef, resultRef);
            closed.Keys == attempts.Keys && |closed| == |attempts|
  {
  }

  lemma ReleaseAnchored(v: Life, now: Time, l: Uuid, row: TaskRow, exit: ExitReason,
                        logsRef: Option<string>, resultRef: Option<string>)
    requires Tenured(v) && Anchored(v, now) && l in v.held
    ensures var n := Release(v, now, l, row, exit, logsRef, resultRef);
            n.held == map[] && Anchored(n, now)
  {
  }

  /** Closing changes only the attempt that was open, and lapsed attempts never were. */
  lemma ReleasePairs(v: Life, now: Time, l: Uuid, row: TaskRow, exit: ExitReason,
                     logsRef: Option<string>, resultRef: Option<string>)
    requires Sequenced(v, now)
    ensures var n := Release(v, now, l, row, exit, logsRef, resultRef);
            forall a <- n.attempts, b <- n.attempts :: a != b ==>
              Precedes(n.attempts[a], n.attempts[b]) || Precedes(n.attempts[b], n.attempts[a])
  {
  }

  /** When a lease is lost, every attempt of the task has lapsed. */
  lemma LostLapses(v: Life, now: Time, l: Uuid)
    requires Tenured(v) && Anchored(v, now) && Sequenced(v, now) && Allowed(v, now, Lost(l))
    ensures forall a <- Apply(v, now, Lost(l)).attempts :: Lapsed(Apply(v, now, Lost(l)).attempts[a], now)
  {
  }

  lemma LostTurns(v: Life, now: Time, l: Uuid)
    requires Tenured(v) && TakingTurns(v, now) && Allowed(v, now, Lost(l))
    ensures TakingTurns(Apply(v, now, Lost(l)), now)
  {
  }

  lemma FinishedSound(v: Life, now: Time, r: Report)
    requires Sound(v, now) && Allowed(v, now, Finished(r))
    ensures Sound(Apply(v, now, Finished(r)), now)
    ensures Apply(v, now, Finished(r)).held == map[]
  {
    ClosedKeys(v.attempts, {r.lease}, now, Reported(r.status), r.logsRef, r.resultRef);
    ReleaseAnchored(v, now, r.lease, FinishedRow(v.row, r), Reported(r.status), r.logsRef, r.resultRef);
    ReleasePairs(v, now, r.lease, FinishedRow(v.row, r), Reported(r.status), r.logsRef, r.resultRef);
  }

  lemma LostSound(v: Life, now: Time, l: Uuid)
    requires Sound(v, now) && Allowed(v, now, Lost(l))
    ensures Sound(Apply(v, now, Lost(l)), now)
  {
    ClosedKeys(v.attempts, {l}, now, LeaseExpired, None, None);
    ReleaseAnchored(v, now, l, RequeuedRow(v.row), LeaseExpired, None, None);
    ReleasePairs(v, now, l, RequeuedRow(v.row), LeaseExpired, None, None);
    LostLapses(v, now, l);
    LostTurns(v, now, l);
  }

  lemma StoppedSound(v: Life, now: Time)
    requires Sound(v, now) && Allowed(v, now, Stopped)
    ensures Sound(Apply(v, now, Stopped), now)
  {
  }

  lemma LaterSound(v: Life, now: Time, later: Time)
    requires Sound(v, now) && now <= later
    ensures Sound(v, later)
  {
  }

  /** A sound life stays sound under any change it allows. */
  lemma ChangeSound(v: Life, now: Time, c: Change)
    requires Sound(v, now) && Allowed(v, now, c)
    ensures Sound(Apply(v, now, c), now)
  {
    match c
    case Idle =>
    case Leased(id, lease) => LeasedSound(v, now, id, lease);
    case Started(id, attempt) => StartedSound(v, now, id, attempt);
    case Finished(r) => FinishedSound(v, now, r);
    case Lost(l) => LostSound(v, now, l);
    case Stopped => StoppedSound(v, now);
  }

  // ---------- endings ----------

  /** Terminal with no lease left: nothing can happen to the task any more. */
  ghost predicate Over(v: Life) {
    Terminal(v.row.status) && v.held == map[]
  }

  lemma OverIsFinal(v: Life, now: Time, c: Change)
    requires Over(v) && Allowed(v, now, c)
    ensures c == Idle
  {
  }

  /** Cancelled while a lease that has since run out is still on the books. */
  ghost predicate Orphaned(v: Life, now: Time) {
    v.row.status == Cancelled && v.held != map[] && forall l <- v.held :: v.held[l].expires <= now
  }

  lemma OrphanIsFinal(v: Life, now: Time, c: Change)
    requires Orphaned(v, now) && Allowed(v, now, c)
    ensures c == Idle
  {
  }

  /** A terminal status changes only by the one report that ends a cancelled task still under lease. */
  lemma TerminalCloses(v: Life, now: Time, c: Change)
    requires Sound(v, now) && Allowed(v, now, c) && Terminal(v.row.status)
    ensures Terminal(Apply(v, now, c).row.status)
    ensures c != Idle ==> v.row.status == Cancelled && c.Finished? && c.report.lease in v.held && Over(Apply(v, now, c))
  {
    if c.Finished? {
      FinishedSound(v, now, c.report);
    }
  }

  lemma FinishedIsOver(v: Life, now: Time, r: Report)
    requires Sound(v, now) && Allowed(v, now, Finished(r))
    ensures Over(Apply(v, now, Finished(r)))
  {
  }

  // ---------- progress ----------

  /** How much can still happen to the task. */
  ghost function Measure(v: Life): int {
    var left := Allowance(v.row) - v.row.currentAttempt;
    match v.row.status
    case Queued => 3 * left + 1
    case Scheduled => 3 * left
    case Running => 3 * left + 2
    case Cancelled => if v.held != map[] then 1 else 0
    case _ => 0
  }

  ghost predicate Moved(v: Life, n: Life) {
    v.row.status != n.row.status || v.held != n.held
  }

  /** A lease lost before its attempt ever started. */
  ghost predicate LostUnstarted(v: Life, c: Change) {
    c.Lost? && v.row.status == Scheduled
  }

  /** After a lease lost unstarted the task waits again, unless it was never allowed an attempt: then it is over. */
  lemma UnstartedLoss(v: Life, now: Time, c: Change)
    requires Sound(v, now) && Allowed(v, now, c) && LostUnstarted(v, c)
    ensures Apply(v, now, c).row.status == if v.row.maxAttempts >= 1 then Queued else DeadLetter
    ensures v.row.maxAttempts < 1 ==> Over(Apply(v, now, c))
  {
    assert Apply(v, now, c).held == map[];
  }

  /** Each change of status or lease uses up the measure, except that a lease lost unstarted gives one back. */
  lemma MeasureFalls(v: Life, now: Time, c: Change)
    requires Sound(v, now) && Allowed(v, now, c)
    ensures var n := Apply(v, now, c);
            0 <= Measure(n) &&
            Measure(n) + (if Moved(v, n) then 1 else 0) <= Measure(v) + (if LostUnstarted(v, c) then 2 else 0)
  {
    ChangeSound(v, now, c);
    MeasureNatural(Apply(v, now, c));
    if c.Finished? {
      FinishedSound(v, now, c.report);
    }
    MeasurePays(v, now, c);
  }

  lemma MeasureNatural(v: Life)
    requires Counted(v)
    ensures 0 <= Measure(v)
  {
  }

  lemma MeasurePays(v: Life, now: Time, c: Change)
    requires Counted(v) && Allowed(v, now, c)
    requires v.held != map[] ==> InFlight(v.row.status) || v.row.status == Cancelled
    requires c.Finished? ==> Apply(v, now, c).held == map[]
    ensures var n := Apply(v, now, c);
            Measure(n) + (if Moved(v, n) then 1 else 0) <= Measure(v) + (if LostUnstarted(v, c) then 2 else 0)
  {
    var n := Apply(v, now, c);
    match c
    case Idle =>
    case Leased(_, _) => assert Allowance(n.row) == Allowance(v.row);
    case Started(_, _) => assert Allowance(n.row) == Allowance(v.row);
    case Finished(r) => assert v.held != map[] && Measure(n) == 0;
    case Lost(_) => assert Allowance(n.row) == Allowance(v.row) && v.held != map[];
    case Stopped => assert Measure(n) <= 1;
  }
}
