/** Polling until nothing is left takes what one greedy pass over the sorted queue takes. */
module Draining {
  import opened Common
  import opened Tables
  import opened Operations
  import opened Worlds

  /** The queue after one of its tasks was taken; only the statuses matter here. */
  function Take(db: Db, t: Uuid): Db
    requires t in db.tasks
  {
    db.(tasks := db.tasks[t := db.tasks[t].(status := Scheduled)])
  }

  predicate Ready(db: Db, pack: string, t: Uuid) {
    Candidate(db, pack, {}, t)
  }

  /** One pass over a list of tasks: take each that its group still admits, count it, go on. */
  function Greedy(db: Db, pack: string, order: seq<Uuid>): seq<Uuid>
    decreases |order|
  {
    if order == [] then []
    else if Ready(db, pack, order[0]) then [order[0]] + Greedy(Take(db, order[0]), pack, order[1..])
    else Greedy(db, pack, order[1..])
  }

  /** The queue in the order of the candidate query. */
  ghost predicate Sorted(db: Db, order: seq<Uuid>) {
    && (forall i :: 0 <= i < |order| ==> order[i] in db.tasks)
    && (forall i, j :: 0 <= i < j < |order| ==> Before(db.tasks[order[i]], db.tasks[order[j]]))
  }

  ghost predicate Lists(db: Db, pack: string, order: seq<Uuid>) {
    Sorted(db, order) && forall t <- db.tasks :: db.tasks[t].status == Queued && db.tasks[t].pack == pack ==> t in order
  }

  // ---------- counters only grow ----------

  lemma TakeCounts(db: Db, t: Uuid, g: Group)
    requires t in db.tasks && db.tasks[t].status == Queued
    ensures ActiveIn(Take(db, t), g) == ActiveIn(db, g) + if InGroup(db.tasks[t], g) then {t} else {}
    ensures |ActiveIn(Take(db, t), g)| == |ActiveIn(db, g)| + if InGroup(db.tasks[t], g) then 1 else 0
  {
  }

  /** A task passed over stays passed over. */
  lemma SkippedStays(db: Db, pack: string, t: Uuid, u: Uuid)
    requires t in db.tasks && db.tasks[t].status == Queued && !Ready(db, pack, u)
    ensures !Ready(Take(db, t), pack, u)
  {
    if u in db.tasks && db.tasks[u].limitKey.Some? {
      TakeCounts(db, t, (db.tasks[u].tenant, db.tasks[u].limitKey.value));
    }
  }

  // ---------- repeated polls ----------

  /** One poll: an executor asks at a time, for a lease length, with a fresh lease id. */
  datatype Ask = Ask(at: Time, executor: Uuid, seconds: int, lease: Uuid)

  /** The tasks that successive polls of one pack lease, with no other step between. */
  function Polled(db: Db, pack: string, asks: seq<Ask>): seq<Option<Uuid>>
    decreases |asks|
  {
    if asks == [] then []
    else
      match PollAndLease(db, asks[0].at, pack, asks[0].executor, asks[0].seconds, asks[0].lease)
      case Err(_) => [None] + Polled(db, pack, asks[1..])
      case Ok((next, None)) => [None] + Polled(next, pack, asks[1..])
      case Ok((next, Some(lease))) => [Some(lease.task)] + Polled(next, pack, asks[1..])
  }

  /** Queued tasks hold no lease, which the queue's invariant promises. */
  ghost predicate Unleased(db: Db) {
    forall l <- db.leases :: db.leases[l].task in db.tasks ==> db.tasks[db.leases[l].task].status != Queued
  }

  /** Every asker is registered and fresh, and brings a lease id of its own. */
  ghost predicate Welcome(db: Db, asks: seq<Ask>) {
    && (forall i :: 0 <= i < |asks| ==>
          PollRefusal(db, asks[i].at, asks[i].executor).None? && asks[i].lease !in db.leases)
    && (forall i, j :: 0 <= i < j < |asks| ==> asks[i].lease != asks[j].lease)
  }

  /** Two databases the candidate query cannot tell apart. */
  ghost predicate Alike(a: Db, b: Db) {
    && a.tasks.Keys == b.tasks.Keys && a.limits == b.limits
    && forall t <- a.tasks :: SameRank(a.tasks[t], b.tasks[t])
  }

  ghost predicate SameRank(a: TaskRow, b: TaskRow) {
    && a.status == b.status && a.pack == b.pack && a.priority == b.priority && a.created == b.created
    && a.tenant == b.tenant && a.limitKey == b.limitKey
  }

  lemma AlikeReady(a: Db, b: Db, pack: string, t: Uuid)
    requires Alike(a, b)
    ensures Ready(a, pack, t) == Ready(b, pack, t)
  {
    if t in a.tasks && a.tasks[t].limitKey.Some? {
      var g := (a.tasks[t].tenant, a.tasks[t].limitKey.value);
      assert ActiveIn(a, g) == ActiveIn(b, g);
    }
  }

  lemma {:induction false} AlikeGreedy(a: Db, b: Db, pack: string, order: seq<Uuid>)
    requires Alike(a, b)
    ensures Greedy(a, pack, order) == Greedy(b, pack, order)
    decreases |order|
  {
    if order == [] {
    } else {
      AlikeReady(a, b, pack, order[0]);
      AlikeGreedy(a, b, pack, order[1..]);
      if Ready(a, pack, order[0]) {
        AlikeGreedy(Take(a, order[0]), Take(b, order[0]), pack, order[1..]);
      }
    }
  }

  /** The first ready task of the sorted queue is the query's pick. */
  lemma FirstIsPick(db: Db, pack: string, order: seq<Uuid>)
    requires Sorted(db, order) && order != [] && Ready(db, pack, order[0])
    requires forall t <- db.tasks :: Ready(db, pack, t) ==> t in order
    ensures Pick(db, pack, {}) == Some(order[0])
    ensures IsPick(db, pack, {}, order[0])
  {
  }

  /** The k-th poll leases the k-th task of the greedy pass; once the pass is used up, every poll finds nothing. */
  ghost function Expected(picks: seq<Uuid>, n: nat): seq<Option<Uuid>> {
    seq(n, i requires 0 <= i => if i < |picks| then Some(picks[i]) else None)
  }

  /** One poll takes the first ready task and leaves the rest of the queue as a greedy pass would. */
  lemma OnePoll(db: Db, pack: string, order: seq<Uuid>, ask: Ask) returns (next: Db, lease: Lease)
    requires Ordered(db) && Unleased(db) && PollRefusal(db, ask.at, ask.executor).None? && ask.lease !in db.leases
    requires Sorted(db, order) && order != [] && Ready(db, pack, order[0])
    requires forall t <- db.tasks :: Ready(db, pack, t) ==> t in order
    ensures PollAndLease(db, ask.at, pack, ask.executor, ask.seconds, ask.lease) == Ok((next, Some(lease)))
    ensures lease.task == order[0] && next == Grant(db, ask.lease, lease)
    ensures Alike(next, Take(db, order[0]))
    ensures forall u <- next.tasks :: Ready(next, pack, u) ==> u in order[1..]
  {
    var t := order[0];
    FirstIsPick(db, pack, order);
    lease := Lease(t, ask.executor, ask.at, ask.at + ask.seconds * SECOND);
    next := Grant(db, ask.lease, lease);
    forall u <- next.tasks | Ready(next, pack, u)
      ensures u in order[1..]
    {
      AlikeReady(next, Take(db, t), pack, u);
      if !Ready(db, pack, u) { SkippedStays(db, pack, t, u); }
    }
  }

  lemma WelcomeStays(db: Db, next: Db, lease: Lease, asks: seq<Ask>)
    requires Ordered(db) && Unleased(db) && asks != [] && Welcome(db, asks)
    requires lease.task in db.tasks && next == Grant(db, asks[0].lease, lease)
    ensures Ordered(next) && Unleased(next) && Welcome(next, asks[1..])
  {
  }

  lemma SortedStays(db: Db, next: Db, lease: Lease, id: Uuid, order: seq<Uuid>)
    requires Sorted(db, order) && order != [] && lease.task in db.tasks && next == Grant(db, id, lease)
    ensures Sorted(next, order[1..])
  {
  }

  lemma ExpectedCons(t: Uuid, picks: seq<Uuid>, n: nat)
    ensures Expected([t] + picks, n + 1) == [Some(t)] + Expected(picks, n)
  {
  }

  lemma {:induction false} PollsAreGreedy(db: Db, pack: string, order: seq<Uuid>, asks: seq<Ask>)
    requires Ordered(db) && Unleased(db) && Welcome(db, asks) && Sorted(db, order)
    requires forall t <- db.tasks :: Ready(db, pack, t) ==> t in order
    ensures Polled(db, pack, asks) == Expected(Greedy(db, pack, order), |asks|)
    decreases |order|, |asks|
  {
    if asks == [] {
    } else if order == [] {
      NothingReady(db, pack, asks);
    } else if Ready(db, pack, order[0]) {
      var next, lease := OnePoll(db, pack, order, asks[0]);
      AlikeGreedy(next, Take(db, order[0]), pack, order[1..]);
      WelcomeStays(db, next, lease, asks);
      SortedStays(db, next, lease, asks[0].lease, order);
      PollsAreGreedy(next, pack, order[1..], asks[1..]);
      ExpectedCons(order[0], Greedy(Take(db, order[0]), pack, order[1..]), |asks| - 1);
      assert Polled(db, pack, asks) == [Some(order[0])] + Polled(next, pack, asks[1..]);
    } else {
      assert forall t <- order :: t == order[0] || t in order[1..];
      PollsAreGreedy(db, pack, order[1..], asks);
    }
  }

  lemma {:induction false} NothingReady(db: Db, pack: string, asks: seq<Ask>)
    requires forall t <- db.tasks :: !Ready(db, pack, t)
    ensures Polled(db, pack, asks) == Expected([], |asks|)
    decreases |asks|
  {
    if asks == [] {
    } else {
      NothingReady(db, pack, asks[1..]);
      assert Pick(db, pack, {}).None?;
    }
  }

  /**
   * Draining equals a greedy pass: from any reachable state with no poll open, successive polls of a pack lease
   * exactly what one pass over its sorted queue takes, in that order, and then nothing.
   */
  lemma DrainIsGreedy(w: World, pack: string, order: seq<Uuid>, asks: seq<Ask>)
    requires Inv(w) && Lists(w.db, pack, order) && Welcome(w.db, asks)
    ensures Polled(w.db, pack, asks) == Expected(Greedy(w.db, pack, order), |asks|)
  {
    InvLinked(w);
    forall l <- w.db.leases | w.db.leases[l].task in w.db.tasks
      ensures w.db.tasks[w.db.leases[l].task].status != Queued
    {
      assert LeaseLinked(w, l);
    }
    PollsAreGreedy(w.db, pack, order, asks);
  }

  /** Every queue can be listed in that order, and only in distinct tasks. */
  lemma {:induction false} CanBeSorted(db: Db, s: set<Uuid>) returns (order: seq<Uuid>)
    requires Ordered(db) && s <= db.tasks.Keys
    ensures Sorted(db, order) && Distinct(order) && forall t :: t in order <==> t in s
    decreases |s|
  {
    if s == {} {
      order := [];
    } else {
      var t := FirstExists(db, s);
      var rest := s - {t};
      assert |rest| < |s|;
      var tail := CanBeSorted(db, rest);
      assert forall i :: 0 <= i < |tail| ==> tail[i] in tail;
      order := [t] + tail;
    }
  }

  /** A begin followed at once by its commit is the repository's whole poll transaction. */
  lemma BeginThenCommit(w: World, at: Time, tx: Uuid, pack: string, executor: Uuid, seconds: int, lease: Uuid)
    requires w.open == map[] && Inv(w)
    ensures var begun := Step(w, Tick(at, BeginPoll(tx, pack, executor, seconds)));
            var done := Step(begun, Tick(at, CommitPoll(tx, lease)));
            done.open == map[] && done.db ==
              match PollAndLease(w.db, at, pack, executor, seconds, lease)
              case Ok((db, _)) => db
              case Err(_) => w.db
  {
    var begun := Begin(w.(now := at), tx, pack, executor, seconds);
    BeginWrites(w.(now := at), tx, pack, executor, seconds);
    assert Step(w, Tick(at, BeginPoll(tx, pack, executor, seconds))) == begun;
    assert Step(begun, Tick(at, CommitPoll(tx, lease))) == if tx in begun.open then Commit(begun, tx, lease) else begun;
    WholePoll(w.(now := at), tx, pack, executor, seconds, lease);
  }

  lemma WholePoll(w: World, tx: Uuid, pack: string, executor: Uuid, seconds: int, lease: Uuid)
    requires w.open == map[]
    ensures var begun := Begin(w, tx, pack, executor, seconds);
            var done := if tx in begun.open then Commit(begun, tx, lease) else begun;
            done.open == map[] && done.db ==
              match PollAndLease(w.db, w.now, pack, executor, seconds, lease)
              case Ok((db, _)) => db
              case Err(_) => w.db
  {
    assert Locked(w) == {};
    assert Begin(w, tx, pack, executor, seconds).open - {tx} == map[];
  }

  // ---------- what the pass takes of each group ----------

  /** The waiting tasks of a pack that belong to a group, in the order given. */
  function Members(db: Db, pack: string, order: seq<Uuid>, g: Group): seq<Uuid> {
    if order == [] then []
    else (if order[0] in db.tasks && db.tasks[order[0]].status == Queued && db.tasks[order[0]].pack == pack &&
             InGroup(db.tasks[order[0]], g)
          then [order[0]] else []) +
         Members(db, pack, order[1..], g)
  }

  /** Of a list of tasks, those of a group. */
  function OfGroup(db: Db, picks: seq<Uuid>, g: Group): seq<Uuid> {
    if picks == [] then []
    else
      (if picks[0] in db.tasks && InGroup(db.tasks[picks[0]], g) then [picks[0]] else []) +
      OfGroup(db, picks[1..], g)
  }

  function Room(db: Db, g: Group): nat
    requires g in db.limits
  {
    Max(0, db.limits[g] - |ActiveIn(db, g)|)
  }

  lemma {:induction false} MembersAfterTake(db: Db, pack: string, order: seq<Uuid>, g: Group, t: Uuid)
    requires t in db.tasks && t !in order
    ensures Members(Take(db, t), pack, order, g) == Members(db, pack, order, g)
    decreases |order|
  {
    if order == [] {
    } else {
      assert order[0] in order;
      MembersAfterTake(db, pack, order[1..], g, t);
    }
  }

  lemma {:induction false} OfGroupAfterTake(db: Db, picks: seq<Uuid>, g: Group, t: Uuid)
    requires t in db.tasks
    ensures OfGroup(Take(db, t), picks, g) == OfGroup(db, picks, g)
    decreases |picks|
  {
    if picks == [] {
    } else {
      OfGroupAfterTake(db, picks[1..], g, t);
    }
  }

  function Prefix(s: seq<Uuid>, n: nat): seq<Uuid> {
    if n < |s| then s[..n] else s
  }

  lemma PrefixCons(t: Uuid, s: seq<Uuid>, n: nat)
    requires n > 0
    ensures Prefix([t] + s, n) == [t] + Prefix(s, n - 1)
  {
  }

  lemma RoomAfterTake(db: Db, pack: string, t: Uuid, g: Group)
    requires g in db.limits && Ready(db, pack, t)
    ensures Room(Take(db, t), g) == Room(db, g) - if InGroup(db.tasks[t], g) then 1 else 0
    ensures InGroup(db.tasks[t], g) ==> Room(db, g) > 0
  {
    TakeCounts(db, t, g);
    if InGroup(db.tasks[t], g) {
      assert g == (db.tasks[t].tenant, db.tasks[t].limitKey.value);
    }
  }

  /** Of a limited group the pass takes the best-ranked tasks, as many as there is room for. */
  lemma {:induction false} GroupShare(db: Db, pack: string, order: seq<Uuid>, g: Group)
    requires Distinct(order) && g in db.limits
    ensures OfGroup(db, Greedy(db, pack, order), g) == Prefix(Members(db, pack, order, g), Room(db, g))
    decreases |order|
  {
    if order == [] {
    } else {
      var t, rest := order[0], order[1..];
      assert Distinct(rest) && t !in rest;
      if Ready(db, pack, t) {
        GroupShare(Take(db, t), pack, rest, g);
        MembersAfterTake(db, pack, rest, g, t);
        OfGroupAfterTake(db, Greedy(Take(db, t), pack, rest), g, t);
        RoomAfterTake(db, pack, t, g);
        var picks, later := Greedy(db, pack, order), Greedy(Take(db, t), pack, rest);
        assert picks == [t] + later && picks[0] == t && picks[1..] == later;
        if InGroup(db.tasks[t], g) {
          PrefixCons(t, Members(db, pack, rest, g), Room(db, g));
        }
      } else {
        GroupShare(db, pack, rest, g);
      }
    }
  }

  /** A group without a limit, and the tasks without a key, are all taken. */
  lemma {:induction false} UnlimitedAllTaken(db: Db, pack: string, order: seq<Uuid>, t: Uuid)
    requires t in order && Distinct(order) && t in db.tasks && db.tasks[t].status == Queued && db.tasks[t].pack == pack
    requires db.tasks[t].limitKey.Some? ==> (db.tasks[t].tenant, db.tasks[t].limitKey.value) !in db.limits
    ensures t in Greedy(db, pack, order)
    decreases |order|
  {
    if order[0] != t {
      if Ready(db, pack, order[0]) {
        UnlimitedAllTaken(Take(db, order[0]), pack, order[1..], t);
      } else {
        UnlimitedAllTaken(db, pack, order[1..], t);
      }
    }
  }
}
