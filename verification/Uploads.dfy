/**
 * The upload pipeline, for artifacts and for payloads: a row and its session, the bytes in object storage, and the
 * upload requests that are somewhere between the two.
 */
module Uploads {
  import opened Common
  import opened Keys
  import opened Digests

  datatype Kind = Artifacts | Payloads

  /** What an artifact is built for; payloads have none. */
  datatype Runtime = Runtime(pack: string, entrypoint: string)

  datatype Row = Row(
    tenant: Uuid,
    digest: string,
    size: int,
    runtime: Option<Runtime>,
    ready: bool,
    key: Option<string>)

  datatype Session = Session(item: Uuid, completed: bool)

  datatype Shelf = Shelf(rows: map<Uuid, Row>, sessions: map<Uuid, Session>)

  // ---------- the two repository calls ----------

  predicate DigestTaken(s: Shelf, digest: string) {
    exists id :: id in s.rows && s.rows[id].digest == digest
  }

  function CreateUpload(s: Shelf, id: Uuid, session: Uuid, tenant: Uuid, digest: string, size: int,
                        runtime: Option<Runtime>): Result<Shelf> {
    if DigestTaken(s, digest) then Err(Conflict("digest already exists"))
    else if id in s.rows || session in s.sessions then Err(DatabaseError("unique constraint"))
    else Ok(Shelf(s.rows[id := Row(tenant, digest, size, runtime, false, None)],
                  s.sessions[session := Session(id, false)]))
  }

  function CompleteUpload(s: Shelf, session: Uuid, key: string): Result<Shelf> {
    if session !in s.sessions then Err(NotFound)
    else if s.sessions[session].completed then Err(Conflict("upload session is no longer pending"))
    else
      var id := s.sessions[session].item;
      if id !in s.rows then Err(DatabaseError("no row returned"))
      else Ok(Shelf(s.rows[id := s.rows[id].(ready := true, key := Some(key))],
                    s.sessions[session := s.sessions[session].(completed := true)]))
  }

  /** A new upload: refused for a digest in use or an id in use, and otherwise one pending row with its session. */
  lemma CreateAnswers(s: Shelf, id: Uuid, session: Uuid, tenant: Uuid, digest: string, size: int,
                      runtime: Option<Runtime>)
    ensures match CreateUpload(s, id, session, tenant, digest, size, runtime)
            case Err(e) =>
              if exists i :: i in s.rows && s.rows[i].digest == digest then e.Conflict?
              else e.DatabaseError? && (id in s.rows || session in s.sessions)
            case Ok(n) =>
              && (forall i <- s.rows :: s.rows[i].digest != digest) && id !in s.rows && session !in s.sessions
              && n.rows.Keys == s.rows.Keys + {id} && (forall i <- s.rows :: n.rows[i] == s.rows[i])
              && n.sessions.Keys == s.sessions.Keys + {session}
              && (forall i <- s.sessions :: n.sessions[i] == s.sessions[i])
              && n.rows[id].tenant == tenant && n.rows[id].digest == digest && n.rows[id].size == size
              && n.rows[id].runtime == runtime && !n.rows[id].ready && n.rows[id].key == None
              && n.sessions[session].item == id && !n.sessions[session].completed
  {
  }

  /** Completing: once, of a known session, and both its row and itself are marked. */
  lemma CompleteAnswers(s: Shelf, session: Uuid, key: string)
    ensures match CompleteUpload(s, session, key)
            case Err(e) =>
              if session !in s.sessions then e == NotFound
              else if s.sessions[session].completed then e.Conflict?
              else e.DatabaseError? && s.sessions[session].item !in s.rows
            case Ok(n) =>
              && session in s.sessions && !s.sessions[session].completed && s.sessions[session].item in s.rows
              && var id := s.sessions[session].item;
                 && n.rows == s.rows[id := s.rows[id].(ready := true, key := Some(key))]
                 && n.sessions == s.sessions[session := Session(id, true)]
  {
  }

  // ---------- content ----------

  function NameOf(kind: Kind, id: Uuid): Name {
    if kind == Artifacts then ArtifactContent(id) else PayloadContent(id)
  }

  function KeyOf(kind: Kind, id: Uuid): string {
    Path(NameOf(kind, id))
  }

  /** Artifacts and payloads are stored apart, under their own identifiers. */
  lemma KeysByKind(id: Uuid)
    ensures "artifacts/" + Keys.Text(id) == KeyOf(Artifacts, id)
    ensures "payloads/" + Keys.Text(id) <= KeyOf(Payloads, id)
  {
  }

  lemma KeysDiffer(kind: Kind, a: Uuid, b: Uuid)
    requires KeyOf(kind, a) == KeyOf(kind, b)
    ensures a == b
  {
    PathInjective(NameOf(kind, a), NameOf(kind, b));
  }

  /** What upload_artifact_content and upload_payload_content check before they store anything. */
  predicate Accepts(codec: Codec, kind: Kind, row: Row, body: Bytes) {
    && |body| <= Max(row.size, 0) + 1
    && |body| == row.size
    && (kind == Payloads ==> codec.parse(body).Some?)
    && DigestMatches(row.digest, DigestOf(codec, body))
  }

  /** Exactly the declared size, the declared hash, bare or labelled, and for payloads JSON. */
  predicate Fitting(codec: Codec, kind: Kind, row: Row, body: Bytes) {
    && |body| == row.size
    && (row.digest == codec.hash(body) || row.digest == "sha256:" + codec.hash(body))
    && (kind == Payloads ==> codec.parse(body) != None)
  }

  /** What fits is accepted, and nothing else is. */
  lemma AcceptsExactly(codec: Codec, kind: Kind, row: Row, body: Bytes)
    requires IsHex(codec.hash(body))
    ensures Accepts(codec, kind, row, body) <==> Fitting(codec, kind, row, body)
  {
    MatchesTwoForms(row.digest, codec.hash(body));
  }

  /** An upload request: checked and about to store, or stored and about to complete. */
  datatype Request =
    | Checked(session: Uuid, item: Uuid, body: Bytes)
    | Stored(session: Uuid, item: Uuid)

  /** The shelf and the bucket of one kind, and every upload request in flight. */
  datatype Pipe = Pipe(kind: Kind, shelf: Shelf, store: map<string, Bytes>, requests: map<Uuid, Request>)

  datatype Event =
    | Create(id: Uuid, session: Uuid, tenant: Uuid, digest: string, size: int, runtime: Option<Runtime>)
    | Check(request: Uuid, session: Uuid, body: Bytes)
    | Put(request: Uuid)
    | Finish(request: Uuid)
    | Crash(request: Uuid)
    | Foreign(name: Name, body: Bytes)

  /** Generated ids are fresh, a request does its steps in order, and other writers use other names. */
  ghost predicate Enabled(p: Pipe, e: Event) {
    match e
    case Create(id, session, _, _, _, _) => id !in p.shelf.rows && session !in p.shelf.sessions
    case Check(request, _, _) => request !in p.requests
    case Put(request) => request in p.requests && p.requests[request].Checked?
    case Finish(request) => request in p.requests && p.requests[request].Stored?
    case Crash(request) => request in p.requests
    case Foreign(name, _) => !name.ArtifactContent? && !name.PayloadContent?
  }

  function OnShelf(shelf: Shelf, r: Result<Shelf>): Shelf {
    if r.Ok? then r.value else shelf
  }

  function Step(codec: Codec, p: Pipe, e: Event): Pipe {
    match e
    case Create(id, session, tenant, digest, size, runtime) =>
      p.(shelf := OnShelf(p.shelf, CreateUpload(p.shelf, id, session, tenant, digest, size, runtime)))
    case Check(request, session, body) =>
      if session in p.shelf.sessions && p.shelf.sessions[session].item in p.shelf.rows &&
         Accepts(codec, p.kind, p.shelf.rows[p.shelf.sessions[session].item], body)
      then p.(requests := p.requests[request := Checked(session, p.shelf.sessions[session].item, body)])
      else p
    case Put(request) =>
      if request in p.requests && p.requests[request].Checked? then
        var r := p.requests[request];
        p.(store := p.store[KeyOf(p.kind, r.item) := r.body],
           requests := p.requests[request := Stored(r.session, r.item)])
      else p
    case Finish(request) =>
      if request in p.requests && p.requests[request].Stored? then
        var r := p.requests[request];
        p.(shelf := OnShelf(p.shelf, CompleteUpload(p.shelf, r.session, KeyOf(p.kind, r.item))),
           requests := p.requests - {request})
      else p
    case Crash(request) => p.(requests := p.requests - {request})
    case Foreign(name, body) => p.(store := p.store[Path(name) := body])
  }

  type Run = seq<Event>

  ghost predicate Feasible(codec: Codec, p: Pipe, run: Run)
    decreases |run|
  {
    run == [] || (Enabled(p, run[0]) && Feasible(codec, Step(codec, p, run[0]), run[1..]))
  }

  function After(codec: Codec, p: Pipe, run: Run): Pipe
    decreases |run|
  {
    if run == [] then p else After(codec, Step(codec, p, run[0]), run[1..])
  }

  function Empty(kind: Kind): Pipe {
    Pipe(kind, Shelf(map[], map[]), map[], map[])
  }

  // ---------- the invariant ----------

  /** Ready, keyed and completed are one thing. */
  ghost predicate RowsTell(kind: Kind, shelf: Shelf) {
    && (forall id <- shelf.rows :: shelf.rows[id].key == if shelf.rows[id].ready then Some(KeyOf(kind, id)) else None)
    && (forall s <- shelf.sessions :: var session := shelf.sessions[s];
          session.item in shelf.rows && (session.completed <==> shelf.rows[session.item].ready))
    && (forall s <- shelf.sessions, t <- shelf.sessions :: shelf.sessions[s].item == shelf.sessions[t].item ==> s == t)
    && (forall id <- shelf.rows :: exists s <- shelf.sessions :: shelf.sessions[s].item == id)
  }

  ghost predicate DigestsUnique(s: Shelf) {
    forall a <- s.rows, b <- s.rows :: s.rows[a].digest == s.rows[b].digest ==> a == b
  }

  /** Whatever lies under an object's key was accepted for that object. */
  ghost predicate ContentChecked(codec: Codec, p: Pipe) {
    && (forall id: Uuid :: KeyOf(p.kind, id) in p.store ==>
          id in p.shelf.rows && Accepts(codec, p.kind, p.shelf.rows[id], p.store[KeyOf(p.kind, id)]))
    && (forall id <- p.shelf.rows :: p.shelf.rows[id].ready ==> KeyOf(p.kind, id) in p.store)
  }

  ghost predicate RequestsChecked(codec: Codec, p: Pipe) {
    forall r <- p.requests :: RequestChecked(codec, p, p.requests[r])
  }

  ghost predicate Inv(codec: Codec, p: Pipe) {
    RowsTell(p.kind, p.shelf) && DigestsUnique(p.shelf) && ContentChecked(codec, p) && RequestsChecked(codec, p)
  }

  /** A row changes only by becoming ready. */
  predicate Matured(a: Row, b: Row) {
    b == a.(ready := b.ready, key := b.key) && (a.ready ==> b == a)
  }

  ghost predicate Grown(a: Shelf, b: Shelf) {
    forall id <- a.rows :: id in b.rows && Matured(a.rows[id], b.rows[id])
  }

  lemma CreatedTells(kind: Kind, shelf: Shelf, id: Uuid, session: Uuid, row: Row)
    requires RowsTell(kind, shelf) && id !in shelf.rows && session !in shelf.sessions && !row.ready && row.key == None
    ensures RowsTell(kind, Shelf(shelf.rows[id := row], shelf.sessions[session := Session(id, false)]))
  {
    var n := Shelf(shelf.rows[id := row], shelf.sessions[session := Session(id, false)]);
    forall i <- n.rows
      ensures exists s <- n.sessions :: n.sessions[s].item == i
    {
      if i == id {
        assert n.sessions[session].item == i;
      } else {
        var s :| s in shelf.sessions && shelf.sessions[s].item == i;
        assert n.sessions[s].item == i;
      }
    }
  }

  lemma CreatedGrows(shelf: Shelf, id: Uuid, session: Uuid, row: Row)
    requires DigestsUnique(shelf) && id !in shelf.rows && !DigestTaken(shelf, row.digest)
    ensures var n := Shelf(shelf.rows[id := row], shelf.sessions[session := Session(id, false)]);
            DigestsUnique(n) && Grown(shelf, n)
  {
  }

  lemma CreateRows(codec: Codec, p: Pipe, e: Event)
    requires RowsTell(p.kind, p.shelf) && DigestsUnique(p.shelf) && e.Create? && Enabled(p, e)
    ensures var n := Step(codec, p, e); RowsTell(n.kind, n.shelf) && DigestsUnique(n.shelf) && Grown(p.shelf, n.shelf)
  {
    var n := Step(codec, p, e);
    if DigestTaken(p.shelf, e.digest) {
      assert n.shelf == p.shelf;
    } else {
      var row := Row(e.tenant, e.digest, e.size, e.runtime, false, None);
      CreatedTells(p.kind, p.shelf, e.id, e.session, row);
      CreatedGrows(p.shelf, e.id, e.session, row);
    }
  }

  /** A completed upload: the row and its session change together. */
  function Completed(shelf: Shelf, session: Uuid, key: string): Shelf
    requires session in shelf.sessions && shelf.sessions[session].item in shelf.rows
  {
    var id := shelf.sessions[session].item;
    Shelf(shelf.rows[id := shelf.rows[id].(ready := true, key := Some(key))],
          shelf.sessions[session := shelf.sessions[session].(completed := true)])
  }

  lemma CompletedTells(kind: Kind, shelf: Shelf, session: Uuid)
    requires RowsTell(kind, shelf) && session in shelf.sessions && !shelf.sessions[session].completed
    ensures RowsTell(kind, Completed(shelf, session, KeyOf(kind, shelf.sessions[session].item)))
  {
    var n := Completed(shelf, session, KeyOf(kind, shelf.sessions[session].item));
    forall id <- n.rows
      ensures exists s <- n.sessions :: n.sessions[s].item == id
    {
      var s :| s in shelf.sessions && shelf.sessions[s].item == id;
      assert n.sessions[s].item == id;
    }
  }

  lemma CompletedGrows(kind: Kind, shelf: Shelf, session: Uuid, key: string)
    requires RowsTell(kind, shelf) && DigestsUnique(shelf)
    requires session in shelf.sessions && !shelf.sessions[session].completed
    ensures var n := Completed(shelf, session, key); DigestsUnique(n) && Grown(shelf, n)
  {
  }

  lemma FinishRows(codec: Codec, p: Pipe, e: Event)
    requires RowsTell(p.kind, p.shelf) && DigestsUnique(p.shelf) && RequestsChecked(codec, p)
    requires e.Finish? && Enabled(p, e)
    ensures var n := Step(codec, p, e); RowsTell(n.kind, n.shelf) && DigestsUnique(n.shelf) && Grown(p.shelf, n.shelf)
  {
    var q := p.requests[e.request];
    assert RequestChecked(codec, p, q);
    var n := Step(codec, p, e);
    if !p.shelf.sessions[q.session].completed {
      CompletedTells(p.kind, p.shelf, q.session);
      CompletedGrows(p.kind, p.shelf, q.session, KeyOf(p.kind, q.item));
      assert n.shelf == Completed(p.shelf, q.session, KeyOf(p.kind, q.item));
    } else {
      assert n.shelf == p.shelf;
    }
  }

  lemma StepRows(codec: Codec, p: Pipe, e: Event)
    requires RowsTell(p.kind, p.shelf) && DigestsUnique(p.shelf) && RequestsChecked(codec, p) && Enabled(p, e)
    ensures var n := Step(codec, p, e);
            n.kind == p.kind && RowsTell(n.kind, n.shelf) && DigestsUnique(n.shelf) && Grown(p.shelf, n.shelf)
  {
    match e
    case Create(_, _, _, _, _, _) => CreateRows(codec, p, e);
    case Finish(_) => FinishRows(codec, p, e);
    case _ => assert Step(codec, p, e).shelf == p.shelf;
  }

  lemma AcceptsMatured(codec: Codec, kind: Kind, a: Row, b: Row, body: Bytes)
    requires Matured(a, b)
    ensures Accepts(codec, kind, a, body) == Accepts(codec, kind, b, body)
  {
  }

  /** Bytes under an object's key are replaced only by bytes accepted for that same object. */
  lemma StoreStep(codec: Codec, p: Pipe, e: Event, id: Uuid)
    requires RequestsChecked(codec, p) && Enabled(p, e)
    ensures var n := Step(codec, p, e); var key := KeyOf(p.kind, id);
            && p.store.Keys <= n.store.Keys
            && (key in n.store ==>
                 (key in p.store && n.store[key] == p.store[key]) ||
                 (id in p.shelf.rows && Accepts(codec, p.kind, p.shelf.rows[id], n.store[key])))
  {
    match e
    case Put(request) =>
      var q := p.requests[request];
      if KeyOf(p.kind, q.item) == KeyOf(p.kind, id) { KeysDiffer(p.kind, q.item, id); }
    case Foreign(name, _) =>
      if Path(name) == KeyOf(p.kind, id) { PathInjective(name, NameOf(p.kind, id)); }
    case Create(_, _, _, _, _, _) =>
    case Check(_, _, _) =>
    case Finish(_) =>
    case Crash(_) =>
  }

  lemma FinishedRowsStored(codec: Codec, p: Pipe, e: Event, id: Uuid)
    requires ContentChecked(codec, p) && RequestsChecked(codec, p) && Enabled(p, e)
    requires id in Step(codec, p, e).shelf.rows && Step(codec, p, e).shelf.rows[id].ready
    ensures KeyOf(p.kind, id) in p.store
  {
    if e.Finish? {
      assert KeyOf(p.kind, p.requests[e.request].item) in p.store;
    }
  }

  lemma StepContent(codec: Codec, p: Pipe, e: Event)
    requires ContentChecked(codec, p) && RequestsChecked(codec, p) && Enabled(p, e)
    requires Step(codec, p, e).kind == p.kind && Grown(p.shelf, Step(codec, p, e).shelf)
    ensures ContentChecked(codec, Step(codec, p, e))
  {
    var n := Step(codec, p, e);
    forall id: Uuid | KeyOf(p.kind, id) in n.store
      ensures id in n.shelf.rows && Accepts(codec, p.kind, n.shelf.rows[id], n.store[KeyOf(p.kind, id)])
    {
      StoreStep(codec, p, e, id);
      AcceptsMatured(codec, p.kind, p.shelf.rows[id], n.shelf.rows[id], n.store[KeyOf(p.kind, id)]);
    }
    forall id <- n.shelf.rows | n.shelf.rows[id].ready
      ensures KeyOf(p.kind, id) in n.store
    {
      FinishedRowsStored(codec, p, e, id);
      StoreStep(codec, p, e, id);
    }
  }

  ghost predicate RequestChecked(codec: Codec, p: Pipe, q: Request) {
    && q.session in p.shelf.sessions && p.shelf.sessions[q.session].item == q.item && q.item in p.shelf.rows
    && (q.Checked? ==> Accepts(codec, p.kind, p.shelf.rows[q.item], q.body))
    && (q.Stored? ==> KeyOf(p.kind, q.item) in p.store)
  }

  lemma OldRequestStays(codec: Codec, p: Pipe, e: Event, q: Request)
    requires RequestsChecked(codec, p) && Enabled(p, e) && RequestChecked(codec, p, q)
    requires Step(codec, p, e).kind == p.kind && Grown(p.shelf, Step(codec, p, e).shelf)
    ensures RequestChecked(codec, Step(codec, p, e), q)
  {
  }

  lemma StepRequests(codec: Codec, p: Pipe, e: Event)
    requires RequestsChecked(codec, p) && Enabled(p, e)
    requires Step(codec, p, e).kind == p.kind && Grown(p.shelf, Step(codec, p, e).shelf)
    ensures RequestsChecked(codec, Step(codec, p, e))
  {
    var n := Step(codec, p, e);
    forall r <- n.requests
      ensures RequestChecked(codec, n, n.requests[r])
    {
      if r in p.requests && n.requests[r] == p.requests[r] {
        OldRequestStays(codec, p, e, p.requests[r]);
      } else if e.Put? {
        assert RequestChecked(codec, p, p.requests[r]);
      } else {
        assert e.Check?;
      }
    }
  }

  /** The joint invariant of rows, sessions, bytes and requests survives every step, crashes included. */
  lemma StepInv(codec: Codec, p: Pipe, e: Event)
    requires Inv(codec, p) && Enabled(p, e)
    ensures Inv(codec, Step(codec, p, e)) && Step(codec, p, e).kind == p.kind && Grown(p.shelf, Step(codec, p, e).shelf)
  {
    StepRows(codec, p, e);
    StepContent(codec, p, e);
    StepRequests(codec, p, e);
  }

  lemma {:induction false} RunInv(codec: Codec, p: Pipe, run: Run)
    requires Inv(codec, p) && Feasible(codec, p, run)
    ensures Inv(codec, After(codec, p, run)) && After(codec, p, run).kind == p.kind
    decreases |run|
  {
    if run == [] {
    } else {
      StepInv(codec, p, run[0]);
      RunInv(codec, Step(codec, p, run[0]), run[1..]);
    }
  }

  /** Every state that uploads, repeated and interrupted at will, reach from an empty shelf satisfies the invariant. */
  lemma Reachable(codec: Codec, kind: Kind, run: Run)
    requires Feasible(codec, Empty(kind), run)
    ensures Inv(codec, After(codec, Empty(kind), run))
  {
    EmptyInv(codec, kind);
    RunInv(codec, Empty(kind), run);
  }

  lemma EmptyInv(codec: Codec, kind: Kind)
    ensures Inv(codec, Empty(kind))
  {
  }

  // ---------- ready content ----------

  /** Ready exactly when it has a key, exactly when its session completed. */
  lemma ReadyMeansCompleted(codec: Codec, p: Pipe, id: Uuid, s: Uuid)
    requires Inv(codec, p) && id in p.shelf.rows && s in p.shelf.sessions && p.shelf.sessions[s].item == id
    ensures p.shelf.rows[id].ready <==> p.shelf.rows[id].key.Some?
    ensures p.shelf.rows[id].ready <==> p.shelf.sessions[s].completed
  {
  }

  /** Under a ready object's key lie bytes of exactly its declared size that match its declared digest. */
  lemma ReadyIsVerified(codec: Codec, p: Pipe, id: Uuid)
    requires Inv(codec, p) && id in p.shelf.rows && p.shelf.rows[id].ready
    ensures var row := p.shelf.rows[id];
            && row.key.Some? && row.key.value in p.store
            && |p.store[row.key.value]| == row.size
            && DigestMatches(row.digest, DigestOf(codec, p.store[row.key.value]))
            && (p.kind == Payloads ==> codec.parse(p.store[row.key.value]).Some?)
  {
    assert KeyOf(p.kind, id) in p.store;
  }

  lemma ContentStays(codec: Codec, p: Pipe, e: Event, id: Uuid)
    requires Inv(codec, p) && Enabled(p, e) && Sensible(codec) && CollisionFree(codec)
    requires KeyOf(p.kind, id) in p.store
    ensures var key := KeyOf(p.kind, id); key in Step(codec, p, e).store && Step(codec, p, e).store[key] == p.store[key]
  {
    StoreStep(codec, p, e, id);
    var key := KeyOf(p.kind, id);
    var n := Step(codec, p, e);
    if n.store[key] != p.store[key] {
      assert Accepts(codec, p.kind, p.shelf.rows[id], p.store[key]);
      SameDigestSameBytes(codec, p.shelf.rows[id].digest, p.store[key], n.store[key]);
    }
  }

  /** Once ready, an object keeps its row, and given a collision-free hash its content, in every later state. */
  lemma {:induction false} ReadyForever(codec: Codec, p: Pipe, run: Run, id: Uuid)
    requires Inv(codec, p) && Feasible(codec, p, run) && id in p.shelf.rows && p.shelf.rows[id].ready
    ensures var n := After(codec, p, run);
            && Inv(codec, n) && n.kind == p.kind && id in n.shelf.rows && n.shelf.rows[id] == p.shelf.rows[id]
            && p.shelf.rows[id].key.Some?
            && p.shelf.rows[id].key.value in p.store && p.shelf.rows[id].key.value in n.store
            && (Sensible(codec) && CollisionFree(codec) ==>
                  n.store[p.shelf.rows[id].key.value] == p.store[p.shelf.rows[id].key.value])
    decreases |run|
  {
    ReadyIsVerified(codec, p, id);
    if run == [] {
    } else {
      StepInv(codec, p, run[0]);
      if Sensible(codec) && CollisionFree(codec) {
        ContentStays(codec, p, run[0], id);
      }
      ReadyForever(codec, Step(codec, p, run[0]), run[1..], id);
    }
  }

  ghost predicate ReadyWith(p: Pipe, id: Uuid, body: Bytes) {
    id in p.shelf.rows && p.shelf.rows[id].ready && KeyOf(p.kind, id) in p.store && p.store[KeyOf(p.kind, id)] == body
  }

  lemma ReadyDigest(codec: Codec, p: Pipe, id: Uuid, body: Bytes)
    requires ContentChecked(codec, p) && Sensible(codec) && ReadyWith(p, id, body)
    ensures p.shelf.rows[id].digest == codec.hash(body) || p.shelf.rows[id].digest == DigestOf(codec, body)
  {
    MatchesTwoForms(p.shelf.rows[id].digest, codec.hash(body));
  }

  /** At most two ready objects have one content: the digest declared with its label, and without. */
  lemma AtMostTwoAlike(codec: Codec, p: Pipe, a: Uuid, b: Uuid, c: Uuid, body: Bytes)
    requires Inv(codec, p) && Sensible(codec)
    requires ReadyWith(p, a, body) && ReadyWith(p, b, body) && ReadyWith(p, c, body)
    ensures a == b || b == c || a == c
  {
    ReadyDigest(codec, p, a, body);
    ReadyDigest(codec, p, b, body);
    ReadyDigest(codec, p, c, body);
  }

  // ---------- an upload can always be done ----------

  function FirstUpload(id: Uuid, session: Uuid, request: Uuid, row: Row, body: Bytes): Run {
    [Create(id, session, row.tenant, row.digest, row.size, row.runtime), Check(request, session, body), Put(request),
     Finish(request)]
  }

  /** With a digest not yet in use, a body that fits is created, uploaded and made ready, whatever else is stored. */
  lemma UploadSucceeds(codec: Codec, p: Pipe, id: Uuid, session: Uuid, request: Uuid, row: Row, body: Bytes)
    requires id !in p.shelf.rows && session !in p.shelf.sessions && request !in p.requests && IsHex(codec.hash(body))
    requires (forall i <- p.shelf.rows :: p.shelf.rows[i].digest != row.digest) && Fitting(codec, p.kind, row, body)
    ensures var run := FirstUpload(id, session, request, row, body); var n := After(codec, p, run);
            && Feasible(codec, p, run) && id in n.shelf.rows && n.shelf.rows[id].ready
            && n.shelf.rows[id].key == Some(KeyOf(p.kind, id))
            && KeyOf(p.kind, id) in n.store && n.store[KeyOf(p.kind, id)] == body
  {
    CreateAnswers(p.shelf, id, session, row.tenant, row.digest, row.size, row.runtime);
    var run := FirstUpload(id, session, request, row, body);
    var a := Step(codec, p, run[0]);
    assert a.shelf.rows[id].digest == row.digest && a.shelf.rows[id].size == row.size;
    AcceptsExactly(codec, p.kind, a.shelf.rows[id], body);
    var b := a.(requests := a.requests[request := Checked(session, id, body)]);
    assert Step(codec, a, run[1]) == b;
    var c := Step(codec, b, run[2]);
    CompleteAnswers(c.shelf, session, KeyOf(p.kind, id));
    FourSteps(codec, p, run);
  }

  /** Four events, one by one. */
  lemma FourSteps(codec: Codec, p: Pipe, run: Run)
    requires |run| == 4
    ensures var a := Step(codec, p, run[0]);
            var b := Step(codec, a, run[1]);
            var c := Step(codec, b, run[2]);
            && After(codec, p, run) == Step(codec, c, run[3])
            && (Feasible(codec, p, run) <==>
                  Enabled(p, run[0]) && Enabled(a, run[1]) && Enabled(b, run[2]) && Enabled(c, run[3]))
  {
    assert run[1..][0] == run[1] && run[1..][1..] == run[2..];
    assert run[2..][0] == run[2] && run[2..][1..] == run[3..];
    assert run[3..][0] == run[3] && run[3..][1..] == [];
    var a := Step(codec, p, run[0]);
    var b := Step(codec, a, run[1]);
    var c := Step(codec, b, run[2]);
    assert After(codec, c, run[3..]) == Step(codec, c, run[3]);
    assert After(codec, b, run[2..]) == Step(codec, c, run[3]);
    assert Feasible(codec, c, run[3..]) <==> Enabled(c, run[3]);
    assert Feasible(codec, b, run[2..]) <==> Enabled(b, run[2]) && Enabled(c, run[3]);
  }
}
