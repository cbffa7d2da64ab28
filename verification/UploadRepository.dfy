/** The artifact and payload repositories, whose statements are the same, and the handler that uploads through them. */
module UploadRepositories {
  import opened Common
  import opened Digests
  import opened Uploads

  /** What an upload request is answered. */
  datatype Reply = Accepted(row: Row) | NotFoundReply | BadRequest | ConflictReply | ServerError

  class UploadRepository {
    const kind: Kind
    var rows: map<Uuid, Row>
    var sessions: map<Uuid, Session>
    var store: map<string, Bytes>

    function Contents(): Shelf
      reads this
    {
      Shelf(rows, sessions)
    }

    constructor (kind: Kind)
      ensures this.kind == kind && Contents() == Shelf(map[], map[]) && store == map[]
    {
      this.kind := kind;
      rows, sessions, store := map[], map[], map[];
    }

    method CreateUpload(id: Uuid, session: Uuid, tenant: Uuid, digest: string, size: int, runtime: Option<Runtime>)
      returns (r: Result<Session>)
      modifies this`rows, this`sessions
      ensures match Uploads.CreateUpload(old(Contents()), id, session, tenant, digest, size, runtime)
              case Ok(shelf) => r == Ok(Session(id, false)) && Contents() == shelf
              case Err(e) => r == Err(e) && Contents() == old(Contents())
    {
      if exists i :: i in rows && rows[i].digest == digest {
        return Err(Conflict("digest already exists"));
      }
      if id in rows {
        return Err(DatabaseError("unique constraint"));
      }
      var before := rows;
      rows := rows[id := Row(tenant, digest, size, runtime, false, None)];
      if session in sessions {
        rows := before;  // the transaction rolls back
        return Err(DatabaseError("unique constraint"));
      }
      sessions := sessions[session := Session(id, false)];
      r := Ok(sessions[session]);
    }

    method CompleteUpload(session: Uuid, key: string) returns (r: Result<Row>)
      modifies this`rows, this`sessions
      ensures match Uploads.CompleteUpload(old(Contents()), session, key)
              case Ok(shelf) =>
                && Contents() == shelf && session in shelf.sessions
                && shelf.sessions[session].item in shelf.rows && r == Ok(shelf.rows[shelf.sessions[session].item])
              case Err(e) => r == Err(e) && Contents() == old(Contents())
    {
      if session !in sessions {
        return Err(NotFound);
      }
      if sessions[session].completed {
        return Err(Conflict("upload session is no longer pending"));
      }
      var id := sessions[session].item;
      if id !in rows {
        return Err(DatabaseError("no row returned"));
      }
      rows := rows[id := rows[id].(ready := true, key := Some(key))];
      sessions := sessions[session := sessions[session].(completed := true)];
      r := Ok(rows[id]);
    }

    /**
     * The upload handler run without interruption. The bytes are stored before the session is looked at again, so a
     * repeated upload of accepted bytes rewrites the object and is then refused.
     */
    method Upload(codec: Codec, session: Uuid, body: Bytes) returns (reply: Reply)
      modifies this`rows, this`sessions, this`store
      ensures reply == NotFoundReply <==>
                !(session in old(sessions) && old(sessions)[session].item in old(rows))
      ensures reply == BadRequest <==>
                session in old(sessions) && old(sessions)[session].item in old(rows) &&
                !Accepts(codec, kind, old(rows)[old(sessions)[session].item], body)
      ensures reply == NotFoundReply || reply == BadRequest ==> store == old(store) && Contents() == old(Contents())
      ensures reply != NotFoundReply && reply != BadRequest ==>
                var id := old(sessions)[session].item;
                && store == old(store)[KeyOf(kind, id) := body]
                && if old(sessions)[session].completed
                   then reply == ConflictReply && Contents() == old(Contents())
                   else reply == Accepted(old(rows)[id].(ready := true, key := Some(KeyOf(kind, id)))) &&
                        Uploads.CompleteUpload(old(Contents()), session, KeyOf(kind, id)) == Ok(Contents())
      ensures IsHex(codec.hash(body)) && session in old(sessions) && old(sessions)[session].item in old(rows) ==>
                var row, done := old(rows)[old(sessions)[session].item], old(sessions)[session].completed;
                && (reply == BadRequest <==> !Fitting(codec, kind, row, body))
                && (reply.Accepted? <==> Fitting(codec, kind, row, body) && !done)
                && (reply == ConflictReply <==> Fitting(codec, kind, row, body) && done)
      ensures reply.Accepted? ==>
                var id, key := old(sessions)[session].item, KeyOf(kind, old(sessions)[session].item);
                && id in rows && rows[id].ready && rows[id].key == Some(key) && key in store && store[key] == body
                && session in sessions && sessions[session].completed
    {
      if session !in sessions {
        return NotFoundReply;
      }
      var id := sessions[session].item;
      if id !in rows {
        return NotFoundReply;
      }
      if IsHex(codec.hash(body)) { AcceptsExactly(codec, kind, rows[id], body); }
      if !Accepts(codec, kind, rows[id], body) {
        return BadRequest;
      }
      var key := KeyOf(kind, id);
      store := store[key := body];
      var done := CompleteUpload(session, key);
      match done {
        case Ok(row) => reply := Accepted(row);
        case Err(Conflict(_)) => reply := ConflictReply;
        case Err(NotFound) => reply := NotFoundReply;
        case Err(DatabaseError(_)) => reply := ServerError;
      }
    }
  }

  /** Unhindered, an upload is one check, one put and one finish of the pipeline, each possible in turn. */
  lemma UploadIsThreeSteps(codec: Codec, p: Pipe, request: Uuid, session: Uuid, body: Bytes)
    requires request !in p.requests && session in p.shelf.sessions
    requires p.shelf.sessions[session].item in p.shelf.rows
    requires Accepts(codec, p.kind, p.shelf.rows[p.shelf.sessions[session].item], body)
    ensures var key := KeyOf(p.kind, p.shelf.sessions[session].item);
            var checked := Step(codec, p, Check(request, session, body));
            var stored := Step(codec, checked, Put(request));
            && Enabled(p, Check(request, session, body))
            && Enabled(checked, Put(request)) && Enabled(stored, Finish(request))
            && Step(codec, stored, Finish(request)) ==
                 p.(store := p.store[key := body],
                    shelf := OnShelf(p.shelf, Uploads.CompleteUpload(p.shelf, session, key)))
  {
  }
}
