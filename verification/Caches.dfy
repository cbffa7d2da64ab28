/** The executors' artifact cache: staged, unpacked entry by entry, and published by one rename. */
module Caches {
  import opened Common
  import opened Files
  import Keys
  import Digests
  import Uploads

  const CACHE_ROOT: Path := ["tmp", "helixis", "cache", "artifacts"]

  function CacheDir(id: Uuid): Path {
    CACHE_ROOT + [Keys.Text(id)]
  }

  /** The staging name is built from the object key, whose slash makes it lie one folder deeper. */
  function StagingDir(id: Uuid, nonce: Uuid): Path {
    CACHE_ROOT + ["artifacts", Keys.Text(id) + ".staging-" + Keys.Text(nonce)]
  }

  lemma StagingApartFromCache(id: Uuid, nonce: Uuid, other: Uuid)
    ensures Apart(StagingDir(id, nonce), CacheDir(other)) && Apart(CacheDir(other), StagingDir(id, nonce))
  {
    assert StagingDir(id, nonce)[4] == "artifacts" && CacheDir(other)[4] == Keys.Text(other);
    assert |"artifacts"| != |Keys.Text(other)|;
  }

  lemma CachesApart(a: Uuid, b: Uuid)
    requires a != b
    ensures Apart(CacheDir(a), CacheDir(b))
  {
    assert CacheDir(a)[4] == Keys.Text(a) && CacheDir(b)[4] == Keys.Text(b);
    if Keys.Text(a) == Keys.Text(b) { Keys.TextInjective(a, b); }
  }

  lemma StagingsApart(a: Uuid, x: Uuid, b: Uuid, y: Uuid)
    requires x != y
    ensures Apart(StagingDir(a, x), StagingDir(b, y))
  {
    var s, t := Keys.Text(a) + ".staging-" + Keys.Text(x), Keys.Text(b) + ".staging-" + Keys.Text(y);
    assert StagingDir(a, x)[5] == s && StagingDir(b, y)[5] == t;
    if s == t {
      assert s[45..] == Keys.Text(x) && t[45..] == Keys.Text(y);
      Keys.TextInjective(x, y);
    }
  }

  /** Where a downloader stands after it missed the cache. */
  datatype Download =
    | Fetching(id: Uuid)
    | Fetched(id: Uuid, body: Bytes)
    | Unpacking(id: Uuid, body: Bytes, nonce: Uuid, done: nat)
    | Clearing(id: Uuid, nonce: Uuid)

  /** The artifact pipeline, the executor's file system, and the downloads under way. */
  datatype System = System(pipe: Uploads.Pipe, fs: Tree, downloads: map<Uuid, Download>)

  /** Torn, Begun and Wiped are crashes part-way: through writing an entry, making the staging folder, removing it. */
  datatype Event =
    | Upload(event: Uploads.Event)
    | Start(who: Uuid, id: Uuid)
    | Get(who: Uuid)
    | Stage(who: Uuid, nonce: Uuid)
    | UnpackNext(who: Uuid)
    | Publish(who: Uuid)
    | Clear(who: Uuid)
    | Crash(who: Uuid)
    | Torn(who: Uuid, junk: Tree)
    | Begun(who: Uuid, nonce: Uuid, made: set<Path>)
    | Wiped(who: Uuid, gone: set<Path>)

  /** A gzipped tar archive, as the entries it yields. */
  type Unarchive = Bytes -> seq<Entry>

  function KeyOf(id: Uuid): string {
    Uploads.KeyOf(Uploads.Artifacts, id)
  }

  ghost predicate NewNonce(s: System, id: Uuid, nonce: Uuid) {
    && (forall k <- s.fs :: !(StagingDir(id, nonce) <= k))
    && (forall d <- s.downloads :: Staging(s.downloads[d]) ==> s.downloads[d].nonce != nonce)
  }

  ghost predicate Enabled(u: Unarchive, s: System, e: Event) {
    match e
    case Upload(event) => Uploads.Enabled(s.pipe, event)
    case Start(who, id) => who !in s.downloads && id in s.pipe.shelf.rows && s.pipe.shelf.rows[id].key.Some?
    case Get(who) => who in s.downloads && s.downloads[who].Fetching?
    case Stage(who, nonce) =>
      && who in s.downloads && s.downloads[who].Fetched?
      && NewNonce(s, s.downloads[who].id, nonce)
    case UnpackNext(who) =>
      who in s.downloads && s.downloads[who].Unpacking? && s.downloads[who].done < |u(s.downloads[who].body)|
    case Publish(who) =>
      who in s.downloads && s.downloads[who].Unpacking? && s.downloads[who].done == |u(s.downloads[who].body)|
    case Clear(who) => who in s.downloads && s.downloads[who].Clearing?
    case Crash(who) => who in s.downloads
    case Torn(who, junk) => who in s.downloads && s.downloads[who].Unpacking? && [] !in junk
    case Begun(who, nonce, _) =>
      who in s.downloads && s.downloads[who].Fetched? && NewNonce(s, s.downloads[who].id, nonce)
    case Wiped(who, _) => who in s.downloads && s.downloads[who].Clearing?
  }

  function Goto(s: System, who: Uuid, d: Download): System {
    s.(downloads := s.downloads[who := d])
  }

  function Gone(s: System, who: Uuid): System {
    s.(downloads := s.downloads - {who})
  }

  /** Whether a rename onto this folder succeeds: the name is free, or held by an empty folder. */
  predicate Free(fs: Tree, dir: Path) {
    Below(fs, dir) == map[] && (dir in fs ==> fs[dir].Folder?)
  }

  function Step(codec: Digests.Codec, u: Unarchive, s: System, e: Event): System {
    match e
    case Upload(event) => s.(pipe := Uploads.Step(codec, s.pipe, event))
    case Start(who, id) => if CacheDir(id) in s.fs then s else Goto(s, who, Fetching(id))
    case Get(who) =>
      if who in s.downloads && s.downloads[who].Fetching? && KeyOf(s.downloads[who].id) in s.pipe.store
      then Goto(s, who, Fetched(s.downloads[who].id, s.pipe.store[KeyOf(s.downloads[who].id)]))
      else Gone(s, who)
    case Stage(who, nonce) =>
      if who in s.downloads && s.downloads[who].Fetched? then
        var d := s.downloads[who];
        Goto(s.(fs := MakeFolders(s.fs, StagingDir(d.id, nonce))), who, Unpacking(d.id, d.body, nonce, 0))
      else s
    case UnpackNext(who) =>
      if who in s.downloads && s.downloads[who].Unpacking? && s.downloads[who].done < |u(s.downloads[who].body)| then
        var d := s.downloads[who];
        match WriteEntry(s.fs, StagingDir(d.id, d.nonce), u(d.body)[d.done])
        case None => Gone(s, who)  // the error leaves the staging folder behind
        case Some(fs) => Goto(s.(fs := fs), who, d.(done := d.done + 1))
      else s
    case Publish(who) =>
      if who in s.downloads && s.downloads[who].Unpacking? then
        var d := s.downloads[who];
        if Free(s.fs, CacheDir(d.id))
        then Gone(s.(fs := Move(s.fs, StagingDir(d.id, d.nonce), CacheDir(d.id))), who)
        else Goto(s, who, Clearing(d.id, d.nonce))
      else s
    case Clear(who) =>
      if who in s.downloads && s.downloads[who].Clearing?
      then Gone(s.(fs := Without(s.fs, StagingDir(s.downloads[who].id, s.downloads[who].nonce))), who)
      else s
    case Crash(who) => Gone(s, who)
    case Torn(who, junk) =>
      if who in s.downloads && s.downloads[who].Unpacking?
      then Gone(s.(fs := s.fs + Shift(StagingDir(s.downloads[who].id, s.downloads[who].nonce), junk)), who)
      else s
    case Begun(who, nonce, made) =>
      if who in s.downloads
      then Gone(s.(fs := MakeSome(s.fs, StagingDir(s.downloads[who].id, nonce), made)), who)
      else s
    case Wiped(who, gone) =>
      if who in s.downloads && s.downloads[who].Clearing?
      then Gone(s.(fs := Pruned(s.fs, StagingDir(s.downloads[who].id, s.downloads[who].nonce), gone)), who)
      else s
  }

  type Run = seq<Event>

  ghost predicate Feasible(codec: Digests.Codec, u: Unarchive, s: System, run: Run)
    decreases |run|
  {
    run == [] || (Enabled(u, s, run[0]) && Feasible(codec, u, Step(codec, u, s, run[0]), run[1..]))
  }

  function After(codec: Digests.Codec, u: Unarchive, s: System, run: Run): System
    decreases |run|
  {
    if run == [] then s else After(codec, u, Step(codec, u, s, run[0]), run[1..])
  }

  // ---------- the invariant ----------

  /** The bytes of an artifact that was fetched: still what is stored for it. */
  ghost predicate Current(s: System, id: Uuid, body: Bytes) {
    && id in s.pipe.shelf.rows && s.pipe.shelf.rows[id].ready
    && KeyOf(id) in s.pipe.store && s.pipe.store[KeyOf(id)] == body
  }

  /** A cached artifact is the full unpacking of what is stored for it. */
  ghost predicate Faithful(u: Unarchive, s: System, id: Uuid) {
    CacheDir(id) in s.fs ==>
      && s.fs[CacheDir(id)] == Folder && id in s.pipe.shelf.rows && s.pipe.shelf.rows[id].ready
      && KeyOf(id) in s.pipe.store
      && Unpack(u(s.pipe.store[KeyOf(id)])) == Some(Below(s.fs, CacheDir(id)))
  }

  ghost predicate DownloadGood(u: Unarchive, s: System, d: Download) {
    match d
    case Fetching(id) => id in s.pipe.shelf.rows && s.pipe.shelf.rows[id].ready
    case Fetched(id, body) => Current(s, id, body)
    case Unpacking(id, body, nonce, done) =>
      && Current(s, id, body) && done <= |u(body)|
      && Unpack(u(body)[..done]) == Some(Below(s.fs, StagingDir(id, nonce)))
    case Clearing(_, _) => true
  }

  predicate Staging(d: Download) {
    d.Unpacking? || d.Clearing?
  }

  ghost predicate NoncesDiffer(s: System) {
    forall a <- s.downloads, b <- s.downloads ::
      Staging(s.downloads[a]) && Staging(s.downloads[b]) && s.downloads[a].nonce == s.downloads[b].nonce ==> a == b
  }

  ghost predicate CachesFaithful(u: Unarchive, s: System) {
    forall id: Uuid :: Faithful(u, s, id)
  }

  ghost predicate DownloadsGood(u: Unarchive, s: System) {
    forall d <- s.downloads :: DownloadGood(u, s, s.downloads[d])
  }

  ghost predicate Inv(codec: Digests.Codec, u: Unarchive, s: System) {
    && s.pipe.kind == Uploads.Artifacts && Uploads.Inv(codec, s.pipe)
    && NoncesDiffer(s) && CachesFaithful(u, s) && DownloadsGood(u, s)
  }

  // ---------- steps that change only one staging folder ----------

  /** Outside one staging folder, the two file systems show the same. */
  ghost predicate OnlyWithin(fs: Tree, n: Tree, dir: Path) {
    forall other :: Apart(dir, other) ==> SameAt(fs, n, other)
  }

  lemma CachesUntouched(u: Unarchive, s: System, n: System, id: Uuid, nonce: Uuid)
    requires CachesFaithful(u, s) && n.pipe == s.pipe && OnlyWithin(s.fs, n.fs, StagingDir(id, nonce))
    ensures CachesFaithful(u, n)
  {
    forall other: Uuid
      ensures Faithful(u, n, other)
    {
      StagingApartFromCache(id, nonce, other);
      assert Faithful(u, s, other);
    }
  }

  lemma OthersUntouched(u: Unarchive, s: System, n: System, d: Download, id: Uuid, nonce: Uuid)
    requires DownloadGood(u, s, d) && n.pipe == s.pipe && OnlyWithin(s.fs, n.fs, StagingDir(id, nonce))
    requires d.Unpacking? ==> d.nonce != nonce
    ensures DownloadGood(u, n, d)
  {
    if d.Unpacking? {
      StagingsApart(id, nonce, d.id, d.nonce);
    }
  }

  /** A step that touches one download and its staging folder keeps everything else. */
  lemma OneDownload(codec: Digests.Codec, u: Unarchive, s: System, n: System, who: Uuid, id: Uuid, nonce: Uuid)
    requires Inv(codec, u, s) && n.pipe == s.pipe && OnlyWithin(s.fs, n.fs, StagingDir(id, nonce))
    requires forall d <- n.downloads :: d != who ==> d in s.downloads && n.downloads[d] == s.downloads[d]
    requires forall d <- s.downloads :: d != who && Staging(s.downloads[d]) ==> s.downloads[d].nonce != nonce
    requires who in n.downloads ==> DownloadGood(u, n, n.downloads[who])
    requires who in n.downloads && Staging(n.downloads[who]) ==> n.downloads[who].nonce == nonce
    ensures Inv(codec, u, n)
  {
    CachesUntouched(u, s, n, id, nonce);
    forall d <- n.downloads
      ensures DownloadGood(u, n, n.downloads[d])
    {
      if d != who {
        assert DownloadGood(u, s, s.downloads[d]);
        OthersUntouched(u, s, n, s.downloads[d], id, nonce);
      }
    }
  }

  lemma InsideWithin(fs: Tree, n: Tree, dir: Path)
    requires InsideOnly(fs, n, dir)
    ensures OnlyWithin(fs, n, dir)
  {
    forall other | Apart(dir, other)
      ensures SameAt(fs, n, other)
    {
      forall k | other <= k
        ensures (k in n <==> k in fs) && (k in fs ==> n[k] == fs[k])
      {
        NoCommonPath(dir, other, k);
      }
      SameBelow(fs, n, other);
    }
  }

  lemma ShiftWithin(fs: Tree, dir: Path, t: Tree)
    ensures OnlyWithin(fs, fs + Shift(dir, t), dir)
  {
    forall other | Apart(dir, other)
      ensures SameAt(fs, fs + Shift(dir, t), other)
    {
      ShiftElsewhere(fs, dir, t, other);
    }
  }

  lemma MakeWithin(fs: Tree, dir: Path)
    ensures OnlyWithin(fs, MakeFolders(fs, dir), dir)
  {
    forall other | Apart(dir, other)
      ensures SameAt(fs, MakeFolders(fs, dir), other)
    {
      MakeElsewhere(fs, dir, other);
    }
  }

  lemma WithoutWithin(fs: Tree, dir: Path)
    ensures OnlyWithin(fs, Without(fs, dir), dir)
  {
    forall other | Apart(dir, other)
      ensures SameAt(fs, Without(fs, dir), other)
    {
      WithoutElsewhere(fs, dir, other);
    }
  }

  // ---------- the steps ----------

  lemma StageKeeps(codec: Digests.Codec, u: Unarchive, s: System, who: Uuid, nonce: Uuid)
    requires Inv(codec, u, s) && Enabled(u, s, Stage(who, nonce))
    ensures Inv(codec, u, Step(codec, u, s, Stage(who, nonce)))
  {
    StagedGood(codec, u, s, who, nonce);
    OneDownload(codec, u, s, Step(codec, u, s, Stage(who, nonce)), who, s.downloads[who].id, nonce);
  }

  lemma StagedGood(codec: Digests.Codec, u: Unarchive, s: System, who: Uuid, nonce: Uuid)
    requires DownloadsGood(u, s) && Enabled(u, s, Stage(who, nonce))
    ensures var d := s.downloads[who]; var n := Step(codec, u, s, Stage(who, nonce));
            && n == s.(fs := n.fs, downloads := s.downloads[who := Unpacking(d.id, d.body, nonce, 0)])
            && OnlyWithin(s.fs, n.fs, StagingDir(d.id, nonce)) && DownloadGood(u, n, n.downloads[who])
  {
    var d := s.downloads[who];
    MakeWithin(s.fs, StagingDir(d.id, nonce));
    MakeFresh(s.fs, StagingDir(d.id, nonce));
    assert DownloadGood(u, s, d);
    assert u(d.body)[..0] == [];
  }

  lemma UnpackOneMore(entries: seq<Entry>, done: nat, t: Tree)
    requires done < |entries| && Unpack(entries[..done]) == Some(t)
    ensures Unpack(entries[..done + 1]) == WriteEntry(t, [], entries[done])
  {
    var more := entries[..done + 1];
    assert more[..|more| - 1] == entries[..done];
  }

  lemma UnpackKeeps(codec: Digests.Codec, u: Unarchive, s: System, who: Uuid)
    requires Inv(codec, u, s) && Enabled(u, s, UnpackNext(who))
    ensures Inv(codec, u, Step(codec, u, s, UnpackNext(who)))
  {
    var d := s.downloads[who];
    UnpackedGood(codec, u, s, who);
    OneDownload(codec, u, s, Step(codec, u, s, UnpackNext(who)), who, d.id, d.nonce);
  }

  lemma UnpackedGood(codec: Digests.Codec, u: Unarchive, s: System, who: Uuid)
    requires DownloadsGood(u, s) && Enabled(u, s, UnpackNext(who))
    ensures var d := s.downloads[who]; var n := Step(codec, u, s, UnpackNext(who));
            && n.pipe == s.pipe && OnlyWithin(s.fs, n.fs, StagingDir(d.id, d.nonce))
            && (n.downloads == s.downloads - {who} ||
                (n.downloads == s.downloads[who := d.(done := d.done + 1)] && DownloadGood(u, n, n.downloads[who])))
  {
    var d := s.downloads[who];
    var dir := StagingDir(d.id, d.nonce);
    var entry := u(d.body)[d.done];
    assert DownloadGood(u, s, d);
    UnpackLinkFree(u(d.body)[..d.done]);
    UnpackOneMore(u(d.body), d.done, Below(s.fs, dir));
    WriteBelow(s.fs, dir, entry);
    if WriteEntry(s.fs, dir, entry).Some? {
      WriteConfined(s.fs, dir, entry);
      InsideWithin(s.fs, WriteEntry(s.fs, dir, entry).value, dir);
    }
  }

  lemma PublishKeeps(codec: Digests.Codec, u: Unarchive, s: System, who: Uuid)
    requires Inv(codec, u, s) && Enabled(u, s, Publish(who))
    ensures Inv(codec, u, Step(codec, u, s, Publish(who)))
  {
    var d := s.downloads[who];
    var n := Step(codec, u, s, Publish(who));
    assert DownloadGood(u, s, d);
    if Free(s.fs, CacheDir(d.id)) {
      assert u(d.body)[..|u(d.body)|] == u(d.body);
      PublishedFaithful(u, s, n, d);
      forall k <- n.downloads
        ensures DownloadGood(u, n, n.downloads[k])
      {
        assert DownloadGood(u, s, s.downloads[k]);
        PublishedOthers(u, s, n, d, s.downloads[k]);
      }
    } else {
      OneDownload(codec, u, s, n, who, d.id, d.nonce);
    }
  }

  lemma PublishedFaithful(u: Unarchive, s: System, n: System, d: Download)
    requires CachesFaithful(u, s) && d.Unpacking? && DownloadGood(u, s, d) && u(d.body)[..d.done] == u(d.body)
    requires n.pipe == s.pipe && n.fs == Move(s.fs, StagingDir(d.id, d.nonce), CacheDir(d.id))
    ensures CachesFaithful(u, n)
  {
    var from, to := StagingDir(d.id, d.nonce), CacheDir(d.id);
    forall id: Uuid
      ensures Faithful(u, n, id)
    {
      StagingApartFromCache(d.id, d.nonce, id);
      if id == d.id {
        MoveShows(s.fs, from, to);
      } else {
        CachesApart(d.id, id);
        MoveElsewhere(s.fs, from, to, CacheDir(id));
        assert Faithful(u, s, id);
      }
    }
  }

  lemma PublishedOthers(u: Unarchive, s: System, n: System, d: Download, other: Download)
    requires d.Unpacking? && DownloadGood(u, s, other) && (other.Unpacking? ==> other.nonce != d.nonce)
    requires n.pipe == s.pipe && n.fs == Move(s.fs, StagingDir(d.id, d.nonce), CacheDir(d.id))
    ensures DownloadGood(u, n, other)
  {
    if other.Unpacking? {
      StagingsApart(d.id, d.nonce, other.id, other.nonce);
      StagingApartFromCache(other.id, other.nonce, d.id);
      MoveElsewhere(s.fs, StagingDir(d.id, d.nonce), CacheDir(d.id), StagingDir(other.id, other.nonce));
    }
  }

  lemma UploadKeeps(codec: Digests.Codec, u: Unarchive, s: System, event: Uploads.Event)
    requires Digests.Sensible(codec) && Digests.CollisionFree(codec)
    requires Inv(codec, u, s) && Uploads.Enabled(s.pipe, event)
    ensures Inv(codec, u, Step(codec, u, s, Upload(event)))
  {
    Uploads.StepInv(codec, s.pipe, event);
    ReadyKept(codec, s.pipe, event);
    UploadFaithful(u, s, Uploads.Step(codec, s.pipe, event));
  }

  ghost predicate KeepsReady(p: Uploads.Pipe, n: Uploads.Pipe) {
    forall id: Uuid :: id in p.shelf.rows && p.shelf.rows[id].ready ==>
      && id in n.shelf.rows && n.shelf.rows[id].ready
      && KeyOf(id) in p.store && KeyOf(id) in n.store && n.store[KeyOf(id)] == p.store[KeyOf(id)]
  }

  lemma UploadFaithful(u: Unarchive, s: System, next: Uploads.Pipe)
    requires CachesFaithful(u, s) && DownloadsGood(u, s) && KeepsReady(s.pipe, next)
    ensures var n := s.(pipe := next); CachesFaithful(u, n) && DownloadsGood(u, n)
  {
    var n := s.(pipe := next);
    forall id: Uuid
      ensures Faithful(u, n, id)
    {
      assert Faithful(u, s, id);
    }
    forall d <- n.downloads
      ensures DownloadGood(u, n, n.downloads[d])
    {
      assert DownloadGood(u, s, s.downloads[d]);
    }
  }

  lemma ReadyKept(codec: Digests.Codec, p: Uploads.Pipe, event: Uploads.Event)
    requires Digests.Sensible(codec) && Digests.CollisionFree(codec)
    requires p.kind == Uploads.Artifacts && Uploads.Inv(codec, p) && Uploads.Enabled(p, event)
    ensures KeepsReady(p, Uploads.Step(codec, p, event))
  {
    var n := Uploads.Step(codec, p, event);
    Uploads.StepInv(codec, p, event);
    forall id: Uuid | id in p.shelf.rows && p.shelf.rows[id].ready
      ensures id in n.shelf.rows && n.shelf.rows[id].ready
      ensures KeyOf(id) in p.store && KeyOf(id) in n.store && n.store[KeyOf(id)] == p.store[KeyOf(id)]
    {
      Uploads.ContentStays(codec, p, event, id);
      assert Uploads.Matured(p.shelf.rows[id], n.shelf.rows[id]);
    }
  }

  lemma ClearKeeps(codec: Digests.Codec, u: Unarchive, s: System, e: Event)
    requires Inv(codec, u, s) && (e.Clear? || e.Torn?) && Enabled(u, s, e)
    ensures Inv(codec, u, Step(codec, u, s, e))
  {
    var d := s.downloads[e.who];
    var dir := StagingDir(d.id, d.nonce);
    if e.Clear? { WithoutWithin(s.fs, dir); } else { ShiftWithin(s.fs, dir, e.junk); }
    OneDownload(codec, u, s, Step(codec, u, s, e), e.who, d.id, d.nonce);
  }

  lemma BegunKeeps(codec: Digests.Codec, u: Unarchive, s: System, e: Event)
    requires Inv(codec, u, s) && e.Begun? && Enabled(u, s, e)
    ensures Inv(codec, u, Step(codec, u, s, e))
  {
    var id, n := s.downloads[e.who].id, Step(codec, u, s, e);
    forall other | Apart(StagingDir(id, e.nonce), other)
      ensures SameAt(s.fs, n.fs, other)
    {
      MakeSomeElsewhere(s.fs, StagingDir(id, e.nonce), e.made, other);
    }
    OneDownload(codec, u, s, n, e.who, id, e.nonce);
  }

  lemma WipedKeeps(codec: Digests.Codec, u: Unarchive, s: System, e: Event)
    requires Inv(codec, u, s) && e.Wiped? && Enabled(u, s, e)
    ensures Inv(codec, u, Step(codec, u, s, e))
  {
    var d, n := s.downloads[e.who], Step(codec, u, s, e);
    forall other | Apart(StagingDir(d.id, d.nonce), other)
      ensures SameAt(s.fs, n.fs, other)
    {
      PrunedElsewhere(s.fs, StagingDir(d.id, d.nonce), e.gone, other);
    }
    OneDownload(codec, u, s, n, e.who, d.id, d.nonce);
  }

  /** Steps that leave the file system alone and move one download on, or end it. */
  lemma IdleKeeps(codec: Digests.Codec, u: Unarchive, s: System, n: System, who: Uuid)
    requires Inv(codec, u, s) && n.pipe == s.pipe && n.fs == s.fs
    requires forall d <- n.downloads :: d != who ==> d in s.downloads && n.downloads[d] == s.downloads[d]
    requires who in n.downloads ==> !Staging(n.downloads[who]) && DownloadGood(u, s, n.downloads[who])
    ensures Inv(codec, u, n)
  {
    forall id: Uuid
      ensures Faithful(u, n, id)
    {
      assert Faithful(u, s, id);
    }
    forall d <- n.downloads
      ensures DownloadGood(u, n, n.downloads[d])
    {
      if d != who { assert DownloadGood(u, s, s.downloads[d]); }
    }
  }

  lemma GetGood(codec: Digests.Codec, u: Unarchive, s: System, who: Uuid)
    requires Inv(codec, u, s) && Enabled(u, s, Get(who))
    ensures KeyOf(s.downloads[who].id) in s.pipe.store
    ensures DownloadGood(u, s, Fetched(s.downloads[who].id, s.pipe.store[KeyOf(s.downloads[who].id)]))
  {
    assert DownloadGood(u, s, s.downloads[who]);
    Uploads.ReadyIsVerified(codec, s.pipe, s.downloads[who].id);
  }

  lemma GetKeeps(codec: Digests.Codec, u: Unarchive, s: System, who: Uuid)
    requires Inv(codec, u, s) && Enabled(u, s, Get(who))
    ensures Inv(codec, u, Step(codec, u, s, Get(who)))
  {
    GetGood(codec, u, s, who);
    IdleKeeps(codec, u, s, Step(codec, u, s, Get(who)), who);
  }

  lemma StartKeeps(codec: Digests.Codec, u: Unarchive, s: System, e: Event)
    requires Inv(codec, u, s) && e.Start? && Enabled(u, s, e)
    ensures Inv(codec, u, Step(codec, u, s, e))
  {
    assert s.pipe.shelf.rows[e.id].ready;
    IdleKeeps(codec, u, s, Step(codec, u, s, e), e.who);
  }

  lemma StepInv(codec: Digests.Codec, u: Unarchive, s: System, e: Event)
    requires Digests.Sensible(codec) && Digests.CollisionFree(codec)
    requires Inv(codec, u, s) && Enabled(u, s, e)
    ensures Inv(codec, u, Step(codec, u, s, e))
  {
    match e
    case Upload(event) => UploadKeeps(codec, u, s, event);
    case Stage(who, nonce) => StageKeeps(codec, u, s, who, nonce);
    case UnpackNext(who) => UnpackKeeps(codec, u, s, who);
    case Publish(who) => PublishKeeps(codec, u, s, who);
    case Clear(_) => ClearKeeps(codec, u, s, e);
    case Torn(_, _) => ClearKeeps(codec, u, s, e);
    case Begun(_, _, _) => BegunKeeps(codec, u, s, e);
    case Wiped(_, _) => WipedKeeps(codec, u, s, e);
    case Start(who, _) => StartKeeps(codec, u, s, e);
    case Get(who) => GetKeeps(codec, u, s, who);
    case Crash(who) => IdleKeeps(codec, u, s, Step(codec, u, s, e), who);
  }

  /**
   * Whatever downloaders interleave, crash or leave half-written, an artifact's cache folder, whenever it exists,
   * holds the full unpacking of the content stored for that artifact.
   */
  lemma {:induction false} CacheAgrees(codec: Digests.Codec, u: Unarchive, s: System, run: Run, id: Uuid)
    requires Digests.Sensible(codec) && Digests.CollisionFree(codec)
    requires Inv(codec, u, s) && Feasible(codec, u, s, run)
    ensures var n := After(codec, u, s, run);
            Inv(codec, u, n) &&
            (CacheDir(id) in n.fs ==>
               KeyOf(id) in n.pipe.store && Unpack(u(n.pipe.store[KeyOf(id)])) == Some(Below(n.fs, CacheDir(id))))
    decreases |run|
  {
    if run == [] {
      assert Faithful(u, s, id);
    } else {
      StepInv(codec, u, s, run[0]);
      CacheAgrees(codec, u, Step(codec, u, s, run[0]), run[1..], id);
    }
  }

  /** A download that has unpacked every entry and finds the name free makes the artifact cached. */
  lemma PublishCaches(codec: Digests.Codec, u: Unarchive, s: System, who: Uuid)
    requires Inv(codec, u, s) && Enabled(u, s, Publish(who)) && Free(s.fs, CacheDir(s.downloads[who].id))
    ensures var n := Step(codec, u, s, Publish(who)); var d := s.downloads[who];
            CacheDir(d.id) in n.fs && Unpack(u(d.body)) == Some(Below(n.fs, CacheDir(d.id)))
  {
    var d := s.downloads[who];
    assert DownloadGood(u, s, d);
    assert u(d.body)[..|u(d.body)|] == u(d.body);
    StagingApartFromCache(d.id, d.nonce, d.id);
    MoveShows(s.fs, StagingDir(d.id, d.nonce), CacheDir(d.id));
  }

  // ---------- an artifact can always be cached ----------

  lemma EventFirst(codec: Digests.Codec, u: Unarchive, s: System, e: Event, rest: Run)
    requires Enabled(u, s, e) && Feasible(codec, u, Step(codec, u, s, e), rest)
    ensures Feasible(codec, u, s, [e] + rest)
    ensures After(codec, u, s, [e] + rest) == After(codec, u, Step(codec, u, s, e), rest)
  {
    assert ([e] + rest)[1..] == rest;
  }

  ghost predicate CachedFrom(u: Unarchive, s: System, id: Uuid, body: Bytes) {
    CacheDir(id) in s.fs && Unpack(u(body)) == Some(Below(s.fs, CacheDir(id)))
  }

  /** One whose archive unpacks, and whose name is free, ends up cached if the download is left to run. */
  lemma UnpackedGetsCached(codec: Digests.Codec, u: Unarchive, s: System, who: Uuid) returns (run: Run)
    requires Inv(codec, u, s) && who in s.downloads && s.downloads[who].Unpacking?
    requires Free(s.fs, CacheDir(s.downloads[who].id)) && Unpack(u(s.downloads[who].body)).Some?
    ensures Feasible(codec, u, s, run)
    ensures CachedFrom(u, After(codec, u, s, run), s.downloads[who].id, s.downloads[who].body)
    decreases |u(s.downloads[who].body)| - s.downloads[who].done
  {
    var d := s.downloads[who];
    assert DownloadGood(u, s, d);
    if d.done == |u(d.body)| {
      PublishCaches(codec, u, s, who);
      EventFirst(codec, u, s, Publish(who), []);
      run := [Publish(who)] + [];
    } else {
      var n := NextUnpacked(codec, u, s, who);
      UnpackKeeps(codec, u, s, who);
      run := UnpackedGetsCached(codec, u, n, who);
      EventFirst(codec, u, s, UnpackNext(who), run);
      run := [UnpackNext(who)] + run;
    }
  }

  lemma NextUnpacked(codec: Digests.Codec, u: Unarchive, s: System, who: Uuid) returns (n: System)
    requires DownloadsGood(u, s) && who in s.downloads && s.downloads[who].Unpacking?
    requires s.downloads[who].done < |u(s.downloads[who].body)|
    requires Free(s.fs, CacheDir(s.downloads[who].id)) && Unpack(u(s.downloads[who].body)).Some?
    ensures n == Step(codec, u, s, UnpackNext(who)) && Free(n.fs, CacheDir(s.downloads[who].id))
    ensures who in n.downloads && n.downloads[who] == s.downloads[who].(done := s.downloads[who].done + 1)
  {
    var d := s.downloads[who];
    var dir := StagingDir(d.id, d.nonce);
    assert DownloadGood(u, s, d);
    n := Step(codec, u, s, UnpackNext(who));
    UnpackOneMore(u(d.body), d.done, Below(s.fs, dir));
    UnpackLinkFree(u(d.body)[..d.done]);
    WriteBelow(s.fs, dir, u(d.body)[d.done]);
    if WriteEntry(s.fs, dir, u(d.body)[d.done]).None? { UnpackStops(u(d.body), d.done + 1); }
    WriteConfined(s.fs, dir, u(d.body)[d.done]);
    InsideWithin(s.fs, n.fs, dir);
    StagingApartFromCache(d.id, d.nonce, d.id);
  }

  /** From the start of a download, with a name for its staging folder that is new. */
  lemma CanBeCached(codec: Digests.Codec, u: Unarchive, s: System, who: Uuid, id: Uuid, nonce: Uuid)
    returns (run: Run)
    requires Inv(codec, u, s) && who !in s.downloads && id in s.pipe.shelf.rows && s.pipe.shelf.rows[id].ready
    requires CacheDir(id) !in s.fs && Free(s.fs, CacheDir(id)) && NewNonce(s, id, nonce)
    requires KeyOf(id) in s.pipe.store && Unpack(u(s.pipe.store[KeyOf(id)])).Some?
    ensures Feasible(codec, u, s, run) && CachedFrom(u, After(codec, u, s, run), id, s.pipe.store[KeyOf(id)])
  {
    var body := s.pipe.store[KeyOf(id)];
    var a := Goto(s, who, Fetching(id));
    StartKeeps(codec, u, s, Start(who, id));
    var b := Goto(a, who, Fetched(id, body));
    GetKeeps(codec, u, a, who);
    assert Step(codec, u, a, Get(who)) == b;
    run := StagedGetsCached(codec, u, b, who, nonce);
    EventFirst(codec, u, a, Get(who), run);
    EventFirst(codec, u, s, Start(who, id), [Get(who)] + run);
    run := [Start(who, id)] + ([Get(who)] + run);
  }

  lemma StagedGetsCached(codec: Digests.Codec, u: Unarchive, s: System, who: Uuid, nonce: Uuid) returns (run: Run)
    requires Inv(codec, u, s) && who in s.downloads && s.downloads[who].Fetched?
    requires Free(s.fs, CacheDir(s.downloads[who].id)) && NewNonce(s, s.downloads[who].id, nonce)
    requires Unpack(u(s.downloads[who].body)).Some?
    ensures Feasible(codec, u, s, run)
    ensures CachedFrom(u, After(codec, u, s, run), s.downloads[who].id, s.downloads[who].body)
  {
    var d := s.downloads[who];
    StageKeeps(codec, u, s, who, nonce);
    StagedGood(codec, u, s, who, nonce);
    StagingApartFromCache(d.id, nonce, d.id);
    run := UnpackedGetsCached(codec, u, Step(codec, u, s, Stage(who, nonce)), who);
    EventFirst(codec, u, s, Stage(who, nonce), run);
    run := [Stage(who, nonce)] + run;
  }

  lemma EmptyInv(codec: Digests.Codec, u: Unarchive)
    ensures Inv(codec, u, System(Uploads.Empty(Uploads.Artifacts), map[], map[]))
  {
  }

  // ---------- one downloader, uninterrupted ----------

  datatype Fetch = Cached(dir: Path) | MissingKey | MissingObject | BadArchive | RenameFailed

  /** Whatever exists lies in folders that exist. */
  ghost predicate Closed(fs: Tree) {
    forall k <- fs, p <- Ancestry(k) :: p in fs
  }

  lemma MissingIsFree(fs: Tree, dir: Path)
    requires Closed(fs) && dir !in fs
    ensures Free(fs, dir)
  {
  }

  class Downloader {
    var fs: Tree

    /** The loop over the archive's entries: all of them written, or the first that is refused ends it. */
    method UnpackAll(dir: Path, entries: seq<Entry>) returns (ok: bool)
      requires Below(fs, dir) == map[] && dir in fs && fs[dir] == Folder
      modifies this
      ensures ok <==> Unpack(entries).Some?
      ensures ok ==> Unpack(entries) == Some(Below(fs, dir))
      ensures InsideOnly(old(fs), fs, dir)
    {
      var i := 0;
      assert entries[..0] == [];
      while i < |entries|
        invariant 0 <= i <= |entries|
        invariant Unpack(entries[..i]) == Some(Below(fs, dir))
        invariant InsideOnly(old(fs), fs, dir)
      {
        UnpackLinkFree(entries[..i]);
        UnpackOneMore(entries, i, Below(fs, dir));
        WriteBelow(fs, dir, entries[i]);
        var next := WriteEntry(fs, dir, entries[i]);
        if next.None? {
          UnpackStops(entries, i + 1);
          return false;
        }
        WriteConfined(fs, dir, entries[i]);
        fs := next.value;
        i := i + 1;
      }
      assert entries[..i] == entries;
      ok := true;
    }

    /**
     * A hit changes nothing; a miss ends with the whole archive under the cache name, or with no cache entry. Left to
     * itself, the download always gets to rename what it unpacked.
     */
    method EnsureArtifactCached(u: Unarchive, id: Uuid, key: Option<string>, store: map<string, Bytes>, nonce: Uuid,
                                clash: bool)
      returns (r: Fetch)
      requires Closed(fs) && forall k <- fs :: !(StagingDir(id, nonce) <= k)
      modifies this
      ensures r == MissingKey <==> key.None?
      ensures key.Some? && CacheDir(id) in old(fs) ==> r == Cached(CacheDir(id)) && fs == old(fs)
      ensures key.Some? && CacheDir(id) !in old(fs) ==>
                if key.value !in store then r == MissingObject
                else if Unpack(u(store[key.value])).None? then r == BadArchive
                else r == Cached(CacheDir(id))
      ensures r.Cached? && CacheDir(id) !in old(fs) ==>
                && CacheDir(id) in fs && fs[CacheDir(id)] == Folder
                && Unpack(u(store[key.value])) == Some(Below(fs, CacheDir(id)))
      ensures !r.Cached? && CacheDir(id) !in old(fs) ==> CacheDir(id) !in fs
      ensures forall other: Uuid :: other != id ==> SameAt(old(fs), fs, CacheDir(other))
    {
      if key.None? {
        return MissingKey;
      }
      if CacheDir(id) in fs {
        return Cached(CacheDir(id));
      }
      if key.value !in store {
        return MissingObject;
      }
      MissingIsFree(fs, CacheDir(id));
      var dir := StagingDir(id, nonce);
      MakeWithin(fs, dir);
      MakeFresh(fs, dir);
      fs := MakeFolders(fs, dir);
      ghost var made := fs;
      var ok := UnpackAll(dir, u(store[key.value]));
      InsideWithin(made, fs, dir);
      StagingApartFromAll(id, nonce);
      if !ok {
        return BadArchive;
      }
      r := PublishStaged(id, nonce, clash);
    }

    /** The rename, and the clearing up when the name is taken; clash says whether that is reported as AlreadyExists. */
    method PublishStaged(id: Uuid, nonce: Uuid, clash: bool) returns (r: Fetch)
      modifies this
      ensures r == if Free(old(fs), CacheDir(id)) || clash then Cached(CacheDir(id)) else RenameFailed
      ensures Free(old(fs), CacheDir(id)) ==> CacheDir(id) in fs && fs[CacheDir(id)] == Folder
      ensures Free(old(fs), CacheDir(id)) ==> Below(fs, CacheDir(id)) == Below(old(fs), StagingDir(id, nonce))
      ensures !Free(old(fs), CacheDir(id)) ==> (CacheDir(id) in fs <==> CacheDir(id) in old(fs))
      ensures !Free(old(fs), CacheDir(id)) ==> Below(fs, CacheDir(id)) == Below(old(fs), CacheDir(id))
      ensures forall other: Uuid :: other != id ==> SameAt(old(fs), fs, CacheDir(other))
      ensures forall k <- fs :: !(StagingDir(id, nonce) <= k)
    {
      ghost var was := fs;
      StagingApartFromAll(id, nonce);
      if Free(fs, CacheDir(id)) {
        MoveShows(fs, StagingDir(id, nonce), CacheDir(id));
        MoveLeavesNothing(fs, StagingDir(id, nonce), CacheDir(id));
        fs := Move(fs, StagingDir(id, nonce), CacheDir(id));
        forall other: Uuid | other != id
          ensures SameAt(was, fs, CacheDir(other))
        {
          CachesApart(id, other);
          MoveElsewhere(was, StagingDir(id, nonce), CacheDir(id), CacheDir(other));
        }
        return Cached(CacheDir(id));
      }
      WithoutWithin(fs, StagingDir(id, nonce));
      fs := Without(fs, StagingDir(id, nonce));
      r := if clash then Cached(CacheDir(id)) else RenameFailed;
    }
  }

  lemma StagingApartFromAll(id: Uuid, nonce: Uuid)
    ensures forall other: Uuid :: Apart(StagingDir(id, nonce), CacheDir(other))
  {
    forall other: Uuid
      ensures Apart(StagingDir(id, nonce), CacheDir(other))
    {
      StagingApartFromCache(id, nonce, other);
    }
  }

  /** One refused entry refuses the archive. */
  lemma {:induction false} UnpackStops(entries: seq<Entry>, n: nat)
    requires n <= |entries| && Unpack(entries[..n]).None?
    ensures Unpack(entries).None?
    decreases |entries| - n
  {
    if n == |entries| {
      assert entries[..n] == entries;
    } else {
      assert entries[..n + 1][..n] == entries[..n];
      UnpackStops(entries, n + 1);
    }
  }
}
