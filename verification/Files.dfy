/** A file system as far as unpacking an archive needs one: paths, folders, files, and moving a folder. */
module Files {
  import opened Common

  type Path = seq<string>

  /** A link names the place that opening it leads to. */
  datatype Node = Folder | File(bytes: Bytes) | Link(to: seq<Component>)

  type Tree = map<Path, Node>

  // ---------- archives ----------

  datatype Component = Normal(name: string) | CurDir | ParentDir | RootDir | Prefix(text: string)

  /** An entry that cannot be read is Corrupt. */
  datatype EntryKind =
    | Regular(bytes: Bytes)
    | Directory
    | Symlink(to: seq<Component>)
    | HardLink(to: seq<Component>)
    | Corrupt

  datatype Entry = Entry(path: seq<Component>, kind: EntryKind)

  /** validate_archive_path: only ordinary components and the current directory. */
  predicate ValidPath(path: seq<Component>) {
    forall i :: 0 <= i < |path| ==> path[i].Normal? || path[i].CurDir?
  }

  /** The ordinary components of a path. */
  function Names(path: seq<Component>): Path {
    if path == [] then []
    else (if path[0].Normal? then [path[0].name] else []) + Names(path[1..])
  }

  /** A place written out from the root. */
  function Absolute(p: Path): seq<Component> {
    [RootDir] + Normals(p)
  }

  function Normals(p: Path): seq<Component> {
    seq(|p|, i requires 0 <= i < |p| => Normal(p[i]))
  }

  // ---------- trees ----------

  /** Everything under a folder, by relative path. */
  function Relative(fs: Tree, dir: Path): set<Path> {
    set k | k in fs && dir < k :: k[|dir|..]
  }

  function Below(fs: Tree, dir: Path): Tree
  {
    map q | q in Relative(fs, dir) && dir + q in fs :: fs[dir + q]
  }

  lemma BelowIs(fs: Tree, dir: Path, q: Path)
    ensures q in Below(fs, dir) <==> q != [] && dir + q in fs
    ensures q in Below(fs, dir) ==> Below(fs, dir)[q] == fs[dir + q]
  {
  }

  lemma BelowEquals(fs: Tree, dir: Path, t: Tree)
    requires forall q :: q in t <==> q != [] && dir + q in fs
    requires forall q :: q in t ==> t[q] == fs[dir + q]
    ensures Below(fs, dir) == t
  {
  }

  /** A tree placed under a folder. */
  function Shift(dir: Path, t: Tree): Tree {
    map k | k in (set q | q in t :: dir + q) && dir <= k && k[|dir|..] in t :: t[k[|dir|..]]
  }

  /** Neither folder lies within the other. */
  predicate Apart(a: Path, b: Path) {
    !(a <= b) && !(b <= a)
  }

  lemma NoCommonPath(a: Path, b: Path, k: Path)
    requires Apart(a, b)
    ensures !(a <= k && b <= k)
  {
  }

  /** At a folder and below it, both file systems show the same. */
  predicate SameAt(fs: Tree, n: Tree, dir: Path) {
    Below(n, dir) == Below(fs, dir) && (dir in n <==> dir in fs) && (dir in fs ==> n[dir] == fs[dir])
  }

  lemma SameBelow(fs: Tree, n: Tree, dir: Path)
    requires forall k | dir <= k :: (k in n <==> k in fs) && (k in fs ==> n[k] == fs[k])
    ensures SameAt(fs, n, dir)
  {
    assert dir <= dir;
  }

  /** Writing under one folder shows nowhere apart from it. */
  lemma ShiftElsewhere(fs: Tree, dir: Path, t: Tree, other: Path)
    requires Apart(dir, other)
    ensures SameAt(fs, fs + Shift(dir, t), other)
  {
    forall k | other <= k
      ensures k !in Shift(dir, t)
    {
      NoCommonPath(dir, other, k);
    }
    SameBelow(fs, fs + Shift(dir, t), other);
  }

  // ---------- writing one entry ----------

  /** A path and every path above it, down to the empty one. */
  function Ancestry(q: Path): (r: set<Path>)
    ensures forall p :: p in r <==> p <= q
  {
    if q == [] then {[]}
    else
      var up := q[..|q| - 1];
      assert q == up + [q[|q| - 1]];
      assert forall p :: p in Ancestry(up) || p == q <==> p <= q;
      Ancestry(up) + {q}
  }

  const MAX_LINKS: nat := 40

  function Parent(at: Path): Path {
    if at == [] then [] else at[..|at| - 1]
  }

  /** Where a path leads from a folder: up for a parent, back to the root for a root, on through links. */
  function Walk(fs: Tree, at: Path, path: seq<Component>, links: nat): Option<Path>
    decreases links, |path|
  {
    if path == [] then Some(at)
    else
      match path[0]
      case CurDir => Walk(fs, at, path[1..], links)
      case ParentDir => Walk(fs, Parent(at), path[1..], links)
      case RootDir => Walk(fs, [], path[1..], links)
      case Prefix(_) => Walk(fs, [], path[1..], links)
      case Normal(name) =>
        var next := at + [name];
        if next in fs && fs[next].Link? then
          if links == 0 then None else Walk(fs, at, fs[next].to + path[1..], links - 1)
        else Walk(fs, next, path[1..], links)
  }

  /** The node itself and the folders that lead to it from where the unpacking stands. */
  function Patch(dir: Path, to: Path, node: Node): Tree {
    map p | p in Ancestry(to) && !(p <= dir) :: if p == to then node else Folder
  }

  /** Folders on the way are folders already or missing, and a node replaces only its own kind. */
  predicate Fits(fs: Tree, dir: Path, to: Path, node: Node) {
    && (forall p <- Ancestry(to) | !(p <= dir) && p != to :: p in fs ==> fs[p].Folder?)
    && (to in fs ==> (fs[to].Folder? <==> node.Folder?))
  }

  function Put(fs: Tree, dir: Path, to: Path, node: Node): Option<Tree> {
    if to <= dir then
      if node.Folder? then Some(fs) else None
    else if Fits(fs, dir, to, node) then Some(fs + Patch(dir, to, node))
    else None
  }

  /** What an entry makes; a hard link is one more name for a place, and so leads there. */
  function Made(fs: Tree, dir: Path, kind: EntryKind): Option<Node> {
    match kind
    case Regular(bytes) => Some(File(bytes))
    case Directory => Some(Folder)
    case Symlink(to) => Some(Link(to))
    case HardLink(to) =>
      (match Walk(fs, dir, to, MAX_LINKS)
       case None => None
       case Some(p) => Some(Link(Absolute(p))))
    case Corrupt => None
  }

  /** Plain extraction, which trusts the archive: it goes wherever the entry's path leads. */
  function Extract(fs: Tree, dir: Path, e: Entry): Option<Tree> {
    match Made(fs, dir, e.kind)
    case None => None
    case Some(node) =>
      if Names(e.path) == [] then Some(fs)
      else match Walk(fs, dir, e.path, MAX_LINKS)
           case None => None
           case Some(to) => Put(fs, dir, to, node)
  }

  /** One turn of the unpacking loop, with its two refusals; None when the entry is refused or cannot be written. */
  function WriteEntry(fs: Tree, dir: Path, e: Entry): Option<Tree> {
    if !ValidPath(e.path) || e.kind.Symlink? || e.kind.HardLink? then None else Extract(fs, dir, e)
  }

  // ---------- with both refusals, nothing gets out ----------

  ghost predicate LinkFree(t: Tree) {
    forall k <- t :: !t[k].Link?
  }

  /** From a folder without links, an accepted path leads straight down. */
  lemma {:induction false} WalkDown(fs: Tree, dir: Path, at: Path, path: seq<Component>, links: nat)
    requires LinkFree(Below(fs, dir)) && dir <= at && ValidPath(path)
    ensures Walk(fs, at, path, links) == Some(at + Names(path))
    decreases |path|
  {
    if path == [] {
      assert at + Names(path) == at;
    } else if path[0].CurDir? {
      WalkDown(fs, dir, at, path[1..], links);
      assert Names(path) == Names(path[1..]);
    } else {
      WalkOne(fs, dir, at, path, links);
      WalkDown(fs, dir, at + [path[0].name], path[1..], links);
      assert at + Names(path) == at + [path[0].name] + Names(path[1..]);
    }
  }

  lemma WalkOne(fs: Tree, dir: Path, at: Path, path: seq<Component>, links: nat)
    requires LinkFree(Below(fs, dir)) && dir <= at && path != [] && path[0].Normal?
    ensures Walk(fs, at, path, links) == Walk(fs, at + [path[0].name], path[1..], links)
    ensures Names(path) == [path[0].name] + Names(path[1..])
  {
    var next := at + [path[0].name];
    assert next == dir + next[|dir|..];
    BelowIs(fs, dir, next[|dir|..]);
  }

  /** What putting a node below a folder changes, seen from that folder. */
  lemma PutBelow(fs: Tree, dir: Path, q: Path, node: Node)
    requires q != []
    ensures Put(fs, dir, dir + q, node).None? <==> Put(Below(fs, dir), [], q, node).None?
    ensures Put(fs, dir, dir + q, node).Some? ==>
              Below(Put(fs, dir, dir + q, node).value, dir) == Put(Below(fs, dir), [], q, node).value
  {
    FitsBelow(fs, dir, q, node);
    var n, t := fs + Patch(dir, dir + q, node), Below(fs, dir) + Patch([], q, node);
    forall p
      ensures p in t <==> p != [] && dir + p in n
      ensures p in t ==> t[p] == n[dir + p]
    {
      BelowIs(fs, dir, p);
      PatchBelow(dir, q, node, p);
    }
    BelowEquals(n, dir, t);
    assert !(dir + q <= dir) && !(q <= []);
  }

  lemma FitsBelow(fs: Tree, dir: Path, q: Path, node: Node)
    requires q != []
    ensures Fits(fs, dir, dir + q, node) == Fits(Below(fs, dir), [], q, node)
  {
    var bare := Below(fs, dir);
    BelowIs(fs, dir, q);
    forall p | p != [] && p != q
      ensures p in Ancestry(q) <==> dir + p in Ancestry(dir + q)
      ensures p in bare <==> dir + p in fs
      ensures p in bare ==> bare[p] == fs[dir + p]
    {
      BelowIs(fs, dir, p);
      PatchBelow(dir, q, node, p);
    }
    forall k <- Ancestry(dir + q) | !(k <= dir) && k != dir + q
      ensures k == dir + k[|dir|..] && k[|dir|..] != [] && k[|dir|..] != q
    {
      assert k == (dir + q)[..|k|];
    }
  }

  lemma PatchBelow(dir: Path, q: Path, node: Node, p: Path)
    ensures dir + p in Ancestry(dir + q) <==> p in Ancestry(q)
    ensures dir + p in Patch(dir, dir + q, node) <==> p in Patch([], q, node)
    ensures p in Patch([], q, node) ==> Patch(dir, dir + q, node)[dir + p] == Patch([], q, node)[p]
  {
    if dir + p <= dir + q {
      assert p == (dir + p)[|dir|..] == (dir + q)[..|dir| + |p|][|dir|..] == q[..|p|];
    }
    if p <= q {
      assert dir + p == dir + q[..|p|] == (dir + q)[..|dir| + |p|];
    }
    assert dir + p == dir + q ==> p == q by {
      assert (dir + p)[|dir|..] == p && (dir + q)[|dir|..] == q;
    }
  }

  /** Nothing differs but what lies inside the folder: not the folder itself, nor anything above or beside it. */
  ghost predicate InsideOnly(fs: Tree, n: Tree, dir: Path) {
    forall k | !(dir < k) :: (k in n <==> k in fs) && (k in fs ==> n[k] == fs[k])
  }

  /**
   * With the path accepted and links refused, an entry changes nothing outside the folder it is unpacked in, nor the
   * folder itself, and leaves no link for a later entry to follow.
   */
  lemma WriteConfined(fs: Tree, dir: Path, e: Entry)
    requires LinkFree(Below(fs, dir)) && WriteEntry(fs, dir, e).Some?
    ensures InsideOnly(fs, WriteEntry(fs, dir, e).value, dir)
    ensures LinkFree(Below(WriteEntry(fs, dir, e).value, dir))
  {
    WalkDown(fs, dir, dir, e.path, MAX_LINKS);
    var n, to := WriteEntry(fs, dir, e).value, dir + Names(e.path);
    forall k | k in n
      ensures dir < k || (k in fs && n[k] == fs[k])
    {
      assert k in Ancestry(to) ==> k <= dir || dir < k;
    }
    forall q <- Below(n, dir)
      ensures !Below(n, dir)[q].Link?
    {
      BelowIs(n, dir, q);
      BelowIs(fs, dir, q);
    }
  }

  /** Unpacking an entry into a folder is unpacking it into what the folder holds. */
  lemma WriteBelow(fs: Tree, dir: Path, e: Entry)
    requires LinkFree(Below(fs, dir))
    ensures WriteEntry(fs, dir, e).None? <==> WriteEntry(Below(fs, dir), [], e).None?
    ensures WriteEntry(fs, dir, e).Some? ==>
              Below(WriteEntry(fs, dir, e).value, dir) == WriteEntry(Below(fs, dir), [], e).value
  {
    if ValidPath(e.path) && !e.kind.Symlink? && !e.kind.HardLink? && !e.kind.Corrupt? && Names(e.path) != [] {
      var q, node := Names(e.path), if e.kind.Regular? then File(e.kind.bytes) else Folder;
      WriteStraight(fs, dir, e);
      BareBelow(Below(fs, dir));
      WriteStraight(Below(fs, dir), [], e);
      assert [] + q == q;
      PutBelow(fs, dir, q, node);
    }
  }

  lemma WriteStraight(fs: Tree, dir: Path, e: Entry)
    requires LinkFree(Below(fs, dir)) && ValidPath(e.path) && Names(e.path) != []
    requires e.kind.Regular? || e.kind.Directory?
    ensures WriteEntry(fs, dir, e) ==
            Put(fs, dir, dir + Names(e.path), if e.kind.Regular? then File(e.kind.bytes) else Folder)
  {
    WalkDown(fs, dir, dir, e.path, MAX_LINKS);
  }

  lemma BareBelow(t: Tree)
    ensures LinkFree(t) ==> LinkFree(Below(t, []))
  {
    forall q
      ensures q in Below(t, []) ==> q in t && Below(t, [])[q] == t[q]
    {
      BelowIs(t, [], q);
      assert [] + q == q;
    }
  }

  // ---------- and everything else is written ----------

  /** Only parents, roots and prefixes are refused; a current-directory component is not. */
  lemma PathAccepted(path: seq<Component>)
    ensures ValidPath(path) <==> forall c <- path :: c != ParentDir && c != RootDir && !c.Prefix?
  {
    if ValidPath(path) {
      forall c <- path
        ensures c.Normal? || c.CurDir?
      {
        var i :| 0 <= i < |path| && path[i] == c;
      }
    } else {
      var i :| 0 <= i < |path| && !path[i].Normal? && !path[i].CurDir?;
      assert path[i] in path;
    }
  }

  /** The names of a path, in order; a current-directory component adds none. */
  lemma {:induction false} NamesJoin(a: seq<Component>, b: seq<Component>)
    ensures Names(a + b) == Names(a) + Names(b)
    decreases |a|
  {
    if a == [] {
      assert a + b == b;
    } else {
      assert (a + b)[0] == a[0] && (a + b)[1..] == a[1..] + b;
      NamesJoin(a[1..], b);
      Regroup(if a[0].Normal? then [a[0].name] else [], Names(a[1..]), Names(b));
    }
  }

  lemma Regroup(x: Path, y: Path, z: Path)
    ensures (x + y) + z == x + (y + z)
  {
  }

  lemma NameOfOne(name: string)
    ensures Names([CurDir]) == [] && Names([Normal(name)]) == [name]
  {
  }

  /** Nothing stands where the entry, or a folder on its way, is to go, but what may stand there. */
  ghost predicate RoomFor(fs: Tree, dir: Path, q: Path, folder: bool) {
    && (forall p :: p in fs && dir < p && p < dir + q ==> fs[p] == Folder)
    && (dir + q in fs ==> if folder then fs[dir + q] == Folder else fs[dir + q] != Folder)
  }

  /**
   * In a folder without links, an entry is written exactly if its path is accepted, it is a file or a folder, and there
   * is room for it; then it is there, with the folders on its way, and all else is as it was.
   */
  lemma EntryWritten(fs: Tree, dir: Path, e: Entry)
    requires LinkFree(Below(fs, dir))
    ensures var q, n := Names(e.path), WriteEntry(fs, dir, e);
            && (n.Some? <==>
                  && (forall c <- e.path :: c != ParentDir && c != RootDir && !c.Prefix?)
                  && (e.kind.Regular? || e.kind == Directory)
                  && (q == [] || RoomFor(fs, dir, q, e.kind == Directory)))
            && (n.Some? && q == [] ==> n.value == fs)
            && (n.Some? && q != [] ==>
                  && dir + q in n.value
                  && n.value[dir + q] == (if e.kind.Regular? then File(e.kind.bytes) else Folder)
                  && (forall p | dir < p && p < dir + q :: p in n.value && n.value[p] == Folder)
                  && (forall k | !(dir < k && k <= dir + q) ::
                        (k in n.value <==> k in fs) && (k in fs ==> n.value[k] == fs[k])))
  {
    PathAccepted(e.path);
    if ValidPath(e.path) && (e.kind.Regular? || e.kind.Directory?) && Names(e.path) != [] {
      WriteStraight(fs, dir, e);
      OnTheWay(dir, Names(e.path));
    }
  }

  lemma OnTheWay(dir: Path, q: Path)
    requires q != []
    ensures !(dir + q <= dir)
    ensures forall p :: p in Ancestry(dir + q) && !(p <= dir) <==> dir < p && p <= dir + q
  {
    forall p
      ensures p in Ancestry(dir + q) && !(p <= dir) <==> dir < p && p <= dir + q
    {
      if p <= dir + q {
        assert |p| <= |dir| ==> p == dir[..|p|];
        assert |dir| <= |p| ==> dir == p[..|dir|];
      }
    }
  }

  // ---------- without either refusal, something can ----------

  /** A parent component takes the entry beside the folder. */
  lemma ParentEscapes(fs: Tree, dir: Path, name: string, bytes: Bytes)
    requires dir != [] && name != dir[|dir| - 1] && Parent(dir) + [name] !in fs
    ensures var out := Parent(dir) + [name];
            var r := Extract(fs, dir, Entry([ParentDir, Normal(name)], Regular(bytes)));
            !(dir <= out) && r.Some? && out in r.value && r.value[out] == File(bytes)
  {
    var out, path := Parent(dir) + [name], [ParentDir, Normal(name)];
    assert path[1..] == [Normal(name)] && path[1..][1..] == [];
    assert Walk(fs, Parent(dir), [Normal(name)], MAX_LINKS) == Some(out);
    assert Walk(fs, dir, path, MAX_LINKS) == Some(out);
    assert Names(path) == Names(path[1..]) == [name];
    assert !(dir <= out) by { assert dir[|dir| - 1] != out[|dir| - 1]; }
    assert forall p <- Ancestry(out) | p != out :: p <= dir;
    assert !(out <= dir) by { assert out[|dir| - 1] != dir[|dir| - 1]; }
  }

  /** A root component takes it anywhere at all. */
  lemma RootEscapes(fs: Tree, dir: Path, name: string, bytes: Bytes)
    requires dir != [] && name != dir[0] && [name] !in fs
    ensures var r := Extract(fs, dir, Entry([RootDir, Normal(name)], Regular(bytes)));
            !(dir <= [name]) && r.Some? && [name] in r.value && r.value[[name]] == File(bytes)
  {
    var path := [RootDir, Normal(name)];
    assert path[1..] == [Normal(name)] && path[1..][1..] == [];
    assert [] + [name] == [name];
    assert Walk(fs, [], [Normal(name)], MAX_LINKS) == Some([name]);
    assert Walk(fs, dir, path, MAX_LINKS) == Some([name]);
    assert Names(path) == Names(path[1..]) == [name];
    assert forall p <- Ancestry([name]) | p != [name] :: p <= dir;
  }

  /** The place exists, a file, with folders and no links on the way. */
  ghost predicate PlainFile(fs: Tree, out: Path) {
    && out in fs && fs[out].File?
    && forall p <- Ancestry(out) | p != out :: p in fs ==> fs[p].Folder?
  }

  lemma {:induction false} WalkNames(fs: Tree, out: Path, done: nat, links: nat)
    requires done <= |out| && forall p <- Ancestry(out) :: p in fs ==> !fs[p].Link?
    ensures Walk(fs, out[..done], Normals(out[done..]), links) == Some(out)
    decreases |out| - done
  {
    if done == |out| {
      assert out[..done] == out;
    } else {
      assert Normals(out[done..])[1..] == Normals(out[done + 1..]);
      assert out[..done] + [out[done]] == out[..done + 1];
      WalkNames(fs, out, done + 1, links);
    }
  }

  lemma WalkAbsolute(fs: Tree, at: Path, out: Path, links: nat)
    requires forall p <- Ancestry(out) :: p in fs ==> !fs[p].Link?
    ensures Walk(fs, at, Absolute(out), links) == Some(out)
  {
    WalkNames(fs, out, 0, links);
    assert out[..0] == [] && out[0..] == out && Absolute(out)[1..] == Normals(out);
  }

  /**
   * Were links of either kind extracted, two entries with accepted paths would overwrite any file outside the folder:
   * a link to it, and then a file of the link's name.
   */
  lemma LinkEscapes(fs: Tree, dir: Path, name: string, kind: EntryKind, out: Path, bytes: Bytes)
    requires kind == Symlink(Absolute(out)) || kind == HardLink(Absolute(out))
    requires PlainFile(fs, out) && !(dir <= out) && !(out <= dir) && dir + [name] !in fs
    ensures var path := [Normal(name)];
            var linked := Extract(fs, dir, Entry(path, kind));
            && ValidPath(path) && linked.Some?
            && var r := Extract(linked.value, dir, Entry(path, Regular(bytes)));
               r.Some? && out in r.value && r.value[out] == File(bytes)
  {
    var path, there := [Normal(name)], dir + [name];
    WalkAbsolute(fs, dir, out, MAX_LINKS);
    assert path[1..] == [] && Names(path) == [name];
    assert Walk(fs, dir, path, MAX_LINKS) == Some(there);
    assert forall p <- Ancestry(there) | p != there :: p <= dir;
    var n := fs + Patch(dir, there, Link(Absolute(out)));
    assert Extract(fs, dir, Entry(path, kind)) == Some(n);
    assert there in Ancestry(there) && n[there] == Link(Absolute(out));
    forall p <- Ancestry(out)
      ensures p in n ==> p in fs && n[p] == fs[p]
    {
      assert !(dir < p) || dir <= out;
    }
    WalkAbsolute(n, dir, out, MAX_LINKS - 1);
    assert n[there].to + path[1..] == Absolute(out);
    assert Walk(n, dir, path, MAX_LINKS) == Some(out);
    assert out in Ancestry(out);
  }

  // ---------- whole archives ----------

  /** Everything an archive unpacks to, or None when some entry is refused. */
  function Unpack(entries: seq<Entry>): Option<Tree> {
    if entries == [] then Some(map[])
    else
      match Unpack(entries[..|entries| - 1])
      case None => None
      case Some(t) => WriteEntry(t, [], entries[|entries| - 1])
  }

  lemma {:induction false} UnpackLinkFree(entries: seq<Entry>)
    ensures Unpack(entries).Some? ==> LinkFree(Unpack(entries).value)
    decreases |entries|
  {
    if entries == [] {
    } else {
      var front := entries[..|entries| - 1];
      UnpackLinkFree(front);
      if Unpack(entries).Some? {
        var t, e := Unpack(front).value, entries[|entries| - 1];
        BareBelow(t);
        WriteConfined(t, [], e);
        WholeBelow(WriteEntry(t, [], e).value, t);
      }
    }
  }

  lemma WholeBelow(n: Tree, t: Tree)
    requires LinkFree(Below(n, [])) && LinkFree(t) && ([] in n ==> [] in t && n[[]] == t[[]])
    ensures LinkFree(n)
  {
    forall k <- n
      ensures !n[k].Link?
    {
      BelowIs(n, [], k);
      assert [] + k == k;
    }
  }

  // ---------- moving and removing folders ----------

  function Without(fs: Tree, dir: Path): Tree {
    map k | k in fs && !(dir <= k) :: fs[k]
  }

  /** rename of one folder to a name that is free, or held by an empty folder. */
  function Move(fs: Tree, from: Path, to: Path): Tree {
    (Without(Without(fs, from), to) + Shift(to, Below(fs, from)))[to := Folder]
  }

  lemma MovedAt(fs: Tree, from: Path, to: Path, q: Path)
    requires q != []
    ensures to + q in Move(fs, from, to) <==> q in Below(fs, from)
    ensures q in Below(fs, from) ==> Move(fs, from, to)[to + q] == Below(fs, from)[q]
  {
  }

  lemma MoveShows(fs: Tree, from: Path, to: Path)
    requires Apart(from, to)
    ensures Below(Move(fs, from, to), to) == Below(fs, from)
  {
    var n, t := Move(fs, from, to), Below(fs, from);
    forall q
      ensures q in t <==> q != [] && to + q in n
      ensures q in t ==> t[q] == n[to + q]
    {
      BelowIs(fs, from, q);
      if q != [] { MovedAt(fs, from, to, q); }
    }
    BelowEquals(n, to, t);
  }

  lemma MoveLeavesNothing(fs: Tree, from: Path, to: Path)
    requires Apart(from, to)
    ensures forall k <- Move(fs, from, to) :: !(from <= k)
  {
    forall k <- Move(fs, from, to)
      ensures !(from <= k)
    {
      NoCommonPath(from, to, k);
    }
  }

  lemma MoveElsewhere(fs: Tree, from: Path, to: Path, other: Path)
    requires Apart(from, other) && Apart(to, other)
    ensures SameAt(fs, Move(fs, from, to), other)
  {
    var n := Move(fs, from, to);
    forall k | other <= k
      ensures (k in n <==> k in fs) && (k in fs ==> n[k] == fs[k])
    {
      NoCommonPath(from, other, k);
      NoCommonPath(to, other, k);
      MoveOutside(fs, from, to, k);
    }
    SameBelow(fs, n, other);
  }

  lemma MoveOutside(fs: Tree, from: Path, to: Path, k: Path)
    requires !(from <= k) && !(to <= k)
    ensures var n := Move(fs, from, to); (k in n <==> k in fs) && (k in fs ==> n[k] == fs[k])
  {
  }

  /** A removal cut short: some of what lies at and below the folder is gone. */
  function Pruned(fs: Tree, dir: Path, gone: set<Path>): Tree {
    map k | k in fs && !(dir <= k && k in gone) :: fs[k]
  }

  lemma PrunedElsewhere(fs: Tree, dir: Path, gone: set<Path>, other: Path)
    requires Apart(dir, other)
    ensures SameAt(fs, Pruned(fs, dir, gone), other)
  {
    var n := Pruned(fs, dir, gone);
    forall k | other <= k
      ensures (k in n <==> k in fs) && (k in fs ==> n[k] == fs[k])
    {
      NoCommonPath(dir, other, k);
    }
    SameBelow(fs, n, other);
  }

  lemma WithoutElsewhere(fs: Tree, dir: Path, other: Path)
    requires Apart(dir, other)
    ensures SameAt(fs, Without(fs, dir), other)
  {
    var n := Without(fs, dir);
    forall k | other <= k
      ensures (k in n <==> k in fs) && (k in fs ==> n[k] == fs[k])
    {
      NoCommonPath(dir, other, k);
    }
    SameBelow(fs, n, other);
  }

  // ---------- creating a folder and the folders above it ----------

  function MakeFolders(fs: Tree, dir: Path): Tree {
    fs + map p | p in Ancestry(dir) :: Folder
  }

  /** The same cut short: some of those folders. */
  function MakeSome(fs: Tree, dir: Path, made: set<Path>): Tree {
    fs + map p | p in Ancestry(dir) && p in made :: Folder
  }

  lemma MakeSomeElsewhere(fs: Tree, dir: Path, made: set<Path>, other: Path)
    requires Apart(dir, other)
    ensures SameAt(fs, MakeSome(fs, dir, made), other)
  {
    SameBelow(fs, MakeSome(fs, dir, made), other);
  }

  lemma MakeElsewhere(fs: Tree, dir: Path, other: Path)
    requires Apart(dir, other)
    ensures SameAt(fs, MakeFolders(fs, dir), other)
  {
  }

  lemma MakeFresh(fs: Tree, dir: Path)
    requires forall k <- fs :: !(dir <= k)
    ensures var n := MakeFolders(fs, dir); Below(n, dir) == map[] && dir in n && n[dir] == Folder
  {
  }
}
