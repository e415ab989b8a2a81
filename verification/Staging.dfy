/** The staged release: an index of what the archive contains, its extraction into a new private
    tree, and the directory-by-directory check that the tree is exactly the archive. */
module Staging {
  import opened Protocol
  import opened Trees
  import opened FileSystem

  const OWNER_ONLY: Mode := 0x1C0  // 0700, also of executables
  const OWNER_FILE: Mode := 0x180  // 0600

  /** What the archive reader reports for a file. */
  datatype Content = Content(sha: Hash, size: nat)

  /** Paths are relative to the release directory, which is the empty path. */
  datatype Index = Index(directories: set<Path>, modes: map<Path, Mode>)

  function ParentOf(p: Path): Path
    requires p != []
  {
    p[..|p| - 1]
  }

  function LeafOf(p: Path): string
    requires p != []
  {
    p[|p| - 1]
  }

  /** Everything below the top that the index knows. */
  function Known(index: Index, files: map<Path, Content>): set<Path> {
    (index.directories - {[]}) + files.Keys
  }

  ghost function Children(known: set<Path>, d: Path): set<string> {
    set p | p in known && p != [] && ParentOf(p) == d :: LeafOf(p)
  }

  predicate DirectoryOk(t: Option<Tree>, owner: int) {
    t.Some? && t.value.Dir? && t.value.meta.uid == owner && t.value.meta.mode == OWNER_ONLY
  }

  predicate FileOk(t: Option<Tree>, owner: int, mode: Mode, content: Content) {
    && t.Some? && t.value.File? && t.value.meta.uid == owner && t.value.meta.mode == mode
    && |t.value.bytes| == content.size && Sha256(t.value.bytes) == content.sha
  }

  /** The check looks at one directory at a time and at every file. */
  ghost predicate FlatOk(root: Tree, index: Index, files: map<Path, Content>, owner: int) {
    && [] !in files
    && (forall p :: p in Known(index, files) ==> p != [] && ParentOf(p) in index.directories)
    && (forall d :: d in index.directories ==>
          DirectoryOk(At(root, d), owner) && Names(At(root, d).value.kids) == Children(Known(index, files), d))
    && (forall f :: f in files ==> f in index.modes && FileOk(At(root, f), owner, index.modes[f], files[f]))
  }

  /** What it should establish: at every depth, the tree has what the index has and nothing else. */
  ghost predicate WholeOk(root: Tree, index: Index, files: map<Path, Content>, owner: int) {
    && [] !in files
    && (forall q :: At(root, q).Some? <==> q in index.directories || q in files)
    && (forall d :: d in index.directories ==> DirectoryOk(At(root, d), owner))
    && (forall f :: f in files ==> f in index.modes && FileOk(At(root, f), owner, index.modes[f], files[f]))
  }

  // ----------------------------------------------------------------------------------------
  // Flat checks imply whole-tree equality

  lemma KidIsKnown(root: Tree, p: Path, n: string)
    requires At(root, p).Some? && At(root, p).value.Dir?
    ensures n in Names(At(root, p).value.kids) <==> At(root, p + [n]).Some?
  {
    AtAppend(root, p, n);
  }

  lemma ParentIsDirectory(root: Tree, p: Path)
    requires p != [] && At(root, p).Some?
    ensures At(root, ParentOf(p)).Some? && At(root, ParentOf(p)).value.Dir?
    ensures LeafOf(p) in Names(At(root, ParentOf(p)).value.kids)
  {
    assert ParentOf(p) + [LeafOf(p)] == p;
    AtAppend(root, ParentOf(p), LeafOf(p));
  }

  lemma ChildMeans(known: set<Path>, d: Path, n: string)
    ensures n in Children(known, d) <==> d + [n] in known
  {
    if n in Children(known, d) {
      var p :| p in known && p != [] && ParentOf(p) == d && LeafOf(p) == n;
      assert p == d + [n];
    }
    if d + [n] in known {
      assert ParentOf(d + [n]) == d && LeafOf(d + [n]) == n;
    }
  }

  /** An index that names anything names the release directory itself. */
  lemma {:induction false} TopIsKnown(index: Index, files: map<Path, Content>, p: Path)
    requires forall p :: p in Known(index, files) ==> p != [] && ParentOf(p) in index.directories
    requires p in index.directories || p in files
    ensures [] in index.directories
    decreases |p|
  {
    if p in Known(index, files) {
      TopIsKnown(index, files, ParentOf(p));
    }
  }

  lemma DirectoryIsNoFile(root: Tree, index: Index, files: map<Path, Content>, owner: int, d: Path)
    requires forall f :: f in files ==> f in index.modes && FileOk(At(root, f), owner, index.modes[f], files[f])
    requires At(root, d).Some? && At(root, d).value.Dir?
    ensures d !in files
  {
    hide At;
    forall f | f in files ensures f != d { assert FileOk(At(root, f), owner, index.modes[f], files[f]); }
  }

  lemma {:induction false} NothingExtra(root: Tree, index: Index, files: map<Path, Content>, owner: int, q: Path)
    requires FlatOk(root, index, files, owner) && [] in index.directories && At(root, q).Some?
    ensures q in index.directories || q in files
    decreases |q|
  {
    hide At, Children, FileOk, DirectoryOk;
    if q != [] {
      var p, n := ParentOf(q), LeafOf(q);
      ParentIsDirectory(root, q);
      NothingExtra(root, index, files, owner, p);
      DirectoryIsNoFile(root, index, files, owner, p);
      ChildMeans(Known(index, files), p, n);
      assert p + [n] == q;
    }
  }

  /** The check accepts exactly the tree of the index; the one other case is an index without any
      entry, where it looks at nothing. */
  lemma FlatIsWhole(root: Tree, index: Index, files: map<Path, Content>, owner: int)
    ensures FlatOk(root, index, files, owner) <==>
      || (index.directories == {} && files == map[])
      || ([] in index.directories && WholeOk(root, index, files, owner))
  {
    hide At, Children, FileOk, DirectoryOk;
    if FlatOk(root, index, files, owner) && !(index.directories == {} && files == map[]) {
      var p :| p in index.directories || p in files;
      TopIsKnown(index, files, p);
      FlatIsThere(root, index, files, owner);
      forall q | At(root, q).Some? ensures q in index.directories || q in files {
        NothingExtra(root, index, files, owner, q);
      }
    }
    if [] in index.directories && WholeOk(root, index, files, owner) {
      WholeIsFlat(root, index, files, owner);
    }
  }

  lemma FlatIsThere(root: Tree, index: Index, files: map<Path, Content>, owner: int)
    requires FlatOk(root, index, files, owner)
    ensures forall q :: q in index.directories || q in files ==> At(root, q).Some?
  {
    hide At, Children;
  }

  lemma WholeIsFlat(root: Tree, index: Index, files: map<Path, Content>, owner: int)
    requires [] in index.directories && WholeOk(root, index, files, owner)
    ensures FlatOk(root, index, files, owner)
  {
    hide At, Children;
    var known := Known(index, files);
    forall p | p in known ensures p != [] && ParentOf(p) in index.directories {
      ParentIsDirectory(root, p);
      var d := ParentOf(p);
      DirectoryIsNoFile(root, index, files, owner, d);
    }
    forall d | d in index.directories
      ensures DirectoryOk(At(root, d), owner) && Names(At(root, d).value.kids) == Children(known, d)
    {
      forall n ensures n in Names(At(root, d).value.kids) <==> n in Children(known, d) {
        KidIsKnown(root, d, n);
        ChildMeans(known, d, n);
      }
    }
  }

  // ----------------------------------------------------------------------------------------
  // The check

  ghost predicate Gathered(children: map<Path, set<string>>, directories: set<Path>, known: set<Path>) {
    children.Keys == directories && forall d :: d in directories ==> children[d] == Children(known, d)
  }

  /** Collect the expected names of every directory; a name without a known parent is an error. */
  method Gather(index: Index, files: map<Path, Content>) returns (children: Option<map<Path, set<string>>>)
    requires [] !in files
    ensures children.None? <==> exists p :: p in Known(index, files) && ParentOf(p) !in index.directories
    ensures children.Some? ==> Gathered(children.value, index.directories, Known(index, files))
  {
    hide Children;
    var table: map<Path, set<string>> := map d | d in index.directories :: {};
    var rest := Known(index, files);
    ghost var done: set<Path> := {};
    forall d | d in index.directories ensures Children(done, d) == {} { NoChildren(d); }
    while rest != {}
      invariant rest <= Known(index, files) && done == Known(index, files) - rest
      invariant Gathered(table, index.directories, done)
      invariant forall p :: p in done ==> ParentOf(p) in index.directories
      decreases rest
    {
      var p :| p in rest;
      if ParentOf(p) !in index.directories {
        return None;
      }
      forall d | d in index.directories
        ensures Children(done + {p}, d) ==
          if d == ParentOf(p) then Children(done, d) + {LeafOf(p)} else Children(done, d)
      {
        OneChild(done, p, d);
      }
      table := table[ParentOf(p) := table[ParentOf(p)] + {LeafOf(p)}];
      done := done + {p};
      rest := rest - {p};
    }
    assert done == Known(index, files);
    return Some(table);
  }

  lemma NoChildren(d: Path)
    ensures Children({}, d) == {}
  {
  }

  lemma OneChild(known: set<Path>, p: Path, d: Path)
    requires p != []
    ensures Children(known + {p}, d) ==
      if d == ParentOf(p) then Children(known, d) + {LeafOf(p)} else Children(known, d)
  {
  }

  method VerifyTree(root: Tree, index: Index, files: map<Path, Content>, owner: int) returns (ok: bool)
    ensures ok <==> FlatOk(root, index, files, owner)
  {
    hide Children, At, Names;
    if [] in files {
      return false;
    }
    var children := Gather(index, files);
    if children.None? {
      return false;
    }
    var rest := index.directories;
    while rest != {}
      invariant rest <= index.directories
      invariant forall d :: d in index.directories - rest ==>
        DirectoryOk(At(root, d), owner) && Names(At(root, d).value.kids) == Children(Known(index, files), d)
      decreases rest
    {
      var d :| d in rest;
      var t := At(root, d);
      if !DirectoryOk(t, owner) || Names(t.value.kids) != children.value[d] {
        return false;
      }
      rest := rest - {d};
    }
    var left := files.Keys;
    while left != {}
      invariant left <= files.Keys
      invariant forall f :: f in files && f !in left ==>
        f in index.modes && FileOk(At(root, f), owner, index.modes[f], files[f])
      decreases left
    {
      var f :| f in left;
      if f !in index.modes || !FileOk(At(root, f), owner, index.modes[f], files[f]) {
        return false;
      }
      left := left - {f};
    }
    return true;
  }

  // ----------------------------------------------------------------------------------------
  // Extraction

  datatype Member = Folder(path: Path) | Document(path: Path, mode: Mode, bytes: Bytes)

  predicate EndsWith(s: string, suffix: string) {
    |suffix| <= |s| && s[|s| - |suffix|..] == suffix
  }

  const RUNTIME_TOPS: set<string> := {"data", "backups", "secrets", "private", ".git", ".ssh"}
  const RUNTIME_NAMES: set<string> := {".env", ".git", ".ssh", "__pycache__"}
  const RUNTIME_SUFFIXES: seq<string> := [".db", ".sqlite", ".sqlite3", ".log", ".pyc", ".pyo"]
  const OVERRIDES: set<string> :=
    {"docker-compose.override.yml", "docker-compose.override.yaml", "compose.override.yml",
     "compose.override.yaml", "compose.yml", "compose.yaml"}

  predicate RuntimeName(part: string) {
    || part in RUNTIME_NAMES
    || (".env." <= part && part != ".env.example")
    || exists i :: 0 <= i < |RUNTIME_SUFFIXES| && EndsWith(part, RUNTIME_SUFFIXES[i])
  }

  /** Nothing that belongs to a running installation; only an empty data directory. */
  predicate PolicyOk(m: Member) {
    && (m.path != [] && m.path[0] in RUNTIME_TOPS ==> m == Folder(["data"]))
    && (forall i :: 0 <= i < |m.path| ==> !RuntimeName(m.path[i]))
    && !(|m.path| == 1 && m.path[0] in OVERRIDES)
  }

  /** What its owner may execute stays executable, for the owner alone. */
  function ModeOf(mode: Mode): Mode {
    if mode & 0x40 != 0 then OWNER_ONLY else OWNER_FILE
  }

  ghost predicate Distinct(members: seq<Member>) {
    forall i, k :: 0 <= i < k < |members| ==> members[i].path != members[k].path
  }

  /** The index of a list of members. */
  ghost predicate Indexed(members: seq<Member>, index: Index, files: map<Path, Content>) {
    && (forall p :: p in index.directories <==> Folder(p) in members)
    && files.Keys == index.modes.Keys
    && (forall p :: p in files ==> exists m :: m in members && m.Document? && m.path == p)
    && (forall m :: m in members && m.Document? ==>
          && m.path in files && index.modes[m.path] == ModeOf(m.mode)
          && files[m.path] == Content(Sha256(m.bytes), |m.bytes|))
  }

  lemma NextIndexed(members: seq<Member>, index: Index, files: map<Path, Content>, m: Member)
    requires Indexed(members, index, files) && forall o :: o in members ==> o.path != m.path
    ensures m.Folder? ==> Indexed(members + [m], index.(directories := index.directories + {m.path}), files)
    ensures m.Document? ==> Indexed(members + [m], index.(modes := index.modes[m.path := ModeOf(m.mode)]),
                                    files[m.path := Content(Sha256(m.bytes), |m.bytes|)])
  {
    assert forall o :: o in members + [m] <==> o in members || o == m;
  }

  /** The first pass over the archive: reject runtime state before anything is written. */
  method Scan(members: seq<Member>) returns (found: Option<(Index, map<Path, Content>)>)
    requires Distinct(members)
    ensures found.Some? <==> forall m :: m in members ==> PolicyOk(m)
    ensures found.Some? ==> Indexed(members, found.value.0, found.value.1)
  {
    hide PolicyOk;
    var index, files := Index({}, map[]), map[];
    for i := 0 to |members|
      invariant Indexed(members[..i], index, files)
      invariant forall m :: m in members[..i] ==> PolicyOk(m)
    {
      var m := members[i];
      if !PolicyOk(m) {
        return None;
      }
      assert members[..i + 1] == members[..i] + [m];
      NextIndexed(members[..i], index, files, m);
      match m
      case Folder(path) => index := index.(directories := index.directories + {path});
      case Document(path, mode, bytes) =>
        index := index.(modes := index.modes[path := ModeOf(mode)]);
        files := files[path := Content(Sha256(bytes), |bytes|)];
    }
    assert members[..|members|] == members;
    return Some((index, files));
  }

  ghost predicate PrivateFile(n: Option<Node>, m: Member) {
    && m.Document? && n.Some? && n.value.FileNode? && n.value.meta.uid == 0
    && n.value.meta.mode == ModeOf(m.mode) && n.value.bytes == m.bytes
  }

  /** While it is extracted, the tree has exactly these directories and files. */
  ghost predicate Extracted(root: Tree, dirs: set<Path>, docs: seq<Member>) {
    && TreeOk(root) && PrivateDirectory(NodeAt(root, []))
    && (forall d :: d in dirs ==> PrivateDirectory(NodeAt(root, d)))
    && (forall m :: m in docs && m.Document? ==> PrivateFile(NodeAt(root, m.path), m))
    && (forall q :: NodeAt(root, q).Some? ==>
          q == [] || q in dirs || exists m :: m in docs && m.Document? && m.path == q)
  }

  lemma DocumentExtracted(root: Tree, root': Tree, dirs: set<Path>, docs: seq<Member>, m: Member, meta: Meta, now: int)
    requires Extracted(root, dirs, docs) && m.Document? && m.path != [] && TreeOk(root') && NodeAt(root, m.path).None?
    requires meta.uid == 0 && meta.mode == ModeOf(m.mode)
      && Grown(root, root', m.path, FileNode(meta, m.bytes), now)
    ensures Extracted(root', dirs, docs + [m])
  {
    hide NodeAt;
    assert forall o :: o in docs + [m] <==> o in docs || o == m;
    forall o | o in docs && o.Document? ensures PrivateFile(NodeAt(root', o.path), o) {
      assert PrivateFile(NodeAt(root, o.path), o);
    }
  }

  lemma ScaffoldIsExtracted(root: Tree, dirs: set<Path>)
    requires Scaffold(root, dirs) && [] !in dirs
    ensures Extracted(root, dirs, [])
  {
    hide NodeAt;
  }

  lemma ExtractedOk(root: Tree, dirs: set<Path>, docs: seq<Member>)
    requires Extracted(root, dirs, docs)
    ensures TreeOk(root)
  {
  }

  /** The second pass: files in the order of the archive. */
  method WriteDocuments(out: Output, dirs: set<Path>, members: seq<Member>, time: int) returns (ok: bool)
    requires Distinct(members) && Extracted(out.root, dirs, [])
    requires forall m :: m in members && m.Document? ==> m.path !in dirs
    modifies out
    ensures TreeOk(out.root)
    ensures (forall m :: m in members && m.Document? ==>
      m.path != [] && (ParentOf(m.path) == [] || ParentOf(m.path) in dirs)) ==> ok
    ensures ok ==> Extracted(out.root, dirs, members) && forall m :: m in members && m.Document? ==> m.path != []
  {
    hide Extracted, Grown, NodeAt;
    ExtractedOk(out.root, dirs, []);
    for i := 0 to |members|
      invariant TreeOk(out.root) && Extracted(out.root, dirs, members[..i])
      invariant forall m :: m in members[..i] && m.Document? ==> m.path != []
    {
      var m := members[i];
      assert members[..i + 1] == members[..i] + [m];
      ghost var before, now := out.root, out.clock(out.tick);
      if m.Document? {
        if m.path == [] {
          return false;
        }
        DocumentFree(before, dirs, members, i);
        var meta := Meta(0, 0, ModeOf(m.mode), time);
        ok := out.Create(m.path, m.bytes, meta);
        if !ok {
          return false;
        }
        DocumentExtracted(before, out.root, dirs, members[..i], m, meta, now);
      } else {
        FolderSkipped(before, dirs, members[..i], m);
      }
    }
    assert members[..|members|] == members;
    return true;
  }

  lemma DocumentFree(root: Tree, dirs: set<Path>, members: seq<Member>, i: nat)
    requires i < |members| && Distinct(members) && Extracted(root, dirs, members[..i])
    requires members[i].Document? && members[i].path != [] && members[i].path !in dirs
    ensures NodeAt(root, members[i].path).None?
    ensures ParentOf(members[i].path) == [] || ParentOf(members[i].path) in dirs
      ==> IsDirectory(root, members[i].path[..|members[i].path| - 1])
  {
    hide NodeAt;
    forall m | m in members[..i] ensures m.path != members[i].path {
      var k :| 0 <= k < i && members[..i][k] == m;
      assert members[k] == m;
    }
  }

  lemma FolderSkipped(root: Tree, dirs: set<Path>, docs: seq<Member>, m: Member)
    requires Extracted(root, dirs, docs) && m.Folder?
    ensures Extracted(root, dirs, docs + [m])
  {
    assert forall o :: o in docs + [m] <==> o in docs || o == m;
    hide NodeAt;
  }

  /** A tree with exactly the members is the whole tree of their index. */
  lemma ExtractedIsWhole(root: Tree, members: seq<Member>, index: Index, files: map<Path, Content>)
    requires Indexed(members, index, files) && Extracted(root, index.directories - {[]}, members)
      && [] in index.directories
    requires [] !in files
    ensures WholeOk(root, index, files, 0)
  {
    hide At;
    forall q ensures At(root, q).Some? <==> q in index.directories || q in files {
      if q in files {
        var m :| m in members && m.Document? && m.path == q;
        assert PrivateFile(NodeAt(root, m.path), m);
      }
      assert NodeAt(root, q).Some? <==> At(root, q).Some?;
    }
    forall d | d in index.directories ensures DirectoryOk(At(root, d), 0) {
      assert PrivateDirectory(NodeAt(root, d));
    }
    forall f | f in files ensures f in index.modes && FileOk(At(root, f), 0, index.modes[f], files[f]) {
      var m :| m in members && m.Document? && m.path == f;
      assert PrivateFile(NodeAt(root, m.path), m);
    }
  }

  /** Every directory and file of the archive comes with its parent directory, up to the top. */
  ghost predicate Parented(index: Index, files: map<Path, Content>) {
    [] !in files && forall p :: p in Known(index, files) ==> p != [] && ParentOf(p) in index.directories
  }

  /** A member that belongs to a running installation: something in one of its private directories
      other than an empty data directory, its environment, a cache, a database or log, or a file that
      would override the compose configuration. */
  ghost predicate LiveState(m: Member) {
    || (m.path != [] && m.path[0] in {"data", "backups", "secrets", "private", ".git", ".ssh"} && m != Folder(["data"]))
    || m.path in {["docker-compose.override.yml"], ["docker-compose.override.yaml"], ["compose.override.yml"],
                  ["compose.override.yaml"], ["compose.yml"], ["compose.yaml"]}
    || exists i :: 0 <= i < |m.path| && LivePart(m.path[i])
  }

  ghost predicate LivePart(part: string) {
    || part in {".env", ".git", ".ssh", "__pycache__"}
    || (exists rest: string :: part == ".env." + rest && rest != "example")
    || exists stem: string, suffix ::
         part == stem + suffix && suffix in {".db", ".sqlite", ".sqlite3", ".log", ".pyc", ".pyo"}
  }

  lemma LivePartMeans(part: string)
    ensures RuntimeName(part) <==> LivePart(part)
  {
    if ".env." <= part {
      var rest := part[|".env."|..];
      assert part == ".env." + rest;
      assert ".env." + "example" == ".env.example";
      assert part == ".env.example" ==> rest == "example";
    }
    assert RUNTIME_SUFFIXES[0] == ".db" && RUNTIME_SUFFIXES[1] == ".sqlite" && RUNTIME_SUFFIXES[2] == ".sqlite3"
      && RUNTIME_SUFFIXES[3] == ".log" && RUNTIME_SUFFIXES[4] == ".pyc" && RUNTIME_SUFFIXES[5] == ".pyo";
    forall i | 0 <= i < |RUNTIME_SUFFIXES| && EndsWith(part, RUNTIME_SUFFIXES[i])
      ensures exists stem: string :: part == stem + RUNTIME_SUFFIXES[i]
    {
      var stem := part[..|part| - |RUNTIME_SUFFIXES[i]|];
      assert part == stem + RUNTIME_SUFFIXES[i];
    }
    forall stem: string, i | 0 <= i < |RUNTIME_SUFFIXES| && part == stem + RUNTIME_SUFFIXES[i]
      ensures EndsWith(part, RUNTIME_SUFFIXES[i])
    {
    }
  }

  lemma PolicyMeans(m: Member)
    ensures PolicyOk(m) <==> !LiveState(m)
  {
    hide RuntimeName, LivePart;
    forall i | 0 <= i < |m.path| ensures RuntimeName(m.path[i]) <==> LivePart(m.path[i]) { LivePartMeans(m.path[i]); }
    if |m.path| == 1 { assert m.path == [m.path[0]]; }
  }

  /** Everything but the top of the archive has the directory it is in, and the top is a directory. */
  ghost predicate WithParents(members: seq<Member>) {
    forall m :: m in members ==> HasParent(m, members)
  }

  predicate HasParent(m: Member, members: seq<Member>) {
    if m.path == [] then m.Folder? else Folder(m.path[..|m.path| - 1]) in members
  }

  /** The tree is the archive: private to its owner, executable where the archive says so, and with
      nothing else in it. */
  ghost predicate Delivered(root: Tree, members: seq<Member>) {
    && (forall q: Path :: At(root, q).Some? <==> exists m :: m in members && m.path == q)
    && forall m :: m in members ==>
         && At(root, m.path).Some?
         && var t := At(root, m.path).value;
            && t.meta.uid == 0
            && match m
               case Folder(_) => t.Dir? && t.meta.mode == 0x1C0
               case Document(_, mode, bytes) =>
                 t.File? && t.bytes == bytes && t.meta.mode == if mode as int / 64 % 2 == 1 then 0x1C0 else 0x180
  }

  lemma ParentedMeans(members: seq<Member>, index: Index, files: map<Path, Content>)
    requires Indexed(members, index, files)
    ensures Parented(index, files) <==> WithParents(members)
  {
    hide Parented, WithParents, Indexed;
    if Parented(index, files) { ParentsListed(members, index, files); }
    if WithParents(members) { ListedParents(members, index, files); }
  }

  lemma ParentsListed(members: seq<Member>, index: Index, files: map<Path, Content>)
    requires Indexed(members, index, files) && Parented(index, files)
    ensures WithParents(members)
  {
    forall m | m in members
      ensures HasParent(m, members)
    {
      MemberIsIndexed(members, index, files, m);
      if m.path != [] { assert m.path in Known(index, files) && ParentOf(m.path) == m.path[..|m.path| - 1]; }
    }
  }

  lemma MemberIsIndexed(members: seq<Member>, index: Index, files: map<Path, Content>, m: Member)
    requires Indexed(members, index, files) && m in members
    ensures if m.Folder? then m.path in index.directories else m.path in files
  {
    assert m.Folder? ==> m == Folder(m.path);
  }

  lemma ParentIsListed(members: seq<Member>, m: Member)
    requires HasParent(m, members)
    ensures m.path == [] ==> m.Folder?
    ensures m.path != [] ==> Folder(ParentOf(m.path)) in members
  {
  }

  lemma ListedParents(members: seq<Member>, index: Index, files: map<Path, Content>)
    requires Indexed(members, index, files) && WithParents(members)
    ensures Parented(index, files)
  {
    hide HasParent;
    forall p | p in files ensures p != [] && ParentOf(p) in index.directories {
      var m :| m in members && m.Document? && m.path == p;
      ParentIsListed(members, m);
    }
    forall p | p in index.directories && p != [] ensures ParentOf(p) in index.directories {
      ParentIsListed(members, Folder(p));
    }
  }

  lemma WholeIsDelivered(root: Tree, members: seq<Member>, index: Index, files: map<Path, Content>)
    requires Indexed(members, index, files) && WholeOk(root, index, files, 0)
    ensures Delivered(root, members)
  {
    hide At;
    forall q: Path ensures (q in index.directories || q in files) <==> exists m :: m in members && m.path == q {
      if q in index.directories { assert Folder(q) in members; }
      if q in files { var m :| m in members && m.Document? && m.path == q; }
      if m :| m in members && m.path == q {
        assert m.Folder? ==> m == Folder(q);
      }
    }
    forall m | m in members && m.Document?
      ensures FileOk(At(root, m.path), 0, ModeOf(m.mode), Content(Sha256(m.bytes), |m.bytes|))
    {
      OwnerExecutes(m.mode);
      assert m.path in files;
    }
    forall m | m in members && m.Folder? ensures DirectoryOk(At(root, m.path), 0) {
      assert m == Folder(m.path);
    }
    forall m | m in members && m.Document?
      ensures ModeOf(m.mode) == if m.mode as int / 64 % 2 == 1 then 0x1C0 else 0x180
    {
      OwnerExecutes(m.mode);
    }
  }

  /** Index, directories, files, check: an archive whose paths are distinct is extracted if and only
      if it holds no runtime state and all its parents; then the tree is the archive. */
  method Extract(members: seq<Member>, time: int, clock: nat -> int) returns (ok: bool, out: Output)
    requires Distinct(members)
    ensures fresh(out)
    ensures ok <==> (forall m :: m in members ==> !LiveState(m)) && WithParents(members)
    ensures ok && members != [] ==> Delivered(out.root, members)
  {
    hide PolicyOk, Extracted, Indexed, FlatOk, WholeOk, Closed, Scaffold, LiveState, WithParents, Delivered, Parented;
    forall m | m in members ensures PolicyOk(m) <==> !LiveState(m) { PolicyMeans(m); }
    out := new Output(clock);
    var found := Scan(members);
    if found.None? {
      return false, out;
    }
    var (index, files) := found.value;
    ParentedMeans(members, index, files);
    EmptyScaffold(out.root);
    PathsApart(members, index, files);
    if Parented(index, files) { ParentedGoes(members, index, files); }
    ok := out.MakeAll(index.directories - {[]});
    if !ok {
      return false, out;
    }
    ScaffoldIsExtracted(out.root, index.directories - {[]});
    ok := WriteDocuments(out, index.directories - {[]}, members, time);
    if !ok {
      return false, out;
    }
    NamedDocuments(members, index, files);
    CheckOutcome(out.root, members, index, files);
    ok := VerifyTree(out.root, index, files, 0);
    if ok && members != [] { WholeIsDelivered(out.root, members, index, files); }
  }

  lemma PathsApart(members: seq<Member>, index: Index, files: map<Path, Content>)
    requires Distinct(members) && Indexed(members, index, files)
    ensures forall m :: m in members && m.Document? ==> m.path !in index.directories
  {
    forall m | m in members && m.Document? ensures m.path !in index.directories {
      if Folder(m.path) in members { SamePathSame(members, m, Folder(m.path)); }
    }
  }

  lemma SamePathSame(members: seq<Member>, a: Member, b: Member)
    requires Distinct(members) && a in members && b in members && a.path == b.path
    ensures a == b
  {
    var i :| 0 <= i < |members| && members[i] == a;
    var k :| 0 <= k < |members| && members[k] == b;
    assert !(i < k) && !(k < i);
  }

  lemma ParentedGoes(members: seq<Member>, index: Index, files: map<Path, Content>)
    requires Indexed(members, index, files) && Parented(index, files)
    ensures Closed(index.directories - {[]})
    ensures forall m :: m in members && m.Document? ==>
      m.path != [] && (ParentOf(m.path) == [] || ParentOf(m.path) in index.directories - {[]})
  {
    forall m | m in members && m.Document?
      ensures m.path != [] && (ParentOf(m.path) == [] || ParentOf(m.path) in index.directories - {[]})
    {
      assert m.path in Known(index, files);
    }
    var dirs := index.directories - {[]};
    forall q | q in dirs ensures q != [] && (|q| > 1 ==> q[..|q| - 1] in dirs) {
      assert q in Known(index, files) && ParentOf(q) == q[..|q| - 1];
    }
  }

  lemma CheckOutcome(root: Tree, members: seq<Member>, index: Index, files: map<Path, Content>)
    requires Indexed(members, index, files) && Extracted(root, index.directories - {[]}, members) && [] !in files
    ensures FlatOk(root, index, files, 0) <==> Parented(index, files)
    ensures FlatOk(root, index, files, 0) && members != [] ==> WholeOk(root, index, files, 0)
  {
    FlatIsWhole(root, index, files, 0);
    if members != [] {
      assert members[0] in members;
      assert members[0].path in index.directories || members[0].path in files;
    } else {
      assert index.directories == {} && files == map[] by { NoMembers(index, files); }
    }
    hide Extracted, WholeOk;
    if Parented(index, files) && members != [] {
      TopIsKnown(index, files, members[0].path);
      ExtractedIsWhole(root, members, index, files);
    }
  }

  lemma NamedDocuments(members: seq<Member>, index: Index, files: map<Path, Content>)
    requires Indexed(members, index, files) && forall m :: m in members && m.Document? ==> m.path != []
    ensures [] !in files
  {
    forall p | p in files ensures p != [] { var m :| m in members && m.Document? && m.path == p; }
  }

  lemma NoMembers(index: Index, files: map<Path, Content>)
    requires Indexed([], index, files)
    ensures index.directories == {} && files == map[]
  {
    assert forall p :: p !in index.directories;
    assert forall p :: p !in files;
  }
}
