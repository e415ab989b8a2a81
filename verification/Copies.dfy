/** Building the candidate's generation: the release with normalised ownership, and the original's
    data and environment from the snapshot, copied into new directories only. */
module Copies {
  import opened Protocol
  import opened Trees
  import opened Inventory
  import opened InventoryLaws
  import opened FileSystem
  import opened Snapshot

  datatype Owner = Owner(uid: int, gid: int)

  const EXECUTABLE: Mode := 0x1ED // 0755
  const READABLE: Mode := 0x1A4   // 0644

  /** Release files get the installation's owner and one of two modes. */
  function NormalMeta(meta: Meta, isDirectory: bool, owner: Owner): Meta {
    Meta(owner.uid, owner.gid, if isDirectory || meta.mode & 0x40 != 0 then EXECUTABLE else READABLE, meta.mtime)
  }

  /** A snapshot keeps its own metadata. */
  function Normalized(i: Item, release: Option<Owner>): Item {
    if release.None? then i else i.(meta := NormalMeta(i.meta, i.DirItem?, release.value))
  }

  function NormalizedAll(entries: Manifest, release: Option<Owner>): Manifest {
    map p | p in entries :: Normalized(entries[p], release)
  }

  /** What the copy should be: exactly the entries, with these metadata and bytes. */
  ghost predicate CopyOf(root: Tree, entries: Manifest, objects: map<nat, Bytes>) {
    TreeOk(root) && IsDirectory(root, []) && forall q: Path :: q != [] ==>
      NodeAt(root, q) == Wanted(entries, objects, q)
  }

  /** The entries hang together: every directory and file has its parent among them. */
  ghost predicate Coherent(entries: Manifest) {
    [] !in entries && Closed(Directories(entries)) && Housed(entries, Directories(entries))
  }

  lemma NormalizedKeeps(entries: Manifest, objects: map<nat, Bytes>, release: Option<Owner>)
    ensures Coherent(entries) ==> Coherent(NormalizedAll(entries, release))
    ensures Copied(entries, objects) <==> Copied(NormalizedAll(entries, release), objects)
    ensures Directories(NormalizedAll(entries, release)) == Directories(entries)
  {
    var m := NormalizedAll(entries, release);
    assert forall q :: IsFile(m, q) <==> IsFile(entries, q);
    assert Directories(m) == Directories(entries);
    forall q | IsFile(entries, q)
      ensures m[q].number == entries[q].number && m[q].sha == entries[q].sha && m[q].size == entries[q].size
    {}
  }

  /** Directories, files, then the directories' metadata. It fails only if a source no longer has
      the recorded content. */
  method Copy(entries: Manifest, objects: map<nat, Bytes>, release: Option<Owner>, clock: nat -> int)
    returns (ok: bool, out: Output)
    requires Coherent(entries)
    ensures fresh(out)
    ensures ok <==> Copied(entries, objects)
    ensures ok ==> CopyOf(out.root, NormalizedAll(entries, release), objects)
  {
    hide Closed, Housed, Copied, Scaffold, Stage, CopyOf, Normalized, NormalizedAll;
    out := new Output(clock);
    var copied := NormalizedAll(entries, release);
    NormalizedKeeps(entries, objects, release);
    ok := CopiesMatch(copied, objects);
    if !ok {
      return false, out;
    }
    var names := set q | q in copied && copied[q].DirItem?;
    assert names == Directories(copied);
    EmptyScaffold(out.root);
    var made := out.MakeAll(names);
    assert made;
    ScaffoldIsStage(out.root, copied, objects, names);
    CopyFiles(out, copied, objects, names);
    FinishDirectories(out, copied, objects, names);
    CopyFinished(out.root, copied, objects);
  }

  lemma CopyFinished(root: Tree, entries: Manifest, objects: map<nat, Bytes>)
    requires Stage(root, entries, objects, Directories(entries), FilePaths(entries), Directories(entries))
    ensures CopyOf(root, entries, objects)
  {
    hide NodeAt;
    forall q: Path | q != [] ensures NodeAt(root, q) == Wanted(entries, objects, q) {
      if q !in Directories(entries) && q !in FilePaths(entries) { assert q !in entries; }
    }
  }

  // ----------------------------------------------------------------------------------------
  // The original's private files

  /** The part of a snapshot that the candidate starts from. */
  function Private(entries: Manifest): Manifest {
    map q | q in entries && (q == ENV || (q != [] && q[0] == "data")) :: entries[q]
  }

  /** The private part of a capture is coherent, and its copies are intact. */
  lemma PrivateIsCoherent(entries: Manifest, total: nat, objects: map<nat, Bytes>, policy: Enrollment, limits: Limits)
    requires Trusted(entries, total, objects, policy, limits)
    ensures Coherent(Private(entries)) && Copied(Private(entries), objects)
  {
    hide ManifestOk, ItemPlaced;
    ObjectsCopied(entries, objects);
    AllPlaced(entries, total, policy, limits);
    PrivatePlaced(entries);
    var m := Private(entries);
    assert forall q :: IsFile(m, q) ==> IsFile(entries, q);
  }

  lemma PrivatePlaced(entries: Manifest)
    requires forall q :: q in entries ==> ItemPlaced(entries, q)
    ensures Coherent(Private(entries))
  {
    var m := Private(entries);
    forall q | q in m
      ensures q != [] && (|q| > 1 ==> q[..|q| - 1] in Directories(m))
    {
      assert ItemPlaced(entries, q);
      if |q| > 1 {
        assert q != ENV && q[0] == "data" && q != DATA;
        assert q[..|q| - 1][0] == "data";
      }
    }
    forall q | q in m && m[q].FileItem? ensures q !in Directories(m) {}
  }

  /** A snapshot that is trusted is copied as it is; any other one is refused before anything is
      copied. */
  method CopyPrivate(entries: Manifest, total: nat, objects: map<nat, Bytes>, policy: Enrollment, limits: Limits,
                     clock: nat -> int)
    returns (ok: bool, out: Output)
    ensures fresh(out)
    ensures ok <==> Trusted(entries, total, objects, policy, limits)
    ensures ok ==> CopyOf(out.root, Private(entries), objects)
  {
    hide ManifestOk, ObjectsOk, Coherent, Copied, CopyOf, Private, NormalizedAll;
    var valid := Validate(entries, total, policy, limits);
    if valid {
      valid := VerifyObjects(entries, objects);
    }
    if !valid {
      out := new Output(clock);
      return false, out;
    }
    PrivateIsCoherent(entries, total, objects, policy, limits);
    SnapshotsAreKept(Private(entries));
    ok, out := Copy(Private(entries), objects, None, clock);
  }

  lemma SnapshotsAreKept(entries: Manifest)
    ensures NormalizedAll(entries, None) == entries
  {
  }

  /** The candidate starts from exactly the original's data and environment: the same trees. */
  lemma PrivateCopyIsOriginal(root: Tree, out: Tree, policy: Enrollment, limits: Limits)
    requires TreeOk(root) && Present(root, PLACES) && FitPlaces(root, PLACES, Owners(policy), limits, 0, 0)
    requires Restorable(root, policy)
    requires CopyOf(out, Private(Captured(root).entries), Captured(root).objects)
    ensures At(out, DATA) == At(root, DATA) && At(out, ENV) == At(root, ENV)
  {
    hide FitPlaces, CopyOf, Captured, At, ManifestOk, Under, Writable, Sealed, EntryThere;
    CapturedIsValid(root, policy, limits);
    SealedObjects(Captured(root));
    assert PLACES[1] == ENV && PLACES[|CONFIG|] == DATA;
    forall r: Path ensures EntryThere(root, DATA + r) == EntryThere(out, DATA + r) {
      PrivateEntry(root, out, DATA + r);
    }
    forall r: Path ensures EntryThere(root, ENV + r) == EntryThere(out, ENV + r) {
      if r == [] {
        assert ENV + r == ENV;
        PrivateEntry(root, out, ENV);
      } else {
        NothingBelowEnv(root, out, r);
      }
    }
    CopyIsOk(out, Private(Captured(root).entries), Captured(root).objects);
    SameThere(root, out, DATA);
    SameThere(root, out, ENV);
  }

  lemma CopyIsOk(root: Tree, entries: Manifest, objects: map<nat, Bytes>)
    requires CopyOf(root, entries, objects)
    ensures TreeOk(root)
  {
  }

  lemma PrivateEntry(root: Tree, out: Tree, q: Path)
    requires TreeOk(root) && Present(root, PLACES) && (q == ENV || (q != [] && q[0] == "data"))
    requires CopyOf(out, Private(Captured(root).entries), Captured(root).objects)
    requires ObjectsOk(Captured(root).entries, Captured(root).objects)
    ensures EntryThere(root, q) == EntryThere(out, q)
  {
    hide At, Captured;
    var m, objects := Captured(root).entries, Captured(root).objects;
    CapturedWalk(root, q);
    assert Under(PLACES, q) by {
      if q == ENV { assert PLACES[1] <= q; } else { assert PLACES[|CONFIG|] <= q; }
    }
    assert NodeAt(out, q) == Wanted(Private(m), objects, q);
    assert IsFile(m, q) ==> m[q].number in objects && Sha256(objects[m[q].number]) == m[q].sha;
  }

  lemma NothingBelowEnv(root: Tree, out: Tree, r: Path)
    requires TreeOk(root) && Present(root, PLACES) && At(root, PLACES[1]).value.File? && r != []
    requires CopyOf(out, Private(Captured(root).entries), Captured(root).objects)
    ensures EntryThere(root, ENV + r) == EntryThere(out, ENV + r)
  {
    hide Captured;
    var q := ENV + r;
    assert PLACES[1] == ENV;
    AtSplit(root, ENV, r);
    assert q != ENV && q[0] == ".env" && ".env"[0] != "data"[0];
    assert NodeAt(out, q) == Wanted(Private(Captured(root).entries), Captured(root).objects, q);
  }

  // ----------------------------------------------------------------------------------------
  // The release

  /** A tree with normalised metadata throughout. */
  function NormalTree(t: Tree, owner: Owner): Tree {
    match t
    case File(meta, bytes) => File(NormalMeta(meta, false, owner), bytes)
    case Dir(meta, kids) => Dir(NormalMeta(meta, true, owner), NormalForest(kids, owner))
  }

  function NormalForest(f: Forest, owner: Owner): Forest {
    match f
    case Nil => Nil
    case Cons(n, t, rest) => Cons(n, NormalTree(t, owner), NormalForest(rest, owner))
  }

  lemma {:induction false} NormalLookup(f: Forest, owner: Owner, n: string)
    ensures Names(NormalForest(f, owner)) == Names(f)
    ensures Lookup(NormalForest(f, owner), n) ==
      match Lookup(f, n) { case None => None case Some(t) => Some(NormalTree(t, owner)) }
  {
    match f
    case Nil =>
    case Cons(_, _, rest) => NormalLookup(rest, owner, n);
  }

  lemma {:induction false} NormalTreeOk(t: Tree, owner: Owner)
    requires TreeOk(t)
    ensures TreeOk(NormalTree(t, owner))
    decreases t
  {
    if t.Dir? { NormalForestOk(t.kids, owner); }
  }

  lemma {:induction false} NormalForestOk(f: Forest, owner: Owner)
    requires ForestOk(f)
    ensures ForestOk(NormalForest(f, owner))
    decreases f
  {
    match f
    case Nil =>
    case Cons(n, t, rest) =>
      NormalTreeOk(t, owner);
      NormalForestOk(rest, owner);
      NormalLookup(rest, owner, n);
  }

  lemma {:induction false} NormalAt(t: Tree, owner: Owner, p: Path)
    ensures At(NormalTree(t, owner), p) ==
      match At(t, p) { case None => None case Some(u) => Some(NormalTree(u, owner)) }
    decreases |p|
  {
    if p != [] && t.Dir? {
      NormalLookup(t.kids, owner, p[0]);
      if Lookup(t.kids, p[0]).Some? { NormalAt(Lookup(t.kids, p[0]).value, owner, p[1..]); }
    }
  }

  predicate Distinct(names: seq<string>) {
    forall i, k :: 0 <= i < k < |names| ==> names[i] != names[k]
  }

  /** The top-level entries with these names. */
  function TopLevel(names: seq<string>): (paths: seq<Path>)
    ensures |paths| == |names| && forall i :: 0 <= i < |names| ==> paths[i] == [names[i]]
  {
    if names == [] then [] else TopLevel(names[..|names| - 1]) + [[names[|names| - 1]]]
  }

  lemma OneName(a: string, b: string)
    requires a != b
    ensures !([a] <= [b])
  {
    assert [a][0] != [b][0];
  }

  lemma TopLevelApart(names: seq<string>)
    requires Distinct(names)
    ensures Apart(TopLevel(names))
  {
    var paths := TopLevel(names);
    hide TopLevel;
    forall i, k | 0 <= i < k < |paths| ensures !(paths[i] <= paths[k]) && !(paths[k] <= paths[i]) {
      OneName(names[i], names[k]);
      OneName(names[k], names[i]);
    }
  }

  lemma NameIsThere(src: Tree, names: seq<string>, n: string)
    requires Present(src, TopLevel(names)) && n in names
    ensures At(src, [n]).Some?
  {
    hide TopLevel, At;
    var i :| 0 <= i < |names| && names[i] == n;
    assert At(src, TopLevel(names)[i]).Some?;
  }

  lemma TopLevelUnder(names: seq<string>, q: Path)
    ensures Under(TopLevel(names), q) <==> q != [] && q[0] in names
  {
    hide TopLevel;
    var paths := TopLevel(names);
    if q != [] && q[0] in names {
      var i :| 0 <= i < |names| && names[i] == q[0];
      assert paths[i] <= q;
    }
  }

  /** The inventory of a staged release. */
  function Inventoried(src: Tree, names: seq<string>): Tally
    requires Present(src, TopLevel(names))
  {
    AddPlaces(NOTHING, true, src, TopLevel(names))
  }

  lemma InventoriedWalk(src: Tree, names: seq<string>, q: Path)
    requires TreeOk(src) && Present(src, TopLevel(names))
    requires Distinct(names)
    ensures var m := Inventoried(src, names).entries;
      && (q in m <==> q != [] && q[0] in names && At(src, q).Some?)
      && (q in m ==> PlainItem(m[q]) == EntryOf(At(src, q).value))
  {
    var paths := TopLevel(names);
    TopLevelApart(names);
    TopLevelUnder(names, q);
    NothingYet(paths);
    PlacesWalk(NOTHING, true, src, paths, q);
    hide AddPlaces, At, Under;
    var m := Inventoried(src, names).entries;
    assert q in m <==> q in WithoutObjects(m);
  }

  lemma InventoriedCopied(src: Tree, names: seq<string>)
    requires TreeOk(src) && Present(src, TopLevel(names))
    requires Distinct(names)
    ensures Copied(Inventoried(src, names).entries, Inventoried(src, names).objects)
  {
    TopLevelApart(names);
    NothingYet(TopLevel(names));
    NothingSealed({}, Limits(0, 0, 0));
    PlacesSealed(NOTHING, src, TopLevel(names));
    hide AddPlaces, Dense, Copied;
  }

  lemma InventoriedCoherent(src: Tree, names: seq<string>)
    requires TreeOk(src) && Present(src, TopLevel(names))
    requires Distinct(names)
    ensures Coherent(Inventoried(src, names).entries)
  {
    hide Inventoried, At, Distinct;
    var m := Inventoried(src, names).entries;
    InventoriedWalk(src, names, []);
    forall q | q in m ensures q != [] && (|q| > 1 ==> q[..|q| - 1] in Directories(m)) {
      InventoriedWalk(src, names, q);
      if |q| > 1 {
        var p := q[..|q| - 1];
        AtAppend(src, p, q[|q| - 1]);
        assert p + [q[|q| - 1]] == q && p[0] == q[0];
        InventoriedWalk(src, names, p);
      }
    }
  }

  lemma ReleaseEntry(src: Tree, out: Tree, names: seq<string>, owner: Owner, q: Path)
    requires TreeOk(src) && Present(src, TopLevel(names)) && q != [] && q[0] in names
    requires Distinct(names)
    requires var s := Inventoried(src, names); CopyOf(out, NormalizedAll(s.entries, Some(owner)), s.objects)
    ensures EntryThere(NormalTree(src, owner), q) == EntryThere(out, q)
  {
    hide Inventoried, At, TopLevel, Present, TreeOk, NormalMeta, Distinct;
    var s := Inventoried(src, names);
    NormalAt(src, owner, q);
    InventoriedWalk(src, names, q);
    InventoriedCopied(src, names);
    CopiedEntry(out, s.entries, s.objects, owner, q);
    if At(src, q).Some? { NormalEntry(At(src, q).value, s.entries[q], owner); }
  }

  lemma NormalEntry(t: Tree, i: Item, owner: Owner)
    requires PlainItem(i) == EntryOf(t)
    ensures PlainItem(Normalized(i, Some(owner))) == EntryOf(NormalTree(t, owner))
  {
  }

  lemma CopiedEntry(out: Tree, entries: Manifest, objects: map<nat, Bytes>, owner: Owner, q: Path)
    requires CopyOf(out, NormalizedAll(entries, Some(owner)), objects) && Copied(entries, objects) && q != []
    ensures EntryThere(out, q) ==
      if q in entries then Some(PlainItem(Normalized(entries[q], Some(owner)))) else None
  {
    hide At, TreeOk, NormalMeta;
    assert NodeAt(out, q) == Wanted(NormalizedAll(entries, Some(owner)), objects, q);
    assert q in entries && entries[q].FileItem? ==> IsFile(entries, q);
  }

  /** At and below a path, the same entries. */
  ghost predicate SameBelow(a: Tree, b: Tree, p: Path) {
    forall r: Path :: EntryThere(a, p + r) == EntryThere(b, p + r)
  }

  lemma SameBelowIsSame(a: Tree, b: Tree, p: Path)
    requires TreeOk(a) && TreeOk(b) && SameBelow(a, b, p) && At(a, p).Some?
    ensures At(b, p) == At(a, p)
  {
    hide TreeOk, At, EntryThere;
    SameThere(a, b, p);
  }

  lemma ReleaseBelow(src: Tree, out: Tree, names: seq<string>, owner: Owner, p: Path)
    requires TreeOk(src) && Present(src, TopLevel(names)) && |p| == 1 && p[0] in names
    requires Distinct(names)
    requires var s := Inventoried(src, names); CopyOf(out, NormalizedAll(s.entries, Some(owner)), s.objects)
    ensures SameBelow(NormalTree(src, owner), out, p)
  {
    hide Inventoried, CopyOf, NormalizedAll, EntryThere, NormalTree, TreeOk, Present, TopLevel, Distinct;
    forall r: Path ensures EntryThere(NormalTree(src, owner), p + r) == EntryThere(out, p + r) {
      assert (p + r)[0] == p[0];
      ReleaseEntry(src, out, names, owner, p + r);
    }
  }

  lemma ReleaseThere(src: Tree, out: Tree, names: seq<string>, owner: Owner, p: Path)
    requires TreeOk(src) && Present(src, TopLevel(names)) && |p| == 1 && p[0] in names
    requires Distinct(names)
    requires var s := Inventoried(src, names); CopyOf(out, NormalizedAll(s.entries, Some(owner)), s.objects)
    ensures At(src, p).Some? && At(out, p) == Some(NormalTree(At(src, p).value, owner))
  {
    hide *;
    var s := Inventoried(src, names);
    NameIsThere(src, names, p[0]);
    assert p == [p[0]];
    NormalAt(src, owner, p);
    NormalTreeOk(src, owner);
    ReleaseBelow(src, out, names, owner, p);
    CopyIsOk(out, NormalizedAll(s.entries, Some(owner)), s.objects);
    SameBelowIsSame(NormalTree(src, owner), out, p);
  }

  /** The copy of a release is the release with normalised metadata: under every name the same tree. */
  lemma ReleaseCopyIsNormal(src: Tree, out: Tree, names: seq<string>, owner: Owner, n: string)
    requires TreeOk(src) && Present(src, TopLevel(names)) && n in names
    requires Distinct(names)
    requires var s := Inventoried(src, names); CopyOf(out, NormalizedAll(s.entries, Some(owner)), s.objects)
    ensures At(src, [n]).Some? && At(out, [n]) == Some(NormalTree(At(src, [n]).value, owner))
  {
    hide *;
    ReleaseThere(src, out, names, owner, [n]);
  }

  /** What the installation gets for an entry of the staged release: the owner of the installation,
      0755 for a directory and for what its owner may execute, 0644 for any other file; the bytes and
      the time of modification stay. */
  ghost predicate ReleasedAs(staged: Option<Tree>, copied: Option<Tree>, owner: Owner) {
    match staged
    case None => copied.None?
    case Some(File(meta, bytes)) =>
      var mode := if meta.mode as int / 64 % 2 == 1 then 0x1ED else 0x1A4;
      copied == Some(File(Meta(owner.uid, owner.gid, mode, meta.mtime), bytes))
    case Some(Dir(meta, _)) =>
      copied.Some? && copied.value.Dir? && copied.value.meta == Meta(owner.uid, owner.gid, 0x1ED, meta.mtime)
  }

  lemma NormalIsReleased(t: Tree, owner: Owner, p: Path)
    ensures ReleasedAs(At(t, p), At(NormalTree(t, owner), p), owner)
  {
    NormalAt(t, owner, p);
    if At(t, p).Some? { OwnerExecutes(At(t, p).value.meta.mode); }
  }

  lemma ReleaseIsCopied(src: Tree, out: Tree, names: seq<string>, owner: Owner, q: Path)
    requires TreeOk(src) && Present(src, TopLevel(names)) && Distinct(names) && q != []
    requires var s := Inventoried(src, names); CopyOf(out, NormalizedAll(s.entries, Some(owner)), s.objects)
    ensures ReleasedAs(if q[0] in names then At(src, q) else None, At(out, q), owner)
  {
    hide Inventoried, Present, TopLevel, Distinct, CopyOf, NormalizedAll, NormalTree, At, ReleasedAs;
    if q[0] in names {
      ReleaseCopyIsNormal(src, out, names, owner, q[0]);
      assert [q[0]] + q[1..] == q;
      AtSplit(src, [q[0]], q[1..]);
      AtSplit(out, [q[0]], q[1..]);
      NormalIsReleased(At(src, [q[0]]).value, owner, q[1..]);
    } else {
      NothingElse(src, out, names, owner, q);
    }
  }

  lemma NothingElse(src: Tree, out: Tree, names: seq<string>, owner: Owner, q: Path)
    requires TreeOk(src) && Present(src, TopLevel(names)) && Distinct(names) && q != [] && q[0] !in names
    requires var s := Inventoried(src, names); CopyOf(out, NormalizedAll(s.entries, Some(owner)), s.objects)
    ensures ReleasedAs(None, At(out, q), owner)
  {
    hide Inventoried, Present, TopLevel, Distinct;
    InventoriedWalk(src, names, q);
    var s := Inventoried(src, names);
    assert NodeAt(out, q) == Wanted(NormalizedAll(s.entries, Some(owner)), s.objects, q);
  }

  /** Take the inventory of the staged release, and copy what it lists. */
  method CopyRelease(src: Tree, names: seq<string>, owner: Owner, owners: set<int>, limits: Limits, clock: nat -> int)
    returns (ok: bool, out: Output)
    requires TreeOk(src) && Distinct(names)
    ensures fresh(out)
    ensures ok <==> Present(src, TopLevel(names)) && FitPlaces(src, TopLevel(names), owners, limits, 0, 0)
    ensures ok ==> forall n :: n in names ==>
      At(src, [n]).Some? && At(out.root, [n]) == Some(NormalTree(At(src, [n]).value, owner))
    ensures ok ==> forall q: Path :: q != [] ==>
      ReleasedAs(if q[0] in names then At(src, q) else None, At(out.root, q), owner)
  {
    hide ReleasedAs, NormalTree, At, Coherent, Copied, CopyOf, NormalizedAll, FitPlaces, Present, Apart, Distinct;
    TopLevelApart(names);
    var walk := new Walk(owners, limits, true);
    ok := walk.Take(src, TopLevel(names));
    if !ok {
      out := new Output(clock);
      return false, out;
    }
    InventoriedCoherent(src, names);
    InventoriedCopied(src, names);
    ok, out := Copy(walk.entries, walk.objects, Some(owner), clock);
    forall n | n in names
      ensures At(src, [n]).Some? && At(out.root, [n]) == Some(NormalTree(At(src, [n]).value, owner))
    {
      ReleaseCopyIsNormal(src, out.root, names, owner, n);
    }
    forall q: Path | q != []
      ensures ReleasedAs(if q[0] in names then At(src, q) else None, At(out.root, q), owner)
    {
      ReleaseIsCopied(src, out.root, names, owner, q);
    }
  }
}
