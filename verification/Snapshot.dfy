/** The stopped-writer snapshot: what is captured, which manifests are trusted, and the private
    tree that is rebuilt from one. */
module Snapshot {
  import opened Protocol
  import opened Trees
  import opened Inventory
  import opened InventoryLaws
  import opened FileSystem

  // ----------------------------------------------------------------------------------------
  // What belongs to a snapshot

  const ENV: Path := [".env"]
  const DATA: Path := ["data"]
  const PACKAGE: Path := ["basswiesn"]

  /** The configuration files of an installation, in the order of their paths. */
  const CONFIG: seq<Path> :=
    [[".dockerignore"], ENV, ["Dockerfile"], ["basswiesn", "__init__.py"], ["docker-compose.yml"]]

  const PLACES: seq<Path> := CONFIG + [DATA]

  const APP_UID := 10001

  /** The enrolled owner, the hash each configuration file must have, and the version. */
  datatype Enrollment = Enrollment(owner: int, hashes: map<Path, Hash>, version: Version)

  function Owners(policy: Enrollment): set<int> {
    {0, policy.owner, APP_UID}
  }

  predicate InScope(p: Path) {
    p in CONFIG || (p != [] && p[0] == "data")
  }

  lemma PlacesApart()
    ensures Apart(PLACES)
  {
    assert PLACES[0][0] == ".dockerignore" && PLACES[1][0] == ".env" && PLACES[2][0] == "Dockerfile";
    assert PLACES[3][0] == "basswiesn" && PLACES[4][0] == "docker-compose.yml" && PLACES[5][0] == "data";
    assert ".env"[1] != ".dockerignore"[1];
    assert "docker-compose.yml"[0] == 'd' && "data"[1] == 'a' && "docker-compose.yml"[1] == 'o';
  }

  // ----------------------------------------------------------------------------------------
  // Which manifests are trusted

  const MAX_MODE: bv16 := 0x5FF
  const GID_END := 0xFFFF_FFFF
  const TIME_END := 0x8000_0000_0000_0000

  predicate MetaInRange(meta: Meta) {
    0 <= meta.gid < GID_END && 0 <= meta.mtime < TIME_END
  }

  predicate ItemOk(entries: Manifest, p: Path, policy: Enrollment, limits: Limits)
    requires p in entries
  {
    var i := entries[p];
    && EntrySound(p, i, Owners(policy), limits) && InScope(p)
    && i.meta.mode <= MAX_MODE && MetaInRange(i.meta)
    && (p in CONFIG ==> i.FileItem?) && (p == DATA ==> i.DirItem?)
    && (p[0] == "data" && p != DATA ==> p[..|p| - 1] in entries && entries[p[..|p| - 1]].DirItem?)
    && (i.FileItem? && p in policy.hashes ==> i.sha == policy.hashes[p])
  }

  // The length of a manifest's text: keys are sorted, nothing is padded, and every character outside
  // of ASCII is escaped.

  const MAX_MANIFEST := 16 * 1024 * 1024

  /** Control characters do not occur in a path. */
  function CharLength(c: char): (n: nat)
    ensures n <= 12
  {
    if c == '"' || c == '\\' then 2 else if ' ' <= c <= '~' then 1 else if c as int <= 0xFFFF then 6 else 12
  }

  function EscapedLength(s: string): nat {
    if s == [] then 0 else CharLength(s[0]) + EscapedLength(s[1..])
  }

  function KeyLength(p: Path): nat {
    if p == [] then 0 else EscapedLength(p[0]) + (if |p| > 1 then 1 + KeyLength(p[1..]) else 0)
  }

  function ItemLength(i: Item): nat {
    |"{\"gid\":,\"kind\":,\"mode\":,\"mtime_ns\":,\"uid\":}"|
    + |Number(i.meta.gid)| + |Number(i.meta.mode as int)| + |Number(i.meta.mtime)| + |Number(i.meta.uid)|
    + match i
      case DirItem(_) => |"\"directory\""|
      case FileItem(_, _, size, _) =>
        |"\"file\",\"object\":\"00000000\",\"sha256\":\"\",\"size\":"| + 64 + |Number(size)|
  }

  /** One entry, with its key and the comma after it. */
  function LineLength(p: Path, i: Item): nat {
    KeyLength(p) + ItemLength(i) + |"\"\":,"|
  }

  ghost function Lengths(m: Manifest): nat
    decreases |m|
  {
    if m == map[] then 0 else
      var p :| p in m;
      LineLength(p, m[p]) + Lengths(m - {p})
  }

  lemma {:induction false} LengthsRemove(m: Manifest, p: Path)
    requires p in m
    ensures Lengths(m) == LineLength(p, m[p]) + Lengths(m - {p})
    decreases |m|
  {
    hide LineLength;
    var q :| q in m && Lengths(m) == LineLength(q, m[q]) + Lengths(m - {q});
    if q != p {
      assert m - {q} - {p} == m - {p} - {q};
      LengthsRemove(m - {q}, p);
      LengthsRemove(m - {p}, q);
    }
  }

  lemma LengthsNone()
    ensures Lengths(map[]) == 0
  {
  }

  /** What a manifest says about the installation: a digest, an image digest and two identifiers.
      The line feed at the end makes up for the comma that the last entry does not have. */
  function HeaderLength(policy: Enrollment): nat {
    |"{\"container_id\":\"\",\"entries\":{},\"image_id\":\"sha256:\",\"installation_id\":\"\",\"request_id\":\"\""|
    + |",\"schema\":1,\"total_bytes\":,\"version\":\"\"}"| + 64 + 64 + 36 + 36 + |VersionText(policy.version)|
  }

  ghost function ManifestLength(entries: Manifest, total: nat, policy: Enrollment): nat {
    HeaderLength(policy) + Lengths(entries) + |Number(total)|
  }

  ghost predicate ManifestOk(entries: Manifest, total: nat, policy: Enrollment, limits: Limits) {
    && 1 <= |entries| <= limits.entries
    && (forall i :: 0 <= i < |PLACES| ==> PLACES[i] in entries)
    && (forall p :: p in entries ==> ItemOk(entries, p, policy, limits))
    && total == Sum(entries) && total <= limits.totalBytes
    && (exists n :: Dense(entries, n))
    && ManifestLength(entries, total, policy) <= MAX_MANIFEST
  }

  /** No number is used twice, and these are the numbers. */
  ghost predicate Seen(m: Manifest, numbers: set<nat>) {
    && (forall q :: IsFile(m, q) ==> m[q].number in numbers)
    && (forall k :: k in numbers ==> Numbers(m, k))
    && (forall a, b :: IsFile(m, a) && IsFile(m, b) && m[a].number == m[b].number ==> a == b)
  }

  function UpTo(n: nat): (r: set<nat>)
    ensures |r| == n && forall k: nat :: k in r <==> k < n
  {
    if n == 0 then {} else UpTo(n - 1) + {n - 1}
  }

  lemma SeenIsDense(m: Manifest, numbers: set<nat>)
    requires Seen(m, numbers)
    ensures numbers == UpTo(|numbers|) ==> Dense(m, |numbers|)
    ensures forall n :: Dense(m, n) ==> numbers == UpTo(|numbers|)
  {
    forall n | Dense(m, n) ensures numbers == UpTo(|numbers|) {
      forall k: nat ensures k in numbers <==> k in UpTo(n) {
        if k in numbers { assert Numbers(m, k); }
        if k < n { assert Numbers(m, k); }
      }
      assert numbers == UpTo(n);
    }
  }

  lemma SeenNext(m: Manifest, numbers: set<nat>, p: Path, i: Item)
    requires p !in m && Seen(m, numbers)
    ensures i.DirItem? ==> Seen(m[p := i], numbers)
    ensures i.FileItem? && i.number !in numbers ==> Seen(m[p := i], numbers + {i.number})
    ensures i.FileItem? && i.number in numbers ==> Repeated(m[p := i])
  {
    var m' := m[p := i];
    assert forall q :: q != p ==> (IsFile(m', q) <==> IsFile(m, q)) && (IsFile(m, q) ==> m'[q] == m[q]);
    forall k | k in numbers ensures Numbers(m', k) {
      assert Numbers(m, k);
      var q :| IsFile(m, q) && m[q].number == k;
      assert IsFile(m', q) && m'[q].number == k;
    }
    if i.FileItem? {
      assert IsFile(m', p) && m'[p].number == i.number;
      if i.number in numbers {
        assert Numbers(m, i.number);
        var q :| IsFile(m, q) && m[q].number == i.number;
        assert IsFile(m', q) && q != p;
      }
    }
  }

  ghost predicate Repeated(m: Manifest) {
    exists a, b :: IsFile(m, a) && IsFile(m, b) && a != b && m[a].number == m[b].number
  }

  lemma RepeatedIsNotDense(part: Manifest, m: Manifest)
    requires Repeated(part) && forall q :: q in part ==> q in m && m[q] == part[q]
    ensures forall n :: !Dense(m, n)
  {
    var a, b :| IsFile(part, a) && IsFile(part, b) && a != b && part[a].number == part[b].number;
    assert IsFile(m, a) && IsFile(m, b);
  }

  /** The validator goes through the entries in any order. */
  method Validate(entries: Manifest, total: nat, policy: Enrollment, limits: Limits) returns (ok: bool)
    ensures ok <==> ManifestOk(entries, total, policy, limits)
  {
    hide ItemOk, Seen, Sum, Dense, Repeated, Lengths, LineLength, HeaderLength;
    if !(1 <= |entries| <= limits.entries) {
      return false;
    }
    for i := 0 to |PLACES|
      invariant forall k :: 0 <= k < i ==> PLACES[k] in entries
    {
      if PLACES[i] !in entries {
        return false;
      }
    }
    var numbers: set<nat>, sum: nat, length: nat := {}, 0, 0;
    var rest := entries;
    ghost var done: Manifest := map[];
    NothingSeen();
    while rest != map[]
      invariant Parted(entries, rest, done)
      invariant forall p :: p in done ==> ItemOk(entries, p, policy, limits)
      invariant Seen(done, numbers)
      invariant sum + Sum(rest) == Sum(entries) && length + Lengths(rest) == Lengths(entries)
      decreases |rest|
    {
      var p :| p in rest;
      var item := rest[p];
      SumRemove(rest, p);
      LengthsRemove(rest, p);
      SeenNext(done, numbers, p, item);
      PartNext(entries, rest, done, p);
      if !ItemOk(entries, p, policy, limits) {
        return false;
      }
      if item.FileItem? {
        if item.number in numbers {
          RepeatedIsNotDense(done[p := item], entries);
          return false;
        }
        numbers := numbers + {item.number};
        sum := sum + item.size;
      }
      length := length + LineLength(p, item);
      done := done[p := item];
      rest := rest - {p};
    }
    SumNone();
    LengthsNone();
    assert done == entries;
    SeenIsDense(entries, numbers);
    return total == sum && total <= limits.totalBytes && numbers == UpTo(|numbers|)
           && HeaderLength(policy) + length + |Number(total)| <= MAX_MANIFEST;
  }

  lemma NothingSeen()
    ensures Seen(map[], {})
  {
  }

  ghost predicate Parted(whole: Manifest, rest: Manifest, done: Manifest) {
    && (forall p :: p in whole <==> p in rest || p in done)
    && (forall p :: p in rest ==> p !in done && rest[p] == whole[p])
    && (forall p :: p in done ==> done[p] == whole[p])
  }

  lemma PartNext(whole: Manifest, rest: Manifest, done: Manifest, p: Path)
    requires Parted(whole, rest, done) && p in rest
    ensures Parted(whole, rest - {p}, done[p := rest[p]])
    ensures forall q :: q in done[p := rest[p]] ==> q in whole && whole[q] == done[p := rest[p]][q]
  {
  }

  // ----------------------------------------------------------------------------------------
  // Captured manifests

  /** What a capture of an installation records and copies. */
  function Captured(root: Tree): Tally
    requires Present(root, PLACES)
  {
    AddPlaces(NOTHING, true, root, PLACES)
  }

  lemma CapturedWalk(root: Tree, q: Path)
    requires TreeOk(root) && Present(root, PLACES)
    ensures q in Captured(root).entries <==> Under(PLACES, q) && At(root, q).Some?
    ensures q in Captured(root).entries ==> PlainItem(Captured(root).entries[q]) == EntryOf(At(root, q).value)
  {
    PlacesApart();
    NothingYet(PLACES);
    PlacesWalk(NOTHING, true, root, PLACES, q);
    hide AddPlaces, At, Under;
    var m := Captured(root).entries;
    assert q in m <==> q in WithoutObjects(m);
  }

  /** The part of the demands on a manifest that the capture itself does not check. */
  ghost predicate Restorable(root: Tree, policy: Enrollment)
    requires Present(root, PLACES)
  {
    && (forall i :: 0 <= i < |CONFIG| ==> At(root, PLACES[i]).value.File?)
    && At(root, PLACES[|CONFIG|]).value.Dir?
    && forall q :: Under(PLACES, q) && At(root, q).Some? ==>
         && MetaInRange(At(root, q).value.meta)
         && (At(root, q).value.File? && q in policy.hashes ==> Sha256(At(root, q).value.bytes) == policy.hashes[q])
  }

  /** The manifest of a capture can be written, and read again. */
  ghost predicate Writable(root: Tree, policy: Enrollment)
    requires Present(root, PLACES)
  {
    ManifestLength(Captured(root).entries, Captured(root).total, policy) <= MAX_MANIFEST
  }

  lemma UnderMeans(root: Tree, q: Path)
    requires Present(root, PLACES) && forall i :: 0 <= i < |CONFIG| ==> At(root, PLACES[i]).value.File?
    requires Under(PLACES, q) && At(root, q).Some?
    ensures InScope(q)
  {
    var i :| 0 <= i < |PLACES| && PLACES[i] <= q;
    if i < |CONFIG| {
      AtSplit(root, PLACES[i], q[|PLACES[i]|..]);
      assert PLACES[i] + q[|PLACES[i]|..] == q;
      assert q[|PLACES[i]|..] == [];
      assert q == PLACES[i] == CONFIG[i];
    } else {
      assert PLACES[i] == DATA;
    }
  }

  lemma DataParent(root: Tree, q: Path)
    requires q != [] && q[0] == "data" && q != DATA && At(root, q).Some?
    ensures Under(PLACES, q[..|q| - 1]) && At(root, q[..|q| - 1]).Some? && At(root, q[..|q| - 1]).value.Dir?
  {
    var p := q[..|q| - 1];
    assert |q| > 1;
    AtAppend(root, p, q[|q| - 1]);
    assert p + [q[|q| - 1]] == q;
    assert PLACES[|CONFIG|] <= p;
  }

  lemma SoundMode(meta: Meta)
    requires meta.mode & UNSAFE_MODE == 0
    ensures meta.mode <= MAX_MODE
  {
    var m: bv16 := meta.mode;
    assert m <= 0xFFF && m & 0xA02 == 0 ==> m <= 0x5FF;
  }

  lemma CapturedItem(root: Tree, policy: Enrollment, limits: Limits, q: Path)
    requires TreeOk(root) && Present(root, PLACES) && AllSound(Captured(root).entries, Owners(policy), limits)
    requires q in Captured(root).entries
    ensures At(root, q).Some?
    ensures Restorable(root, policy) ==> ItemOk(Captured(root).entries, q, policy, limits)
    ensures ItemOk(Captured(root).entries, q, policy, limits) ==>
      && MetaInRange(At(root, q).value.meta)
      && (q in CONFIG ==> At(root, q).value.File?) && (q == DATA ==> At(root, q).value.Dir?)
      && (At(root, q).value.File? && q in policy.hashes ==> Sha256(At(root, q).value.bytes) == policy.hashes[q])
  {
    hide Captured, At, PathOk, Under;
    CapturedWalk(root, q);
    var i := Captured(root).entries[q];
    SoundMode(i.meta);
    if Restorable(root, policy) {
      UnderMeans(root, q);
      if q in CONFIG {
        var k :| 0 <= k < |CONFIG| && CONFIG[k] == q;
        assert PLACES[k] == q;
      }
      assert q == DATA ==> q == PLACES[|CONFIG|];
      assert EntrySound(q, i, Owners(policy), limits);
      if q[0] == "data" && q != DATA {
        DataParent(root, q);
        CapturedWalk(root, q[..|q| - 1]);
      }
    }
  }

  /** Every capture within the limits is trusted again, if and only if its configuration is what
      was enrolled, its times and groups can be restored, and its manifest is not too long. */
  lemma CapturedIsValid(root: Tree, policy: Enrollment, limits: Limits)
    requires TreeOk(root) && Present(root, PLACES) && FitPlaces(root, PLACES, Owners(policy), limits, 0, 0)
    ensures ManifestOk(Captured(root).entries, Captured(root).total, policy, limits) <==>
      Restorable(root, policy) && Writable(root, policy)
    ensures Sealed(Captured(root))
  {
    hide FitPlaces, AddPlaces, At, Sum, Dense, ItemOk, MetaInRange, Under, AllSound, SoundAll, HeaderLength;
    var s, owners := Captured(root), Owners(policy);
    PlacesApart();
    NothingYet(PLACES);
    SumNone();
    NothingSealed(owners, limits);
    FitPlacesMeans(root, PLACES, owners, limits, 0, 0);
    PlacesCount(NOTHING, true, root, PLACES, owners, limits);
    PlacesSealed(NOTHING, root, PLACES);
    forall i | 0 <= i < |PLACES| ensures PLACES[i] in s.entries {
      CapturedWalk(root, PLACES[i]);
      UnderItself(i);
    }
    if Restorable(root, policy) {
      forall q | q in s.entries ensures ItemOk(s.entries, q, policy, limits) { CapturedItem(root, policy, limits, q); }
    }
    if forall q :: q in s.entries ==> ItemOk(s.entries, q, policy, limits) {
      ItemsRestorable(root, policy, limits);
    }
  }

  lemma UnderItself(i: nat)
    requires i < |PLACES|
    ensures Under(PLACES, PLACES[i])
  {
  }

  lemma NothingSealed(owners: set<int>, limits: Limits)
    ensures Sealed(NOTHING) && AllSound(NOTHING.entries, owners, limits)
  {
  }

  lemma ItemsRestorable(root: Tree, policy: Enrollment, limits: Limits)
    requires TreeOk(root) && Present(root, PLACES) && AllSound(Captured(root).entries, Owners(policy), limits)
    requires forall q :: q in Captured(root).entries ==> ItemOk(Captured(root).entries, q, policy, limits)
    ensures Restorable(root, policy)
  {
    hide Captured, At, ItemOk, MetaInRange, Under, AllSound;
    forall q | Under(PLACES, q) && At(root, q).Some?
      ensures MetaInRange(At(root, q).value.meta)
      ensures At(root, q).value.File? && q in policy.hashes ==> Sha256(At(root, q).value.bytes) == policy.hashes[q]
      ensures q in CONFIG ==> At(root, q).value.File?
      ensures q == DATA ==> At(root, q).value.Dir?
    {
      CapturedWalk(root, q);
      CapturedItem(root, policy, limits, q);
    }
    forall i | 0 <= i < |PLACES| ensures Under(PLACES, PLACES[i]) && (i < |CONFIG| ==> PLACES[i] in CONFIG) {
      UnderItself(i);
      if i < |CONFIG| { assert PLACES[i] == CONFIG[i]; }
    }
    assert PLACES[|CONFIG|] == DATA;
  }

  /** The five configuration files, the data directory, and everything in it. */
  ghost predicate Snapshotted(q: Path) {
    || q in {[".dockerignore"], [".env"], ["Dockerfile"], ["basswiesn", "__init__.py"], ["docker-compose.yml"]}
    || (q != [] && q[0] == "data")
  }

  /** An entry that a snapshot can keep and restore. */
  ghost predicate Recordable(q: Path, t: Tree, policy: Enrollment, limits: Limits) {
    && Allowed(q, t, {0, policy.owner, 10_001}, limits)
    && 0 <= t.meta.gid < 4_294_967_295 && 0 <= t.meta.mtime < 9_223_372_036_854_775_808
    && (q != [] && (if q[0] == "data" then q == ["data"] ==> t.Dir? else t.File?))
    && (t.File? && q in policy.hashes ==> Sha256(t.bytes) == policy.hashes[q])
  }

  lemma ScopeMeans(q: Path)
    ensures InScope(q) <==> Snapshotted(q)
    ensures Snapshotted(q) ==> Under(PLACES, q)
    ensures q in CONFIG ==> q[0] != "data"
  {
    assert ".dockerignore"[0] == '.' && ".env"[0] == '.' && "data"[0] == 'd' && "data"[1] == 'a';
    assert "docker-compose.yml"[1] == 'o' && "Dockerfile"[0] == 'D' && "basswiesn"[0] == 'b';
    if q in CONFIG {
      var i :| 0 <= i < |CONFIG| && CONFIG[i] == q;
      assert PLACES[i] <= q;
    }
    assert CONFIG[0] == [".dockerignore"] && CONFIG[1] == [".env"] && CONFIG[2] == ["Dockerfile"]
      && CONFIG[3] == ["basswiesn", "__init__.py"] && CONFIG[4] == ["docker-compose.yml"];
    if q != [] && q[0] == "data" { assert PLACES[|CONFIG|] <= q; }
  }

  /** An installation can be captured, and its capture trusted again, exactly if every entry of it can
      be recorded and there is not too much of it. */
  lemma TrustedMeans(root: Tree, policy: Enrollment, limits: Limits)
    requires TreeOk(root) && Present(root, PLACES)
    ensures
      (FitPlaces(root, PLACES, Owners(policy), limits, 0, 0)
       && ManifestOk(Captured(root).entries, Captured(root).total, policy, limits)) <==>
        && |Captured(root).entries| <= limits.entries && Captured(root).total <= limits.totalBytes
        && ManifestLength(Captured(root).entries, Captured(root).total, policy) <= 16_777_216
        && forall q: Path :: Snapshotted(q) && At(root, q).Some? ==> Recordable(q, At(root, q).value, policy, limits)
  {
    hide FitPlaces, At, Captured, ManifestOk, ManifestLength, Allowed, Snapshotted, Present, InScope, Under, Apart;
    PlacesApart();
    PlacesAllowed(root, PLACES, Owners(policy), limits);
    CapturedIsTaken(root);
    if FitPlaces(root, PLACES, Owners(policy), limits, 0, 0) {
      CapturedIsValid(root, policy, limits);
      if Restorable(root, policy) { RestorableIsRecordable(root, policy, limits); }
    }
    forall q: Path | Snapshotted(q) ensures Under(PLACES, q) { ScopeMeans(q); }
    if forall q: Path :: Snapshotted(q) && At(root, q).Some? ==> Recordable(q, At(root, q).value, policy, limits) {
      RecordableIsRestorable(root, policy, limits);
    }
  }

  lemma CapturedIsTaken(root: Tree)
    requires Present(root, PLACES)
    ensures Captured(root) == AddPlaces(NOTHING, true, root, PLACES)
  {
  }

  lemma RestorableIsRecordable(root: Tree, policy: Enrollment, limits: Limits)
    requires Present(root, PLACES) && Restorable(root, policy)
    requires forall q: Path :: Under(PLACES, q) && At(root, q).Some? ==>
      Allowed(q, At(root, q).value, Owners(policy), limits)
    ensures forall q: Path :: Snapshotted(q) && At(root, q).Some? ==> Recordable(q, At(root, q).value, policy, limits)
  {
    hide At, Allowed, Snapshotted, InScope, Under;
    forall q: Path | Snapshotted(q) && At(root, q).Some? ensures Recordable(q, At(root, q).value, policy, limits) {
      ScopeMeans(q);
      SnapshottedIs(q);
      assert Allowed(q, At(root, q).value, Owners(policy), limits);
      if q in CONFIG {
        var i :| 0 <= i < |CONFIG| && CONFIG[i] == q;
        assert PLACES[i] == q;
      }
      assert PLACES[|CONFIG|] == DATA;
    }
  }

  lemma SnapshottedIs(q: Path)
    requires Snapshotted(q)
    ensures q != [] && (q in CONFIG <==> q[0] != "data")
  {
    ScopeMeans(q);
  }

  lemma RecordableIsRestorable(root: Tree, policy: Enrollment, limits: Limits)
    requires Present(root, PLACES)
    requires forall q: Path :: Snapshotted(q) && At(root, q).Some? ==> Recordable(q, At(root, q).value, policy, limits)
    ensures Restorable(root, policy)
    ensures forall q: Path :: Under(PLACES, q) && At(root, q).Some? ==>
      Allowed(q, At(root, q).value, Owners(policy), limits)
  {
    hide At, Allowed, Snapshotted, InScope, Under;
    forall i | 0 <= i < |PLACES| ensures Snapshotted(PLACES[i]) && (i < |CONFIG| ==> PLACES[i][0] != "data") {
      PlaceIsSnapshotted(i);
    }
    assert PLACES[|CONFIG|] == DATA;
    forall q: Path | Under(PLACES, q) && At(root, q).Some?
      ensures Snapshotted(q) && Recordable(q, At(root, q).value, policy, limits)
    {
      UnderMeans(root, q);
      ScopeMeans(q);
    }
  }

  lemma PlaceIsSnapshotted(i: nat)
    requires i < |PLACES|
    ensures Snapshotted(PLACES[i]) && (i < |CONFIG| ==> PLACES[i][0] != "data")
  {
    ScopeMeans(PLACES[i]);
    if i < |CONFIG| { assert PLACES[i] == CONFIG[i]; }
  }

  // ----------------------------------------------------------------------------------------
  // Rebuilding a tree

  /** The copies are exactly those the manifest names, each with its recorded length and hash. */
  ghost predicate ObjectsOk(entries: Manifest, objects: map<nat, Bytes>) {
    Copied(entries, objects) && forall k :: k in objects <==> Numbers(entries, k)
  }

  /** What the manifest wants to find at a path. */
  function Wanted(entries: Manifest, objects: map<nat, Bytes>, q: Path): Option<Node> {
    if q !in entries then None
    else match entries[q]
      case DirItem(meta) => Some(DirNode(meta))
      case FileItem(meta, _, _, number) => if number in objects then Some(FileNode(meta, objects[number])) else None
  }

  /** Exactly the manifest, and the package directory that holds one of its files. */
  ghost predicate Realizes(root: Tree, entries: Manifest, objects: map<nat, Bytes>) {
    && TreeOk(root) && IsDirectory(root, [])
    && forall q: Path :: q != [] ==>
         if q == PACKAGE then IsDirectory(root, q) else NodeAt(root, q) == Wanted(entries, objects, q)
  }

  ghost function Directories(entries: Manifest): set<Path> {
    set q | q in entries && entries[q].DirItem?
  }

  ghost function FilePaths(entries: Manifest): set<Path> {
    set q | q in entries && entries[q].FileItem?
  }

  /** While it is being rebuilt: these directories and files exist, and these directories already
      have their final metadata. */
  ghost predicate Stage(root: Tree, entries: Manifest, objects: map<nat, Bytes>,
                        dirs: set<Path>, files: set<Path>, final: set<Path>) {
    && TreeOk(root) && IsDirectory(root, [])
    && forall q: Path :: q != [] ==>
         if q in dirs then IsDirectory(root, q) && (q in final ==> NodeAt(root, q) == Wanted(entries, objects, q))
         else if q in files then NodeAt(root, q) == Wanted(entries, objects, q) && q in entries && entries[q].FileItem?
         else NodeAt(root, q).None?
  }

  lemma ScaffoldIsStage(root: Tree, entries: Manifest, objects: map<nat, Bytes>, names: set<Path>)
    requires Scaffold(root, names)
    ensures Stage(root, entries, objects, names, {}, {})
  {
    hide NodeAt, Wanted;
  }

  lemma StageCreate(root: Tree, root': Tree, entries: Manifest, objects: map<nat, Bytes>, dirs: set<Path>,
                    files: set<Path>,
                    p: Path, n: Node, now: int)
    requires Stage(root, entries, objects, dirs, files, {}) && p != [] && TreeOk(root') && p !in dirs
    requires Wanted(entries, objects, p) == Some(n) && p in entries && entries[p].FileItem?
      && Grown(root, root', p, n, now)
    ensures Stage(root', entries, objects, dirs, files + {p}, {})
  {
    hide NodeAt;
  }

  lemma StageFinal(root: Tree, root': Tree, entries: Manifest, objects: map<nat, Bytes>, dirs: set<Path>,
                   files: set<Path>,
                   final: set<Path>, p: Path)
    requires Stage(root, entries, objects, dirs, files, final) && TreeOk(root') && p != []
    requires p in dirs && p in entries && entries[p].DirItem? && Retouched(root, root', p, entries[p].meta)
    ensures Stage(root', entries, objects, dirs, files, final + {p})
  {
    hide NodeAt;
  }

  /** Every file of the manifest has a directory to be put in, and is not one itself. */
  ghost predicate Housed(entries: Manifest, names: set<Path>) {
    forall q :: q in entries && entries[q].FileItem? ==> q != [] && q !in names && (|q| > 1 ==> q[..|q| - 1] in names)
  }

  method CopyFiles(out: Output, entries: Manifest, objects: map<nat, Bytes>, ghost names: set<Path>)
    requires Housed(entries, names) && Copied(entries, objects) && Stage(out.root, entries, objects, names, {}, {})
    modifies out
    ensures Stage(out.root, entries, objects, names, FilePaths(entries), {})
  {
    hide Stage, Grown, Housed, Copied;
    var rest := set q | q in entries && entries[q].FileItem?;
    ghost var done: set<Path> := {};
    while rest != {}
      invariant rest <= FilePaths(entries) && done == FilePaths(entries) - rest
      invariant Stage(out.root, entries, objects, names, done, {})
      decreases rest
    {
      var p :| p in rest;
      ghost var before, now := out.root, out.clock(out.tick);
      HouseMade(before, entries, objects, names, done, p);
      var bytes, meta := objects[entries[p].number], entries[p].meta;
      var made := out.Create(p, bytes, meta);
      assert made;
      StageCreate(before, out.root, entries, objects, names, done, p, FileNode(meta, bytes), now);
      done := done + {p};
      rest := rest - {p};
    }
    assert done == FilePaths(entries);
  }

  lemma HouseMade(root: Tree, entries: Manifest, objects: map<nat, Bytes>, names: set<Path>, done: set<Path>, p: Path)
    requires Housed(entries, names) && Copied(entries, objects) && Stage(root, entries, objects, names, done, {})
    requires p in entries && entries[p].FileItem? && p !in done
    ensures p != [] && TreeOk(root) && IsDirectory(root, p[..|p| - 1]) && NodeAt(root, p).None?
    ensures p !in names && entries[p].number in objects
    ensures Wanted(entries, objects, p) == Some(FileNode(entries[p].meta, objects[entries[p].number]))
  {
    hide NodeAt;
    assert IsFile(entries, p);
    var parent := p[..|p| - 1];
    if |p| > 1 {
      assert parent in names && parent != [];
    } else {
      assert parent == [];
    }
  }

  /** Directories from the bottom up get their final metadata: by now nothing is created in them
      any more. */
  method FinishDirectories(out: Output, entries: Manifest, objects: map<nat, Bytes>, names: set<Path>)
    requires Directories(entries) <= names && [] !in names
    requires Stage(out.root, entries, objects, names, FilePaths(entries), {})
    modifies out
    ensures Stage(out.root, entries, objects, names, FilePaths(entries), Directories(entries))
  {
    hide Stage, Retouched;
    var rest := names;
    ghost var done: set<Path> := {};
    assert Directories(entries) - rest == {};
    while rest != {}
      invariant rest <= names && done == Directories(entries) - rest
      invariant Stage(out.root, entries, objects, names, FilePaths(entries), done)
      decreases rest
    {
      var p := Extreme(rest, true);
      if p in entries && entries[p].DirItem? {
        ghost var before := out.root;
        MadeBefore(before, entries, objects, names, done, p);
        var found := out.Restore(p, entries[p].meta);
        assert found;
        StageFinal(before, out.root, entries, objects, names, FilePaths(entries), done, p);
        done := done + {p};
      }
      rest := rest - {p};
    }
    assert done == Directories(entries);
  }

  lemma MadeBefore(root: Tree, entries: Manifest, objects: map<nat, Bytes>, names: set<Path>, done: set<Path>, p: Path)
    requires Stage(root, entries, objects, names, FilePaths(entries), done) && p in names && p != []
    ensures TreeOk(root) && NodeAt(root, p).Some?
  {
  }

  ghost function EntryDirectories(entries: Manifest): set<Path> {
    {PACKAGE} + Directories(entries)
  }

  /** A trusted manifest describes a real tree: every directory and file hangs at a directory, and
      no file has anything below it. */
  lemma ManifestHouses(entries: Manifest, total: nat, policy: Enrollment, limits: Limits)
    requires ManifestOk(entries, total, policy, limits)
    ensures Closed(EntryDirectories(entries)) && Housed(entries, EntryDirectories(entries))
      && [] !in EntryDirectories(entries) && PACKAGE !in entries
    ensures forall p, q :: p in entries && q in entries && entries[p].FileItem? && p <= q ==> p == q
  {
    hide ManifestOk, ItemPlaced, Closed, Housed;
    AllPlaced(entries, total, policy, limits);
    PlacedHouses(entries);
    forall p, q | p in entries && q in entries && entries[p].FileItem? && p <= q ensures p == q {
      NothingUnderFile(entries, p, q);
    }
  }

  lemma AllPlaced(entries: Manifest, total: nat, policy: Enrollment, limits: Limits)
    requires ManifestOk(entries, total, policy, limits)
    ensures forall q :: q in entries ==> ItemPlaced(entries, q)
  {
    hide ItemPlaced, ItemOk;
    forall q | q in entries ensures ItemPlaced(entries, q) { PlacedItem(entries, q, policy, limits); }
  }

  lemma PlacedHouses(entries: Manifest)
    requires forall q :: q in entries ==> ItemPlaced(entries, q)
    ensures Closed(EntryDirectories(entries)) && Housed(entries, EntryDirectories(entries))
      && [] !in EntryDirectories(entries) && PACKAGE !in entries
  {
    hide ItemPlaced;
    forall q | q in EntryDirectories(entries)
      ensures q != [] && (|q| > 1 ==> q[..|q| - 1] in EntryDirectories(entries))
    {
      if q != PACKAGE { PlacedParent(entries, q); }
    }
    forall q | q in entries && entries[q].FileItem?
      ensures q != [] && q !in EntryDirectories(entries) && (|q| > 1 ==> q[..|q| - 1] in EntryDirectories(entries))
    {
      PlacedParent(entries, q);
    }
    if PACKAGE in entries { PlacedParent(entries, PACKAGE); }
  }

  lemma PlacedParent(entries: Manifest, q: Path)
    requires q in entries && ItemPlaced(entries, q)
    ensures q != [] && q != PACKAGE
    ensures |q| > 1 ==> q[..|q| - 1] in EntryDirectories(entries)
  {
    if |q| > 1 && q[0] == "data" {
      assert q != DATA;
      assert q[..|q| - 1] in Directories(entries);
    }
  }

  /** Where an entry may be: in the data directory under another directory, or a known file. */
  ghost predicate ItemPlaced(entries: Manifest, q: Path) {
    && q in entries && q != [] && q != PACKAGE
    && (entries[q].DirItem? ==> q[0] == "data")
    && (q[0] == "data" && q != DATA ==> |q| > 1 && q[..|q| - 1] in entries && entries[q[..|q| - 1]].DirItem?)
    && (q[0] != "data" ==> |q| == 1 || (|q| == 2 && q[..1] == PACKAGE))
  }

  lemma PlacedItem(entries: Manifest, q: Path, policy: Enrollment, limits: Limits)
    requires q in entries && ItemOk(entries, q, policy, limits)
    ensures ItemPlaced(entries, q)
  {
    hide EntrySound;
    ConfigPaths();
    assert q != [] by { SoundHasName(q, entries[q], Owners(policy), limits); }
    if q in CONFIG {
      var i :| 0 <= i < |CONFIG| && CONFIG[i] == q;
    } else if |q| == 1 {
      assert q == DATA;
    }
  }

  lemma SoundHasName(q: Path, i: Item, owners: set<int>, limits: Limits)
    requires EntrySound(q, i, owners, limits)
    ensures q != []
  {
  }

  lemma ConfigPaths()
    ensures forall i :: 0 <= i < |CONFIG| ==>
      CONFIG[i] != [] && CONFIG[i][0] != "data" && CONFIG[i] != PACKAGE
      && (|CONFIG[i]| == 1 || (|CONFIG[i]| == 2 && CONFIG[i][..1] == PACKAGE))
  {
    assert CONFIG[0][0] == ".dockerignore" && CONFIG[1][0] == ".env" && CONFIG[2][0] == "Dockerfile";
    assert CONFIG[3][0] == "basswiesn" && CONFIG[4][0] == "docker-compose.yml";
    assert ".dockerignore"[0] != 'd' && ".env"[0] != 'd' && "Dockerfile"[0] != 'd' && "basswiesn"[0] == 'b';
    assert "docker-compose.yml"[1] == 'o' && "data"[1] == 'a' && "data"[0] == 'd';
    assert CONFIG[3][..1] == PACKAGE;
  }

  lemma {:induction false} NothingUnderFile(entries: Manifest, p: Path, q: Path)
    requires forall r :: r in entries ==> ItemPlaced(entries, r)
    requires p in entries && q in entries && entries[p].FileItem? && p <= q
    ensures p == q
    decreases |q|
  {
    assert ItemPlaced(entries, p) && ItemPlaced(entries, q);
    assert q[..|p|] == p;
    if p != q && q[0] == "data" && q != DATA {
      var parent := q[..|q| - 1];
      assert p <= parent;
      NothingUnderFile(entries, p, parent);
    }
  }

  method VerifyObjects(entries: Manifest, objects: map<nat, Bytes>) returns (ok: bool)
    ensures ok <==> ObjectsOk(entries, objects)
  {
    var numbers := set q | q in entries && entries[q].FileItem? :: entries[q].number;
    forall k ensures k in numbers <==> Numbers(entries, k) {
      if Numbers(entries, k) { var q :| IsFile(entries, q) && entries[q].number == k; }
      if k in numbers {
        var q :| q in entries && entries[q].FileItem? && entries[q].number == k;
        assert IsFile(entries, q);
      }
    }
    if objects.Keys != numbers {
      return false;
    }
    ok := CopiesMatch(entries, objects);
  }

  method CopiesMatch(entries: Manifest, objects: map<nat, Bytes>) returns (ok: bool)
    ensures ok <==> Copied(entries, objects)
  {
    var rest := set q | q in entries && entries[q].FileItem?;
    while rest != {}
      invariant rest <= FilePaths(entries)
      invariant forall q :: IsFile(entries, q) && q !in rest ==> CopyOk(entries, objects, q)
      decreases rest
    {
      var q :| q in rest;
      assert IsFile(entries, q);
      if !CopyOk(entries, objects, q) {
        return false;
      }
      rest := rest - {q};
    }
    return true;
  }

  predicate CopyOk(entries: Manifest, objects: map<nat, Bytes>, q: Path)
    requires q in entries && entries[q].FileItem?
  {
    var i := entries[q];
    i.number in objects && Sha256(objects[i.number]) == i.sha && |objects[i.number]| == i.size
  }

  // ----------------------------------------------------------------------------------------
  // Reading it back

  lemma RealizedPlaces(root: Tree, entries: Manifest, total: nat, objects: map<nat, Bytes>, policy: Enrollment,
                       limits: Limits, q: Path)
    requires Realizes(root, entries, objects) && ManifestOk(entries, total, policy, limits)
      && ObjectsOk(entries, objects)
    ensures q in entries <==> Under(PLACES, q) && At(root, q).Some?
    ensures q in entries ==> PlainItem(entries[q]) == EntryOf(At(root, q).value)
  {
    hide ManifestOk, ObjectsOk, Realizes, Under, At;
    if q in entries {
      RecordedIsThere(root, entries, total, objects, policy, limits, q);
    } else if Under(PLACES, q) {
      UnderIsInside(q);
      NothingElse(root, entries, objects, q);
    }
  }

  lemma RecordedIsThere(root: Tree, entries: Manifest, total: nat, objects: map<nat, Bytes>, policy: Enrollment,
                        limits: Limits, q: Path)
    requires Realizes(root, entries, objects) && ManifestOk(entries, total, policy, limits)
      && ObjectsOk(entries, objects)
    requires q in entries
    ensures Under(PLACES, q) && At(root, q).Some? && PlainItem(entries[q]) == EntryOf(At(root, q).value)
  {
    hide ItemOk, ItemPlaced, Under, At, Dense, Sum, ManifestLength;
    assert ItemOk(entries, q, policy, limits);
    PlacedItem(entries, q, policy, limits);
    InScopeIfOk(entries, q, policy, limits);
    ScopeIsUnder(q);
    assert q != [] && q != PACKAGE by { PlacedMeans(entries, q); }
    assert NodeAt(root, q) == Wanted(entries, objects, q);
    assert entries[q].FileItem? ==> IsFile(entries, q);
  }

  lemma PlacedMeans(entries: Manifest, q: Path)
    requires ItemPlaced(entries, q)
    ensures q != [] && q != PACKAGE
  {
  }

  lemma InScopeIfOk(entries: Manifest, q: Path, policy: Enrollment, limits: Limits)
    requires q in entries && ItemOk(entries, q, policy, limits)
    ensures InScope(q)
  {
  }

  lemma NothingElse(root: Tree, entries: Manifest, objects: map<nat, Bytes>, q: Path)
    requires Realizes(root, entries, objects) && q !in entries && q != [] && q != PACKAGE
    ensures At(root, q).None?
  {
    hide At;
    assert NodeAt(root, q) == Wanted(entries, objects, q);
  }

  lemma ScopeIsUnder(q: Path)
    requires InScope(q)
    ensures Under(PLACES, q)
  {
    if q in CONFIG {
      var i :| 0 <= i < |CONFIG| && CONFIG[i] == q;
      assert PLACES[i] <= q;
    } else {
      assert PLACES[|CONFIG|] <= q;
    }
  }

  lemma UnderIsInside(q: Path)
    requires Under(PLACES, q)
    ensures q != [] && q != PACKAGE
  {
    var i :| 0 <= i < |PLACES| && PLACES[i] <= q;
    if i < |CONFIG| {
      ConfigPaths();
      assert PLACES[i] == CONFIG[i];
    } else {
      assert q[0] == "data" && "data"[0] == 'd' && "basswiesn"[0] == 'b';
    }
  }

  /** The readback of a rebuilt tree stays within the limits, and can differ from the manifest only
      in the numbers. */
  lemma Readback(root: Tree, entries: Manifest, total: nat, objects: map<nat, Bytes>, policy: Enrollment,
                 limits: Limits, copying: bool)
    requires Realizes(root, entries, objects) && ManifestOk(entries, total, policy, limits)
      && ObjectsOk(entries, objects)
    ensures Present(root, PLACES) && FitPlaces(root, PLACES, Owners(policy), limits, 0, 0)
    ensures WithoutObjects(AddPlaces(NOTHING, copying, root, PLACES).entries) == WithoutObjects(entries)
    ensures AddPlaces(NOTHING, copying, root, PLACES).total == total
  {
    hide At, FitPlaces, AddPlaces, Sum, AllSound, SoundAll, Dense, ItemOk, Realizes, WithoutObjects, ObjectsOk;
    var owners := Owners(policy);
    PlacesApart();
    NothingYet(PLACES);
    SumNone();
    NothingSealed(owners, limits);
    forall i | 0 <= i < |PLACES| ensures At(root, PLACES[i]).Some? {
      RealizedPlaces(root, entries, total, objects, policy, limits, PLACES[i]);
    }
    var r := AddPlaces(NOTHING, copying, root, PLACES).entries;
    SameWithoutObjects(root, entries, total, objects, policy, limits, copying);
    SumPlain(r, entries);
    SameSoundness(r, entries, policy, limits);
    RealizedOk(root, entries, objects);
    PlacesCount(NOTHING, copying, root, PLACES, owners, limits);
    FitPlacesMeans(root, PLACES, owners, limits, 0, 0);
  }

  lemma RealizedOk(root: Tree, entries: Manifest, objects: map<nat, Bytes>)
    requires Realizes(root, entries, objects)
    ensures TreeOk(root)
  {
  }

  lemma SameWithoutObjects(root: Tree, entries: Manifest, total: nat, objects: map<nat, Bytes>, policy: Enrollment,
                           limits: Limits,
                           copying: bool)
    requires Realizes(root, entries, objects) && ManifestOk(entries, total, policy, limits)
      && ObjectsOk(entries, objects)
    requires Present(root, PLACES)
    ensures WithoutObjects(AddPlaces(NOTHING, copying, root, PLACES).entries) == WithoutObjects(entries)
  {
    hide At, AddPlaces, ManifestOk, ObjectsOk, Under, Apart;
    PlacesApart();
    NothingYet(PLACES);
    var a, b := WithoutObjects(AddPlaces(NOTHING, copying, root, PLACES).entries), WithoutObjects(entries);
    forall q ensures Get(a, q) == Get(b, q) {
      PlacesWalk(NOTHING, copying, root, PLACES, q);
      RealizedPlaces(root, entries, total, objects, policy, limits, q);
    }
    assert forall q :: (q in a <==> Get(a, q).Some?) && (q in b <==> Get(b, q).Some?);
    forall q | q in a ensures a[q] == b[q] { assert Get(a, q) == Get(b, q); }
  }

  lemma SameSoundness(r: Manifest, entries: Manifest, policy: Enrollment, limits: Limits)
    requires WithoutObjects(r) == WithoutObjects(entries)
    requires forall p :: p in entries ==> ItemOk(entries, p, policy, limits)
    ensures AllSound(r, Owners(policy), limits)
  {
    SameKeys(r, entries);
    forall p | p in r ensures EntrySound(p, r[p], Owners(policy), limits) {
      assert ItemOk(entries, p, policy, limits);
      assert PlainItem(r[p]) == WithoutObjects(r)[p] == WithoutObjects(entries)[p] == PlainItem(entries[p]);
    }
  }

  ghost predicate Trusted(entries: Manifest, total: nat, objects: map<nat, Bytes>, policy: Enrollment, limits: Limits) {
    ManifestOk(entries, total, policy, limits) && ObjectsOk(entries, objects)
  }

  /** An inventory numbers its files densely, in the order of its walk. */
  lemma InventoryOrdered(root: Tree, copying: bool)
    requires TreeOk(root) && Present(root, PLACES)
    ensures var m := AddPlaces(NOTHING, copying, root, PLACES).entries;
      InWalkOrder(m, PLACES) && exists n :: Dense(m, n)
  {
    hide AddPlaces, At, WalkBefore, Apart, Sealed, Dense;
    PlacesApart();
    NothingYet(PLACES);
    NothingSealed({}, Limits(0, 0, 0));
    PlacesSealed(NOTHING, root, PLACES);
    var s := AddPlaces(NOTHING, true, root, PLACES);
    assert Dense(s.entries, s.files) by { SealedIsDense(s); }
    var m := AddPlaces(NOTHING, copying, root, PLACES).entries;
    assert m == s.entries by { if !copying { SamePlaces(NOTHING, NOTHING, root, root, PLACES); } }
    forall a, b | IsFile(m, a) && IsFile(m, b) ensures m[a].number < m[b].number <==> WalkBefore(PLACES, a, b) {
      CapturedWalk(root, a);
      CapturedWalk(root, b);
      PlacesInOrder(NOTHING, copying, root, PLACES, a, b);
    }
  }

  lemma SealedIsDense(s: Tally)
    requires Sealed(s)
    ensures Dense(s.entries, s.files)
  {
  }

  /** A readback that differs from a dense manifest in nothing but the numbers is that manifest,
      exactly when its numbers are in the order of the walk. */
  lemma OrderDecides(root: Tree, entries: Manifest, total: nat, policy: Enrollment, limits: Limits)
    requires TreeOk(root) && Present(root, PLACES) && ManifestOk(entries, total, policy, limits)
    requires WithoutObjects(AddPlaces(NOTHING, false, root, PLACES).entries) == WithoutObjects(entries)
    ensures AddPlaces(NOTHING, false, root, PLACES).entries == entries <==> InWalkOrder(entries, PLACES)
  {
    hide AddPlaces, WithoutObjects, InWalkOrder, Dense, ItemOk, Present;
    InventoryOrdered(root, false);
    var m := AddPlaces(NOTHING, false, root, PLACES).entries;
    var n :| Dense(m, n);
    var k :| Dense(entries, k);
    if InWalkOrder(entries, PLACES) { OrderDetermines(m, entries, n, k, PLACES); }
  }

  /** Rebuild, and read back. A manifest and copies that are trusted can always be rebuilt; the
      readback then refuses exactly the numberings that do not follow the walk. */
  method Materialize(entries: Manifest, total: nat, objects: map<nat, Bytes>, policy: Enrollment, limits: Limits,
                     clock: nat -> int)
    returns (ok: bool, out: Output)
    ensures fresh(out)
    ensures if Trusted(entries, total, objects, policy, limits) then
              && Realizes(out.root, entries, objects)
              && (ok <==> InWalkOrder(entries, PLACES))
            else !ok && out.root == Dir(PRIVATE_DIR, Nil)
  {
    hide ManifestOk, ObjectsOk, Stage, Realizes, Closed, Housed, AddPlaces, FitPlaces, Present, Apart, InWalkOrder,
      WithoutObjects;
    out := new Output(clock);
    var valid := Validate(entries, total, policy, limits);
    if !valid {
      return false, out;
    }
    var intact := VerifyObjects(entries, objects);
    if !intact {
      return false, out;
    }
    ManifestHouses(entries, total, policy, limits);
    EmptyScaffold(out.root);
    ObjectsCopied(entries, objects);
    var names := {PACKAGE} + set q | q in entries && entries[q].DirItem?;
    assert names == EntryDirectories(entries);
    var made := out.MakeAll(names);
    assert made;
    ScaffoldIsStage(out.root, entries, objects, names);
    CopyFiles(out, entries, objects, names);
    FinishDirectories(out, entries, objects, names);
    Finished(out.root, entries, objects);
    Readback(out.root, entries, total, objects, policy, limits, false);
    PlacesApart();
    var walk := new Walk(Owners(policy), limits, false);
    var read := walk.Take(out.root, PLACES);
    OrderDecides(out.root, entries, total, policy, limits);
    ok := read && walk.entries == entries && walk.total == total;
  }

  lemma ObjectsCopied(entries: Manifest, objects: map<nat, Bytes>)
    requires ObjectsOk(entries, objects)
    ensures Copied(entries, objects)
  {
  }

  lemma Finished(root: Tree, entries: Manifest, objects: map<nat, Bytes>)
    requires Stage(root, entries, objects, EntryDirectories(entries), FilePaths(entries), Directories(entries))
      && PACKAGE !in entries
    ensures Realizes(root, entries, objects) && TreeOk(root)
  {
    hide NodeAt;
    forall q: Path | q != []
      ensures if q == PACKAGE then IsDirectory(root, q) else NodeAt(root, q) == Wanted(entries, objects, q)
    {
      if q != PACKAGE && q !in EntryDirectories(entries) && q !in FilePaths(entries) {
        assert q !in entries;
      }
    }
  }

  // ----------------------------------------------------------------------------------------
  // The round trip

  /** What is rebuilt from a capture is what was captured: at every place the same tree, with its
      bytes and metadata, and so the same inventory, number for number; the readback accepts. */
  lemma RoundTrip(root: Tree, out: Tree, policy: Enrollment, limits: Limits)
    requires TreeOk(root) && Present(root, PLACES) && FitPlaces(root, PLACES, Owners(policy), limits, 0, 0)
    requires Restorable(root, policy) && Writable(root, policy)
    requires Realizes(out, Captured(root).entries, Captured(root).objects)
    ensures Trusted(Captured(root).entries, Captured(root).total, Captured(root).objects, policy, limits)
    ensures Present(out, PLACES) && forall i :: 0 <= i < |PLACES| ==> At(out, PLACES[i]) == At(root, PLACES[i])
    ensures AddPlaces(NOTHING, false, out, PLACES).entries == Captured(root).entries
    ensures InWalkOrder(Captured(root).entries, PLACES)
  {
    hide FitPlaces, Restorable, Writable, ManifestOk, AddPlaces, At, Realizes, Apart, InWalkOrder;
    CapturedIsValid(root, policy, limits);
    SealedObjects(Captured(root));
    var s := Captured(root);
    Readback(out, s.entries, s.total, s.objects, policy, limits, false);
    forall i | 0 <= i < |PLACES| ensures At(out, PLACES[i]) == At(root, PLACES[i]) {
      SamePlace(root, out, s.total, policy, limits, i);
    }
    SamePlaces(NOTHING, NOTHING, root, out, PLACES);
    InventoryOrdered(root, true);
  }

  lemma SealedObjects(s: Tally)
    requires Sealed(s)
    ensures ObjectsOk(s.entries, s.objects)
  {
    forall k ensures k in s.objects <==> Numbers(s.entries, k) {
      if Numbers(s.entries, k) { var q :| IsFile(s.entries, q) && s.entries[q].number == k; }
    }
  }

  lemma SamePlace(root: Tree, out: Tree, total: nat, policy: Enrollment, limits: Limits, i: nat)
    requires TreeOk(root) && Present(root, PLACES) && i < |PLACES|
    requires var s := Captured(root);
      Realizes(out, s.entries, s.objects) && Trusted(s.entries, total, s.objects, policy, limits)
    ensures At(out, PLACES[i]) == At(root, PLACES[i])
  {
    hide Captured, ManifestOk, ObjectsOk;
    var s, p := Captured(root), PLACES[i];
    UnderItself(i);
    CapturedWalk(root, p);
    RealizedPlaces(out, s.entries, total, s.objects, policy, limits, p);
    RealizedOk(out, s.entries, s.objects);
    hide Realizes, At;
    forall r: Path ensures EntryThere(root, p + r) == EntryThere(out, p + r) {
      UnderMore(i, r);
      CapturedWalk(root, p + r);
      RealizedPlaces(out, s.entries, total, s.objects, policy, limits, p + r);
    }
    SameThere(root, out, p);
  }

  lemma UnderMore(i: nat, r: Path)
    requires i < |PLACES|
    ensures Under(PLACES, PLACES[i] + r)
  {
    assert PLACES[i] <= PLACES[i] + r;
  }

  lemma {:induction false} SamePlaces(s: Tally, s': Tally, root: Tree, out: Tree, paths: seq<Path>)
    requires Present(root, paths) && Present(out, paths) && forall i :: 0 <= i < |paths| ==>
      At(out, paths[i]) == At(root, paths[i])
    requires s.entries == s'.entries && s.files == s'.files
    ensures AddPlaces(s, true, root, paths).entries == AddPlaces(s', false, out, paths).entries
    decreases |paths|
  {
    hide At, Numbered;
    if paths != [] {
      var t := At(root, paths[0]).value;
      PlacesLeft(root, paths);
      PlacesLeft(out, paths);
      SamePlaces(Add(s, true, paths[0], t), Add(s', false, paths[0], t), root, out, paths[1..]);
    }
  }
}
