/** Inputs at the edges of the snapshot format: installations that can be captured but not trusted
    again, because of a time or of the length of their names, and manifests that are trusted but not
    rebuilt. */
module SnapshotCases {
  import opened Protocol
  import opened Trees
  import opened Inventory
  import opened InventoryLaws
  import opened FileSystem
  import opened Snapshot

  // ----------------------------------------------------------------------------------------
  // The smallest installation

  const PLAIN_MODE: Mode := 0x180
  const SMALLEST := Limits(6, 0, 0)
  const NOBODY := Enrollment(0, map[], Version(1, 0, 0))

  function Empty(mtime: int): Tree {
    File(Meta(0, 0, PLAIN_MODE, mtime), [])
  }

  function Folder(kids: Forest): Tree {
    Dir(Meta(0, 0, PLAIN_MODE, 0), kids)
  }

  const PACKAGE_FOLDER := Folder(Cons("__init__.py", Empty(0), Nil))

  /** What is required, all of it empty; its environment file has this time, and its data directory
      these entries. */
  function Sample(mtime: int, data: Forest): Tree {
    Folder(Cons(".dockerignore", Empty(0), Cons(".env", Empty(mtime), Cons("Dockerfile", Empty(0),
      Cons("basswiesn", PACKAGE_FOLDER, Cons("data", Folder(data), Cons("docker-compose.yml", Empty(0), Nil)))))))
  }

  lemma NamesInOrder()
    ensures Less(".dockerignore", ".env") && Less(".env", "Dockerfile") && Less("Dockerfile", "basswiesn")
    ensures Less("basswiesn", "data") && Less("data", "docker-compose.yml")
  {
    assert ".dockerignore"[1..][0] == 'd' && ".env"[1..][0] == 'e';
    assert "data"[1..][0] == 'a' && "docker-compose.yml"[1..][0] == 'o';
  }

  /** A forest grows at its front. */
  lemma PutFirst(n: string, t: Tree, f: Forest)
    requires TreeOk(t) && ForestOk(f) && (f.Cons? ==> Less(n, f.name))
    ensures ForestOk(Cons(n, t, f))
  {
    forall m | m in Names(f) ensures Less(n, m) {
      if m != f.name { LessTransitive(n, f.name, m); }
    }
  }

  lemma SampleOk(mtime: int, data: Forest)
    requires ForestOk(data)
    ensures TreeOk(Sample(mtime, data))
  {
    hide Less, ForestOk;
    NamesInOrder();
    NilOk();
    PutFirst("__init__.py", Empty(0), Nil);
    var f5 := Cons("docker-compose.yml", Empty(0), Nil);
    PutFirst("docker-compose.yml", Empty(0), Nil);
    var f4 := Cons("data", Folder(data), f5);
    PutFirst("data", Folder(data), f5);
    var f3 := Cons("basswiesn", PACKAGE_FOLDER, f4);
    PutFirst("basswiesn", PACKAGE_FOLDER, f4);
    var f2 := Cons("Dockerfile", Empty(0), f3);
    PutFirst("Dockerfile", Empty(0), f3);
    var f1 := Cons(".env", Empty(mtime), f2);
    PutFirst(".env", Empty(mtime), f2);
    PutFirst(".dockerignore", Empty(0), f1);
  }

  lemma NilOk()
    ensures ForestOk(Nil)
  {
  }

  lemma Kid(t: Tree, n: string)
    ensures At(t, [n]) == if t.File? then None else Lookup(t.kids, n)
  {
    assert [n][1..] == [];
  }

  /** What is found further on in a forest is found in the whole. */
  lemma RestIsFound(f: Forest)
    requires ForestOk(f) && f.Cons?
    ensures ForestOk(f.rest) && Lookup(f, f.name) == Some(f.tree)
    ensures forall n :: Lookup(f.rest, n).Some? ==> Lookup(f, n) == Lookup(f.rest, n)
  {
    LessAsymmetric(f.name, f.name);
  }

  lemma SampleKids(mtime: int, data: Forest)
    requires ForestOk(data)
    ensures var kids := Sample(mtime, data).kids;
      && Lookup(kids, ".dockerignore") == Some(Empty(0)) && Lookup(kids, ".env") == Some(Empty(mtime))
      && Lookup(kids, "Dockerfile") == Some(Empty(0)) && Lookup(kids, "basswiesn") == Some(PACKAGE_FOLDER)
      && Lookup(kids, "data") == Some(Folder(data)) && Lookup(kids, "docker-compose.yml") == Some(Empty(0))
  {
    hide ForestOk, Less, Names, Lookup;
    SampleOk(mtime, data);
    assert ForestOk(Sample(mtime, data).kids);
    var f0 := Sample(mtime, data).kids;
    var f1 := f0.rest;
    var f2 := f1.rest;
    var f3 := f2.rest;
    var f4 := f3.rest;
    RestIsFound(f0);
    RestIsFound(f1);
    RestIsFound(f2);
    RestIsFound(f3);
    RestIsFound(f4);
    RestIsFound(f4.rest);
  }

  lemma PackageInit(root: Tree)
    requires At(root, ["basswiesn"]) == Some(PACKAGE_FOLDER)
    ensures At(root, ["basswiesn", "__init__.py"]) == Some(Empty(0))
  {
    AtSplit(root, ["basswiesn"], ["__init__.py"]);
    Kid(PACKAGE_FOLDER, "__init__.py");
    assert ["basswiesn"] + ["__init__.py"] == ["basswiesn", "__init__.py"];
  }

  lemma SamplePlaces(mtime: int, data: Forest)
    requires ForestOk(data)
    ensures Present(Sample(mtime, data), PLACES)
    ensures forall i :: 0 <= i < |PLACES| ==>
      At(Sample(mtime, data), PLACES[i]) ==
      Some(if i == 5 then Folder(data) else if i == 1 then Empty(mtime) else Empty(0))
  {
    hide At, Lookup, Empty, ForestOk;
    var root := Sample(mtime, data);
    SampleKids(mtime, data);
    Kid(root, ".dockerignore");
    Kid(root, ".env");
    Kid(root, "Dockerfile");
    Kid(root, "basswiesn");
    Kid(root, "docker-compose.yml");
    Kid(root, "data");
    PackageInit(root);
  }

  /** Everything in a sample is empty, with the same owner and mode. */
  predicate IsPlain(t: Tree, mtime: int) {
    && t.meta.uid == t.meta.gid == 0 && t.meta.mode == PLAIN_MODE && t.meta.mtime in {0, mtime}
    && if t.File? then t.bytes == [] else ArePlain(t.kids, mtime)
  }

  predicate ArePlain(f: Forest, mtime: int) {
    match f
    case Nil => true
    case Cons(_, t, rest) => IsPlain(t, mtime) && ArePlain(rest, mtime)
  }

  lemma {:induction false} PlainBelow(t: Tree, mtime: int, p: Path)
    requires IsPlain(t, mtime) && At(t, p).Some?
    ensures IsPlain(At(t, p).value, mtime)
    decreases |p|
  {
    if p != [] {
      PlainKid(t.kids, mtime, p[0]);
      PlainBelow(Lookup(t.kids, p[0]).value, mtime, p[1..]);
    }
  }

  lemma {:induction false} PlainKid(f: Forest, mtime: int, n: string)
    requires ArePlain(f, mtime) && Lookup(f, n).Some?
    ensures IsPlain(Lookup(f, n).value, mtime)
  {
    match f
    case Cons(m, _, rest) => if m != n { PlainKid(rest, mtime, n); }
  }

  lemma SampleIsPlain(mtime: int, data: Forest)
    requires ArePlain(data, mtime)
    ensures IsPlain(Sample(mtime, data), mtime)
  {
    assert ArePlain(Nil, mtime);
    var f5 := Cons("docker-compose.yml", Empty(0), Nil);
    assert ArePlain(f5, mtime);
    var f4 := Cons("data", Folder(data), f5);
    assert ArePlain(f4, mtime);
    var f3 := Cons("basswiesn", PACKAGE_FOLDER, f4);
    assert ArePlain(f3, mtime);
    var f2 := Cons("Dockerfile", Empty(0), f3);
    assert ArePlain(f2, mtime);
    var f1 := Cons(".env", Empty(mtime), f2);
    assert ArePlain(f1, mtime);
  }

  // ----------------------------------------------------------------------------------------
  // It fits

  lemma PlacePaths(i: nat)
    requires i < |PLACES|
    ensures PathOk(PLACES[i])
  {
    ComponentNames();
  }

  lemma ComponentNames()
    ensures NameOk(".dockerignore") && NameOk(".env") && NameOk("Dockerfile") && NameOk("basswiesn")
    ensures NameOk("__init__.py") && NameOk("docker-compose.yml") && NameOk("data")
  {
  }

  /** Places of one entry each, and a last one that may have more. */
  lemma {:induction false} EmptyPlacesFit(root: Tree, paths: seq<Path>, owners: set<int>, limits: Limits, entries: nat)
    requires paths != [] && Present(root, paths)
    requires forall i :: 0 <= i < |paths| ==>
      var t := At(root, paths[i]).value; Volume(t) == 0 && Sound(paths[i], t, owners, limits)
    requires forall i :: 0 <= i < |paths| - 1 ==> Size(At(root, paths[i]).value) == 1
    requires entries + |paths| - 1 + Size(At(root, paths[|paths| - 1]).value) <= limits.entries
    ensures FitPlaces(root, paths, owners, limits, entries, 0)
    decreases |paths|
  {
    hide At, Size, Volume, Sound;
    PlacesLeft(root, paths);
    if |paths| > 1 {
      EmptyPlacesFit(root, paths[1..], owners, limits, entries + 1);
    }
  }

  lemma SampleFits(mtime: int, data: Forest, limits: Limits)
    requires ForestOk(data) && VolumeIn(data) == 0 && SoundIn(DATA, data, Owners(NOBODY), limits)
    requires 6 + ForestSize(data) <= limits.entries
    ensures Present(Sample(mtime, data), PLACES)
    ensures FitPlaces(Sample(mtime, data), PLACES, Owners(NOBODY), limits, 0, 0)
  {
    SamplePlaces(mtime, data);
    hide At, FitPlaces, PathOk, Sample, ForestOk;
    assert PLAIN_MODE & UNSAFE_MODE == 0 && PLAIN_MODE & SETGID == 0;
    assert PLACES[5] == DATA;
    forall i | 0 <= i < |PLACES|
      ensures var t := At(Sample(mtime, data), PLACES[i]).value;
        Volume(t) == 0 && Sound(PLACES[i], t, Owners(NOBODY), limits)
        && Size(t) == if i == 5 then 1 + ForestSize(data) else 1
    {
      PlacePaths(i);
    }
    EmptyPlacesFit(Sample(mtime, data), PLACES, Owners(NOBODY), limits, 0);
  }

  lemma {:induction false} EscapedBound(s: string)
    ensures EscapedLength(s) <= 12 * |s|
  {
    if s != [] { EscapedBound(s[1..]); }
  }

  lemma {:induction false} KeyBound(p: Path)
    ensures KeyLength(p) <= 12 * TextLength(p)
  {
    if p != [] {
      EscapedBound(p[0]);
      if |p| > 1 { KeyBound(p[1..]); }
    }
  }

  lemma {:induction false} LengthsBound(m: Manifest, most: nat)
    requires forall p :: p in m ==> LineLength(p, m[p]) <= most
    ensures Lengths(m) <= most * |m|
    decreases |m|
  {
    hide LineLength;
    if m != map[] {
      var p :| p in m;
      LengthsRemove(m, p);
      LengthsBound(m - {p}, most);
      assert most * |m| == most * |m - {p}| + most;
    }
  }

  lemma TimeLength(mtime: int)
    requires -TIME_END <= mtime < TIME_END
    ensures |Number(mtime)| <= 20
  {
    assert Pow10(5) == 100_000;
    assert Pow10(10) == 100_000 * Pow10(5);
    assert Pow10(15) == 100_000 * Pow10(10);
    assert Pow10(19) == 10_000 * Pow10(15);
    DecimalLength(if mtime < 0 then -mtime else mtime, 19);
  }

  lemma SampleLine(mtime: int, q: Path)
    requires -TIME_END <= mtime < TIME_END && Present(Sample(mtime, Nil), PLACES)
      && q in Captured(Sample(mtime, Nil)).entries
    requires AllSound(Captured(Sample(mtime, Nil)).entries, Owners(NOBODY), SMALLEST)
    ensures LineLength(q, Captured(Sample(mtime, Nil)).entries[q]) <= 50_000
  {
    hide Captured, At, Sample, KeyLength, TextLength, IsPlain;
    var i := Captured(Sample(mtime, Nil)).entries[q];
    SampleOk(mtime, Nil);
    CapturedWalk(Sample(mtime, Nil), q);
    SampleIsPlain(mtime, Nil);
    PlainBelow(Sample(mtime, Nil), mtime, q);
    PlainMeans(At(Sample(mtime, Nil), q).value, mtime);
    TimeLength(mtime);
    TimeLength(0);
    assert EntrySound(q, i, Owners(NOBODY), SMALLEST);
    KeyBound(q);
    SmallNumbers();
  }

  lemma PlainMeans(t: Tree, mtime: int)
    requires IsPlain(t, mtime)
    ensures t.meta == Meta(0, 0, PLAIN_MODE, t.meta.mtime) && t.meta.mtime in {0, mtime} && (t.File? ==> t.bytes == [])
  {
  }

  lemma SmallNumbers()
    ensures |Number(0)| == 1 && |Number(PLAIN_MODE as int)| <= 5
  {
    assert Pow10(5) == 100_000;
    DecimalLength(PLAIN_MODE as int, 5);
  }

  lemma ShortHeader()
    ensures HeaderLength(NOBODY) <= 1000
  {
  }

  /** An installation of which everything can be captured, within the limits, is trusted again if
      and only if its environment file is not from before 1970. */
  lemma OldTimesAreRefused(mtime: int)
    requires -TIME_END <= mtime < TIME_END
    ensures TreeOk(Sample(mtime, Nil)) && Present(Sample(mtime, Nil), PLACES)
    ensures FitPlaces(Sample(mtime, Nil), PLACES, Owners(NOBODY), SMALLEST, 0, 0)
      && Writable(Sample(mtime, Nil), NOBODY)
    ensures ManifestOk(Captured(Sample(mtime, Nil)).entries, Captured(Sample(mtime, Nil)).total, NOBODY, SMALLEST) <==>
      mtime >= 0
  {
    hide Captured, At, Sample, FitPlaces, ManifestOk, LineLength, AddPlaces, Sum, AllSound, SoundAll, Apart,
      HeaderLength;
    ShortHeader();
    SampleOk(mtime, Nil);
    SampleFits(mtime, Nil, SMALLEST);
    SampleCounts(mtime, Nil, SMALLEST);
    var s := Captured(Sample(mtime, Nil));
    forall q | q in s.entries ensures LineLength(q, s.entries[q]) <= 50_000 { SampleLine(mtime, q); }
    LengthsBound(s.entries, 50_000);
    SmallNumbers();
    CapturedIsValid(Sample(mtime, Nil), NOBODY, SMALLEST);
    SampleRestorable(mtime, Nil);
  }

  lemma SampleCounts(mtime: int, data: Forest, limits: Limits)
    requires ForestOk(data) && Present(Sample(mtime, data), PLACES)
    requires FitPlaces(Sample(mtime, data), PLACES, Owners(NOBODY), limits, 0, 0)
    ensures var s := Captured(Sample(mtime, data));
      |s.entries| <= limits.entries && s.total <= limits.totalBytes && AllSound(s.entries, Owners(NOBODY), limits)
  {
    hide At, Sample, FitPlaces, AddPlaces, Sum, AllSound, SoundAll, Apart;
    SampleOk(mtime, data);
    PlacesApart();
    NothingYet(PLACES);
    NothingSealed(Owners(NOBODY), limits);
    FitPlacesMeans(Sample(mtime, data), PLACES, Owners(NOBODY), limits, 0, 0);
    PlacesCount(NOTHING, true, Sample(mtime, data), PLACES, Owners(NOBODY), limits);
  }

  lemma SampleRestorable(mtime: int, data: Forest)
    requires -TIME_END <= mtime < TIME_END && ForestOk(data) && ArePlain(data, mtime)
    requires Present(Sample(mtime, data), PLACES)
    ensures Restorable(Sample(mtime, data), NOBODY) <==> mtime >= 0
  {
    hide At, Sample, Under, IsPlain, ForestOk;
    SamplePlaces(mtime, data);
    SampleIsPlain(mtime, data);
    forall q | At(Sample(mtime, data), q).Some?
      ensures var t := At(Sample(mtime, data), q).value; t.meta.gid == 0 && t.meta.mtime in {0, mtime}
    {
      PlainBelow(Sample(mtime, data), mtime, q);
      PlainMeans(At(Sample(mtime, data), q).value, mtime);
    }
    UnderItself(1);
  }

  // ----------------------------------------------------------------------------------------
  // Too many long names

  /** The limits that are in force unless others are given. */
  const DEFAULT_LIMITS := Limits(20_000, 4 * 1024 * 1024 * 1024, 2 * 1024 * 1024 * 1024)

  /** Each of these takes two bytes on disk, and six in the text of a manifest. */
  function Accents(k: nat): (s: string)
    ensures |s| == k && forall i :: 0 <= i < k ==> s[i] == '\U{E9}'
  {
    if k == 0 then "" else Accents(k - 1) + ['\U{E9}']
  }

  function CrowdName(i: nat): string
    requires i < 20_000
  {
    Accents(120) + [(0x4E00 + i) as char]
  }

  /** Empty files with names of 121 characters, or 243 bytes. */
  function Crowd(i: nat, n: nat): Forest
    requires n <= 20_000
    decreases n - i
  {
    if i >= n then Nil else Cons(CrowdName(i), Empty(0), Crowd(i + 1, n))
  }

  lemma {:induction false} LessAtEnd(p: string, a: char, b: char)
    requires a < b
    ensures Less(p + [a], p + [b])
  {
    if p != [] {
      assert (p + [a])[1..] == p[1..] + [a] && (p + [b])[1..] == p[1..] + [b];
      LessAtEnd(p[1..], a, b);
    }
  }

  lemma CrowdNameOk(i: nat)
    requires i < 20_000
    ensures NameOk(CrowdName(i)) && |CrowdName(i)| == 121
    ensures forall k :: 0 <= k < 121 ==> 0x7E < CrowdName(i)[k] as int <= 0xFFFF
  {
  }

  lemma CrowdPath(i: nat)
    requires i < 20_000
    ensures PathOk(DATA + [CrowdName(i)])
  {
    CrowdNameOk(i);
    hide CrowdName;
    ComponentNames();
    var p := DATA + [CrowdName(i)];
    assert p[1..] == [CrowdName(i)];
    assert TextLength(p[1..]) == 121;
    assert p[0] == "data";
  }

  lemma {:induction false} CrowdFits(i: nat, n: nat)
    requires i <= n <= 20_000
    ensures ForestOk(Crowd(i, n)) && ForestSize(Crowd(i, n)) == n - i && VolumeIn(Crowd(i, n)) == 0
    ensures ArePlain(Crowd(i, n), 0) && SoundIn(DATA, Crowd(i, n), Owners(NOBODY), DEFAULT_LIMITS)
    decreases n - i
  {
    hide PathOk, CrowdName;
    if i < n {
      CrowdFits(i + 1, n);
      CrowdPath(i);
      assert PLAIN_MODE & UNSAFE_MODE == 0 && PLAIN_MODE & SETGID == 0;
      if i + 1 < n { CrowdInOrder(i); }
      PutFirst(CrowdName(i), Empty(0), Crowd(i + 1, n));
    }
  }

  lemma CrowdInOrder(i: nat)
    requires i + 1 < 20_000
    ensures Less(CrowdName(i), CrowdName(i + 1))
  {
    LessAtEnd(Accents(120), (0x4E00 + i) as char, (0x4E00 + i + 1) as char);
  }

  lemma {:induction false} CrowdIsThere(i: nat, n: nat, k: nat)
    requires i <= k < n <= 20_000
    ensures Lookup(Crowd(i, n), CrowdName(k)) == Some(Empty(0))
    decreases n - i
  {
    if k != i && CrowdName(i) != CrowdName(k) { CrowdIsThere(i + 1, n, k); }
  }

  function CrowdPaths(n: nat): set<Path>
    requires n <= 20_000
  {
    if n == 0 then {} else CrowdPaths(n - 1) + {DATA + [CrowdName(n - 1)]}
  }

  ghost predicate IsCrowdPath(p: Path, n: nat)
    requires n <= 20_000
  {
    exists k: nat :: k < n && p == DATA + [CrowdName(k)]
  }

  lemma {:induction false} CrowdPathsCount(n: nat)
    requires n <= 20_000
    ensures |CrowdPaths(n)| == n
    ensures forall p :: p in CrowdPaths(n) ==> IsCrowdPath(p, n)
  {
    if n > 0 {
      CrowdPathsCount(n - 1);
      var last := DATA + [CrowdName(n - 1)];
      forall p | IsCrowdPath(p, n - 1) ensures p != last && IsCrowdPath(p, n) {
        var k: nat :| k < n - 1 && p == DATA + [CrowdName(k)];
        hide Accents;
        assert p[1][120] == (0x4E00 + k) as char && last[1][120] == (0x4E00 + n - 1) as char;
      }
    }
  }

  lemma {:induction false} LengthsAtLeast(m: Manifest, paths: set<Path>, least: nat)
    requires forall p :: p in paths ==> p in m && LineLength(p, m[p]) >= least
    ensures Lengths(m) >= least * |paths|
    decreases |paths|
  {
    hide LineLength, Lengths;
    if paths != {} {
      var p :| p in paths;
      LengthsRemove(m, p);
      LengthsAtLeast(m - {p}, paths - {p}, least);
      assert least * |paths| == least * |paths - {p}| + least;
    }
  }

  lemma {:induction false} EscapedAtLeast(s: string)
    requires forall k :: 0 <= k < |s| ==> 0x7E < s[k] as int
    ensures EscapedLength(s) >= 6 * |s|
  {
    if s != [] { EscapedAtLeast(s[1..]); }
  }

  lemma FileLine(i: Item)
    requires i.FileItem?
    ensures ItemLength(i) >= 120
  {
    hide Number;
  }

  lemma CrowdLine(n: nat, k: nat)
    requires k < n <= 20_000 && Present(Sample(0, Crowd(0, n)), PLACES)
    ensures var q, m := DATA + [CrowdName(k)], Captured(Sample(0, Crowd(0, n))).entries;
      q in m && LineLength(q, m[q]) >= 840
  {
    hide Captured, At, Sample, ItemLength, Crowd, CrowdName, Under, TreeOk;
    var root, q := Sample(0, Crowd(0, n)), DATA + [CrowdName(k)];
    CrowdFits(0, n);
    SampleOk(0, Crowd(0, n));
    SamplePlaces(0, Crowd(0, n));
    assert PLACES[5] == DATA;
    AtAppend(root, DATA, CrowdName(k));
    CrowdIsThere(0, n, k);
    UnderMore(5, [CrowdName(k)]);
    CapturedWalk(root, q);
    FileLine(Captured(root).entries[q]);
    CrowdNameOk(k);
    EscapedAtLeast(CrowdName(k));
    assert q[1..] == [CrowdName(k)] && q[0] == "data";
    assert KeyLength(q[1..]) == EscapedLength(CrowdName(k));
  }

  /** Installations that fit, also by default, and whose times and configuration are in order; they
      are refused because the text of their manifest is longer than can be read back. */
  lemma LongNamesAreRefused(n: nat)
    requires 19_980 <= n <= 19_994
    ensures var root := Sample(0, Crowd(0, n));
      && TreeOk(root) && Present(root, PLACES)
      && FitPlaces(root, PLACES, Owners(NOBODY), DEFAULT_LIMITS, 0, 0) && Restorable(root, NOBODY)
      && !Writable(root, NOBODY)
      && !ManifestOk(Captured(root).entries, Captured(root).total, NOBODY, DEFAULT_LIMITS)
  {
    hide Captured, Sample, Crowd, FitPlaces, Restorable, ManifestOk, LineLength, HeaderLength, CrowdName;
    var root := Sample(0, Crowd(0, n));
    CrowdFits(0, n);
    SampleOk(0, Crowd(0, n));
    SampleFits(0, Crowd(0, n), DEFAULT_LIMITS);
    SampleRestorable(0, Crowd(0, n));
    var m := Captured(root).entries;
    CrowdPathsCount(n);
    forall p | p in CrowdPaths(n) ensures p in m && LineLength(p, m[p]) >= 840 {
      var k: nat :| k < n && p == DATA + [CrowdName(k)];
      CrowdLine(n, k);
    }
    LengthsAtLeast(m, CrowdPaths(n), 840);
    CapturedIsValid(root, NOBODY, DEFAULT_LIMITS);
  }

  // ----------------------------------------------------------------------------------------
  // Another numbering

  function Swapped(m: Manifest, a: Path, b: Path): Manifest
    requires a in m && b in m && m[a].FileItem? && m[b].FileItem?
  {
    m[a := m[a].(number := m[b].number)][b := m[b].(number := m[a].number)]
  }

  function SwappedCopies(m: Manifest, objects: map<nat, Bytes>, a: Path, b: Path): map<nat, Bytes>
    requires a in m && b in m && m[a].FileItem? && m[b].FileItem? && m[a].number in objects && m[b].number in objects
  {
    objects[m[a].number := objects[m[b].number]][m[b].number := objects[m[a].number]]
  }

  lemma SwappedFiles(m: Manifest, a: Path, b: Path)
    requires IsFile(m, a) && IsFile(m, b) && a != b
    ensures var m' := Swapped(m, a, b);
      && m'.Keys == m.Keys && WithoutObjects(m') == WithoutObjects(m)
      && (forall q :: q in m && q != a && q != b ==> m'[q] == m[q])
      && IsFile(m', a) && m'[a].number == m[b].number && IsFile(m', b) && m'[b].number == m[a].number
      && (forall q :: IsFile(m', q) <==> IsFile(m, q))
  {
    var m' := Swapped(m, a, b);
    assert m'.Keys == m.Keys;
    forall q | q in m ensures PlainItem(m'[q]) == PlainItem(m[q]) {}
    assert WithoutObjects(m') == WithoutObjects(m);
  }

  lemma SwappedDense(m: Manifest, a: Path, b: Path, n: nat)
    requires IsFile(m, a) && IsFile(m, b) && a != b && Dense(m, n)
    ensures Dense(Swapped(m, a, b), n)
  {
    SwappedFiles(m, a, b);
    hide WithoutObjects, Swapped;
    var m' := Swapped(m, a, b);
    forall k: nat | k < n ensures Numbers(m', k) {
      assert Numbers(m, k);
      var q :| IsFile(m, q) && m[q].number == k;
      var p := if q == a then b else if q == b then a else q;
      assert IsFile(m', p) && m'[p].number == k;
    }
  }

  lemma {:induction false} LengthsPlain(a: Manifest, b: Manifest)
    requires WithoutObjects(a) == WithoutObjects(b)
    ensures Lengths(a) == Lengths(b)
    decreases |a|
  {
    hide WithoutObjects, Lengths;
    LengthsNone();
    SameKeys(a, b);
    if a != map[] {
      var p :| p in a;
      LengthsRemove(a, p);
      LengthsRemove(b, p);
      PlainRemove(a, b, p);
      SamePlain(a, b, p);
      LengthsPlain(a - {p}, b - {p});
    }
  }

  /** Exchanging the numbers of two files, and their copies, gives a manifest that is trusted just
      as well. */
  lemma SwappedIsTrusted(m: Manifest, total: nat, objects: map<nat, Bytes>, policy: Enrollment, limits: Limits,
                         a: Path, b: Path)
    requires Trusted(m, total, objects, policy, limits) && IsFile(m, a) && IsFile(m, b) && a != b
    ensures m[a].number in objects && m[b].number in objects
    ensures Trusted(Swapped(m, a, b), total, SwappedCopies(m, objects, a, b), policy, limits)
  {
    SwappedManifest(m, total, policy, limits, a, b);
    hide ManifestOk;
    SwappedObjects(m, objects, a, b);
  }

  lemma SwappedManifest(m: Manifest, total: nat, policy: Enrollment, limits: Limits, a: Path, b: Path)
    requires ManifestOk(m, total, policy, limits) && IsFile(m, a) && IsFile(m, b) && a != b
    ensures ManifestOk(Swapped(m, a, b), total, policy, limits)
  {
    hide ItemOk, Sum, Lengths, Dense, WithoutObjects, Swapped, HeaderLength;
    var m' := Swapped(m, a, b);
    SwappedFiles(m, a, b);
    SumPlain(m', m);
    LengthsPlain(m', m);
    forall p | p in m' ensures ItemOk(m', p, policy, limits) { SwappedItem(m, m', p, policy, limits); }
    var n :| Dense(m, n);
    SwappedDense(m, a, b, n);
  }

  lemma SwappedItem(m: Manifest, m': Manifest, p: Path, policy: Enrollment, limits: Limits)
    requires WithoutObjects(m') == WithoutObjects(m) && p in m && p in m' && ItemOk(m, p, policy, limits)
    ensures ItemOk(m', p, policy, limits)
  {
    SamePlain(m, m', p);
    if p[0] == "data" && p != DATA { SamePlain(m, m', p[..|p| - 1]); }
  }

  lemma SwappedObjects(m: Manifest, objects: map<nat, Bytes>, a: Path, b: Path)
    requires ObjectsOk(m, objects) && IsFile(m, a) && IsFile(m, b) && a != b
    requires exists n :: Dense(m, n)
    ensures m[a].number in objects && m[b].number in objects
    ensures ObjectsOk(Swapped(m, a, b), SwappedCopies(m, objects, a, b))
  {
    var n :| Dense(m, n);
    var m', o' := Swapped(m, a, b), SwappedCopies(m, objects, a, b);
    SwappedFiles(m, a, b);
    SwappedDense(m, a, b, n);
    forall k ensures k in o' <==> Numbers(m', k) {
      SameNumbers(m, m', n, k);
    }
    hide Dense, WithoutObjects, Swapped, Numbers;
    SwappedCopied(m, m', objects, o', a, b, n);
  }

  lemma SameNumbers(m: Manifest, m': Manifest, n: nat, k: nat)
    requires Dense(m, n) && Dense(m', n)
    ensures Numbers(m, k) <==> Numbers(m', k)
  {
    assert k < n ==> Numbers(m, k) && Numbers(m', k);
  }

  lemma SwappedCopied(m: Manifest, m': Manifest, objects: map<nat, Bytes>, o': map<nat, Bytes>, a: Path, b: Path,
                      n: nat)
    requires Copied(m, objects) && IsFile(m, a) && IsFile(m, b) && a != b && Dense(m, n)
    requires m' == Swapped(m, a, b) && o' == SwappedCopies(m, objects, a, b)
    ensures Copied(m', o')
  {
    SwappedFiles(m, a, b);
    hide WithoutObjects, Swapped;
    assert m'[a].sha == m[a].sha && m'[a].size == m[a].size && m'[b].sha == m[b].sha && m'[b].size == m[b].size by {
      SamePlain(m, m', a);
      SamePlain(m, m', b);
    }
    forall q | IsFile(m', q) && q != a && q != b ensures m'[q].number != m[a].number && m'[q].number != m[b].number {
      assert IsFile(m, q);
    }
  }

  /** Whatever installation a trusted manifest in walk order describes, there is another one that is
      trusted, describes the same, and is refused when it is rebuilt. */
  lemma RenumberedIsRefused(m: Manifest, total: nat, objects: map<nat, Bytes>, policy: Enrollment, limits: Limits)
    requires Trusted(m, total, objects, policy, limits) && InWalkOrder(m, PLACES)
    ensures IsFile(m, PLACES[0]) && IsFile(m, PLACES[1]) && m[PLACES[0]].number in objects
      && m[PLACES[1]].number in objects
    ensures var m', o' := Swapped(m, PLACES[0], PLACES[1]), SwappedCopies(m, objects, PLACES[0], PLACES[1]);
      Trusted(m', total, o', policy, limits) && WithoutObjects(m') == WithoutObjects(m) && !InWalkOrder(m', PLACES)
  {
    hide Dense, Sum, Lengths, WithoutObjects, Swapped, SwappedCopies, Before;
    var a, b := PLACES[0], PLACES[1];
    FirstTwo(m, total, policy, limits);
    SwappedFiles(m, a, b);
    SwappedIsTrusted(m, total, objects, policy, limits, a, b);
    hide ManifestOk, ObjectsOk;
    assert WalkBefore(PLACES, a, b) by { FirstBeforeSecond(); }
    var m' := Swapped(m, a, b);
    assert m'[b].number < m'[a].number;
    assert !(m'[a].number < m'[b].number);
  }

  lemma FirstBeforeSecond()
    ensures PLACES[0] != PLACES[1] && WalkBefore(PLACES, PLACES[0], PLACES[1])
  {
    PlacesApart();
    assert !(PLACES[0] <= PLACES[1]);
    PlaceOfFirst(PLACES, PLACES[0]);
    PlaceOfFirst(PLACES, PLACES[1]);
  }

  lemma FirstTwo(m: Manifest, total: nat, policy: Enrollment, limits: Limits)
    requires ManifestOk(m, total, policy, limits)
    ensures IsFile(m, PLACES[0]) && IsFile(m, PLACES[1]) && PLACES[0] != PLACES[1]
  {
    hide Dense, Sum, Lengths;
    FirstBeforeSecond();
    forall i | 0 <= i < 2 ensures IsFile(m, PLACES[i]) {
      assert PLACES[i] in m && ItemOk(m, PLACES[i], policy, limits);
      assert PLACES[i] == CONFIG[i];
      assert PLACES[i] in CONFIG;
    }
  }

  /** The capture of a sample is such a manifest. */
  lemma SampleIsTrusted()
    ensures Present(Sample(0, Nil), PLACES)
    ensures var s := Captured(Sample(0, Nil));
      Trusted(s.entries, s.total, s.objects, NOBODY, SMALLEST) && InWalkOrder(s.entries, PLACES)
  {
    hide ManifestOk, AddPlaces, Sample, FitPlaces, InWalkOrder;
    OldTimesAreRefused(0);
    CapturedIsValid(Sample(0, Nil), NOBODY, SMALLEST);
    SealedObjects(Captured(Sample(0, Nil)));
    InventoryOrdered(Sample(0, Nil), true);
  }
}
