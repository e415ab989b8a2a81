/** What an inventory says about the tree it was taken from. */
module InventoryLaws {
  import opened Protocol
  import opened Trees
  import opened Inventory
  import L = Locations

  // ----------------------------------------------------------------------------------------
  // Numbers and copies

  /** The files are numbered 0 to n - 1, each number once. */
  ghost predicate Dense(m: Manifest, n: nat) {
    && (forall q :: IsFile(m, q) ==> m[q].number < n)
    && (forall a, b :: IsFile(m, a) && IsFile(m, b) && m[a].number == m[b].number ==> a == b)
    && (forall k: nat :: k < n ==> Numbers(m, k))
  }

  ghost predicate Numbers(m: Manifest, k: nat) {
    exists q :: IsFile(m, q) && m[q].number == k
  }

  /** Every file has its copy, with its length and hash. */
  ghost predicate Copied(m: Manifest, objects: map<nat, Bytes>) {
    forall q :: IsFile(m, q) ==>
      m[q].number in objects && Sha256(objects[m[q].number]) == m[q].sha && |objects[m[q].number]| == m[q].size
  }

  ghost predicate Sealed(s: Tally) {
    Dense(s.entries, s.files) && Copied(s.entries, s.objects) && forall k: nat :: k in s.objects <==> k < s.files
  }

  lemma FileSealed(s: Tally, p: Path, meta: Meta, bytes: Bytes)
    requires Sealed(s) && p !in s.entries
    ensures Sealed(Tally(s.entries[p := FileItem(meta, Sha256(bytes), |bytes|, s.files)], s.total + |bytes|,
                         s.files + 1, s.objects[s.files := bytes]))
  {
    var m := s.entries[p := FileItem(meta, Sha256(bytes), |bytes|, s.files)];
    assert IsFile(m, p) && m[p].number == s.files;
    forall k: nat | k < s.files + 1 ensures Numbers(m, k) {
      if k < s.files {
        assert Numbers(s.entries, k);
        var q :| IsFile(s.entries, q) && s.entries[q].number == k;
        assert IsFile(m, q) && m[q].number == k;
      }
    }
    assert forall q :: IsFile(m, q) && q != p ==> IsFile(s.entries, q) && m[q] == s.entries[q];
  }

  lemma DirectorySealed(s: Tally, p: Path, meta: Meta)
    requires Sealed(s) && p !in s.entries
    ensures Sealed(s.(entries := s.entries[p := DirItem(meta)]))
  {
    var m := s.entries[p := DirItem(meta)];
    assert forall q :: IsFile(m, q) <==> IsFile(s.entries, q);
    assert forall q :: IsFile(m, q) ==> m[q] == s.entries[q];
    forall k: nat | k < s.files ensures Numbers(m, k) {
      assert Numbers(s.entries, k);
      var q :| IsFile(s.entries, q) && s.entries[q].number == k;
      assert IsFile(m, q);
    }
  }

  lemma {:induction false} AddSealed(s: Tally, p: Path, t: Tree)
    requires TreeOk(t) && Clear(s.entries, p) && Sealed(s)
    ensures Sealed(Add(s, true, p, t))
    decreases t
  {
    hide Sealed, Add, AddAll, Clear, ClearFor;
    NotYet(s.entries, p);
    match t
    case File(meta, bytes) =>
      AddFile(s, true, p, meta, bytes);
      FileSealed(s, p, meta, bytes);
    case Dir(meta, kids) =>
      AddDir(s, true, p, meta, kids);
      DirectorySealed(s, p, meta);
      ClearBelow(s.entries, p, meta, kids);
      AddAllSealed(s.(entries := s.entries[p := DirItem(meta)]), p, kids);
  }

  lemma {:induction false} AddAllSealed(s: Tally, p: Path, f: Forest)
    requires ForestOk(f) && ClearFor(s.entries, p, Names(f)) && Sealed(s)
    ensures Sealed(AddAll(s, true, p, f))
    decreases f
  {
    hide Sealed, Add, AddAll, Clear, ClearFor, Names;
    match f
    case Nil => AddNone(s, true, p);
    case Cons(name, t, rest) =>
      NextKid(s, true, p, f);
      AddSealed(s, p + [name], t);
      AddAllSealed(Add(s, true, p + [name], t), p, rest);
  }

  /** One kid at a time. */
  lemma NextKid(s: Tally, copying: bool, p: Path, f: Forest)
    requires f.Cons? && ForestOk(f) && ClearFor(s.entries, p, Names(f))
    ensures Clear(s.entries, p + [f.name])
    ensures ClearFor(Add(s, copying, p + [f.name], f.tree).entries, p, Names(f.rest))
    ensures AddAll(s, copying, p, f) == AddAll(Add(s, copying, p + [f.name], f.tree), copying, p, f.rest)
  {
    ClearKid(s.entries, p, f);
    ClearAfter(s.entries, p, f, s.files);
    AddParts(s, copying, p + [f.name], f.tree);
    AddKid(s, copying, p, f);
  }

  // ----------------------------------------------------------------------------------------
  // Counts and sizes

  function SizeOf(i: Item): nat {
    if i.FileItem? then i.size else 0
  }

  ghost function Sum(m: Manifest): nat
    decreases |m|
  {
    if m == map[] then 0 else
      var p :| p in m;
      SizeOf(m[p]) + Sum(m - {p})
  }

  lemma {:induction false} SumRemove(m: Manifest, p: Path)
    requires p in m
    ensures Sum(m) == SizeOf(m[p]) + Sum(m - {p})
    decreases |m|
  {
    var q :| q in m && Sum(m) == SizeOf(m[q]) + Sum(m - {q});
    if q != p {
      assert m - {q} - {p} == m - {p} - {q};
      SumRemove(m - {q}, p);
      SumRemove(m - {p}, q);
    }
  }

  lemma SumNone()
    ensures Sum(map[]) == 0
  {
  }

  lemma SumInsert(m: Manifest, p: Path, i: Item)
    requires p !in m
    ensures Sum(m[p := i]) == Sum(m) + SizeOf(i) && |m[p := i]| == |m| + 1
  {
    SumRemove(m[p := i], p);
    assert m[p := i] - {p} == m;
  }

  /** The sum does not depend on the numbers. */
  lemma {:induction false} SumPlain(a: Manifest, b: Manifest)
    requires WithoutObjects(a) == WithoutObjects(b)
    ensures Sum(a) == Sum(b) && |a| == |b|
    decreases |a|
  {
    hide WithoutObjects, Sum;
    SumNone();
    SameKeys(a, b);
    if a != map[] {
      var p :| p in a;
      SumRemove(a, p);
      SumRemove(b, p);
      PlainRemove(a, b, p);
      SumPlain(a - {p}, b - {p});
    }
  }

  lemma PlainRemove(a: Manifest, b: Manifest, p: Path)
    requires WithoutObjects(a) == WithoutObjects(b) && p in a
    ensures p in b && SizeOf(a[p]) == SizeOf(b[p])
    ensures WithoutObjects(a - {p}) == WithoutObjects(b - {p})
  {
    SameKeys(a, b);
    assert PlainItem(a[p]) == WithoutObjects(a)[p] == WithoutObjects(b)[p] == PlainItem(b[p]);
    assert WithoutObjects(a - {p}) == WithoutObjects(a) - {p};
    assert WithoutObjects(b - {p}) == WithoutObjects(b) - {p};
  }

  lemma SameKeys(a: Manifest, b: Manifest)
    requires WithoutObjects(a) == WithoutObjects(b)
    ensures a.Keys == b.Keys && |a| == |b|
  {
    assert a.Keys == WithoutObjects(a).Keys;
    assert b.Keys == WithoutObjects(b).Keys;
  }

  lemma {:induction false} AddCounts(s: Tally, copying: bool, p: Path, t: Tree)
    requires TreeOk(t) && Clear(s.entries, p)
    ensures |Add(s, copying, p, t).entries| == |s.entries| + Size(t)
    ensures Sum(Add(s, copying, p, t).entries) == Sum(s.entries) + Volume(t)
    decreases t
  {
    hide Add, AddAll, Clear, ClearFor, Sum;
    NotYet(s.entries, p);
    match t
    case File(meta, bytes) =>
      AddFile(s, copying, p, meta, bytes);
      SumInsert(s.entries, p, FileItem(meta, Sha256(bytes), |bytes|, s.files));
    case Dir(meta, kids) =>
      AddDir(s, copying, p, meta, kids);
      SumInsert(s.entries, p, DirItem(meta));
      ClearBelow(s.entries, p, meta, kids);
      AddAllCounts(s.(entries := s.entries[p := DirItem(meta)]), copying, p, kids);
  }

  lemma {:induction false} AddAllCounts(s: Tally, copying: bool, p: Path, f: Forest)
    requires ForestOk(f) && ClearFor(s.entries, p, Names(f))
    ensures |AddAll(s, copying, p, f).entries| == |s.entries| + ForestSize(f)
    ensures Sum(AddAll(s, copying, p, f).entries) == Sum(s.entries) + VolumeIn(f)
    decreases f
  {
    hide Add, AddAll, Clear, ClearFor, Sum, Names;
    match f
    case Nil => AddNone(s, copying, p);
    case Cons(name, t, rest) =>
      NextKid(s, copying, p, f);
      AddCounts(s, copying, p + [name], t);
      AddAllCounts(Add(s, copying, p + [name], t), copying, p, rest);
  }

  // ----------------------------------------------------------------------------------------
  // Every entry is sound

  predicate EntrySound(p: Path, i: Item, owners: set<int>, limits: Limits) {
    PathOk(p) && MetaOk(i.meta, i.FileItem?, owners) && SizeOf(i) <= limits.fileBytes
  }

  ghost predicate AllSound(m: Manifest, owners: set<int>, limits: Limits) {
    forall p :: p in m ==> EntrySound(p, m[p], owners, limits)
  }

  lemma SoundInsert(m: Manifest, p: Path, i: Item, owners: set<int>, limits: Limits)
    requires p !in m
    ensures AllSound(m[p := i], owners, limits) <==> AllSound(m, owners, limits) && EntrySound(p, i, owners, limits)
  {
    var m' := m[p := i];
    hide EntrySound;
    assert forall q :: q in m ==> q in m' && m'[q] == m[q];
    assert p in m' && m'[p] == i;
  }

  lemma {:induction false} AddSound(s: Tally, copying: bool, p: Path, t: Tree, owners: set<int>, limits: Limits)
    requires TreeOk(t) && Clear(s.entries, p)
    ensures AllSound(Add(s, copying, p, t).entries, owners, limits) <==>
      AllSound(s.entries, owners, limits) && Sound(p, t, owners, limits)
    decreases t
  {
    hide Add, AddAll, Clear, ClearFor, AllSound, PathOk, MetaOk;
    NotYet(s.entries, p);
    match t
    case File(meta, bytes) =>
      AddFile(s, copying, p, meta, bytes);
      SoundInsert(s.entries, p, FileItem(meta, Sha256(bytes), |bytes|, s.files), owners, limits);
    case Dir(meta, kids) =>
      AddDir(s, copying, p, meta, kids);
      SoundInsert(s.entries, p, DirItem(meta), owners, limits);
      ClearBelow(s.entries, p, meta, kids);
      AddAllSound(s.(entries := s.entries[p := DirItem(meta)]), copying, p, kids, owners, limits);
  }

  lemma {:induction false} AddAllSound(s: Tally, copying: bool, p: Path, f: Forest, owners: set<int>, limits: Limits)
    requires ForestOk(f) && ClearFor(s.entries, p, Names(f))
    ensures AllSound(AddAll(s, copying, p, f).entries, owners, limits) <==>
      AllSound(s.entries, owners, limits) && SoundIn(p, f, owners, limits)
    decreases f
  {
    hide Add, AddAll, Clear, ClearFor, AllSound, Names, Sound;
    match f
    case Nil => AddNone(s, copying, p);
    case Cons(name, t, rest) =>
      NextKid(s, copying, p, f);
      AddSound(s, copying, p + [name], t, owners, limits);
      AddAllSound(Add(s, copying, p + [name], t), copying, p, rest, owners, limits);
  }

  // ----------------------------------------------------------------------------------------
  // All places together

  function SizeAll(root: Tree, paths: seq<Path>): nat
    requires Present(root, paths)
    decreases |paths|
  {
    if paths == [] then 0 else Size(At(root, paths[0]).value) + SizeAll(root, paths[1..])
  }

  function VolumeAll(root: Tree, paths: seq<Path>): nat
    requires Present(root, paths)
    decreases |paths|
  {
    if paths == [] then 0 else Volume(At(root, paths[0]).value) + VolumeAll(root, paths[1..])
  }

  ghost predicate SoundAll(root: Tree, paths: seq<Path>, owners: set<int>, limits: Limits)
    requires Present(root, paths)
    decreases |paths|
  {
    paths == []
      || (Sound(paths[0], At(root, paths[0]).value, owners, limits) && SoundAll(root, paths[1..], owners, limits))
  }

  /** The limits met along the way are the limits met by the whole. */
  lemma {:induction false} FitPlacesMeans(root: Tree, paths: seq<Path>, owners: set<int>, limits: Limits,
                                          entries: nat, total: nat)
    requires Present(root, paths)
    ensures FitPlaces(root, paths, owners, limits, entries, total) <==>
      && entries + SizeAll(root, paths) <= limits.entries
      && total + VolumeAll(root, paths) <= limits.totalBytes
      && SoundAll(root, paths, owners, limits)
    decreases |paths|
  {
    hide Sound, Size, Volume, At;
    if paths != [] {
      var t := At(root, paths[0]).value;
      FitPlacesMeans(root, paths[1..], owners, limits, entries + Size(t), total + Volume(t));
    }
  }

  lemma NextPlace(s: Tally, copying: bool, root: Tree, paths: seq<Path>)
    requires paths != [] && Present(root, paths) && Apart(paths) && ClearOf(s.entries, paths)
    ensures Present(root, paths[1..]) && Apart(paths[1..])
    ensures var s' := Add(s, copying, paths[0], At(root, paths[0]).value);
      ClearOf(s'.entries, paths[1..]) && AddPlaces(s, copying, root, paths) == AddPlaces(s', copying, root, paths[1..])
  {
    hide At, Clear, Add;
    PlacesLeft(root, paths);
    PlaceCleared(s, copying, paths, At(root, paths[0]).value);
  }

  lemma {:induction false} PlacesSealed(s: Tally, root: Tree, paths: seq<Path>)
    requires TreeOk(root) && Present(root, paths) && Apart(paths) && ClearOf(s.entries, paths) && Sealed(s)
    ensures Sealed(AddPlaces(s, true, root, paths))
    decreases |paths|
  {
    hide Sealed, Add, At, Clear, Apart, Present;
    if paths != [] {
      PlacesLeft(root, paths);
      ClearFirst(s.entries, paths);
      NextPlace(s, true, root, paths);
      var t := At(root, paths[0]).value;
      AddSealed(s, paths[0], t);
      PlacesSealed(Add(s, true, paths[0], t), root, paths[1..]);
    }
  }

  lemma {:induction false} PlacesCount(s: Tally, copying: bool, root: Tree, paths: seq<Path>, owners: set<int>,
                                       limits: Limits)
    requires TreeOk(root) && Present(root, paths) && Apart(paths) && ClearOf(s.entries, paths)
    ensures var s' := AddPlaces(s, copying, root, paths);
      && |s'.entries| == |s.entries| + SizeAll(root, paths)
      && Sum(s'.entries) == Sum(s.entries) + VolumeAll(root, paths)
      && s'.total == s.total + VolumeAll(root, paths)
      && (AllSound(s'.entries, owners, limits) <==>
           AllSound(s.entries, owners, limits) && SoundAll(root, paths, owners, limits))
    decreases |paths|
  {
    hide Sum, AllSound, Sound, Size, Volume, Add, At, Clear, Apart, Present;
    if paths != [] {
      PlacesLeft(root, paths);
      ClearFirst(s.entries, paths);
      NextPlace(s, copying, root, paths);
      var t := At(root, paths[0]).value;
      AddCounts(s, copying, paths[0], t);
      AddSound(s, copying, paths[0], t, owners, limits);
      AddTotal(s, copying, paths[0], t);
      PlacesCount(Add(s, copying, paths[0], t), copying, root, paths[1..], owners, limits);
    }
  }

  // ----------------------------------------------------------------------------------------
  // The entries are the walks

  ghost predicate Under(paths: seq<Path>, q: Path) {
    exists i :: 0 <= i < |paths| && paths[i] <= q
  }

  function EntryThere(root: Tree, q: Path): Option<Entry> {
    if At(root, q).Some? then Some(EntryOf(At(root, q).value)) else None
  }

  lemma {:induction false} AtSplit(t: Tree, p: Path, r: Path)
    ensures At(t, p + r) == match At(t, p) { case None => None case Some(u) => At(u, r) }
    decreases |p|
  {
    if p == [] {
      assert p + r == r;
    } else if t.Dir? && Lookup(t.kids, p[0]).Some? {
      assert (p + r)[1..] == p[1..] + r;
      AtSplit(Lookup(t.kids, p[0]).value, p[1..], r);
    }
  }

  lemma NumberedWalk(root: Tree, p: Path, n: nat, q: Path)
    requires TreeOk(root) && At(root, p).Some?
    ensures Get(WithoutObjects(Numbered(p, At(root, p).value, n)), q) == if p <= q then EntryThere(root, q) else None
  {
    var t := At(root, p).value;
    NumberedIsListed(p, t, n);
    ListIsWalk(p, t, q);
    if p <= q {
      AtSplit(root, p, q[|p|..]);
      assert p + q[|p|..] == q;
    }
  }

  lemma PlainPlus(a: Manifest, b: Manifest, q: Path)
    ensures Get(WithoutObjects(a + b), q) == if q in b then Get(WithoutObjects(b), q) else Get(WithoutObjects(a), q)
  {
  }

  lemma {:induction false} PlacesWalk(s: Tally, copying: bool, root: Tree, paths: seq<Path>, q: Path)
    requires TreeOk(root) && Present(root, paths) && Apart(paths) && ClearOf(s.entries, paths)
    ensures Get(WithoutObjects(AddPlaces(s, copying, root, paths).entries), q) ==
      if Under(paths, q) then EntryThere(root, q) else Get(WithoutObjects(s.entries), q)
    decreases |paths|
  {
    hide Add, At, Numbered, WithoutObjects, Get, EntryThere, Clear;
    if paths != [] {
      var rest := paths[1..];
      PlacesLeft(root, paths);
      NextPlace(s, copying, root, paths);
      var t := At(root, paths[0]).value;
      AddParts(s, copying, paths[0], t);
      PlacesWalk(Add(s, copying, paths[0], t), copying, root, rest, q);
      FirstOrRest(paths, q);
      if !Under(rest, q) {
        NumberedWalk(root, paths[0], s.files, q);
        FirstWalk(s, root, paths, q);
      }
    }
  }

  lemma FirstOrRest(paths: seq<Path>, q: Path)
    requires paths != []
    ensures Under(paths, q) <==> paths[0] <= q || Under(paths[1..], q)
  {
    var rest := paths[1..];
    if Under(rest, q) {
      var i :| 0 <= i < |rest| && rest[i] <= q;
      assert paths[i + 1] <= q;
    }
    if Under(paths, q) && !(paths[0] <= q) {
      var i :| 0 <= i < |paths| && paths[i] <= q;
      assert rest[i - 1] <= q;
    }
  }

  lemma FirstWalk(s: Tally, root: Tree, paths: seq<Path>, q: Path)
    requires paths != [] && At(root, paths[0]).Some? && TreeOk(root) && ClearOf(s.entries, paths)
    ensures var m := Numbered(paths[0], At(root, paths[0]).value, s.files);
      Get(WithoutObjects(s.entries + m), q) ==
        if paths[0] <= q then EntryThere(root, q) else Get(WithoutObjects(s.entries), q)
  {
    var m := Numbered(paths[0], At(root, paths[0]).value, s.files);
    PlainPlus(s.entries, m, q);
    NumberedWalk(root, paths[0], s.files, q);
    ClearFirst(s.entries, paths);
    hide Numbered, EntryThere, At;
    assert q in m <==> Get(WithoutObjects(m), q).Some?;
  }

  // ----------------------------------------------------------------------------------------
  // The order of the numbers

  /** The place a path belongs to. */
  function PlaceOf(paths: seq<Path>, q: Path): nat {
    if paths == [] || paths[0] <= q then 0 else 1 + PlaceOf(paths[1..], q)
  }

  /** The order in which a walk over several places meets what it finds. */
  predicate WalkBefore(paths: seq<Path>, a: Path, b: Path) {
    PlaceOf(paths, a) < PlaceOf(paths, b) || (PlaceOf(paths, a) == PlaceOf(paths, b) && Before(a, b))
  }

  /** The files are numbered in the order of the walk. */
  ghost predicate InWalkOrder(m: Manifest, paths: seq<Path>) {
    forall a, b :: IsFile(m, a) && IsFile(m, b) ==> (m[a].number < m[b].number <==> WalkBefore(paths, a, b))
  }

  /** What is recorded before a walk keeps its entry, and its number. */
  lemma {:induction false} PlacesKeep(s: Tally, copying: bool, root: Tree, paths: seq<Path>, q: Path)
    requires Present(root, paths) && Apart(paths) && ClearOf(s.entries, paths) && !Under(paths, q)
    ensures var m := AddPlaces(s, copying, root, paths).entries;
      (q in m <==> q in s.entries) && (q in m ==> m[q] == s.entries[q])
    decreases |paths|
  {
    hide Add, At, Numbered, Clear;
    if paths != [] {
      PlacesLeft(root, paths);
      NextPlace(s, copying, root, paths);
      var t := At(root, paths[0]).value;
      AddParts(s, copying, paths[0], t);
      FirstOrRest(paths, q);
      if q in Numbered(paths[0], t, s.files) { NumberedBelow(paths[0], t, s.files, q); }
      PlacesKeep(Add(s, copying, paths[0], t), copying, root, paths[1..], q);
    }
  }

  /** The first place gets the first numbers, and keeps them. */
  lemma FirstNumbers(s: Tally, copying: bool, root: Tree, paths: seq<Path>, q: Path)
    requires paths != [] && Present(root, paths) && Apart(paths) && ClearOf(s.entries, paths) && paths[0] <= q
    ensures var m := AddPlaces(s, copying, root, paths).entries;
      var here := Numbered(paths[0], At(root, paths[0]).value, s.files);
      (q in m <==> q in here) && (q in m ==> m[q] == here[q])
  {
    hide Add, At, Numbered, Clear;
    PlacesLeft(root, paths);
    NextPlace(s, copying, root, paths);
    var t := At(root, paths[0]).value;
    AddParts(s, copying, paths[0], t);
    ClearFirst(s.entries, paths);
    NotBelow(s.entries, paths[0], q);
    FirstOnly(paths, q);
    PlacesKeep(Add(s, copying, paths[0], t), copying, root, paths[1..], q);
  }

  lemma FirstOnly(paths: seq<Path>, q: Path)
    requires paths != [] && Apart(paths) && paths[0] <= q
    ensures !Under(paths[1..], q)
  {
    var rest := paths[1..];
    forall i | 0 <= i < |rest| ensures !(rest[i] <= q) {
      assert rest[i] == paths[i + 1];
      Comparable(paths[0], paths[i + 1], q);
    }
  }

  lemma NotBelow(entries: Manifest, p: Path, q: Path)
    requires Clear(entries, p) && p <= q
    ensures q !in entries
  {
  }

  lemma AddFiles(s: Tally, copying: bool, p: Path, t: Tree)
    ensures Add(s, copying, p, t).files == s.files + Files(t)
  {
  }

  lemma {:induction false} PlacesFrom(s: Tally, copying: bool, root: Tree, paths: seq<Path>, q: Path)
    requires Present(root, paths) && Apart(paths) && ClearOf(s.entries, paths) && Under(paths, q)
    requires IsFile(AddPlaces(s, copying, root, paths).entries, q)
    ensures AddPlaces(s, copying, root, paths).entries[q].number >= s.files
    decreases |paths|
  {
    hide Add, At, Numbered, Clear, Files;
    PlacesLeft(root, paths);
    NextPlace(s, copying, root, paths);
    var t := At(root, paths[0]).value;
    AddFiles(s, copying, paths[0], t);
    FirstOrRest(paths, q);
    if paths[0] <= q {
      FirstNumbers(s, copying, root, paths, q);
      NumbersInRange(paths[0], t, s.files, q);
    } else {
      PlacesFrom(Add(s, copying, paths[0], t), copying, root, paths[1..], q);
    }
  }

  lemma PlaceOfFirst(paths: seq<Path>, q: Path)
    requires paths != []
    ensures PlaceOf(paths, q) == if paths[0] <= q then 0 else 1 + PlaceOf(paths[1..], q)
  {
  }

  /** An inventory of several places numbers its files in the order of the walk. */
  lemma {:induction false} PlacesInOrder(s: Tally, copying: bool, root: Tree, paths: seq<Path>, a: Path, b: Path)
    requires TreeOk(root) && Present(root, paths) && Apart(paths) && ClearOf(s.entries, paths)
    requires Under(paths, a) && Under(paths, b)
    requires IsFile(AddPlaces(s, copying, root, paths).entries, a)
      && IsFile(AddPlaces(s, copying, root, paths).entries, b)
    ensures var m := AddPlaces(s, copying, root, paths).entries;
      m[a].number < m[b].number <==> WalkBefore(paths, a, b)
    decreases |paths|
  {
    hide Add, At, Numbered, Clear, Files, Before, PlaceOf;
    PlacesLeft(root, paths);
    NextPlace(s, copying, root, paths);
    var t := At(root, paths[0]).value;
    AddFiles(s, copying, paths[0], t);
    FirstOrRest(paths, a);
    FirstOrRest(paths, b);
    PlaceOfFirst(paths, a);
    PlaceOfFirst(paths, b);
    if paths[0] <= a { FirstRange(s, copying, root, paths, a); } else { RestRange(s, copying, root, paths, a); }
    if paths[0] <= b { FirstRange(s, copying, root, paths, b); } else { RestRange(s, copying, root, paths, b); }
    if paths[0] <= a && paths[0] <= b {
      if a == b { NotBeforeItself(a); } else { NumbersInOrder(paths[0], t, s.files, a, b); }
    } else if !(paths[0] <= a) && !(paths[0] <= b) {
      PlacesInOrder(Add(s, copying, paths[0], t), copying, root, paths[1..], a, b);
    }
  }

  lemma NotBeforeItself(a: Path)
    ensures !Before(a, a)
  {
    if Before(a, a) { BeforeAsymmetric(a, a); }
  }

  lemma FirstRange(s: Tally, copying: bool, root: Tree, paths: seq<Path>, q: Path)
    requires paths != [] && Present(root, paths) && Apart(paths) && ClearOf(s.entries, paths) && paths[0] <= q
    requires IsFile(AddPlaces(s, copying, root, paths).entries, q)
    ensures var m, t := AddPlaces(s, copying, root, paths).entries, At(root, paths[0]).value;
      && IsFile(Numbered(paths[0], t, s.files), q) && m[q] == Numbered(paths[0], t, s.files)[q]
      && m[q].number < s.files + Files(t)
  {
    hide At, Numbered, Clear, Files;
    FirstNumbers(s, copying, root, paths, q);
    NumbersInRange(paths[0], At(root, paths[0]).value, s.files, q);
  }

  lemma RestRange(s: Tally, copying: bool, root: Tree, paths: seq<Path>, q: Path)
    requires paths != [] && Present(root, paths) && Apart(paths) && ClearOf(s.entries, paths) && !(paths[0] <= q)
    requires Under(paths[1..], q) && IsFile(AddPlaces(s, copying, root, paths).entries, q)
    ensures AddPlaces(s, copying, root, paths).entries[q].number >= s.files + Files(At(root, paths[0]).value)
  {
    hide At, Numbered, Clear, Files, Add;
    NextPlace(s, copying, root, paths);
    AddFiles(s, copying, paths[0], At(root, paths[0]).value);
    PlacesFrom(Add(s, copying, paths[0], At(root, paths[0]).value), copying, root, paths[1..], q);
  }

  /** There is only one way to number the same files densely in the same order. */
  lemma OrderDetermines(a: Manifest, b: Manifest, n: nat, m: nat, paths: seq<Path>)
    requires WithoutObjects(a) == WithoutObjects(b) && Dense(a, n) && Dense(b, m)
    requires InWalkOrder(a, paths) && InWalkOrder(b, paths)
    ensures a == b
  {
    hide Dense, InWalkOrder, WithoutObjects;
    SameKeys(a, b);
    forall q | q in a ensures a[q] == b[q] {
      SamePlain(a, b, q);
      if IsFile(a, q) { SameNumber(a, b, n, m, paths, q); }
    }
  }

  lemma SamePlain(a: Manifest, b: Manifest, q: Path)
    requires WithoutObjects(a) == WithoutObjects(b) && q in a
    ensures q in b && PlainItem(a[q]) == PlainItem(b[q]) && (IsFile(a, q) <==> IsFile(b, q))
  {
    SameKeys(a, b);
    assert PlainItem(a[q]) == WithoutObjects(a)[q] == WithoutObjects(b)[q] == PlainItem(b[q]);
  }

  lemma {:induction false} SameNumber(a: Manifest, b: Manifest, n: nat, m: nat, paths: seq<Path>, q: Path)
    requires WithoutObjects(a) == WithoutObjects(b) && Dense(a, n) && Dense(b, m)
    requires InWalkOrder(a, paths) && InWalkOrder(b, paths) && IsFile(a, q)
    ensures IsFile(b, q) && a[q].number == b[q].number
    decreases a[q].number
  {
    hide WalkBefore, WithoutObjects;
    SamePlain(a, b, q);
    var k, l := a[q].number, b[q].number;
    if l < k {
      assert Numbers(a, l);
      var p :| IsFile(a, p) && a[p].number == l;
      SameNumber(a, b, n, m, paths, p);
    } else if k < l {
      assert Numbers(b, k);
      var p :| IsFile(b, p) && b[p].number == k;
      SameKeys(a, b);
      SamePlain(a, b, p);
      assert WalkBefore(paths, p, q);
      SameNumber(a, b, n, m, paths, p);
    }
  }

  /** Two trees with the same entries at and below a path have the same tree there. */
  lemma SameThere(root: Tree, out: Tree, p: Path)
    requires TreeOk(root) && TreeOk(out) && forall r: Path :: EntryThere(root, p + r) == EntryThere(out, p + r)
    requires At(root, p).Some?
    ensures At(out, p) == At(root, p)
  {
    assert p + [] == p;
    assert EntryThere(root, p + []) == EntryThere(out, p + []);
    var t, u := At(root, p).value, At(out, p).value;
    forall r: Path ensures EntryAt([], t, r) == EntryAt([], u, r) {
      AtSplit(root, p, r);
      AtSplit(out, p, r);
      assert r[0..] == r;
      assert EntryThere(root, p + r) == EntryThere(out, p + r);
    }
    SameWalks(t, u);
  }

  // ----------------------------------------------------------------------------------------
  // What is taken, entry by entry

  /** An entry that may be in an inventory: at most 32 names and 4096 characters, no name that could be
      mistaken for something else, owned by one of ours, neither set-user-id nor sticky nor writable
      for everybody; and a file is not set-group-id and not too big. */
  ghost predicate Allowed(q: Path, t: Tree, owners: set<int>, limits: Limits) {
    && 1 <= |q| <= 32 && |L.Join(q)| <= 4096
    && (forall i :: 0 <= i < |q| ==>
          && q[i] != "" && q[i] != "." && q[i] != ".."
          && forall c :: c in q[i] ==> c as int >= 32 && c as int != 127 && c != '/' && c != '\\')
    && t.meta.uid in owners
    && t.meta.mode & 0x800 == 0 && t.meta.mode & 0x200 == 0 && t.meta.mode & 0x2 == 0
    && (t.File? ==> t.meta.mode & 0x400 == 0 && |t.bytes| <= limits.fileBytes)
  }

  lemma ModeBits(mode: Mode)
    ensures mode & UNSAFE_MODE == 0 <==> mode & 0x800 == 0 && mode & 0x200 == 0 && mode & 0x2 == 0
  {
    var b: bv16 := mode;
    assert b & 0xA02 == 0 <==> b & 0x800 == 0 && b & 0x200 == 0 && b & 0x2 == 0;
  }

  lemma {:induction false} TextLengthMeans(p: Path)
    ensures TextLength(p) == |L.Join(p)|
  {
    if |p| > 1 {
      TextLengthMeans(p[1..]);
      assert L.Spell(p[1..]) == "/" + p[1] + L.Spell(p[1..][1..]);
    }
  }

  lemma NameMeans(s: string)
    ensures NameOk(s) <==>
      && s != "" && s != "." && s != ".."
      && forall c :: c in s ==> c as int >= 32 && c as int != 127 && c != '/' && c != '\\'
  {
    forall i | 0 <= i < |s| ensures s[i] in s {}
  }

  lemma SoundMeans(q: Path, i: Item, t: Tree, owners: set<int>, limits: Limits)
    requires PlainItem(i) == EntryOf(t)
    ensures EntrySound(q, i, owners, limits) <==> Allowed(q, t, owners, limits)
  {
    hide NameOk, L.Join, TextLength;
    TextLengthMeans(q);
    ModeBits(t.meta.mode);
    forall k | 0 <= k < |q|
      ensures NameOk(q[k]) <==>
        && q[k] != "" && q[k] != "." && q[k] != ".."
        && forall c :: c in q[k] ==> c as int >= 32 && c as int != 127 && c != '/' && c != '\\'
    {
      NameMeans(q[k]);
    }
  }

  /** Places are taken exactly if everything at and below them is allowed, and not too much. */
  lemma PlacesAllowed(root: Tree, paths: seq<Path>, owners: set<int>, limits: Limits)
    requires TreeOk(root) && Present(root, paths) && Apart(paths)
    ensures var taken := AddPlaces(NOTHING, true, root, paths);
      FitPlaces(root, paths, owners, limits, 0, 0) <==>
        && |taken.entries| <= limits.entries && taken.total <= limits.totalBytes
        && forall q: Path :: Under(paths, q) && At(root, q).Some? ==> Allowed(q, At(root, q).value, owners, limits)
  {
    hide FitPlaces, AddPlaces, SizeAll, VolumeAll, SoundAll, Allowed, EntrySound, At, Under, Apart, Present;
    var taken := AddPlaces(NOTHING, true, root, paths);
    NothingYet(paths);
    PlacesCount(NOTHING, true, root, paths, owners, limits);
    FitPlacesMeans(root, paths, owners, limits, 0, 0);
    forall q: Path
      ensures q in taken.entries <==> Under(paths, q) && At(root, q).Some?
      ensures q in taken.entries ==>
        (EntrySound(q, taken.entries[q], owners, limits) <==> Allowed(q, At(root, q).value, owners, limits))
    {
      PlacesWalk(NOTHING, true, root, paths, q);
      assert q in taken.entries <==> q in WithoutObjects(taken.entries);
      if q in taken.entries { SoundMeans(q, taken.entries[q], At(root, q).value, owners, limits); }
    }
  }
}
