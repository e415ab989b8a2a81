/** Taking the inventory of a directory tree: the recursive walk that fills a flat manifest,
    numbers the files in the order it meets them, copies their bytes, and stops at its limits. */
module Inventory {
  import opened Protocol
  import opened Trees

  /** A manifest entry; `number` names the copy of the file's bytes. Its eight-digit spelling is
      one-to-one for the numbers that can occur. */
  datatype Item = FileItem(meta: Meta, sha: Hash, size: nat, number: nat) | DirItem(meta: Meta)

  type Manifest = map<Path, Item>

  datatype Limits = Limits(entries: nat, totalBytes: nat, fileBytes: nat)

  // ----------------------------------------------------------------------------------------
  // What a walk should produce

  function Files(t: Tree): nat {
    if t.File? then 1 else FilesIn(t.kids)
  }

  function FilesIn(f: Forest): nat {
    match f
    case Nil => 0
    case Cons(_, t, rest) => Files(t) + FilesIn(rest)
  }

  function Volume(t: Tree): nat {
    if t.File? then |t.bytes| else VolumeIn(t.kids)
  }

  function VolumeIn(f: Forest): nat {
    match f
    case Nil => 0
    case Cons(_, t, rest) => Volume(t) + VolumeIn(rest)
  }

  /** The manifest of a tree at a path, its files numbered from `n` in the order of the walk. */
  function Numbered(p: Path, t: Tree, n: nat): Manifest
    decreases t
  {
    match t
    case File(meta, bytes) => map[p := FileItem(meta, Sha256(bytes), |bytes|, n)]
    case Dir(meta, kids) => map[p := DirItem(meta)] + NumberedForest(p, kids, n)
  }

  function NumberedForest(p: Path, f: Forest, n: nat): Manifest
    decreases f
  {
    match f
    case Nil => map[]
    case Cons(name, t, rest) => Numbered(p + [name], t, n) + NumberedForest(p, rest, n + Files(t))
  }

  /** The copies the walk makes, by number. */
  function Blobs(t: Tree, n: nat): map<nat, Bytes>
    decreases t
  {
    match t
    case File(_, bytes) => map[n := bytes]
    case Dir(_, kids) => BlobsIn(kids, n)
  }

  function BlobsIn(f: Forest, n: nat): map<nat, Bytes>
    decreases f
  {
    match f
    case Nil => map[]
    case Cons(_, t, rest) => Blobs(t, n) + BlobsIn(rest, n + Files(t))
  }

  // ----------------------------------------------------------------------------------------
  // What the walk accepts

  predicate NameOk(s: string) {
    && s !in {"", ".", ".."}
    && forall i :: 0 <= i < |s| ==> s[i] >= ' ' && s[i] != '\U{7F}' && s[i] != '\\' && s[i] != '/'
  }

  /** The length of a path's text, with a separator between two components. */
  function TextLength(p: Path): nat {
    if p == [] then 0 else |p[0]| + (if |p| > 1 then 1 + TextLength(p[1..]) else 0)
  }

  predicate PathOk(p: Path) {
    1 <= |p| <= 32 && TextLength(p) <= 4096 && forall i :: 0 <= i < |p| ==> NameOk(p[i])
  }

  const UNSAFE_MODE: bv16 := 0xA02 // set-user-id, sticky, world-writable
  const SETGID: bv16 := 0x400

  /** The owner is one of ours and the mode has no dangerous bits. */
  predicate MetaOk(meta: Meta, isFile: bool, owners: set<int>) {
    meta.uid in owners && meta.mode & UNSAFE_MODE == 0 && (isFile ==> meta.mode & SETGID == 0)
  }

  predicate Sound(p: Path, t: Tree, owners: set<int>, limits: Limits)
    decreases t
  {
    && PathOk(p) && MetaOk(t.meta, t.File?, owners)
    && if t.File? then |t.bytes| <= limits.fileBytes else SoundIn(p, t.kids, owners, limits)
  }

  predicate SoundIn(p: Path, f: Forest, owners: set<int>, limits: Limits)
    decreases f
  {
    match f
    case Nil => true
    case Cons(name, t, rest) => Sound(p + [name], t, owners, limits) && SoundIn(p, rest, owners, limits)
  }

  /** With so many entries and bytes already recorded, the whole tree still fits. */
  predicate Fits(p: Path, t: Tree, owners: set<int>, limits: Limits, entries: nat, total: nat) {
    entries + Size(t) <= limits.entries && total + Volume(t) <= limits.totalBytes && Sound(p, t, owners, limits)
  }

  predicate FitsIn(p: Path, f: Forest, owners: set<int>, limits: Limits, entries: nat, total: nat) {
    entries + ForestSize(f) <= limits.entries && total + VolumeIn(f) <= limits.totalBytes
      && SoundIn(p, f, owners, limits)
  }

  function Width(f: Forest): nat
    ensures Width(f) <= ForestSize(f)
  {
    match f
    case Nil => 0
    case Cons(_, t, rest) => 1 + Width(rest)
  }

  const BLOCK := 65536

  /** Read a file to its end in blocks of any size the system gives, hash it, and copy it. At most
      one byte more than the limit is ever read, and never more than the limit is copied. */
  method HashFile(content: Bytes, limit: nat, given: nat -> nat) returns (ok: bool, sha: Hash, size: nat, sink: Bytes)
    ensures ok <==> |content| <= limit
    ensures ok ==> sha == Sha256(content) && size == |content| && sink == content
    ensures |sink| <= limit && sink <= content && size <= limit + 1
  {
    sink, size, sha := [], 0, Sha256([]);
    var calls := 0;
    while true
      invariant size == |sink| <= limit && sink <= content && sha == Sha256(sink)
      decreases |content| - size
    {
      var wanted := if limit + 1 - size < BLOCK then limit + 1 - size else BLOCK;
      var left := |content| - size;
      var most := if left < wanted then left else wanted;
      if most == 0 {
        assert sink == content;
        return true, sha, size, sink;
      }
      var count := if 0 < given(calls) <= most then given(calls) else most;
      calls := calls + 1;
      size := size + count;
      if size > limit {
        return false, sha, size, sink;
      }
      sink := sink + content[size - count..size];
      sha := Sha256(sink);
    }
  }

  // ----------------------------------------------------------------------------------------
  // The walk

  /** Nothing at or below a path has been recorded. */
  ghost predicate Clear(entries: Manifest, p: Path) {
    forall q :: q in entries ==> !(p <= q)
  }

  /** Below a directory, only entries under other names than those still to be visited. */
  ghost predicate ClearFor(entries: Manifest, p: Path, names: set<string>) {
    forall q :: q in entries && p <= q && |p| < |q| ==> q[|p|] !in names
  }

  /** What a walk has accumulated. */
  datatype Tally = Tally(entries: Manifest, total: nat, files: nat, objects: map<nat, Bytes>)

  const NOTHING := Tally(map[], 0, 0, map[])

  function Add(s: Tally, copying: bool, p: Path, t: Tree): Tally {
    Tally(s.entries + Numbered(p, t, s.files), s.total + Volume(t), s.files + Files(t),
          if copying then s.objects + Blobs(t, s.files) else s.objects)
  }

  function AddAll(s: Tally, copying: bool, p: Path, f: Forest): Tally {
    Tally(s.entries + NumberedForest(p, f, s.files), s.total + VolumeIn(f), s.files + FilesIn(f),
          if copying then s.objects + BlobsIn(f, s.files) else s.objects)
  }

  class Walk {
    const owners: set<int>
    const limits: Limits
    const copying: bool
    var entries: Manifest
    var total: nat
    var files: nat
    var objects: map<nat, Bytes>

    function View(): Tally
      reads this
    {
      Tally(entries, total, files, objects)
    }

    constructor (owners: set<int>, limits: Limits, copying: bool)
      ensures this.owners == owners && this.limits == limits && this.copying == copying
      ensures View() == NOTHING
    {
      this.owners, this.limits, this.copying := owners, limits, copying;
      entries, total, files, objects := map[], 0, 0, map[];
    }

    /** One entry and everything below it. It succeeds exactly when the whole of it fits, whatever
        the order in which the limits are noticed. */
    method Visit(p: Path, t: Tree) returns (ok: bool)
      requires TreeOk(t) && Clear(entries, p) && total <= limits.totalBytes
      modifies this
      ensures ok <==> Fits(p, t, owners, limits, |old(entries)|, old(total))
      ensures ok ==> View() == Add(old(View()), copying, p, t)
      ensures ok ==> total <= limits.totalBytes && |entries| == |old(entries)| + Size(t)
      decreases t
    {
      hide PathOk, MetaOk, Clear, SoundIn, Add, AddAll;
      NotYet(entries, p);
      if !PathOk(p) || |entries| >= limits.entries || !MetaOk(t.meta, t.File?, owners) {
        return false;
      }
      match t
      case File(meta, bytes) =>
        if |bytes| > limits.fileBytes || total + |bytes| > limits.totalBytes {
          return false;
        }
        AddFile(View(), copying, p, meta, bytes);
        if copying {
          objects := objects[files := bytes];
        }
        entries := entries[p := FileItem(meta, Sha256(bytes), |bytes|, files)];
        files := files + 1;
        total := total + |bytes|;
        return true;
      case Dir(meta, kids) =>
        AddDir(View(), copying, p, meta, kids);
        ClearBelow(entries, p, meta, kids);
        entries := entries[p := DirItem(meta)];
        ok := VisitAll(p, kids);
    }

    /** The entries of a directory, which are counted before the first of them is opened. */
    method VisitAll(p: Path, kids: Forest) returns (ok: bool)
      requires ForestOk(kids) && ClearFor(entries, p, Names(kids)) && total <= limits.totalBytes
      modifies this
      ensures ok <==> FitsIn(p, kids, owners, limits, |old(entries)|, old(total))
      ensures ok ==> View() == AddAll(old(View()), copying, p, kids)
      ensures ok ==> total <= limits.totalBytes && |entries| == |old(entries)| + ForestSize(kids)
      decreases kids, 1
    {
      hide Fits, FitsIn, ClearFor, Add, AddAll, Size, Volume, Less, Names, TreeOk;
      FitsWidth(p, kids, owners, limits, |entries|, total);
      if Width(kids) + |entries| > limits.entries {
        return false;
      }
      ghost var start := View();
      var rest := kids;
      while rest.Cons?
        invariant ForestOk(rest) && ClearFor(entries, p, Names(rest)) && total <= limits.totalBytes
        invariant |entries| <= limits.entries
        invariant rest == kids || rest < kids
        invariant OnTheWay(start, View(), p, kids, rest)
        decreases rest
      {
        FitsKid(p, rest, owners, limits, |entries|, total);
        ok := VisitNext(p, rest);
        if !ok {
          return false;
        }
        rest := rest.rest;
      }
      AddNone(View(), copying, p);
      FitsNone(p, owners, limits, |entries|, total);
      return true;
    }

    /** What the loop keeps: the rest fits exactly if everything does, and adding the rest gives
        what adding everything gives. */
    ghost predicate OnTheWay(start: Tally, s: Tally, p: Path, kids: Forest, rest: Forest) {
      && (FitsIn(p, kids, owners, limits, |start.entries|, start.total) <==>
           FitsIn(p, rest, owners, limits, |s.entries|, s.total))
      && |s.entries| + ForestSize(rest) == |start.entries| + ForestSize(kids)
      && AddAll(s, copying, p, rest) == AddAll(start, copying, p, kids)
    }

    /** The inventory of the given places of an installation, all or nothing. */
    method Take(root: Tree, paths: seq<Path>) returns (ok: bool)
      requires TreeOk(root) && Apart(paths) && View() == NOTHING
      modifies this
      ensures ok <==> Present(root, paths) && FitPlaces(root, paths, owners, limits, 0, 0)
      ensures ok ==> View() == AddPlaces(NOTHING, copying, root, paths)
    {
      hide Fits, Add, Clear, ClearOf, Sound, At, Apart, FitPlaces, AddPlaces, Numbered, Size, Volume;
      assert ClearOf(map[], paths) by { NothingYet(paths); }
      ghost var todo := paths;
      assert paths[0..] == paths;
      for j := 0 to |paths|
        invariant todo == paths[j..] && Apart(todo) && ClearOf(entries, todo)
        invariant total <= limits.totalBytes && |entries| <= limits.entries
        invariant forall i :: 0 <= i < j ==> At(root, paths[i]).Some?
        invariant TakenOver(root, paths, todo, View())
      {
        var found := At(root, paths[j]);
        PlacesLeft(root, todo);
        if found.None? {
          return false;
        }
        ghost var before := View();
        PlaceCleared(before, copying, todo, found.value);
        ClearFirst(entries, todo);
        ok := Visit(paths[j], found.value);
        if !ok {
          if Present(root, paths) { PlaceRefused(root, paths, todo, before, found.value); }
          return false;
        }
        if Present(root, paths) { PlaceTaken(root, paths, todo, before, found.value); }
        FitsBound(paths[j], found.value, owners, limits, |before.entries|, before.total);
        todo := todo[1..];
      }
      PlacesDone(root, View());
      return true;
    }

    /** What the loop keeps: the places left decide, and complete, what all of them would. */
    ghost predicate TakenOver(root: Tree, paths: seq<Path>, todo: seq<Path>, s: Tally) {
      Present(root, paths) ==>
        && Present(root, todo)
        && (FitPlaces(root, paths, owners, limits, 0, 0) <==>
             FitPlaces(root, todo, owners, limits, |s.entries|, s.total))
        && AddPlaces(s, copying, root, todo) == AddPlaces(NOTHING, copying, root, paths)
    }

    lemma PlaceTaken(root: Tree, paths: seq<Path>, todo: seq<Path>, s: Tally, t: Tree)
      requires todo != [] && At(root, todo[0]) == Some(t) && TakenOver(root, paths, todo, s) && Present(root, paths)
      requires Fits(todo[0], t, owners, limits, |s.entries|, s.total)
      requires |Add(s, copying, todo[0], t).entries| == |s.entries| + Size(t)
      ensures TakenOver(root, paths, todo[1..], Add(s, copying, todo[0], t))
    {
      hide Fits, Size, Volume, At, Add, FitPlaces, AddPlaces, Present;
      AddTotal(s, copying, todo[0], t);
      PlacesLeft(root, todo);
      FirstPlace(root, todo, owners, limits, s, copying);
    }

    lemma PlaceRefused(root: Tree, paths: seq<Path>, todo: seq<Path>, s: Tally, t: Tree)
      requires todo != [] && At(root, todo[0]) == Some(t) && TakenOver(root, paths, todo, s) && Present(root, paths)
      requires !Fits(todo[0], t, owners, limits, |s.entries|, s.total)
      ensures !FitPlaces(root, paths, owners, limits, 0, 0)
    {
      hide Fits, Size, Volume, At, Add, FitPlaces, AddPlaces, Present;
      PlacesLeft(root, todo);
      FirstPlace(root, todo, owners, limits, s, copying);
    }

    lemma PlacesDone(root: Tree, s: Tally)
      ensures AddPlaces(s, copying, root, []) == s
      ensures FitPlaces(root, [], owners, limits, |s.entries|, s.total) <==>
        |s.entries| <= limits.entries && s.total <= limits.totalBytes
    {
    }

    method VisitNext(p: Path, rest: Forest) returns (ok: bool)
      requires rest.Cons? && ForestOk(rest) && ClearFor(entries, p, Names(rest)) && total <= limits.totalBytes
      modifies this
      ensures ok <==> Fits(p + [rest.name], rest.tree, owners, limits, |old(entries)|, old(total))
      ensures ok ==> AddAll(View(), copying, p, rest.rest) == AddAll(old(View()), copying, p, rest)
      ensures ok ==> ClearFor(entries, p, Names(rest.rest)) && total <= limits.totalBytes
      ensures ok ==> |entries| == |old(entries)| + Size(rest.tree) && total == old(total) + Volume(rest.tree)
      decreases rest, 0
    {
      hide Fits, Clear, ClearFor, Add, AddAll, Less;
      ghost var before := View();
      ClearKid(entries, p, rest);
      ClearAfter(entries, p, rest, files);
      AddKid(before, copying, p, rest);
      AddParts(before, copying, p + [rest.name], rest.tree);
      ok := Visit(p + [rest.name], rest.tree);
    }
  }

  // ----------------------------------------------------------------------------------------
  // Several places of one tree, one after the other

  /** No place is at or below another one. */
  predicate Apart(paths: seq<Path>) {
    forall i, k :: 0 <= i < k < |paths| ==> !(paths[i] <= paths[k]) && !(paths[k] <= paths[i])
  }

  predicate Present(root: Tree, paths: seq<Path>) {
    forall i :: 0 <= i < |paths| ==> At(root, paths[i]).Some?
  }

  function AddPlaces(s: Tally, copying: bool, root: Tree, paths: seq<Path>): Tally
    requires Present(root, paths)
    decreases |paths|
  {
    if paths == [] then s else AddPlaces(Add(s, copying, paths[0], At(root, paths[0]).value), copying, root, paths[1..])
  }

  predicate FitPlaces(root: Tree, paths: seq<Path>, owners: set<int>, limits: Limits, entries: nat, total: nat)
    requires Present(root, paths)
    decreases |paths|
  {
    if paths == [] then entries <= limits.entries && total <= limits.totalBytes
    else
      var t := At(root, paths[0]).value;
      && Fits(paths[0], t, owners, limits, entries, total)
      && FitPlaces(root, paths[1..], owners, limits, entries + Size(t), total + Volume(t))
  }

  ghost predicate ClearOf(entries: Manifest, paths: seq<Path>) {
    forall i :: 0 <= i < |paths| ==> Clear(entries, paths[i])
  }

  lemma ClearRest(entries: Manifest, paths: seq<Path>, t: Tree, n: nat)
    requires paths != [] && Apart(paths) && ClearOf(entries, paths)
    ensures Apart(paths[1..]) && ClearOf(entries + Numbered(paths[0], t, n), paths[1..])
  {
    var rest := paths[1..];
    forall i | 0 <= i < |rest| ensures Clear(entries + Numbered(paths[0], t, n), rest[i]) {
      assert rest[i] == paths[i + 1];
      assert Clear(entries, paths[i + 1]);
      forall q | q in Numbered(paths[0], t, n) ensures !(rest[i] <= q) {
        NumberedBelow(paths[0], t, n, q);
        Comparable(paths[0], rest[i], q);
      }
    }
  }

  lemma PlaceCleared(s: Tally, copying: bool, paths: seq<Path>, t: Tree)
    requires paths != [] && Apart(paths) && ClearOf(s.entries, paths)
    ensures Apart(paths[1..]) && ClearOf(Add(s, copying, paths[0], t).entries, paths[1..])
    ensures Add(s, copying, paths[0], t).total == s.total + Volume(t)
  {
    AddParts(s, copying, paths[0], t);
    ClearRest(s.entries, paths, t, s.files);
  }

  lemma AddTotal(s: Tally, copying: bool, p: Path, t: Tree)
    ensures Add(s, copying, p, t).total == s.total + Volume(t)
  {
  }

  lemma FirstPlace(root: Tree, paths: seq<Path>, owners: set<int>, limits: Limits, s: Tally, copying: bool)
    requires paths != [] && Present(root, paths) && Present(root, paths[1..])
    ensures var t := At(root, paths[0]).value;
      && (FitPlaces(root, paths, owners, limits, |s.entries|, s.total) <==>
            && Fits(paths[0], t, owners, limits, |s.entries|, s.total)
            && FitPlaces(root, paths[1..], owners, limits, |s.entries| + Size(t), s.total + Volume(t)))
      && AddPlaces(s, copying, root, paths) == AddPlaces(Add(s, copying, paths[0], t), copying, root, paths[1..])
  {
    hide Fits, Size, Volume, At, Add, Present;
  }

  lemma NothingYet(paths: seq<Path>)
    ensures ClearOf(map[], paths)
  {
  }

  lemma ClearFirst(entries: Manifest, paths: seq<Path>)
    requires paths != [] && ClearOf(entries, paths)
    ensures Clear(entries, paths[0])
  {
  }

  lemma PlacesLeft(root: Tree, paths: seq<Path>)
    requires paths != []
    ensures Present(root, paths) ==> At(root, paths[0]).Some? && Present(root, paths[1..])
  {
  }

  lemma Comparable(a: Path, b: Path, q: Path)
    ensures a <= q && b <= q ==> a <= b || b <= a
  {
  }

  lemma AddFile(s: Tally, copying: bool, p: Path, meta: Meta, bytes: Bytes)
    ensures Add(s, copying, p, File(meta, bytes)) ==
      Tally(s.entries[p := FileItem(meta, Sha256(bytes), |bytes|, s.files)], s.total + |bytes|, s.files + 1,
            if copying then s.objects[s.files := bytes] else s.objects)
  {
  }

  lemma AddDir(s: Tally, copying: bool, p: Path, meta: Meta, kids: Forest)
    ensures Add(s, copying, p, Dir(meta, kids))
      == AddAll(s.(entries := s.entries[p := DirItem(meta)]), copying, p, kids)
  {
    hide NumberedForest, BlobsIn, FilesIn, VolumeIn;
    MergeTwice(s.entries, map[p := DirItem(meta)], NumberedForest(p, kids, s.files));
    assert s.entries + map[p := DirItem(meta)] == s.entries[p := DirItem(meta)];
  }

  lemma AddKid(s: Tally, copying: bool, p: Path, f: Forest)
    requires f.Cons?
    ensures AddAll(s, copying, p, f) == AddAll(Add(s, copying, p + [f.name], f.tree), copying, p, f.rest)
  {
    var n := s.files + Files(f.tree);
    MergeTwice(s.entries, Numbered(p + [f.name], f.tree, s.files), NumberedForest(p, f.rest, n));
    MergeTwice(s.objects, Blobs(f.tree, s.files), BlobsIn(f.rest, n));
  }

  lemma AddParts(s: Tally, copying: bool, p: Path, t: Tree)
    ensures Add(s, copying, p, t).entries == s.entries + Numbered(p, t, s.files)
    ensures Add(s, copying, p, t).total == s.total + Volume(t)
  {
  }

  lemma FitsKid(p: Path, f: Forest, owners: set<int>, limits: Limits, entries: nat, total: nat)
    requires f.Cons?
    ensures FitsIn(p, f, owners, limits, entries, total) <==>
      && Fits(p + [f.name], f.tree, owners, limits, entries, total)
      && FitsIn(p, f.rest, owners, limits, entries + Size(f.tree), total + Volume(f.tree))
    ensures Fits(p + [f.name], f.tree, owners, limits, entries, total) ==> entries + Size(f.tree) <= limits.entries
  {
    hide Sound, Size, Volume;
  }

  lemma FitsBound(p: Path, t: Tree, owners: set<int>, limits: Limits, entries: nat, total: nat)
    ensures Fits(p, t, owners, limits, entries, total) ==> entries + Size(t) <= limits.entries
  {
  }

  lemma FitsNone(p: Path, owners: set<int>, limits: Limits, entries: nat, total: nat)
    ensures FitsIn(p, Nil, owners, limits, entries, total) <==> entries <= limits.entries && total <= limits.totalBytes
  {
  }

  lemma FitsWidth(p: Path, f: Forest, owners: set<int>, limits: Limits, entries: nat, total: nat)
    ensures FitsIn(p, f, owners, limits, entries, total) ==> entries + Width(f) <= limits.entries
  {
  }

  lemma AddNone(s: Tally, copying: bool, p: Path)
    ensures AddAll(s, copying, p, Nil) == s
  {
    assert s.entries + map[] == s.entries && s.objects + map[] == s.objects;
  }

  lemma MergeTwice<K, V>(a: map<K, V>, b: map<K, V>, c: map<K, V>)
    ensures a + (b + c) == (a + b) + c
  {
  }

  lemma ClearKid(entries: Manifest, p: Path, f: Forest)
    requires f.Cons? && ClearFor(entries, p, Names(f))
    ensures Clear(entries, p + [f.name])
  {
    forall q | q in entries ensures !(p + [f.name] <= q) {
      PrefixStep(p, f.name, q);
    }
  }

  lemma PrefixStep(p: Path, n: string, q: Path)
    ensures p + [n] <= q <==> p <= q && |p| < |q| && q[|p|] == n
  {
    if p <= q && |p| < |q| && q[|p|] == n {
      assert q[..|p| + 1] == p + [n];
    }
    assert p <= p + [n] && (p + [n])[|p|] == n;
  }

  lemma NotYet(entries: Manifest, p: Path)
    requires Clear(entries, p)
    ensures p !in entries
  {
  }

  lemma ClearBelow(entries: Manifest, p: Path, meta: Meta, kids: Forest)
    requires Clear(entries, p)
    ensures ClearFor(entries[p := DirItem(meta)], p, Names(kids))
  {
  }

  lemma ClearAfter(entries: Manifest, p: Path, f: Forest, n: nat)
    requires f.Cons? && ForestOk(f) && ClearFor(entries, p, Names(f))
    ensures ClearFor(entries + Numbered(p + [f.name], f.tree, n), p, Names(f.rest))
  {
    if f.name in Names(f.rest) { LessAsymmetric(f.name, f.name); }
    forall q | q in Numbered(p + [f.name], f.tree, n) ensures p + [f.name] <= q && q[|p|] == f.name {
      NumberedBelow(p + [f.name], f.tree, n, q);
    }
  }

  lemma {:induction false} NumberedBelow(p: Path, t: Tree, n: nat, q: Path)
    requires q in Numbered(p, t, n)
    ensures p <= q
    decreases t
  {
    if t.Dir? && q != p { NumberedForestBelow(p, t.kids, n, q); }
  }

  lemma {:induction false} NumberedForestBelow(p: Path, f: Forest, n: nat, q: Path)
    requires q in NumberedForest(p, f, n)
    ensures p <= q && |p| < |q| && q[|p|] in Names(f)
    decreases f
  {
    match f
    case Cons(name, t, rest) =>
      if q in Numbered(p + [name], t, n) {
        NumberedBelow(p + [name], t, n, q);
      } else {
        NumberedForestBelow(p, rest, n + Files(t), q);
      }
  }

  // ----------------------------------------------------------------------------------------
  // Numbers and contents

  function PlainItem(i: Item): Entry {
    match i
    case FileItem(meta, sha, size, _) => FileEntry(meta, sha, size)
    case DirItem(meta) => DirEntry(meta)
  }

  /** A manifest without its object numbers. */
  function WithoutObjects(m: Manifest): Listing {
    map p | p in m :: PlainItem(m[p])
  }

  /** Apart from the numbers, the walk is the flat listing of the tree. */
  lemma {:induction false} NumberedIsListed(p: Path, t: Tree, n: nat)
    requires TreeOk(t)
    ensures WithoutObjects(Numbered(p, t, n)) == List(p, t)
    decreases t
  {
    if t.Dir? {
      NumberedForestIsListed(p, t.kids, n);
      if p in NumberedForest(p, t.kids, n) { NumberedForestBelow(p, t.kids, n, p); }
      DirectoryFirst(p, t.meta, NumberedForest(p, t.kids, n));
    }
  }

  lemma DirectoryFirst(p: Path, meta: Meta, m: Manifest)
    requires p !in m
    ensures WithoutObjects(map[p := DirItem(meta)] + m) == WithoutObjects(m)[p := DirEntry(meta)]
  {
  }

  lemma {:induction false} NumberedForestIsListed(p: Path, f: Forest, n: nat)
    requires ForestOk(f)
    ensures WithoutObjects(NumberedForest(p, f, n)) == ListForest(p, f)
    decreases f
  {
    hide WithoutObjects, Numbered, List, Files, Names;
    match f
    case Nil => NothingListed();
    case Cons(name, t, rest) =>
      NumberedIsListed(p + [name], t, n);
      NumberedForestIsListed(p, rest, n + Files(t));
      var here, there := Numbered(p + [name], t, n), NumberedForest(p, rest, n + Files(t));
      forall q | q in here ensures q !in there { NumberedApart(p, f, n, q); }
      ListedTogether(here, there);
  }

  lemma NothingListed()
    ensures WithoutObjects(map[]) == map[]
  {
  }

  lemma ListedTogether(a: Manifest, b: Manifest)
    requires forall q :: q in a ==> q !in b
    ensures WithoutObjects(a + b) == WithoutObjects(b) + WithoutObjects(a)
  {
  }

  /** Entries under different names of a directory are different entries. */
  lemma NumberedApart(p: Path, f: Forest, n: nat, q: Path)
    requires f.Cons? && ForestOk(f) && q in Numbered(p + [f.name], f.tree, n)
    ensures q !in NumberedForest(p, f.rest, n + Files(f.tree))
  {
    if f.name in Names(f.rest) { LessAsymmetric(f.name, f.name); }
    NumberedBelow(p + [f.name], f.tree, n, q);
    PrefixStep(p, f.name, q);
    if q in NumberedForest(p, f.rest, n + Files(f.tree)) {
      NumberedForestBelow(p, f.rest, n + Files(f.tree), q);
    }
  }

  /** Component by component, in the order of names. */
  predicate Before(a: Path, b: Path) {
    && a != [] && b != []
    && (Less(a[0], b[0]) || (a[0] == b[0] && Before(a[1..], b[1..])))
  }

  lemma {:induction false} BeforeBelow(p: Path, a: Path, b: Path)
    requires p <= a && p <= b && |p| < |a| && |p| < |b|
    ensures Less(a[|p|], b[|p|]) ==> Before(a, b)
    decreases |p|
  {
    if p != [] {
      assert a[0] == p[0] == b[0];
      BeforeBelow(p[1..], a[1..], b[1..]);
    }
  }

  lemma {:induction false} BeforeAsymmetric(a: Path, b: Path)
    requires Before(a, b)
    ensures !Before(b, a)
  {
    LessAsymmetric(a[0], b[0]);
    if a[0] == b[0] { BeforeAsymmetric(a[1..], b[1..]); }
  }

  ghost predicate IsFile(m: Manifest, q: Path) {
    q in m && m[q].FileItem?
  }

  lemma {:induction false} NumbersInRange(p: Path, t: Tree, n: nat, q: Path)
    requires IsFile(Numbered(p, t, n), q)
    ensures n <= Numbered(p, t, n)[q].number < n + Files(t)
    decreases t
  {
    if t.Dir? {
      assert q in NumberedForest(p, t.kids, n);
      NumbersInRangeForest(p, t.kids, n, q);
    }
  }

  lemma {:induction false} NumbersInRangeForest(p: Path, f: Forest, n: nat, q: Path)
    requires IsFile(NumberedForest(p, f, n), q)
    ensures n <= NumberedForest(p, f, n)[q].number < n + FilesIn(f)
    decreases f
  {
    match f
    case Cons(name, t, rest) =>
      if q in NumberedForest(p, rest, n + Files(t)) {
        NumbersInRangeForest(p, rest, n + Files(t), q);
      } else {
        NumbersInRange(p + [name], t, n, q);
      }
  }

  /** The numbers follow the order of the paths. */
  lemma {:induction false} NumbersInOrder(p: Path, t: Tree, n: nat, a: Path, b: Path)
    requires TreeOk(t) && a != b && IsFile(Numbered(p, t, n), a) && IsFile(Numbered(p, t, n), b)
    ensures Numbered(p, t, n)[a].number < Numbered(p, t, n)[b].number <==> Before(a, b)
    ensures Numbered(p, t, n)[a].number != Numbered(p, t, n)[b].number
    decreases t
  {
    NumberedBelow(p, t, n, a);
    NumberedBelow(p, t, n, b);
    if t.Dir? {
      NumbersInOrderForest(p, t.kids, n, a, b);
    }
  }

  lemma {:induction false} NumbersInOrderForest(p: Path, f: Forest, n: nat, a: Path, b: Path)
    requires ForestOk(f) && a != b && IsFile(NumberedForest(p, f, n), a) && IsFile(NumberedForest(p, f, n), b)
    ensures NumberedForest(p, f, n)[a].number < NumberedForest(p, f, n)[b].number <==> Before(a, b)
    ensures NumberedForest(p, f, n)[a].number != NumberedForest(p, f, n)[b].number
    decreases f
  {
    var Cons(name, t, rest) := f;
    var here, there := Numbered(p + [name], t, n), NumberedForest(p, rest, n + Files(t));
    if a in here && b in here {
      NumberedApart(p, f, n, a);
      NumberedApart(p, f, n, b);
      NumbersInOrder(p + [name], t, n, a, b);
    } else if a in there && b in there {
      NumbersInOrderForest(p, rest, n + Files(t), a, b);
    } else if a in here {
      FirstComesBefore(p, f, n, a, b);
    } else {
      FirstComesBefore(p, f, n, b, a);
    }
  }

  lemma FirstComesBefore(p: Path, f: Forest, n: nat, a: Path, b: Path)
    requires f.Cons? && ForestOk(f) && IsFile(NumberedForest(p, f, n), a) && IsFile(NumberedForest(p, f, n), b)
    requires a in Numbered(p + [f.name], f.tree, n) && b in NumberedForest(p, f.rest, n + Files(f.tree))
    ensures NumberedForest(p, f, n)[a].number < NumberedForest(p, f, n)[b].number
    ensures Before(a, b) && !Before(b, a)
  {
    NumberedApart(p, f, n, a);
    NumbersInRange(p + [f.name], f.tree, n, a);
    NumbersInRangeForest(p, f.rest, n + Files(f.tree), b);
    NumberedBelow(p + [f.name], f.tree, n, a);
    PrefixStep(p, f.name, a);
    NumberedForestBelow(p, f.rest, n + Files(f.tree), b);
    BeforeBelow(p, a, b);
    BeforeAsymmetric(a, b);
  }
}
