/** Directory trees as the updater sees them: regular files and directories with the metadata
    that is preserved, and the flat listing in which plans and manifests record them. */
module Trees {
  import opened Protocol

  type Bytes = seq<bv8>

  /** Path components below some root. */
  type Path = seq<string>

  /** A collision-free hash: it stands for the bytes it was computed from. */
  datatype Hash = Sha256(preimage: Bytes)

  /** Permission bits, as far as they are looked at. */
  type Mode = m: bv16 | m <= 0xFFF witness 0

  /** The bit that lets the owner execute a file, by its value. */
  lemma OwnerExecutes(mode: Mode)
    ensures mode & 0x40 != 0 <==> mode as int / 64 % 2 == 1
  {
    var b: bv16 := mode;
    assert b & 0x40 == ((b >> 6) % 2) << 6;
    assert (b >> 6) as int == b as int / 64;
    assert ((b >> 6) % 2) as int == (b >> 6) as int % 2;
  }

  datatype Meta = Meta(uid: int, gid: int, mode: Mode, mtime: int)

  datatype Tree = File(meta: Meta, bytes: Bytes) | Dir(meta: Meta, kids: Forest)

  /** The entries of a directory, in the order of their names. */
  datatype Forest = Nil | Cons(name: string, tree: Tree, rest: Forest)

  /** What a listing says about one path. */
  datatype Entry = FileEntry(meta: Meta, sha: Hash, size: nat) | DirEntry(meta: Meta)

  type Listing = map<Path, Entry>

  // ----------------------------------------------------------------------------------------
  // Order and well-formedness

  predicate Less(a: string, b: string) {
    b != [] && (a == [] || a[0] < b[0] || (a[0] == b[0] && Less(a[1..], b[1..])))
  }

  lemma LessAsymmetric(a: string, b: string)
    ensures !(Less(a, b) && Less(b, a))
    ensures !Less(a, a)
  {
  }

  function Names(f: Forest): set<string> {
    match f
    case Nil => {}
    case Cons(n, _, rest) => {n} + Names(rest)
  }

  predicate TreeOk(t: Tree) {
    t.Dir? ==> ForestOk(t.kids)
  }

  /** Strictly increasing names, at every depth. */
  predicate ForestOk(f: Forest) {
    match f
    case Nil => true
    case Cons(n, t, rest) => TreeOk(t) && ForestOk(rest) && forall m :: m in Names(rest) ==> Less(n, m)
  }

  function Size(t: Tree): nat {
    if t.File? then 1 else 1 + ForestSize(t.kids)
  }

  function ForestSize(f: Forest): nat {
    match f
    case Nil => 0
    case Cons(_, t, rest) => Size(t) + ForestSize(rest)
  }

  // ----------------------------------------------------------------------------------------
  // Walking a path

  function Lookup(f: Forest, n: string): (r: Option<Tree>)
    ensures r.Some? <==> n in Names(f)
    ensures r.Some? ==> Size(r.value) <= ForestSize(f) && (ForestOk(f) ==> TreeOk(r.value))
  {
    match f
    case Nil => None
    case Cons(m, t, rest) => if m == n then Some(t) else Lookup(rest, n)
  }

  /** The subtree at a path, if the walk from the root succeeds. */
  function At(t: Tree, p: Path): (r: Option<Tree>)
    ensures r.Some? && TreeOk(t) ==> TreeOk(r.value)
    decreases |p|
  {
    if p == [] then Some(t)
    else if t.File? then None
    else match Lookup(t.kids, p[0])
      case None => None
      case Some(kid) => At(kid, p[1..])
  }

  function EntryOf(t: Tree): Entry {
    match t
    case File(meta, bytes) => FileEntry(meta, Sha256(bytes), |bytes|)
    case Dir(meta, _) => DirEntry(meta)
  }

  lemma {:induction false} AtAppend(t: Tree, p: Path, n: string)
    ensures At(t, p + [n]) ==
      match At(t, p)
      case None => None
      case Some(u) => if u.Dir? then Lookup(u.kids, n) else None
    decreases |p|
  {
    if p == [] {
      assert (p + [n])[1..] == [];
    } else if t.Dir? && Lookup(t.kids, p[0]).Some? {
      assert (p + [n])[1..] == p[1..] + [n];
      AtAppend(Lookup(t.kids, p[0]).value, p[1..], n);
    }
  }

  // ----------------------------------------------------------------------------------------
  // Listings

  /** Everything in a tree that hangs at a path. */
  function List(p: Path, t: Tree): Listing
    decreases t
  {
    match t
    case File(_, _) => map[p := EntryOf(t)]
    case Dir(_, kids) => ListForest(p, kids)[p := EntryOf(t)]
  }

  function ListForest(p: Path, f: Forest): Listing
    decreases f
  {
    match f
    case Nil => map[]
    case Cons(n, t, rest) => ListForest(p, rest) + List(p + [n], t)
  }

  /** What the walk says a listing should contain at a path. */
  function EntryAt(p: Path, t: Tree, q: Path): Option<Entry> {
    if p <= q && At(t, q[|p|..]).Some? then Some(EntryOf(At(t, q[|p|..]).value)) else None
  }

  function EntryAtForest(p: Path, f: Forest, q: Path): Option<Entry> {
    if p <= q && |p| < |q| && Lookup(f, q[|p|]).Some? then EntryAt(p + [q[|p|]], Lookup(f, q[|p|]).value, q) else None
  }

  function Get(l: Listing, q: Path): Option<Entry> {
    if q in l then Some(l[q]) else None
  }

  /** A listing has exactly the paths that can be walked, with the metadata, size and hash found
      at the end of the walk. */
  lemma {:induction false} ListIsWalk(p: Path, t: Tree, q: Path)
    requires TreeOk(t)
    ensures Get(List(p, t), q) == EntryAt(p, t, q)
    decreases t
  {
    if t.Dir? {
      ListForestIsWalk(p, t.kids, q);
      if p <= q && |p| < |q| {
        assert q[|p|..][0] == q[|p|] && q[|p|..][1..] == q[|p| + 1..];
        assert p + [q[|p|]] <= q;
      } else {
        assert p <= q ==> p == q;
      }
    } else if p <= q && q != p {
      assert q[|p|..] != [];
    }
  }

  lemma {:induction false} ListForestIsWalk(p: Path, f: Forest, q: Path)
    requires ForestOk(f)
    ensures Get(ListForest(p, f), q) == EntryAtForest(p, f, q)
    decreases f
  {
    match f
    case Nil =>
    case Cons(n, t, rest) =>
      ListIsWalk(p + [n], t, q);
      ListForestIsWalk(p, rest, q);
      if n in Names(rest) { LessAsymmetric(n, n); }
      if p + [n] <= q {
        assert q[|p|] == n && p <= q;
      } else if p <= q && |p| < |q| {
        assert p + [q[|p|]] == q[..|p| + 1];
      }
  }

  lemma {:induction false} ListBelow(p: Path, t: Tree, q: Path)
    requires q in List(p, t)
    ensures p <= q
    decreases t
  {
    if t.Dir? && q != p { ListForestBelow(p, t.kids, q); }
  }

  lemma {:induction false} ListForestBelow(p: Path, f: Forest, q: Path)
    requires q in ListForest(p, f)
    ensures p <= q && |p| < |q|
    decreases f
  {
    match f
    case Cons(n, t, rest) =>
      if q in List(p + [n], t) { ListBelow(p + [n], t, q); } else { ListForestBelow(p, rest, q); }
  }

  // ----------------------------------------------------------------------------------------
  // Listings determine trees

  lemma FirstIsThere(f: Forest)
    ensures f.Cons? ==> Lookup(f, f.name) == Some(f.tree)
  {
  }

  lemma {:induction false} SameForest(f: Forest, g: Forest)
    requires ForestOk(f) && ForestOk(g) && forall n :: Lookup(f, n) == Lookup(g, n)
    ensures f == g
  {
    match f
    case Nil =>
      FirstIsThere(g);
    case Cons(n, t, rest) =>
      assert Lookup(f, n) == Lookup(g, n);
      assert Lookup(f, g.name) == Lookup(g, g.name);
      if g.name != n { LessAsymmetric(n, g.name); }
      if n in Names(rest) || n in Names(g.rest) { LessAsymmetric(n, n); }
      forall m ensures Lookup(rest, m) == Lookup(g.rest, m) {
        assert Lookup(f, m) == Lookup(g, m);
      }
      SameForest(rest, g.rest);
  }

  /** Two trees in which every walk ends in the same entry are the same tree. */
  lemma {:induction false} SameWalks(t: Tree, u: Tree)
    requires TreeOk(t) && TreeOk(u)
    requires forall q: Path :: EntryAt([], t, q) == EntryAt([], u, q)
    ensures t == u
    decreases Size(t)
  {
    var here: Path := [];
    assert EntryAt([], t, here) == EntryAt([], u, here);
    assert here[|here|..] == [];
    if t.Dir? {
      forall n ensures Lookup(t.kids, n) == Lookup(u.kids, n) {
        var q := [n];
        assert q[0..] == q && q[1..] == [] && q[0] == n;
        assert EntryAt([], t, q) == EntryAt([], u, q);
        assert At(t, q) == match Lookup(t.kids, n) { case None => None case Some(k) => At(k, []) };
        assert At(u, q) == match Lookup(u.kids, n) { case None => None case Some(k) => At(k, []) };
        if Lookup(t.kids, n).Some? {
          var a, b := Lookup(t.kids, n).value, Lookup(u.kids, n).value;
          forall r: Path ensures EntryAt([], a, r) == EntryAt([], b, r) {
            var q := [n] + r;
            assert q[0..] == q && q[1..] == r && r[0..] == r;
            assert EntryAt([], t, q) == EntryAt([], u, q);
          }
          SameWalks(a, b);
        }
      }
      SameForest(t.kids, u.kids);
    }
  }

  /** A flat listing determines the tree it was taken from: names, structure, metadata and bytes. */
  lemma ListDetermines(p: Path, t: Tree, u: Tree)
    requires TreeOk(t) && TreeOk(u) && List(p, t) == List(p, u)
    ensures t == u
  {
    forall q: Path ensures EntryAt([], t, q) == EntryAt([], u, q) {
      ListIsWalk(p, t, p + q);
      ListIsWalk(p, u, p + q);
      assert (p + q)[|p|..] == q == q[0..];
    }
    SameWalks(t, u);
  }
}
