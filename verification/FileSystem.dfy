/** A private output directory, as the kernel changes it: creating an entry needs its parent and
    touches the parent's modification time, and an existing entry is never replaced. */
module FileSystem {
  import opened Protocol
  import opened Trees

  /** What is found at a path, apart from what is below it. */
  datatype Node = FileNode(meta: Meta, bytes: Bytes) | DirNode(meta: Meta)

  function NodeOf(t: Tree): Node {
    match t
    case File(meta, bytes) => FileNode(meta, bytes)
    case Dir(meta, _) => DirNode(meta)
  }

  function NodeAt(t: Tree, p: Path): Option<Node> {
    match At(t, p)
    case None => None
    case Some(u) => Some(NodeOf(u))
  }

  predicate IsDirectory(t: Tree, p: Path) {
    NodeAt(t, p).Some? && NodeAt(t, p).value.DirNode?
  }

  // ----------------------------------------------------------------------------------------
  // Sorted insertion

  lemma LessTotal(a: string, b: string)
    ensures a == b || Less(a, b) || Less(b, a)
  {
    if a != [] && b != [] && a[0] == b[0] {
      LessTotal(a[1..], b[1..]);
      if a[1..] == b[1..] { assert a == [a[0]] + a[1..] && b == [b[0]] + b[1..]; }
    }
  }

  lemma LessTransitive(a: string, b: string, c: string)
    requires Less(a, b) && Less(b, c)
    ensures Less(a, c)
  {
    if a != [] && a[0] == b[0] == c[0] {
      LessTransitive(a[1..], b[1..], c[1..]);
    }
  }

  function Insert(f: Forest, n: string, u: Tree): (r: Forest)
    ensures Names(r) == Names(f) + {n}
  {
    match f
    case Nil => Cons(n, u, Nil)
    case Cons(m, t, rest) =>
      if m == n then Cons(n, u, rest)
      else if Less(n, m) then Cons(n, u, f)
      else Cons(m, t, Insert(rest, n, u))
  }

  lemma {:induction false} InsertOk(f: Forest, n: string, u: Tree)
    requires ForestOk(f) && TreeOk(u)
    ensures ForestOk(Insert(f, n, u))
  {
    match f
    case Nil =>
    case Cons(m, t, rest) =>
      LessTotal(n, m);
      if m != n && Less(n, m) {
        forall k | k in Names(rest) ensures Less(n, k) { LessTransitive(n, m, k); }
      } else if m != n {
        InsertOk(rest, n, u);
      }
  }

  lemma {:induction false} InsertLookup(f: Forest, n: string, u: Tree, m: string)
    ensures Lookup(Insert(f, n, u), m) == if m == n then Some(u) else Lookup(f, m)
  {
    match f
    case Nil =>
    case Cons(_, _, rest) => InsertLookup(rest, n, u, m);
  }

  // ----------------------------------------------------------------------------------------
  // Changes deep in a tree

  /** The walk to the parent succeeds and ends in a directory. */
  predicate CanPut(t: Tree, p: Path)
    decreases |p|
  {
    p != [] && t.Dir? && (|p| > 1 ==> Lookup(t.kids, p[0]).Some? && CanPut(Lookup(t.kids, p[0]).value, p[1..]))
  }

  lemma {:induction false} CanPutMeans(t: Tree, p: Path)
    requires p != []
    ensures CanPut(t, p) <==> IsDirectory(t, p[..|p| - 1])
    decreases |p|
  {
    if |p| > 1 {
      assert p[..|p| - 1][0] == p[0] && p[..|p| - 1][1..] == p[1..][..|p[1..]| - 1];
      if t.Dir? && Lookup(t.kids, p[0]).Some? {
        CanPutMeans(Lookup(t.kids, p[0]).value, p[1..]);
      }
    } else {
      assert p[..|p| - 1] == [];
    }
  }

  /** A new entry, and the parent's time of change. */
  function Put(t: Tree, p: Path, u: Tree, now: int): Tree
    requires CanPut(t, p)
    decreases |p|
  {
    if |p| == 1 then Dir(t.meta.(mtime := now), Insert(t.kids, p[0], u))
    else Dir(t.meta, Insert(t.kids, p[0], Put(Lookup(t.kids, p[0]).value, p[1..], u, now)))
  }

  function SetMeta(t: Tree, p: Path, meta: Meta): Tree
    requires At(t, p).Some?
    decreases |p|
  {
    if p == [] then t.(meta := meta)
    else Dir(t.meta, Insert(t.kids, p[0], SetMeta(Lookup(t.kids, p[0]).value, p[1..], meta)))
  }

  lemma {:induction false} PutOk(t: Tree, p: Path, u: Tree, now: int)
    requires TreeOk(t) && TreeOk(u) && CanPut(t, p)
    ensures TreeOk(Put(t, p, u, now))
    decreases |p|
  {
    if |p| == 1 {
      InsertOk(t.kids, p[0], u);
    } else {
      var kid := Lookup(t.kids, p[0]).value;
      PutOk(kid, p[1..], u, now);
      InsertOk(t.kids, p[0], Put(kid, p[1..], u, now));
    }
  }

  lemma {:induction false} SetMetaOk(t: Tree, p: Path, meta: Meta)
    requires TreeOk(t) && At(t, p).Some?
    ensures TreeOk(SetMeta(t, p, meta))
    decreases |p|
  {
    if p != [] {
      var kid := Lookup(t.kids, p[0]).value;
      SetMetaOk(kid, p[1..], meta);
      InsertOk(t.kids, p[0], SetMeta(kid, p[1..], meta));
    }
  }

  /** A node, one step down. */
  lemma NodeBelow(t: Tree, q: Path)
    requires q != [] && t.Dir?
    ensures NodeAt(t, q) == match Lookup(t.kids, q[0]) { case None => None case Some(kid) => NodeAt(kid, q[1..]) }
  {
  }

  function Touched(n: Option<Node>, now: int): Option<Node> {
    if n.Some? && n.value.DirNode? then Some(DirNode(n.value.meta.(mtime := now))) else n
  }

  /** What every path finds after an entry has been put at another one. */
  lemma {:induction false} PutNode(t: Tree, p: Path, u: Tree, now: int, q: Path)
    requires CanPut(t, p)
    ensures NodeAt(Put(t, p, u, now), q) ==
      if p <= q then NodeAt(u, q[|p|..])
      else if q == p[..|p| - 1] then Touched(NodeAt(t, q), now)
      else NodeAt(t, q)
    decreases |p|
  {
    var t' := Put(t, p, u, now);
    if q == [] {
    } else {
      NodeBelow(t', q);
      NodeBelow(t, q);
      if |p| == 1 {
        InsertLookup(t.kids, p[0], u, q[0]);
        assert p <= q <==> p[0] == q[0];
      } else {
        var kid := Lookup(t.kids, p[0]).value;
        InsertLookup(t.kids, p[0], Put(kid, p[1..], u, now), q[0]);
        if q[0] == p[0] {
          PutNode(kid, p[1..], u, now, q[1..]);
          Stepped(p, q);
        } else {
          assert p[..|p| - 1][0] == p[0];
        }
      }
    }
  }

  lemma Stepped(p: Path, q: Path)
    requires |p| > 1 && q != [] && p[0] == q[0]
    ensures p <= q <==> p[1..] <= q[1..]
    ensures p <= q ==> q[|p|..] == q[1..][|p[1..]|..]
    ensures q == p[..|p| - 1] <==> q[1..] == p[1..][..|p[1..]| - 1]
  {
    assert p == [p[0]] + p[1..] && q == [q[0]] + q[1..];
    assert p[..|p| - 1] == [p[0]] + p[1..][..|p[1..]| - 1];
    if p[1..] <= q[1..] { assert forall i :: 0 <= i < |p| ==> p[i] == q[i] by {
        forall i | 0 <= i < |p| ensures p[i] == q[i] { if i > 0 { assert p[1..][i - 1] == q[1..][i - 1]; } } } }
  }

  function WithMeta(n: Option<Node>, meta: Meta): Option<Node> {
    if n.Some? then Some(n.value.(meta := meta)) else n
  }

  lemma {:induction false} SetMetaNode(t: Tree, p: Path, meta: Meta, q: Path)
    requires At(t, p).Some?
    ensures NodeAt(SetMeta(t, p, meta), q) == if q == p then WithMeta(NodeAt(t, q), meta) else NodeAt(t, q)
    decreases |p|
  {
    var t' := SetMeta(t, p, meta);
    if p != [] && q != [] {
      NodeBelow(t', q);
      NodeBelow(t, q);
      var kid := Lookup(t.kids, p[0]).value;
      InsertLookup(t.kids, p[0], SetMeta(kid, p[1..], meta), q[0]);
      if q[0] == p[0] {
        SetMetaNode(kid, p[1..], meta, q[1..]);
        assert p == [p[0]] + p[1..] && q == [q[0]] + q[1..];
      }
    } else if p == [] && q != [] && t.Dir? {
      NodeBelow(t', q);
      NodeBelow(t, q);
    }
  }

  lemma {:induction false} NothingBelow(t: Tree, p: Path, q: Path)
    requires p <= q && NodeAt(t, p).None?
    ensures NodeAt(t, q).None?
    decreases |p|
  {
    if p != [] && t.Dir? && Lookup(t.kids, p[0]).Some? {
      NothingBelow(Lookup(t.kids, p[0]).value, p[1..], q[1..]);
    }
  }

  // ----------------------------------------------------------------------------------------
  // The directory

  const PRIVATE_DIR := Meta(0, 0, 0x1C0, 0) // rwx for its owner only

  /** One entry more, its parent touched, everything else as it was. */
  ghost predicate Grown(before: Tree, after: Tree, p: Path, n: Node, now: int)
    requires p != []
  {
    forall q :: NodeAt(after, q) ==
      if q == p then Some(n)
      else if q == p[..|p| - 1] then Touched(NodeAt(before, q), now)
      else NodeAt(before, q)
  }

  ghost predicate Retouched(before: Tree, after: Tree, p: Path, meta: Meta) {
    forall q :: NodeAt(after, q) == if q == p then WithMeta(NodeAt(before, q), meta) else NodeAt(before, q)
  }

  lemma PutGrows(t: Tree, p: Path, u: Tree, now: int)
    requires CanPut(t, p) && NodeAt(t, p).None? && (u.Dir? ==> u.kids == Nil)
    ensures Grown(t, Put(t, p, u, now), p, NodeOf(u), now)
  {
    forall q ensures NodeAt(Put(t, p, u, now), q) ==
      if q == p then Some(NodeOf(u))
      else if q == p[..|p| - 1] then Touched(NodeAt(t, q), now)
      else NodeAt(t, q)
    {
      PutNode(t, p, u, now, q);
      if p <= q {
        NothingBelow(t, p, q);
        if q != p { assert q[|p|..] != []; }
      }
    }
  }

  ghost predicate PrivateDirectory(n: Option<Node>) {
    n.Some? && n.value.DirNode? && n.value.meta.uid == PRIVATE_DIR.uid && n.value.meta.mode == PRIVATE_DIR.mode
  }

  /** Nothing but these private directories. */
  ghost predicate Scaffold(root: Tree, dirs: set<Path>) {
    && TreeOk(root) && PrivateDirectory(NodeAt(root, []))
    && forall q: Path :: q != [] ==> if q in dirs then PrivateDirectory(NodeAt(root, q)) else NodeAt(root, q).None?
  }

  /** Every directory but the top ones has its parent among the directories. */
  ghost predicate Closed(dirs: set<Path>) {
    forall q :: q in dirs ==> q != [] && (|q| > 1 ==> q[..|q| - 1] in dirs)
  }

  lemma EmptyScaffold(root: Tree)
    requires root == Dir(PRIVATE_DIR, Nil)
    ensures Scaffold(root, {})
  {
  }

  lemma ScaffoldNext(root: Tree, root': Tree, dirs: set<Path>, p: Path, now: int)
    requires Scaffold(root, dirs) && p != [] && TreeOk(root') && Grown(root, root', p, DirNode(PRIVATE_DIR), now)
    ensures Scaffold(root', dirs + {p})
  {
    hide NodeAt;
  }

  lemma ScaffoldParent(root: Tree, dirs: set<Path>, p: Path)
    requires Scaffold(root, dirs) && p != []
    ensures TreeOk(root) && (NodeAt(root, p).None? <==> p !in dirs)
    ensures IsDirectory(root, p[..|p| - 1]) <==> |p| == 1 || p[..|p| - 1] in dirs
  {
    hide NodeAt;
    var parent := p[..|p| - 1];
    if |p| > 1 { assert parent != []; } else { assert parent == []; }
  }

  /** Some path of least, or of greatest, depth. */
  method Extreme(paths: set<Path>, deepest: bool) returns (p: Path)
    requires paths != {}
    ensures p in paths && forall q :: q in paths ==> if deepest then |q| <= |p| else |p| <= |q|
  {
    p :| p in paths;
    var rest := paths - {p};
    while rest != {}
      invariant p in paths && rest <= paths
      invariant forall q :: q in paths - rest ==> if deepest then |q| <= |p| else |p| <= |q|
      decreases rest
    {
      var q :| q in rest;
      if if deepest then |q| > |p| else |q| < |p| {
        p := q;
      }
      rest := rest - {q};
    }
  }

  class Output {
    var root: Tree

    // The kernel's clock, operation after operation.
    const clock: nat -> int
    var tick: nat

    constructor (clock: nat -> int)
      ensures root == Dir(PRIVATE_DIR, Nil)
    {
      root, this.clock, tick := Dir(PRIVATE_DIR, Nil), clock, 0;
    }

    method Enter(p: Path, u: Tree) returns (ok: bool)
      requires p != [] && TreeOk(root) && TreeOk(u) && (u.Dir? ==> u.kids == Nil)
      modifies this
      ensures TreeOk(root)
      ensures ok <==> old(IsDirectory(root, p[..|p| - 1]) && NodeAt(root, p).None?)
      ensures if ok then Grown(old(root), root, p, NodeOf(u), clock(old(tick))) else root == old(root)
    {
      CanPutMeans(root, p);
      if !CanPut(root, p) || At(root, p).Some? {
        return false;
      }
      PutOk(root, p, u, clock(tick));
      PutGrows(root, p, u, clock(tick));
      root := Put(root, p, u, clock(tick));
      tick := tick + 1;
      return true;
    }

    method Mkdir(p: Path) returns (ok: bool)
      requires p != [] && TreeOk(root)
      modifies this
      ensures TreeOk(root)
      ensures ok <==> old(IsDirectory(root, p[..|p| - 1]) && NodeAt(root, p).None?)
      ensures if ok then Grown(old(root), root, p, DirNode(PRIVATE_DIR), clock(old(tick))) else root == old(root)
    {
      ok := Enter(p, Dir(PRIVATE_DIR, Nil));
    }

    /** Directories from the top down: a parent is met before what it holds, so this succeeds
        exactly when no parent is missing from the set. */
    method MakeAll(dirs: set<Path>) returns (ok: bool)
      requires [] !in dirs && Scaffold(root, {})
      modifies this
      ensures TreeOk(root)
      ensures ok <==> Closed(dirs)
      ensures ok ==> Scaffold(root, dirs)
    {
      hide Scaffold, Grown, NodeAt;
      var rest := dirs;
      ghost var done: set<Path> := {};
      ScaffoldParent(root, {}, ["x"]);
      while rest != {}
        invariant rest <= dirs && done == dirs - rest && Scaffold(root, done) && TreeOk(root)
        invariant Closed(done)
        decreases rest
      {
        var p := Extreme(rest, false);
        ghost var before, now := root, clock(tick);
        ScaffoldParent(before, done, p);
        assert |p| > 1 ==> p[..|p| - 1] !in rest;
        ok := Mkdir(p);
        if !ok {
          return false;
        }
        ScaffoldNext(before, root, done, p, now);
        done := done + {p};
        rest := rest - {p};
      }
      assert done == dirs;
      return true;
    }

    /** A new file with its bytes and its final metadata. */
    method Create(p: Path, bytes: Bytes, meta: Meta) returns (ok: bool)
      requires p != [] && TreeOk(root)
      modifies this
      ensures TreeOk(root)
      ensures ok <==> old(IsDirectory(root, p[..|p| - 1]) && NodeAt(root, p).None?)
      ensures if ok then Grown(old(root), root, p, FileNode(meta, bytes), clock(old(tick))) else root == old(root)
    {
      ok := Enter(p, File(meta, bytes));
    }

    /** Owner, mode and time of an existing entry. Its parent does not notice. */
    method Restore(p: Path, meta: Meta) returns (ok: bool)
      requires TreeOk(root)
      modifies this
      ensures TreeOk(root)
      ensures ok <==> old(NodeAt(root, p).Some?)
      ensures if ok then Retouched(old(root), root, p, meta) else root == old(root)
    {
      if At(root, p).None? {
        return false;
      }
      SetMetaOk(root, p, meta);
      forall q
        ensures NodeAt(SetMeta(root, p, meta), q) == if q == p then WithMeta(NodeAt(root, q), meta) else NodeAt(root, q)
      {
        SetMetaNode(root, p, meta, q);
      }
      root := SetMeta(root, p, meta);
      return true;
    }
  }
}
