/** Locations as text: the prefix tests that decide whether two of them overlap, and the guard
    that uses them to prove that nobody can write to an installation. */
module Locations {
  import opened Trees

  predicate StartsWith(s: string, prefix: string) {
    prefix <= s
  }

  /** A component of a path: not empty, without a separator. */
  predicate Component(s: string) {
    s != "" && '/' !in s
  }

  predicate Canonical(p: Path) {
    forall i :: 0 <= i < |p| ==> Component(p[i])
  }

  /** A separator before every component. */
  function Spell(p: Path): string {
    if p == [] then "" else "/" + p[0] + Spell(p[1..])
  }

  function Slashes(k: nat): string {
    seq(k, i => '/')
  }

  /** A separator between two components. */
  function Join(p: Path): string {
    if p == [] then "" else p[0] + Spell(p[1..])
  }

  ghost predicate Comparable(a: Path, b: Path) {
    a <= b || b <= a
  }

  // ----------------------------------------------------------------------------------------
  // Text prefixes are component prefixes

  /** Two components followed by a separator or the end agree as text only if they are equal. */
  lemma ComponentEnds(a: string, b: string, x: string, y: string)
    requires Component(a) && Component(b)
    requires (y == "" || y[0] == '/') && x != "" && x[0] == '/'
    requires a + x <= b + y
    ensures a == b && x <= y
  {
    var s := b + y;
    assert s[|a|] == (a + x)[|a|] == '/';
    assert forall i :: 0 <= i < |b| ==> s[i] == b[i] && b[i] in b;
    assert forall i :: 0 <= i < |a| ==> s[i] == (a + x)[i] == a[i] && a[i] in a;
    assert |b| <= |a|;
    assert y != "" ==> s[|b|] == '/';
    assert |a| == |b|;
    assert forall i :: 0 <= i < |x| ==> x[i] == (a + x)[|a| + i] == s[|b| + i] == y[i];
  }

  lemma PrefixCons(u: string, v: string)
    ensures "/" + u <= "/" + v <==> u <= v
  {
    assert ("/" + u)[1..] == u && ("/" + v)[1..] == v;
    if u <= v { assert ("/" + v)[..1 + |u|] == "/" + u; }
  }

  lemma PrefixTail(c: string, u: string, v: string)
    ensures c + u <= c + v <==> u <= v
  {
    assert (c + u)[|c|..] == u && (c + v)[|c|..] == v;
    if u <= v { assert (c + v)[..|c| + |u|] == c + u; }
  }

  lemma SpellStart(p: Path)
    ensures Spell(p) == "" <==> p == []
    ensures p != [] ==> Spell(p)[0] == '/'
  {
  }

  lemma SlashesStart(k: nat)
    ensures k > 0 ==> Slashes(k)[0] == '/' && Slashes(k)[1..] == Slashes(k - 1)
  {
  }

  /** A path that goes on below another one; trailing separators count as going on. */
  lemma {:induction false} Below(a: Path, b: Path, k: nat)
    requires Canonical(a) && Canonical(b)
    ensures StartsWith(Spell(a) + Slashes(k), Spell(b) + "/") <==> b <= a && (|b| < |a| || k > 0)
    decreases |b|
  {
    SpellStart(a);
    SpellStart(b);
    SlashesStart(k);
    if b == [] {
      assert Spell(b) + "/" == "/";
    } else if a == [] {
      SlashesAlone(b, k);
    } else {
      var x, y := Spell(b[1..]) + "/", Spell(a[1..]) + Slashes(k);
      SpellStart(a[1..]);
      SpellStart(b[1..]);
      assert Spell(b) + "/" == "/" + (b[0] + x) && Spell(a) + Slashes(k) == "/" + (a[0] + y);
      Below(a[1..], b[1..], k);
      if b[0] + x <= a[0] + y {
        ComponentEnds(b[0], a[0], x, y);
      }
      PrefixCons(b[0] + x, a[0] + y);
      PrefixTail(b[0], x, y);
      assert b <= a <==> b[0] == a[0] && b[1..] <= a[1..];
    }
  }

  lemma SlashesAlone(b: Path, k: nat)
    requires Canonical(b) && b != []
    ensures !(Spell(b) + "/" <= Slashes(k))
  {
    assert b[0][0] in b[0];
    assert |Spell(b)| > 1 && (Spell(b) + "/")[1] == b[0][0] != '/';
    assert k > 1 ==> Slashes(k)[1] == '/';
  }

  lemma {:induction false} SameText(a: Path, b: Path)
    requires Canonical(a) && Canonical(b) && Spell(a) == Spell(b)
    ensures a == b
    decreases |a|
  {
    SpellStart(a);
    SpellStart(b);
    if a != [] {
      SpellStart(a[1..]);
      SpellStart(b[1..]);
      assert a[0] + Spell(a[1..]) == Spell(a)[1..] == Spell(b)[1..] == b[0] + Spell(b[1..]);
      SameHead(a[0], b[0], Spell(a[1..]), Spell(b[1..]));
      SameText(a[1..], b[1..]);
    }
  }

  lemma SameHead(a: string, b: string, u: string, v: string)
    requires Component(a) && Component(b) && a + u == b + v
    requires (u == "" || u[0] == '/') && (v == "" || v[0] == '/')
    ensures a == b && u == v
  {
    var x, y := u + "/", v + "/";
    assert a + x == (a + u) + "/" == (b + v) + "/" == b + y;
    ComponentEnds(a, b, x, y);
    ComponentEnds(b, a, y, x);
    assert u == x[..|x| - 1] && v == y[..|y| - 1];
  }

  /** The test for separate roots, of two canonical locations. */
  predicate Overlapping(path: string, installation: string) {
    path == installation || StartsWith(path, installation + "/") || StartsWith(installation, path + "/")
  }

  lemma OverlappingMeans(a: Path, b: Path)
    requires Canonical(a) && Canonical(b)
    ensures Overlapping(Spell(a), Spell(b)) <==> Comparable(a, b)
  {
    assert Spell(a) + Slashes(0) == Spell(a) && Spell(b) + Slashes(0) == Spell(b);
    Below(a, b, 0);
    Below(b, a, 0);
    if Spell(a) == Spell(b) { SameText(a, b); }
  }

  // ----------------------------------------------------------------------------------------
  // Mounts

  function RStrip(s: string): string {
    if s != "" && s[|s| - 1] == '/' then RStrip(s[..|s| - 1]) else s
  }

  lemma SpellEnd(p: Path)
    requires Canonical(p) && p != []
    ensures Spell(p) != "" && Spell(p)[|Spell(p)| - 1] != '/'
  {
    if |p| == 1 {
      assert Spell(p) == "/" + p[0];
      assert p[0][|p[0]| - 1] in p[0];
    } else {
      SpellEnd(p[1..]);
    }
  }

  lemma {:induction false} RStripSpell(p: Path, k: nat)
    requires Canonical(p)
    ensures RStrip(Spell(p) + Slashes(k)) == Spell(p)
    decreases k
  {
    var s := Spell(p) + Slashes(k);
    if k > 0 {
      assert s[|s| - 1] == '/' && s[..|s| - 1] == Spell(p) + Slashes(k - 1);
      RStripSpell(p, k - 1);
    } else {
      assert s == Spell(p);
      if p != [] { SpellEnd(p); }
    }
  }

  /** The test for a mount that spans the installation, as it is written. */
  predicate Spans(path: string, root: string) {
    || path == "/" || path == root
    || StartsWith(path, root + "/") || StartsWith(root, RStrip(path) + "/")
  }

  /** Whatever trailing separators a source is reported with, and also for the file system root:
      one of the two locations contains the other. */
  lemma SpansMeans(p: Path, k: nat, root: Path)
    requires Canonical(p) && Canonical(root) && root != [] && (p == [] ==> k > 0)
    ensures Spans(Spell(p) + Slashes(k), Spell(root)) <==> Comparable(p, root)
  {
    var path := Spell(p) + Slashes(k);
    RStripSpell(p, k);
    Below(p, root, k);
    Below(root, p, 0);
    assert Spell(root) + Slashes(0) == Spell(root);
    assert k > 0 ==> path[|path| - 1] == '/';
    if path == Spell(root) {
      SpellEnd(root);
      assert path == Spell(p);
      SameText(p, root);
    }
    assert p == root && k == 0 ==> path == Spell(root);
    if p != [] { assert p[0][0] in p[0] && path[1] == p[0][0]; }
  }

  /** Selecting the entries of one top-level name from relative paths. */
  lemma SelectionMeans(p: Path, name: string)
    requires Canonical(p) && p != [] && Component(name)
    ensures Join(p) == name || StartsWith(Join(p), name + "/") <==> p[0] == name
  {
    var rest := Spell(p[1..]);
    SpellStart(p[1..]);
    if StartsWith(Join(p), name + "/") {
      ComponentEnds(name, p[0], "/", rest);
    }
    if Join(p) == name {
      assert name + "/" == p[0] + (rest + "/");
      SpellStart(p[1..]);
      ComponentEnds(name, p[0], "/", rest + "/");
    }
    if p[0] == name && rest != "" {
      assert name + "/" <= p[0] + rest;
    }
  }

  // ----------------------------------------------------------------------------------------
  // Nobody can write

  datatype Mount = Mount(writable: bool, source: string)

  /** The inspection of the original; `rest` is everything in it that is only compared. */
  datatype Status = Status(id: string, image: string, running: bool, restarting: bool, paused: bool, dead: bool,
                           pid: int, status: string, rest: string)

  /** A container as it is inspected. */
  datatype Inspected = Inspected(id: string, mounts: seq<Mount>)

  predicate Exited(s: Status, id: string, image: string) {
    && s.id == id && s.image == image
    && !s.running && !s.restarting && !s.paused && !s.dead && s.pid == 0 && s.status == "exited"
  }

  predicate Harmless(m: Mount, root: string) {
    m.writable ==> StartsWith(m.source, "/") && !Spans(m.source, root)
  }

  /** The original has exited and its inspection stays the same, the set of running containers is
      stable, none of them has a writable mount that spans the installation, and all of this was
      seen before the deadline. */
  ghost predicate Quiescent(id: string, image: string, root: string, before: Status, after: Status,
                            running: seq<string>, again: seq<string>, containers: map<string, Inspected>, late: bool) {
    && Exited(before, id, image) && after == before
    && id !in running && (forall c :: c in again <==> c in running) && !late
    && forall c :: c in running ==>
         c in containers && containers[c].id == c && forall m :: m in containers[c].mounts ==> Harmless(m, root)
  }

  /** The source of a mount, as a path with any number of trailing separators. */
  ghost predicate Leads(source: string, p: Path, k: nat) {
    Canonical(p) && (p == [] ==> k > 0) && source == Spell(p) + Slashes(k)
  }

  ghost predicate Spelled(source: string) {
    StartsWith(source, "/") ==> exists p, k :: Leads(source, p, k)
  }

  /** A mount that reaches neither into the installation nor around it, or cannot be written. */
  ghost predicate Elsewhere(m: Mount, root: Path) {
    m.writable ==> exists p, k :: Leads(m.source, p, k) && !Comparable(p, root)
  }

  lemma HarmlessMeans(m: Mount, root: Path)
    requires Canonical(root) && root != [] && Spelled(m.source)
    ensures Harmless(m, Spell(root)) <==> Elsewhere(m, root)
  {
    hide Spell, Slashes, Spans, Comparable, Canonical;
    forall p, k: nat | Leads(m.source, p, k)
      ensures StartsWith(m.source, "/") && (Spans(m.source, Spell(root)) <==> Comparable(p, root))
    {
      SpansMeans(p, k, root);
      LeadsFromTop(m.source, p, k);
    }
  }

  lemma LeadsFromTop(source: string, p: Path, k: nat)
    requires Leads(source, p, k)
    ensures StartsWith(source, "/")
  {
    SpellStart(p);
    SlashesStart(k);
    assert source[0] == '/';
  }

  /** What is accepted: the original has exited, with nothing of it left, and is still as it was; the
      same containers run as before, it is not among them, and whatever one of them may write to lies
      outside the installation and does not contain it. */
  lemma QuiescentMeans(id: string, image: string, root: Path, before: Status, after: Status, running: seq<string>,
                       again: seq<string>, containers: map<string, Inspected>, late: bool)
    requires Canonical(root) && root != []
    requires forall c, m :: c in containers && m in containers[c].mounts ==> Spelled(m.source)
    ensures Quiescent(id, image, Spell(root), before, after, running, again, containers, late) <==>
      && before == after == Status(id, image, false, false, false, false, 0, "exited", before.rest)
      && (set c | c in running) == (set c | c in again) && id !in running && !late
      && forall c :: c in running ==>
           c in containers && containers[c].id == c && forall m :: m in containers[c].mounts ==> Elsewhere(m, root)
  {
    hide Harmless, Elsewhere, Spelled, Canonical, Spell;
    forall c, m | c in containers && m in containers[c].mounts
      ensures Harmless(m, Spell(root)) <==> Elsewhere(m, root)
    {
      HarmlessMeans(m, root);
    }
    var seen, seenAgain := set c | c in running, set c | c in again;
    assert forall c :: (c in again <==> c in seenAgain) && (c in running <==> c in seen);
  }

  method ConfirmStopped(id: string, image: string, root: string, before: Status, after: Status, running: seq<string>,
                        again: seq<string>, containers: map<string, Inspected>, late: bool)
    returns (ok: bool)
    ensures ok <==> Quiescent(id, image, root, before, after, running, again, containers, late)
  {
    hide Harmless, Exited;
    if !Exited(before, id, image) || id in running {
      return false;
    }
    for i := 0 to |running|
      invariant forall c :: c in running[..i] ==>
        c in containers && containers[c].id == c && forall m :: m in containers[c].mounts ==> Harmless(m, root)
    {
      var c := running[i];
      if c !in containers || containers[c].id != c {
        return false;
      }
      var mounts := containers[c].mounts;
      for j := 0 to |mounts|
        invariant forall m :: m in mounts[..j] ==> Harmless(m, root)
      {
        if !Harmless(mounts[j], root) {
          return false;
        }
      }
      assert mounts[..|mounts|] == mounts;
    }
    assert running[..|running|] == running;
    var seen, seenAgain := set c | c in running, set c | c in again;
    assert forall c :: (c in again <==> c in seenAgain) && (c in running <==> c in seen);
    return after == before && seen == seenAgain && !late;
  }
}
