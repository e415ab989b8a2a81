/** From copies to an exchange: what was copied for an update is what its plan assumes. */
module Preparation {
  import opened Protocol
  import opened Trees
  import opened Inventory
  import opened InventoryLaws
  import opened Snapshot
  import opened Copies
  import C = Cutover
  import opened HostExecutor

  /** The live directory of the installation is this tree. */
  ghost predicate Mounted(g: C.Generations, root: Tree) {
    && (forall n :: n in g.live ==> g.live[n] in g.trees)
    && (forall n :: Live(g, n) == At(root, [n]))
  }

  /** The staged release as it is to be installed. */
  function ReleaseOf(src: Tree, names: seq<string>, owner: Owner): map<string, Tree>
    requires forall n :: n in names ==> At(src, [n]).Some?
  {
    map n | n in names :: NormalTree(At(src, [n]).value, owner)
  }

  predicate IsPrivate(n: string) {
    n in {"data", ".env"}
  }

  /** Where an entry of the new generation was copied to. */
  function Copied(release: Tree, private_: Tree, n: string): Option<Tree> {
    At(if IsPrivate(n) then private_ else release, [n])
  }

  ghost predicate OneToOne(order: seq<string>, ids: map<string, C.Inode>) {
    && (forall n :: n in order ==> n in ids)
    && (forall m, n :: m in order && n in order && ids[m] == ids[n] ==> m == n)
  }

  /** The new generation: the copied release, and the copied private files, under new identities. */
  ghost function OfferOf(order: seq<string>, ids: map<string, C.Inode>, release: Tree, private_: Tree): Offer
    requires OneToOne(order, ids) && forall n :: n in order ==> Copied(release, private_, n).Some?
  {
    Offer(order,
          map n | n in order :: ids[n],
          map n | n in order :: ids[n] := Copied(release, private_, n).value)
  }

  /** New identities for the names of an update. */
  ghost predicate NewIds(order: seq<string>, ids: map<string, C.Inode>, g: C.Generations) {
    forall n :: n in order ==> n in ids && ids[n] !in g.trees && ids[n] !in g.live.Values
  }

  /** The copies of a staged release and of the snapshot of the live installation make up exactly the
      generation that a plan is recorded for. */
  lemma CopiesAreOffered(src: Tree, names: seq<string>, owner: Owner, release: Tree,
                         root: Tree, private_: Tree, policy: Enrollment, limits: Limits,
                         g: C.Generations, order: seq<string>, ids: map<string, C.Inode>)
    // The release was staged, inventoried and copied.
    requires TreeOk(src) && Present(src, TopLevel(names)) && "data" !in names && ".env" !in names
    requires Distinct(names)
    requires var s := Inventoried(src, names); CopyOf(release, NormalizedAll(s.entries, Some(owner)), s.objects)
    // The snapshot of the live installation was taken, and its private part copied.
    requires TreeOk(root) && Present(root, PLACES) && FitPlaces(root, PLACES, Owners(policy), limits, 0, 0)
    requires Restorable(root, policy)
    requires CopyOf(private_, Private(Captured(root).entries), Captured(root).objects)
    requires Mounted(g, root)
    // The names of both, in some order, under new identities.
    requires Distinct(order)
    requires forall n :: n in order <==> n in names || IsPrivate(n)
    requires OneToOne(order, ids) && NewIds(order, ids, g)
    ensures forall n :: n in names ==> At(src, [n]).Some?
    ensures forall n :: n in order ==> Copied(release, private_, n).Some?
    ensures OfferOk(OfferOf(order, ids, release, private_), g, ReleaseOf(src, names, owner))
  {
    hide At, Present, FitPlaces, Restorable, Captured, CopyOf, Private, NormalizedAll, Inventoried, OfferOk;
    forall n | n in names
      ensures At(src, [n]).Some? && At(release, [n]) == Some(NormalTree(At(src, [n]).value, owner))
    {
      ReleaseCopyIsNormal(src, release, names, owner, n);
    }
    PrivateCopyIsOriginal(root, private_, policy, limits);
    PrivateIsThere(root);
    hide Mounted, NewIds, OneToOne, Live, Distinct;
    OfferIsOk(order, ids, release, private_, g, ReleaseOf(src, names, owner));
  }

  lemma PrivateIsThere(root: Tree)
    requires Present(root, PLACES)
    ensures At(root, DATA).Some? && At(root, ENV).Some?
  {
    assert PLACES[1] == ENV && PLACES[|CONFIG|] == DATA;
  }

  lemma OfferIsOk(order: seq<string>, ids: map<string, C.Inode>, release: Tree, private_: Tree, g: C.Generations,
                  expected: map<string, Tree>)
    requires Distinct(order)
    requires forall n :: n in order <==> n in expected || IsPrivate(n)
    requires forall n :: n in expected ==> !IsPrivate(n) && Copied(release, private_, n) == Some(expected[n])
    requires forall n :: IsPrivate(n) ==>
      Copied(release, private_, n).Some? && Copied(release, private_, n) == Live(g, n)
    requires (forall n :: n in g.live ==> g.live[n] in g.trees) && OneToOne(order, ids) && NewIds(order, ids, g)
    ensures forall n :: n in order ==> Copied(release, private_, n).Some?
    ensures OfferOk(OfferOf(order, ids, release, private_), g, expected)
  {
    hide Copied, OfferOf, Live, NewIds, OneToOne, OfferOk, Distinct;
    var o := OfferOf(order, ids, release, private_);
    OfferMeans(order, ids, release, private_);
    OrderNames(order, expected);
    OfferIsNew(o, order, ids, g);
    OfferIsWhole(o, release, private_, g, expected);
  }

  lemma OfferIsWhole(o: Offer, release: Tree, private_: Tree, g: C.Generations, expected: map<string, Tree>)
    requires Distinct(o.order) && o.pending.Keys == (set n | n in o.order) == expected.Keys + {"data", ".env"}
    requires forall n :: n in o.order ==>
      o.pending[n] in o.trees && Copied(release, private_, n) == Some(o.trees[o.pending[n]])
    requires forall n :: n in o.pending ==> o.pending[n] !in g.trees && o.pending[n] !in g.live.Values
    requires forall i :: i in o.trees ==> i !in g.trees
    requires forall m, n :: m in o.pending && n in o.pending && o.pending[m] == o.pending[n] ==> m == n
    requires forall n :: n in g.live ==> g.live[n] in g.trees
    requires forall n :: n in expected ==> n !in {"data", ".env"} && Copied(release, private_, n) == Some(expected[n])
    requires Copied(release, private_, "data") == Live(g, "data")
      && Copied(release, private_, ".env") == Live(g, ".env")
    ensures OfferOk(o, g, expected)
  {
    hide Copied, Live;
    assert "data" in o.pending && ".env" in o.pending;
    forall n | n in expected ensures n in o.order {}
  }

  lemma OfferIsNew(o: Offer, order: seq<string>, ids: map<string, C.Inode>, g: C.Generations)
    requires OneToOne(order, ids) && NewIds(order, ids, g) && o.pending.Keys == (set n | n in order)
    requires forall n :: n in order ==> o.pending[n] == ids[n]
    requires forall i :: i in o.trees ==> exists n :: n in order && ids[n] == i
    ensures forall n :: n in o.pending ==> o.pending[n] !in g.trees && o.pending[n] !in g.live.Values
    ensures forall i :: i in o.trees ==> i !in g.trees
    ensures forall m, n :: m in o.pending && n in o.pending && o.pending[m] == o.pending[n] ==> m == n
  {
  }

  lemma OrderNames(order: seq<string>, expected: map<string, Tree>)
    requires forall n :: n in order <==> n in expected || IsPrivate(n)
    ensures (set n | n in order) == expected.Keys + {"data", ".env"}
    ensures IsPrivate("data") && IsPrivate(".env")
  {
  }

  lemma OfferMeans(order: seq<string>, ids: map<string, C.Inode>, release: Tree, private_: Tree)
    requires OneToOne(order, ids) && forall n :: n in order ==> Copied(release, private_, n).Some?
    ensures var o := OfferOf(order, ids, release, private_);
      && o.order == order && o.pending.Keys == (set n | n in order)
      && (forall n :: n in order ==>
            o.pending[n] == ids[n] && ids[n] in o.trees && o.trees[ids[n]] == Copied(release, private_, n).value)
      && (forall i :: i in o.trees ==> exists n :: n in order && ids[n] == i)
  {
    hide Copied;
  }
}
