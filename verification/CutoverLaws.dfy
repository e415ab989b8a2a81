/** What survives any sequence of interrupted, resumed and reversed exchanges, with a candidate
    that changes its own files in between. */
module CutoverLaws {
  import opened Protocol
  import opened Trees
  import opened Cutover

  // ----------------------------------------------------------------------------------------
  // Checking name by name is checking everything

  lemma SameListing(a: Listing, b: Listing)
    requires forall p :: Get(a, p) == Get(b, p)
    ensures a == b
  {
    assert forall p :: (p in a <==> Get(a, p).Some?) && (p in b <==> Get(b, p).Some?);
    forall p | p in a ensures a[p] == b[p] {
      assert Get(a, p) == Get(b, p);
    }
  }

  /** The listing of one name is the part of the directory listing under that name. */
  lemma ListIsSelected(f: Forest, n: string)
    requires ForestOk(f) && n in Names(f)
    ensures List([n], Lookup(f, n).value) == Selected(ListForest([], f), n)
  {
    forall p ensures Get(List([n], Lookup(f, n).value), p) == Get(Selected(ListForest([], f), n), p) {
      ListForestIsWalk([], f, p);
      ListIsWalk([n], Lookup(f, n).value, p);
      if [n] <= p { assert p != [] && p[0] == n; }
    }
    SameListing(List([n], Lookup(f, n).value), Selected(ListForest([], f), n));
  }

  lemma SelectionsDetermine(a: Listing, b: Listing, names: set<string>)
    requires forall p :: p in a || p in b ==> p != [] && p[0] in names
    requires forall n :: n in names ==> Selected(a, n) == Selected(b, n)
    ensures a == b
  {
    forall p ensures Get(a, p) == Get(b, p) {
      if p != [] && p[0] in names {
        assert Get(Selected(a, p[0]), p) == Get(Selected(b, p[0]), p);
      }
    }
    SameListing(a, b);
  }

  /** The listings selected for the single names partition the expected listing: comparing every
      name on its own accepts exactly when the complete directory equals the plan. */
  lemma PerNameIsWhole(f: Forest, expected: Listing)
    requires ForestOk(f) && forall p :: p in expected ==> p != [] && p[0] in Names(f)
    ensures ListForest([], f) == expected <==>
      forall n :: n in Names(f) ==> List([n], Lookup(f, n).value) == Selected(expected, n)
  {
    forall n | n in Names(f) ensures List([n], Lookup(f, n).value) == Selected(ListForest([], f), n) {
      ListIsSelected(f, n);
    }
    forall p | p in ListForest([], f) ensures p != [] && p[0] in Names(f) {
      ListForestIsWalk([], f, p);
    }
    if forall n :: n in Names(f) ==> Selected(ListForest([], f), n) == Selected(expected, n) {
      SelectionsDetermine(ListForest([], f), expected, Names(f));
    }
  }

  // ----------------------------------------------------------------------------------------
  // Runs

  ghost predicate IsCandidate(plan: Plan, i: Inode) {
    exists n :: n in plan.ids && plan.ids[n].candidate == i
  }

  /** While it runs, the candidate may change what hangs at its own entries, and only there. */
  ghost predicate Mutates(plan: Plan, g: Generations, g': Generations) {
    && g' == g.(trees := g'.trees)
    && forall i :: i in g.trees ==> i in g'.trees && (!IsCandidate(plan, i) ==> g'.trees[i] == g.trees[i])
  }

  ghost predicate CutStep(plan: Plan, g: Generations, g': Generations) {
    || Mutates(plan, g, g')
    || exists rollback, moved, ok :: Effect(plan, rollback, g, g', moved, ok)
  }

  ghost predicate IsRun(plan: Plan, b: seq<Generations>) {
    && |b| > 0 && AtPrefix(b[0], plan, 0) && !b[0].restored
    && forall i :: 0 <= i < |b| - 1 ==> CutStep(plan, b[i], b[i + 1])
  }

  /** Relative to the untouched installation `g0`: the candidate holds a prefix of the sorted names,
      no entry of either generation is lost or duplicated, everything outside the plan and every
      original content is as it was, and a finished rollback is final. */
  ghost predicate Safe(plan: Plan, g0: Generations, g: Generations) {
    && (exists k :: AtPrefix(g, plan, k))
    && (g.restored ==> AtPrefix(g, plan, 0))
    && Conserved(plan, g0, g.(trees := g0.trees))
    && (forall i :: i in g0.trees ==> i in g.trees && (!IsCandidate(plan, i) ==> g.trees[i] == g0.trees[i]))
  }

  lemma StepIsSafe(plan: Plan, g0: Generations, g: Generations, g': Generations)
    requires PlanOk(plan) && Safe(plan, g0, g) && CutStep(plan, g, g')
    ensures Safe(plan, g0, g')
    ensures g.restored ==> g'.live == g.live && g'.pending == g.pending && g'.restored
  {
    hide PlanOk;
    if Mutates(plan, g, g') {
      hide Conserved;
      forall k | AtPrefix(g, plan, k) ensures AtPrefix(g', plan, k) {}
      assert g'.(trees := g0.trees) == g.(trees := g0.trees);
    } else {
      var rollback, moved, ok :| Effect(plan, rollback, g, g', moved, ok);
      EffectIsSafe(plan, g0, g, g', rollback, moved, ok);
      hide Effect, Safe;
    }
  }

  lemma EffectIsSafe(plan: Plan, g0: Generations, g: Generations, g': Generations, rollback: bool, moved: nat, ok: bool)
    requires Safe(plan, g0, g) && Effect(plan, rollback, g, g', moved, ok)
    ensures Safe(plan, g0, g')
    ensures g.restored ==> g' == g
  {
    hide AtPrefix, Conserved;
    ConservedTwice(plan, g0, g, g');
    TreesKept(plan, g, g');
    var k :| AtPrefix(g, plan, k);
    assert AtPrefix(g', plan, if rollback then k - moved else k + moved);
  }

  lemma TreesKept(plan: Plan, g: Generations, g': Generations)
    requires Conserved(plan, g, g')
    ensures g'.trees == g.trees
  {
  }

  lemma ConservedTwice(plan: Plan, g0: Generations, g: Generations, g': Generations)
    requires Conserved(plan, g0, g.(trees := g0.trees)) && Conserved(plan, g, g')
    ensures Conserved(plan, g0, g'.(trees := g0.trees))
  {
    hide Id;
  }

  /** Over any run, at every moment of it. */
  lemma {:induction false} AlwaysSafe(plan: Plan, b: seq<Generations>, i: nat)
    requires PlanOk(plan) && IsRun(plan, b) && i < |b|
    ensures Safe(plan, b[0], b[i])
  {
    if i == 0 {
      assert AtPrefix(b[0], plan, 0);
    } else {
      AlwaysSafe(plan, b, i - 1);
      assert CutStep(plan, b[i - 1], b[i - 1 + 1]);
      StepIsSafe(plan, b[0], b[i - 1], b[i]);
    }
  }

  /** Once the marker of a finished rollback is durable, no entry is ever renamed again. */
  lemma {:induction false} MarkerIsFinal(plan: Plan, b: seq<Generations>, i: nat, j: nat)
    requires PlanOk(plan) && IsRun(plan, b) && i <= j < |b| && b[i].restored
    ensures b[j].restored && b[j].live == b[i].live && b[j].pending == b[i].pending
  {
    if i < j {
      MarkerIsFinal(plan, b, i, j - 1);
      AlwaysSafe(plan, b, j - 1);
      assert CutStep(plan, b[j - 1], b[j - 1 + 1]);
      StepIsSafe(plan, b[0], b[j - 1], b[j]);
    }
  }

  /** A rollback that reports success puts back the original installation: the same entries under
      the same names, with the same contents, and the candidate generation, however it changed,
      complete in the private directory. */
  lemma RollbackIsExact(plan: Plan, b: seq<Generations>, moved: nat)
    requires PlanOk(plan) && IsRun(plan, b) && |b| >= 2
    requires Effect(plan, true, b[|b| - 2], b[|b| - 1], moved, true)
    ensures b[|b| - 1].live == b[0].live && b[|b| - 1].pending == b[0].pending
    ensures forall n :: n in b[0].live && b[0].live[n] in b[0].trees && !IsCandidate(plan, b[0].live[n]) ==>
      b[0].live[n] in b[|b| - 1].trees && b[|b| - 1].trees[b[0].live[n]] == b[0].trees[b[0].live[n]]
  {
    var g0, g := b[0], b[|b| - 1];
    AlwaysSafe(plan, b, |b| - 1);
    assert AtPrefix(g, plan, 0) && AtPrefix(g0, plan, 0);
    forall n ensures Id(g.live, n) == Id(g0.live, n) && Id(g.pending, n) == Id(g0.pending, n) {
      if n in plan.ids {
        var i :| 0 <= i < |plan.order| && plan.order[i] == n;
        assert PositionOf(g, plan.ids[plan.order[i]], plan.order[i]) == Original;
        assert PositionOf(g0, plan.ids[plan.order[i]], plan.order[i]) == Original;
      }
    }
    SameDirectory(g.live, g0.live);
    SameDirectory(g.pending, g0.pending);
  }

  /** A forward exchange whose marker took effect passes every check again, and is refused all the
      same, also when the first call reported that its marker failed. */
  lemma AppliedIsFinal(plan: Plan, g: Generations, g': Generations, moved: nat, ok: bool, same: bool)
    requires PlanOk(plan) && Admissible(g, plan, false, same) && Effect(plan, false, g, g', moved, ok)
    requires g'.applied && AtPrefix(g', plan, |plan.order|)
    ensures Admissible(g', plan, false, same) && !Completes(g', plan, false, same)
  {
    hide AtPrefix, Conserved, PositionOf, ContentIs;
    forall n | n in plan.ids ensures Checked(g', plan, n, false) {
      CheckedOnArrival(plan, g, g', n);
    }
  }

  lemma CheckedOnArrival(plan: Plan, g: Generations, g': Generations, n: string)
    requires PlanOk(plan) && Conserved(plan, g, g') && n in plan.ids && Checked(g, plan, n, false)
    requires AtPrefix(g', plan, |plan.order|)
    ensures Checked(g', plan, n, false)
  {
    hide Selected;
    var i :| 0 <= i < |plan.order| && plan.order[i] == n;
    assert PositionOf(g', plan.ids[plan.order[i]], plan.order[i]) == Candidate;
  }

  /** One entry, exchanged, with its marker written. */
  const ONE_FILE := File(Meta(0, 0, 0x180, 0), [])
  const ONE_NAME := Plan([".env"], map[".env" := Ids(Some(1), 2)], List([".env"], ONE_FILE), List([".env"], ONE_FILE))
  const ONE_APPLIED := Generations(map[".env" := 2], map[".env" := 1], map[1 := ONE_FILE, 2 := ONE_FILE], true, false)

  lemma AppliedIsRefused()
    ensures PlanOk(ONE_NAME) && Admissible(ONE_APPLIED, ONE_NAME, false, true)
    ensures !Completes(ONE_APPLIED, ONE_NAME, false, true) && Completes(ONE_APPLIED, ONE_NAME, true, true)
  {
    var l := List([".env"], ONE_FILE);
    assert forall p :: p in l ==> p == [".env"];
    assert Selected(l, ".env") == l;
    assert PositionOf(ONE_APPLIED, ONE_NAME.ids[".env"], ".env") == Candidate;
  }

  lemma SameDirectory(a: map<string, Inode>, b: map<string, Inode>)
    requires forall n :: Id(a, n) == Id(b, n)
    ensures a == b
  {
    assert forall n :: (n in a <==> Id(a, n).Some?) && (n in b <==> Id(b, n).Some?);
    forall n | n in a ensures a[n] == b[n] {
      assert Id(a, n) == Id(b, n);
    }
  }
}
