/** The exchange of two file generations, entry by entry, and its reversal from any point. */
module Cutover {
  import opened Protocol
  import opened Trees

  /** Identity of a directory entry: device, number and type. */
  type Inode = nat

  /** The identities a plan records for a name; the original may not have the name at all. */
  datatype Ids = Ids(original: Option<Inode>, candidate: Inode)

  /** `order` is the sorted list of the names in `ids`. */
  datatype Plan = Plan(order: seq<string>, ids: map<string, Ids>, oldContents: Listing, newContents: Listing)

  /** The live directory, the private one beside it, what hangs at each entry, and the markers. */
  datatype Generations = Generations(live: map<string, Inode>, pending: map<string, Inode>,
                                     trees: map<Inode, Tree>, applied: bool, restored: bool)

  datatype Position = Original | Candidate | Unknown

  datatype Refusal = NotStopped | CutoverExists | CutoverChanged | CutoverIo | CredentialsChanged

  ghost predicate PlanOk(plan: Plan) {
    && (forall i, k :: 0 <= i < k < |plan.order| ==> plan.order[i] != plan.order[k])
    && (forall n :: n in plan.ids <==> n in plan.order)
    && (forall n :: n in plan.ids ==> plan.ids[n].original != Some(plan.ids[n].candidate))
    && (forall n :: n in plan.ids && plan.ids[n].original.None? ==> Selected(plan.oldContents, n) == map[])
  }

  function Id(dir: map<string, Inode>, n: string): Option<Inode> {
    if n in dir then Some(dir[n]) else None
  }

  function PositionOf(g: Generations, ids: Ids, n: string): Position {
    var pair := (Id(g.live, n), Id(g.pending, n));
    if pair == (ids.original, Some(ids.candidate)) then Original
    else if pair == (Some(ids.candidate), ids.original) then Candidate
    else Unknown
  }

  /** The part of a listing that belongs to one top-level name. */
  function Selected(l: Listing, n: string): Listing {
    map p | p in l && p != [] && p[0] == n :: l[p]
  }

  predicate ContentIs(g: Generations, dir: map<string, Inode>, n: string, expected: Listing) {
    n in dir && dir[n] in g.trees && List([n], g.trees[dir[n]]) == Selected(expected, n)
  }

  /** The first `k` names of the order hold the candidate, the others the original. */
  ghost predicate AtPrefix(g: Generations, plan: Plan, k: int) {
    && 0 <= k <= |plan.order|
    && (forall n :: n in plan.ids <==> n in plan.order)
    && (forall i :: 0 <= i < |plan.order| ==>
          PositionOf(g, plan.ids[plan.order[i]], plan.order[i]) == if i < k then Candidate else Original)
  }

  /** The two entries of a name, exchanged. */
  function Swapped(g: Generations, n: string): Generations {
    g.(live := if n in g.pending then g.live[n := g.pending[n]] else g.live - {n},
       pending := if n in g.live then g.pending[n := g.live[n]] else g.pending - {n})
  }

  /** The kernel's precondition for a rename that exchanges, or that refuses to replace. */
  predicate CanRename(source: map<string, Inode>, target: map<string, Inode>, n: string, exchange: bool) {
    n in source && (n in target <==> exchange)
  }

  /** Nothing but the plan's names moves, and a name keeps its pair of entries. */
  ghost predicate Conserved(plan: Plan, g: Generations, g': Generations) {
    && g'.trees == g.trees
    && (forall n :: n !in plan.ids ==> Id(g'.live, n) == Id(g.live, n) && Id(g'.pending, n) == Id(g.pending, n))
    && (forall n :: n in plan.ids ==>
          || (Id(g'.live, n) == Id(g.live, n) && Id(g'.pending, n) == Id(g.pending, n))
          || (Id(g'.live, n) == Id(g.pending, n) && Id(g'.pending, n) == Id(g.live, n)))
  }

  /** What a call leaves behind; `moved` is the number of renames that took effect. */
  ghost predicate Effect(plan: Plan, rollback: bool, g: Generations, g': Generations, moved: nat, ok: bool) {
    && Conserved(plan, g, g')
    && (moved == 0 ==> g'.live == g.live && g'.pending == g.pending)
    && (g.restored ==> g' == g && !ok)
    && (g.applied ==> g'.applied) && (g'.restored ==> g.restored || rollback)
    && (forall k :: AtPrefix(g, plan, k) ==> AtPrefix(g', plan, if rollback then k - moved else k + moved))
    && (ok ==> AtPrefix(g', plan, if rollback then 0 else |plan.order|))
    && (ok ==> if rollback then g'.restored else g'.applied)
    && (g'.restored && !g.restored ==> AtPrefix(g', plan, 0))
  }

  // ----------------------------------------------------------------------------------------
  // What a call does, in order

  /** A look at whether nobody writes, a rename that took effect, or the marker, with its moment. */
  datatype Deed = StopCheck(t: nat) | Move(t: nat) | Mark(t: nat)

  function Moves(deeds: seq<Deed>): nat {
    if deeds == [] then 0 else Moves(deeds[..|deeds| - 1]) + if deeds[|deeds| - 1].Move? then 1 else 0
  }

  lemma MovesOn(deeds: seq<Deed>, more: seq<Deed>)
    ensures Moves(deeds + more) == Moves(deeds) + Moves(more)
  {
    if more == [] {
      assert deeds + more == deeds;
    } else {
      assert (deeds + more)[..|deeds + more| - 1] == deeds + more[..|more| - 1];
      MovesOn(deeds, more[..|more| - 1]);
    }
  }

  lemma MovesOfTwo(a: Deed, b: Deed)
    ensures Moves([]) == 0 && Moves([a]) == (if a.Move? then 1 else 0)
    ensures Moves([a, b]) == Moves([a]) + if b.Move? then 1 else 0
  {
    assert [a][..0] == [] && [a, b][..1] == [a];
  }

  class Installation {
    var live: map<string, Inode>
    var pending: map<string, Inode>
    var trees: map<Inode, Tree>
    var applied: bool
    var restored: bool

    // How the outside world behaves, step after step.
    const fates: nat -> Fate
    var tick: nat

    ghost function View(): Generations
      reads this
    {
      Generations(live, pending, trees, applied, restored)
    }

    constructor (g: Generations, fates: nat -> Fate)
      ensures View() == g
    {
      live, pending, trees, applied, restored := g.live, g.pending, g.trees, g.applied, g.restored;
      this.fates, tick := fates, 0;
    }

    /** Right before each rename, and between the last rename and the marker, nobody was found to be
        writing. */
    ghost predicate Guarded(deeds: seq<Deed>) {
      && (forall i :: 0 <= i < |deeds| && deeds[i].Move? ==>
            i > 0 && deeds[i].t > 0 && deeds[i - 1] == StopCheck(deeds[i].t - 1) && fates(deeds[i].t - 1) == Smooth)
      && (forall i :: 0 <= i < |deeds| && deeds[i].Mark? ==>
            i > 0 && deeds[i - 1].StopCheck? && fates(deeds[i - 1].t) == Smooth)
    }

    lemma GuardedOn(deeds: seq<Deed>, more: seq<Deed>)
      requires Guarded(deeds) && Guarded(more)
      ensures Guarded(deeds + more)
    {
    }

    lemma NoDeeds()
      ensures Guarded([]) && Moves([]) == 0
    {
    }

    /** What one name adds. */
    lemma NextDeeds(t0: nat, t: nat, deeds: seq<Deed>, more: seq<Deed>)
      requires t0 <= t && Flawless(t0, t) && Guarded(deeds)
      requires more == [] || more == [StopCheck(t)] || (more == [StopCheck(t), Move(t + 1)] && fates(t) == Smooth)
      ensures Guarded(deeds + more) && Moves(deeds + more) == Moves(deeds) + if |more| == 2 then 1 else 0
      ensures Flawless(t0, t + 1) <==> fates(t) == Smooth
      ensures Flawless(t0, t + 2) <==> fates(t) == Smooth && fates(t + 1) == Smooth
    {
      GuardedOn(deeds, more);
      MovesOn(deeds, more);
      MovesOfTwo(StopCheck(t), Move(t + 1));
    }

    ghost predicate Flawless(t0: nat, t1: nat) {
      forall t :: t0 <= t < t1 ==> fates(t) == Smooth
    }

    lemma FlawlessOn(t0: nat, t1: nat, t2: nat)
      requires t0 <= t1 <= t2
      ensures Flawless(t0, t1) && Flawless(t1, t2) <==> Flawless(t0, t2)
      ensures Flawless(t0, t0) && (Flawless(t0, t0 + 1) <==> fates(t0) == Smooth)
    {
    }

    lemma StepByStep(t: nat)
      ensures Flawless(t, t + 1) <==> fates(t) == Smooth
      ensures Flawless(t, t + 2) <==> fates(t) == Smooth && fates(t + 1) == Smooth
    {
    }

    lemma SmoothIsFlawless(t0: nat, t1: nat)
      requires SmoothFrom(t0) && t0 <= t1
      ensures Flawless(t0, t1) && SmoothFrom(t1)
    {
    }

    method Next() returns (f: Fate)
      modifies this`tick
      ensures f == fates(old(tick)) && tick == old(tick) + 1
    {
      f := fates(tick);
      tick := tick + 1;
    }

    /** One atomic rename between the directories; a failing flush reports an error afterwards. */
    method Rename(n: string, rollback: bool, exchange: bool) returns (ok: bool, done: bool)
      modifies this`live, this`pending, this`tick
      ensures View() == if done then Swapped(old(View()), n) else old(View())
      ensures done ==> (if rollback then CanRename(old(live), old(pending), n, exchange)
                        else CanRename(old(pending), old(live), n, exchange))
      ensures tick == old(tick) + 1
      ensures var possible := if rollback then CanRename(old(live), old(pending), n, exchange)
                              else CanRename(old(pending), old(live), n, exchange);
        && (done <==> possible && fates(old(tick)) != FailsEarly)
        && (ok <==> possible && fates(old(tick)) == Smooth)
    {
      var fate := Next();
      var possible := if rollback then CanRename(live, pending, n, exchange) else CanRename(pending, live, n, exchange);
      if !possible || fate == FailsEarly {
        return false, false;
      }
      if exchange {
        live, pending := live[n := pending[n]], pending[n := live[n]];
      } else if rollback {
        live, pending := live - {n}, pending[n := live[n]];
      } else {
        live, pending := live[n := pending[n]], pending - {n};
      }
      return fate == Smooth, true;
    }

    /** The checks before the first rename: the preserved original always, the candidate only on
        the way forward, wherever each of them is. */
    method Precheck(plan: Plan, names: seq<string>, rollback: bool) returns (refusal: Option<Refusal>)
      requires PlanOk(plan) && forall i :: 0 <= i < |names| ==> names[i] in plan.ids
      modifies this`tick
      ensures tick >= old(tick)
      ensures refusal.None? <==> Flawless(old(tick), old(tick) + |names|)
                                 && forall i :: 0 <= i < |names| ==> Checked(View(), plan, names[i], rollback)
      ensures refusal.None? ==> tick == old(tick) + |names|
      ensures refusal.Some? ==> refusal.value in {CutoverChanged, CutoverIo}
      ensures refusal == Some(CutoverIo) ==> !Flawless(old(tick), old(tick) + |names|)
    {
      for j := 0 to |names|
        invariant tick == old(tick) + j && Flawless(old(tick), tick)
        invariant forall i :: 0 <= i < j ==> Checked(View(), plan, names[i], rollback)
      {
        var n := names[j];
        var ids := plan.ids[n];
        var position := PositionOf(Generations(live, pending, trees, applied, restored), ids, n);
        if position == Unknown {
          return Some(CutoverChanged);
        }
        var scan := Next();
        if scan != Smooth {
          return Some(CutoverIo);
        }
        var (home, away) := if position == Original then (live, pending) else (pending, live);
        var newOk, oldOk := HasContent(away, n, plan.newContents), HasContent(home, n, plan.oldContents);
        if !rollback && !newOk {
          return Some(CutoverChanged);
        }
        if ids.original.Some? && !oldOk {
          return Some(CutoverChanged);
        }
      }
      return None;
    }

    predicate HasContent(dir: map<string, Inode>, n: string, expected: Listing): (same: bool)
      reads this
      ensures same <==> ContentIs(View(), dir, n, expected)
    {
      n in dir && dir[n] in trees && List([n], trees[dir[n]]) == Selected(expected, n)
    }

    /** One name: nothing to do, or a look at whether nobody writes and then at once the rename. */
    method RenameOne(plan: Plan, n: string, rollback: bool)
      returns (refusal: Option<Refusal>, done: bool, ghost deeds: seq<Deed>)
      requires n in plan.ids && plan.ids[n].original != Some(plan.ids[n].candidate)
      modifies this`live, this`pending, this`tick
      ensures View() == if done then Swapped(old(View()), n) else old(View())
      ensures done ==> PositionOf(old(View()), plan.ids[n], n) == if rollback then Candidate else Original
      ensures refusal.None? ==> PositionOf(View(), plan.ids[n], n) == if rollback then Original else Candidate
      ensures var position := PositionOf(old(View()), plan.ids[n], n);
        if position == Unknown then refusal == Some(CutoverChanged) && !done && deeds == []
        else if position == (if rollback then Original else Candidate) then
          refusal.None? && !done && deeds == [] && tick == old(tick)
        else if fates(old(tick)) != Smooth then
          refusal == Some(NotStopped) && !done && deeds == [StopCheck(old(tick))] && tick == old(tick) + 1
        else
          && (done <==> fates(old(tick) + 1) != FailsEarly)
          && refusal == (if fates(old(tick) + 1) == Smooth then None else Some(CutoverIo))
          && tick == old(tick) + 2
          && deeds == if done then [StopCheck(old(tick)), Move(old(tick) + 1)] else [StopCheck(old(tick))]
      ensures tick >= old(tick)
    {
      deeds := [];
      var desired := if rollback then Original else Candidate;
      var position := PositionOf(Generations(live, pending, trees, applied, restored), plan.ids[n], n);
      if position == Unknown {
        return Some(CutoverChanged), false, deeds;
      }
      if position == desired {
        return None, false, deeds;
      }
      deeds := [StopCheck(tick)];
      var stopped := Next();
      if stopped != Smooth {
        return Some(NotStopped), false, deeds;
      }
      PositionFlips(View(), plan.ids[n], n);
      hide Swapped;
      var ok;
      ok, done := Rename(n, rollback, plan.ids[n].original.Some?);
      if done { deeds := deeds + [Move(tick - 1)]; }
      if !ok {
        return Some(CutoverIo), done, deeds;
      }
      if PositionOf(Generations(live, pending, trees, applied, restored), plan.ids[n], n) != desired {
        return Some(CutoverChanged), done, deeds;
      }
      return None, done, deeds;
    }

    /** The loop of renames. A name already at its goal is skipped, so an interrupted exchange is
        resumed and an interrupted rollback is continued. */
    method RenameAll(plan: Plan, names: seq<string>, rollback: bool)
      returns (refusal: Option<Refusal>, moved: nat, ghost deeds: seq<Deed>)
      requires PlanOk(plan) && names == Sequence(plan, rollback)
      modifies this`live, this`pending, this`tick
      ensures Progress(plan, old(View()), View(), rollback, moved)
      ensures refusal.None? ==> AtPrefix(View(), plan, if rollback then 0 else |plan.order|)
      ensures tick >= old(tick)
      // Each rename follows at once on a look that found nobody writing.
      ensures Guarded(deeds) && Moves(deeds) == moved && forall d :: d in deeds ==> !d.Mark?
      ensures AllKnown(old(View()), plan) ==> (refusal.None? <==> Flawless(old(tick), tick))
      ensures refusal.None? ==> Flawless(old(tick), tick) && tick == old(tick) + 2 * moved
    {
      hide AtPrefix, Conserved, Swapped, Untouched, Reached, PlanOk, PositionOf, AllKnown, Sequence, Progress, Guarded,
        Flawless, Moves;
      moved, deeds := 0, [];
      NoDeeds();
      FlawlessOn(tick, tick, tick);
      ghost var start := View();
      NoProgressYet(plan, start, names, rollback);
      for j := 0 to |names|
        invariant tick == old(tick) + 2 * moved && Flawless(old(tick), tick)
        invariant Guarded(deeds) && Moves(deeds) == moved && forall d :: d in deeds ==> !d.Mark?
        invariant LoopState(plan, start, View(), names, j, rollback, moved)
      {
        SequenceNames(plan, rollback, j);
        StillThere(start, View(), plan, names, j);
        ghost var before := View();
        var done;
        ghost var more, t := [], tick;
        refusal, done, more := RenameOne(plan, names[j], rollback);
        NextDeeds(old(tick), t, deeds, more);
        deeds := deeds + more;
        if done {
          Advanced(plan, start, before, names, j, rollback, moved);
          moved := moved + 1;
        } else if refusal.None? {
          Skipped(plan, start, before, names, j, rollback, moved);
        }
        if refusal.Some? {
          return refusal, moved, deeds;
        }
      }
      AllReached(View(), plan, names, rollback);
      return None, moved, deeds;
    }

    /** Read back every live entry that the expected generation has anything for. */
    method Readback(plan: Plan, names: seq<string>, expected: Listing) returns (refusal: Option<Refusal>)
      modifies this`tick
      ensures refusal.None? <==>
        && Flawless(old(tick), old(tick) + Expected(names, expected))
        && forall i :: 0 <= i < |names| && Selected(expected, names[i]) != map[] ==>
             ContentIs(View(), live, names[i], expected)
      ensures refusal.None? ==> tick == old(tick) + Expected(names, expected)
      ensures refusal.Some? ==> refusal == Some(CutoverIo) || exists i ::
        0 <= i < |names| && Selected(expected, names[i]) != map[] && !ContentIs(View(), live, names[i], expected)
      ensures tick >= old(tick)
    {
      hide ContentIs, HasContent, Selected, Flawless, Expected;
      ghost var t0 := tick;
      FlawlessOn(t0, t0, t0);
      NothingExpected(names[..0], expected);
      for j := 0 to |names|
        invariant tick == t0 + Expected(names[..j], expected) && Flawless(t0, tick)
        invariant forall i :: 0 <= i < j && Selected(expected, names[i]) != map[] ==>
          ContentIs(View(), live, names[i], expected)
      {
        ExpectedSplit(names, j, expected);
        if Selected(expected, names[j]) != map[] {
          FlawlessOn(t0, tick, tick + 1);
          FlawlessOn(t0, tick + 1, t0 + Expected(names, expected));
          FlawlessOn(tick, tick + 1, tick + 1);
          var scan := Next();
          if scan != Smooth {
            return Some(CutoverIo);
          }
          var same := HasContent(live, names[j], expected);
          if !same {
            return Some(CutoverChanged);
          }
        }
      }
      assert names[..|names|] == names;
      return None;
    }

    /** Everything that can refuse a call before the first rename. */
    method Admit(plan: Plan, rollback: bool, sameCredentials: bool) returns (refusal: Option<Refusal>)
      requires PlanOk(plan)
      modifies this`tick
      ensures tick >= old(tick)
      ensures refusal.None? <==> Admissible(View(), plan, rollback, sameCredentials)
                                 && Flawless(old(tick), old(tick) + 2 + |plan.order|)
      ensures refusal.None? ==> tick == old(tick) + 2 + |plan.order|
      ensures fates(old(tick)) != Smooth ==> refusal == Some(NotStopped)
      ensures refusal.Some? && Flawless(old(tick), old(tick) + 2 + |plan.order|) ==>
        refusal == Reason(View(), plan, rollback, sameCredentials)
    {
      hide PlanOk, PositionOf, Sequence, Checked, Selected, ContentIs, Flawless;
      SequenceLength(plan, rollback);
      StepByStep(tick);
      FlawlessOn(tick, tick + 1, tick + 2 + |plan.order|);
      FlawlessOn(tick, tick + 2, tick + 2 + |plan.order|);
      StepByStep(tick + 1);
      FlawlessOn(tick + 1, tick + 2, tick + 2 + |plan.order|);
      var stopped := Next();
      if stopped != Smooth {
        return Some(NotStopped);
      }
      var access := Next();
      if access != Smooth {
        return Some(CutoverIo);
      }
      if restored {
        return Some(CutoverExists);
      }
      EveryName(plan, rollback);
      refusal := Precheck(plan, Sequence(plan, rollback), rollback);
      if refusal.Some? {
        return refusal;
      }
      if rollback && "data" in plan.ids
         && PositionOf(Generations(live, pending, trees, applied, restored), plan.ids["data"], "data") == Candidate
         && !sameCredentials {
        return Some(CredentialsChanged);
      }
      return None;
    }

    /** The final readback and the durable marker. */
    method Finish(plan: Plan, rollback: bool) returns (refusal: Option<Refusal>, ghost deeds: seq<Deed>)
      requires PlanOk(plan)
      modifies this`applied, this`restored, this`tick
      ensures tick >= old(tick)
      // The marker is written after a look that found nobody writing, and a flawless readback.
      ensures var last := old(tick) + 1 + ReadbackSteps(plan, rollback);
        var good := Flawless(old(tick), last) && LiveAsExpected(old(View()), plan, rollback)
                    && (rollback || !old(applied));
        && View() == (if good && fates(last) != FailsEarly then Marked(old(View()), rollback) else old(View()))
        && deeds == (if good && fates(last) != FailsEarly then [StopCheck(old(tick)), Mark(last)]
                     else [StopCheck(old(tick))])
        && (refusal.None? <==> good && fates(last) == Smooth)
        && (refusal.None? ==> tick == last + 1)
      ensures fates(old(tick)) != Smooth ==> refusal == Some(NotStopped)
      ensures refusal.Some? && LiveAsExpected(old(View()), plan, rollback) && fates(old(tick)) == Smooth ==>
        refusal == Some(CutoverIo)
    {
      hide PlanOk, Sequence, Selected, ContentIs, Flawless, Expected;
      var expected := if rollback then plan.oldContents else plan.newContents;
      FlawlessOn(tick, tick + 1, tick + 1 + Expected(Sequence(plan, rollback), expected));
      StepByStep(tick);
      deeds := [StopCheck(tick)];
      var stopped := Next();
      if stopped != Smooth {
        return Some(NotStopped), deeds;
      }
      EveryName(plan, rollback);
      refusal := Readback(plan, Sequence(plan, rollback), expected);
      if refusal.Some? {
        return refusal, deeds;
      }
      var marker := Next();
      if marker == FailsEarly || (!rollback && applied) {
        return Some(CutoverIo), deeds;
      }
      deeds := deeds + [Mark(tick - 1)];
      if rollback {
        restored := true;
      } else {
        applied := true;
      }
      return if marker == Smooth then None else Some(CutoverIo), deeds;
    }

    /** Exchange the generations, or take the exchange back. */
    method Exchange(plan: Plan, rollback: bool, sameCredentials: bool)
      returns (refusal: Option<Refusal>, moved: nat, ghost deeds: seq<Deed>)
      requires PlanOk(plan)
      modifies this`live, this`pending, this`applied, this`restored, this`tick
      ensures Effect(plan, rollback, old(View()), View(), moved, refusal.None?)
      // Every check precedes the first rename.
      ensures !Admissible(old(View()), plan, rollback, sameCredentials) ==> refusal.Some? && View() == old(View())
      ensures refusal.None? ==> Installed(View(), plan, rollback)
      // A call that may not complete is always refused, and nothing but a failing step stops the others.
      ensures !Completes(old(View()), plan, rollback, sameCredentials) ==> refusal.Some?
      ensures SmoothFrom(old(tick)) ==> (refusal.None? <==> Completes(old(View()), plan, rollback, sameCredentials))
      ensures tick >= old(tick)
      // Each rename follows at once on a look that found nobody writing; so does the marker, with
      // only the readback in between. A writer that is seen first of all stops everything.
      ensures Guarded(deeds) && Moves(deeds) == moved
      ensures applied != old(applied) || restored != old(restored) ==> exists d :: d in deeds && d.Mark?
      ensures fates(old(tick)) != Smooth ==> refusal == Some(NotStopped) && View() == old(View())
      ensures View() != old(View()) ==> Flawless(old(tick), old(tick) + 2 + |plan.order|)
      // No step of a call that completes has failed.
      ensures refusal.None? ==>
        && Flawless(old(tick), tick)
        && tick == old(tick) + 2 + |plan.order| + 2 * moved + 2 + ReadbackSteps(plan, rollback)
      ensures SmoothFrom(old(tick)) ==>
        refusal == Reason(old(View()), plan, rollback, sameCredentials)
    {
      hide AtPrefix, Conserved, Swapped, PlanOk, Checked, Progress, Effect, Installed, AllKnown, LiveAsExpected,
        Flawless, Guarded, Moves, ReadbackSteps, Admissible, Completes, Reason;
      moved, deeds := 0, [];
      ReasonMeans(View(), plan, rollback, sameCredentials);
      NoDeeds();
      ghost var start, t0 := View(), tick;
      if SmoothFrom(t0) { SmoothIsFlawless(t0, t0 + 2 + |plan.order|); }
      NoEffect(plan, rollback, start);
      refusal := Admit(plan, rollback, sameCredentials);
      if refusal.Some? {
        return refusal, moved, deeds;
      }
      CheckedIsKnown(start, plan, rollback);
      refusal, moved, deeds := RenameAll(plan, Sequence(plan, rollback), rollback);
      ghost var reached := View();
      MovedEffect(plan, rollback, start, reached, moved);
      if SmoothFrom(t0) { SmoothIsFlawless(t0, tick); SmoothIsFlawless(t0 + 2 + |plan.order|, tick); }
      if refusal.Some? {
        return refusal, moved, deeds;
      }
      FlawlessOn(t0, t0 + 2 + |plan.order|, tick);
      InstalledAfter(plan, rollback, start, reached, moved);
      ghost var t, more := tick, [];
      refusal, more := Finish(plan, rollback);
      Finished(t0, t, t + 1 + ReadbackSteps(plan, rollback), deeds, more);
      deeds := deeds + more;
      MarkedEffect(plan, rollback, start, reached, moved, refusal.None?);
    }


    /** What the end of a call adds. */
    lemma Finished(t0: nat, t: nat, last: nat, deeds: seq<Deed>, more: seq<Deed>)
      requires t0 <= t < last && Flawless(t0, t) && Guarded(deeds)
      requires more == [StopCheck(t)] || (more == [StopCheck(t), Mark(last)] && Flawless(t, last))
      ensures Guarded(deeds + more) && Moves(deeds + more) == Moves(deeds)
      ensures more == [StopCheck(t), Mark(last)] ==> exists d :: d in deeds + more && d.Mark?
      ensures Flawless(t, last) && fates(last) == Smooth ==> Flawless(t0, last + 1)
      ensures SmoothFrom(t0) ==> Flawless(t, last) && fates(last) == Smooth
    {
      hide Flawless, Guarded, Moves;
      LastDeeds(t, last, more);
      GuardedOn(deeds, more);
      MovesOn(deeds, more);
      MovesOfTwo(StopCheck(t), Mark(last));
      FlawlessOn(t0, t, last);
      FlawlessOn(t0, last, last + 1);
      FlawlessOn(last, last, last);
      if SmoothFrom(t0) { SmoothIsFlawless(t0, t); SmoothIsFlawless(t, last); }
      if more == [StopCheck(t), Mark(last)] { assert Mark(last) in deeds + more; }
    }

    lemma LastDeeds(t: nat, last: nat, more: seq<Deed>)
      requires t < last
      requires more == [StopCheck(t)] || (more == [StopCheck(t), Mark(last)] && Flawless(t, last))
      ensures Guarded(more)
    {
    }

    ghost predicate SmoothFrom(t0: nat) {
      forall t :: t >= t0 ==> fates(t) == Smooth
    }
  }

  // ----------------------------------------------------------------------------------------
  // The rename loop, step by step

  ghost predicate AllKnown(g: Generations, plan: Plan) {
    forall n :: n in plan.ids ==> PositionOf(g, plan.ids[n], n) != Unknown
  }

  ghost predicate Untouched(g: Generations, g': Generations, names: seq<string>) {
    forall n :: n in names ==> Id(g'.live, n) == Id(g.live, n) && Id(g'.pending, n) == Id(g.pending, n)
  }

  ghost predicate Reached(g: Generations, plan: Plan, names: seq<string>, desired: Position) {
    forall i :: 0 <= i < |names| ==> names[i] in plan.ids && PositionOf(g, plan.ids[names[i]], names[i]) == desired
  }

  ghost predicate Progress(plan: Plan, start: Generations, g: Generations, rollback: bool, moved: nat) {
    && g == start.(live := g.live, pending := g.pending)
    && Conserved(plan, start, g)
    && (moved == 0 ==> g == start)
    && forall k :: AtPrefix(start, plan, k) ==> AtPrefix(g, plan, if rollback then k - moved else k + moved)
  }

  ghost predicate LoopState(plan: Plan, start: Generations, g: Generations, names: seq<string>, j: nat,
                            rollback: bool, moved: nat)
    requires j <= |names|
  {
    && Progress(plan, start, g, rollback, moved)
    && Untouched(start, g, names[j..])
    && Reached(g, plan, names[..j], if rollback then Original else Candidate)
  }

  lemma NoProgressYet(plan: Plan, g: Generations, names: seq<string>, rollback: bool)
    ensures LoopState(plan, g, g, names, 0, rollback, 0)
  {
  }

  lemma SequenceNames(plan: Plan, rollback: bool, j: nat)
    requires PlanOk(plan) && j < |Sequence(plan, rollback)|
    ensures Sequence(plan, rollback)[j] in plan.ids
    ensures var ids := plan.ids[Sequence(plan, rollback)[j]]; ids.original != Some(ids.candidate)
  {
  }

  lemma StillThere(start: Generations, g: Generations, plan: Plan, names: seq<string>, j: nat)
    requires j < |names| && names[j] in plan.ids && Untouched(start, g, names[j..])
    ensures PositionOf(g, plan.ids[names[j]], names[j]) == PositionOf(start, plan.ids[names[j]], names[j])
    ensures AllKnown(start, plan) ==> PositionOf(g, plan.ids[names[j]], names[j]) != Unknown
    ensures Id(g.live, names[j]) == Id(start.live, names[j]) && Id(g.pending, names[j]) == Id(start.pending, names[j])
  {
    assert names[j] in names[j..] by { assert names[j..][0] == names[j]; }
  }

  lemma Skipped(plan: Plan, start: Generations, g: Generations, names: seq<string>, j: nat, rollback: bool, moved: nat)
    requires PlanOk(plan) && names == Sequence(plan, rollback) && j < |names| && names[j] in plan.ids
    requires LoopState(plan, start, g, names, j, rollback, moved)
    requires PositionOf(g, plan.ids[names[j]], names[j]) == if rollback then Original else Candidate
    ensures LoopState(plan, start, g, names, j + 1, rollback, moved)
  {
    hide Progress, PlanOk, Sequence, PositionOf;
    assert names[j..] == [names[j]] + names[j + 1..];
    assert names[..j + 1] == names[..j] + [names[j]];
  }

  lemma Advanced(plan: Plan, start: Generations, g: Generations, names: seq<string>, j: nat, rollback: bool, moved: nat)
    requires PlanOk(plan) && names == Sequence(plan, rollback) && j < |names| && names[j] in plan.ids
    requires LoopState(plan, start, g, names, j, rollback, moved)
    requires PositionOf(g, plan.ids[names[j]], names[j]) == if rollback then Candidate else Original
    ensures LoopState(plan, start, Swapped(g, names[j]), names, j + 1, rollback, moved + 1)
  {
    hide AtPrefix, Conserved, Swapped, Untouched, Reached, PlanOk, PositionOf, Sequence;
    StillThere(start, g, plan, names, j);
    Exchanged(start, g, plan, names, j, rollback);
    SwapIsLocal(g, names[j]);
    assert Swapped(g, names[j])
      == start.(live := Swapped(g, names[j]).live, pending := Swapped(g, names[j]).pending) by {
      SwapKeepsRest(g, names[j]);
    }
    forall k | AtPrefix(start, plan, k)
      ensures AtPrefix(Swapped(g, names[j]), plan, if rollback then k - (moved + 1) else k + (moved + 1))
    {
      PrefixMoves(g, plan, names, j, rollback, if rollback then k - moved else k + moved);
    }
  }

  lemma SwapKeepsRest(g: Generations, n: string)
    ensures Swapped(g, n) == g.(live := Swapped(g, n).live, pending := Swapped(g, n).pending)
  {
  }

  /** An exchange touches one name. */
  lemma SwapIsLocal(g: Generations, n: string)
    ensures Id(Swapped(g, n).live, n) == Id(g.pending, n) && Id(Swapped(g, n).pending, n) == Id(g.live, n)
    ensures forall m :: m != n ==>
      Id(Swapped(g, n).live, m) == Id(g.live, m) && Id(Swapped(g, n).pending, m) == Id(g.pending, m)
    ensures Swapped(g, n).trees == g.trees
  {
  }

  lemma SequenceLength(plan: Plan, rollback: bool)
    ensures |Sequence(plan, rollback)| == |plan.order|
  {
  }

  lemma SequenceDistinct(plan: Plan, rollback: bool)
    requires PlanOk(plan)
    ensures |Sequence(plan, rollback)| == |plan.order|
    ensures forall i, k :: 0 <= i < k < |plan.order| ==> Sequence(plan, rollback)[i] != Sequence(plan, rollback)[k]
  {
  }

  lemma PositionFlips(g: Generations, ids: Ids, n: string)
    requires ids.original != Some(ids.candidate) && PositionOf(g, ids, n) != Unknown
    ensures PositionOf(Swapped(g, n), ids, n) == if PositionOf(g, ids, n) == Original then Candidate else Original
    ensures PositionOf(g, ids, n) == Original ==> CanRename(g.pending, g.live, n, ids.original.Some?)
    ensures PositionOf(g, ids, n) == Candidate ==> CanRename(g.live, g.pending, n, ids.original.Some?)
  {
    SwapIsLocal(g, n);
    hide Swapped;
  }

  lemma SwapConserves(start: Generations, g: Generations, plan: Plan, n: string)
    requires Conserved(plan, start, g) && n in plan.ids
    requires Id(g.live, n) == Id(start.live, n) && Id(g.pending, n) == Id(start.pending, n)
    ensures Conserved(plan, start, Swapped(g, n))
  {
    SwapIsLocal(g, n);
    hide Swapped;
  }

  /** The rename that a name not yet at its goal calls for is one the kernel accepts, and it takes
      the name to its goal without disturbing anything else. */
  lemma Exchanged(start: Generations, g: Generations, plan: Plan, names: seq<string>, j: nat, rollback: bool)
    requires PlanOk(plan) && names == Sequence(plan, rollback) && j < |names| && names[j] in plan.ids
    requires Untouched(start, g, names[j..]) && Reached(g, plan, names[..j], if rollback then Original else Candidate)
    requires PositionOf(g, plan.ids[names[j]], names[j]) == if rollback then Candidate else Original
    requires Conserved(plan, start, g)
    ensures if rollback then CanRename(g.live, g.pending, names[j], plan.ids[names[j]].original.Some?)
            else CanRename(g.pending, g.live, names[j], plan.ids[names[j]].original.Some?)
    ensures Untouched(start, Swapped(g, names[j]), names[j + 1..])
    ensures Reached(Swapped(g, names[j]), plan, names[..j + 1], if rollback then Original else Candidate)
    ensures Conserved(plan, start, Swapped(g, names[j]))
    ensures PositionOf(Swapped(g, names[j]), plan.ids[names[j]], names[j]) == if rollback then Original else Candidate
  {
    hide PlanOk, Swapped, Sequence, Conserved, Untouched, Reached, PositionOf;
    StillThere(start, g, plan, names, j);
    SequenceNames(plan, rollback, j);
    SequenceDistinct(plan, rollback);
    PositionFlips(g, plan.ids[names[j]], names[j]);
    SwapConserves(start, g, plan, names[j]);
    UntouchedAfter(start, g, names, j);
    ReachedAfter(g, plan, names, j, if rollback then Original else Candidate);
  }

  lemma UntouchedAfter(start: Generations, g: Generations, names: seq<string>, j: nat)
    requires j < |names| && Untouched(start, g, names[j..])
    requires forall i, k :: 0 <= i < k < |names| ==> names[i] != names[k]
    ensures Untouched(start, Swapped(g, names[j]), names[j + 1..])
  {
    var g', n := Swapped(g, names[j]), names[j];
    SwapIsLocal(g, n);
    hide Swapped;
    forall m | m in names[j + 1..]
      ensures Id(g'.live, m) == Id(start.live, m) && Id(g'.pending, m) == Id(start.pending, m)
    {
      var i :| 0 <= i < |names[j + 1..]| && names[j + 1..][i] == m;
      assert m == names[j + 1 + i] == names[j..][i + 1];
    }
  }

  lemma ReachedAfter(g: Generations, plan: Plan, names: seq<string>, j: nat, desired: Position)
    requires j < |names| && names[j] in plan.ids && Reached(g, plan, names[..j], desired)
    requires forall i, k :: 0 <= i < k < |names| ==> names[i] != names[k]
    requires PositionOf(Swapped(g, names[j]), plan.ids[names[j]], names[j]) == desired
    ensures Reached(Swapped(g, names[j]), plan, names[..j + 1], desired)
  {
    var g', n, upto := Swapped(g, names[j]), names[j], names[..j + 1];
    SwapIsLocal(g, n);
    hide Swapped;
    forall i {:trigger upto[i]} | 0 <= i < |upto|
      ensures upto[i] in plan.ids && PositionOf(g', plan.ids[upto[i]], upto[i]) == desired
    {
      if i < j { assert names[..j][i] == upto[i] == names[i] != n; }
    }
  }

  /** The boundary between the two generations moves by one name. */
  lemma PrefixMoves(g: Generations, plan: Plan, names: seq<string>, j: nat, rollback: bool, k: int)
    requires PlanOk(plan) && names == Sequence(plan, rollback) && j < |names| && names[j] in plan.ids
    requires Reached(g, plan, names[..j], if rollback then Original else Candidate)
    requires PositionOf(g, plan.ids[names[j]], names[j]) == if rollback then Candidate else Original
    requires AtPrefix(g, plan, k)
    ensures AtPrefix(Swapped(g, names[j]), plan, if rollback then k - 1 else k + 1)
  {
    var g', n, size := Swapped(g, names[j]), names[j], |plan.order|;
    var at := if rollback then size - 1 - j else j;
    BoundaryIsHere(g, plan, names, j, rollback, k);
    SequenceNames(plan, rollback, j);
    SwapIsLocal(g, n);
    PositionFlips(g, plan.ids[n], n);
    hide PlanOk, Swapped, Sequence, Reached;
    forall i | 0 <= i < size && i != at
      ensures PositionOf(g', plan.ids[plan.order[i]], plan.order[i])
        == PositionOf(g, plan.ids[plan.order[i]], plan.order[i])
    {
      assert plan.order[i] != n;
    }
  }

  /** The next name to be renamed is the one at the boundary. */
  lemma BoundaryIsHere(g: Generations, plan: Plan, names: seq<string>, j: nat, rollback: bool, k: int)
    requires PlanOk(plan) && names == Sequence(plan, rollback) && j < |names| && names[j] in plan.ids
    requires Reached(g, plan, names[..j], if rollback then Original else Candidate)
    requires PositionOf(g, plan.ids[names[j]], names[j]) == if rollback then Candidate else Original
    requires AtPrefix(g, plan, k)
    ensures var size := |plan.order|;
      var at := if rollback then size - 1 - j else j;
      && 0 <= at < size && plan.order[at] == names[j] && k == (if rollback then at + 1 else at)
      && forall i :: 0 <= i < size && i != at ==> plan.order[i] != names[j]
  {
    hide PositionOf;
    var at := if rollback then |plan.order| - 1 - j else j;
    assert plan.order[at] == names[j];
    if j > 0 {
      var previous := if rollback then at + 1 else at - 1;
      assert names[..j][j - 1] == names[j - 1] == plan.order[previous];
    }
  }

  lemma AllReached(g: Generations, plan: Plan, names: seq<string>, rollback: bool)
    requires PlanOk(plan) && names == Sequence(plan, rollback)
    requires Reached(g, plan, names[..|names|], if rollback then Original else Candidate)
    ensures AtPrefix(g, plan, if rollback then 0 else |plan.order|)
  {
    assert names[..|names|] == names;
    forall i | 0 <= i < |plan.order|
      ensures PositionOf(g, plan.ids[plan.order[i]], plan.order[i]) == if rollback then Original else Candidate
    {
      assert plan.order[i] == names[if rollback then |names| - 1 - i else i];
    }
  }

  function Reversed(s: seq<string>): (r: seq<string>)
    ensures |r| == |s| && forall i :: 0 <= i < |s| ==> r[i] == s[|s| - 1 - i]
  {
    if s == [] then [] else Reversed(s[1..]) + [s[0]]
  }

  /** The order of the exchange; a rollback goes through it backwards. */
  function Sequence(plan: Plan, rollback: bool): seq<string> {
    if rollback then Reversed(plan.order) else plan.order
  }

  predicate Checked(g: Generations, plan: Plan, n: string, rollback: bool)
    requires n in plan.ids
  {
    var position := PositionOf(g, plan.ids[n], n);
    var (home, away) := if position == Original then (g.live, g.pending) else (g.pending, g.live);
    && position != Unknown
    && (!rollback ==> ContentIs(g, away, n, plan.newContents))
    && (plan.ids[n].original.Some? ==> ContentIs(g, home, n, plan.oldContents))
  }

  /** What must hold before anything is renamed. */
  ghost predicate Admissible(g: Generations, plan: Plan, rollback: bool, sameCredentials: bool) {
    && !g.restored
    && (forall n :: n in plan.ids ==> Checked(g, plan, n, rollback))
    && (rollback && "data" in plan.ids && PositionOf(g, plan.ids["data"], "data") == Candidate ==> sameCredentials)
  }

  /** When a call can complete: the marker of a forward exchange is written once only. */
  ghost predicate Completes(g: Generations, plan: Plan, rollback: bool, sameCredentials: bool) {
    Admissible(g, plan, rollback, sameCredentials) && (rollback || !g.applied)
  }

  /** Every planned name is live with exactly the recorded content; a name the original never had
      is not live after a rollback. */
  ghost predicate Installed(g: Generations, plan: Plan, rollback: bool) {
    forall n :: n in plan.ids ==> InstalledName(g, plan, n, rollback)
  }

  function Marked(g: Generations, rollback: bool): Generations {
    if rollback then g.(restored := true) else g.(applied := true)
  }

  /** How many names have anything to be read back. */
  function Expected(names: seq<string>, expected: Listing): nat {
    if names == [] then 0
    else Expected(names[..|names| - 1], expected) + if Selected(expected, names[|names| - 1]) != map[] then 1 else 0
  }

  lemma NothingExpected(names: seq<string>, expected: Listing)
    requires names == []
    ensures Expected(names, expected) == 0
  {
  }

  lemma {:induction false} ExpectedSplit(names: seq<string>, j: nat, expected: Listing)
    requires j < |names|
    ensures Expected(names[..j + 1], expected) ==
      Expected(names[..j], expected) + if Selected(expected, names[j]) != map[] then 1 else 0
    ensures Expected(names[..j + 1], expected) <= Expected(names, expected)
    decreases |names| - j
  {
    assert names[..j + 1][..j] == names[..j];
    if j + 1 < |names| {
      ExpectedSplit(names, j + 1, expected);
    } else {
      assert names[..j + 1] == names;
    }
  }

  function ReadbackSteps(plan: Plan, rollback: bool): nat {
    Expected(Sequence(plan, rollback), if rollback then plan.oldContents else plan.newContents)
  }

  /** What the final readback looks at. */
  ghost predicate LiveAsExpected(g: Generations, plan: Plan, rollback: bool) {
    var expected := if rollback then plan.oldContents else plan.newContents;
    forall n :: n in plan.ids && Selected(expected, n) != map[] ==> ContentIs(g, g.live, n, expected)
  }

  /** Why a call on which no step fails is refused. */
  ghost function Reason(g: Generations, plan: Plan, rollback: bool, sameCredentials: bool): Option<Refusal> {
    if g.restored then Some(CutoverExists)
    else if exists n :: n in plan.ids && !Checked(g, plan, n, rollback) then Some(CutoverChanged)
    else if !Admissible(g, plan, rollback, sameCredentials) then Some(CredentialsChanged)
    else if !rollback && g.applied then Some(CutoverIo)
    else None
  }

  lemma ReasonMeans(g: Generations, plan: Plan, rollback: bool, sameCredentials: bool)
    ensures Admissible(g, plan, rollback, sameCredentials) ==>
      && !g.restored && (forall n :: n in plan.ids ==> Checked(g, plan, n, rollback))
      && Reason(g, plan, rollback, sameCredentials) == if !rollback && g.applied then Some(CutoverIo) else None
    ensures Completes(g, plan, rollback, sameCredentials) <==> Reason(g, plan, rollback, sameCredentials) == None
    ensures Completes(g, plan, rollback, sameCredentials) <==>
      Admissible(g, plan, rollback, sameCredentials) && (rollback || !g.applied)
  {
    hide Checked;
  }

  // ----------------------------------------------------------------------------------------
  // The parts of Exchange

  lemma NoEffect(plan: Plan, rollback: bool, g: Generations)
    ensures Effect(plan, rollback, g, g, 0, false)
  {
  }

  lemma EveryName(plan: Plan, rollback: bool)
    requires PlanOk(plan)
    ensures forall i :: 0 <= i < |Sequence(plan, rollback)| ==> Sequence(plan, rollback)[i] in plan.ids
    ensures forall n :: n in plan.ids ==>
      exists i :: 0 <= i < |Sequence(plan, rollback)| && Sequence(plan, rollback)[i] == n
  {
    forall n | n in plan.ids
      ensures exists i :: 0 <= i < |Sequence(plan, rollback)| && Sequence(plan, rollback)[i] == n
    {
      var i :| 0 <= i < |plan.order| && plan.order[i] == n;
      assert Sequence(plan, rollback)[if rollback then |plan.order| - 1 - i else i] == n;
    }
  }

  lemma CheckedIsKnown(g: Generations, plan: Plan, rollback: bool)
    requires forall n :: n in plan.ids ==> Checked(g, plan, n, rollback)
    ensures AllKnown(g, plan)
  {
    hide ContentIs, PositionOf;
  }

  lemma MovedEffect(plan: Plan, rollback: bool, g: Generations, g': Generations, moved: nat)
    requires Progress(plan, g, g', rollback, moved) && !g.restored
    ensures Effect(plan, rollback, g, g', moved, false)
  {
    hide AtPrefix, Conserved;
  }

  lemma MarkedEffect(plan: Plan, rollback: bool, g: Generations, g': Generations, moved: nat, ok: bool)
    requires Progress(plan, g, g', rollback, moved) && !g.restored
    requires AtPrefix(g', plan, if rollback then 0 else |plan.order|)
    requires Installed(g', plan, rollback)
    ensures var marked := Marked(g', rollback);
      Effect(plan, rollback, g, marked, moved, ok) && Installed(marked, plan, rollback)
  {
    var marked := Marked(g', rollback);
    assert forall k :: AtPrefix(g', plan, k) ==> AtPrefix(marked, plan, k);
    assert Conserved(plan, g, marked);
    forall n | n in plan.ids
      && (ContentIs(g', g'.live, n, plan.oldContents) || ContentIs(g', g'.live, n, plan.newContents))
      ensures ContentIs(g', g'.live, n, plan.oldContents) ==> ContentIs(marked, marked.live, n, plan.oldContents)
      ensures ContentIs(g', g'.live, n, plan.newContents) ==> ContentIs(marked, marked.live, n, plan.newContents)
    {
    }
    hide AtPrefix, Conserved, ContentIs;
  }

  /** What was checked where it was is now live: contents travel with their entries. */
  lemma InstalledAfter(plan: Plan, rollback: bool, g: Generations, g': Generations, moved: nat)
    requires PlanOk(plan) && Progress(plan, g, g', rollback, moved)
    requires AtPrefix(g', plan, if rollback then 0 else |plan.order|)
    requires forall n :: n in plan.ids ==> Checked(g, plan, n, rollback)
    ensures Installed(g', plan, rollback)
    ensures LiveAsExpected(g', plan, rollback)
  {
    hide ContentIs, Selected, PositionOf, AtPrefix, Conserved, Checked;
    forall n | n in plan.ids
      ensures InstalledName(g', plan, n, rollback)
    {
      NameInstalled(plan, rollback, g, g', n);
    }
  }

  ghost predicate InstalledName(g: Generations, plan: Plan, n: string, rollback: bool)
    requires n in plan.ids
  {
    if rollback then
      && Id(g.live, n) == plan.ids[n].original
      && Id(g.pending, n) == Some(plan.ids[n].candidate)
      && (plan.ids[n].original.Some? ==> ContentIs(g, g.live, n, plan.oldContents))
    else
      && Id(g.live, n) == Some(plan.ids[n].candidate)
      && Id(g.pending, n) == plan.ids[n].original
      && ContentIs(g, g.live, n, plan.newContents)
  }

  lemma NameInstalled(plan: Plan, rollback: bool, g: Generations, g': Generations, n: string)
    requires PlanOk(plan) && Conserved(plan, g, g') && n in plan.ids && Checked(g, plan, n, rollback)
    requires AtPrefix(g', plan, if rollback then 0 else |plan.order|)
    ensures InstalledName(g', plan, n, rollback)
  {
    hide Selected;
    var i :| 0 <= i < |plan.order| && plan.order[i] == n;
    assert PositionOf(g', plan.ids[plan.order[i]], plan.order[i]) == if rollback then Original else Candidate;
  }
}
