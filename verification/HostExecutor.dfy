/** The trusted host adapter: containers, the enrollment file, the file generations, and what the
    adapter remembers between the actions of one update. Every outside step has a fate; a crash is
    a failure that nobody handles. */
module HostExecutor {
  import opened Protocol
  import opened Trees
  import C = Cutover
  import opened CutoverLaws
  import T = Transaction

  type ContainerId = nat

  datatype Role = LiveRole | RestoredRole | OtherRole

  datatype Container = Container(image: string, running: bool, request: string, role: Role)

  /** The enrolled installation. */
  datatype Policy = Policy(containerId: ContainerId, image: string, version: Version, config: string)

  /** What an update was built from: the archive, the image, and the top-level entries of the
      staged release as they are to be installed. */
  datatype Built = Built(archive: string, image: string, release: map<string, Tree>)

  datatype Snapshot = Snapshot(version: Version, manifest: string)

  /** Everything an action can read or change, as a value. `base` is the file generation that was
      live when the update was first found feasible, `enrolled` the policy at that moment, and
      `prepared` the two generations side by side before the first rename. */
  datatype Host = Host(
    containers: map<ContainerId, Container>, enrollment: Policy, gen: C.Generations,
    activePlan: Option<T.Plan>, original: Policy, built: Option<Built>, backup: Option<Snapshot>,
    cutover: Option<C.Plan>, liveId: Option<ContainerId>, livePolicy: Option<Policy>,
    oldRemoveRequested: bool, restorePolicy: Policy,
    enrolled: Policy, base: C.Generations, prepared: C.Generations)

  // ----------------------------------------------------------------------------------------
  // The invariant of an update under way

  ghost predicate KeptTrees(a: C.Generations, b: C.Generations) {
    forall i :: i in a.trees ==> i in b.trees && b.trees[i] == a.trees[i]
  }

  ghost predicate FreshIds(cp: C.Plan, base: C.Generations) {
    forall n :: n in cp.ids ==> cp.ids[n].candidate !in base.trees
  }

  /** Before an exchange is prepared the live files are untouched; afterwards they are in a state
      that a run of exchanges can reach. */
  ghost predicate FilesOk(base: C.Generations, prepared: C.Generations, cutover: Option<C.Plan>, gen: C.Generations) {
    match cutover
    case None => gen.live == base.live && KeptTrees(base, gen)
    case Some(cp) =>
      && C.PlanOk(cp) && C.AtPrefix(prepared, cp, 0) && prepared.live == base.live
      && KeptTrees(base, prepared) && FreshIds(cp, base) && Safe(cp, prepared, gen)
      && "data" in cp.ids && Recorded(cp, prepared)
  }

  /** The originals of a plan are what it says they are, and none of them is a new entry. */
  ghost predicate Recorded(cp: C.Plan, prepared: C.Generations) {
    forall n :: n in cp.ids && cp.ids[n].original.Some? ==>
      !IsCandidate(cp, cp.ids[n].original.value) && C.ContentIs(prepared, prepared.live, n, cp.oldContents)
  }

  predicate IsCandidateContainer(c: Container, id: string) {
    c.role == LiveRole && c.request == id
  }

  ghost predicate NoCandidate(containers: map<ContainerId, Container>, plan: T.Plan) {
    forall c :: c in containers && IsCandidateContainer(containers[c], plan.id) ==> !containers[c].running
  }

  /** Only the remembered candidate can be running, and the original container is there unless
      its removal was requested. */
  ghost predicate DockerOk(containers: map<ContainerId, Container>, original: Policy,
                           liveId: Option<ContainerId>, oldRemoveRequested: bool, id: string) {
    && (forall c :: c in containers && IsCandidateContainer(containers[c], id) && containers[c].running ==>
          liveId == Some(c))
    && (!oldRemoveRequested ==> original.containerId in containers)
    && (original.containerId in containers ==>
          && containers[original.containerId].image == original.image
          && !IsCandidateContainer(containers[original.containerId], id))
    && liveId != Some(original.containerId)
  }

  /** The remembered candidate container is there, and ours. */
  ghost predicate Owns(h: Host, plan: T.Plan) {
    h.liveId.Some? ==>
      && h.built.Some? && h.liveId.value in h.containers
      && h.containers[h.liveId.value].image == h.built.value.image
      && IsCandidateContainer(h.containers[h.liveId.value], plan.id)
  }

  ghost predicate MemoryOk(h: Host, plan: T.Plan) {
    && h.activePlan == Some(plan)
    && h.original == h.enrolled && h.original.version == plan.current
    && h.restorePolicy == h.original
    && (h.liveId.Some? ==> h.built.Some? && h.cutover.Some?)
    && (h.livePolicy.Some? ==>
          && h.liveId == Some(h.livePolicy.value.containerId)
          && h.livePolicy.value.image == h.built.value.image && h.livePolicy.value.version == plan.target)
    && (h.oldRemoveRequested ==> h.livePolicy.Some?)
    && (h.backup.Some? ==> h.backup.value.version == plan.current)
    && (h.enrollment == h.original || Some(h.enrollment) == h.livePolicy)
  }

  predicate Up(containers: map<ContainerId, Container>, id: ContainerId) {
    id in containers && containers[id].running
  }

  /** The original container, or the one recreated in its place, is running. */
  predicate OriginalRuns(h: Host) {
    Up(h.containers, h.original.containerId) || Up(h.containers, h.restorePolicy.containerId)
  }

  /** Both generations are mounted at the live data directory. Once an exchange is prepared the
      original is down, and the candidate is up only while the live data is its own. */
  ghost predicate WritersOk(h: Host, plan: T.Plan) {
    h.cutover.Some? ==>
      && !OriginalRuns(h)
      && (!NoCandidate(h.containers, plan) ==>
            "data" in h.cutover.value.ids && C.Id(h.gen.live, "data") == Some(h.cutover.value.ids["data"].candidate))
  }

  /** What hangs at a name of the live directory. */
  function Live(g: C.Generations, n: string): Option<Tree> {
    if n in g.live && g.live[n] in g.trees then Some(g.trees[g.live[n]]) else None
  }

  /** What every action keeps, however it ends: from here the original can be put back. */
  ghost predicate Ready(h: Host, plan: T.Plan) {
    && MemoryOk(h, plan)
    && DockerOk(h.containers, h.original, h.liveId, h.oldRemoveRequested, plan.id)
    && FilesOk(h.base, h.prepared, h.cutover, h.gen)
    && WritersOk(h, plan) && Owns(h, plan)
  }

  /** No rollback of this update has been completed. */
  ghost predicate Reversible(h: Host) {
    h.cutover.Some? ==> !h.gen.restored
  }

  /** Nothing of this update has touched the host yet. */
  ghost predicate Untouched(h: Host, plan: T.Plan) {
    && Ready(h, plan)
    && h.backup.None? && h.cutover.None? && h.liveId.None? && h.livePolicy.None? && !h.oldRemoveRequested
    && h.enrollment == h.original && h.restorePolicy == h.original
  }

  ghost predicate Running(h: Host, id: ContainerId, image: string) {
    id in h.containers && h.containers[id].running && h.containers[id].image == image
  }

  /** The plan names exactly the entries of the release, the data and the environment, and the live
      entries of the release are those that were built from, apart from the data. */
  ghost predicate Deployed(built: Option<Built>, cutover: Option<C.Plan>, gen: C.Generations) {
    && built.Some? && cutover.Some? && "data" in cutover.value.ids
    && cutover.value.ids.Keys == built.value.release.Keys + {"data", ".env"}
    && (forall n :: n in built.value.release ==>
          && Live(gen, n) == Some(built.value.release[n])
          && n != "data" && C.Id(gen.live, n) != C.Id(gen.live, "data"))
  }

  /** The candidate has been installed and its container asked to start. */
  ghost predicate CandidateStarted(h: Host, plan: T.Plan) {
    && Ready(h, plan) && Deployed(h.built, h.cutover, h.gen)
    && h.cutover.Some? && C.AtPrefix(h.gen, h.cutover.value, |h.cutover.value.order|)
    && h.livePolicy.Some? && h.enrollment == h.original && !h.oldRemoveRequested
  }

  /** The update is complete on the host: every planned entry is the candidate's, the enrollment
      names the candidate container, which runs the built image, and the original container is
      gone; the original generation is retained. */
  ghost predicate Updated(h: Host, plan: T.Plan) {
    && Ready(h, plan) && Deployed(h.built, h.cutover, h.gen)
    && h.cutover.Some? && C.AtPrefix(h.gen, h.cutover.value, |h.cutover.value.order|)
    && h.livePolicy.Some? && h.enrollment == h.livePolicy.value && h.enrollment.version == plan.target
    && Running(h, h.enrollment.containerId, h.enrollment.image)
    && h.enrolled.containerId !in h.containers
  }

  /** The original files and enrollment are back, up to the identity of the container. */
  ghost predicate PutBack(h: Host, plan: T.Plan) {
    && h.activePlan == Some(plan)
    && h.gen.live == h.base.live && KeptTrees(h.base, h.gen)
    && h.enrollment == h.restorePolicy == h.enrolled.(containerId := h.enrollment.containerId)
    && h.enrollment.containerId in h.containers && h.containers[h.enrollment.containerId].image == h.enrolled.image
    && (h.liveId.Some? ==> h.built.Some? && h.liveId.value != h.enrollment.containerId)
    && NoCandidate(h.containers, plan)
  }

  /** The original is back and was started; the candidate's container is still there to be removed. */
  ghost predicate Reinstated(h: Host, plan: T.Plan) {
    PutBack(h, plan) && Running(h, h.enrollment.containerId, h.enrolled.image) && Owns(h, plan)
  }

  /** The original is back and runs. */
  ghost predicate RestoredOk(h: Host, plan: T.Plan) {
    && PutBack(h, plan)
    && Running(h, h.enrollment.containerId, h.enrolled.image)
    && (h.liveId.Some? ==> h.liveId.value !in h.containers)
  }

  /** Every original entry is live or set aside, with its content. */
  ghost predicate OriginalsKept(base: C.Generations, gen: C.Generations) {
    && KeptTrees(base, gen)
    && forall n :: n in base.live ==>
         C.Id(gen.live, n) == Some(base.live[n]) || C.Id(gen.pending, n) == Some(base.live[n])
  }

  /** What holds even when putting the original back fails: every original entry is preserved, and
      whatever still runs writes to its own generation only. */
  ghost predicate Kept(h: Host, plan: T.Plan) {
    && OriginalsKept(h.base, h.gen)
    && (OriginalRuns(h) ==> h.gen.live == h.base.live)
    && (!NoCandidate(h.containers, plan) ==>
          h.gen.live != h.base.live && "data" in h.gen.live && h.gen.live["data"] !in h.base.trees)
  }

  /** No container is ever labelled as the candidate of any other update. */
  ghost predicate Claims(before: map<ContainerId, Container>, after: map<ContainerId, Container>, id: string) {
    forall c :: c in after && after[c].role == LiveRole && after[c].request != id ==>
      c in before && before[c].role == LiveRole && before[c].request == after[c].request
  }

  lemma FilesOkKeepsOriginals(base: C.Generations, prepared: C.Generations, cutover: Option<C.Plan>, gen: C.Generations)
    requires FilesOk(base, prepared, cutover, gen)
    ensures OriginalsKept(base, gen)
  {
    hide C.PlanOk, C.AtPrefix;
    match cutover
    case None =>
      forall n | n in base.live ensures C.Id(gen.live, n) == Some(base.live[n]) { assert n in gen.live; }
    case Some(cp) =>
      forall i | i in base.trees ensures i in gen.trees && gen.trees[i] == base.trees[i] {
        assert i in prepared.trees && !IsCandidate(cp, i);
      }
      forall n | n in base.live
        ensures C.Id(gen.live, n) == Some(base.live[n]) || C.Id(gen.pending, n) == Some(base.live[n])
      {
        assert C.Id(prepared.live, n) == Some(base.live[n]);
        assert C.Conserved(cp, prepared, gen.(trees := prepared.trees));
      }
  }

  lemma ReadyIsKept(h: Host, plan: T.Plan)
    requires Ready(h, plan)
    ensures Kept(h, plan)
  {
    FilesOkKeepsOriginals(h.base, h.prepared, h.cutover, h.gen);
    hide KeptTrees, MemoryOk, Safe;
    if h.cutover.Some? && !NoCandidate(h.containers, plan) {
      DataMoved(h.base, h.prepared, h.cutover.value, h.gen);
    }
  }

  /** When the live data is the candidate's, it is no original entry. */
  lemma DataMoved(base: C.Generations, prepared: C.Generations, cp: C.Plan, gen: C.Generations)
    requires FilesOk(base, prepared, Some(cp), gen)
    requires "data" in cp.ids && C.Id(gen.live, "data") == Some(cp.ids["data"].candidate)
    ensures gen.live != base.live && "data" in gen.live && gen.live["data"] !in base.trees
  {
    hide Safe, KeptTrees;
    var i :| 0 <= i < |cp.order| && cp.order[i] == "data";
    assert C.PositionOf(prepared, cp.ids[cp.order[i]], cp.order[i]) == C.Original;
    assert C.Id(prepared.live, "data") == cp.ids["data"].original;
  }

  lemma ExchangeKeepsFiles(base: C.Generations, prepared: C.Generations, cp: C.Plan, rollback: bool,
                           g: C.Generations, g': C.Generations, moved: nat, ok: bool)
    requires FilesOk(base, prepared, Some(cp), g) && C.Effect(cp, rollback, g, g', moved, ok)
    ensures FilesOk(base, prepared, Some(cp), g')
  {
    hide C.PlanOk, C.AtPrefix, Safe, C.Effect;
    EffectIsSafe(cp, prepared, g, g', rollback, moved, ok);
  }

  /** A completed rollback has put back exactly the base generation. */
  lemma RolledBackFiles(base: C.Generations, prepared: C.Generations, cp: C.Plan, g: C.Generations)
    requires FilesOk(base, prepared, Some(cp), g) && C.AtPrefix(g, cp, 0)
    ensures g.live == base.live && KeptTrees(base, g)
  {
    FilesOkKeepsOriginals(base, prepared, Some(cp), g);
    forall n ensures C.Id(g.live, n) == C.Id(prepared.live, n) {
      if n in cp.ids {
        var i :| 0 <= i < |cp.order| && cp.order[i] == n;
        assert C.PositionOf(g, cp.ids[cp.order[i]], cp.order[i]) == C.Original;
        assert C.PositionOf(prepared, cp.ids[cp.order[i]], cp.order[i]) == C.Original;
      } else {
        assert C.Conserved(cp, prepared, g.(trees := prepared.trees));
      }
    }
    SameDirectory(g.live, prepared.live);
  }

  lemma MutationKeepsFiles(base: C.Generations, prepared: C.Generations, cp: C.Plan, g: C.Generations,
                           g': C.Generations)
    requires FilesOk(base, prepared, Some(cp), g) && Mutates(cp, g, g')
    ensures FilesOk(base, prepared, Some(cp), g')
  {
    hide C.AtPrefix, Safe;
    StepIsSafe(cp, prepared, g, g');
  }

  // ----------------------------------------------------------------------------------------
  // The contract of the actions

  /** The backup is taken, nothing else has changed since the stop. */
  ghost predicate ReadyToStart(h: Host, plan: T.Plan) {
    && Ready(h, plan)
    && h.cutover.None? && h.liveId.None? && h.livePolicy.None? && !h.oldRemoveRequested && h.enrollment == h.original
    && !OriginalRuns(h)
  }

  /** No earlier update of the same name has left anything behind. */
  ghost predicate Unknown(h: Host, plan: T.Plan) {
    h.activePlan != Some(plan) && NoCandidate(h.containers, plan)
  }

  /** The situations in which the runner invokes an action. */
  ghost predicate Entered(action: T.Action, h: Host) {
    match action
    case CurrentVersion => true
    case Preflight(_) => true
    case PrepareCandidate(plan) => Untouched(h, plan)
    case StopOriginal(plan) => Untouched(h, plan)
    case BackupOriginal(plan) => Untouched(h, plan) && !OriginalRuns(h)
    case StartCandidate(plan, candidate, receipt) => ReadyToStart(h, plan) && candidate.Some? && receipt.Some?
    case VerifyCandidate(plan) => CandidateStarted(h, plan) && Reversible(h)
    case RestoreOriginal(plan, _, _) => Ready(h, plan) && Reversible(h)
    case CheckOriginal(plan) => Reinstated(h, plan)
  }

  /** What an action guarantees: what a normal return means, and what holds however it ends. */
  ghost predicate Contract(action: T.Action, h: Host, a: T.Answer, h': Host) {
    match action
    case CurrentVersion => h' == h
    case Preflight(plan) =>
      && h'.containers == h.containers && h'.enrollment == h.enrollment && h'.gen == h.gen
      && h'.activePlan in {h.activePlan, Some(plan)}
      && (h.activePlan == Some(plan) ==> h' == h)
      && (a.Returned? && Unknown(h, plan) ==> Untouched(h', plan) && h'.enrolled == h.enrollment && h'.base == h.gen)
    case PrepareCandidate(plan) => Untouched(h', plan) && h' == h.(built := h'.built)
    case StopOriginal(plan) =>
      Untouched(h', plan) && h' == h.(containers := h'.containers) && Claims(h.containers, h'.containers, plan.id)
      && (a.Returned? ==> !OriginalRuns(h'))
    case BackupOriginal(plan) =>
      && ReadyToStart(h', plan) && h' == h.(backup := h'.backup)
      && (a.Returned? && a.value.ABackup? ==> Matches(a.value.backup, h', plan))
    case StartCandidate(plan, candidate, _) =>
      && Ready(h', plan) && Carried(h, h', plan) && Reversible(h')
      && (a.Returned? ==> CandidateStarted(h', plan) && BuiltFrom(h', candidate))
      && (a.Returned? || !NoCandidate(h'.containers, plan) ==>
            Inherits(h.gen, h'.gen) && Deployed(h'.built, h'.cutover, h'.gen))
    case VerifyCandidate(plan) =>
      && Ready(h', plan) && Carried(h, h', plan) && Reversible(h')
      && (a.Returned? ==> Updated(h', plan))
    case RestoreOriginal(plan, _, _) =>
      && Kept(h', plan) && Carried(h, h', plan)
      && (a.Returned? ==> Reinstated(h', plan))
    case CheckOriginal(plan) =>
      && Kept(h', plan) && Carried(h, h', plan)
      && (a.Returned? ==> RestoredOk(h', plan))
  }

  /** What the two actions of a rollback need, apart from an outside world that does its part. */
  ghost predicate Able(action: T.Action, h: Host, sameCredentials: bool) {
    match action
    case RestoreOriginal(plan, receipt, _) => RestorePossible(h, plan, receipt, sameCredentials)
    case CheckOriginal(_) => true
    case _ => false
  }

  /** The contract, when no step outside fails. */
  ghost predicate Performs(action: T.Action, h: Host, sameCredentials: bool, a: T.Answer, h': Host) {
    Contract(action, h, a, h') && (Able(action, h, sameCredentials) ==> a.Returned?)
  }

  /** A receipt that names the snapshot the adapter took. */
  predicate Matches(receipt: T.Backup, h: Host, plan: T.Plan) {
    h.backup.Some? && receipt == T.Backup(plan.id, plan.current, h.backup.value.manifest)
  }

  /** The image was built from the archive that this receipt names. */
  predicate BuiltFrom(h: Host, candidate: Option<T.Candidate>) {
    candidate.Some? && h.built.Some? && candidate.value.archive == h.built.value.archive
  }

  /** What a candidate finds when it is started: the data and the environment of the original. */
  predicate Inherits(g: C.Generations, g': C.Generations) {
    && Live(g, "data").Some? && Live(g', "data") == Live(g, "data")
    && Live(g, ".env").Some? && Live(g', ".env") == Live(g, ".env")
  }

  /** What the invasive actions of an update leave alone. */
  ghost predicate Carried(h: Host, h': Host, plan: T.Plan) {
    && h'.base == h.base && h'.enrolled == h.enrolled && h'.backup == h.backup && h'.activePlan == h.activePlan
    && h'.built == h.built
    && Claims(h.containers, h'.containers, plan.id)
  }

  // ----------------------------------------------------------------------------------------
  // Preparing an exchange

  /** The new generation as it was copied: fresh entries, each with its tree. The data and the
      environment are those that are live, the others are the release, and what is replaced could
      be read. */
  datatype Offer = Offer(order: seq<string>, pending: map<string, C.Inode>, trees: map<C.Inode, Tree>)

  predicate OfferOk(o: Offer, g: C.Generations, release: map<string, Tree>) {
    && (forall i, k :: 0 <= i < k < |o.order| ==> o.order[i] != o.order[k])
    && (forall n :: n in o.pending ==> n in o.order)
    && (forall n :: n in o.order ==> n in o.pending)
    && (forall n :: n in o.pending ==>
          o.pending[n] in o.trees && o.pending[n] !in g.trees && o.pending[n] !in g.live.Values)
    && (forall i :: i in o.trees ==> i !in g.trees)
    && (forall n :: n in o.order && n in g.live ==> g.live[n] in g.trees)
    && CopiedOver(o, g, "data") && CopiedOver(o, g, ".env")
    && (set n | n in o.order) == release.Keys + {"data", ".env"}
    && (forall n :: n in release ==> n !in {"data", ".env"} && n in o.pending
                                     && o.pending[n] in o.trees && o.trees[o.pending[n]] == release[n])
    && (forall n :: n in o.pending && n != "data" ==> o.pending[n] != o.pending["data"])
  }

  predicate CopiedOver(o: Offer, g: C.Generations, n: string) {
    n in o.pending && o.pending[n] in o.trees && Live(g, n) == Some(o.trees[o.pending[n]])
  }

  /** The listings of the given names of a directory, together. */
  function Contents(order: seq<string>, dir: map<string, C.Inode>, trees: map<C.Inode, Tree>): Listing {
    if order == [] then map[]
    else Contents(order[1..], dir, trees)
         + (if order[0] in dir && dir[order[0]] in trees then List([order[0]], trees[dir[order[0]]]) else map[])
  }

  lemma {:induction false} ContentsSelected(order: seq<string>, dir: map<string, C.Inode>, trees: map<C.Inode, Tree>,
                                            n: string)
    requires forall i, k :: 0 <= i < k < |order| ==> order[i] != order[k]
    ensures C.Selected(Contents(order, dir, trees), n) ==
      if n in order && n in dir && dir[n] in trees then List([n], trees[dir[n]]) else map[]
  {
    if order != [] {
      var m, rest := order[0], Contents(order[1..], dir, trees);
      ContentsSelected(order[1..], dir, trees, n);
      assert n in order <==> n == m || n in order[1..];
      if m in dir && dir[m] in trees {
        var here := List([m], trees[dir[m]]);
        forall p | p in here ensures p != [] && p[0] == m { ListBelow([m], trees[dir[m]], p); }
        SelectedPlus(rest, here, n, m);
      }
    }
  }

  lemma SelectedPlus(a: Listing, b: Listing, n: string, m: string)
    requires forall p :: p in b ==> p != [] && p[0] == m
    ensures C.Selected(a + b, n) == C.Selected(a, n) + if n == m then b else map[]
  {
  }

  function PlanFor(o: Offer, g: C.Generations): C.Plan {
    C.Plan(o.order,
           map n | n in o.pending :: C.Ids(C.Id(g.live, n), o.pending[n]),
           Contents(o.order, g.live, g.trees),
           Contents(o.order, o.pending, o.trees))
  }

  function Beside(o: Offer, g: C.Generations): C.Generations {
    C.Generations(g.live, o.pending, g.trees + o.trees, false, false)
  }

  lemma PlanContents(o: Offer, g: C.Generations, release: map<string, Tree>, n: string)
    requires OfferOk(o, g, release) && n in o.pending
    ensures C.Selected(PlanFor(o, g).oldContents, n) ==
      if n in g.live && g.live[n] in g.trees then List([n], g.trees[g.live[n]]) else map[]
    ensures C.Selected(PlanFor(o, g).newContents, n) == List([n], o.trees[o.pending[n]])
  {
    hide C.Selected, Contents;
    ContentsSelected(o.order, g.live, g.trees, n);
    ContentsSelected(o.order, o.pending, o.trees, n);
  }

  lemma PlanForOk(o: Offer, g: C.Generations, release: map<string, Tree>)
    requires OfferOk(o, g, release)
    ensures C.PlanOk(PlanFor(o, g))
  {
    hide C.Selected, Contents;
    forall n | n in o.pending && n !in g.live
      ensures C.Selected(PlanFor(o, g).oldContents, n) == map[]
    {
      PlanContents(o, g, release, n);
    }
  }

  lemma BesideIsOriginal(o: Offer, g: C.Generations, release: map<string, Tree>)
    requires OfferOk(o, g, release)
    ensures C.AtPrefix(Beside(o, g), PlanFor(o, g), 0)
    ensures forall n :: n in o.pending ==> C.PositionOf(Beside(o, g), PlanFor(o, g).ids[n], n) == C.Original
  {
    hide Contents;
  }

  lemma BesideContents(o: Offer, g: C.Generations, release: map<string, Tree>, n: string)
    requires OfferOk(o, g, release) && n in o.pending
    ensures n in PlanFor(o, g).ids && PlanFor(o, g).ids[n].original == C.Id(g.live, n)
    ensures Beside(o, g).live == g.live && Beside(o, g).pending == o.pending
    ensures C.ContentIs(Beside(o, g), o.pending, n, PlanFor(o, g).newContents)
    ensures n in g.live ==> C.ContentIs(Beside(o, g), g.live, n, PlanFor(o, g).oldContents)
  {
    PlanContents(o, g, release, n);
    hide C.Selected, Contents;
    assert n in g.live ==> g.live[n] in g.trees;
  }

  lemma BesideIsChecked(o: Offer, g: C.Generations, release: map<string, Tree>, n: string)
    requires OfferOk(o, g, release) && n in o.pending
    ensures C.Checked(Beside(o, g), PlanFor(o, g), n, false)
    ensures n in g.live ==> C.ContentIs(Beside(o, g), g.live, n, PlanFor(o, g).oldContents)
  {
    hide C.Selected, Contents, C.PositionOf, C.AtPrefix, OfferOk, PlanFor, Beside, C.ContentIs;
    BesideIsOriginal(o, g, release);
    BesideContents(o, g, release, n);
  }

  /** A prepared plan is sound: both generations are in their places, nothing live was touched,
      and the forward exchange is admissible. */
  lemma PreparedIsSound(o: Offer, g: C.Generations, release: map<string, Tree>, base: C.Generations)
    requires OfferOk(o, g, release) && g.live == base.live && KeptTrees(base, g)
    ensures FilesOk(base, Beside(o, g), Some(PlanFor(o, g)), Beside(o, g))
    ensures C.Completes(Beside(o, g), PlanFor(o, g), false, true)
    ensures Heirs(PlanFor(o, g), g, Beside(o, g)) && Stocked(PlanFor(o, g), release, Beside(o, g))
  {
    hide OfferOk, FilesOk, KeptTrees, Heirs, Stocked, C.Admissible;
    OfferHeirs(o, g, release);
    PreparedFiles(o, g, release, base);
    PreparedAdmissible(o, g, release);
  }

  lemma PreparedFiles(o: Offer, g: C.Generations, release: map<string, Tree>, base: C.Generations)
    requires OfferOk(o, g, release) && g.live == base.live && KeptTrees(base, g)
    ensures FilesOk(base, Beside(o, g), Some(PlanFor(o, g)), Beside(o, g))
  {
    hide OfferOk, PlanFor, FreshIds, KeptTrees, Recorded, C.AtPrefix, C.PlanOk;
    PlanForOk(o, g, release);
    BesideIsOriginal(o, g, release);
    OfferIsFresh(o, g, release, base);
    OfferIsRecorded(o, g, release);
    assert Safe(PlanFor(o, g), Beside(o, g), Beside(o, g));
  }

  lemma OfferIsRecorded(o: Offer, g: C.Generations, release: map<string, Tree>)
    requires OfferOk(o, g, release)
    ensures Recorded(PlanFor(o, g), Beside(o, g))
  {
    hide Contents, C.ContentIs, C.Checked;
    forall n | n in o.pending && n in g.live
      ensures C.ContentIs(Beside(o, g), g.live, n, PlanFor(o, g).oldContents) && !IsCandidate(PlanFor(o, g), g.live[n])
    {
      BesideIsChecked(o, g, release, n);
    }
  }

  lemma PreparedAdmissible(o: Offer, g: C.Generations, release: map<string, Tree>)
    requires OfferOk(o, g, release)
    ensures C.Admissible(Beside(o, g), PlanFor(o, g), false, true)
  {
    hide OfferOk, Contents, C.PositionOf, C.Checked, C.ContentIs;
    forall n | n in o.pending ensures C.Checked(Beside(o, g), PlanFor(o, g), n, false) {
      BesideIsChecked(o, g, release, n);
    }
  }

  lemma OfferIsFresh(o: Offer, g: C.Generations, release: map<string, Tree>, base: C.Generations)
    requires OfferOk(o, g, release) && KeptTrees(base, g)
    ensures KeptTrees(base, Beside(o, g)) && FreshIds(PlanFor(o, g), base)
    ensures "data" in PlanFor(o, g).ids
  {
    hide Contents;
  }

  // ----------------------------------------------------------------------------------------
  // The executor

  function Halted(containers: map<ContainerId, Container>, id: ContainerId): map<ContainerId, Container> {
    if id in containers then containers[id := containers[id].(running := false)] else containers
  }

  /** What is noted first, and what a new update starts from. */
  ghost function Rooting(h: Host, plan: T.Plan, policy: Policy): Host {
    h.(activePlan := Some(plan), original := policy, enrolled := policy, base := h.gen, prepared := h.gen)
  }

  ghost function Forgotten(h: Host, policy: Policy): Host {
    h.(built := None, backup := None, cutover := None, liveId := None, livePolicy := None,
       oldRemoveRequested := false, restorePolicy := policy)
  }

  lemma FirstFound(h: Host, plan: T.Plan)
    requires h.activePlan == Some(plan) && h.original == h.enrollment == h.restorePolicy == h.enrolled
    requires h.original.version == plan.current && Running(h, h.original.containerId, h.original.image)
    requires h.backup.None? && h.cutover.None? && h.liveId.None? && h.livePolicy.None? && !h.oldRemoveRequested
    requires h.base == h.gen && NoCandidate(h.containers, plan)
    ensures Untouched(h, plan)
  {
  }

  /** Docker has at most one more container, stopped and labelled for this update; its identity
      may be known. */
  ghost predicate AtMostOneMore(before: map<ContainerId, Container>, after: map<ContainerId, Container>,
                                image: string, request: string, role: Role, known: Option<ContainerId>) {
    || (after == before && known.None?)
    || exists c: ContainerId ::
         c !in before && after == before[c := Container(image, false, request, role)]
           && (known.None? || known == Some(c))
  }

  function Launched(containers: map<ContainerId, Container>, id: ContainerId): map<ContainerId, Container> {
    if id in containers then containers[id := containers[id].(running := true)] else containers
  }

  class ProductionExecutor {
    const files: C.Installation

    // Docker and the enrollment file.
    var containers: map<ContainerId, Container>
    var enrollment: Policy

    // What is remembered between the actions of one update.
    var activePlan: Option<T.Plan>
    var original: Policy
    var built: Option<Built>
    var backup: Option<Snapshot>
    var cutover: Option<C.Plan>
    var liveId: Option<ContainerId>
    var livePolicy: Option<Policy>
    var oldRemoveRequested: bool
    var restorePolicy: Policy

    ghost var enrolled: Policy
    ghost var base: C.Generations
    ghost var prepared: C.Generations

    // How the outside world behaves, step after step.
    const fates: nat -> Fate
    const newIds: nat -> ContainerId
    const texts: nat -> string
    const releases: nat -> map<string, Tree>
    const offers: nat -> Offer
    const polls: nat
    var tick: nat

    ghost function View(): Host
      reads this, files
    {
      Host(containers, enrollment, files.View(), activePlan, original, built, backup, cutover, liveId, livePolicy,
           oldRemoveRequested, restorePolicy, enrolled, base, prepared)
    }

    constructor (files: C.Installation, containers: map<ContainerId, Container>, enrollment: Policy,
                 fates: nat -> Fate, newIds: nat -> ContainerId, texts: nat -> string,
                 releases: nat -> map<string, Tree>, offers: nat -> Offer, polls: nat)
      ensures this.files == files && this.containers == containers && this.enrollment == enrollment
        && activePlan == None
    {
      this.files, this.containers, this.enrollment := files, containers, enrollment;
      this.fates, this.newIds, this.texts, this.releases := fates, newIds, texts, releases;
      this.offers, this.polls := offers, polls;
      activePlan, original, restorePolicy, tick := None, enrollment, enrollment, 0;
      built, backup, cutover, liveId, livePolicy, oldRemoveRequested := None, None, None, None, None, false;
      enrolled := enrollment;
    }

    ghost predicate SmoothFrom(t0: nat) {
      forall t :: t >= t0 ==> fates(t) == Smooth
    }

    /** No step failed between two moments. */
    ghost predicate Flawless(t0: nat, t1: nat) {
      forall t :: t0 <= t < t1 ==> fates(t) == Smooth
    }

    lemma SmoothIsFlawless(t0: nat, t1: nat)
      requires SmoothFrom(t0)
      ensures Flawless(t0, t1)
    {
    }

    lemma StepByStep(t: nat)
      ensures Flawless(t, t + 1) <==> fates(t) == Smooth
      ensures Flawless(t, t + 2) <==> Flawless(t, t + 1) && fates(t + 1) == Smooth
      ensures Flawless(t, t + 3) <==> Flawless(t, t + 2) && fates(t + 2) == Smooth
      ensures Flawless(t, t + 4) <==> Flawless(t, t + 3) && fates(t + 3) == Smooth
    {
      FlawlessOn(t, t + 1, t + 2);
      FlawlessOn(t, t + 2, t + 3);
      FlawlessOn(t, t + 3, t + 4);
    }

    lemma FlawlessOn(t0: nat, t1: nat, t2: nat)
      requires t0 <= t1 <= t2
      ensures Flawless(t0, t1) && Flawless(t1, t2) <==> Flawless(t0, t2)
      ensures Flawless(t0, t0)
    {
    }

    method Next() returns (f: Fate)
      modifies this`tick
      ensures f == fates(old(tick)) && tick == old(tick) + 1
    {
      f := fates(tick);
      tick := tick + 1;
    }

    /** A step that changes nothing the model tracks, or nothing at all. */
    method Works() returns (ok: bool)
      modifies this`tick
      ensures tick == old(tick) + 1
      ensures ok <==> fates(old(tick)) == Smooth
    {
      var f := Next();
      ok := f == Smooth;
    }

    // -------------------------------------------------------------- containers

    predicate IsRunning(id: ContainerId, image: string)
      reads this
    {
      id in containers && containers[id].running && containers[id].image == image
    }

    method StopContainer(id: ContainerId) returns (ok: bool)
      modifies this`containers, this`tick
      ensures containers == if fates(old(tick)) == FailsEarly then old(containers) else Halted(old(containers), id)
      ensures ok <==> fates(old(tick)) == Smooth && id in old(containers)
      ensures tick == old(tick) + 1
    {
      var f := Next();
      if id !in containers || f == FailsEarly {
        return false;
      }
      containers := Halted(containers, id);
      return f == Smooth;
    }

    method StartContainer(id: ContainerId) returns (ok: bool)
      modifies this`containers, this`tick
      ensures containers == if fates(old(tick)) == FailsEarly then old(containers) else Launched(old(containers), id)
      ensures ok <==> fates(old(tick)) == Smooth && id in old(containers)
      ensures tick == old(tick) + 1
    {
      var f := Next();
      if id !in containers || f == FailsEarly {
        return false;
      }
      containers := Launched(containers, id);
      return f == Smooth;
    }

    /** Docker refuses to remove a container that runs. */
    method RemoveContainer(id: ContainerId) returns (ok: bool)
      modifies this`containers, this`tick
      ensures var removable := id in old(containers) && !old(containers)[id].running;
        && containers == (if removable && fates(old(tick)) != FailsEarly then old(containers) - {id}
                          else old(containers))
        && (ok <==> removable && fates(old(tick)) == Smooth)
      ensures tick == old(tick) + 1
    {
      var f := Next();
      if id !in containers || containers[id].running || f == FailsEarly {
        return false;
      }
      containers := containers - {id};
      return f == Smooth;
    }

    /** Inspect a container that this update must own. */
    method Owned(id: ContainerId, image: string, role: Role, request: string) returns (ok: bool)
      modifies this`tick
      ensures ok <==> fates(old(tick)) == Smooth && IsOwned(id, image, role, request)
      ensures tick == old(tick) + 1
    {
      var f := Works();
      ok := f && id in containers && containers[id].image == image
            && containers[id].role == role && containers[id].request == request;
    }

    predicate IsOwned(id: ContainerId, image: string, role: Role, request: string)
      reads this
    {
      id in containers && containers[id].image == image && containers[id].role == role
        && containers[id].request == request
    }

    // Every poll inspects the container first and then runs the probe in it.

    ghost function Inspection(t: nat, poll: nat): Fate {
      fates(t + 2 * poll)
    }

    ghost function Probe(t: nat, poll: nat): Fate {
      fates(t + 2 * poll + 1)
    }

    /** This many polls after `t` are inspected, and not answered. */
    ghost predicate Silent(t: nat, polled: nat) {
      forall j: nat :: j < polled ==> Inspection(t, j) == Smooth && Probe(t, j) == FailsEarly
    }

    /** Some poll after `t` is the first that is answered, at the moment `t'`. */
    ghost predicate Heard(t: nat, t': nat) {
      exists k: nat :: k < polls && HeardAt(t, k) && t' == t + 2 * k + 2
    }

    ghost predicate HeardAt(t: nat, k: nat) {
      Silent(t, k) && Inspection(t, k) == Smooth && Probe(t, k) == Smooth
    }

    lemma HeardLater(t: nat, t': nat, polled: nat)
      requires Silent(t, polled) && polled < polls && Heard(t, t')
      ensures Inspection(t, polled) == Smooth && Probe(t, polled) != FailsLate
    {
    }

    lemma NeverHeard(t: nat)
      requires Silent(t, polls)
      ensures forall t' :: !Heard(t, t')
    {
    }

    /** There is only one first answer. */
    lemma HeardUniquely(t: nat)
      ensures forall a, b :: Heard(t, a) && Heard(t, b) ==> a == b
    {
      forall k: nat, m: nat | HeardAt(t, k) && HeardAt(t, m) ensures k == m {
        assert !(k < m) && !(m < k);
      }
    }

    /** The polling loop: the same healthy process, with the right image, until it reports ready. A
        probe that does not come back is repeated until the time is up; one that comes back with
        anything else ends it. */
    method Health(policy: Policy) returns (ok: bool)
      modifies this`tick
      ensures ok <==> IsRunning(policy.containerId, policy.image) && exists t' :: Heard(old(tick), t')
      ensures ok ==> Heard(old(tick), tick) && tick > old(tick) && fates(tick - 1) == Smooth
      ensures tick >= old(tick)
    {
      ghost var t0 := tick;
      for poll := 0 to polls
        invariant tick == t0 + 2 * poll && Silent(t0, poll)
        invariant poll > 0 ==> IsRunning(policy.containerId, policy.image)
      {
        forall t' | Heard(t0, t') ensures Inspection(t0, poll) == Smooth && Probe(t0, poll) != FailsLate {
          HeardLater(t0, t', poll);
        }
        assert Inspection(t0, poll) == fates(tick) && Probe(t0, poll) == fates(tick + 1);
        var inspected := Works();
        if !inspected || !IsRunning(policy.containerId, policy.image) {
          return false;
        }
        var probe := Next();
        if probe == Smooth {
          assert HeardAt(t0, poll) && tick == t0 + 2 * poll + 2;
          assert Heard(t0, tick);
          return true;
        }
        if probe == FailsLate {
          return false;
        }
      }
      NeverHeard(t0);
      return false;
    }

    /** On a smooth day the first poll is answered. */
    lemma HeardAtOnce(t: nat)
      requires SmoothFrom(t) && polls > 0
      ensures Heard(t, t + 2)
    {
      assert Inspection(t, 0) == Smooth && Probe(t, 0) == Smooth;
      assert HeardAt(t, 0);
    }

    /** What is heard is an answer of the probe. */
    lemma HeardIsAnswer(t: nat, t': nat)
      requires Heard(t, t')
      ensures t' >= t + 2 && fates(t' - 1) == Smooth
      ensures exists k: nat :: Probe(t, k) == Smooth
    {
      var k: nat :| k < polls && HeardAt(t, k) && t' == t + 2 * k + 2;
      assert Probe(t, k) == Smooth;
    }

    method OldExists() returns (known: bool, exists_: bool)
      modifies this`tick
      ensures known <==> fates(old(tick)) == Smooth
      ensures exists_ <==> original.containerId in containers
      ensures tick == old(tick) + 1
    {
      known := Works();
      exists_ := original.containerId in containers;
    }

    /** The steps of a creation that started at `t`, up to the proof of ownership. */
    ghost predicate ProvedOurs(t: nat) {
      && fates(t) == Smooth && fates(t + 2) == Smooth
      && (fates(t + 1) == Smooth || (fates(t + 1) == FailsLate && fates(t + 3) == Smooth))
    }

    /** The receipt of a creation comes last, one step later if the container had to be looked up. */
    ghost function ReceiptAt(t: nat): nat {
      if fates(t + 1) == Smooth then t + 3 else t + 4
    }

    ghost predicate Creates(t: nat) {
      ProvedOurs(t) && fates(ReceiptAt(t)) == Smooth
    }

    /** Create a stopped container. A lost reply is repaired by looking the name up again; what
        cannot be proved to be ours is never used. The identity of a candidate is remembered
        before its receipt is written. */
    method Create(plan: T.Plan, image: string, forOriginal: bool) returns (id: Option<ContainerId>)
      modifies this`containers, this`liveId, this`tick
      ensures forOriginal ==> liveId == old(liveId)
      ensures !forOriginal && id.Some? ==> liveId == id
      ensures id.Some? ==> IsOwned(id.value, image, if forOriginal then RestoredRole else LiveRole, plan.id)
      ensures AtMostOneMore(old(containers), containers, image, plan.id, if forOriginal then RestoredRole else LiveRole,
                            if !forOriginal && old(liveId).None? then liveId else id)
      ensures id.Some? <==> newIds(old(tick) + 1) !in old(containers) && Creates(old(tick))
      ensures id.Some? ==> id.value == newIds(old(tick) + 1) && tick == ReceiptAt(old(tick)) + 1
      ensures tick >= old(tick)
      // Also if the reply is lost, and if the receipt cannot be written afterwards.
      ensures !forOriginal ==>
        liveId == if newIds(old(tick) + 1) !in old(containers) && ProvedOurs(old(tick))
                  then Some(newIds(old(tick) + 1)) else old(liveId)
    {
      var role := if forOriginal then RestoredRole else LiveRole;
      var environment := Works();
      if !environment {
        return None;
      }
      var c := newIds(tick);
      var created := Next();
      if c in containers || created == FailsEarly {
        return None;
      }
      containers := containers[c := Container(image, false, plan.id, role)];
      if created == FailsLate {
        var found := Works();
        if !found {
          return None;
        }
      }
      var owned := Owned(c, image, role, plan.id);
      if !owned {
        return None;
      }
      if !forOriginal {
        liveId := Some(c);
      }
      var saved := Works();
      return if saved then Some(c) else None;
    }

    // -------------------------------------------------------------- enrollment

    /** Replace the enrollment file atomically, from the expected policy only. */
    method Enroll(expected: Policy, new_: Policy) returns (ok: bool)
      modifies this`enrollment, this`tick
      ensures enrollment ==
        if old(enrollment) == expected && fates(old(tick)) == Smooth && fates(old(tick) + 1) != FailsEarly then new_
        else old(enrollment)
      ensures ok <==> old(enrollment) == expected && Flawless(old(tick), old(tick) + 2)
      ensures ok ==> enrollment == new_ && tick == old(tick) + 2
      ensures tick >= old(tick)
    {
      if enrollment != expected {
        return false;
      }
      var temporary := Works();
      if !temporary || enrollment != expected {
        return false;
      }
      var replaced := Next();
      if replaced == FailsEarly {
        return false;
      }
      enrollment := new_;
      return replaced == Smooth;
    }

    // -------------------------------------------------------------- actions

    method CurrentVersion() returns (version: Option<Version>)
      modifies this`tick
      ensures version ==
        if fates(old(tick)) == Smooth && IsRunning(enrollment.containerId, enrollment.image)
        then Some(enrollment.version) else None
    {
      var inspected := Works();
      if !inspected || !IsRunning(enrollment.containerId, enrollment.image) {
        return None;
      }
      return Some(enrollment.version);
    }

    /** Forget the previous update. A failure in the middle leaves its memory half replaced. */
    method Remember(plan: T.Plan, policy: Policy) returns (ok: bool)
      modifies this
      ensures View() ==
        if ok then Forgotten(Rooting(old(View()), plan, policy), policy) else Rooting(old(View()), plan, policy)
      ensures tick == old(tick) + 1 && (ok <==> fates(old(tick)) == Smooth)
    {
      hide Rooting, Forgotten;
      Note(plan, policy);
      ghost var noted := View();
      ok := Works();
      assert View() == noted;
      if ok {
        Forget(policy);
      }
    }

    method Note(plan: T.Plan, policy: Policy)
      modifies this`activePlan, this`original, this`enrolled, this`base, this`prepared
      ensures View() == Rooting(old(View()), plan, policy)
    {
      activePlan, original := Some(plan), policy;
      enrolled, base, prepared := policy, files.View(), files.View();
    }

    method Forget(policy: Policy)
      modifies this`built, this`backup, this`cutover, this`liveId, this`livePolicy, this`oldRemoveRequested,
        this`restorePolicy
      ensures View() == Forgotten(old(View()), policy)
    {
      built, backup, cutover, liveId, livePolicy, oldRemoveRequested, restorePolicy :=
        None, None, None, None, None, false, policy;
    }

    /** The enrolled installation is the expected one, and runs. */
    ghost predicate Feasible(plan: T.Plan)
      reads this
    {
      enrollment.version == plan.current && IsRunning(enrollment.containerId, enrollment.image)
    }

    /** Read-only, except for what is remembered. The second preflight of an update must find the
        installation that the first one found. */
    method Preflight(plan: T.Plan) returns (ok: bool)
      modifies this
      ensures old(activePlan) == Some(plan) ==> View() == old(View())
      ensures containers == old(containers) && enrollment == old(enrollment)
      ensures activePlan == old(activePlan) || activePlan == Some(plan)
      ensures ok && Unknown(old(View()), plan)
        ==> Untouched(View(), plan) && enrolled == enrollment && base == files.View() && built.None?
      ensures ok ==> IsRunning(original.containerId, original.image) && enrollment == original
      ensures tick >= old(tick)
      // Exactly when the enrolled installation is the expected one and runs, is still the one that
      // was found first, and no step fails.
      ensures var steps := if old(activePlan) == Some(plan) then 2 else 3;
        && (ok <==> Feasible(plan) && (old(activePlan) == Some(plan) ==> enrollment == old(original))
                    && Flawless(old(tick), old(tick) + steps))
        && (ok ==> tick == old(tick) + steps)
    {
      hide Untouched;
      var policy := enrollment;
      if policy.version != plan.current {
        return false;
      }
      var inspected := Works();
      if !inspected || !IsRunning(policy.containerId, policy.image) {
        return false;
      }
      if activePlan != Some(plan) {
        var remembered := Remember(plan, policy);
        if !remembered {
          return false;
        }
      }
      if policy != original {
        return false;
      }
      ok := Works();
      if Unknown(old(View()), plan) {
        FirstFound(View(), plan);
      }
    }

    method PrepareCandidate(plan: T.Plan) returns (candidate: Option<T.Candidate>)
      requires Untouched(View(), plan)
      modifies this`built, this`tick
      ensures Untouched(View(), plan) && View() == old(View()).(built := built)
      ensures built ==
        if Flawless(old(tick), old(tick) + 2)
        then Some(Built(texts(old(tick) + 1), texts(old(tick) + 2), releases(old(tick) + 1))) else old(built)
      ensures candidate.Some? <==> Flawless(old(tick), old(tick) + 3)
      ensures candidate.Some? ==>
        built.Some? && candidate.value == T.Candidate(plan.id, plan.target, built.value.archive)
    {
      hide Untouched, Flawless;
      StepByStep(tick);
      StagedOnly(View(), plan);
      if activePlan != Some(plan) {
        return None;
      }
      var staged := Works();
      if !staged {
        return None;
      }
      var archive, image, release := texts(tick), texts(tick + 1), releases(tick);
      var done := Works();
      if !done {
        return None;
      }
      built := Some(Built(archive, image, release));
      var saved := Works();
      return if saved then Some(T.Candidate(plan.id, plan.target, archive)) else None;
    }

    /** What was built does not count yet. */
    lemma StagedOnly(h: Host, plan: T.Plan)
      requires Untouched(h, plan)
      ensures h.activePlan == Some(plan) && forall b :: Untouched(h.(built := b), plan)
    {
      hide FilesOk, DockerOk;
    }

    lemma StoppedOnly(h: Host, plan: T.Plan)
      requires Untouched(h, plan)
      ensures h.activePlan == Some(plan) && h.enrollment == h.original && h.original.containerId in h.containers
      ensures var stopped := Halted(h.containers, h.original.containerId);
        && Untouched(h.(containers := stopped), plan) && !OriginalRuns(h.(containers := stopped))
        && Claims(h.containers, stopped, plan.id) && Claims(h.containers, h.containers, plan.id)
        && h.original.containerId in stopped
    {
      hide FilesOk;
    }

    method StopOriginal(plan: T.Plan) returns (ok: bool)
      requires Untouched(View(), plan)
      modifies this
      ensures Untouched(View(), plan) && View() == old(View()).(containers := containers)
      // Stopped only after the second look at it, and possibly although the command reports a failure.
      ensures containers ==
        if old(Feasible(plan)) && Flawless(old(tick), old(tick) + 2) && fates(old(tick) + 2) != FailsEarly
        then Halted(old(containers), original.containerId) else old(containers)
      ensures Claims(old(containers), containers, plan.id)
      ensures ok ==> original.containerId in containers && !OriginalRuns(View())
      ensures ok <==> old(Feasible(plan)) && Flawless(old(tick), old(tick) + 4)
    {
      hide Untouched, Flawless, Halted, Claims, OriginalRuns;
      StepByStep(tick);
      StoppedOnly(View(), plan);
      if activePlan != Some(plan) {
        return false;
      }
      var feasible := Preflight(plan);
      if !feasible {
        return false;
      }
      var stopped := StopContainer(original.containerId);
      if !stopped {
        return false;
      }
      ok := Works();
    }

    method BackupOriginal(plan: T.Plan) returns (receipt: Option<T.Backup>)
      requires Untouched(View(), plan) && !OriginalRuns(View())
      modifies this`backup, this`tick
      ensures ReadyToStart(View(), plan) && View() == old(View()).(backup := backup)
      ensures backup ==
        if fates(old(tick)) == Smooth then Some(Snapshot(plan.current, texts(old(tick)))) else old(backup)
      ensures receipt ==
        if Flawless(old(tick), old(tick) + 2) then Some(T.Backup(plan.id, plan.current, texts(old(tick)))) else None
    {
      if activePlan != Some(plan) {
        return None;
      }
      var manifest := texts(tick);
      var captured := Works();
      if !captured {
        return None;
      }
      backup := Some(Snapshot(original.version, manifest));
      var saved := Works();
      return if saved then Some(T.Backup(plan.id, original.version, manifest)) else None;
    }

    /** Every copy that is made is complete and new. */
    ghost predicate OffersOk(g: C.Generations)
      reads this
    {
      built.Some? ==> forall t :: OfferOk(offers(t), g, built.value.release)
    }

    lemma OfferedNow(g: C.Generations, t: nat)
      requires OffersOk(g) && built.Some?
      ensures OfferOk(offers(t), g, built.value.release)
    {
    }

    /** Copy the candidate generation beside the live one and record the plan. A failure may leave
        the copy behind, but then no plan is remembered and nothing is ever renamed. */
    method PrepareCutover(plan: T.Plan) returns (ok: bool)
      requires Ready(View(), plan) && cutover.None? && built.Some? && liveId.None? && !OriginalRuns(View())
      modifies this`cutover, this`prepared, this`tick, files`pending, files`trees, files`applied, files`restored
      ensures Ready(View(), plan)
      ensures Reversible(View())
      ensures ok ==> cutover.Some? && "data" in cutover.value.ids
      ensures ok ==> C.Completes(files.View(), cutover.value, false, true)
      ensures ok ==> Heirs(cutover.value, old(files.View()), files.View())
      ensures ok ==> Stocked(cutover.value, built.value.release, files.View())
      ensures ok <==>
        Flawless(old(tick), old(tick) + 2) && OfferOk(offers(old(tick)), old(files.View()), built.value.release)
      ensures ok ==> tick == old(tick) + 2 && cutover == Some(PlanFor(offers(old(tick)), old(files.View())))
      ensures tick >= old(tick)
    {
      hide Ready, OfferOk, PlanFor, Beside, C.Completes, Heirs, Stocked, OriginalRuns;
      ghost var h0 := View();
      var offer, g := offers(tick),
        C.Generations(files.live, files.pending, files.trees, files.applied, files.restored);
      ok := CopyBeside(plan, offer);
      if !ok {
        return false;
      }
      prepared := files.View();
      cutover := Some(PlanFor(offer, g));
      PlanRemembered(h0, View(), plan, offer);
      ok := Works();
    }

    /** Everything is copied to new entries beside the live ones. */
    method CopyBeside(plan: T.Plan, offer: Offer) returns (ok: bool)
      requires Ready(View(), plan) && cutover.None? && built.Some?
      modifies this`tick, files`pending, files`trees, files`applied, files`restored
      ensures Ready(View(), plan) && View() == old(View()).(gen := files.View())
      ensures files.View() ==
        if fates(old(tick)) != FailsEarly && OfferOk(offer, old(files.View()), built.value.release)
        then Beside(offer, old(files.View())) else old(files.View())
      ensures tick == old(tick) + 1
      ensures ok <==> fates(old(tick)) == Smooth && OfferOk(offer, old(files.View()), built.value.release)
    {
      hide Ready, OfferOk;
      ghost var h0 := View();
      var copied := Next();
      var g := C.Generations(files.live, files.pending, files.trees, files.applied, files.restored);
      if copied == FailsEarly || !OfferOk(offer, g, built.value.release) {
        return false;
      }
      files.pending, files.trees, files.applied, files.restored := offer.pending, g.trees + offer.trees, false, false;
      CopyLeftBehind(h0, View(), plan, offer);
      ok := copied == Smooth;
    }

    /** Exchange the generations of the remembered plan, in either direction. */
    method ExchangeFiles(plan: T.Plan, rollback: bool, sameCredentials: bool) returns (ok: bool)
      requires Ready(View(), plan) && cutover.Some? && NoCandidate(containers, plan)
      modifies files`live, files`pending, files`applied, files`restored, files`tick
      ensures Ready(View(), plan) && View() == old(View()).(gen := files.View()) && files.trees == old(files.trees)
      ensures !rollback && old(Reversible(View())) ==> Reversible(View())
      ensures ok ==> C.AtPrefix(files.View(), cutover.value, if rollback then 0 else |cutover.value.order|)
      ensures ok ==> files.Flawless(old(files.tick), files.tick)
      ensures files.SmoothFrom(old(files.tick))
        && C.Completes(old(files.View()), cutover.value, rollback, sameCredentials)
        ==> ok
    {
      hide MemoryOk, DockerOk, Safe, FreshIds, Recorded, KeptTrees, Owns, C.AtPrefix, C.Installed, C.Completes,
        C.Admissible;
      ghost var before := View();
      assert MemoryOk(before, plan) && Owns(before, plan);
      var refusal, moved, _ := files.Exchange(cutover.value, rollback, sameCredentials);
      ExchangeKeepsFiles(base, prepared, cutover.value, rollback, before.gen, files.View(), moved, refusal.None?);
      StillRemembered(before, View(), plan);
      return refusal.None?;
    }

    /** Prepare and perform the exchange. */
    method InstallFiles(plan: T.Plan) returns (ok: bool)
      requires Ready(View(), plan) && cutover.None? && built.Some? && liveId.None? && !OriginalRuns(View())
      modifies this`cutover, this`prepared, this`tick,
        files`live, files`pending, files`trees, files`applied, files`restored, files`tick
      ensures Ready(View(), plan) && Reversible(View())
      ensures ok ==> cutover.Some? && C.AtPrefix(files.View(), cutover.value, |cutover.value.order|)
      ensures ok ==> Inherits(old(files.View()), files.View()) && Deployed(built, cutover, files.View())
      ensures tick >= old(tick)
      ensures ok ==> Flawless(old(tick), tick) && tick == old(tick) + 2 && files.Flawless(old(files.tick), files.tick)
      ensures !Flawless(old(tick), old(tick) + 2) ==> files.live == old(files.live)
      ensures SmoothFrom(old(tick)) && files.SmoothFrom(old(files.tick)) && old(OffersOk(files.View())) ==> ok
    {
      hide PlanFor, Beside, Flawless, OfferOk, Ready, NoCandidate, Heirs, Stocked, Inherits, Deployed, OffersOk,
        OriginalRuns, C.AtPrefix, C.Completes;
      if OffersOk(files.View()) { OfferedNow(files.View(), tick); }
      if SmoothFrom(tick) { SmoothIsFlawless(tick, tick + 2); }
      ghost var g0 := files.View();
      NobodyRuns(View(), plan);
      ok := PrepareCutover(plan);
      if ok {
        ghost var g := files.View();
        ok := ExchangeFiles(plan, false, true);
        if ok {
          HeirsInstalled(cutover.value, g0, g, files.View());
          StockDeployed(built.value, cutover.value, g, files.View());
        }
      }
    }

    /** The steps of a creation at `t`, of recording the new configuration, and of the start. */
    ghost predicate Runs(t: nat) {
      Creates(t) && Flawless(ReceiptAt(t) + 1, ReceiptAt(t) + 3)
    }

    lemma SmoothRuns(t: nat)
      requires SmoothFrom(t)
      ensures Runs(t)
    {
    }

    /** What is enrolled for a candidate that was created at `t`. */
    ghost function CandidatePolicy(plan: T.Plan, t: nat): Policy
      reads this
      requires built.Some?
    {
      Policy(newIds(t + 1), built.value.image, plan.target, texts(ReceiptAt(t) + 2))
    }

    /** Create the candidate's container, remember its policy, and start it. */
    method RunCandidate(plan: T.Plan) returns (ok: bool)
      requires Ready(View(), plan) && cutover.Some? && built.Some? && liveId.None? && livePolicy.None?
      requires !oldRemoveRequested && enrollment == original
      requires "data" in cutover.value.ids && C.AtPrefix(files.View(), cutover.value, |cutover.value.order|)
      modifies this`containers, this`liveId, this`livePolicy, this`tick
      ensures Ready(View(), plan) && Claims(old(containers), containers, plan.id)
      ensures ok <==> newIds(old(tick) + 1) !in old(containers) && Runs(old(tick))
      ensures ok ==>
        && livePolicy == Some(CandidatePolicy(plan, old(tick)))
        && IsRunning(livePolicy.value.containerId, livePolicy.value.image)
    {
      hide Flawless, Creates, ReceiptAt, Ready, C.AtPrefix, C.Id, Claims, IsOwned;
      NameIsCandidate(cutover.value, files.View(), "data");
      ghost var before := containers;
      var id := CreateCandidate(plan);
      if id.None? {
        return false;
      }
      ghost var between := containers;
      ok := Launch(plan, id.value);
      ClaimsTwice(before, between, containers, plan.id);
    }

    method CreateCandidate(plan: T.Plan) returns (id: Option<ContainerId>)
      requires Ready(View(), plan) && cutover.Some? && built.Some? && liveId.None? && livePolicy.None?
      requires !oldRemoveRequested
      modifies this`containers, this`liveId, this`tick
      ensures Ready(View(), plan) && Claims(old(containers), containers, plan.id)
      ensures id.Some? <==> newIds(old(tick) + 1) !in old(containers) && Creates(old(tick))
      ensures id.Some? ==>
        && id.value == newIds(old(tick) + 1) && tick == ReceiptAt(old(tick)) + 1
        && liveId == id && IsOwned(id.value, built.value.image, LiveRole, plan.id)
    {
      hide Ready, AtMostOneMore, Claims, Creates, ReceiptAt, ProvedOurs;
      ghost var h0 := View();
      id := Create(plan, built.value.image, false);
      CandidateCreated(h0, View(), plan);
    }

    method Launch(plan: T.Plan, id: ContainerId) returns (ok: bool)
      requires Ready(View(), plan) && liveId == Some(id) && livePolicy.None? && enrollment == original
      requires built.Some? && IsOwned(id, built.value.image, LiveRole, plan.id)
      requires cutover.Some? && "data" in cutover.value.ids
      requires C.Id(files.live, "data") == Some(cutover.value.ids["data"].candidate)
      modifies this`containers, this`livePolicy, this`tick
      ensures Ready(View(), plan) && Claims(old(containers), containers, plan.id)
      ensures ok <==> Flawless(old(tick), old(tick) + 2)
      ensures ok ==>
        && livePolicy == Some(Policy(id, built.value.image, plan.target, texts(old(tick) + 1)))
        && Running(View(), id, built.value.image)
    {
      hide Ready, C.Id, Claims, Launched, Flawless, Running, IsOwned;
      StepByStep(tick);
      CandidateLaunches(View(), plan, id, Policy(id, built.value.image, plan.target, texts(tick + 1)));
      ok := Capture(plan, id);
      if !ok {
        return false;
      }
      assert Ready(View(), plan);
      ok := StartContainer(id);
    }

    /** The configuration as it is now becomes the candidate's. */
    method Capture(plan: T.Plan, id: ContainerId) returns (ok: bool)
      requires built.Some?
      modifies this`livePolicy, this`tick
      ensures ok <==> fates(old(tick)) == Smooth
      ensures livePolicy ==
        if ok then Some(Policy(id, built.value.image, plan.target, texts(old(tick) + 1))) else old(livePolicy)
      ensures tick == old(tick) + 1
    {
      ok := Works();
      if ok {
        livePolicy := Some(original.(containerId := id, image := built.value.image, version := plan.target,
                                     config := texts(tick)));
      }
    }

    /** The receipts are those of this adapter. */
    ghost predicate Accepts(plan: T.Plan, candidate: T.Candidate, receipt: T.Backup)
      reads this
    {
      && built.Some? && candidate == T.Candidate(plan.id, plan.target, built.value.archive)
      && backup.Some? && receipt == T.Backup(plan.id, plan.current, backup.value.manifest)
    }

    method StartCandidate(plan: T.Plan, candidate: T.Candidate, receipt: T.Backup) returns (ok: bool)
      requires ReadyToStart(View(), plan)
      modifies this`cutover, this`prepared, this`tick, this`containers, this`liveId, this`livePolicy,
        files`live, files`pending, files`trees, files`applied, files`restored, files`tick
      ensures Ready(View(), plan) && Claims(old(containers), containers, plan.id)
      ensures ok ==> CandidateStarted(View(), plan) && IsRunning(livePolicy.value.containerId, livePolicy.value.image)
      ensures ok ==> BuiltFrom(View(), Some(candidate))
      // The receipts must be those of this adapter, and the candidate must have been validated; then
      // no step may fail but the reply to the creation.
      ensures ok ==>
        && old(Accepts(plan, candidate, receipt)) && fates(old(tick)) == Smooth && Activates(old(tick) + 1)
        && files.Flawless(old(files.tick), files.tick)
      ensures ok ==> livePolicy == Some(CandidatePolicy(plan, old(tick) + 3))
      ensures !(old(Accepts(plan, candidate, receipt)) && Flawless(old(tick), old(tick) + 3)) ==>
        containers == old(containers) && files.live == old(files.live)
      // Whenever a candidate runs, it has found the release, and the original's data and environment.
      ensures Reversible(View())
      ensures ok || !NoCandidate(containers, plan) ==>
        Inherits(old(files.View()), files.View()) && Deployed(built, cutover, files.View())
      ensures SmoothFrom(old(tick)) && files.SmoothFrom(old(files.tick)) && old(OffersOk(files.View()))
        && (forall t :: newIds(t) !in old(containers))
        && old(Accepts(plan, candidate, receipt))
        ==> ok
    {
      hide OfferOk, Activates, CandidatePolicy, Ready, CandidateStarted, C.AtPrefix, NoCandidate, Inherits, Deployed,
        Claims, OriginalRuns;
      StartFacts(View(), plan);
      if activePlan != Some(plan) || built.None? || backup.None?
         || candidate != T.Candidate(plan.id, plan.target, built.value.archive)
         || receipt != T.Backup(plan.id, plan.current, backup.value.manifest) {
        return false;
      }
      var valid := Works();
      if !valid {
        return false;
      }
      ok := Activate(plan);
    }

    /** The steps of preparing the exchange, and of running the candidate. */
    ghost predicate Activates(t: nat) {
      Flawless(t, t + 2) && Runs(t + 2)
    }

    /** Exchange the files, and run the candidate on them. */
    method Activate(plan: T.Plan) returns (ok: bool)
      requires ReadyToStart(View(), plan) && built.Some?
      modifies this`cutover, this`prepared, this`tick, this`containers, this`liveId, this`livePolicy,
        files`live, files`pending, files`trees, files`applied, files`restored, files`tick
      ensures Ready(View(), plan) && Claims(old(containers), containers, plan.id) && Reversible(View())
      ensures ok ==> CandidateStarted(View(), plan) && IsRunning(livePolicy.value.containerId, livePolicy.value.image)
      ensures ok || !NoCandidate(containers, plan) ==>
        Inherits(old(files.View()), files.View()) && Deployed(built, cutover, files.View())
      ensures ok ==> Activates(old(tick)) && livePolicy == Some(CandidatePolicy(plan, old(tick) + 2))
      ensures ok ==> files.Flawless(old(files.tick), files.tick)
      ensures !Flawless(old(tick), old(tick) + 2) ==> containers == old(containers) && files.live == old(files.live)
      ensures SmoothFrom(old(tick)) && files.SmoothFrom(old(files.tick)) && old(OffersOk(files.View()))
        && (forall t :: newIds(t) !in old(containers))
        ==> ok
    {
      hide Flawless, CandidatePolicy, Runs, Ready, C.AtPrefix, OffersOk, NoCandidate, Inherits, Claims, OriginalRuns;
      ClaimsReflexive(View(), plan);
      if SmoothFrom(tick) { SmoothRuns(tick + 2); }
      ok := InstallFiles(plan);
      if !ok {
        NobodyRuns(View(), plan);
        return false;
      }
      ok := RunCandidate(plan);
    }

    /** The candidate is healthy, becomes the enrolled installation, and only then the original
        container is retired. */
    method VerifyCandidate(plan: T.Plan) returns (ok: bool)
      requires CandidateStarted(View(), plan)
      modifies this`enrollment, this`oldRemoveRequested, this`containers, this`tick
      ensures Ready(View(), plan) && Claims(old(containers), containers, plan.id)
      ensures ok ==> Updated(View(), plan)
      // Exactly when the probe is answered before the candidate is enrolled and again after the
      // original container is gone, and no step in between fails.
      ensures ok <==> old(IsRunning(livePolicy.value.containerId, livePolicy.value.image))
                      && exists t: nat, t': nat :: Heard(old(tick), t) && Replaces(t, t')
      ensures ok ==> exists t: nat :: Heard(old(tick), t) && Replaces(t, tick)
      // A candidate that never answers is not enrolled, and the original container stays.
      ensures (forall k: nat :: Probe(old(tick), k) != Smooth) ==>
        !ok && enrollment == old(enrollment) && containers == old(containers)
          && oldRemoveRequested == old(oldRemoveRequested)
      ensures enrollment != old(enrollment) ==> exists t: nat :: Heard(old(tick), t)
      ensures containers != old(containers) ==> enrollment == livePolicy.value
    {
      hide Ready, C.AtPrefix, Claims, Deployed, Heard, Flawless, Probe;
      ghost var h0, t0 := View(), tick;
      forall t | Heard(t0, t) ensures exists k: nat :: Probe(t0, k) == Smooth { HeardIsAnswer(t0, t); }
      ReadyToRetire(h0, plan);
      ClaimsReflexive(h0, plan);
      HeardUniquely(t0);
      ok := EnrollCandidate(plan);
      forall t: nat | Heard(t0, t) ensures Flawless(t, t + 2) && Flawless(t + 2, t + 5) <==> Flawless(t, t + 5) {
        FlawlessOn(t, t + 2, t + 5);
      }
      if !ok {
        return false;
      }
      ok := Retire(plan);
      if !ok {
        return false;
      }
      ghost var t := tick - 5;
      ok := Health(livePolicy.value);
      if ok {
        NowUpdated(View(), plan);
        assert Heard(t0, t) && Replaces(t, tick);
      }
    }

    /** From the first answer at `t` to the second one at `t'`: the enrollment, the removal of the
        original container, and the second round of polls. */
    ghost predicate Replaces(t: nat, t': nat) {
      Flawless(t, t + 5) && Heard(t + 5, t')
    }

    /** A healthy candidate becomes the enrolled installation. */
    method EnrollCandidate(plan: T.Plan) returns (ok: bool)
      requires Ready(View(), plan) && livePolicy.Some? && enrollment == original
      modifies this`enrollment, this`tick
      ensures Ready(View(), plan) && (ok ==> enrollment == livePolicy.value)
      ensures enrollment in {old(enrollment), livePolicy.value}
      ensures (forall t :: !Heard(old(tick), t)) ==> enrollment == old(enrollment)
      ensures ok <==> IsRunning(livePolicy.value.containerId, livePolicy.value.image)
                      && exists t: nat :: Heard(old(tick), t) && Flawless(t, t + 2)
      ensures ok ==> tick >= 2 && Heard(old(tick), tick - 2) && Flawless(tick - 2, tick)
      ensures tick >= old(tick)
    {
      hide Ready, Heard, Flawless;
      HeardUniquely(tick);
      ghost var h0 := View();
      ok := Health(livePolicy.value);
      if ok {
        ok := Enroll(original, livePolicy.value);
        CandidateIsEnrolled(h0, View(), plan);
      }
    }

    /** Remove the original container; from the request on it may be gone. */
    method Retire(plan: T.Plan) returns (ok: bool)
      requires Ready(View(), plan) && livePolicy.Some?
      modifies this`oldRemoveRequested, this`containers, this`tick
      ensures Ready(View(), plan) && Claims(old(containers), containers, plan.id)
      ensures ok ==> original.containerId !in containers && containers == old(containers) - {original.containerId}
      ensures ok <==> original.containerId in old(containers)
                      && old(containers)[original.containerId].image == original.image
                      && !old(containers)[original.containerId].running
                      && Flawless(old(tick), old(tick) + 3)
      ensures ok ==> tick == old(tick) + 3
    {
      ghost var h1 := View();
      ClaimsReflexive(h1, plan);
      hide Ready, Claims;
      var inspected := Works();
      if !inspected || original.containerId !in containers || containers[original.containerId].image != original.image
         || containers[original.containerId].running {
        return false;
      }
      oldRemoveRequested := true;
      var removed := RemoveContainer(original.containerId);
      OriginalRetired(h1, View(), plan);
      if !removed {
        return false;
      }
      var known, exists_ := OldExists();
      return known && !exists_;
    }

    /** The candidate is stopped before anything it could write to is moved. */
    method StopCandidate(plan: T.Plan) returns (ok: bool)
      requires Ready(View(), plan)
      modifies this`containers, this`tick
      ensures Ready(View(), plan) && containers.Keys == old(containers).Keys
        && Claims(old(containers), containers, plan.id)
      ensures ok ==> NoCandidate(containers, plan) && (liveId.Some? ==> liveId.value in containers)
      ensures tick >= old(tick)
      ensures var stops := liveId.Some? && Up(old(containers), liveId.value);
        && (ok <==> (liveId.Some? ==>
                       && built.Some? && old(IsOwned(liveId.value, built.value.image, LiveRole, plan.id))
                       && Flawless(old(tick), old(tick) + if stops then 2 else 1)))
        && (ok ==> tick == old(tick) + if liveId.None? then 0 else if stops then 2 else 1)
        && (ok ==> containers == if stops then Halted(old(containers), liveId.value) else old(containers))
      ensures ReviveSteps(View()) == old(ReviveSteps(View()))
    {
      hide Ready, Claims, NoCandidate, Kept, Halted;
      ghost var h0 := View();
      ReadyFacts(h0, plan);
      CandidateHalted(h0, h0, plan);
      if liveId.Some? { CandidateStopped(h0, plan); }
      if liveId.None? {
        return true;
      }
      var owned := Owned(liveId.value, built.value.image, LiveRole, plan.id);
      if !owned {
        return false;
      }
      ok := true;
      if containers[liveId.value].running {
        ok := StopContainer(liveId.value);
      }
    }

    /** Bring the original container back, or recreate it, enroll it, and start it. */
    method ReturnContainer(plan: T.Plan, oldExists: bool) returns (ok: bool)
      requires Ready(View(), plan) && NoCandidate(containers, plan) && (liveId.Some? ==> liveId.value in containers)
      requires files.live == base.live && KeptTrees(base, files.View())
      requires oldExists ==> original.containerId in containers
      modifies this`containers, this`enrollment, this`liveId, this`restorePolicy, this`tick
      ensures liveId == old(liveId) && NoCandidate(containers, plan) && Claims(old(containers), containers, plan.id)
      ensures ok ==> Reinstated(View(), plan)
      // Only the reply to a creation can be lost on the way.
      ensures oldExists ==>
        var steps := old(ReviveSteps(View()));
        && (ok <==> Flawless(old(tick), old(tick) + steps))
        && (ok ==> tick == old(tick) + steps)
      ensures !oldExists ==>
        var t := ReceiptAt(old(tick)) + 1;
        var steps := if old(enrollment) == original.(containerId := newIds(old(tick) + 1)) then 2 else 4;
        && (ok <==> newIds(old(tick) + 1) !in old(containers) && Creates(old(tick)) && Flawless(t, t + steps))
        && (ok ==> tick == t + steps)
    {
      hide Creates, ProvedOurs, ReceiptAt, Flawless, Ready, KeptTrees, NoCandidate, Reinstated, AtMostOneMore, Claims,
        Owns;
      var identity := original.containerId;
      ghost var h0 := View();
      if !oldExists {
        var created := Create(plan, original.image, true);
        SpareCreated(h0, View(), plan, created);
        if created.None? {
          return false;
        }
        identity := created.value;
      } else {
        StillOriginal(h0, plan);
      }
      ghost var h1 := View();
      ok := Revive(plan, identity);
      ClaimsTwice(h0.containers, h1.containers, containers, plan.id);
    }

    method Revive(plan: T.Plan, identity: ContainerId) returns (ok: bool)
      requires Ready0(View(), plan, identity) && Owns(View(), plan)
      modifies this`containers, this`enrollment, this`restorePolicy, this`tick
      ensures NoCandidate(containers, plan) && Claims(old(containers), containers, plan.id)
      ensures ok ==> Reinstated(View(), plan)
      // Enrolled unless it is already, looked at, and started unless it runs.
      ensures var steps := (if old(enrollment) == original.(containerId := identity) then 0 else 2)
                           + 1 + if Up(old(containers), identity) then 0 else 1;
        && (ok <==> Flawless(old(tick), old(tick) + steps))
        && (ok ==> tick == old(tick) + steps)
    {
      hide Ready0, NoCandidate, Claims, Launched, Reinstated, Owns, Flawless;
      ghost var t := tick;
      OriginalRevived(View(), plan, identity);
      ok := EnrollOriginal(identity);
      ghost var t' := t + if old(enrollment) == restorePolicy then 0 else 2;
      FlawlessOn(t, t', t' + 1 + if Up(containers, identity) then 0 else 1);
      if ok {
        ok := StartOriginal(identity);
      }
    }

    /** Only an enrollment that this update knows is replaced. */
    method EnrollOriginal(identity: ContainerId) returns (ok: bool)
      modifies this`enrollment, this`restorePolicy, this`tick
      ensures restorePolicy == original.(containerId := identity)
      ensures enrollment in {old(enrollment), restorePolicy}
      ensures var steps := if old(enrollment) == restorePolicy then 0 else 2;
        && (ok <==> (old(enrollment) == original || Some(old(enrollment)) == livePolicy)
                    && Flawless(old(tick), old(tick) + steps))
        && (ok ==> tick == old(tick) + steps && enrollment == restorePolicy)
    {
      restorePolicy := original.(containerId := identity);
      var current := enrollment;
      if current != original && Some(current) != livePolicy {
        return false;
      }
      ok := true;
      if current != restorePolicy {
        ok := Enroll(current, restorePolicy);
      }
    }

    method StartOriginal(identity: ContainerId) returns (ok: bool)
      requires identity in containers && containers[identity].image == original.image
      modifies this`containers, this`tick
      ensures containers == old(containers) || containers == Launched(old(containers), identity)
      ensures var steps := if Up(old(containers), identity) then 1 else 2;
        && (ok <==> Flawless(old(tick), old(tick) + steps))
        && (ok ==> tick == old(tick) + steps
                   && containers == if steps == 1 then old(containers) else Launched(old(containers), identity))
    {
      var inspected := Works();
      if !inspected || identity !in containers || containers[identity].image != original.image {
        return false;
      }
      ok := true;
      if !containers[identity].running {
        ok := StartContainer(identity);
      }
    }

    /** The plan is the remembered one, a receipt names the snapshot, and the original container is
        looked up if it may have been removed. */
    method AdmitRestore(plan: T.Plan, receipt: Option<T.Backup>) returns (ok: bool, oldExists: bool)
      modifies this`tick
      ensures ok ==> oldExists == (!oldRemoveRequested || original.containerId in containers)
      ensures ok ==> tick == old(tick) + if oldRemoveRequested then 1 else 0
      ensures tick >= old(tick)
      ensures ok <==>
        && activePlan == Some(plan)
        && (receipt.Some? ==> backup.Some? && receipt.value == T.Backup(plan.id, plan.current, backup.value.manifest))
        && (oldRemoveRequested ==> fates(old(tick)) == Smooth)
    {
      if activePlan != Some(plan)
         || (receipt.Some?
              && (backup.None? || receipt.value != T.Backup(plan.id, plan.current, backup.value.manifest))) {
        return false, false;
      }
      ok, oldExists := true, true;
      if oldRemoveRequested {
        ok, oldExists := OldExists();
      }
    }

    /** The steps up to the stop of the candidate: look for the original container, if it may have
        been removed, and look at the candidate's and stop it, if there is one. */
    ghost function StopSteps(h: Host): nat {
      (if h.oldRemoveRequested then 1 else 0)
      + if h.liveId.None? then 0 else if Up(h.containers, h.liveId.value) then 2 else 1
    }

    /** The steps of putting the original container back to work. */
    ghost function ReviveSteps(h: Host): nat {
      (if h.enrollment == h.original then 0 else 2) + if Up(h.containers, h.original.containerId) then 1 else 2
    }

    /** From `t` to `t'` a container of the original was put back to work: the one that is there, or
        a new one. */
    ghost predicate Brings(h: Host, t: nat, t': nat) {
      if h.original.containerId in h.containers then Flawless(t, t') && t' == t + ReviveSteps(h)
      else Creates(t) && ReceiptAt(t) + 3 <= t' && Flawless(ReceiptAt(t) + 1, t')
    }

    /** Put the original back, from wherever the update stopped. */
    method RestoreOriginal(plan: T.Plan, receipt: Option<T.Backup>, sameCredentials: bool) returns (ok: bool)
      requires Ready(View(), plan)
      modifies this`containers, this`enrollment, this`liveId, this`restorePolicy, this`tick,
        files`live, files`pending, files`applied, files`restored, files`tick
      ensures liveId == old(liveId) && Kept(View(), plan) && Claims(old(containers), containers, plan.id)
      ensures ok ==> Reinstated(View(), plan)
      // The receipt must be this adapter's, and no step may fail but the reply to a creation.
      ensures ok ==>
        && (receipt.Some? ==> Matches(receipt.value, old(View()), plan))
        && files.Flawless(old(files.tick), files.tick)
        && var after := old(tick) + old(StopSteps(View()));
           Flawless(old(tick), after) && Brings(old(View()), after, tick)
      // Nothing but the outside world, changed originals or changed credentials can stop it.
      ensures SmoothFrom(old(tick)) && files.SmoothFrom(old(files.tick))
        && RestorePossible(old(View()), plan, receipt, sameCredentials) && (forall t :: newIds(t) !in old(containers))
        ==> ok
    {
      hide Ready, C.Admissible, Kept, Reinstated, KeptTrees, NoCandidate, Claims, StopSteps, Flawless, Brings;
      ghost var h0, t0 := View(), tick;
      if SmoothFrom(t0) { SmoothIsFlawless(t0, t0 + StopSteps(h0)); }
      ReadyFacts(h0, plan);
      var oldExists;
      ok, oldExists := QuietCandidate(plan, receipt);
      ghost var h1 := View();
      ReadyFacts(h1, plan);
      if ok {
        SameBringing(h0, h1);
        ok := BringBack(plan, oldExists, sameCredentials);
        ClaimsTwice(h0.containers, h1.containers, containers, plan.id);
      }
    }

    lemma SameBringing(h: Host, h': Host)
      requires h'.containers.Keys == h.containers.Keys && h'.original == h.original && ReviveSteps(h') == ReviveSteps(h)
      ensures forall t: nat, t': nat :: Brings(h', t, t') <==> Brings(h, t, t')
      ensures forall c :: c in h'.containers <==> c in h.containers
    {
    }

    /** First the files, then a container on them. */
    method BringBack(plan: T.Plan, oldExists: bool, sameCredentials: bool) returns (ok: bool)
      requires Ready(View(), plan) && NoCandidate(containers, plan) && (liveId.Some? ==> liveId.value in containers)
      requires oldExists == (original.containerId in containers)
      modifies this`containers, this`enrollment, this`liveId, this`restorePolicy, this`tick,
        files`live, files`pending, files`applied, files`restored, files`tick
      ensures liveId == old(liveId) && Kept(View(), plan) && Claims(old(containers), containers, plan.id)
      ensures ok ==> Reinstated(View(), plan)
      ensures ok ==> files.Flawless(old(files.tick), files.tick) && Brings(old(View()), old(tick), tick)
      ensures SmoothFrom(old(tick)) && files.SmoothFrom(old(files.tick)) && (oldExists || livePolicy.Some?)
        && (cutover.Some? ==> C.Admissible(old(files.View()), cutover.value, true, sameCredentials))
        && (forall t :: newIds(t) !in old(containers))
        ==> ok
    {
      hide Ready, C.Admissible, Kept, Reinstated, KeptTrees, NoCandidate, Claims, Flawless, Creates, ReceiptAt,
        ProvedOurs;
      if SmoothFrom(tick) { SmoothBrings(tick); }
      ReadyFacts(View(), plan);
      ClaimsReflexive(View(), plan);
      ok := ReturnFiles(plan, oldExists, sameCredentials);
      ReadyFacts(View(), plan);
      if ok {
        ok := ReturnContainer(plan, oldExists);
        BackIsKept(View(), plan);
      }
    }

    lemma SmoothBrings(t: nat)
      requires SmoothFrom(t)
      ensures Creates(t) && ReceiptAt(t) > t && forall u: nat, v: nat :: t <= u ==> Flawless(u, v)
    {
    }

    /** What comes before anything is put back. */
    method QuietCandidate(plan: T.Plan, receipt: Option<T.Backup>) returns (ok: bool, oldExists: bool)
      requires Ready(View(), plan)
      modifies this`containers, this`tick
      ensures Ready(View(), plan) && Claims(old(containers), containers, plan.id)
        && containers.Keys == old(containers).Keys
      ensures ok ==>
        && NoCandidate(containers, plan) && (liveId.Some? ==> liveId.value in containers)
        && oldExists == (original.containerId in containers)
        && ReviveSteps(View()) == old(ReviveSteps(View()))
        && tick == old(tick) + old(StopSteps(View()))
      ensures ok <==>
        && (receipt.Some? ==> Matches(receipt.value, old(View()), plan))
        && (liveId.Some? ==> built.Some? && old(IsOwned(liveId.value, built.value.image, LiveRole, plan.id)))
        && Flawless(old(tick), old(tick) + old(StopSteps(View())))
    {
      hide Ready, Kept, NoCandidate, Claims, Halted;
      ghost var t0 := tick;
      ReadyFacts(View(), plan);
      ClaimsReflexive(View(), plan);
      ok, oldExists := AdmitRestore(plan, receipt);
      if ok {
        ok := StopCandidate(plan);
      }
    }

    /** Take the exchange back, if there was one; the container that is looked at to see that nobody
        writes is the original, or else the candidate. */
    method ReturnFiles(plan: T.Plan, oldExists: bool, sameCredentials: bool) returns (ok: bool)
      requires Ready(View(), plan) && NoCandidate(containers, plan)
      modifies files`live, files`pending, files`applied, files`restored, files`tick
      ensures Ready(View(), plan) && View() == old(View()).(gen := files.View())
      ensures ok ==> files.live == base.live && KeptTrees(base, files.View())
      ensures ok ==> (oldExists || cutover.None? || livePolicy.Some?) && files.Flawless(old(files.tick), files.tick)
      ensures files.SmoothFrom(old(files.tick)) && (oldExists || livePolicy.Some?)
        && (cutover.Some? ==> C.Admissible(old(files.View()), cutover.value, true, sameCredentials))
        ==> ok
    {
      hide Ready, C.AtPrefix, C.Admissible, KeptTrees, NoCandidate;
      if cutover.Some? {
        if !oldExists && livePolicy.None? {
          return false;
        }
        ok := ExchangeFiles(plan, true, sameCredentials);
        if !ok {
          return false;
        }
      }
      FilesAreBack(View(), plan);
      return true;
    }

    /** The actions up to the backup. */
    method PerformEarly(action: T.Action) returns (a: T.Answer)
      requires Entered(action, View()) && (action.CurrentVersion? || action.Preflight? || action.PrepareCandidate?
        || action.StopOriginal? || action.BackupOriginal?)
      modifies this
      ensures Contract(action, old(View()), a, View())
    {
      hide Ready, Untouched, Claims, NoCandidate;
      a := T.Raised;
      match action
      case CurrentVersion =>
        var v := CurrentVersion();
        if v.Some? { a := T.Returned(T.AVersion(v.value)); }
      case Preflight(plan) =>
        var ok := Preflight(plan);
        if ok { a := T.Returned(T.Nothing); }
      case PrepareCandidate(plan) =>
        var receipt := PrepareCandidate(plan);
        if receipt.Some? { a := T.Returned(T.ACandidate(receipt.value)); }
      case StopOriginal(plan) =>
        var ok := StopOriginal(plan);
        if ok { a := T.Returned(T.Nothing); }
      case BackupOriginal(plan) =>
        var receipt := BackupOriginal(plan);
        if receipt.Some? { a := T.Returned(T.ABackup(receipt.value)); }
    }

    /** The actions that replace the installation, or put it back. */
    method PerformLate(action: T.Action, sameCredentials: bool) returns (a: T.Answer)
      requires Entered(action, View()) && (action.StartCandidate? || action.VerifyCandidate? || action.RestoreOriginal?
        || action.CheckOriginal?)
      modifies this, files`live, files`pending, files`trees, files`applied, files`restored, files`tick
      ensures Contract(action, old(View()), a, View())
      ensures SmoothFrom(old(tick)) && files.SmoothFrom(old(files.tick)) && (forall t :: newIds(t) !in old(containers))
        && polls > 0
        ==> Performs(action, old(View()), sameCredentials, a, View())
    {
      hide Ready, ReadyToStart, CandidateStarted, Updated, Reinstated, RestoredOk, RestorePossible, NoCandidate,
        Inherits,
        Deployed, Kept, Claims, BuiltFrom;
      a := T.Raised;
      match action
      case StartCandidate(plan, candidate, receipt) =>
        var ok := StartCandidate(plan, candidate.value, receipt.value);
        if ok { a := T.Returned(T.Nothing); }
      case VerifyCandidate(plan) =>
        var ok := VerifyCandidate(plan);
        if ok { a := T.Returned(T.Nothing); }
      case RestoreOriginal(plan, receipt, _) =>
        var ok := RestoreOriginal(plan, receipt, sameCredentials);
        if ok { a := T.Returned(T.Nothing); }
      case CheckOriginal(plan) =>
        var ok := VerifyOriginal(plan);
        if ok { a := T.Returned(T.Nothing); }
    }

    /** The entry point of the runner: whatever action it asks for, with whatever arguments, the
        answer and the new state of the host satisfy the contract. */
    method Perform(action: T.Action, sameCredentials: bool) returns (a: T.Answer)
      requires Entered(action, View())
      modifies this, files`live, files`pending, files`trees, files`applied, files`restored, files`tick
      ensures Contract(action, old(View()), a, View())
      ensures SmoothFrom(old(tick)) && files.SmoothFrom(old(files.tick)) && (forall t :: newIds(t) !in old(containers))
        && polls > 0
        ==> Performs(action, old(View()), sameCredentials, a, View())
    {
      hide Entered, Contract;
      if action.StartCandidate? || action.VerifyCandidate? || action.RestoreOriginal? || action.CheckOriginal? {
        a := PerformLate(action, sameCredentials);
      } else {
        a := PerformEarly(action);
      }
    }

    /** The restored original is healthy; only then the candidate's container is removed. */
    method VerifyOriginal(plan: T.Plan) returns (ok: bool)
      requires Reinstated(View(), plan)
      modifies this`containers, this`tick
      ensures Kept(View(), plan) && Claims(old(containers), containers, plan.id)
      ensures ok ==> RestoredOk(View(), plan)
      // Exactly when the probe is answered and the candidate's container, if there is one, is looked
      // at and removed.
      ensures ok <==> exists t: nat :: Heard(old(tick), t) && (liveId.Some? ==> Flawless(t, t + 2))
      ensures SmoothFrom(old(tick)) && polls > 0 ==> ok
      // An original that never answers does not count as restored, and the candidate's container stays.
      ensures (forall k: nat :: Probe(old(tick), k) != Smooth) ==> !ok && containers == old(containers)
    {
      hide Reinstated, RestoredOk, Kept, Claims, Owns, Heard, Probe;
      ghost var t0 := tick;
      HeardUniquely(t0);
      if SmoothFrom(t0) && polls > 0 { HeardAtOnce(t0); }
      forall t | Heard(t0, t) ensures exists k: nat :: Probe(t0, k) == Smooth { HeardIsAnswer(t0, t); }
      StartedIsBack(View(), plan);
      ok := Health(restorePolicy);
      if ok && liveId.Some? {
        ok := Owned(liveId.value, built.value.image, LiveRole, plan.id);
        if !ok || containers[liveId.value].running {
          return false;
        }
        ok := RemoveContainer(liveId.value);
      }
    }
  }

  // ----------------------------------------------------------------------------------------
  // How the invariant survives single changes

  lemma CopyLeftBehind(h: Host, h': Host, plan: T.Plan, o: Offer)
    requires Ready(h, plan) && h.cutover.None? && h.built.Some? && OfferOk(o, h.gen, h.built.value.release)
    requires h' == h.(gen := Beside(o, h.gen))
    ensures Ready(h', plan)
  {
    OfferIsFresh(o, h.gen, h.built.value.release, h.base);
    hide OfferOk, DockerOk;
  }

  lemma PlanRemembered(h: Host, h': Host, plan: T.Plan, o: Offer)
    requires Ready(h, plan) && h.cutover.None? && h.liveId.None? && !OriginalRuns(h)
    requires h.built.Some? && OfferOk(o, h.gen, h.built.value.release)
    requires var g := Beside(o, h.gen); h' == h.(gen := g, prepared := g, cutover := Some(PlanFor(o, h.gen)))
    ensures Ready(h', plan) && "data" in PlanFor(o, h.gen).ids && Reversible(h')
    ensures C.Completes(h'.gen, PlanFor(o, h.gen), false, true)
    ensures Heirs(PlanFor(o, h.gen), h.gen, h'.gen) && Stocked(PlanFor(o, h.gen), h.built.value.release, h'.gen)
  {
    NobodyRuns(h, plan);
    StillRemembered(h, h', plan);
    PreparedIsSound(o, h.gen, h.built.value.release, h.base);
    OfferIsFresh(o, h.gen, h.built.value.release, h.base);
    hide OfferOk, PlanFor, Beside, NoCandidate, MemoryOk, DockerOk, KeptTrees, C.PlanOk, C.AtPrefix, Safe, FreshIds,
      C.Completes, Recorded, Heirs, Stocked;
  }

  /** The new entries of the data and the environment hold what the live ones held. */
  ghost predicate Heirs(cp: C.Plan, g0: C.Generations, g: C.Generations) {
    HeirOf(cp, g0, g, "data") && HeirOf(cp, g0, g, ".env")
  }

  ghost predicate HeirOf(cp: C.Plan, g0: C.Generations, g: C.Generations, n: string) {
    n in cp.ids && cp.ids[n].candidate in g.trees && Live(g0, n) == Some(g.trees[cp.ids[n].candidate])
  }

  lemma OfferHeirs(o: Offer, g: C.Generations, release: map<string, Tree>)
    requires OfferOk(o, g, release)
    ensures Heirs(PlanFor(o, g), g, Beside(o, g)) && Stocked(PlanFor(o, g), release, Beside(o, g))
  {
    hide Contents;
  }

  /** The new entries are exactly those of the release, the data and the environment. */
  ghost predicate Stocked(cp: C.Plan, release: map<string, Tree>, g: C.Generations) {
    && "data" in cp.ids
    && cp.ids.Keys == release.Keys + {"data", ".env"}
    && (forall n :: n in release ==>
          && n != "data" && cp.ids[n].candidate != cp.ids["data"].candidate
          && cp.ids[n].candidate in g.trees && g.trees[cp.ids[n].candidate] == release[n])
  }

  lemma StockDeployed(built: Built, cp: C.Plan, g: C.Generations, g': C.Generations)
    requires Stocked(cp, built.release, g) && g'.trees == g.trees && C.AtPrefix(g', cp, |cp.order|)
    ensures Deployed(Some(built), Some(cp), g')
  {
    hide C.AtPrefix;
    NameIsCandidate(cp, g', "data");
    forall n | n in built.release ensures C.Id(g'.live, n) == Some(cp.ids[n].candidate) {
      NameIsCandidate(cp, g', n);
    }
  }

  lemma HeirsInstalled(cp: C.Plan, g0: C.Generations, g: C.Generations, g': C.Generations)
    requires Heirs(cp, g0, g) && g'.trees == g.trees && C.AtPrefix(g', cp, |cp.order|)
    ensures Inherits(g0, g')
  {
    NameIsCandidate(cp, g', "data");
    NameIsCandidate(cp, g', ".env");
    hide C.AtPrefix;
  }

  lemma NameIsCandidate(cp: C.Plan, gen: C.Generations, n: string)
    requires C.AtPrefix(gen, cp, |cp.order|) && n in cp.ids
    ensures C.Id(gen.live, n) == Some(cp.ids[n].candidate)
  {
    var i :| 0 <= i < |cp.order| && cp.order[i] == n;
    assert C.PositionOf(gen, cp.ids[cp.order[i]], cp.order[i]) == C.Candidate;
  }

  lemma CandidateCreated(h: Host, h': Host, plan: T.Plan)
    requires Ready(h, plan) && h.liveId.None? && h.livePolicy.None? && h.cutover.Some? && h.built.Some?
      && !h.oldRemoveRequested
    requires h' == h.(containers := h'.containers, liveId := h'.liveId)
    requires AtMostOneMore(h.containers, h'.containers, h.built.value.image, plan.id, LiveRole, h'.liveId)
    ensures Ready(h', plan) && Claims(h.containers, h'.containers, plan.id)
  {
    hide FilesOk;
  }

  lemma CandidateEnrolled(h: Host, h': Host, plan: T.Plan)
    requires Ready(h, plan) && h.liveId.Some? && h.livePolicy.None? && h.enrollment == h.original
    requires h' == h.(livePolicy := h'.livePolicy) && h'.livePolicy.Some?
    requires h'.livePolicy.value.containerId == h.liveId.value && h'.livePolicy.value.image == h.built.value.image
    requires h'.livePolicy.value.version == plan.target
    ensures Ready(h', plan)
  {
    hide FilesOk, DockerOk;
  }

  lemma CandidateLaunched(h: Host, h': Host, plan: T.Plan, id: ContainerId)
    requires Ready(h, plan) && h.liveId == Some(id)
    requires h' == h.(containers := h'.containers)
    requires h'.containers == h.containers || h'.containers == Launched(h.containers, id)
    requires h.cutover.Some? && "data" in h.cutover.value.ids
    requires C.Id(h.gen.live, "data") == Some(h.cutover.value.ids["data"].candidate)
    ensures Ready(h', plan) && Claims(h.containers, h'.containers, plan.id)
  {
    hide FilesOk;
  }

  /** However the start ends. */
  lemma CandidateLaunches(h: Host, plan: T.Plan, id: ContainerId, policy: Policy)
    requires Ready(h, plan) && h.liveId == Some(id) && h.livePolicy.None? && h.enrollment == h.original
    requires policy.containerId == id && policy.image == h.built.value.image && policy.version == plan.target
    requires h.cutover.Some? && "data" in h.cutover.value.ids
    requires C.Id(h.gen.live, "data") == Some(h.cutover.value.ids["data"].candidate)
    ensures Claims(h.containers, h.containers, plan.id) && id in h.containers
    ensures var enrolled := h.(livePolicy := Some(policy));
      var launched := enrolled.(containers := Launched(h.containers, id));
      && Ready(enrolled, plan) && Ready(launched, plan) && Claims(h.containers, launched.containers, plan.id)
      && Running(launched, id, policy.image)
  {
    hide FilesOk;
    var enrolled := h.(livePolicy := Some(policy));
    CandidateEnrolled(h, enrolled, plan);
    CandidateLaunched(enrolled, enrolled, plan, id);
    CandidateLaunched(enrolled, enrolled.(containers := Launched(h.containers, id)), plan, id);
    assert Owns(h, plan);
    hide Ready;
  }

  lemma CandidateHalted(h: Host, h': Host, plan: T.Plan)
    requires Ready(h, plan)
    requires h' == h.(containers := h'.containers)
    requires h'.containers == h.containers || (h.liveId.Some? && h'.containers == Halted(h.containers, h.liveId.value))
    ensures Ready(h', plan) && Claims(h.containers, h'.containers, plan.id) && h'.containers.Keys == h.containers.Keys
    ensures h.liveId.None? || (h.liveId.value in h'.containers && !h'.containers[h.liveId.value].running)
      ==> NoCandidate(h'.containers, plan)
  {
    hide FilesOk;
  }

  /** Starting another container makes no candidate run. */
  lemma Relaunched(before: map<ContainerId, Container>, after: map<ContainerId, Container>, plan: T.Plan,
                   id: ContainerId)
    requires NoCandidate(before, plan) && id in before && !IsCandidateContainer(before[id], plan.id)
    requires after == before || after == Launched(before, id)
    ensures NoCandidate(after, plan) && Claims(before, after, plan.id) && id in after
      && after[id].image == before[id].image
    ensures after == Launched(before, id) ==> after[id].running
    ensures forall c :: c in before ==> c in after && after[c] == before[c].(running := after[c].running)
  {
  }

  /** However it is stopped. */
  lemma CandidateStopped(h: Host, plan: T.Plan)
    requires Ready(h, plan) && h.liveId.Some?
    ensures var h' := h.(containers := Halted(h.containers, h.liveId.value));
      && Ready(h', plan) && Claims(h.containers, h'.containers, plan.id) && h'.containers.Keys == h.containers.Keys
      && (h.liveId.value in h.containers ==> NoCandidate(h'.containers, plan))
      && Up(h'.containers, h.original.containerId) == Up(h.containers, h.original.containerId)
  {
    assert h.liveId.value != h.original.containerId;
    CandidateHalted(h, h.(containers := Halted(h.containers, h.liveId.value)), plan);
    hide Ready, Claims, NoCandidate;
  }

  lemma OriginalRevived(h: Host, plan: T.Plan, id: ContainerId)
    requires Ready0(h, plan, id) && Owns(h, plan)
    ensures h.enrollment == h.original || Some(h.enrollment) == h.livePolicy
    ensures id in h.containers && h.containers[id].image == h.original.image
    ensures NoCandidate(h.containers, plan) && Claims(h.containers, h.containers, plan.id)
    ensures NoCandidate(Launched(h.containers, id), plan)
      && Claims(h.containers, Launched(h.containers, id), plan.id)
    ensures var policy := h.original.(containerId := id);
      var back := h.(restorePolicy := policy, enrollment := policy);
      && (h.containers[id].running ==> Reinstated(back, plan))
      && Reinstated(back.(containers := Launched(h.containers, id)), plan)
  {
    hide KeptTrees, NoCandidate, Claims, Launched;
    Relaunched(h.containers, h.containers, plan, id);
    Relaunched(h.containers, Launched(h.containers, id), plan, id);
  }

  lemma ClaimsTwice(a: map<ContainerId, Container>, b: map<ContainerId, Container>, c: map<ContainerId, Container>,
                    id: string)
    requires Claims(a, b, id) && Claims(b, c, id)
    ensures Claims(a, c, id)
  {
  }

  /** The memory invariants do not mention the files, and survive learning about a plan. */
  lemma StillRemembered(h: Host, h': Host, plan: T.Plan)
    requires MemoryOk(h, plan) && Owns(h, plan) && (h.cutover.Some? ==> h'.cutover.Some?)
    requires h' == h.(gen := h'.gen, cutover := h'.cutover, prepared := h'.prepared)
    ensures MemoryOk(h', plan) && Owns(h', plan)
  {
  }

  /** The files are back, no candidate runs, and this container can serve the original. */
  ghost predicate Ready0(h: Host, plan: T.Plan, identity: ContainerId) {
    && h.activePlan == Some(plan) && h.original == h.enrolled
    && (h.enrollment == h.original || Some(h.enrollment) == h.livePolicy)
    && (h.liveId.Some? ==> h.built.Some? && h.liveId.value != identity)
    && NoCandidate(h.containers, plan)
    && h.gen.live == h.base.live && KeptTrees(h.base, h.gen)
    && identity in h.containers && h.containers[identity].image == h.original.image
    && !IsCandidateContainer(h.containers[identity], plan.id)
  }

  lemma StillOriginal(h: Host, plan: T.Plan)
    requires Ready(h, plan) && NoCandidate(h.containers, plan) && h.original.containerId in h.containers
    requires h.gen.live == h.base.live && KeptTrees(h.base, h.gen)
    ensures Ready0(h, plan, h.original.containerId) && Owns(h, plan)
  {
    hide FilesOk, KeptTrees;
  }

  lemma SpareCreated(h: Host, h': Host, plan: T.Plan, id: Option<ContainerId>)
    requires Ready(h, plan) && NoCandidate(h.containers, plan) && (h.liveId.Some? ==> h.liveId.value in h.containers)
    requires h.gen.live == h.base.live && KeptTrees(h.base, h.gen)
    requires h' == h.(containers := h'.containers)
    requires AtMostOneMore(h.containers, h'.containers, h.original.image, plan.id, RestoredRole, id)
    ensures NoCandidate(h'.containers, plan) && Claims(h.containers, h'.containers, plan.id)
    ensures id.Some? ==> Ready0(h', plan, id.value) && Owns(h', plan)
  {
    hide FilesOk, KeptTrees;
  }

  lemma CandidateIsEnrolled(h: Host, h': Host, plan: T.Plan)
    requires Ready(h, plan) && h.livePolicy.Some?
    requires h' == h.(enrollment := h'.enrollment)
      && (h'.enrollment == h.enrollment || Some(h'.enrollment) == h.livePolicy)
    ensures Ready(h', plan)
  {
    hide FilesOk, DockerOk;
  }

  lemma ClaimsReflexive(h: Host, plan: T.Plan)
    ensures Claims(h.containers, h.containers, plan.id)
  {
  }

  /** The original is there and down, and is not the container of the candidate. */
  lemma ReadyToRetire(h: Host, plan: T.Plan)
    requires CandidateStarted(h, plan)
    ensures h.original.containerId in h.containers && !h.containers[h.original.containerId].running
    ensures h.containers[h.original.containerId].image == h.original.image
    ensures h.livePolicy.value.containerId != h.original.containerId
  {
    hide FilesOk, C.AtPrefix;
  }

  lemma StartFacts(h: Host, plan: T.Plan)
    requires ReadyToStart(h, plan)
    ensures h.activePlan == Some(plan) && Ready(h, plan) && Reversible(h)
    ensures NoCandidate(h.containers, plan) && Claims(h.containers, h.containers, plan.id)
  {
  }

  lemma OriginalRetired(h: Host, h': Host, plan: T.Plan)
    requires Ready(h, plan) && h.livePolicy.Some?
    requires h' == h.(containers := h'.containers, oldRemoveRequested := true)
    requires h'.containers == h.containers || h'.containers == h.containers - {h.original.containerId}
    ensures Ready(h', plan) && Claims(h.containers, h'.containers, plan.id)
  {
    hide FilesOk;
  }

  lemma NowUpdated(h: Host, plan: T.Plan)
    requires Ready(h, plan) && h.cutover.Some? && C.AtPrefix(h.gen, h.cutover.value, |h.cutover.value.order|)
    requires h.livePolicy.Some? && h.enrollment == h.livePolicy.value
    requires Running(h, h.enrollment.containerId, h.enrollment.image) && h.original.containerId !in h.containers
    requires Deployed(h.built, h.cutover, h.gen)
    ensures Updated(h, plan)
  {
    hide FilesOk, C.AtPrefix, DockerOk;
  }

  /** What the rollback relies on. In particular the rejections of a foreign plan and of a missing
      anchor cannot happen. */
  lemma ReadyFacts(h: Host, plan: T.Plan)
    requires Ready(h, plan)
    ensures Kept(h, plan)
    ensures h.activePlan == Some(plan) && (h.liveId.Some? ==> h.built.Some?)
    ensures h.oldRemoveRequested ==> h.livePolicy.Some?
    ensures !h.oldRemoveRequested ==> h.original.containerId in h.containers
  {
    ReadyIsKept(h, plan);
  }

  /** Before a candidate is remembered none can be running. */
  lemma NobodyRuns(h: Host, plan: T.Plan)
    requires Ready(h, plan) && h.liveId.None?
    ensures NoCandidate(h.containers, plan)
  {
  }

  /** The data entry of the candidate is the live one. */
  ghost predicate DataExchanged(h: Host) {
    && h.cutover.Some? && "data" in h.cutover.value.ids
    && C.PositionOf(h.gen, h.cutover.value.ids["data"], "data") == C.Candidate
  }

  /** A rollback that has not been completed before has everything it needs, up to the credentials,
      which count exactly when the live data is the candidate's. */
  lemma ReadyCanRestore(h: Host, plan: T.Plan, receipt: Option<T.Backup>, sameCredentials: bool)
    requires Ready(h, plan) && Reversible(h) && (receipt.Some? ==> Matches(receipt.value, h, plan))
    ensures RestorePossible(h, plan, receipt, sameCredentials) <==> (DataExchanged(h) ==> sameCredentials)
  {
    hide C.PlanOk, C.AtPrefix, Safe, KeptTrees, FreshIds, Recorded, MemoryOk, DockerOk, C.Checked, C.PositionOf;
    if h.cutover.Some? {
      var cp := h.cutover.value;
      forall n | n in cp.ids ensures C.Checked(h.gen, cp, n, true) {
        OriginalIsChecked(cp, h.prepared, h.gen, n);
      }
    }
  }

  /** In every state that exchanges and a running candidate can reach, each original entry still
      passes the check of a rollback, wherever it is. */
  lemma OriginalIsChecked(cp: C.Plan, g0: C.Generations, g: C.Generations, n: string)
    requires C.AtPrefix(g0, cp, 0) && Recorded(cp, g0) && Safe(cp, g0, g) && n in cp.ids
    ensures C.Checked(g, cp, n, true)
  {
    hide C.Selected;
    var k :| C.AtPrefix(g, cp, k);
    var i :| 0 <= i < |cp.order| && cp.order[i] == n;
    assert C.PositionOf(g, cp.ids[cp.order[i]], cp.order[i]) == if i < k then C.Candidate else C.Original;
    assert C.PositionOf(g0, cp.ids[cp.order[i]], cp.order[i]) == C.Original;
    hide C.AtPrefix, C.Conserved;
  }

  lemma FilesAreBack(h: Host, plan: T.Plan)
    requires Ready(h, plan) && (h.cutover.Some? ==> C.AtPrefix(h.gen, h.cutover.value, 0))
    ensures h.gen.live == h.base.live && KeptTrees(h.base, h.gen)
  {
    hide KeptTrees, C.AtPrefix, MemoryOk, DockerOk;
    if h.cutover.Some? {
      RolledBackFiles(h.base, h.prepared, h.cutover.value, h.gen);
    }
  }

  lemma BackIsKept(h: Host, plan: T.Plan)
    requires h.gen.live == h.base.live && KeptTrees(h.base, h.gen) && NoCandidate(h.containers, plan)
    ensures Kept(h, plan)
  {
    hide KeptTrees;
  }

  /** With the original started, only the candidate's container is left to be removed. */
  lemma StartedIsBack(h: Host, plan: T.Plan)
    requires Reinstated(h, plan)
    ensures Kept(h, plan) && Claims(h.containers, h.containers, plan.id)
    ensures h.restorePolicy.image == h.enrolled.image
    ensures h.restorePolicy.containerId in h.containers && h.containers[h.restorePolicy.containerId].running
      && h.containers[h.restorePolicy.containerId].image == h.restorePolicy.image
    ensures h.liveId.None? ==> RestoredOk(h, plan)
    ensures h.liveId.Some? ==>
      && h.built.Some? && h.liveId.value in h.containers && !h.containers[h.liveId.value].running
      && h.containers[h.liveId.value].image == h.built.value.image
      && IsCandidateContainer(h.containers[h.liveId.value], plan.id)
      && var h' := h.(containers := h.containers - {h.liveId.value});
         Kept(h', plan) && Claims(h.containers, h'.containers, plan.id) && RestoredOk(h', plan)
  {
    hide KeptTrees;
    BackIsKept(h, plan);
    if h.liveId.Some? { BackIsKept(h.(containers := h.containers - {h.liveId.value}), plan); }
  }

  /** The conditions under which a rollback has everything it needs. */
  ghost predicate RestorePossible(h: Host, plan: T.Plan, receipt: Option<T.Backup>, sameCredentials: bool) {
    && (receipt.Some? ==> h.backup.Some? && receipt.value == T.Backup(plan.id, plan.current, h.backup.value.manifest))
    && (h.liveId.Some? ==>
          && h.built.Some? && h.liveId.value in h.containers
          && h.containers[h.liveId.value].image == h.built.value.image
          && IsCandidateContainer(h.containers[h.liveId.value], plan.id))
    && (h.cutover.Some? ==> C.Admissible(h.gen, h.cutover.value, true, sameCredentials))
  }
}
