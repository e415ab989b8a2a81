/** The whole updater: the service machine driving the concrete host, with an installation that
    keeps writing its data, and the theorem that the journal never lies about the host. */
module System {
  import opened Protocol
  import opened History
  import opened JournalFile
  import opened JournalLaws
  import T = Transaction
  import opened TransactionLaws
  import opened Trees
  import C = Cutover
  import opened CutoverLaws
  import opened HostExecutor

  /** `start` is the host at the moment the last request was recorded, and `own` the files as the
      original installation itself has left them since. */
  datatype Sys = Sys(w: T.World, h: Host, start: Host, own: C.Generations)

  ghost function Jobs(w: T.World): seq<Job> {
    if w.store.disk.Some? then w.store.disk.value.jobs else []
  }

  function PlanOfJob(job: Job): T.Plan {
    T.Plan(job.id, job.target, job.current)
  }

  // ----------------------------------------------------------------------------------------
  // Steps

  /** The host follows the contract of its actions; a new process has lost the adapter's memory. */
  ghost predicate HostMoves(s: Sys, m: T.Move, h': Host) {
    match m
    case Host(a) =>
      if s.w.run.Some? && T.AtHost(s.w.run.value.pc)
      then Entered(T.ActionAt(s.w.run.value), s.h) ==> Contract(T.ActionAt(s.w.run.value), s.h, a, h')
      else h' == s.h
    case Restart(_, _) => h' == if s.w.up then s.h else s.h.(activePlan := None)
    case _ => h' == s.h
  }

  ghost predicate Moves(s: Sys, m: T.Move, s': Sys) {
    && s'.w == T.Step(s.w, m)
    && HostMoves(s, m, s'.h)
    && (if |Jobs(s'.w)| > |Jobs(s.w)| then s'.start == s.h && s'.own == s.h.gen
        else s'.start == s.start && s'.own == s.own)
  }

  /** The last request has not reached the stop, or failed before it. */
  ghost predicate Settled(jobs: seq<Job>) {
    jobs == [] || jobs[|jobs| - 1].state in BEFORE_CUTOVER + {Failed}
  }

  /** Until the original is to be stopped, the enrolled container is the one that writes; from
      then on the original is that container or the one recreated for it. */
  ghost predicate OriginalTurn(s: Sys) {
    if Settled(Jobs(s.w)) then Up(s.h.containers, s.h.enrollment.containerId) else OriginalRuns(s.h)
  }

  ghost predicate CandidateTurn(s: Sys) {
    !Settled(Jobs(s.w)) && !NoCandidate(s.h.containers, PlanOfJob(Jobs(s.w)[|Jobs(s.w)| - 1]))
  }

  ghost predicate CanWrite(h: Host) {
    "data" in h.gen.live && h.gen.live["data"] in h.gen.trees
  }

  /** New contents of the live data directory. What is written to the original generation is what
      an update expects to find again there. */
  ghost function Written(h: Host, t: Tree): Host
    requires CanWrite(h)
  {
    var g := h.gen.(trees := h.gen.trees[h.gen.live["data"] := t]);
    h.(gen := g, base := if h.gen.live == h.base.live then g else h.base)
  }

  /** Only what the original writes becomes its own. */
  ghost function Owned(own: C.Generations, h: Host, t: Tree, original: bool): C.Generations
    requires CanWrite(h)
  {
    if original then own.(trees := own.trees[h.gen.live["data"] := t]) else own
  }

  ghost predicate Writes(s: Sys, t: Tree, original: bool, s': Sys) {
    && (if original then OriginalTurn(s) else CandidateTurn(s))
    && CanWrite(s.h) && s' == s.(h := Written(s.h, t), own := Owned(s.own, s.h, t, original))
  }

  ghost predicate SysStep(s: Sys, s': Sys) {
    (exists m :: Moves(s, m, s')) || (exists t, original :: Writes(s, t, original, s'))
  }

  /** A service that was just installed, on a host that no update has ever touched. */
  ghost predicate Initial(s: Sys) {
    && s.w == T.FRESH && s.h.activePlan.None?
    && forall c :: c in s.h.containers ==> s.h.containers[c].role != LiveRole
  }

  ghost predicate IsBehaviour(b: seq<Sys>) {
    && |b| > 0 && Initial(b[0])
    && forall i :: 0 <= i < |b| - 1 ==> SysStep(b[i], b[i + 1])
  }

  // ----------------------------------------------------------------------------------------
  // Where the host stands, for every point of the program and every durable state

  /** The same entries, with the same contents except for the data of the installation itself. */
  ghost predicate OwnWrites(a: C.Generations, b: C.Generations) {
    && b.live == a.live
    && forall i :: i in a.trees ==> i in b.trees && (b.trees[i] == a.trees[i] || C.Id(a.live, "data") == Some(i))
  }

  /** The live files are the original's, each with the content in which it left them. */
  ghost predicate AsLeft(own: C.Generations, g: C.Generations) {
    g.live == own.live && KeptTrees(own, g)
  }

  /** The updater has changed nothing that the installation depends on. */
  ghost predicate Same(start: Host, own: C.Generations, h: Host) {
    && h.containers == start.containers && h.enrollment == start.enrollment
    && h.gen.pending == start.gen.pending && AsLeft(own, h.gen)
  }

  /** What the adapter remembers as the original is what was there at the start, up to what the
      original has written since. */
  ghost predicate Rooted(start: Host, own: C.Generations, h: Host) {
    h.enrolled == start.enrollment && AsLeft(own, h.base)
  }

  ghost predicate BackupKnown(c: T.Control, h: Host) {
    c.backup.Some? ==> Matches(c.backup.value, h, c.plan)
  }

  ghost predicate Invaded(c: T.Control, h: Host) {
    var plan := c.plan;
    if Order(c.pc) <= 12 then Untouched(h, plan) && !OriginalRuns(h)
    else if Order(c.pc) <= 15 then ReadyToStart(h, plan) && BackupKnown(c, h)
    else if Order(c.pc) <= 17 then CandidateStarted(h, plan) && BackupKnown(c, h) && Reversible(h)
    else if Order(c.pc) <= 19 then Updated(h, plan) && BackupKnown(c, h)
    else if Order(c.pc) <= 23 then Ready(h, plan) && BackupKnown(c, h) && Reversible(h)
    else if c.pc == T.VerifyOriginal then Reinstated(h, plan)
    else if c.pc == T.SaveRestored then RestoredOk(h, plan)
    else Kept(h, plan)
  }

  /** While a transaction runs. */
  ghost predicate Phase(c: T.Control, state: State, h: Host, start: Host, own: C.Generations) {
    if Order(c.pc) <= 1 then Unknown(h, c.plan) && Same(start, own, h)
    else if Order(c.pc) <= 9 then Untouched(h, c.plan) && Same(start, own, h) && Rooted(start, own, h)
    else if c.pc == T.SaveFailed || (c.pc == T.ReadState && state in BEFORE_CUTOVER) then Same(start, own, h)
    else Rooted(start, own, h) && Invaded(c, h)
  }

  /** While none runs: after the last one ended, was interrupted, or was reconciled. */
  ghost predicate Idle(plan: T.Plan, state: State, h: Host, start: Host, own: C.Generations) {
    var mine := h.(activePlan := Some(plan));
    if state in BEFORE_CUTOVER + {Failed} then Same(start, own, h)
    else
      && Rooted(start, own, h)
      && match state
         case Complete => Updated(mine, plan)
         case Restored => RestoredOk(mine, plan)
         case _ => Kept(h, plan)
  }

  /** Labels and memory only ever name requests that have been recorded. */
  ghost predicate Named(h: Host, jobs: seq<Job>) {
    && (forall c :: c in h.containers && h.containers[c].role == LiveRole ==>
          Find(jobs, h.containers[c].request) < |jobs|)
    && (h.activePlan.Some? ==> Find(jobs, h.activePlan.value.id) < |jobs|)
  }

  ghost predicate Stands(run: Option<T.Control>, jobs: seq<Job>, h: Host, start: Host, own: C.Generations) {
    jobs != [] ==>
      var last := jobs[|jobs| - 1];
      if run.Some? then Phase(run.value, last.state, h, start, own)
      else Idle(PlanOfJob(last), last.state, h, start, own)
  }

  /** From its start on the candidate is the one whose archive the journal names. */
  ghost predicate FromArchive(run: Option<T.Control>, last: Job, h: Host) {
    (if run.Some? then 16 <= Order(run.value.pc) < 20 else last.state == Complete) ==>
      h.built.Some? && last.artifact == Some(h.built.value.archive)
  }

  ghost predicate Traced(run: Option<T.Control>, jobs: seq<Job>, h: Host, start: Host, own: C.Generations) {
    jobs != [] ==> OwnWrites(start.gen, own) && FromArchive(run, jobs[|jobs| - 1], h)
  }

  ghost predicate SysInv(s: Sys) {
    && Inv(s.w) && Named(s.h, Jobs(s.w)) && Stands(s.w.run, Jobs(s.w), s.h, s.start, s.own)
    && Traced(s.w.run, Jobs(s.w), s.h, s.start, s.own)
  }

  // ----------------------------------------------------------------------------------------
  // The installation writes

  lemma ReadyWrites(h: Host, plan: T.Plan, t: Tree)
    requires Ready(h, plan) && CanWrite(h)
    requires h.cutover.None? || OriginalRuns(h) || !NoCandidate(h.containers, plan)
    ensures Ready(Written(h, t), plan)
    ensures h.cutover.Some? ==> Written(h, t).base == h.base
  {
    hide MemoryOk, DockerOk, Safe, C.PlanOk, C.AtPrefix;
    var h' := Written(h, t);
    if h.cutover.Some? {
      var cp := h.cutover.value;
      DataMoved(h.base, h.prepared, cp, h.gen);
      assert IsCandidate(cp, h.gen.live["data"]);
      assert Mutates(cp, h.gen, h'.gen);
      MutationKeepsFiles(h.base, h.prepared, cp, h.gen, h'.gen);
    }
    assert MemoryOk(h', plan) by { MemorySame(h, h', plan); }
  }

  lemma MemorySame(h: Host, h': Host, plan: T.Plan)
    requires MemoryOk(h, plan) && h' == h.(gen := h'.gen, base := h'.base)
    ensures MemoryOk(h', plan)
  {
  }

  lemma KeptWrites(h: Host, plan: T.Plan, t: Tree)
    requires Kept(h, plan) && CanWrite(h)
    requires OriginalRuns(h) || !NoCandidate(h.containers, plan)
    ensures Kept(Written(h, t), plan)
  {
    hide NoCandidate;
  }

  /** Which generation is live tells who may be writing. */
  lemma KeptSides(h: Host, plan: T.Plan)
    requires Kept(h, plan)
    ensures KeptTrees(h.base, h.gen)
    ensures OriginalRuns(h) ==> h.gen.live == h.base.live
    ensures !NoCandidate(h.containers, plan) ==> h.gen.live != h.base.live
  {
  }

  lemma SameWrites(start: Host, own: C.Generations, h: Host, t: Tree)
    requires Same(start, own, h) && CanWrite(h)
    ensures Same(start, Owned(own, h, t, true), Written(h, t))
  {
  }

  /** What the original writes is both its own and remembered; what the candidate writes is neither. */
  lemma RootedWrites(start: Host, own: C.Generations, h: Host, t: Tree, original: bool)
    requires Rooted(start, own, h) && CanWrite(h) && KeptTrees(h.base, h.gen)
      && (original <==> h.gen.live == h.base.live)
    ensures Rooted(start, Owned(own, h, t, original), Written(h, t))
  {
  }

  lemma PositionsSame(cp: C.Plan, h: Host, t: Tree, k: int)
    requires CanWrite(h) && C.AtPrefix(h.gen, cp, k)
    ensures C.AtPrefix(Written(h, t).gen, cp, k)
  {
  }

  /** Only the data is ever written. */
  lemma DeployedWrites(h: Host, t: Tree)
    requires Deployed(h.built, h.cutover, h.gen) && CanWrite(h)
    ensures var h' := Written(h, t); Deployed(h'.built, h'.cutover, h'.gen)
  {
  }

  lemma InvadedKept(c: T.Control, h: Host)
    requires Invaded(c, h)
    ensures Kept(h, c.plan)
  {
    hide Ready, NoCandidate, C.AtPrefix, KeptTrees, Kept;
    if Order(c.pc) <= 23 {
      ReadyIsKept(h, c.plan);
    } else if Order(c.pc) <= 25 {
      BackIsKept(h, c.plan);
    }
  }

  lemma InvadedWrites(c: T.Control, h: Host, t: Tree)
    requires Invaded(c, h) && CanWrite(h) && (OriginalRuns(h) || !NoCandidate(h.containers, c.plan))
    ensures Invaded(c, Written(h, t))
  {
    hide Ready, NoCandidate, C.AtPrefix, KeptTrees, Kept, Reinstated, RestoredOk, Deployed;
    var plan, k := c.plan, Order(c.pc);
    if k <= 23 {
      ReadyWrites(h, plan, t);
      if 15 < k <= 19 {
        PositionsSame(h.cutover.value, h, t, |h.cutover.value.order|);
        DeployedWrites(h, t);
      }
    } else if k > 25 {
      KeptWrites(h, plan, t);
    } else {
      BackWrites(h, plan, t);
    }
  }

  lemma BackWrites(h: Host, plan: T.Plan, t: Tree)
    requires CanWrite(h)
    ensures Reinstated(h, plan) ==> Reinstated(Written(h, t), plan)
    ensures RestoredOk(h, plan) ==> RestoredOk(Written(h, t), plan)
  {
  }

  lemma UntouchedWrites(h: Host, plan: T.Plan, t: Tree)
    requires Untouched(h, plan) && CanWrite(h)
    ensures Untouched(Written(h, t), plan)
    ensures KeptTrees(h.base, h.gen) && h.gen.live == h.base.live && NoCandidate(h.containers, plan)
  {
    ReadyWrites(h, plan, t);
    ReadyIsKept(h, plan);
    NobodyRuns(h, plan);
    hide Ready, NoCandidate;
  }

  /** Whose turn it is, by the durable state of the request. */
  ghost predicate MayWrite(h: Host, plan: T.Plan, state: State, original: bool) {
    if state in BEFORE_CUTOVER + {Failed} then original
    else if original then OriginalRuns(h) else !NoCandidate(h.containers, plan)
  }

  lemma PhaseWrites(c: T.Control, job: Job, h: Host, start: Host, own: C.Generations, t: Tree, original: bool)
    requires RunOk(c, job) && Phase(c, job.state, h, start, own) && CanWrite(h)
      && MayWrite(h, c.plan, job.state, original)
    ensures Phase(c, job.state, Written(h, t), start, Owned(own, h, t, original))
  {
    hide Invaded, Untouched, KeptTrees, NoCandidate, OriginalRuns, Same, Rooted, Mentions, IsDigest, Owned, Written;
    if Order(c.pc) <= 9 {
      if Order(c.pc) > 1 {
        UntouchedWrites(h, c.plan, t);
        RootedWrites(start, own, h, t, original);
      } else {
        UnknownWrites(h, c.plan, t);
      }
      SameWrites(start, own, h, t);
    } else if c.pc == T.SaveFailed || (c.pc == T.ReadState && job.state in BEFORE_CUTOVER) {
      SameWrites(start, own, h, t);
    } else {
      assert job.state !in BEFORE_CUTOVER;
      InvadedWrites(c, h, t);
      InvadedKept(c, h);
      KeptSides(h, c.plan);
      RootedWrites(start, own, h, t, original);
    }
  }

  lemma UnknownWrites(h: Host, plan: T.Plan, t: Tree)
    requires Unknown(h, plan) && CanWrite(h)
    ensures Unknown(Written(h, t), plan)
  {
  }

  lemma IdleWrites(plan: T.Plan, state: State, h: Host, start: Host, own: C.Generations, t: Tree, original: bool)
    requires Idle(plan, state, h, start, own) && CanWrite(h) && MayWrite(h, plan, state, original)
    ensures Idle(plan, state, Written(h, t), start, Owned(own, h, t, original))
  {
    hide Ready, KeptTrees, NoCandidate, OriginalRuns, Same, Rooted, Kept, Deployed, C.AtPrefix;
    if state in BEFORE_CUTOVER + {Failed} {
      SameWrites(start, own, h, t);
    } else {
      IdleKeeps(plan, state, h, start, own);
      KeptSides(h, plan);
      RootedWrites(start, own, h, t, original);
      var mine := h.(activePlan := Some(plan));
      assert Written(mine, t) == Written(h, t).(activePlan := Some(plan));
      match state
      case Complete =>
        MineRuns(h, plan);
        ReadyWrites(mine, plan, t);
        PositionsSame(h.cutover.value, h, t, |h.cutover.value.order|);
        DeployedWrites(h, t);
      case Restored =>
        BackWrites(mine, plan, t);
      case _ =>
        KeptWrites(h, plan, t);
    }
  }

  lemma MineRuns(h: Host, plan: T.Plan)
    ensures OriginalRuns(h.(activePlan := Some(plan))) == OriginalRuns(h)
  {
  }

  // ----------------------------------------------------------------------------------------
  // The service moves

  /** Whenever a transaction ends, or is cut short, the host is where its durable state says. */
  lemma PhaseIsIdle(c: T.Control, job: Job, h: Host, start: Host, own: C.Generations)
    requires RunOk(c, job) && Phase(c, job.state, h, start, own)
    ensures Idle(c.plan, job.state, h, start, own)
  {
    hide Same, Rooted, Kept, Ready, NoCandidate, Mentions, IsDigest, RestoredOk, Reinstated, BackupKnown;
    if job.state !in BEFORE_CUTOVER {
      if 2 <= Order(c.pc) <= 23 {
        ReadyIsKept(h, c.plan);
      } else if c.pc == T.VerifyOriginal || c.pc == T.SaveRestored {
        BackIsKeptHere(h, c.plan);
      }
    }
  }

  lemma BackIsKeptHere(h: Host, plan: T.Plan)
    requires Reinstated(h, plan) || RestoredOk(h, plan)
    ensures Kept(h, plan)
  {
    BackIsKept(h, plan);
  }

  /** A write moves the durable state and the program together. */
  lemma SavePhase(c: T.Control, state: State, h: Host, start: Host, own: C.Generations)
    requires Phase(c, state, h, start, own) && !T.AtHost(c.pc) && c.pc != T.ReadState && T.AfterSave(c).Some?
    ensures Phase(T.AfterSave(c).value, T.WriteAt(c).state, h, start, own)
  {
    hide Same, Rooted, Ready, Untouched, ReadyToStart, CandidateStarted, Updated, Reinstated, RestoredOk, Kept;
  }

  /** Wherever the durable state is written and the transaction then ends, the two agree. */
  lemma SaveIdle(c: T.Control, job: Job, h: Host, start: Host, own: C.Generations)
    requires RunOk(c, job) && Phase(c, job.state, h, start, own) && !T.AtHost(c.pc) && c.pc != T.ReadState
    ensures Idle(c.plan, T.WriteAt(c).state, h, start, own)
  {
    hide RunOk, Same, Rooted, Ready, Kept, Updated, RestoredOk, Untouched, ReadyToStart, CandidateStarted, Reinstated,
      BackupKnown, Reversible, OriginalRuns, NoCandidate, T.WriteAt;
    StateOfRun(c, job);
    WriteSide(c, job);
    if c.pc == T.SaveStopRequested {
      StoppedHost(h, c.plan);
    } else if c.pc == T.SaveComplete {
      UpdatedNames(h, c.plan);
    } else if c.pc == T.SaveRestored {
      RestoredNames(h, c.plan);
    } else {
      PhaseIsIdle(c, job, h, start, own);
      SameSide(c.plan, job.state, T.WriteAt(c).state, h, start, own);
    }
  }

  /** Only three points write a state that says more about the host than the one before. */
  lemma WriteSide(c: T.Control, job: Job)
    requires RunOk(c, job) && !T.AtHost(c.pc) && c.pc != T.ReadState
    ensures c.pc == T.SaveStopRequested ==> T.WriteAt(c).state == StopRequested
    ensures c.pc == T.SaveComplete ==> T.WriteAt(c).state == Complete
    ensures c.pc == T.SaveRestored ==> T.WriteAt(c).state == Restored
    ensures c.pc !in {T.SaveStopRequested, T.SaveComplete, T.SaveRestored} ==>
      && T.WriteAt(c).state !in {Complete, Restored}
      && (T.WriteAt(c).state in BEFORE_CUTOVER + {Failed} <==> job.state in BEFORE_CUTOVER)
  {
    hide Mentions, IsDigest;
  }

  lemma SameSide(plan: T.Plan, state: State, state': State, h: Host, start: Host, own: C.Generations)
    requires Idle(plan, state, h, start, own) && state !in TERMINAL && state' !in {Complete, Restored}
    requires state' in BEFORE_CUTOVER + {Failed} <==> state in BEFORE_CUTOVER
    ensures Idle(plan, state', h, start, own)
  {
    hide Same, Rooted, Kept, Updated, RestoredOk;
  }

  lemma StateOfRun(c: T.Control, job: Job)
    requires RunOk(c, job)
    ensures job.state !in TERMINAL
    ensures job.state in BEFORE_CUTOVER ==> Order(c.pc) < 9 || c.pc in {T.ReadState, T.SaveFailed}
    ensures Order(c.pc) < 9 || c.pc == T.SaveFailed ==> job.state in BEFORE_CUTOVER
  {
    hide Mentions, IsDigest;
  }

  lemma UpdatedNames(h: Host, plan: T.Plan)
    requires Updated(h, plan)
    ensures h.(activePlan := Some(plan)) == h
  {
  }

  lemma RestoredNames(h: Host, plan: T.Plan)
    requires RestoredOk(h, plan)
    ensures h.(activePlan := Some(plan)) == h
  {
  }

  /** The runner only ever invokes an action in the situation its contract is written for. */
  lemma ActionEntered(c: T.Control, job: Job, h: Host, start: Host, own: C.Generations)
    requires RunOk(c, job) && Phase(c, job.state, h, start, own) && T.AtHost(c.pc)
    ensures Entered(T.ActionAt(c), h)
  {
    hide Same, Rooted, Ready, BackupKnown, Reinstated, CandidateStarted, ReadyToStart, Mentions, IsDigest;
    if c.pc in {T.Prepare, T.Stop, T.TakeBackup} {
      hide Untouched;
    }
  }

  lemma SameHost(start: Host, own: C.Generations, h: Host, h': Host)
    requires Same(start, own, h) && h'.containers == h.containers && h'.enrollment == h.enrollment && h'.gen == h.gen
    ensures Same(start, own, h')
  {
  }

  lemma RootedHost(start: Host, own: C.Generations, h: Host, h': Host)
    requires Rooted(start, own, h) && h'.base == h.base && h'.enrolled == h.enrolled
    ensures Rooted(start, own, h')
  {
  }

  /** The first preflight roots the update in what it found. */
  lemma FirstRoot(start: Host, own: C.Generations, h: Host, h': Host)
    requires Same(start, own, h) && h'.enrolled == h.enrollment && h'.base == h.gen
    ensures Rooted(start, own, h')
  {
  }

  /** Before the stop an action only fills the memory of the adapter. */
  lemma EarlyContract(c: T.Control, h: Host, a: T.Answer, h': Host)
    requires T.AtHost(c.pc) && Order(c.pc) < 9 && Contract(T.ActionAt(c), h, a, h')
    ensures h'.containers == h.containers && h'.enrollment == h.enrollment && h'.gen == h.gen
    ensures c.pc == T.FirstVersion ==> h' == h
    ensures c.pc == T.FirstPreflight && a.Returned? && Unknown(h, c.plan) ==>
      Untouched(h', c.plan) && h'.enrolled == h.enrollment && h'.base == h.gen
    ensures Order(c.pc) > 1 && Untouched(h, c.plan) ==>
      Untouched(h', c.plan) && h'.base == h.base && h'.enrolled == h.enrolled
  {
    if Untouched(h, c.plan) { UntouchedNames(h, c.plan); }
    hide Untouched, Unknown;
  }

  lemma EarlyHost(c: T.Control, job: Job, h: Host, a: T.Answer, h': Host, start: Host, own: C.Generations)
    requires RunOk(c, job) && Phase(c, job.state, h, start, own) && T.AtHost(c.pc) && Order(c.pc) < 9
    requires Contract(T.ActionAt(c), h, a, h')
    ensures T.AfterHost(c, a).Some? ==> Phase(T.AfterHost(c, a).value, job.state, h', start, own)
    ensures Idle(c.plan, job.state, h', start, own)
  {
    hide RunOk, Same, Rooted, Invaded, Untouched, Unknown, Contract, Kept, Updated, RestoredOk;
    StateOfRun(c, job);
    EarlyContract(c, h, a, h');
    SameHost(start, own, h, h');
    if c.pc == T.FirstPreflight {
      if a.Returned? { FirstRoot(start, own, h, h'); }
    } else if c.pc != T.FirstVersion {
      RootedHost(start, own, h, h');
    }
  }

  lemma UntouchedNames(h: Host, plan: T.Plan)
    requires Untouched(h, plan)
    ensures h.activePlan == Some(plan)
  {
  }

  /** However an invasive action ends, the original is preserved. */
  lemma LateHostIdle(c: T.Control, job: Job, h: Host, a: T.Answer, h': Host, start: Host, own: C.Generations)
    requires RunOk(c, job) && Phase(c, job.state, h, start, own) && T.AtHost(c.pc) && Order(c.pc) >= 9
    requires Contract(T.ActionAt(c), h, a, h')
    ensures Rooted(start, own, h') && Kept(h', c.plan)
    ensures Idle(c.plan, job.state, h', start, own)
  {
    hide RunOk, Same, Rooted, Kept, Claims, Ready, Untouched, ReadyToStart, Reinstated, RestoredOk, CandidateStarted,
      Updated, Deployed;
    StateOfRun(c, job);
    RootedByThen(c, job.state, h, start, own);
    RootedHost(start, own, h, h');
    match c.pc
    case Stop => StoppedHost(h', c.plan);
    case TakeBackup => ReadyHost(h', c.plan);
    case Start => ReadyIsKept(h', c.plan);
    case Verify => ReadyIsKept(h', c.plan);
    case _ =>
  }

  lemma LateHost(c: T.Control, job: Job, h: Host, a: T.Answer, h': Host, start: Host, own: C.Generations)
    requires RunOk(c, job) && Phase(c, job.state, h, start, own) && T.AtHost(c.pc) && Order(c.pc) >= 9
    requires Contract(T.ActionAt(c), h, a, h') && T.AfterHost(c, a).Some?
    ensures Phase(T.AfterHost(c, a).value, job.state, h', start, own)
  {
    LateHostIdle(c, job, h, a, h', start, own);
    StateOfRun(c, job);
    BackupByThen(c, job);
    hide RunOk, Idle, Contract, Phase, Same, Rooted, Kept, Ready, Reinstated, RestoredOk;
    Raised(c, job.state, h, a, h', start, own);
    Returned(c, job.state, h, a, h', start, own);
  }

  /** From however an action on the way forward ends, the original can be put back. */
  lemma StillReady(c: T.Control, h: Host, a: T.Answer, h': Host)
    requires T.AtHost(c.pc) && 9 <= Order(c.pc) < 20 && Contract(T.ActionAt(c), h, a, h')
    ensures Ready(h', c.plan) && Reversible(h')
    ensures Order(c.pc) >= 13 ==> h'.backup == h.backup
  {
    hide NoCandidate, CandidateStarted, Updated, Inherits, BuiltFrom, Deployed, Matches, OriginalRuns, Claims,
      MemoryOk, DockerOk,
      FilesOk, WritersOk, Owns;
    match c.pc
    case Stop => StoppedHost(h', c.plan);
    case TakeBackup => ReadyHost(h', c.plan);
    case _ => hide Untouched, ReadyToStart;
  }

  lemma Raised(c: T.Control, state: State, h: Host, a: T.Answer, h': Host, start: Host, own: C.Generations)
    requires Phase(c, state, h, start, own) && T.AtHost(c.pc) && Order(c.pc) >= 9 && state !in BEFORE_CUTOVER
    requires Contract(T.ActionAt(c), h, a, h') && Rooted(start, own, h') && Kept(h', c.plan)
    requires Order(c.pc) < 13 ==> c.backup.None?
    ensures Order(c.pc) < 20 ==> Phase(T.Fail(c, T.ActionCode(c.pc)), state, h', start, own)
    ensures Order(c.pc) >= 20 ==> Phase(c.(pc := T.SaveManual), state, h', start, own)
  {
    hide Contract, Same, Rooted, Kept, Ready, Reversible, Reinstated, RestoredOk, CandidateStarted, Updated, Untouched,
      ReadyToStart, OriginalRuns;
    if Order(c.pc) < 20 { StillReady(c, h, a, h'); }
  }

  lemma Returned(c: T.Control, state: State, h: Host, a: T.Answer, h': Host, start: Host, own: C.Generations)
    requires Phase(c, state, h, start, own) && T.AtHost(c.pc) && Order(c.pc) >= 9 && state !in BEFORE_CUTOVER
    requires Contract(T.ActionAt(c), h, a, h') && Rooted(start, own, h')
    ensures a.Returned? && !(c.pc == T.TakeBackup && !T.GoodBackup(c.plan, a.value)) ==>
      T.AfterHost(c, a).Some? && Phase(T.AfterHost(c, a).value, state, h', start, own)
  {
    hide Contract, Same, Rooted, Phase;
    if Order(c.pc) < 13 {
      ReturnedDown(c, state, h, a, h', start, own);
    } else if Order(c.pc) < 20 {
      ReturnedUp(c, state, h, a, h', start, own);
    } else {
      ReturnedBack(c, state, h, a, h', start, own);
    }
  }

  lemma ReturnedDown(c: T.Control, state: State, h: Host, a: T.Answer, h': Host, start: Host, own: C.Generations)
    requires Phase(c, state, h, start, own) && c.pc in {T.Stop, T.TakeBackup} && state !in BEFORE_CUTOVER
    requires Contract(T.ActionAt(c), h, a, h') && Rooted(start, own, h')
    ensures a.Returned? && !(c.pc == T.TakeBackup && !T.GoodBackup(c.plan, a.value)) ==>
      T.AfterHost(c, a).Some? && Phase(T.AfterHost(c, a).value, state, h', start, own)
  {
    hide Same, Rooted, Claims, Ready, OriginalRuns;
  }

  lemma ReturnedUp(c: T.Control, state: State, h: Host, a: T.Answer, h': Host, start: Host, own: C.Generations)
    requires Phase(c, state, h, start, own) && c.pc in {T.Start, T.Verify} && state !in BEFORE_CUTOVER
    requires Contract(T.ActionAt(c), h, a, h') && Rooted(start, own, h')
    ensures a.Returned? ==> T.AfterHost(c, a).Some? && Phase(T.AfterHost(c, a).value, state, h', start, own)
  {
    hide Same, Rooted, Claims, Ready, NoCandidate, CandidateStarted, Updated, Inherits, BuiltFrom, Deployed;
  }

  lemma ReturnedBack(c: T.Control, state: State, h: Host, a: T.Answer, h': Host, start: Host, own: C.Generations)
    requires Phase(c, state, h, start, own) && c.pc in {T.Restore, T.VerifyOriginal} && state !in BEFORE_CUTOVER
    requires Contract(T.ActionAt(c), h, a, h') && Rooted(start, own, h')
    ensures a.Returned? ==> T.AfterHost(c, a).Some? && Phase(T.AfterHost(c, a).value, state, h', start, own)
  {
    hide Same, Rooted, Kept, Claims, Ready, Reinstated, RestoredOk;
  }

  lemma BackupByThen(c: T.Control, job: Job)
    requires RunOk(c, job)
    ensures Order(c.pc) < 13 ==> c.backup.None?
  {
    hide Mentions, IsDigest;
  }

  lemma RootedByThen(c: T.Control, state: State, h: Host, start: Host, own: C.Generations)
    requires Phase(c, state, h, start, own) && T.AtHost(c.pc) && Order(c.pc) >= 9
    ensures Rooted(start, own, h)
  {
    hide Rooted, Same, Invaded, Untouched;
  }

  lemma StoppedHost(h: Host, plan: T.Plan)
    requires Untouched(h, plan)
    ensures Ready(h, plan) && Kept(h, plan)
  {
    ReadyIsKept(h, plan);
  }

  lemma ReadyHost(h: Host, plan: T.Plan)
    requires ReadyToStart(h, plan)
    ensures Ready(h, plan) && Kept(h, plan)
  {
    ReadyIsKept(h, plan);
  }

  // ----------------------------------------------------------------------------------------
  // Every step

  lemma NamedGrows(h: Host, p: Payload, q: Payload)
    requires Named(h, p.jobs) && Extends(p, q)
    ensures Named(h, q.jobs)
  {
    forall id: string | Find(p.jobs, id) < |p.jobs| ensures Find(q.jobs, id) < |q.jobs| {
      FindExtends(p, q, id);
    }
  }

  lemma NamedHost(c: T.Control, h: Host, a: T.Answer, h': Host, jobs: seq<Job>)
    requires Named(h, jobs) && T.AtHost(c.pc) && Find(jobs, c.plan.id) < |jobs|
    requires Contract(T.ActionAt(c), h, a, h')
    ensures Named(h', jobs)
  {
    ContractNames(c, h, a, h');
    hide Contract;
  }

  lemma ContractNames(c: T.Control, h: Host, a: T.Answer, h': Host)
    requires T.AtHost(c.pc) && Contract(T.ActionAt(c), h, a, h')
    ensures Claims(h.containers, h'.containers, c.plan.id)
    ensures h'.activePlan in {h.activePlan, Some(c.plan)}
  {
    hide Kept, Ready, Reinstated, RestoredOk, CandidateStarted, Updated, NoCandidate, Unknown, OriginalRuns, Matches;
    match c.pc
    case Prepare => hide Untouched;
    case Stop => hide Untouched;
    case TakeBackup => hide ReadyToStart;
    case _ => hide Untouched, ReadyToStart;
  }

  /** A request recorded just now finds the host as it is, and has no name there yet. */
  lemma FreshPhase(req: Request, h: Host, jobs: seq<Job>)
    requires Named(h, jobs) && Find(jobs, req.id) == |jobs|
    ensures Phase(T.Initial(T.PlanOf(req)), Requested, h, h, h.gen)
    ensures Idle(T.PlanOf(req), Requested, h, h, h.gen)
  {
    hide Newer, Find, Invaded, Untouched, Updated, RestoredOk, Kept, Rooted, Same, Unknown, Named;
    FreshUnknown(req, h, jobs);
  }

  lemma FreshUnknown(req: Request, h: Host, jobs: seq<Job>)
    requires Named(h, jobs) && Find(jobs, req.id) == |jobs|
    ensures Unknown(h, T.PlanOf(req)) && Same(h, h.gen, h)
  {
    hide Find;
  }

  lemma SubmitInv(s: Sys, m: T.Move, s': Sys)
    requires SysInv(s) && Moves(s, m, s') && m.Submit?
    requires s.w.up && s.w.run.None? && !s.w.store.ioFailed && IsRequest(m.req)
    ensures Stands(s'.w.run, Jobs(s'.w), s'.h, s'.start, s'.own) && Traced(s'.w.run, Jobs(s'.w), s'.h, s'.start, s'.own)
  {
    hide BeginStep, Valid, Extends, IsRequest, Named, Phase, Idle, Find, NewJob, T.Initial, Blocked, CallsOk, AcksOk,
      NoRepeats, OnlyHostCalls, RunOk, CallsBefore;
    var p := s.w.store.disk.value;
    BeginOutcome(s.w.store, p, m.req, m.now, m.io);
    if Jobs(s'.w) != p.jobs {
      FreshPhase(m.req, s.h, p.jobs);
      NewJobState(m.req, m.now);
      InitialOrder(m.req);
    }
  }

  lemma InitialOrder(req: Request)
    ensures Order(T.Initial(T.PlanOf(req)).pc) in {0, 20}
  {
  }

  lemma NewJobState(req: Request, now: int)
    ensures NewJob(req, now).state == Requested && PlanOfJob(NewJob(req, now)) == T.PlanOf(req)
  {
  }

  lemma HostInv(s: Sys, m: T.Move, s': Sys)
    requires SysInv(s) && Moves(s, m, s') && m.Host? && s.w.run.Some? && T.AtHost(s.w.run.value.pc)
    ensures Named(s'.h, Jobs(s'.w)) && Stands(s'.w.run, Jobs(s'.w), s'.h, s'.start, s'.own)
    ensures Traced(s'.w.run, Jobs(s'.w), s'.h, s'.start, s'.own)
  {
    hide Phase, Idle, Contract, Entered, RunOk, Named, Valid, CallsOk, AcksOk, T.AfterHost, T.ActionAt, OwnWrites,
      FromArchive;
    RunIsOk(s.w);
    var c, p := s.w.run.value, s.w.store.disk.value;
    var job := LastJob(p);
    UniqueFindLast(p);
    ActionEntered(c, job, s.h, s.start, s.own);
    NamedHost(c, s.h, m.answer, s'.h, p.jobs);
    if Order(c.pc) < 9 {
      EarlyHost(c, job, s.h, m.answer, s'.h, s.start, s.own);
    } else {
      LateHostIdle(c, job, s.h, m.answer, s'.h, s.start, s.own);
      if T.AfterHost(c, m.answer).Some? { LateHost(c, job, s.h, m.answer, s'.h, s.start, s.own); }
    }
    PlanOfRun(c, job);
    HostTraced(c, job, s.h, m.answer, s'.h);
  }

  lemma HostTraced(c: T.Control, job: Job, h: Host, a: T.Answer, h': Host)
    requires RunOk(c, job) && T.AtHost(c.pc) && Contract(T.ActionAt(c), h, a, h') && FromArchive(Some(c), job, h)
    ensures FromArchive(T.AfterHost(c, a), job, h')
  {
    hide Contract, Mentions, IsDigest, T.ActionAt;
    StateOfRun(c, job);
    if 15 <= Order(c.pc) < 20 { ContractBuilt(c, h, a, h'); }
  }

  lemma ContractBuilt(c: T.Control, h: Host, a: T.Answer, h': Host)
    requires c.pc in {T.Start, T.Verify} && Contract(T.ActionAt(c), h, a, h')
    ensures h'.built == h.built
    ensures c.pc == T.Start && a.Returned? ==>
      c.candidate.Some? && h'.built.Some? && c.candidate.value.archive == h'.built.value.archive
  {
    hide Ready, CandidateStarted, Updated, Claims, Inherits, NoCandidate, Deployed;
  }

  lemma PlanOfRun(c: T.Control, job: Job)
    requires RunOk(c, job)
    ensures PlanOfJob(job) == c.plan
  {
  }

  lemma DiskInv(s: Sys, m: T.Move, s': Sys)
    requires SysInv(s) && Moves(s, m, s') && m.Disk? && s.w.run.Some? && !T.AtHost(s.w.run.value.pc)
    ensures Stands(s'.w.run, Jobs(s'.w), s'.h, s'.start, s'.own) && Traced(s'.w.run, Jobs(s'.w), s'.h, s'.start, s'.own)
  {
    hide Phase, Idle, RunOk, Named, Valid, CallsOk, AcksOk, T.AfterSave, T.WriteAt, T.DiskStep, Extends, OwnWrites,
      FromArchive;
    RunIsOk(s.w);
    var c, p := s.w.run.value, s.w.store.disk.value;
    var job := LastJob(p);
    PlanOfRun(c, job);
    PhaseIsIdle(c, job, s.h, s.start, s.own);
    if c.pc == T.ReadState {
      ReadOutcome(s.w, p, c, m.now, m.io);
      ReadTraced(c, job, s.h);
      ReadPhase(c, job.state, s.h, s.start, s.own);
    } else {
      SaveWritesLast(s.w, m.now, m.io);
      SaveIdle(c, job, s.h, s.start, s.own);
      if T.AfterSave(c).Some? { SavePhase(c, job.state, s.h, s.start, s.own); }
      SaveTraced(c, job, s'.w.run, LastJob(s'.w.store.disk.value), s.h);
    }
  }

  lemma ReadTraced(c: T.Control, job: Job, h: Host)
    requires RunOk(c, job) && c.pc == T.ReadState
    ensures FromArchive(None, job, h)
    ensures FromArchive(Some(c.(pc := if job.state in BEFORE_CUTOVER then T.SaveFailed else T.SaveRollingBack)), job, h)
  {
    StateOfRun(c, job);
    hide RunOk;
  }

  lemma SaveTraced(c: T.Control, job: Job, run': Option<T.Control>, job': Job, h: Host)
    requires RunOk(c, job) && !T.AtHost(c.pc) && c.pc != T.ReadState && FromArchive(Some(c), job, h)
    requires run'.None? || run' == T.AfterSave(c)
    requires job'.state in {job.state, T.WriteAt(c).state} && (job.artifact.Some? ==> job'.artifact == job.artifact)
    ensures FromArchive(run', job', h)
  {
    StateOfRun(c, job);
    hide RunOk;
  }

  lemma ReadPhase(c: T.Control, state: State, h: Host, start: Host, own: C.Generations)
    requires Phase(c, state, h, start, own) && c.pc == T.ReadState
    ensures Phase(c.(pc := if state in BEFORE_CUTOVER then T.SaveFailed else T.SaveRollingBack), state, h, start, own)
  {
    hide Same, Rooted, Ready;
  }

  /** Whatever a saving point finds, the last job on disk is the one it was, or the one it wrote. */
  lemma SaveWritesLast(w: T.World, now: int, io: Io)
    requires Inv(w) && w.run.Some? && !T.AtHost(w.run.value.pc) && w.run.value.pc != T.ReadState
    ensures var w', p := T.DiskStep(w, w.run.value, now, io), w.store.disk.value;
      && w'.store.disk.Some? && |w'.store.disk.value.jobs| == |p.jobs| > 0
      && PlanOfJob(LastJob(w'.store.disk.value)) == PlanOfJob(LastJob(p))
      && (w'.run.None? || w'.run == T.AfterSave(w.run.value))
      && (w'.run.Some? ==> LastJob(w'.store.disk.value).state == T.WriteAt(w.run.value).state)
      && LastJob(w'.store.disk.value).state in {LastJob(p).state, T.WriteAt(w.run.value).state}
      && (LastJob(p).artifact.Some? ==> LastJob(w'.store.disk.value).artifact == LastJob(p).artifact)
  {
    hide Valid, TransitionStep, Extends, CallsOk, AcksOk, NoRepeats, OnlyHostCalls, CallsBefore, T.WriteAt,
      T.AfterSave, RunOk, Next;
    RunIsOk(w);
    var c, p := w.run.value, w.store.disk.value;
    UniqueFindLast(p);
    var write := T.WriteAt(c);
    TransitionOutcome(w.store, p, c.plan.id, write.state, write.code, write.backup, write.artifact, now, io);
    LastExtends(p, T.DiskStep(w, c, now, io).store.disk.value);
  }

  lemma LastExtends(p: Payload, q: Payload)
    requires Extends(p, q) && |q.jobs| == |p.jobs| > 0
    ensures LastJob(p).artifact.Some? ==> LastJob(q).artifact == LastJob(p).artifact
  {
    assert JobExtends(p.jobs[|p.jobs| - 1], q.jobs[|p.jobs| - 1]);
  }

  /** Reconciliation only says what is true of a host that a crash left alone. */
  lemma IdleRestart(plan: T.Plan, state: State, state': State, h: Host, start: Host, own: C.Generations)
    requires Idle(plan, state, h, start, own)
    requires state' == state || (state !in TERMINAL && state' == RecoveryTarget(state))
    ensures Idle(plan, state', h.(activePlan := None), start, own)
  {
    var h' := h.(activePlan := None);
    assert h'.(activePlan := Some(plan)) == h.(activePlan := Some(plan));
    assert Kept(h, plan) ==> Kept(h', plan);
    hide Kept, Updated, RestoredOk, KeptTrees;
  }

  lemma RestartOutcome(w: T.World, now: int, io: Io)
    requires Inv(w) && !w.up
    ensures var w' := T.RestartStep(w, now, io);
      && w'.store.disk.Some? && w'.run.None? && |Jobs(w')| == |Jobs(w)|
      && Extends(w.store.disk.value, w'.store.disk.value)
      && (Jobs(w) != [] ==>
            var last, last' := Jobs(w)[|Jobs(w)| - 1], Jobs(w')[|Jobs(w)| - 1];
            && PlanOfJob(last') == PlanOfJob(last) && (last.artifact.Some? ==> last'.artifact == last.artifact)
            && (last'.state == last.state || (last.state !in TERMINAL && last'.state == RecoveryTarget(last.state))))
  {
    hide Valid, CallsOk, AcksOk, RecoverStep;
    var p := w.store.disk.value;
    RecoveryOutcome(Store(w.store.disk, false), p, now, io);
    ExtendsReflexive(p);
    var q := T.RestartStep(w, now, io).store.disk.value;
    if p.jobs != [] {
      assert JobExtends(p.jobs[|p.jobs| - 1], q.jobs[|p.jobs| - 1]);
    }
  }

  lemma RestartInv(s: Sys, m: T.Move, s': Sys)
    requires SysInv(s) && Moves(s, m, s') && m.Restart? && !s.w.up
    ensures Named(s'.h, Jobs(s'.w)) && Stands(s'.w.run, Jobs(s'.w), s'.h, s'.start, s'.own)
    ensures Traced(s'.w.run, Jobs(s'.w), s'.h, s'.start, s'.own)
  {
    hide RunOk, Valid, CallsOk, AcksOk, Extends, T.RestartStep, Find, OwnWrites;
    RestartOutcome(s.w, m.now, m.io);
    NamedGrows(s.h, s.w.store.disk.value, s'.w.store.disk.value);
    hide Phase, Idle, RunOk, Valid, CallsOk, AcksOk, Extends, T.RestartStep;
    if Jobs(s.w) != [] {
      var last, last' := Jobs(s.w)[|Jobs(s.w)| - 1], Jobs(s'.w)[|Jobs(s.w)| - 1];
      IdleRestart(PlanOfJob(last), last.state, last'.state, s.h, s.start, s.own);
    }
  }

  lemma KillInv(s: Sys, s': Sys)
    requires SysInv(s) && Moves(s, T.Kill, s')
    ensures Stands(s'.w.run, Jobs(s'.w), s'.h, s'.start, s'.own) && Traced(s'.w.run, Jobs(s'.w), s'.h, s'.start, s'.own)
  {
    hide Phase, Idle, RunOk, Valid, CallsOk, AcksOk, Named, OwnWrites;
    if s.w.run.Some? {
      RunIsOk(s.w);
      var job := LastJob(s.w.store.disk.value);
      StateOfRun(s.w.run.value, job);
      PhaseIsIdle(s.w.run.value, job, s.h, s.start, s.own);
      PlanOfRun(s.w.run.value, job);
    }
  }

  lemma WritesInv(s: Sys, t: Tree, original: bool, s': Sys)
    requires SysInv(s) && Writes(s, t, original, s')
    ensures SysInv(s')
  {
    hide Phase, Idle, RunOk, Valid, CallsOk, AcksOk, NoCandidate, OriginalRuns, OwnWrites, Owned, Written, FromArchive;
    WrittenRest(s.h, t);
    if Jobs(s.w) != [] {
      var job := LastJob(s.w.store.disk.value);
      LiveIsOwn(s, original);
      if s.w.run.Some? {
        RunIsOk(s.w);
        PlanOfRun(s.w.run.value, job);
        StateOfRun(s.w.run.value, job);
        PhaseWrites(s.w.run.value, job, s.h, s.start, s.own, t, original);
      } else {
        IdleWrites(PlanOfJob(job), job.state, s.h, s.start, s.own, t, original);
      }
      OwnedIsOwn(s.start, s.own, s.h, t, original);
      assert FromArchive(s.w.run, job, s.h) ==> FromArchive(s.w.run, job, s'.h) by {
        SameBuilt(s.w.run, job, s.h, s'.h);
      }
    }
  }

  lemma SameBuilt(run: Option<T.Control>, job: Job, h: Host, h': Host)
    requires h'.built == h.built
    ensures FromArchive(run, job, h) ==> FromArchive(run, job, h')
  {
  }

  lemma WrittenRest(h: Host, t: Tree)
    requires CanWrite(h)
    ensures Written(h, t) == h.(gen := Written(h, t).gen, base := Written(h, t).base)
  {
  }

  /** Where the original writes, its own files are live. */
  lemma LiveIsOwn(s: Sys, original: bool)
    requires SysInv(s) && Jobs(s.w) != [] && (if original then OriginalTurn(s) else CandidateTurn(s))
    ensures original ==> s.h.gen.live == s.own.live
  {
    hide Valid, CallsOk, AcksOk, Named, RunOk, NoCandidate, OriginalRuns, KeptTrees, Traced;
    AlwaysIdle(s);
    var last := LastJob(s.w.store.disk.value);
    if last.state !in BEFORE_CUTOVER + {Failed} {
      IdleKeeps(PlanOfJob(last), last.state, s.h, s.start, s.own);
      KeptSides(s.h, PlanOfJob(last));
    }
  }

  lemma OwnedIsOwn(start: Host, own: C.Generations, h: Host, t: Tree, original: bool)
    requires OwnWrites(start.gen, own) && CanWrite(h) && (original ==> h.gen.live == own.live)
    ensures OwnWrites(start.gen, Owned(own, h, t, original))
  {
  }

  lemma MovesInv(s: Sys, m: T.Move, s': Sys)
    requires SysInv(s) && Moves(s, m, s')
    ensures SysInv(s')
  {
    StepKeeps(s.w, m);
    NamedGrowsTo(s, s'.w);
    hide Phase, Idle, RunOk, Valid, CallsOk, AcksOk, Named, Extends, Stands, Inv,
      T.SubmitStep, T.HostStep, T.DiskStep, T.RestartStep, IsRequest, Contract, Entered;
    match m
    case Submit(req, _, _, _) =>
      if s.w.up && s.w.run.None? && !s.w.store.ioFailed && IsRequest(req) { SubmitInv(s, m, s'); }
    case Host(_) =>
      if s.w.run.Some? && T.AtHost(s.w.run.value.pc) { HostInv(s, m, s'); }
    case Disk(_, _) =>
      if s.w.run.Some? && !T.AtHost(s.w.run.value.pc) { DiskInv(s, m, s'); }
    case LockBreaks =>
    case Kill => KillInv(s, s');
    case Restart(_, _) =>
      if !s.w.up { RestartInv(s, m, s'); }
  }

  lemma NamedGrowsTo(s: Sys, w: T.World)
    requires SysInv(s) && w.store.disk.Some? && Extends(s.w.store.disk.value, w.store.disk.value)
    ensures Named(s.h, Jobs(w))
  {
    NamedGrows(s.h, s.w.store.disk.value, w.store.disk.value);
  }

  lemma StepInv(s: Sys, s': Sys)
    requires SysInv(s) && SysStep(s, s')
    ensures SysInv(s')
  {
    hide SysInv, Moves, Writes;
    forall m | Moves(s, m, s') ensures SysInv(s') { MovesInv(s, m, s'); }
    forall t, original | Writes(s, t, original, s') ensures SysInv(s') { WritesInv(s, t, original, s'); }
  }

  /** Over every behaviour, at every moment. */
  lemma {:induction false} AlwaysStands(b: seq<Sys>, i: nat)
    requires IsBehaviour(b) && i < |b|
    ensures SysInv(b[i])
  {
    hide Inv, Phase, Idle, SysStep;
    if i == 0 {
      FreshIsGood();
    } else {
      AlwaysStands(b, i - 1);
      assert SysStep(b[i - 1], b[i - 1 + 1]);
      StepInv(b[i - 1], b[i]);
    }
  }

  // ----------------------------------------------------------------------------------------
  // What the journal promises about the host

  ghost predicate LastIs(s: Sys, state: State) {
    Jobs(s.w) != [] && Jobs(s.w)[|Jobs(s.w)| - 1].state == state
  }

  lemma TerminalIsIdle(s: Sys)
    requires SysInv(s) && Jobs(s.w) != [] && Jobs(s.w)[|Jobs(s.w)| - 1].state in TERMINAL
    ensures var last := Jobs(s.w)[|Jobs(s.w)| - 1];
      s.w.run.None? && Idle(PlanOfJob(last), last.state, s.h, s.start, s.own)
  {
    hide Phase, Idle, Valid, CallsOk, AcksOk, Named, RunOk;
    if s.w.run.Some? {
      RunIsOk(s.w);
      StateOfRun(s.w.run.value, LastJob(s.w.store.disk.value));
    }
  }

  /** COMPLETE: the planned entries are those of the release of the journalled archive, the data and
      the environment; every one is the candidate's, with the original's set aside, and the entries
      of the release hold exactly the release. The enrollment names a running container of the
      target version, with the image built from that archive; the original container is gone. */
  lemma CompleteMeansUpdated(b: seq<Sys>, i: nat)
    requires IsBehaviour(b) && i < |b| && LastIs(b[i], Complete)
    ensures var h, start, job := b[i].h, b[i].start, LastJob(b[i].w.store.disk.value);
      && h.cutover.Some? && "data" in h.cutover.value.ids
      && (forall n :: n in h.cutover.value.ids ==>
            && C.Id(h.gen.live, n) == Some(h.cutover.value.ids[n].candidate)
            && C.Id(h.gen.pending, n) == h.cutover.value.ids[n].original == C.Id(start.gen.live, n))
      && h.enrollment.version == job.target
      && h.built.Some? && job.artifact == Some(h.built.value.archive) && h.enrollment.image == h.built.value.image
      && h.cutover.value.ids.Keys == h.built.value.release.Keys + {"data", ".env"}
      && (forall n :: n in h.built.value.release ==> Live(h.gen, n) == Some(h.built.value.release[n]))
      && Running(h, h.enrollment.containerId, h.enrollment.image)
      && start.enrollment.containerId !in h.containers
  {
    hide SysInv, Ready, C.AtPrefix, Kept, RestoredOk, Same, OwnWrites;
    AlwaysStands(b, i);
    TerminalIsIdle(b[i]);
    TerminalIsTraced(b[i]);
    var h, start, job := b[i].h, b[i].start, LastJob(b[i].w.store.disk.value);
    UpdatedEntries(h.(activePlan := Some(PlanOfJob(job))), PlanOfJob(job), start, b[i].own);
  }

  lemma TerminalIsTraced(s: Sys)
    requires SysInv(s) && Jobs(s.w) != [] && s.w.run.None?
    ensures OwnWrites(s.start.gen, s.own)
    ensures LastIs(s, Complete) ==>
      s.h.built.Some? && LastJob(s.w.store.disk.value).artifact == Some(s.h.built.value.archive)
  {
    hide Inv, Named, Stands, OwnWrites;
  }

  lemma UpdatedEntries(h: Host, plan: T.Plan, start: Host, own: C.Generations)
    requires Updated(h, plan) && Rooted(start, own, h) && OwnWrites(start.gen, own)
    ensures h.built.Some? && h.enrollment.image == h.built.value.image && "data" in h.cutover.value.ids
    ensures Deployed(h.built, h.cutover, h.gen)
    ensures forall n :: n in h.cutover.value.ids ==>
      && C.Id(h.gen.live, n) == Some(h.cutover.value.ids[n].candidate)
      && C.Id(h.gen.pending, n) == h.cutover.value.ids[n].original == C.Id(start.gen.live, n)
  {
    var cp := h.cutover.value;
    hide DockerOk, Safe, KeptTrees, FreshIds, WritersOk, Recorded, Owns, Deployed;
    forall n | n in cp.ids
      ensures C.Id(h.gen.live, n) == Some(cp.ids[n].candidate)
      ensures C.Id(h.gen.pending, n) == cp.ids[n].original == C.Id(start.gen.live, n)
    {
      var k :| 0 <= k < |cp.order| && cp.order[k] == n;
      assert C.PositionOf(h.gen, cp.ids[cp.order[k]], cp.order[k]) == C.Candidate;
      assert C.PositionOf(h.prepared, cp.ids[cp.order[k]], cp.order[k]) == C.Original;
    }
  }

  /** RESTORED: the live entries are those of the start, each with the content in which the original
      itself left it, the data included; the enrollment is that of the start up to the identity of
      the container; it runs, and no candidate does. */
  lemma RestoredMeansOriginal(b: seq<Sys>, i: nat)
    requires IsBehaviour(b) && i < |b| && LastIs(b[i], Restored)
    ensures var h, start, jobs := b[i].h, b[i].start, Jobs(b[i].w);
      && OwnWrites(start.gen, b[i].own)
      && h.gen.live == b[i].own.live
      && (forall t :: t in b[i].own.trees ==> t in h.gen.trees && h.gen.trees[t] == b[i].own.trees[t])
      && h.enrollment == start.enrollment.(containerId := h.enrollment.containerId)
      && h.enrollment.containerId in h.containers
      && h.containers[h.enrollment.containerId].running
      && h.containers[h.enrollment.containerId].image == start.enrollment.image
      && forall c |
           && c in h.containers && h.containers[c].role == LiveRole
           && h.containers[c].request == jobs[|jobs| - 1].id ::
           !h.containers[c].running
  {
    hide SysInv, OwnWrites;
    AlwaysStands(b, i);
    TerminalIsIdle(b[i]);
    TerminalIsTraced(b[i]);
  }

  /** FAILED: nothing that the installation depends on has been changed. */
  lemma FailedMeansUnchanged(b: seq<Sys>, i: nat)
    requires IsBehaviour(b) && i < |b| && LastIs(b[i], Failed)
    ensures var h, start, own := b[i].h, b[i].start, b[i].own;
      && OwnWrites(start.gen, own)
      && h.containers == start.containers && h.enrollment == start.enrollment
      && h.gen.live == own.live && h.gen.pending == start.gen.pending
      && forall t :: t in own.trees ==> t in h.gen.trees && h.gen.trees[t] == own.trees[t]
  {
    hide SysInv, Updated, RestoredOk, Kept, Rooted, OwnWrites;
    AlwaysStands(b, i);
    TerminalIsIdle(b[i]);
    TerminalIsTraced(b[i]);
  }

  /** At every moment of every update, also after any crash: each original entry is live or set
      aside, and everything has the content in which the original itself left it. */
  lemma OriginalsSurvive(b: seq<Sys>, i: nat)
    requires IsBehaviour(b) && i < |b| && Jobs(b[i].w) != []
    ensures OwnWrites(b[i].start.gen, b[i].own) && OriginalsKept(b[i].own, b[i].h.gen)
  {
    hide SysInv;
    AlwaysStands(b, i);
    Survive(b[i]);
  }

  lemma Survive(s: Sys)
    requires SysInv(s) && Jobs(s.w) != []
    ensures OwnWrites(s.start.gen, s.own) && OriginalsKept(s.own, s.h.gen)
  {
    hide Inv, Named, Updated, RestoredOk, NoCandidate, OwnWrites, FromArchive;
    var last := Jobs(s.w)[|Jobs(s.w)| - 1];
    AlwaysIdle(s);
    if last.state !in BEFORE_CUTOVER + {Failed} {
      IdleKeeps(PlanOfJob(last), last.state, s.h, s.start, s.own);
    }
  }

  /** Only the original changes what is its own, and only its data; a new request starts over with
      what it finds. */
  lemma OnlyOriginalWrites(s: Sys, s': Sys)
    requires SysInv(s) && SysStep(s, s') && Jobs(s.w) != [] && |Jobs(s'.w)| == |Jobs(s.w)|
    ensures s'.own == s.own || (OriginalTurn(s) && "data" in s.own.live
      && s'.own == s.own.(trees := s'.own.trees)
      && s'.own.trees - {s.own.live["data"]} == s.own.trees - {s.own.live["data"]}
      && Live(s'.own, "data") == Live(s'.h.gen, "data"))
  {
    hide SysInv, OriginalTurn, CandidateTurn, HostMoves;
    forall t, original | Writes(s, t, original, s') && original
      ensures "data" in s.own.live && s.h.gen.live == s.own.live
    {
      LiveIsOwn(s, original);
    }
  }

  /** While the original is not up, nothing changes what it left: neither the updater, however it
      is interrupted, nor a candidate that writes. */
  lemma {:induction false} StoppedDataSurvives(b: seq<Sys>, i: nat, j: nat)
    requires IsBehaviour(b) && i <= j < |b| && Jobs(b[i].w) != []
    requires forall k :: i <= k < j ==> !OriginalTurn(b[k]) && |Jobs(b[k + 1].w)| == |Jobs(b[k].w)|
    ensures |Jobs(b[j].w)| == |Jobs(b[i].w)|
    ensures b[j].own == b[i].own && OriginalsKept(b[i].own, b[j].h.gen)
  {
    hide SysInv, SysStep, OriginalTurn, OwnWrites, OriginalsKept;
    AlwaysStands(b, j);
    if i < j {
      StoppedDataSurvives(b, i, j - 1);
      AlwaysStands(b, j - 1);
      assert SysStep(b[j - 1], b[j - 1 + 1]);
      assert !OriginalTurn(b[j - 1]) && |Jobs(b[j - 1 + 1].w)| == |Jobs(b[j - 1].w)|;
      OnlyOriginalWrites(b[j - 1], b[j]);
    }
    Survive(b[j]);
  }

  lemma AlwaysIdle(s: Sys)
    requires SysInv(s) && Jobs(s.w) != []
    ensures var last := Jobs(s.w)[|Jobs(s.w)| - 1]; Idle(PlanOfJob(last), last.state, s.h, s.start, s.own)
  {
    hide Phase, Idle, Valid, CallsOk, AcksOk, Named, RunOk;
    if s.w.run.Some? {
      RunIsOk(s.w);
      PhaseIsIdle(s.w.run.value, LastJob(s.w.store.disk.value), s.h, s.start, s.own);
      PlanOfRun(s.w.run.value, LastJob(s.w.store.disk.value));
    }
  }

  lemma IdleKeeps(plan: T.Plan, state: State, h: Host, start: Host, own: C.Generations)
    requires Idle(plan, state, h, start, own) && state !in BEFORE_CUTOVER + {Failed}
    ensures Rooted(start, own, h) && Kept(h, plan)
  {
    var mine := h.(activePlan := Some(plan));
    match state
    case Complete => ReadyIsKept(mine, plan);
    case Restored => BackIsKept(mine, plan);
    case _ =>
  }

  /** From the stop request on, the original and the candidate are never up together. */
  lemma NeverTwoWriters(b: seq<Sys>, i: nat)
    requires IsBehaviour(b) && i < |b| && Jobs(b[i].w) != []
    requires LastJob(b[i].w.store.disk.value).state !in BEFORE_CUTOVER + {Failed}
    ensures var h, id := b[i].h, LastJob(b[i].w.store.disk.value).id;
      forall o, c |
        && o in h.containers && h.containers[o].running
        && (o == h.original.containerId || o == h.restorePolicy.containerId)
        && c in h.containers && h.containers[c].role == LiveRole && h.containers[c].request == id ::
        !h.containers[c].running
  {
    hide SysInv, Idle, OriginalsKept, Rooted;
    AlwaysStands(b, i);
    var s := b[i];
    var last := LastJob(s.w.store.disk.value);
    AlwaysIdle(s);
    IdleKeeps(PlanOfJob(last), last.state, s.h, s.start, s.own);
  }

  /** A candidate starts from exactly the release, and the data and the environment of the original:
      whenever one runs after the action that starts it, however that action ended, its generation
      is live, with the trees that were built from and those that the stopped original left. */
  lemma CandidateStartsFromOriginal(b: seq<Sys>, i: nat, a: T.Answer)
    requires IsBehaviour(b) && i + 1 < |b| && Moves(b[i], T.Host(a), b[i + 1])
    requires b[i].w.run.Some? && b[i].w.run.value.pc == T.Start
    requires a.Returned? || !NoCandidate(b[i + 1].h.containers, b[i].w.run.value.plan)
    ensures AsLeft(b[i].own, b[i].h.gen) && b[i + 1].own == b[i].own
    ensures var g, h := b[i].h.gen, b[i + 1].h;
      && Live(g, "data").Some? && Live(h.gen, "data") == Live(g, "data")
      && Live(g, ".env").Some? && Live(h.gen, ".env") == Live(g, ".env")
      && h.built == b[i].h.built && h.built.Some?
      && forall n :: n in h.built.value.release ==> Live(h.gen, n) == Some(h.built.value.release[n])
  {
    hide Inv, Named, Traced, Phase, Live, NoCandidate, Entered, Contract, AsLeft, RunOk;
    AlwaysStands(b, i);
    RunIsOk(b[i].w);
    var c := b[i].w.run.value;
    ActionEntered(c, LastJob(b[i].w.store.disk.value), b[i].h, b[i].start, b[i].own);
    StartFindsOwn(c, LastJob(b[i].w.store.disk.value).state, b[i].h, b[i].start, b[i].own);
    StartInherits(c, b[i].h, a, b[i + 1].h);
  }

  lemma StartFindsOwn(c: T.Control, state: State, h: Host, start: Host, own: C.Generations)
    requires Phase(c, state, h, start, own) && c.pc == T.Start
    ensures AsLeft(own, h.gen)
  {
    hide MemoryOk, DockerOk, WritersOk, Owns, BackupKnown, OriginalRuns;
  }

  lemma StartInherits(c: T.Control, h: Host, a: T.Answer, h': Host)
    requires c.pc == T.Start && Contract(T.ActionAt(c), h, a, h')
    requires a.Returned? || !NoCandidate(h'.containers, c.plan)
    ensures Inherits(h.gen, h'.gen) && Deployed(h'.built, h'.cutover, h'.gen) && h'.built == h.built
  {
    hide Inherits, Deployed, NoCandidate, Ready, CandidateStarted, Claims;
  }

  /** The adapter's own rejections of a restore cannot strike: the plan is the remembered one, a
      receipt names the snapshot it took, and a retired original has a candidate to anchor on. */
  lemma RestoreIsNeverRejected(b: seq<Sys>, i: nat)
    requires IsBehaviour(b) && i < |b| && b[i].w.run.Some? && b[i].w.run.value.pc == T.Restore
    ensures var c, h := b[i].w.run.value, b[i].h;
      && h.activePlan == Some(c.plan)
      && (c.backup.Some? ==> Matches(c.backup.value, h, c.plan))
      && (h.oldRemoveRequested ==> h.livePolicy.Some?)
  {
    AlwaysStands(b, i);
    hide Inv, Named, Kept, Matches;
    RunIsOk(b[i].w);
    ReadyFacts(b[i].h, b[i].w.run.value.plan);
  }

  /** Every restore that the runner reaches, after any failures before it, finds all that it needs:
      the original entries pass their checks wherever they are, no earlier rollback is in the way,
      and the candidate's container can be proved to be ours. Only changed credentials can refuse
      it, exactly when the live data is the candidate's. */
  lemma RestoreSucceeds(b: seq<Sys>, i: nat, sameCredentials: bool)
    requires IsBehaviour(b) && i < |b| && b[i].w.run.Some? && b[i].w.run.value.pc == T.Restore
    ensures var c, h := b[i].w.run.value, b[i].h;
      RestorePossible(h, c.plan, c.backup, sameCredentials) <==> (DataExchanged(h) ==> sameCredentials)
  {
    AlwaysStands(b, i);
    hide Inv, Named, Kept, Matches, Ready, Reversible, RestorePossible, DataExchanged, Traced;
    RunIsOk(b[i].w);
    ReadyCanRestore(b[i].h, b[i].w.run.value.plan, b[i].w.run.value.backup, sameCredentials);
  }

  /** What a restore that the runner reaches comes to when no step outside fails, and the credentials
      are unchanged: both of its actions return, whatever the original writes in between, and then the
      original is back and runs. So the request ends as RESTORED, unless its record cannot be written. */
  lemma RestoreEndsRestored(b: seq<Sys>, i: nat, a: T.Answer, h': Host)
    requires IsBehaviour(b) && i < |b| && b[i].w.run.Some? && b[i].w.run.value.pc in {T.Restore, T.VerifyOriginal}
    requires Performs(T.ActionAt(b[i].w.run.value), b[i].h, true, a, h')
    ensures var c := b[i].w.run.value; var next := T.AfterHost(c, a);
      && a.Returned? && next.Some?
      && (c.pc == T.Restore ==> next.value.pc == T.VerifyOriginal && Reinstated(h', c.plan))
      && (c.pc == T.VerifyOriginal ==> next.value.pc == T.SaveRestored && RestoredOk(h', c.plan))
  {
    hide SysInv, RestorePossible, DataExchanged, Kept, Carried, Reinstated, RestoredOk;
    var c := b[i].w.run.value;
    if c.pc == T.Restore {
      RestoreSucceeds(b, i, true);
    }
  }
}
